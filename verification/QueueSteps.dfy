/** What each step of the broker and of a consumer does, told from the outside. */
module QueueSteps {
  import opened Text
  import opened Delivery
  import L = Ledger
  import E = UsageEvent

  /** Message m is now x, and the others are as they were. */
  predicate Becomes(s: State, t: State, m: nat, x: Msg)
  {
    && m < |s.msgs| == |t.msgs| && t.msgs[m] == x
    && forall k :: 0 <= k < |s.msgs| && k != m ==> t.msgs[k] == s.msgs[k]
  }

  /** Consumer i is now c, and the others are as they were. */
  predicate Turns(s: State, t: State, i: nat, c: Consumer)
  {
    && i < |s.consumers| == |t.consumers| && t.consumers[i] == c
    && forall j :: 0 <= j < |s.consumers| && j != i ==> t.consumers[j] == s.consumers[j]
  }

  lemma PublishAppends(s: State, event: Option<E.Event>, src: nat)
    ensures
      var t := Step(s, Publish(event, src));
      && Enabled(s, Publish(event, src)) && t.msgs == s.msgs + [Msg(event, src, Ready, 0, 0, 0)]
      && t.led == s.led && t.consumers == s.consumers
  {
  }

  lemma DeliverHandsOver(s: State, m: nat, i: nat)
    requires m < |s.msgs| && s.msgs[m].state.Ready? && i < |s.consumers| && s.consumers[i].open
    ensures
      var t := Step(s, Deliver(m, i));
      && Enabled(s, Deliver(m, i)) && t.led == s.led
      && Becomes(s, t, m, s.msgs[m].(state := Unacked(i), deliveries := s.msgs[m].deliveries + 1))
      && Turns(s, t, i, Consumer(true, s.consumers[i].buffer + {m}))
  {
  }

  /** A message that cannot be decoded is dropped, over an open connection. */
  lemma TakeDrops(s: State, i: nat, m: nat)
    requires i < |s.consumers| && i < |s.led.slots| && s.led.slots[i].Idle?
    requires m < |s.msgs| && m in s.consumers[i].buffer && s.msgs[m].event.None?
    ensures
      var t := Step(s, Take(i, m));
      && Enabled(s, Take(i, m)) && t.led == s.led
      && Becomes(s, t, m, s.msgs[m].(state := if s.consumers[i].open then Dropped else s.msgs[m].state))
      && Turns(s, t, i, s.consumers[i].(buffer := s.consumers[i].buffer - {m}))
  {
  }

  /** Any other begins its charge: prompt and completion tokens together, at the tariff of its model. */
  lemma TakeCharges(s: State, i: nat, m: nat)
    requires i < |s.consumers| && i < |s.led.slots| && s.led.slots[i].Idle?
    requires m < |s.msgs| && m in s.consumers[i].buffer && s.msgs[m].event.Some?
    ensures
      var t, e := Step(s, Take(i, m)), s.msgs[m].event.value;
      var tokens := e.prompt + e.completion;
      var op := L.Usage(e.user, e.model, tokens, s.tariff(e.model, tokens), m);
      && Enabled(s, Take(i, m)) && t.msgs == s.msgs
      && t.led == s.led.(slots := s.led.slots[i := L.Call(op, L.Reading)])
      && Turns(s, t, i, s.consumers[i].(buffer := s.consumers[i].buffer - {m}))
  {
  }

  /** A successful charge is acknowledged and a failed one requeued; over a dead connection neither arrives. */
  lemma SettleAnswers(s: State, i: nat)
    requires i < |s.consumers| && i < |s.led.slots| && s.led.slots[i].Call? && s.led.slots[i].stage.Done?
    requires s.led.slots[i].op.Usage? && s.led.slots[i].op.msg < |s.msgs|
    ensures
      var t, m := Step(s, Settle(i)), s.led.slots[i].op.msg;
      && Enabled(s, Settle(i)) && t.consumers == s.consumers
      && t.led == s.led.(slots := s.led.slots[i := L.Idle])
      && Becomes(s, t, m, s.msgs[m].(
           state := if !s.consumers[i].open then s.msgs[m].state
                    else if s.led.slots[i].stage.ok then Acked else Ready))
  {
  }

  /** Whoever was handed messages by consumer i's connection loses them to the queue, and nobody else does. */
  predicate TakenBack(s: State, t: State, i: nat)
  {
    && |t.msgs| == |s.msgs|
    && forall m :: 0 <= m < |s.msgs| ==>
         t.msgs[m] == if s.msgs[m].state == Unacked(i) then s.msgs[m].(state := Ready) else s.msgs[m]
  }

  /** A connection that goes leaves the consumer what it has buffered and the charge it has under way. */
  lemma CloseTakesBack(s: State, i: nat)
    requires i < |s.consumers| && s.consumers[i].open
    ensures
      var t := Step(s, Close(i));
      && Enabled(s, Close(i)) && t.led == s.led && TakenBack(s, t, i)
      && Turns(s, t, i, Consumer(false, s.consumers[i].buffer))
  {
  }

  /** A process that dies, at any moment, leaves nothing. */
  lemma CrashTakesBack(s: State, i: nat)
    requires i < |s.consumers| && i < |s.led.slots|
    ensures
      var t := Step(s, Crash(i));
      && Enabled(s, Crash(i)) && TakenBack(s, t, i) && Turns(s, t, i, Consumer(false, {}))
      && t.led == s.led.(slots := s.led.slots[i := L.Idle])
  {
    assert s.led.slots[i].Idle? ==> s.led.slots == s.led.slots[i := L.Idle];
  }

  /** A new connection starts with an empty buffer, between two messages. */
  lemma ReconnectStartsAfresh(s: State, i: nat)
    requires i < |s.consumers| && !s.consumers[i].open && i < |s.led.slots| && s.led.slots[i].Idle?
    ensures
      var t := Step(s, Reconnect(i));
      && Enabled(s, Reconnect(i)) && t.led == s.led && t.msgs == s.msgs && Turns(s, t, i, Consumer(true, {}))
  {
  }
}
