/** The queue usage.recorded and the consumers that charge its messages, with every fault that
    the broker, the connection, the process and the database can produce between two steps.

    Consumer i charges through ledger slot i; the remaining slots are HTTP deposits. */
module Delivery {
  import opened Text
  import L = Ledger
  import E = UsageEvent

  type Tariff = (GoString, int) -> int

  datatype MsgState = Ready | Unacked(holder: nat) | Acked | Dropped

  /** `event` is what decoding the body gives.  The three counters are history: how often the
      message was delivered, how often its cost was deducted and how many rows it left. */
  datatype Msg = Msg(event: Option<E.Event>, src: nat, state: MsgState, deliveries: nat, debits: nat, rows: nat)

  /** `buffer` holds the deliveries received and not begun.  It outlives its connection: messages
      already handed over can still be taken after the connection is gone. */
  datatype Consumer = Consumer(open: bool, buffer: set<nat>)

  datatype State = State(led: L.State, msgs: seq<Msg>, consumers: seq<Consumer>, tariff: Tariff)

  datatype Action =
    | Publish(event: Option<E.Event>, src: nat)
    | Deliver(m: nat, i: nat)
    | Take(i: nat, m: nat)
    | Store(a: L.Action)
    | Settle(i: nat)
    | Close(i: nat)
    | Reconnect(i: nat)
    | Crash(i: nat)

  function OpOf(s: State, m: nat): L.Op
    requires m < |s.msgs| && s.msgs[m].event.Some?
  {
    var e := s.msgs[m].event.value;
    L.Usage(e.user, e.model, e.prompt + e.completion, s.tariff(e.model, e.prompt + e.completion), m)
  }

  /** Consumer i is charging message m. */
  predicate Charging(s: State, i: nat, m: nat)
  {
    i < |s.led.slots| && s.led.slots[i].Call? && s.led.slots[i].op.Usage? && s.led.slots[i].op.msg == m
  }

  predicate IsIdle(s: State, i: nat)
  {
    i < |s.led.slots| && s.led.slots[i].Idle?
  }

  /** Store calls: consumers are begun and ended by the queue protocol, deposits freely. */
  predicate StoreEnabled(s: State, a: L.Action)
  {
    && L.Enabled(s.led, a)
    && (a.Begin? ==> |s.consumers| <= a.i && a.op.Deposit?)
    && (a.Return? || a.Abort? ==> |s.consumers| <= a.i)
  }

  predicate Enabled(s: State, a: Action)
  {
    match a
    case Publish(_, _) => true
    case Deliver(m, i) => m < |s.msgs| && s.msgs[m].state.Ready? && i < |s.consumers| && s.consumers[i].open
    case Take(i, m) => i < |s.consumers| && IsIdle(s, i) && m < |s.msgs| && m in s.consumers[i].buffer
    case Store(a) => StoreEnabled(s, a)
    case Settle(i) => i < |s.consumers| && L.Enabled(s.led, L.Return(i))
    case Close(i) => i < |s.consumers| && s.consumers[i].open
    case Reconnect(i) => i < |s.consumers| && !s.consumers[i].open && IsIdle(s, i)
    case Crash(i) => i < |s.consumers| && i < |s.led.slots|
  }

  /** An acknowledgement reaches the broker only over the connection the message came on. */
  function Answer(s: State, i: nat, m: nat, state: MsgState): seq<Msg>
    requires i < |s.consumers|
  {
    if s.consumers[i].open && m < |s.msgs| then s.msgs[m := s.msgs[m].(state := state)] else s.msgs
  }

  /** When a connection goes, the broker makes its unacknowledged messages ready again. */
  function Requeue(msgs: seq<Msg>, i: nat): seq<Msg>
  {
    seq(|msgs|, m requires 0 <= m < |msgs| => if msgs[m].state == Unacked(i) then msgs[m].(state := Ready) else msgs[m])
  }

  /** Which message a successful write of the ledger is for, if any. */
  predicate Pays(s: State, a: L.Action)
    requires L.Enabled(s.led, a)
  {
    && (a.Update? || a.Insert?) && !a.out.Refused?
    && s.led.slots[a.i].op.Usage? && s.led.slots[a.i].op.msg < |s.msgs|
  }

  function Count(s: State, a: L.Action): seq<Msg>
    requires L.Enabled(s.led, a)
  {
    if Pays(s, a) then
      var m := s.led.slots[a.i].op.msg;
      s.msgs[m := if a.Update? then s.msgs[m].(debits := s.msgs[m].debits + 1)
                  else s.msgs[m].(rows := s.msgs[m].rows + 1)]
    else s.msgs
  }

  function Step(s: State, a: Action): State
    requires Enabled(s, a)
  {
    match a
    case Publish(event, src) => s.(msgs := s.msgs + [Msg(event, src, Ready, 0, 0, 0)])
    case Deliver(m, i) =>
      s.(msgs := s.msgs[m := s.msgs[m].(state := Unacked(i), deliveries := s.msgs[m].deliveries + 1)],
         consumers := s.consumers[i := s.consumers[i].(buffer := s.consumers[i].buffer + {m})])
    case Take(i, m) =>
      var t := s.(consumers := s.consumers[i := s.consumers[i].(buffer := s.consumers[i].buffer - {m})]);
      if s.msgs[m].event.None? then t.(msgs := Answer(s, i, m, Dropped))
      else t.(led := L.Step(s.led, L.Begin(i, OpOf(s, m))))
    case Store(a) => s.(led := L.Step(s.led, a), msgs := Count(s, a))
    case Settle(i) =>
      var x := s.led.slots[i];
      var m := if x.op.Usage? then x.op.msg else |s.msgs|;
      s.(led := L.Step(s.led, L.Return(i)), msgs := Answer(s, i, m, if x.stage.ok then Acked else Ready))
    case Close(i) =>
      s.(consumers := s.consumers[i := s.consumers[i].(open := false)], msgs := Requeue(s.msgs, i))
    case Reconnect(i) => s.(consumers := s.consumers[i := Consumer(true, {})])
    case Crash(i) =>
      s.(consumers := s.consumers[i := Consumer(false, {})], msgs := Requeue(s.msgs, i),
         led := if s.led.slots[i].Call? then L.Step(s.led, L.Abort(i)) else s.led)
  }

  predicate Runs(s: State, run: seq<Action>)
    decreases |run|
  {
    run == [] || (Enabled(s, run[0]) && Runs(Step(s, run[0]), run[1..]))
  }

  function Exec(s: State, run: seq<Action>): State
    requires Runs(s, run)
    decreases |run|
  {
    if run == [] then s else Exec(Step(s, run[0]), run[1..])
  }

  lemma RunsCons(s: State, a: Action, rest: seq<Action>)
    requires Enabled(s, a) && Runs(Step(s, a), rest)
    ensures Runs(s, [a] + rest) && Exec(s, [a] + rest) == Exec(Step(s, a), rest)
  {
    assert ([a] + rest)[1..] == rest;
  }

  lemma {:induction false} RunsSnoc(s: State, run: seq<Action>, a: Action)
    requires Runs(s, run) && Enabled(Exec(s, run), a)
    ensures Runs(s, run + [a]) && Exec(s, run + [a]) == Step(Exec(s, run), a)
    decreases |run|
  {
    if run == [] {
      assert run + [a] == [a] && [a][1..] == [];
      assert Runs(Step(s, a), []);
    } else {
      assert (run + [a])[1..] == run[1..] + [a];
      RunsSnoc(Step(s, run[0]), run[1..], a);
    }
  }

  lemma {:induction false} RunsConcat(s: State, r1: seq<Action>, r2: seq<Action>)
    requires Runs(s, r1) && Runs(Exec(s, r1), r2)
    ensures Runs(s, r1 + r2) && Exec(s, r1 + r2) == Exec(Exec(s, r1), r2)
    decreases |r1|
  {
    if r1 == [] {
      assert r1 + r2 == r2;
    } else {
      assert (r1 + r2)[1..] == r1[1..] + r2;
      RunsConcat(Step(s, r1[0]), r1[1..], r2);
    }
  }

  /** Nothing published yet, no call under way, no connection open. */
  predicate Initial(s: State)
  {
    && L.Quiescent(s.led) && s.led.log == [] && s.led.applied == []
    && s.msgs == [] && |s.consumers| <= |s.led.slots|
    && forall i :: 0 <= i < |s.consumers| ==> s.consumers[i] == Consumer(false, {})
  }

  /** The store call behind a step of the queue protocol. */
  function LedgerPart(s: State, a: Action): seq<L.Action>
    requires Enabled(s, a)
  {
    match a
    case Take(i, m) => if s.msgs[m].event.None? then [] else [L.Begin(i, OpOf(s, m))]
    case Store(a) => [a]
    case Settle(i) => [L.Return(i)]
    case Crash(i) => if s.led.slots[i].Call? then [L.Abort(i)] else []
    case _ => []
  }

  function LedgerRun(s: State, run: seq<Action>): seq<L.Action>
    requires Runs(s, run)
    decreases |run|
  {
    if run == [] then [] else LedgerPart(s, run[0]) + LedgerRun(Step(s, run[0]), run[1..])
  }

  /** Seen from the ledger, a run of the queue protocol is a run of store calls, so everything
      proved about every run of the ledger holds here. */
  lemma {:induction false} RunIsLedgerRun(s: State, run: seq<Action>)
    requires Runs(s, run)
    ensures L.Runs(s.led, LedgerRun(s, run))
    ensures L.Exec(s.led, LedgerRun(s, run)) == Exec(s, run).led
    decreases |run|
  {
    if run != [] {
      var t := Step(s, run[0]);
      var part, rest := LedgerPart(s, run[0]), LedgerRun(t, run[1..]);
      RunIsLedgerRun(t, run[1..]);
      if part == [] {
        assert part + rest == rest && t.led == s.led;
      } else {
        assert part == [part[0]];
        L.RunsCons(s.led, part[0], rest);
      }
    }
  }
}
