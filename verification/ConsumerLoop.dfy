/** The consumer as an object: its reconnect loop, its receive loop, and the handling of one message.
    The contracts say that whatever it does is a run of the queue protocol by consumer 0. */
module ConsumerLoop {
  import opened Text
  import opened Billing
  import Rounding
  import L = Ledger
  import D = Delivery
  import E = UsageEvent

  /** The store calls of a charge, as steps of the queue protocol. */
  function Lift(run: seq<L.Action>): seq<D.Action>
  {
    if run == [] then [] else [D.Store(run[0])] + Lift(run[1..])
  }

  predicate Ready(s: D.State, m: nat)
  {
    && |s.consumers| == 1 && |s.led.slots| == 1 && s.led.slots[0].Idle?
    && m < |s.msgs| && m in s.consumers[0].buffer
  }

  /** Taking message m, charging it, and answering. */
  function HandleRun(s: D.State, m: nat, luck: Luck): seq<D.Action>
    requires Ready(s, m)
  {
    [D.Take(0, m)] +
    (if s.msgs[m].event.None? then []
     else Lift(UsageRun(s.led, D.OpOf(s, m), luck)[1..]) + [D.Settle(0)])
  }

  /** How the history of a message goes on when its charge ends like this. */
  function Tally(x: D.Msg, passed: bool, luck: Luck): D.Msg
  {
    x.(debits := if passed && !luck.update.Refused? then x.debits + 1 else x.debits,
       rows := if passed && luck.update.Fine? && !luck.insert.Refused? then x.rows + 1 else x.rows)
  }

  function Verdict(open: bool, x: D.Msg, verdict: D.MsgState): D.Msg
  {
    if open then x.(state := verdict) else x
  }

  /** The state after handling, spelled out. */
  function Handled(s: D.State, m: nat, luck: Luck): D.State
    requires Ready(s, m)
  {
    var open, x := s.consumers[0].open, s.msgs[m];
    var rest := [D.Consumer(open, s.consumers[0].buffer - {m})];
    if x.event.None? then s.(consumers := rest, msgs := s.msgs[m := Verdict(open, x, D.Dropped)])
    else
      var op := D.OpOf(s, m);
      var passed := L.CostOf(op) <= Seen(s.led, op, luck);
      var ok := passed && luck.update.Fine? && luck.insert.Fine?;
      s.(consumers := rest, led := Ended(s.led, op, luck).(slots := [L.Idle]),
         msgs := s.msgs[m := Verdict(open, Tally(x, passed, luck), if ok then D.Acked else D.Ready)])
  }

  // Lifting a run of store calls for message m.
  lemma {:induction false} LiftRuns(s: D.State, run: seq<L.Action>)
    requires L.Runs(s.led, run)
    requires forall a :: a in run ==> a.Read? || a.Update? || a.Insert?
    ensures D.Runs(s, Lift(run)) && D.Exec(s, Lift(run)).led == L.Exec(s.led, run)
    ensures D.Exec(s, Lift(run)).consumers == s.consumers && D.Exec(s, Lift(run)).tariff == s.tariff
    decreases |run|
  {
    if run != [] {
      assert run[0] in run;
      var t := D.Step(s, D.Store(run[0]));
      LiftRuns(t, run[1..]);
      D.RunsCons(s, D.Store(run[0]), Lift(run[1..]));
    }
  }

  lemma WriteTally(s: D.State, m: nat, luck: Luck)
    requires |s.led.slots| == 1 && m < |s.msgs| && D.Charging(s, 0, m) && s.led.slots[0].stage.Updating?
    ensures D.Runs(s, Lift(WriteRun(luck)))
    ensures D.Exec(s, Lift(WriteRun(luck))).msgs == s.msgs[m := Tally(s.msgs[m], true, luck)]
  {
    var u := D.Store(L.Update(0, luck.update));
    var t := D.Step(s, u);
    var w := WriteRun(luck);
    assert w[0] == L.Update(0, luck.update);
    if luck.update.Fine? {
      var i := D.Store(L.Insert(0, luck.insert, luck.now));
      assert w[1..] == [L.Insert(0, luck.insert, luck.now)];
      assert Lift(w[1..]) == [i] + [];
      assert Lift(w) == [u] + ([i] + []);
      D.RunsCons(t, i, []);
      D.RunsCons(s, u, [i] + []);
      assert D.Step(t, i).msgs == s.msgs[m := Tally(s.msgs[m], true, luck)];
    } else {
      assert w[1..] == [];
      assert Lift(w) == [u] + [];
      D.RunsCons(s, u, []);
      assert t.msgs == s.msgs[m := Tally(s.msgs[m], true, luck)];
    }
  }

  // After Take: the store calls of the charge.
  lemma ChargeTally(s: D.State, m: nat, luck: Luck)
    requires |s.led.slots| == 1 && m < |s.msgs| && D.Charging(s, 0, m) && s.led.slots[0].stage.Reading?
    ensures
      var op := s.led.slots[0].op;
      var passed := L.CostOf(op) <= Seen(s.led, op, luck);
      var run := Lift([L.Read(0, luck.up)] + (if !passed then [] else WriteRun(luck)));
      && D.Runs(s, run) && D.Exec(s, run).msgs == s.msgs[m := Tally(s.msgs[m], passed, luck)]
  {
    var op := s.led.slots[0].op;
    var passed := L.CostOf(op) <= Seen(s.led, op, luck);
    var r := D.Store(L.Read(0, luck.up));
    var t := D.Step(s, r);
    var tail := if !passed then [] else WriteRun(luck);
    assert ([L.Read(0, luck.up)] + tail)[1..] == tail;
    assert Lift([L.Read(0, luck.up)] + tail) == [r] + Lift(tail);
    if passed {
      WriteTally(t, m, luck);
    } else {
      assert s.msgs == s.msgs[m := Tally(s.msgs[m], passed, luck)];
    }
    D.RunsCons(s, r, Lift(tail));
  }

  lemma HandleRuns(s: D.State, m: nat, luck: Luck)
    requires Ready(s, m)
    ensures D.Runs(s, HandleRun(s, m, luck)) && D.Exec(s, HandleRun(s, m, luck)) == Handled(s, m, luck)
  {
    var t := D.Step(s, D.Take(0, m));
    if s.msgs[m].event.None? {
      D.RunsCons(s, D.Take(0, m), []);
      assert HandleRun(s, m, luck) == [D.Take(0, m)] + [];
      assert t.consumers == Handled(s, m, luck).consumers && t.msgs == Handled(s, m, luck).msgs;
    } else {
      ChargeRuns(s, m, luck);
    }
  }

  lemma RunOf(s: D.State, m: nat, luck: Luck) returns (run: seq<D.Action>)
    requires Ready(s, m)
    ensures run == HandleRun(s, m, luck) && D.Runs(s, run) && D.Exec(s, run) == Handled(s, m, luck)
  {
    HandleRuns(s, m, luck);
    run := HandleRun(s, m, luck);
  }

  // The parts of a handled message's state, put together.
  lemma AnsweredAs(s: D.State, m: nat, luck: Luck, ok: bool, t: D.State)
    requires Ready(s, m) && s.msgs[m].event.Some?
    requires
      var open, op := s.consumers[0].open, D.OpOf(s, m);
      var msgs := s.msgs[m := Tally(s.msgs[m], Covers(s.led.balance, op, luck), luck)];
      && ok == Succeeds(op, luck, s.led.balance)
      && t.led == Ended(s.led, op, luck).(slots := [L.Idle]) && t.tariff == s.tariff
      && t.msgs == msgs[m := Verdict(open, msgs[m], if ok then D.Acked else D.Ready)]
      && t.consumers == [D.Consumer(open, s.consumers[0].buffer - {m})]
    ensures t == Handled(s, m, luck)
  {
    assert t.msgs == Handled(s, m, luck).msgs;
  }

  // The store calls after Take, and where they lead.
  lemma CallsRun(t: D.State, was: L.State, op: L.Op, m: nat, luck: Luck) returns (tail: seq<L.Action>)
    requires |t.led.slots| == 1 && m < |t.msgs| && D.Charging(t, 0, m)
    requires was.slots == [L.Idle] && op.Usage? && t.led == L.Step(was, L.Begin(0, op))
    ensures tail == UsageRun(was, op, luck)[1..] && D.Runs(t, Lift(tail))
    ensures
      var e, passed := D.Exec(t, Lift(tail)), L.CostOf(op) <= Seen(was, op, luck);
      && e.led == Ended(was, op, luck)
      && e.msgs == t.msgs[m := Tally(t.msgs[m], passed, luck)]
      && e.consumers == t.consumers && e.tariff == t.tariff
  {
    UsageEnds(was, op, luck);
    tail := UsageRun(was, op, luck)[1..];
    assert tail == [L.Read(0, luck.up)] + (if Seen(was, op, luck) < L.CostOf(op) then [] else WriteRun(luck));
    LiftRuns(t, tail);
    ChargeTally(t, m, luck);
  }

  lemma SettlesAs(e: D.State, s: D.State, m: nat, luck: Luck)
    requires Ready(s, m) && s.msgs[m].event.Some?
    requires
      var op := D.OpOf(s, m);
      && e.led == Ended(s.led, op, luck) && e.tariff == s.tariff
      && e.msgs == s.msgs[m := Tally(s.msgs[m], L.CostOf(op) <= Seen(s.led, op, luck), luck)]
      && e.consumers == [D.Consumer(s.consumers[0].open, s.consumers[0].buffer - {m})]
    ensures D.Enabled(e, D.Settle(0)) && D.Step(e, D.Settle(0)) == Handled(s, m, luck)
  {
    var h := Handled(s, m, luck);
    assert D.Step(e, D.Settle(0)).led.slots == h.led.slots;
    assert D.Step(e, D.Settle(0)).msgs == h.msgs;
  }

  lemma ChargeRuns(s: D.State, m: nat, luck: Luck)
    requires Ready(s, m) && s.msgs[m].event.Some?
    ensures D.Runs(s, HandleRun(s, m, luck)) && D.Exec(s, HandleRun(s, m, luck)) == Handled(s, m, luck)
  {
    var op := D.OpOf(s, m);
    var t := D.Step(s, D.Take(0, m));
    assert t.consumers == [D.Consumer(s.consumers[0].open, s.consumers[0].buffer - {m})];
    var tail := CallsRun(t, s.led, op, m, luck);
    SettlesAs(D.Exec(t, Lift(tail)), s, m, luck);
    D.RunsSnoc(t, Lift(tail), D.Settle(0));
    D.RunsCons(s, D.Take(0, m), Lift(tail) + [D.Settle(0)]);
  }

  /** What handling message m leaves behind.  A message that cannot be decoded is dropped and changes no
      table.  Any other is checked against its user's balance, deducted and recorded, as far as the store
      goes along, and acknowledged if all of that succeeded, else requeued; but the answer reaches the
      broker over an open connection only. */
  lemma HandledMeans(s: D.State, m: nat, luck: Luck)
    requires Ready(s, m)
    ensures
      var t := Handled(s, m, luck);
      && t.consumers == [D.Consumer(s.consumers[0].open, s.consumers[0].buffer - {m})]
      && t.tariff == s.tariff && t.led.slots == [L.Idle] && |t.msgs| == |s.msgs|
      && (forall k :: 0 <= k < |s.msgs| && k != m ==> t.msgs[k] == s.msgs[k])
    ensures s.msgs[m].event.None? ==>
      var t := Handled(s, m, luck);
      && t.led.balance == s.led.balance && t.led.log == s.led.log
      && t.msgs[m] == s.msgs[m].(state := if s.consumers[0].open then D.Dropped else s.msgs[m].state)
    ensures s.msgs[m].event.Some? ==>
      var t, x, e := Handled(s, m, luck), s.msgs[m], s.msgs[m].event.value;
      var tokens := e.prompt + e.completion;
      var cost := s.tariff(e.model, tokens);
      var held := if e.user in s.led.balance then s.led.balance[e.user] else 0;
      var covered := cost <= (if luck.up then held else 0);
      var deducted := covered && !luck.update.Refused?;
      var recorded := covered && luck.update.Fine? && !luck.insert.Refused?;
      && t.led.balance == (if deducted then s.led.balance[e.user := held - cost] else s.led.balance)
      && t.led.log ==
           (if recorded then s.led.log + [L.Row(L.Usage(e.user, e.model, tokens, cost, m), luck.now)] else s.led.log)
      && t.msgs[m] == x.(
           state := if !s.consumers[0].open then x.state
                    else if covered && luck.update.Fine? && luck.insert.Fine? then D.Acked else D.Ready,
           debits := if deducted then x.debits + 1 else x.debits,
           rows := if recorded then x.rows + 1 else x.rows)
  {
  }

  /** One thing that happens while the receive loop runs: a message arrives, one is picked, the
      connection breaks, or the loop notices that it should end. */
  datatype Input =
    | Arrives(m: nat)
    | Next(m: nat, luck: Luck)
    | ConnectionLost
    | Ends

  /** One round of the reconnect loop: does dialling succeed, and what follows. */
  datatype Session = Session(dial: bool, inputs: seq<Input>)

  /** A single consumer between two messages. */
  predicate Between(s: D.State)
  {
    && |s.consumers| == 1 && s.led.slots == [L.Idle]
    && forall m :: m in s.consumers[0].buffer ==> m < |s.msgs|
  }

  /** What one input amounts to in the queue protocol. */
  function TurnRun(s: D.State, input: Input): seq<D.Action>
    requires Between(s)
  {
    match input
    case Arrives(m) =>
      if s.consumers[0].open && m < |s.msgs| && s.msgs[m].state.Ready? then [D.Deliver(m, 0)] else []
    case Next(m, luck) => if m in s.consumers[0].buffer then HandleRun(s, m, luck) else []
    case ConnectionLost => if s.consumers[0].open then [D.Close(0)] else []
    case Ends => []
  }

  lemma TurnRuns(s: D.State, input: Input)
    requires Between(s)
    ensures D.Runs(s, TurnRun(s, input)) && Between(D.Exec(s, TurnRun(s, input)))
  {
    match input
    case Arrives(m) =>
      if s.consumers[0].open && m < |s.msgs| && s.msgs[m].state.Ready? {
        Single(s, D.Deliver(m, 0));
      }
    case Next(m, luck) =>
      if m in s.consumers[0].buffer {
        HandleRuns(s, m, luck);
        HandledMeans(s, m, luck);
      }
    case ConnectionLost =>
      if s.consumers[0].open {
        Single(s, D.Close(0));
      }
    case Ends =>
  }

  lemma Single(s: D.State, a: D.Action)
    requires D.Enabled(s, a)
    ensures D.Runs(s, [a]) && D.Exec(s, [a]) == D.Step(s, a)
  {
    D.RunsCons(s, a, []);
    assert [a] + [] == [a];
  }

  /** The inputs up to the first that ends the loop, one after the other. */
  function InputsRun(s: D.State, inputs: seq<Input>): seq<D.Action>
    requires Between(s)
    decreases |inputs|
  {
    if inputs == [] || inputs[0].Ends? then []
    else
      TurnRuns(s, inputs[0]);
      TurnRun(s, inputs[0]) + InputsRun(D.Exec(s, TurnRun(s, inputs[0])), inputs[1..])
  }

  lemma {:induction false} InputsRuns(s: D.State, inputs: seq<Input>)
    requires Between(s)
    ensures D.Runs(s, InputsRun(s, inputs)) && Between(D.Exec(s, InputsRun(s, inputs)))
    decreases |inputs|
  {
    if inputs != [] && !inputs[0].Ends? {
      TurnRuns(s, inputs[0]);
      var t := D.Exec(s, TurnRun(s, inputs[0]));
      InputsRuns(t, inputs[1..]);
      D.RunsConcat(s, TurnRun(s, inputs[0]), InputsRun(t, inputs[1..]));
    }
  }

  // Appending to a run, and to what is already done of a longer one.
  lemma Glued(t: D.State, done: seq<D.Action>, u: D.State, more: seq<D.Action>, v: D.State,
              all: seq<D.Action>, rest: seq<D.Action>)
    requires D.Runs(t, done) && D.Exec(t, done) == u && D.Runs(u, more) && D.Exec(u, more) == v
    requires all == done + (more + rest)
    ensures D.Runs(t, done + more) && D.Exec(t, done + more) == v && all == (done + more) + rest
  {
    D.RunsConcat(t, done, more);
    assert done + (more + rest) == (done + more) + rest;
  }

  lemma FirstInput(u: D.State, inputs: seq<Input>, i: nat)
    returns (more: seq<D.Action>, v: D.State, rest: seq<D.Action>)
    requires Between(u) && i < |inputs| && !inputs[i].Ends?
    ensures more == TurnRun(u, inputs[i]) && D.Runs(u, more) && D.Exec(u, more) == v && Between(v)
    ensures rest == InputsRun(v, inputs[i + 1..]) && InputsRun(u, inputs[i..]) == more + rest
  {
    TurnRuns(u, inputs[i]);
    more := TurnRun(u, inputs[i]);
    v := D.Exec(u, more);
    rest := InputsRun(v, inputs[i + 1..]);
    assert inputs[i..][1..] == inputs[i + 1..];
  }

  /** The end of a connection. */
  function HangUpRun(s: D.State): seq<D.Action>
    requires |s.consumers| == 1
  {
    if s.consumers[0].open then [D.Close(0)] else []
  }

  predicate Offline(s: D.State)
  {
    Between(s) && !s.consumers[0].open
  }

  /** A connection, if it is made: reconnect, work through the inputs, hang up. */
  function SessionRun(s: D.State, session: Session): seq<D.Action>
    requires Offline(s)
  {
    if !session.dial then []
    else
      var t := D.Step(s, D.Reconnect(0));
      InputsRuns(t, session.inputs);
      [D.Reconnect(0)] + InputsRun(t, session.inputs) + HangUpRun(D.Exec(t, InputsRun(t, session.inputs)))
  }

  lemma SessionRuns(s: D.State, session: Session)
    requires Offline(s)
    ensures D.Runs(s, SessionRun(s, session)) && Offline(D.Exec(s, SessionRun(s, session)))
  {
    if session.dial {
      var t := D.Step(s, D.Reconnect(0));
      var inputs := InputsRun(t, session.inputs);
      InputsRuns(t, session.inputs);
      D.RunsCons(s, D.Reconnect(0), inputs);
      var u := D.Exec(t, inputs);
      if u.consumers[0].open {
        D.RunsSnoc(s, [D.Reconnect(0)] + inputs, D.Close(0));
      } else {
        assert [D.Reconnect(0)] + inputs + [] == [D.Reconnect(0)] + inputs;
      }
    }
  }

  // A session by its parts.
  lemma SessionParts(s: D.State, session: Session, t: D.State, done: seq<D.Action>, u: D.State)
    requires Offline(s) && session.dial && t == D.Step(s, D.Reconnect(0))
    requires Between(t) && done == InputsRun(t, session.inputs) && D.Runs(t, done) && D.Exec(t, done) == u && Between(u)
    ensures D.Runs(s, SessionRun(s, session))
    ensures D.Exec(s, SessionRun(s, session)) == if u.consumers[0].open then D.Step(u, D.Close(0)) else u
  {
    D.RunsCons(s, D.Reconnect(0), done);
    if u.consumers[0].open {
      D.RunsSnoc(s, [D.Reconnect(0)] + done, D.Close(0));
    } else {
      assert [D.Reconnect(0)] + done + [] == [D.Reconnect(0)] + done;
    }
  }

  /** One connection after the other. */
  function SessionsRun(s: D.State, sessions: seq<Session>): seq<D.Action>
    requires Offline(s)
    decreases |sessions|
  {
    if sessions == [] then []
    else
      SessionRuns(s, sessions[0]);
      SessionRun(s, sessions[0]) + SessionsRun(D.Exec(s, SessionRun(s, sessions[0])), sessions[1..])
  }

  lemma FirstSession(u: D.State, sessions: seq<Session>, i: nat)
    returns (more: seq<D.Action>, v: D.State, rest: seq<D.Action>)
    requires Offline(u) && i < |sessions|
    ensures more == SessionRun(u, sessions[i]) && D.Runs(u, more) && D.Exec(u, more) == v && Offline(v)
    ensures rest == SessionsRun(v, sessions[i + 1..]) && SessionsRun(u, sessions[i..]) == more + rest
  {
    SessionRuns(u, sessions[i]);
    more := SessionRun(u, sessions[i]);
    v := D.Exec(u, more);
    rest := SessionsRun(v, sessions[i + 1..]);
    assert sessions[i..][1..] == sessions[i + 1..];
  }

  // The run of a first input, and of those after it.
  lemma ConsInput(s: D.State, x: Input, xs: seq<Input>) returns (more: seq<D.Action>, v: D.State)
    requires Between(s) && !x.Ends?
    ensures more == TurnRun(s, x) && D.Runs(s, more) && D.Exec(s, more) == v && Between(v)
    ensures InputsRun(s, [x] + xs) == more + InputsRun(v, xs)
  {
    TurnRuns(s, x);
    more := TurnRun(s, x);
    v := D.Exec(s, more);
    assert ([x] + xs)[1..] == xs;
  }

  lemma LastInput(s: D.State, x: Input)
    requires Between(s)
    ensures InputsRun(s, [x]) == TurnRun(s, x)
  {
    if !x.Ends? {
      var more, v := ConsInput(s, x, []);
      assert [x] + [] == [x] && more + [] == more;
    }
  }

  lemma Associate(a: seq<D.Action>, b: seq<D.Action>, c: seq<D.Action>)
    ensures a + (b + c) == (a + b) + c
  {
  }

  /** Every input before the end of the loop gets its turn, in the state the others have left ... */
  lemma {:induction false} EachInputHasItsTurn(s: D.State, inputs: seq<Input>, last: Input)
    returns (run: seq<D.Action>, t: D.State)
    requires Between(s) && forall x :: x in inputs ==> !x.Ends?
    ensures run == InputsRun(s, inputs) && D.Runs(s, run) && D.Exec(s, run) == t && Between(t)
    ensures InputsRun(s, inputs + [last]) == run + TurnRun(t, last)
    decreases |inputs|
  {
    if inputs == [] {
      run, t := [], s;
      LastInput(s, last);
      assert inputs + [last] == [last];
    } else {
      var x, xs := inputs[0], inputs[1..];
      assert x in inputs && inputs == [x] + xs && inputs + [last] == [x] + (xs + [last]);
      var more, v := ConsInput(s, x, xs);
      var rest;
      rest, t := EachInputHasItsTurn(v, xs, last);
      var more', v' := ConsInput(s, x, xs + [last]);
      D.RunsConcat(s, more, rest);
      Associate(more, rest, TurnRun(t, last));
      run := more + rest;
    }
  }

  /** ... and none after it. */
  lemma {:induction false} NothingAfterTheEnd(s: D.State, inputs: seq<Input>, after: seq<Input>)
    requires Between(s)
    ensures InputsRun(s, inputs + [Ends] + after) == InputsRun(s, inputs)
    decreases |inputs|
  {
    var all := inputs + [Ends] + after;
    if inputs == [] {
      assert all[0] == Ends;
    } else if !inputs[0].Ends? {
      assert all[0] == inputs[0] && all[1..] == inputs[1..] + [Ends] + after;
      TurnRuns(s, inputs[0]);
      NothingAfterTheEnd(D.Exec(s, TurnRun(s, inputs[0])), inputs[1..], after);
    }
  }

  /** A connection that is made reconnects first and hangs up last, if it is still there. */
  lemma SessionIs(s: D.State, inputs: seq<Input>)
    requires Offline(s)
    ensures SessionRun(s, Session(false, inputs)) == []
    ensures
      var t := D.Step(s, D.Reconnect(0));
      && Between(t) && t.consumers == [D.Consumer(true, {})] && D.Runs(t, InputsRun(t, inputs))
      && var u := D.Exec(t, InputsRun(t, inputs));
         SessionRun(s, Session(true, inputs)) ==
           [D.Reconnect(0)] + InputsRun(t, inputs) +
           (if |u.consumers| == 1 && u.consumers[0].open then [D.Close(0)] else [])
  {
    var t := D.Step(s, D.Reconnect(0));
    InputsRuns(t, inputs);
  }

  lemma ConsSession(s: D.State, x: Session, xs: seq<Session>) returns (more: seq<D.Action>, v: D.State)
    requires Offline(s)
    ensures more == SessionRun(s, x) && D.Runs(s, more) && D.Exec(s, more) == v && Offline(v)
    ensures SessionsRun(s, [x] + xs) == more + SessionsRun(v, xs)
  {
    SessionRuns(s, x);
    more := SessionRun(s, x);
    v := D.Exec(s, more);
    assert ([x] + xs)[1..] == xs;
  }

  lemma LastSession(s: D.State, x: Session)
    requires Offline(s)
    ensures SessionsRun(s, [x]) == SessionRun(s, x)
  {
    var more, v := ConsSession(s, x, []);
    assert [x] + [] == [x] && more + [] == more;
  }

  /** Every session follows on what the others have left. */
  lemma {:induction false} EachSessionFollows(s: D.State, sessions: seq<Session>, last: Session)
    returns (run: seq<D.Action>, t: D.State)
    requires Offline(s)
    ensures run == SessionsRun(s, sessions) && D.Runs(s, run) && D.Exec(s, run) == t && Offline(t)
    ensures SessionsRun(s, sessions + [last]) == run + SessionRun(t, last)
    decreases |sessions|
  {
    if sessions == [] {
      run, t := [], s;
      LastSession(s, last);
      assert sessions + [last] == [last];
    } else {
      var x, xs := sessions[0], sessions[1..];
      assert sessions == [x] + xs && sessions + [last] == [x] + (xs + [last]);
      var more, v := ConsSession(s, x, xs);
      var rest;
      rest, t := EachSessionFollows(v, xs, last);
      var more', v' := ConsSession(s, x, xs + [last]);
      D.RunsConcat(s, more, rest);
      Associate(more, rest, SessionRun(t, last));
      run := more + rest;
    }
  }

  /** What the history says about a message. */
  datatype Past = Past(src: nat, deliveries: nat, debits: nat, rows: nat)

  /** The queue, and the one connection to it. */
  class Broker {
    var events: seq<Option<E.Event>>
    var states: seq<D.MsgState>
    ghost var past: seq<Past>
    var open: bool

    ghost predicate Valid()
      reads this
    {
      |events| == |states| == |past|
    }

    ghost function Msgs(): (r: seq<D.Msg>)
      requires Valid()
      reads this
      ensures |r| == |states|
    {
      seq(|states|, m requires 0 <= m < |states| && |events| == |states| == |past| reads this =>
        D.Msg(events[m], past[m].src, states[m], past[m].deliveries, past[m].debits, past[m].rows))
    }

    /** The broker hands a ready message to the connection. */
    method Deliver(m: nat)
      requires Valid() && open && m < |states| && states[m].Ready?
      modifies this`states, this`past
      ensures Valid() && states == old(states)[m := D.Unacked(0)]
      ensures past == old(past)[m := old(past)[m].(deliveries := old(past)[m].deliveries + 1)]
      ensures
        var x := old(Msgs())[m];
        Msgs() == old(Msgs())[m := x.(state := D.Unacked(0), deliveries := x.deliveries + 1)]
    {
      states := states[m := D.Unacked(0)];
      past := past[m := past[m].(deliveries := past[m].deliveries + 1)];
    }

    /** An acknowledgement or rejection of m. */
    method Answer(m: nat, verdict: D.MsgState)
      requires Valid() && m < |states|
      modifies this`states
      ensures Valid() && states == if open then old(states)[m := verdict] else old(states)
      ensures Msgs() == old(Msgs())[m := Verdict(open, old(Msgs())[m], verdict)]
    {
      if open {
        states := states[m := verdict];
      }
    }

    /** How a charge of m went goes into its history. */
    ghost method Count(m: nat, passed: bool, luck: Luck)
      requires Valid() && m < |states|
      modifies this`past
      ensures Valid() && Msgs() == old(Msgs())[m := Tally(old(Msgs())[m], passed, luck)]
    {
      var x := Tally(Msgs()[m], passed, luck);
      past := past[m := Past(x.src, x.deliveries, x.debits, x.rows)];
    }

    /** The connection goes; the broker takes back what was not acknowledged. */
    method Close()
      requires Valid() && open
      modifies this`states, this`open
      ensures Valid() && !open && Msgs() == D.Requeue(old(Msgs()), 0)
      ensures |states| == |old(states)|
      ensures forall m :: 0 <= m < |states| ==>
        states[m] == if old(states)[m] == D.Unacked(0) then D.Ready else old(states)[m]
    {
      open := false;
      states := seq(|states|, m requires 0 <= m < |states| reads this =>
        if states[m] == D.Unacked(0) then D.Ready else states[m]);
    }
  }

  class Consumer {
    const svc: Service
    const broker: Broker
    var buffer: set<nat>

    constructor (svc: Service, broker: Broker)
      ensures this.svc == svc && this.broker == broker && buffer == {}
    {
      this.svc, this.broker, buffer := svc, broker, {};
    }

    ghost predicate Valid()
      reads this, broker
    {
      broker.Valid() && forall m :: m in buffer ==> m < |broker.states|
    }

    ghost function View(): D.State
      requires Valid()
      reads this, broker, svc.store
    {
      D.State(svc.store.Image(L.Idle), broker.Msgs(), [D.Consumer(broker.open, buffer)],
              Rounding.FloatTariff(svc.rnd, svc.prices))
    }

    /** The charge that a decoded message stands for. */
    ghost function OpFor(m: nat, event: E.Event): (op: L.Op)
      ensures op.Usage?
    {
      var tokens := event.prompt + event.completion;
      L.Usage(event.user, event.model, tokens, Rounding.FloatCharge(svc.rnd, svc.prices, event.model, tokens), m)
    }

    lemma ChargeIsOp(s: D.State, m: nat, event: E.Event)
      requires m < |s.msgs| && s.msgs[m].event == Some(event) && s.tariff == Rounding.FloatTariff(svc.rnd, svc.prices)
      ensures D.OpOf(s, m) == OpFor(m, event)
    {
    }

    /** The charge of one decoded message, and what it adds to the message's history. */
    method Charge(m: nat, event: E.Event, luck: Luck) returns (err: bool)
      requires broker.Valid() && m < |broker.states|
      modifies broker`past, svc.store
      ensures broker.Valid()
      ensures
        var op, before := OpFor(m, event), old(svc.store.balances);
        && broker.Msgs() == old(broker.Msgs())[m := Tally(old(broker.Msgs())[m], Covers(before, op, luck), luck)]
        && svc.store.Image(L.Idle) == Ended(old(svc.store.Image(L.Idle)), op, luck).(slots := [L.Idle])
        && Pays(op, luck, before, old(svc.store.rows), svc.store.balances, svc.store.rows)
        && (err <==> !Succeeds(op, luck, before))
    {
      ghost var op := OpFor(m, event);
      ghost var covered := Covers(svc.store.balances, op, luck);
      UsageEnds(svc.store.Image(L.Idle), op, luck);
      var tokens := event.prompt + event.completion;
      err := svc.RecordUsage(event.user, event.model, tokens, m, luck);
      broker.Count(m, covered, luck);
    }

    /** A message that cannot be decoded is dropped. */
    method Drop(m: nat, ghost luck: Luck)
      requires Valid() && m in buffer && broker.events[m].None?
      modifies this`buffer, broker`states
      ensures buffer == old(buffer) - {m}
      ensures broker.states == if broker.open then old(broker.states)[m := D.Dropped] else old(broker.states)
      ensures Valid() && View() == Handled(old(View()), m, luck)
    {
      ghost var h := Handled(View(), m, luck);
      buffer := buffer - {m};
      broker.Answer(m, D.Dropped);
      assert View().msgs == h.msgs;
    }

    /** Any other is charged, and acknowledged or requeued. */
    method ChargeAndAnswer(m: nat, event: E.Event, luck: Luck)
      requires Valid() && m in buffer && broker.events[m] == Some(event)
      modifies this`buffer, broker`states, broker`past, svc.store
      ensures buffer == old(buffer) - {m}
      ensures
        var op, before := OpFor(m, event), old(svc.store.balances);
        && Pays(op, luck, before, old(svc.store.rows), svc.store.balances, svc.store.rows)
        && broker.states ==
             (if !broker.open then old(broker.states)
              else old(broker.states)[m := if Succeeds(op, luck, before) then D.Acked else D.Ready])
      ensures Valid() && View() == Handled(old(View()), m, luck)
    {
      ghost var s := View();
      ChargeIsOp(s, m, event);
      buffer := buffer - {m};
      var err := Charge(m, event, luck);
      broker.Answer(m, if err then D.Ready else D.Acked);
      AnsweredAs(s, m, luck, !err, View());
    }

    /** Decode, charge, answer: drop what cannot be decoded, requeue what could not be charged. */
    method Handle(m: nat, luck: Luck) returns (ghost run: seq<D.Action>)
      requires Valid() && m in buffer
      modifies this`buffer, broker`states, broker`past, svc.store
      ensures Valid()
      ensures buffer == old(buffer) - {m}
      ensures broker.events[m].None? ==>
        && svc.store.balances == old(svc.store.balances) && svc.store.rows == old(svc.store.rows)
        && broker.states == if broker.open then old(broker.states)[m := D.Dropped] else old(broker.states)
      ensures broker.events[m].Some? ==>
        var op, before := OpFor(m, broker.events[m].value), old(svc.store.balances);
        && Pays(op, luck, before, old(svc.store.rows), svc.store.balances, svc.store.rows)
        && broker.states ==
             (if !broker.open then old(broker.states)
              else old(broker.states)[m := if Succeeds(op, luck, before) then D.Acked else D.Ready])
      ensures run == HandleRun(old(View()), m, luck)
      ensures D.Runs(old(View()), run) && View() == D.Exec(old(View()), run)
      ensures View() == Handled(old(View()), m, luck)
    {
      run := RunOf(View(), m, luck);
      match broker.events[m] {
        case None => Drop(m, luck);
        case Some(event) => ChargeAndAnswer(m, event, luck);
      }
    }

    method Dial()
      requires Valid() && !broker.open
      modifies this`buffer, broker`open
      ensures Valid() && broker.open && View() == D.Step(old(View()), D.Reconnect(0))
      ensures D.Enabled(old(View()), D.Reconnect(0))
    {
      ghost var s := View();
      buffer, broker.open := {}, true;
      assert View().consumers == D.Step(s, D.Reconnect(0)).consumers;
    }

    method Receive(m: nat)
      requires Valid() && broker.open && m < |broker.states| && broker.states[m].Ready?
      modifies this`buffer, broker`states, broker`past
      ensures Valid() && buffer == old(buffer) + {m} && broker.states == old(broker.states)[m := D.Unacked(0)]
      ensures broker.past ==
        old(broker.past)[m := old(broker.past)[m].(deliveries := old(broker.past)[m].deliveries + 1)]
      ensures D.Enabled(old(View()), D.Deliver(m, 0)) && View() == D.Step(old(View()), D.Deliver(m, 0))
    {
      ghost var s := View();
      broker.Deliver(m);
      buffer := buffer + {m};
      assert View().consumers == D.Step(s, D.Deliver(m, 0)).consumers;
    }

    method HangUp()
      requires Valid() && broker.open
      modifies broker`states, broker`open
      ensures Valid() && !broker.open && |broker.states| == |old(broker.states)|
      ensures forall m :: 0 <= m < |broker.states| ==>
        broker.states[m] == if old(broker.states)[m] == D.Unacked(0) then D.Ready else old(broker.states)[m]
      ensures D.Enabled(old(View()), D.Close(0)) && View() == D.Step(old(View()), D.Close(0))
    {
      ghost var s := View();
      broker.Close();
      assert View().consumers == D.Step(s, D.Close(0)).consumers;
    }

    /** A message arrives, if the broker has it ready and the connection is there. */
    method Arrive(m: nat) returns (ghost run: seq<D.Action>)
      requires Valid()
      modifies this`buffer, broker`states, broker`past
      ensures Valid() && run == TurnRun(old(View()), Arrives(m))
      ensures D.Runs(old(View()), run) && View() == D.Exec(old(View()), run)
      ensures
        if old(broker.open) && m < |old(broker.states)| && old(broker.states)[m].Ready? then
          && buffer == old(buffer) + {m} && broker.states == old(broker.states)[m := D.Unacked(0)]
          && broker.past ==
               old(broker.past)[m := old(broker.past)[m].(deliveries := old(broker.past)[m].deliveries + 1)]
        else buffer == old(buffer) && broker.states == old(broker.states) && broker.past == old(broker.past)
    {
      run := [];
      if broker.open && m < |broker.states| && broker.states[m].Ready? {
        ghost var s := View();
        Receive(m);
        Single(s, D.Deliver(m, 0));
        run := [D.Deliver(m, 0)];
      }
    }

    /** The connection breaks, if there is one. */
    method Lose() returns (ghost run: seq<D.Action>)
      requires Valid()
      modifies broker`states, broker`open
      ensures Valid() && !broker.open && run == TurnRun(old(View()), ConnectionLost)
      ensures D.Runs(old(View()), run) && View() == D.Exec(old(View()), run)
      ensures |broker.states| == |old(broker.states)|
      ensures old(broker.open) ==> forall m :: 0 <= m < |broker.states| ==>
        broker.states[m] == if old(broker.states)[m] == D.Unacked(0) then D.Ready else old(broker.states)[m]
      ensures !old(broker.open) ==> broker.states == old(broker.states)
    {
      run := [];
      if broker.open {
        ghost var s := View();
        HangUp();
        Single(s, D.Close(0));
        run := [D.Close(0)];
      }
    }

    /** One turn of the select: messages that were handed over can be picked even when the
        connection is gone already. */
    method Turn(input: Input) returns (ghost run: seq<D.Action>)
      requires Valid()
      modifies this`buffer, broker, svc.store
      ensures Valid() && broker.events == old(broker.events) && |broker.states| == |old(broker.states)|
      ensures run == TurnRun(old(View()), input)
      ensures D.Runs(old(View()), run) && View() == D.Exec(old(View()), run)
      // A message arrives.
      ensures
        input.Arrives? && old(broker.open) && input.m < |old(broker.states)| && old(broker.states)[input.m].Ready? ==>
        && buffer == old(buffer) + {input.m} && broker.open
        && broker.states == old(broker.states)[input.m := D.Unacked(0)]
        && broker.past == old(broker.past)[
             input.m := old(broker.past)[input.m].(deliveries := old(broker.past)[input.m].deliveries + 1)]
        && svc.store.balances == old(svc.store.balances) && svc.store.rows == old(svc.store.rows)
      // A message is picked that cannot be decoded.
      ensures input.Next? && input.m in old(buffer) && old(broker.events)[input.m].None? ==>
        && buffer == old(buffer) - {input.m} && broker.open == old(broker.open)
        && broker.states ==
             (if broker.open then old(broker.states)[input.m := D.Dropped] else old(broker.states))
        && svc.store.balances == old(svc.store.balances) && svc.store.rows == old(svc.store.rows)
      // A message is picked and charged.
      ensures input.Next? && input.m in old(buffer) && old(broker.events)[input.m].Some? ==>
        var op := OpFor(input.m, old(broker.events)[input.m].value);
        && buffer == old(buffer) - {input.m} && broker.open == old(broker.open)
        && Pays(op, input.luck, old(svc.store.balances), old(svc.store.rows), svc.store.balances, svc.store.rows)
        && broker.states ==
             (if !broker.open then old(broker.states)
              else old(broker.states)[
                input.m := if Succeeds(op, input.luck, old(svc.store.balances)) then D.Acked else D.Ready])
      // The connection breaks.
      ensures input.ConnectionLost? && old(broker.open) ==>
        && !broker.open && buffer == old(buffer)
        && (forall m :: 0 <= m < |broker.states| ==>
              broker.states[m] ==
                if old(broker.states)[m] == D.Unacked(0) then D.Ready else old(broker.states)[m])
        && svc.store.balances == old(svc.store.balances) && svc.store.rows == old(svc.store.rows)
      // Nothing else has any effect.
      ensures
        || input.Ends? || (input.ConnectionLost? && !old(broker.open)) || (input.Next? && input.m !in old(buffer))
        || (input.Arrives? &&
              !(old(broker.open) && input.m < |old(broker.states)| && old(broker.states)[input.m].Ready?))
        ==> View() == old(View())
    {
      run := [];
      match input {
        case Arrives(m) =>
          run := Arrive(m);
        case Next(m, luck) =>
          if m in buffer {
            run := Handle(m, luck);
          }
        case ConnectionLost =>
          run := Lose();
        case Ends =>
      }
    }

    /** The receive loop: one input after the other, up to the first that ends it. */
    method Serve(inputs: seq<Input>) returns (ghost run: seq<D.Action>)
      requires Valid()
      modifies this`buffer, broker, svc.store
      ensures Valid() && broker.events == old(broker.events)
      ensures run == InputsRun(old(View()), inputs)
      ensures D.Runs(old(View()), run) && View() == D.Exec(old(View()), run)
    {
      ghost var s := View();
      run := [];
      var i := 0;
      while i < |inputs| && !inputs[i].Ends?
        invariant 0 <= i <= |inputs|
        invariant Valid() && broker.events == old(broker.events)
        invariant D.Runs(s, run) && View() == D.Exec(s, run)
        invariant InputsRun(s, inputs) == run + InputsRun(View(), inputs[i..])
      {
        ghost var u := View();
        ghost var next, v, rest := FirstInput(u, inputs, i);
        Glued(s, run, u, next, v, InputsRun(s, inputs), rest);
        ghost var more := Turn(inputs[i]);
        run := run + more;
        i := i + 1;
      }
      assert run == InputsRun(s, inputs);
    }

    /** One connection: dial, receive until told to end, hang up. */
    method Run(session: Session) returns (ghost run: seq<D.Action>)
      requires Valid() && !broker.open
      modifies this`buffer, broker, svc.store
      ensures Valid() && !broker.open && broker.events == old(broker.events)
      ensures !session.dial ==> run == [] && View() == old(View())
      ensures run == SessionRun(old(View()), session)
      ensures D.Runs(old(View()), run) && View() == D.Exec(old(View()), run)
    {
      ghost var s := View();
      run := SessionRun(s, session);
      if !session.dial {
        return;
      }
      Dial();
      ghost var t := View();
      ghost var done := Serve(session.inputs);
      SessionParts(s, session, t, done, View());
      if broker.open {
        HangUp();
      }
    }

    /** The reconnect loop.  From an empty start every state it passes through is one that
        DeliverySafety.DeliveryIsSafe speaks about. */
    method Start(sessions: seq<Session>) returns (ghost run: seq<D.Action>)
      requires Valid() && !broker.open
      modifies this`buffer, broker, svc.store
      ensures Valid() && !broker.open && broker.events == old(broker.events)
      ensures run == SessionsRun(old(View()), sessions)
      ensures D.Runs(old(View()), run) && View() == D.Exec(old(View()), run)
    {
      ghost var s := View();
      run := [];
      for i := 0 to |sessions|
        invariant Valid() && !broker.open && broker.events == old(broker.events)
        invariant D.Runs(s, run) && View() == D.Exec(s, run)
        invariant SessionsRun(s, sessions) == run + SessionsRun(View(), sessions[i..])
      {
        ghost var u := View();
        ghost var next, v, rest := FirstSession(u, sessions, i);
        Glued(s, run, u, next, v, SessionsRun(s, sessions), rest);
        ghost var more := Run(sessions[i]);
        run := run + more;
      }
    }
  }
}
