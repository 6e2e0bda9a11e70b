/** What one attempt to charge a message does, and the shortest ways to charge it twice. */
module Attempts {
  import opened Delivery
  import opened DeliverySafety
  import L = Ledger

  /** One complete and undisturbed attempt of consumer i to charge message m, up to its answer. */
  function Attempt(m: nat, i: nat, now: int): seq<Action>
  {
    [Deliver(m, i), Take(i, m), Store(L.Read(i, true)), Store(L.Update(i, L.Fine)), Store(L.Insert(i, L.Fine, now))]
  }

  predicate CanAttempt(s: State, m: nat, i: nat)
  {
    && m < |s.msgs| && s.msgs[m].state.Ready? && s.msgs[m].event.Some?
    && i < |s.consumers| && s.consumers[i].open && IsIdle(s, i) && m !in s.consumers[i].buffer
    && OpOf(s, m).cost <= L.Bal(s.led, OpOf(s, m).user)
  }

  function Attempted(s: State, m: nat, i: nat, now: int): State
    requires CanAttempt(s, m, i)
  {
    var op, x := OpOf(s, m), s.msgs[m];
    s.(msgs := s.msgs[m := x.(state := Unacked(i), deliveries := x.deliveries + 1, debits := x.debits + 1,
                              rows := x.rows + 1)],
       led := s.led.(balance := L.Upsert(s.led.balance, op), applied := s.led.applied + [op],
                     log := s.led.log + [L.Row(op, now)], slots := s.led.slots[i := L.Call(op, L.Done(true))]))
  }

  lemma AttemptRuns(s: State, m: nat, i: nat, now: int)
    requires CanAttempt(s, m, i)
    ensures Runs(s, Attempt(m, i, now)) && Exec(s, Attempt(m, i, now)) == Attempted(s, m, i, now)
    ensures CleanRun(s, Attempt(m, i, now))
  {
    var run := Attempt(m, i, now);
    var s1 := Step(s, run[0]);
    var s2 := Step(s1, run[1]);
    assert s2.consumers == s.consumers;
    assert s2.led.slots[i] == L.Call(OpOf(s, m), L.Reading);
    TailRuns(s2, i, m, now);
    assert run[1..][1..] == [run[2], run[3], run[4]];
    assert s2.msgs[m].event == s.msgs[m].event;
    assert Exec(s, run) == Exec(s2, [run[2], run[3], run[4]]);
    assert Exec(s, run).msgs == Attempted(s, m, i, now).msgs;
    assert Exec(s, run).led.slots == Attempted(s, m, i, now).led.slots;
  }

  // The three store calls.
  lemma TailRuns(s: State, i: nat, m: nat, now: int)
    requires i < |s.consumers| && s.consumers[i].open && m < |s.msgs|
    requires Charging(s, i, m) && s.led.slots[i].stage.Reading? && L.Passes(s.led, i, true)
    ensures
      var run := [Store(L.Read(i, true)), Store(L.Update(i, L.Fine)), Store(L.Insert(i, L.Fine, now))];
      var op, x := s.led.slots[i].op, s.msgs[m];
      && Runs(s, run) && CleanRun(s, run)
      && Exec(s, run) == s.(msgs := s.msgs[m := x.(debits := x.debits + 1, rows := x.rows + 1)],
           led := s.led.(balance := L.Upsert(s.led.balance, op), applied := s.led.applied + [op],
                         log := s.led.log + [L.Row(op, now)], slots := s.led.slots[i := L.Call(op, L.Done(true))]))
  {
    var a1, a2, a3 := Store(L.Read(i, true)), Store(L.Update(i, L.Fine)), Store(L.Insert(i, L.Fine, now));
    var run := [a1, a2, a3];
    var s1 := Step(s, a1);
    var s2 := Step(s1, a2);
    var s3 := Step(s2, a3);
    assert run[1..] == [a2, a3] && run[1..][1..] == [a3] && run[1..][1..][1..] == [];
    assert Runs(s3, []) && Exec(s3, []) == s3 && CleanRun(s3, []);
    assert Runs(s2, [a3]) && Exec(s2, [a3]) == s3 && CleanRun(s2, [a3]);
    assert Runs(s1, [a2, a3]) && Exec(s1, [a2, a3]) == s3 && CleanRun(s1, [a2, a3]);
    var x, op := s.msgs[m], s.led.slots[i].op;
    assert s3.msgs == s.msgs[m := x.(debits := x.debits + 1, rows := x.rows + 1)];
    assert s3.led.slots == s.led.slots[i := L.Call(op, L.Done(true))];
  }

  /** One lost connection is enough: if it goes after the charge and before the answer, the
      acknowledgement is lost, the message is delivered again, and the user pays twice. */
  lemma LostAckChargesTwice(s: State, m: nat, i: nat, now: int) returns (run: seq<Action>)
    requires CanAttempt(s, m, i)
    requires 0 <= OpOf(s, m).cost && 2 * OpOf(s, m).cost <= L.Bal(s.led, OpOf(s, m).user)
    ensures Runs(s, run)
    ensures run == Attempt(m, i, now) + [Close(i), Settle(i), Reconnect(i)] + Attempt(m, i, now)
    ensures m < |Exec(s, run).msgs| && Exec(s, run).msgs[m].rows == s.msgs[m].rows + 2
    ensures Exec(s, run).msgs[m].debits == s.msgs[m].debits + 2
    ensures L.Bal(Exec(s, run).led, OpOf(s, m).user) == L.Bal(s.led, OpOf(s, m).user) - 2 * OpOf(s, m).cost
  {
    AttemptRuns(s, m, i, now);
    var s1 := Attempted(s, m, i, now);
    var gap := [Close(i), Settle(i), Reconnect(i)];
    var s4 := GapRuns(s1, m, i);
    RunsConcat(s, Attempt(m, i, now), gap);
    AttemptRuns(s4, m, i, now);
    RunsConcat(s, Attempt(m, i, now) + gap, Attempt(m, i, now));
    run := Attempt(m, i, now) + gap + Attempt(m, i, now);
  }

  lemma GapRuns(s: State, m: nat, i: nat) returns (t: State)
    requires m < |s.msgs| && i < |s.consumers| && s.consumers[i].open && s.msgs[m].state == Unacked(i)
    requires Charging(s, i, m) && s.led.slots[i].stage.Done?
    ensures Runs(s, [Close(i), Settle(i), Reconnect(i)]) && t == Exec(s, [Close(i), Settle(i), Reconnect(i)])
    ensures t.led.balance == s.led.balance && t.tariff == s.tariff && |t.msgs| == |s.msgs|
    ensures t.msgs[m] == s.msgs[m].(state := Ready)
    ensures |t.consumers| == |s.consumers| && t.consumers[i] == Consumer(true, {}) && IsIdle(t, i)
  {
    var s1 := Step(s, Close(i));
    var s2 := Step(s1, Settle(i));
    t := Step(s2, Reconnect(i));
    var run := [Close(i), Settle(i), Reconnect(i)];
    assert run[1..] == [Settle(i), Reconnect(i)] && run[1..][1..] == [Reconnect(i)];
    assert run[1..][1..][1..] == [];
    assert Runs(t, []) && Runs(s2, [Reconnect(i)]) && Exec(s2, [Reconnect(i)]) == t;
    assert Runs(s1, [Settle(i), Reconnect(i)]) && Exec(s1, [Settle(i), Reconnect(i)]) == t;
  }

  /** An attempt whose insert reports an error, and the requeue that follows. */
  function FailedAttempt(m: nat, i: nat, now: int): seq<Action>
  {
    [Deliver(m, i), Take(i, m)] + FailedCharge(i, now)
  }

  function FailedCharge(i: nat, now: int): seq<Action>
  {
    [Store(L.Read(i, true)), Store(L.Update(i, L.Fine)), Store(L.Insert(i, L.Refused, now)), Settle(i)]
  }

  lemma FailedChargeRuns(s: State, i: nat, m: nat, now: int) returns (t: State)
    requires i < |s.consumers| && s.consumers[i].open && m < |s.msgs|
    requires Charging(s, i, m) && s.led.slots[i].stage.Reading? && L.Passes(s.led, i, true)
    ensures Runs(s, FailedCharge(i, now)) && t == Exec(s, FailedCharge(i, now))
    ensures t.msgs == s.msgs[m := s.msgs[m].(debits := s.msgs[m].debits + 1, state := Ready)]
    ensures t.led.balance == L.Upsert(s.led.balance, s.led.slots[i].op) && t.led.log == s.led.log
    ensures t.consumers == s.consumers && t.tariff == s.tariff && IsIdle(t, i)
  {
    var run := FailedCharge(i, now);
    var s1 := Step(s, run[0]);
    var s2 := Step(s1, run[1]);
    var s3 := Step(s2, run[2]);
    t := Step(s3, run[3]);
    RunsCons(s3, run[3], []);
    RunsCons(s2, run[2], [run[3]] + []);
    RunsCons(s1, run[1], [run[2]] + ([run[3]] + []));
    RunsCons(s, run[0], [run[1]] + ([run[2]] + ([run[3]] + [])));
    assert run == [run[0]] + ([run[1]] + ([run[2]] + ([run[3]] + [])));
    assert s3.msgs == s.msgs[m := s.msgs[m].(debits := s.msgs[m].debits + 1)];
  }

  lemma FailedAttemptRuns(s: State, m: nat, i: nat, now: int) returns (t: State)
    requires CanAttempt(s, m, i)
    ensures Runs(s, FailedAttempt(m, i, now)) && t == Exec(s, FailedAttempt(m, i, now))
    ensures |t.msgs| == |s.msgs| && t.tariff == s.tariff && t.consumers == s.consumers && IsIdle(t, i)
    ensures t.msgs[m] == s.msgs[m].(deliveries := s.msgs[m].deliveries + 1, debits := s.msgs[m].debits + 1)
    ensures t.led.balance == L.Upsert(s.led.balance, OpOf(s, m)) && t.led.log == s.led.log
  {
    var s1 := Step(s, Deliver(m, i));
    var s2 := Step(s1, Take(i, m));
    assert s2.consumers == s.consumers;
    assert s2.led.slots[i] == L.Call(OpOf(s, m), L.Reading);
    t := FailedChargeRuns(s2, i, m, now);
    RunsCons(s1, Take(i, m), FailedCharge(i, now));
    RunsCons(s, Deliver(m, i), [Take(i, m)] + FailedCharge(i, now));
    assert FailedAttempt(m, i, now) == [Deliver(m, i)] + ([Take(i, m)] + FailedCharge(i, now));
  }

  /** No connection need be lost: if the insert after the deduction fails, the message is requeued,
      delivered again, and the user pays twice for one row. */
  lemma FailedInsertChargesTwice(s: State, m: nat, i: nat, now: int) returns (run: seq<Action>)
    requires CanAttempt(s, m, i)
    requires 0 <= OpOf(s, m).cost && 2 * OpOf(s, m).cost <= L.Bal(s.led, OpOf(s, m).user)
    ensures run == FailedAttempt(m, i, now) + Attempt(m, i, now)
    ensures Runs(s, run) && m < |Exec(s, run).msgs|
    ensures Exec(s, run).msgs[m].rows == s.msgs[m].rows + 1
    ensures Exec(s, run).msgs[m].debits == s.msgs[m].debits + 2
    ensures L.Bal(Exec(s, run).led, OpOf(s, m).user) == L.Bal(s.led, OpOf(s, m).user) - 2 * OpOf(s, m).cost
  {
    var t := FailedAttemptRuns(s, m, i, now);
    AttemptRuns(t, m, i, now);
    RunsConcat(s, FailedAttempt(m, i, now), Attempt(m, i, now));
    run := FailedAttempt(m, i, now) + Attempt(m, i, now);
  }
}
