/** A covered queue does not only never refuse: it can be drained to the end. */
module Completion {
  import opened Sums
  import opened Delivery
  import opened Custody
  import opened DeliverySafety
  import opened Drain
  import opened Attempts
  import opened Stuck
  import L = Ledger

  /** A quiet queue and a connected consumer. */
  ghost predicate Waits(s: State, i: nat)
  {
    Quiet(s) && i < |s.consumers| && s.consumers[i].open
  }

  /** Every user's balance covers what the queue still owes, and nothing has a negative price. */
  ghost predicate Covered(s: State)
  {
    && (forall u :: TotalOwed(s, u) <= L.Bal(s.led, u))
    && (forall m :: 0 <= m < |s.msgs| ==> 0 <= CostOf(s.tariff, s.msgs[m]))
  }

  predicate Pending(s: State, m: nat)
  {
    m < |s.msgs| && !s.msgs[m].state.Acked? && !s.msgs[m].state.Dropped?
  }

  lemma PendingIsReady(s: State, m: nat)
    requires Quiet(s) && Pending(s, m)
    ensures s.msgs[m].state.Ready? && s.msgs[m].debits == 0
  {
    assert MsgOk(s, m) && PaidOnce(s, m);
  }

  // A message that cannot be decoded is dropped.
  lemma DropOne(s: State, m: nat, i: nat) returns (run: seq<Action>, t: State)
    requires Waits(s, i) && Pending(s, m) && s.msgs[m].event.None?
    ensures Runs(s, run) && UndisturbedRun(s, run) && Exec(s, run) == t
    ensures |t.msgs| == |s.msgs| && t.msgs == s.msgs[m := t.msgs[m]] && t.msgs[m].state.Dropped?
    ensures t.led == s.led && t.consumers == s.consumers
  {
    PendingIsReady(s, m);
    var s1 := Step(s, Deliver(m, i));
    t := Step(s1, Take(i, m));
    RunsCons(s1, Take(i, m), []);
    RunsCons(s, Deliver(m, i), [Take(i, m)] + []);
    run := [Deliver(m, i)] + ([Take(i, m)] + []);
    assert run == [Deliver(m, i), Take(i, m)] && run[1..] == [Take(i, m)] && run[1..][1..] == [];
    assert UndisturbedRun(t, []) && UndisturbedRun(s1, run[1..]);
    assert t.consumers == s.consumers;
  }

  lemma Affords(s: State, m: nat)
    requires Quiet(s) && Covered(s) && Pending(s, m) && s.msgs[m].event.Some?
    ensures OpOf(s, m).cost <= L.Bal(s.led, OpOf(s, m).user)
  {
    PendingIsReady(s, m);
    var u := OpOf(s, m).user;
    SumDominates(s.msgs, m, Owed(s.tariff, u));
    assert TotalOwed(s, u) <= L.Bal(s.led, u);
  }

  // A message that can be decoded is charged and acknowledged.
  lemma ChargeOne(s: State, m: nat, i: nat) returns (run: seq<Action>, t: State)
    requires Waits(s, i) && Covered(s) && Pending(s, m) && s.msgs[m].event.Some?
    ensures Runs(s, run) && UndisturbedRun(s, run) && Exec(s, run) == t
    ensures |t.msgs| == |s.msgs| && t.msgs == s.msgs[m := t.msgs[m]] && t.msgs[m].state.Acked?
    ensures L.Quiescent(t.led) && t.consumers == s.consumers
  {
    PendingIsReady(s, m);
    Affords(s, m);
    AttemptRuns(s, m, i, 0);
    var e := Attempted(s, m, i, 0);
    RunsSnoc(s, Attempt(m, i, 0), Settle(i));
    UndisturbedSnoc(s, Attempt(m, i, 0), Settle(i));
    run, t := Attempt(m, i, 0) + [Settle(i)], Step(e, Settle(i));
    assert t.led.slots == s.led.slots[i := L.Idle];
    assert t.msgs == s.msgs[m := t.msgs[m]];
  }

  lemma SettleOne(s: State, m: nat, i: nat) returns (run: seq<Action>, t: State)
    requires Waits(s, i) && Covered(s) && Pending(s, m)
    ensures Runs(s, run) && UndisturbedRun(s, run) && Exec(s, run) == t
    ensures Waits(t, i) && Covered(t)
    ensures SumOf(t.msgs, Unsettled()) == SumOf(s.msgs, Unsettled()) - 1
  {
    PendingIsReady(s, m);
    if s.msgs[m].event.None? {
      run, t := DropOne(s, m, i);
    } else {
      run, t := ChargeOne(s, m, i);
    }
    SumUpdate(s.msgs, m, t.msgs[m], Unsettled());
    UndisturbedIsClean(s, run);
    StaysCovered(s, run);
  }

  lemma StaysCovered(s: State, run: seq<Action>)
    requires CleanInv(s) && NoDeposits(s) && Covered(s) && Runs(s, run) && CleanRun(s, run) && ClosedRun(run)
    ensures CleanInv(Exec(s, run)) && Covered(Exec(s, run))
  {
    var t := Exec(s, run);
    RunConserves(s, run, []);
    forall u ensures TotalOwed(t, u) <= L.Bal(t.led, u) {
      RunConserves(s, run, u);
      assert TotalOwed(s, u) <= L.Bal(s.led, u);
    }
    CostsStay(s, run);
  }

  lemma {:induction false} DrainAll(s: State, i: nat, n: nat) returns (run: seq<Action>)
    requires Waits(s, i) && Covered(s) && SumOf(s.msgs, Unsettled()) == n
    ensures Runs(s, run) && UndisturbedRun(s, run) && Settled(Exec(s, run))
    decreases n
  {
    if Settled(s) {
      run := [];
    } else {
      var m: nat :| m < |s.msgs| && !(s.msgs[m].state.Acked? || s.msgs[m].state.Dropped?);
      var first, t := SettleOne(s, m, i);
      SumNonNegative(t.msgs, Unsettled());
      var rest := DrainAll(t, i, n - 1);
      UndisturbedConcat(s, first, rest);
      run := first + rest;
    }
  }

  /** From any quiet queue with a connected consumer whose users can all pay for what is queued, some
      undisturbed run settles every message, and charges each user exactly what the queue owed. */
  lemma CoveredQueueCanDrain(s: State, i: nat) returns (run: seq<Action>)
    requires Waits(s, i) && Covered(s)
    ensures Runs(s, run) && UndisturbedRun(s, run) && Settled(Exec(s, run))
    ensures forall u :: L.Bal(Exec(s, run).led, u) == L.Bal(s.led, u) - TotalOwed(s, u)
  {
    SumNonNegative(s.msgs, Unsettled());
    run := DrainAll(s, i, SumOf(s.msgs, Unsettled()));
    UndisturbedIsClean(s, run);
    forall u ensures L.Bal(Exec(s, run).led, u) == L.Bal(s.led, u) - TotalOwed(s, u) {
      assert TotalOwed(s, u) <= L.Bal(s.led, u);
      CoveredQueueDrains(s, run, u);
    }
  }
}
