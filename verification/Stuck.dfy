/** When can a queue make no further progress? */
module Stuck {
  import opened Delivery
  import opened Custody
  import opened DeliverySafety
  import opened Drain
  import opened Attempts
  import L = Ledger

  /** Every consumer is between messages and has nothing buffered. */
  ghost predicate Quiet(s: State)
  {
    && CleanInv(s) && L.Quiescent(s.led)
    && forall i :: 0 <= i < |s.consumers| ==> s.consumers[i].buffer == {}
  }

  predicate TooExpensive(s: State, m: nat)
    requires m < |s.msgs|
  {
    (s.msgs[m].state.Ready? || s.msgs[m].state.Unacked?) && s.msgs[m].event.Some?
    ==> L.Bal(s.led, OpOf(s, m).user) < OpOf(s, m).cost
  }

  /** A charge that has not passed its check, or can no longer be acknowledged. */
  predicate Futile(s: State, i: nat)
    requires i < |s.led.slots|
  {
    s.led.slots[i].Call? ==>
      || s.led.slots[i].stage.Reading? || s.led.slots[i].stage == L.Done(false)
      || (s.led.slots[i].stage.Updating? && i < |s.consumers| && !s.consumers[i].open)
  }

  ghost predicate Hopeless(s: State)
  {
    && CleanInv(s) && NoDeposits(s)
    && (forall m :: 0 <= m < |s.msgs| ==> TooExpensive(s, m))
    && (forall i :: 0 <= i < |s.led.slots| ==> Futile(s, i))
  }

  /** Closed and clean, with every balance read answered. */
  predicate Undisturbed(s: State, a: Action)
  {
    Closed(a) && Clean(s, a) && (a.Store? && a.a.Read? ==> a.a.up)
  }

  predicate UndisturbedRun(s: State, run: seq<Action>)
    requires Runs(s, run)
    decreases |run|
  {
    run == [] || (Undisturbed(s, run[0]) && UndisturbedRun(Step(s, run[0]), run[1..]))
  }

  /** Between s and t no message has been acknowledged. */
  predicate NothingNew(s: State, t: State)
  {
    |t.msgs| == |s.msgs| && forall m :: 0 <= m < |s.msgs| && t.msgs[m].state.Acked? ==> s.msgs[m].state.Acked?
  }

  lemma StepStaysHopeless(s: State, a: Action)
    requires Hopeless(s) && Enabled(s, a) && Undisturbed(s, a)
    ensures Hopeless(Step(s, a))
    ensures NothingNew(s, Step(s, a))
  {
    var t := Step(s, a);
    StepKeepsClean(s, a);
    Touched(s, a);
    NothingPaid(s, a);
    forall m | 0 <= m < |t.msgs| ensures TooExpensive(t, m) && (t.msgs[m].state.Acked? ==> s.msgs[m].state.Acked?) {
      assert TooExpensive(s, m) && MsgOk(s, m);
      if a.Settle? {
        assert Charging(s, a.i, s.led.slots[a.i].op.msg);
      }
    }
  }

  lemma NothingPaid(s: State, a: Action)
    requires Hopeless(s) && Enabled(s, a) && Undisturbed(s, a)
    ensures Step(s, a).led.balance == s.led.balance && Step(s, a).tariff == s.tariff
    ensures forall i :: 0 <= i < |Step(s, a).led.slots| ==> Futile(Step(s, a), i)
    ensures a.Settle? ==> !s.led.slots[a.i].stage.ok
  {
    var t := Step(s, a);
    Touched(s, a);
    if a.Store? && !a.a.Query? {
      assert Futile(s, a.a.i);
      if a.a.i < |s.consumers| && s.consumers[a.a.i].open {
        ReaderFails(s, a.a.i);
      }
    }
    if a.Settle? {
      assert Futile(s, a.i);
    }
    forall i | 0 <= i < |t.led.slots| ensures Futile(t, i) {
      assert Futile(s, i);
    }
  }

  // What a consumer is charging is unacknowledged, hence too expensive.
  lemma ReaderFails(s: State, i: nat)
    requires Hopeless(s) && i < |s.consumers| && s.consumers[i].open
    requires i < |s.led.slots| && s.led.slots[i].Call?
    ensures s.led.slots[i].op.Usage? && !L.Passes(s.led, i, true)
  {
    assert SlotOk(s, i) && Tidy(s, i) && HoldsOk(s, i);
    var m := s.led.slots[i].op.msg;
    assert Charging(s, i, m);
    assert TooExpensive(s, m);
  }

  lemma {:induction false} RunStaysHopeless(s: State, run: seq<Action>)
    requires Hopeless(s) && Runs(s, run) && UndisturbedRun(s, run)
    ensures NothingNew(s, Exec(s, run))
    decreases |run|
  {
    if run != [] {
      StepStaysHopeless(s, run[0]);
      RunStaysHopeless(Step(s, run[0]), run[1..]);
    }
  }

  /** No undisturbed run acknowledges anything more. */
  ghost predicate IsStuck(s: State)
  {
    forall run: seq<Action> | Runs(s, run) && UndisturbedRun(s, run) :: NothingNew(s, Exec(s, run))
  }

  lemma Progress(s: State, m: nat, i: nat) returns (run: seq<Action>)
    requires Quiet(s) && i < |s.consumers| && s.consumers[i].open && m < |s.msgs| && !TooExpensive(s, m)
    ensures Runs(s, run) && UndisturbedRun(s, run) && !s.msgs[m].state.Acked?
    ensures m < |Exec(s, run).msgs| && Exec(s, run).msgs[m].state.Acked?
  {
    assert MsgOk(s, m);
    AttemptRuns(s, m, i, 0);
    RunsSnoc(s, Attempt(m, i, 0), Settle(i));
    run := Attempt(m, i, 0) + [Settle(i)];
    UndisturbedSnoc(s, Attempt(m, i, 0), Settle(i));
  }

  lemma {:induction false} UndisturbedSnoc(s: State, run: seq<Action>, a: Action)
    requires Runs(s, run) && CleanRun(s, run) && Enabled(Exec(s, run), a) && a.Settle?
    requires forall b :: b in run ==> Closed(b) && (b.Store? && b.a.Read? ==> b.a.up)
    ensures Runs(s, run + [a]) && UndisturbedRun(s, run + [a])
    decreases |run|
  {
    RunsSnoc(s, run, a);
    if run == [] {
      assert run + [a] == [a] && [a][1..] == [];
      assert UndisturbedRun(Step(s, a), []);
    } else {
      assert (run + [a])[1..] == run[1..] + [a];
      assert run[0] in run;
      UndisturbedSnoc(Step(s, run[0]), run[1..], a);
    }
  }

  lemma {:induction false} UndisturbedConcat(s: State, r1: seq<Action>, r2: seq<Action>)
    requires Runs(s, r1) && UndisturbedRun(s, r1) && Runs(Exec(s, r1), r2) && UndisturbedRun(Exec(s, r1), r2)
    ensures Runs(s, r1 + r2) && UndisturbedRun(s, r1 + r2) && Exec(s, r1 + r2) == Exec(Exec(s, r1), r2)
    decreases |r1|
  {
    RunsConcat(s, r1, r2);
    if r1 == [] {
      assert r1 + r2 == r2;
    } else {
      assert (r1 + r2)[1..] == r1[1..] + r2;
      UndisturbedConcat(Step(s, r1[0]), r1[1..], r2);
    }
  }

  lemma {:induction false} UndisturbedIsClean(s: State, run: seq<Action>)
    requires Runs(s, run) && UndisturbedRun(s, run)
    ensures CleanRun(s, run) && ClosedRun(run)
    decreases |run|
  {
    if run != [] {
      UndisturbedIsClean(Step(s, run[0]), run[1..]);
    }
  }

  /** An undisturbed run from s to t. */
  ghost predicate Calm(s: State, run: seq<Action>, t: State)
  {
    Runs(s, run) && UndisturbedRun(s, run) && Exec(s, run) == t
  }

  lemma CalmStep(s: State, a: Action) returns (run: seq<Action>)
    requires Enabled(s, a) && Undisturbed(s, a)
    ensures Calm(s, run, Step(s, a))
  {
    RunsCons(s, a, []);
    run := [a] + [];
    assert run[1..] == [] && UndisturbedRun(Step(s, a), []);
  }

  lemma CalmThen(s: State, r1: seq<Action>, t: State, r2: seq<Action>, u: State) returns (run: seq<Action>)
    requires Calm(s, r1, t) && Calm(t, r2, u)
    ensures Calm(s, run, u)
  {
    UndisturbedConcat(s, r1, r2);
    run := r1 + r2;
  }

  lemma CalmSnoc(s: State, r1: seq<Action>, t: State, a: Action) returns (run: seq<Action>)
    requires Calm(s, r1, t) && Enabled(t, a) && Undisturbed(t, a)
    ensures Calm(s, run, Step(t, a))
  {
    var last := CalmStep(t, a);
    run := CalmThen(s, r1, t, last, Step(t, a));
  }

  lemma CalmKeeps(s: State, run: seq<Action>, t: State)
    requires CleanInv(s) && NoDeposits(s) && Calm(s, run, t)
    ensures CleanInv(t) && NoDeposits(t) && t.tariff == s.tariff && |t.msgs| == |s.msgs|
  {
    UndisturbedIsClean(s, run);
    RunConserves(s, run, []);
  }

  /** Consumer i has passed its check for message m and can still be answered for it. */
  predicate Passed(s: State, i: nat, m: nat)
  {
    && i < |s.consumers| && s.consumers[i].open && Charging(s, i, m)
    && !s.led.slots[i].stage.Reading? && s.led.slots[i].stage != L.Done(false)
  }

  lemma PassedIsUnacked(s: State, i: nat, m: nat)
    requires CleanInv(s) && Passed(s, i, m)
    ensures m < |s.msgs| && s.msgs[m].state == Unacked(i)
  {
    assert HoldsOk(s, i);
  }

  // The next step of a charge that has passed its check.
  lemma PassedStep(s: State, i: nat, m: nat) returns (a: Action)
    requires CleanInv(s) && Passed(s, i, m)
    ensures Enabled(s, a) && Undisturbed(s, a)
    ensures s.led.slots[i].stage == L.Done(true) ==>
      m < |Step(s, a).msgs| && Step(s, a).msgs[m].state.Acked?
    ensures s.led.slots[i].stage.Updating? ==>
      Passed(Step(s, a), i, m) && Step(s, a).led.slots[i].stage.Logging?
    ensures s.led.slots[i].stage.Logging? ==>
      Passed(Step(s, a), i, m) && Step(s, a).led.slots[i].stage == L.Done(true)
  {
    PassedIsUnacked(s, i, m);
    match s.led.slots[i].stage
    case Updating => a := Store(L.Update(i, L.Fine));
    case Logging => a := Store(L.Insert(i, L.Fine, 0));
    case _ => a := Settle(i);
  }

  function ToGo(s: State, i: nat): nat
  {
    if i < |s.led.slots| && s.led.slots[i].Call? then
      if s.led.slots[i].stage.Updating? then 2 else if s.led.slots[i].stage.Logging? then 1 else 0
    else 0
  }

  /** A charge that has passed its check over an open connection can be brought to its acknowledgement. */
  lemma {:induction false} Finished(s: State, i: nat, m: nat) returns (run: seq<Action>, t: State)
    requires CleanInv(s) && NoDeposits(s) && Passed(s, i, m)
    ensures Calm(s, run, t) && m < |t.msgs| && t.msgs[m].state.Acked?
    decreases ToGo(s, i)
  {
    var a := PassedStep(s, i, m);
    run := CalmStep(s, a);
    t := Step(s, a);
    if s.led.slots[i].stage != L.Done(true) {
      CalmKeeps(s, run, t);
      var more, u := Finished(t, i, m);
      run := CalmThen(s, run, t, more, u);
      t := u;
    }
  }

  /** From s to t some messages went back from a consumer to the queue, and nothing else of theirs. */
  predicate Requeued(x: Msg, y: Msg)
  {
    y.event == x.event && (y.state == x.state || (x.state.Unacked? && y.state.Ready?))
  }

  /** Consumer i has let go of everything; balances and the other consumers are as they were. */
  ghost predicate LetsGo(s: State, i: nat, t: State)
  {
    && t.led.balance == s.led.balance && t.tariff == s.tariff
    && |t.msgs| == |s.msgs| && (forall m :: 0 <= m < |s.msgs| ==> Requeued(s.msgs[m], t.msgs[m]))
    && |t.consumers| == |s.consumers| && |t.led.slots| == |s.led.slots|
    && (forall j :: 0 <= j < |s.consumers| && j != i ==> t.consumers[j] == s.consumers[j])
    && (forall j :: 0 <= j < |s.led.slots| && j != i ==> t.led.slots[j] == s.led.slots[j])
  }

  lemma LetsGoTwice(s: State, i: nat, t: State, u: State)
    requires LetsGo(s, i, t) && LetsGo(t, i, u)
    ensures LetsGo(s, i, u)
  {
    forall m | 0 <= m < |s.msgs| ensures Requeued(s.msgs[m], u.msgs[m]) {
      assert Requeued(s.msgs[m], t.msgs[m]) && Requeued(t.msgs[m], u.msgs[m]);
    }
  }

  // One step towards an idle slot, none of which pays.
  lemma FreeingStep(s: State, i: nat) returns (a: Action)
    requires CleanInv(s) && i < |s.consumers| && i < |s.led.slots| && s.led.slots[i].Call? && !Deducted(s, i)
    ensures Enabled(s, a) && Undisturbed(s, a) && LetsGo(s, i, Step(s, a)) && !Deducted(Step(s, a), i)
    ensures Step(s, a).led.slots[i].Idle? || Rank(Step(s, a), i) < Rank(s, i)
  {
    assert SlotOk(s, i) && HoldsOk(s, i);
    assert Charging(s, i, s.led.slots[i].op.msg);
    match s.led.slots[i].stage
    case Reading => a := Store(L.Read(i, true));
    case Updating => a := Store(L.Update(i, L.Refused));
    case _ => a := Settle(i);
  }

  function Rank(s: State, i: nat): nat
  {
    if i < |s.led.slots| && s.led.slots[i].Call? then
      if s.led.slots[i].stage.Reading? then 2 else if s.led.slots[i].stage.Updating? then 1 else 0
    else 0
  }

  /** A charge that has not been deducted can be given up without paying. */
  lemma {:induction false} Freed(s: State, i: nat) returns (run: seq<Action>, t: State)
    requires CleanInv(s) && NoDeposits(s) && i < |s.consumers| && i < |s.led.slots| && !Deducted(s, i)
    ensures Calm(s, run, t) && LetsGo(s, i, t) && t.led.slots[i].Idle?
    decreases Rank(s, i), s.led.slots[i].Call?
  {
    if s.led.slots[i].Idle? {
      run, t := [], s;
    } else {
      var a := FreeingStep(s, i);
      run := CalmStep(s, a);
      t := Step(s, a);
      CalmKeeps(s, run, t);
      var more, u := Freed(t, i);
      run := CalmThen(s, run, t, more, u);
      LetsGoTwice(s, i, t, u);
      t := u;
    }
  }

  lemma Closing(s: State, i: nat)
    requires i < |s.consumers| && s.consumers[i].open && IsIdle(s, i)
    ensures Enabled(s, Close(i)) && Undisturbed(s, Close(i)) && LetsGo(s, i, Step(s, Close(i)))
    ensures Step(s, Close(i)).led == s.led && !Step(s, Close(i)).consumers[i].open
  {
  }

  /** Consumer i lets go of its charge and of what it has buffered, and connects anew. */
  lemma Renewed(s: State, i: nat) returns (run: seq<Action>, t: State)
    requires CleanInv(s) && NoDeposits(s) && i < |s.consumers| && i < |s.led.slots| && !Deducted(s, i)
    ensures Calm(s, run, t) && LetsGo(s, i, t)
    ensures t.led.slots[i].Idle? && t.consumers[i] == Consumer(true, {})
  {
    run, t := Freed(s, i);
    if t.consumers[i].open {
      Closing(t, i);
      run := CalmSnoc(s, run, t, Close(i));
      LetsGoTwice(s, i, t, Step(t, Close(i)));
      t := Step(t, Close(i));
    }
    run := CalmSnoc(s, run, t, Reconnect(i));
    assert LetsGo(t, i, Step(t, Reconnect(i)));
    LetsGoTwice(s, i, t, Step(t, Reconnect(i)));
    t := Step(t, Reconnect(i));
  }

  /** From s to t nobody paid, and the first n consumers have nothing in their hands. */
  ghost predicate Quieted(s: State, n: nat, t: State)
  {
    && t.led.balance == s.led.balance && t.tariff == s.tariff
    && |t.msgs| == |s.msgs| && (forall m :: 0 <= m < |s.msgs| ==> Requeued(s.msgs[m], t.msgs[m]))
    && |t.consumers| == |s.consumers| && |t.led.slots| == |s.led.slots|
    && (forall j :: 0 <= j < |s.consumers| && j < n ==> t.consumers[j] == Consumer(true, {}) && IsIdle(t, j))
    && (forall j :: n <= j < |s.led.slots| ==> t.led.slots[j] == s.led.slots[j])
  }

  lemma QuietedMore(s: State, n: nat, t: State, u: State)
    requires Quieted(s, n, t) && LetsGo(t, n, u) && n < |s.consumers| <= |s.led.slots|
    requires u.led.slots[n].Idle? && u.consumers[n] == Consumer(true, {})
    ensures Quieted(s, n + 1, u)
  {
    forall m | 0 <= m < |s.msgs| ensures Requeued(s.msgs[m], u.msgs[m]) {
      assert Requeued(s.msgs[m], t.msgs[m]) && Requeued(t.msgs[m], u.msgs[m]);
    }
    forall j | 0 <= j < |s.consumers| && j < n + 1 ensures u.consumers[j] == Consumer(true, {}) && IsIdle(u, j) {
      assert j < n ==> t.consumers[j] == Consumer(true, {}) && IsIdle(t, j);
    }
  }

  lemma {:induction false} AllQuieted(s: State, n: nat) returns (run: seq<Action>, t: State)
    requires CleanInv(s) && NoDeposits(s) && n <= |s.consumers|
    requires forall i :: 0 <= i < |s.consumers| ==> !Deducted(s, i)
    ensures Calm(s, run, t) && Quieted(s, n, t)
  {
    if n == 0 {
      run, t := [], s;
    } else {
      var mid;
      run, mid := AllQuieted(s, n - 1);
      CalmKeeps(s, run, mid);
      assert mid.led.slots[n - 1] == s.led.slots[n - 1] && !Deducted(s, n - 1);
      var more, u := Renewed(mid, n - 1);
      run := CalmThen(s, run, mid, more, u);
      QuietedMore(s, n - 1, mid, u);
      t := u;
    }
  }

  lemma QuietedIsQuiet(s: State, run: seq<Action>, t: State)
    requires CleanInv(s) && NoDeposits(s) && Calm(s, run, t) && Quieted(s, |s.consumers|, t)
    ensures Quiet(t)
  {
    CalmKeeps(s, run, t);
    forall j | 0 <= j < |t.led.slots| ensures t.led.slots[j].Idle? {
      assert j < |s.consumers| ==> IsIdle(t, j);
    }
  }

  // A message that its user can pay for still is one when everybody has let go.
  lemma StillPayable(s: State, t: State, m: nat)
    requires Quieted(s, |s.consumers|, t) && Quiet(t) && m < |s.msgs| && !TooExpensive(s, m)
    ensures m < |t.msgs| && !TooExpensive(t, m) && !s.msgs[m].state.Acked?
  {
    assert Requeued(s.msgs[m], t.msgs[m]);
    assert OpOf(t, m) == OpOf(s, m);
  }

  // Whatever is not hopeless can still acknowledge something.
  lemma Advances(s: State) returns (run: seq<Action>, t: State)
    requires CleanInv(s) && NoDeposits(s) && 0 < |s.consumers| && !Hopeless(s)
    ensures Calm(s, run, t) && !NothingNew(s, t)
  {
    if i: nat :| i < |s.led.slots| && !Futile(s, i) {
      var m := NotFutile(s, i);
      run, t := Finished(s, i, m);
      PassedIsUnacked(s, i, m);
    } else {
      var m: nat :| m < |s.msgs| && !TooExpensive(s, m);
      forall i | 0 <= i < |s.consumers| ensures !Deducted(s, i) {
        assert i < |s.led.slots| ==> Futile(s, i);
      }
      var quiet;
      run, quiet := AllQuieted(s, |s.consumers|);
      QuietedIsQuiet(s, run, quiet);
      StillPayable(s, quiet, m);
      var more := Progress(quiet, m, 0);
      run := CalmThen(s, run, quiet, more, Exec(quiet, more));
      t := Exec(quiet, more);
    }
  }

  lemma NotFutile(s: State, i: nat) returns (m: nat)
    requires CleanInv(s) && NoDeposits(s) && i < |s.led.slots| && !Futile(s, i)
    ensures Passed(s, i, m)
  {
    assert SlotOk(s, i);
    assert i < |s.consumers| ==> Tidy(s, i);
    m := s.led.slots[i].op.msg;
  }

  /** At any moment of a queue to which nothing new comes, connected or not, with anything buffered or
      under charge: no undisturbed run acknowledges anything more if and only if every event left
      costs more than its user's balance and no charge that has passed its check can be answered. */
  lemma StuckIffHopeless(s: State)
    requires CleanInv(s) && NoDeposits(s) && 0 < |s.consumers|
    ensures IsStuck(s) <==> Hopeless(s)
  {
    if Hopeless(s) {
      forall run: seq<Action> | Runs(s, run) && UndisturbedRun(s, run) ensures NothingNew(s, Exec(s, run)) {
        RunStaysHopeless(s, run);
      }
    } else {
      var run, t := Advances(s);
      assert Runs(s, run) && UndisturbedRun(s, run) && !NothingNew(s, Exec(s, run));
    }
  }

  /** When nothing is buffered or under charge, it is the prices alone. */
  lemma StuckIffTooExpensive(s: State)
    requires Quiet(s) && 0 < |s.consumers|
    ensures IsStuck(s) <==> forall m :: 0 <= m < |s.msgs| ==> TooExpensive(s, m)
  {
    StuckIffHopeless(s);
  }
}
