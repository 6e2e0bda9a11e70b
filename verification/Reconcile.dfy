/** Does the balances table agree with the transactions table? */
module Reconcile {
  import opened Sums
  import opened Ledger
  import opened Text

  function DeltaFor(u: User, op: Op): int
  {
    if op.user == u then Delta(op) else 0
  }

  function RowDelta(u: User): Row -> int
  {
    (row: Row) => DeltaFor(u, row.op)
  }

  /** A change that is in the balance while its row is still to be inserted. */
  function Unlogged(u: User): Slot -> int
  {
    (x: Slot) => if x.Call? && x.stage.Logging? then DeltaFor(u, x.op) else 0
  }

  /** What one step makes the two tables disagree by, for good: an update whose row will never be
      inserted, because the insert failed, the caller died before it, or the update reported an
      error although it took effect. */
  function DriftOf(s: State, a: Action, u: User): int
    requires Enabled(s, a)
  {
    match a
    case Update(i, out) => if out.Lost? then DeltaFor(u, s.slots[i].op) else 0
    case Insert(i, out, _) => if out.Refused? then DeltaFor(u, s.slots[i].op) else 0
    case Abort(i) => Unlogged(u)(s.slots[i])
    case _ => 0
  }

  function Drift(s: State, run: seq<Action>, u: User): int
    requires Runs(s, run)
    decreases |run|
  {
    if run == [] then 0 else DriftOf(s, run[0], u) + Drift(Step(s, run[0]), run[1..], u)
  }

  function Gap(s: State, u: User): int
  {
    Bal(s, u) - SumOf(s.log, RowDelta(u)) - SumOf(s.slots, Unlogged(u))
  }

  lemma StepDrift(s: State, a: Action, u: User)
    requires Enabled(s, a)
    ensures Gap(Step(s, a), u) == Gap(s, u) + DriftOf(s, a, u)
  {
    var t := Step(s, a);
    if !a.Query? {
      SumUpdate(s.slots, a.i, t.slots[a.i], Unlogged(u));
      if a.Insert? && !a.out.Refused? {
        SumAppend(s.log, Row(s.slots[a.i].op, a.at), RowDelta(u));
      }
    }
  }

  /** In every run the balance moves away from (deposit rows - usage rows + changes not yet
      logged) by exactly the accumulated drift. */
  lemma {:induction false} Reconciliation(s: State, run: seq<Action>, u: User)
    requires Runs(s, run)
    ensures Gap(Exec(s, run), u) == Gap(s, u) + Drift(s, run, u)
    decreases |run|
  {
    if run != [] {
      StepDrift(s, run[0], u);
      Reconciliation(Step(s, run[0]), run[1..], u);
    }
  }

  /** No row is missed: updates never take effect while reporting an error, inserts are not
      refused, and no caller dies. */
  predicate Logged(a: Action)
  {
    && (a.Update? ==> !a.out.Lost?)
    && (a.Insert? ==> !a.out.Refused?)
    && !a.Abort?
  }

  predicate LoggedRun(run: seq<Action>)
  {
    forall a :: a in run ==> Logged(a)
  }

  lemma {:induction false} NoDrift(s: State, run: seq<Action>, u: User)
    requires Runs(s, run) && LoggedRun(run)
    ensures Drift(s, run, u) == 0
    decreases |run|
  {
    if run != [] {
      assert run[0] in run;
      NoDrift(Step(s, run[0]), run[1..], u);
    }
  }

  /** Without those faults, whenever nobody is inside a call the balance is the opening gap plus
      deposits minus usage, as recorded. */
  lemma QuiescentBalance(s: State, run: seq<Action>, u: User)
    requires Runs(s, run) && LoggedRun(run)
    requires Quiescent(Exec(s, run))
    ensures Bal(Exec(s, run), u) == Gap(s, u) + SumOf(Exec(s, run).log, RowDelta(u))
  {
    Reconciliation(s, run, u);
    NoDrift(s, run, u);
    SumZero(Exec(s, run).slots, Unlogged(u));
  }

  function Opening(u: User, cost: int): State
  {
    State(map[u := cost], [], [Row(Deposit(u, cost), 0)], [Idle])
  }

  // A charge of everything u has, up to the insert that is refused.
  lemma RefusedRun(u: User, op: Op, cost: int) returns (run: seq<Action>)
    requires op.Usage? && op.user == u && op.cost == cost
    ensures run == [Begin(0, op), Read(0, true), Update(0, Fine), Insert(0, Refused, 1), Return(0)]
    ensures Runs(Opening(u, cost), run)
    ensures Exec(Opening(u, cost), run) == State(map[u := 0], [op], Opening(u, cost).log, [Idle])
  {
    var s := Opening(u, cost);
    var s1, s2 := s.(slots := [Call(op, Reading)]), s.(slots := [Call(op, Updating)]);
    var s3 := State(map[u := 0], [op], s.log, [Call(op, Logging)]);
    var s4 := s3.(slots := [Call(op, Done(false))]);
    assert Step(s, Begin(0, op)).slots == s1.slots && Step(s1, Read(0, true)).slots == s2.slots;
    assert Step(s2, Update(0, Fine)).slots == s3.slots && Step(s3, Insert(0, Refused, 1)).slots == s4.slots;
    assert Step(s4, Return(0)).slots == [Idle];
    assert Step(s2, Update(0, Fine)) == s3 && Step(s4, Return(0)) == s3.(slots := [Idle]);
    assert Exec(Step(s4, Return(0)), []) == s3.(slots := [Idle]);
    RunsCons(s4, Return(0), []);
    RunsCons(s3, Insert(0, Refused, 1), [Return(0)] + []);
    run := [Insert(0, Refused, 1)] + ([Return(0)] + []);
    RunsCons(s2, Update(0, Fine), run);
    run := [Update(0, Fine)] + run;
    RunsCons(s1, Read(0, true), run);
    run := [Read(0, true)] + run;
    RunsCons(s, Begin(0, op), run);
    run := [Begin(0, op)] + run;
  }

  /** A single refused insert leaves the tables apart: the money is gone and no row says why. */
  lemma RefusedInsertDrifts(u: User, model: GoString, tokens: int, cost: int)
    requires 0 < cost
    ensures
      var s := Opening(u, cost);
      var run := [Begin(0, Usage(u, model, tokens, cost, 0)), Read(0, true), Update(0, Fine),
                  Insert(0, Refused, 1), Return(0)];
      && Runs(s, run) && Quiescent(Exec(s, run)) && Gap(s, u) == 0
      && Bal(Exec(s, run), u) == 0 && Exec(s, run).log == s.log && Gap(Exec(s, run), u) == -cost
  {
    var s := Opening(u, cost);
    var run := RefusedRun(u, Usage(u, model, tokens, cost, 0), cost);
    assert SumOf(s.log, RowDelta(u)) == RowDelta(u)(s.log[0]) + SumOf(s.log[1..], RowDelta(u));
    SumZero(s.slots, Unlogged(u));
  }
}
