/** How far below zero a balance can go when n consumers check and then deduct. */
module Overdraft {
  import opened Sums
  import opened Ledger

  /** Only the first n callers charge usage, every cost lies in [0, c] and no deposit is negative. */
  predicate Admissible(op: Op, i: nat, n: nat, c: nat)
  {
    match op
    case Deposit(_, amount) => 0 <= amount
    case Usage(_, _, _, cost, _) => i < n && 0 <= cost <= c
  }

  predicate AdmissibleRun(run: seq<Action>, n: nat, c: nat)
  {
    forall a :: a in run && a.Begin? ==> Admissible(a.op, a.i, n, c)
  }

  /** What a caller has been promised by its check and has not deducted yet. */
  function Promised(u: User): Slot -> int
  {
    (x: Slot) =>
      if x.Call? && x.stage.Updating? && x.op.Usage? && x.op.user == u then x.op.cost else 0
  }

  predicate Disciplined(s: State, n: nat, c: nat)
  {
    forall i :: 0 <= i < |s.slots| && s.slots[i].Call? ==> Admissible(s.slots[i].op, i, n, c)
  }

  /** The inductive invariant: even after all promised deductions the bound holds. */
  ghost predicate Inv(s: State, n: nat, c: nat)
  {
    && Disciplined(s, n, c)
    && forall u :: Bal(s, u) - SumOf(s.slots, Promised(u)) >= -(n - 1) * c
  }

  lemma StepKeepsInv(s: State, a: Action, n: nat, c: nat)
    requires 0 < n && Inv(s, n, c) && Enabled(s, a)
    requires a.Begin? ==> Admissible(a.op, a.i, n, c)
    ensures Inv(Step(s, a), n, c)
  {
    var t := Step(s, a);
    forall u ensures Bal(t, u) - SumOf(t.slots, Promised(u)) >= -(n - 1) * c {
      assert Bal(s, u) - SumOf(s.slots, Promised(u)) >= -(n - 1) * c;
      if !a.Query? {
        var f := Promised(u);
        SumUpdate(s.slots, a.i, t.slots[a.i], f);
        if a.Read? && Passes(s, a.i, a.up) && f(t.slots[a.i]) != 0 {
          OthersPromised(t, a.i, n, c, u);
        }
      }
    }
  }

  // The other n-1 consumers hold promises of at most c each.
  lemma OthersPromised(t: State, i: nat, n: nat, c: nat, u: User)
    requires Disciplined(t, n, c) && i < n && i < |t.slots|
    ensures SumOf(t.slots, Promised(u)) <= Promised(u)(t.slots[i]) + (n - 1) * c
  {
    var f := Promised(u);
    var others := t.slots[i := Idle];
    SumUpdate(t.slots, i, Idle, f);
    forall j | 0 <= j < |others| ensures f(others[j]) <= c && (n <= j ==> f(others[j]) <= 0) {
      assert j != i ==> others[j] == t.slots[j];
    }
    SumOfOthers(others, n, i, c, f);
  }

  lemma {:induction false} RunKeepsInv(s: State, run: seq<Action>, n: nat, c: nat)
    requires 0 < n && Inv(s, n, c) && Runs(s, run) && AdmissibleRun(run, n, c)
    ensures Inv(Exec(s, run), n, c)
    decreases |run|
  {
    if run != [] {
      assert run[0] in run;
      StepKeepsInv(s, run[0], n, c);
      RunKeepsInv(Step(s, run[0]), run[1..], n, c);
    }
  }

  /** Over every interleaving of deposits and n concurrent consumers, with reads answering 0 on
      failure, refused and lost writes, and callers that die half way, no balance falls below
      -(n-1)*c; a single consumer never overdraws. */
  lemma OverdraftBound(s: State, run: seq<Action>, n: nat, c: nat, u: User)
    requires 0 < n && Runs(s, run) && AdmissibleRun(run, n, c)
    requires Quiescent(s) && forall v :: Bal(s, v) >= 0
    ensures Bal(Exec(s, run), u) >= -(n - 1) * c
    ensures n == 1 ==> Bal(Exec(s, run), u) >= 0
  {
    assert 0 <= (n - 1) * c;
    forall v ensures Bal(s, v) - SumOf(s.slots, Promised(v)) >= -(n - 1) * c {
      SumZero(s.slots, Promised(v));
    }
    RunKeepsInv(s, run, n, c);
    var t := Exec(s, run);
    assert Bal(t, u) - SumOf(t.slots, Promised(u)) >= -(n - 1) * c;
    SumNonNegative(t.slots, Promised(u));
  }
}
