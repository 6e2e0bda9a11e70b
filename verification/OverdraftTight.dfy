/** The overdraft bound is reached: n consumers that all check before any of them deducts. */
module OverdraftTight {
  import opened Ledger
  import opened Overdraft
  import opened AtomicLedger

  function Charge(u: User, c: nat): Op
  {
    Usage(u, [], 0, c, 0)
  }

  function CheckAll(u: User, c: nat, k: nat): seq<Action>
  {
    if k == 0 then [] else CheckAll(u, c, k - 1) + [Begin(k - 1, Charge(u, c)), Read(k - 1, true)]
  }

  function DeductAll(k: nat): seq<Action>
  {
    if k == 0 then [] else DeductAll(k - 1) + [Update(k - 1, Fine)]
  }

  function Start(u: User, c: nat, n: nat): State
  {
    State(map[u := c], [], [], seq(n, _ => Idle))
  }

  /** The first k callers have passed the check. */
  function Checked(u: User, c: nat, n: nat, k: nat): State
  {
    State(map[u := c], [], [], seq(n, i => if i < k then Call(Charge(u, c), Updating) else Idle))
  }

  /** All n have passed the check and the first k have deducted. */
  function Deducted(u: User, c: nat, n: nat, k: nat): State
  {
    State(map[u := c - k * c], seq(k, _ => Charge(u, c)), [],
          seq(n, i => Call(Charge(u, c), if i < k then Logging else Updating)))
  }

  lemma {:induction false} CheckAllRuns(u: User, c: nat, n: nat, k: nat)
    requires k <= n
    ensures Runs(Start(u, c, n), CheckAll(u, c, k))
    ensures Exec(Start(u, c, n), CheckAll(u, c, k)) == Checked(u, c, n, k)
  {
    if k == 0 {
      assert Start(u, c, n).slots == Checked(u, c, n, 0).slots;
    } else {
      CheckAllRuns(u, c, n, k - 1);
      var s := Checked(u, c, n, k - 1);
      var b, r := Begin(k - 1, Charge(u, c)), Read(k - 1, true);
      var s1 := Step(s, b);
      assert Step(s1, r).slots == Checked(u, c, n, k).slots;
      RunsSnoc(Start(u, c, n), CheckAll(u, c, k - 1), b);
      RunsSnoc(Start(u, c, n), CheckAll(u, c, k - 1) + [b], r);
      assert CheckAll(u, c, k) == CheckAll(u, c, k - 1) + [b] + [r];
    }
  }

  lemma {:induction false} DeductAllRuns(u: User, c: nat, n: nat, k: nat)
    requires k <= n
    ensures Runs(Checked(u, c, n, n), DeductAll(k))
    ensures Exec(Checked(u, c, n, n), DeductAll(k)) == Deducted(u, c, n, k)
  {
    if k == 0 {
      assert Checked(u, c, n, n).slots == Deducted(u, c, n, 0).slots;
      assert Checked(u, c, n, n).applied == Deducted(u, c, n, 0).applied;
    } else {
      DeductAllRuns(u, c, n, k - 1);
      DeductStep(u, c, n, k - 1);
      RunsSnoc(Checked(u, c, n, n), DeductAll(k - 1), Update(k - 1, Fine));
    }
  }

  lemma DeductStep(u: User, c: nat, n: nat, k: nat)
    requires k < n
    ensures Enabled(Deducted(u, c, n, k), Update(k, Fine))
    ensures Step(Deducted(u, c, n, k), Update(k, Fine)) == Deducted(u, c, n, k + 1)
  {
    var t, d := Step(Deducted(u, c, n, k), Update(k, Fine)), Deducted(u, c, n, k + 1);
    assert t.slots == d.slots;
    assert t.applied == d.applied;
    assert (k + 1) * c == k * c + c;
    assert t.balance == d.balance;
  }

  lemma {:induction false} CheckAllAdmissible(u: User, c: nat, n: nat, k: nat)
    requires k <= n
    ensures AdmissibleRun(CheckAll(u, c, k), n, c)
  {
    if k > 0 {
      CheckAllAdmissible(u, c, n, k - 1);
    }
  }

  lemma {:induction false} DeductAllAdmissible(n: nat, c: nat, k: nat)
    ensures AdmissibleRun(DeductAll(k), n, c)
  {
    if k > 0 {
      DeductAllAdmissible(n, c, k - 1);
    }
  }

  /** For every n and c some admissible run, with every store call succeeding, ends with a
      balance of exactly -(n-1)*c, so OverdraftBound cannot be improved. */
  lemma OverdraftBoundIsReached(u: User, n: nat, c: nat) returns (s: State, run: seq<Action>)
    requires 0 < n
    ensures Quiescent(s) && forall v :: Bal(s, v) >= 0
    ensures Runs(s, run) && AdmissibleRun(run, n, c)
    ensures forall a :: a in run && a.Update? ==> a.out.Fine?
    ensures Bal(Exec(s, run), u) == -(n - 1) * c
  {
    s, run := Start(u, c, n), CheckAll(u, c, n) + DeductAll(n);
    CheckAllRuns(u, c, n, n);
    DeductAllRuns(u, c, n, n);
    RunsConcat(s, CheckAll(u, c, n), DeductAll(n));
    CheckAllAdmissible(u, c, n, n);
    DeductAllAdmissible(n, c, n);
    UpdatesAreFine(u, c, n);
    assert c - n * c == -(n - 1) * c;
  }

  lemma {:induction false} UpdatesAreFine(u: User, c: nat, k: nat)
    ensures forall a :: a in CheckAll(u, c, k) && a.Update? ==> a.out.Fine?
    ensures forall a :: a in DeductAll(k) && a.Update? ==> a.out.Fine?
  {
    if k > 0 {
      UpdatesAreFine(u, c, k - 1);
    }
  }

  /** The bound rests on deposits not being negative, which nothing checks: one negative deposit
      overdraws at once, whoever charges. */
  lemma NegativeDepositOverdraws(u: User, amount: int)
    requires amount < 0
    ensures
      var s := State(map[], [], [], [Idle]);
      var run := [Begin(0, Deposit(u, amount)), Update(0, Fine), Insert(0, Fine, 0), Return(0)];
      Runs(s, run) && Quiescent(Exec(s, run)) && Bal(Exec(s, run), u) == amount
  {
    var s := State(map[], [], [], [Idle]);
    var a := [Begin(0, Deposit(u, amount)), Update(0, Fine), Insert(0, Fine, 0), Return(0)];
    RunsSnoc(s, [], a[0]);
    RunsSnoc(s, [] + [a[0]], a[1]);
    RunsSnoc(s, [] + [a[0]] + [a[1]], a[2]);
    RunsSnoc(s, [] + [a[0]] + [a[1]] + [a[2]], a[3]);
    assert [] + [a[0]] + [a[1]] + [a[2]] + [a[3]] == a;
    assert Exec(s, a) == State(map[u := amount], [Deposit(u, amount)], [Row(Deposit(u, amount), 0)], [Idle]);
  }

  /** With two or more consumers atomicity is lost, even when every store call succeeds: some run
      ends in a state that no history of the atomic ledger can reach. */
  lemma SeveralConsumersAreNotAtomic(u: User, n: nat, c: nat) returns (s: State, run: seq<Action>)
    requires 1 < n && 0 < c
    ensures Quiescent(s) && Runs(s, run) && AdmissibleRun(run, n, c)
    ensures forall a :: a in run && a.Update? ==> a.out.Fine?
    ensures forall h: seq<Event> | (forall e :: e in h && e.Settled? && e.op.Deposit? ==> 0 <= e.op.amount) ::
              !Explains(Abs(s), h, Abs(Exec(s, run)))
  {
    s, run := OverdraftBoundIsReached(u, n, c);
    Positive(n - 1, c);
    forall v ensures BalanceIn(Abs(s).balance, v) >= 0 {
      assert Bal(s, v) >= 0;
    }
    NoHistory(Abs(s), Abs(Exec(s, run)), u);
  }

  lemma Positive(x: int, y: int)
    requires 0 < x && 0 < y
    ensures 0 < x * y && -x * y == -(x * y)
  {
  }

  lemma NoHistory(a: Atomic, b: Atomic, u: User)
    requires forall v :: BalanceIn(a.balance, v) >= 0
    requires BalanceIn(b.balance, u) < 0
    ensures forall h: seq<Event> | (forall e :: e in h && e.Settled? && e.op.Deposit? ==> 0 <= e.op.amount) ::
              !Explains(a, h, b)
  {
    forall h: seq<Event> | (forall e :: e in h && e.Settled? && e.op.Deposit? ==> 0 <= e.op.amount)
      ensures !Explains(a, h, b)
    {
      if Explains(a, h, b) {
        AtomicNeverOverdraws(a, h, b, u);
      }
    }
  }
}
