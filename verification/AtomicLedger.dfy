/** When do the interleaved store calls behave like a ledger whose operations are indivisible? */
module AtomicLedger {
  import opened Sums
  import opened Ledger

  /** The reference: each operation is checked, applied and recorded in one go. */
  datatype Atomic = Atomic(balance: map<User, int>, rows: multiset<Op>)

  /** What a client of the ledger sees happen. */
  datatype Event =
    | Settled(op: Op, ok: bool)
    | Answered(user: User, answer: int)

  predicate Accepts(a: Atomic, op: Op)
  {
    op.Deposit? || op.cost <= BalanceIn(a.balance, op.user)
  }

  function Apply(a: Atomic, op: Op): Atomic
  {
    if Accepts(a, op) then Atomic(Upsert(a.balance, op), a.rows + multiset{op}) else a
  }

  /** The atomic ledger can go from a to b showing exactly these events. */
  predicate Explains(a: Atomic, history: seq<Event>, b: Atomic)
    decreases |history|
  {
    if history == [] then a == b
    else match history[0]
      case Settled(op, ok) => ok == Accepts(a, op) && Explains(Apply(a, op), history[1..], b)
      case Answered(u, v) => v == BalanceIn(a.balance, u) && Explains(a, history[1..], b)
  }

  function Abs(s: State): Atomic
  {
    Atomic(s.balance, multiset(s.applied))
  }

  /** Success takes effect at the balance update, refusal at the balance read. */
  function Visible(s: State, a: Action): seq<Event>
    requires Enabled(s, a)
  {
    match a
    case Read(i, up) => if Passes(s, i, up) then [] else [Settled(s.slots[i].op, false)]
    case Update(i, _) => [Settled(s.slots[i].op, true)]
    case Query(u, v) => [Answered(u, v)]
    case _ => []
  }

  function History(s: State, run: seq<Action>): seq<Event>
    requires Runs(s, run)
    decreases |run|
  {
    if run == [] then [] else Visible(s, run[0]) + History(Step(s, run[0]), run[1..])
  }

  /** The store answers every call and no caller dies. */
  predicate Faultless(a: Action)
  {
    && (a.Read? ==> a.up)
    && (a.Update? ==> a.out.Fine?)
    && (a.Insert? ==> a.out.Fine?)
    && !a.Abort?
  }

  /** The check still holds when the deduction is made. */
  predicate StillCovered(s: State, a: Action)
    requires Enabled(s, a)
  {
    a.Update? && s.slots[a.i].op.Usage? ==> s.slots[a.i].op.cost <= Bal(s, s.slots[a.i].op.user)
  }

  predicate CoveredRun(s: State, run: seq<Action>)
    requires Runs(s, run)
    decreases |run|
  {
    run == [] || (StillCovered(s, run[0]) && CoveredRun(Step(s, run[0]), run[1..]))
  }

  /** Only charges read the balance first. */
  predicate ReadersCharge(s: State)
  {
    forall i :: 0 <= i < |s.slots| && At(s, i, Reading) ==> s.slots[i].op.Usage?
  }

  lemma ExplainsCons(a: Atomic, e: Event, h: seq<Event>, b: Atomic)
    ensures e.Settled? ==>
      (Explains(a, [e] + h, b) <==> e.ok == Accepts(a, e.op) && Explains(Apply(a, e.op), h, b))
    ensures e.Answered? ==>
      (Explains(a, [e] + h, b) <==> e.answer == BalanceIn(a.balance, e.user) && Explains(a, h, b))
  {
    assert ([e] + h)[0] == e && ([e] + h)[1..] == h;
  }

  // A step that shows nothing changes nothing.
  lemma SilentStep(s: State, a: Action)
    requires Enabled(s, a) && Faultless(a) && Visible(s, a) == []
    ensures Abs(Step(s, a)) == Abs(s) && StillCovered(s, a)
  {
  }

  lemma ReadersStay(s: State, a: Action)
    requires Enabled(s, a) && ReadersCharge(s)
    ensures ReadersCharge(Step(s, a))
  {
  }

  /** One step shows the events of one atomic step, unless it is an uncovered deduction. */
  lemma StepIsAtomic(s: State, a: Action, h: seq<Event>, b: Atomic)
    requires Enabled(s, a) && Faultless(a) && ReadersCharge(s)
    ensures ReadersCharge(Step(s, a))
    ensures Explains(Abs(s), Visible(s, a) + h, b) <==> StillCovered(s, a) && Explains(Abs(Step(s, a)), h, b)
  {
    var v := Visible(s, a);
    ReadersStay(s, a);
    if v == [] {
      assert v + h == h;
      SilentStep(s, a);
    } else {
      assert a.Read? ==> At(s, a.i, Reading);
      assert v == [v[0]];
      ExplainsCons(Abs(s), v[0], h, b);
    }
  }

  /** For any number of callers and any deposits: with success taking effect at the update and refusal
      at the read, the run is a run of the atomic ledger, with the same answers, balances and rows, if
      and only if each deduction was still covered when made. */
  lemma {:induction false} AtomicIffCovered(s: State, run: seq<Action>)
    requires Runs(s, run) && ReadersCharge(s)
    requires forall a :: a in run ==> Faultless(a)
    ensures Explains(Abs(s), History(s, run), Abs(Exec(s, run))) <==> CoveredRun(s, run)
    decreases |run|
  {
    if run != [] {
      var t := Step(s, run[0]);
      assert run[0] in run;
      StepIsAtomic(s, run[0], History(t, run[1..]), Abs(Exec(t, run[1..])));
      AtomicIffCovered(t, run[1..]);
    }
  }

  function RowsOf(op: Op): Row -> int
  {
    (row: Row) => if row.op == op then 1 else 0
  }

  /** A row that is still to be inserted. */
  function OwedRows(op: Op): Slot -> int
  {
    (x: Slot) => if x.Call? && x.stage.Logging? && x.op == op then 1 else 0
  }

  function MissingRows(s: State, op: Op): int
  {
    multiset(s.applied)[op] - SumOf(s.log, RowsOf(op)) - SumOf(s.slots, OwedRows(op))
  }

  /** The rows of the atomic ledger are the rows of the transactions table plus those about to be
      inserted: operation by operation, nothing is missing and nothing is written twice. */
  lemma {:induction false} RowsAreAtomicRows(s: State, run: seq<Action>, op: Op)
    requires Runs(s, run)
    requires forall a :: a in run ==> Faultless(a)
    ensures MissingRows(Exec(s, run), op) == MissingRows(s, op)
    decreases |run|
  {
    if run != [] {
      var a, t := run[0], Step(s, run[0]);
      assert a in run;
      if !a.Query? {
        SumUpdate(s.slots, a.i, t.slots[a.i], OwedRows(op));
        if a.Insert? {
          SumAppend(s.log, Row(s.slots[a.i].op, a.at), RowsOf(op));
        }
      }
      RowsAreAtomicRows(t, run[1..], op);
    }
  }

  /** One consumer, in the first slot; what it has been promised is still there. */
  predicate KeptAt(s: State, i: nat)
    requires i < |s.slots|
  {
    var x := s.slots[i];
    x.Call? ==>
      if x.op.Deposit? then 0 <= x.op.amount
      else i == 0 && 0 <= x.op.cost && (x.stage.Updating? ==> x.op.cost <= Bal(s, x.op.user))
  }

  predicate Kept(s: State)
  {
    forall i :: 0 <= i < |s.slots| ==> KeptAt(s, i)
  }

  predicate BySingleConsumer(a: Action)
  {
    a.Begin? ==> if a.op.Deposit? then 0 <= a.op.amount else a.i == 0 && 0 <= a.op.cost
  }

  lemma StepKeepsKept(s: State, a: Action)
    requires Kept(s) && Enabled(s, a) && Faultless(a) && BySingleConsumer(a)
    ensures StillCovered(s, a) && Kept(Step(s, a))
  {
    var t := Step(s, a);
    assert !a.Query? ==> KeptAt(s, a.i);
    forall j | 0 <= j < |t.slots| ensures KeptAt(t, j) {
      assert KeptAt(s, j);
    }
  }

  lemma {:induction false} OneConsumerIsCovered(s: State, run: seq<Action>)
    requires Runs(s, run) && Kept(s)
    requires forall a :: a in run ==> Faultless(a) && BySingleConsumer(a)
    ensures CoveredRun(s, run)
    decreases |run|
  {
    if run != [] {
      assert run[0] in run;
      StepKeepsKept(s, run[0]);
      OneConsumerIsCovered(Step(s, run[0]), run[1..]);
    }
  }

  /** The deployment as shipped: one consumer, deposits that are not negative.  Every interleaving
      of its steps with deposits and balance queries is a run of the atomic ledger. */
  lemma OneConsumerIsAtomic(s: State, run: seq<Action>)
    requires Runs(s, run) && Quiescent(s)
    requires forall a :: a in run ==> Faultless(a) && BySingleConsumer(a)
    ensures Explains(Abs(s), History(s, run), Abs(Exec(s, run)))
  {
    OneConsumerIsCovered(s, run);
    AtomicIffCovered(s, run);
  }

  /** What a caller is told by this step. */
  function Reply(s: State, a: Action): seq<Event>
    requires Enabled(s, a)
  {
    match a
    case Return(i) => [Settled(s.slots[i].op, s.slots[i].stage.ok)]
    case Query(u, v) => [Answered(u, v)]
    case _ => []
  }

  function Replies(s: State, run: seq<Action>): seq<Event>
    requires Runs(s, run)
    decreases |run|
  {
    if run == [] then [] else Reply(s, run[0]) + Replies(Step(s, run[0]), run[1..])
  }

  /** Settled already, but the caller has not returned yet. */
  function Unreturned(e: Event): Slot -> int
  {
    (x: Slot) =>
      if x.Call? && x.stage.Logging? && e == Settled(x.op, true) then 1
      else if x.Call? && x.stage.Done? && e == Settled(x.op, x.stage.ok) then 1
      else 0
  }

  function Is(e: Event): Event -> int
  {
    (x: Event) => if x == e then 1 else 0
  }

  lemma StepReply(s: State, a: Action, e: Event)
    requires Enabled(s, a) && Faultless(a)
    ensures SumOf(Reply(s, a), Is(e)) + SumOf(Step(s, a).slots, Unreturned(e))
         == SumOf(Visible(s, a), Is(e)) + SumOf(s.slots, Unreturned(e))
  {
    if !a.Query? {
      SumUpdate(s.slots, a.i, Step(s, a).slots[a.i], Unreturned(e));
    }
  }

  /** Every reply is exactly one event of the history: what callers are told is what the atomic
      ledger answered, each answer once. */
  lemma {:induction false} RepliesAreHistory(s: State, run: seq<Action>, e: Event)
    requires Runs(s, run)
    requires forall a :: a in run ==> Faultless(a)
    ensures SumOf(Replies(s, run), Is(e)) + SumOf(Exec(s, run).slots, Unreturned(e))
         == SumOf(History(s, run), Is(e)) + SumOf(s.slots, Unreturned(e))
    decreases |run|
  {
    if run != [] {
      var a, t := run[0], Step(s, run[0]);
      assert a in run;
      StepReply(s, a, e);
      RepliesAreHistory(t, run[1..], e);
      SumConcat(Reply(s, a), Replies(t, run[1..]), Is(e));
      SumConcat(Visible(s, a), History(t, run[1..]), Is(e));
    }
  }

  /** The atomic ledger itself never overdraws, so the overdrawn runs of several consumers have no
      atomic explanation. */
  lemma {:induction false} AtomicNeverOverdraws(a: Atomic, history: seq<Event>, b: Atomic, u: User)
    requires Explains(a, history, b)
    requires forall v :: BalanceIn(a.balance, v) >= 0
    requires forall e :: e in history && e.Settled? && e.op.Deposit? ==> 0 <= e.op.amount
    ensures BalanceIn(b.balance, u) >= 0
    decreases |history|
  {
    if history != [] {
      assert history[0] in history;
      var next := if history[0].Settled? then Apply(a, history[0].op) else a;
      forall v ensures BalanceIn(next.balance, v) >= 0 {
        assert BalanceIn(a.balance, v) >= 0;
      }
      AtomicNeverOverdraws(next, history[1..], b, u);
    }
  }
}
