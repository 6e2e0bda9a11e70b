/** How often a message can be charged: over every run, and over runs without faults. */
module DeliverySafety {
  import opened Sums
  import opened Delivery
  import opened Custody
  import L = Ledger

  function Debits(s: State, m: nat): nat
  {
    if m < |s.msgs| then s.msgs[m].debits else 0
  }

  function Rows(s: State, m: nat): nat
  {
    if m < |s.msgs| then s.msgs[m].rows else 0
  }

  function Deliveries(s: State, m: nat): nat
  {
    if m < |s.msgs| then s.msgs[m].deliveries else 0
  }

  /** A charge for m that can still deduct. */
  function MayDebit(m: nat): L.Slot -> int
  {
    (x: L.Slot) =>
      if x.Call? && x.op.Usage? && x.op.msg == m && (x.stage.Reading? || x.stage.Updating?) then 1 else 0
  }

  /** A charge for m that has deducted and can still write its row. */
  function MayLog(m: nat): L.Slot -> int
  {
    (x: L.Slot) => if x.Call? && x.op.Usage? && x.op.msg == m && x.stage.Logging? then 1 else 0
  }

  function Holds(m: nat): Consumer -> int
  {
    (c: Consumer) => if m in c.buffer then 1 else 0
  }

  /** Deliveries pay for everything that has been or can still be deducted, ... */
  predicate DebitBudget(s: State, m: nat)
  {
    Debits(s, m) + SumOf(s.led.slots, MayDebit(m)) + SumOf(s.consumers, Holds(m)) <= Deliveries(s, m)
  }

  /** ... and deductions for everything that has been or can still be recorded. */
  predicate RowBudget(s: State, m: nat)
  {
    Rows(s, m) + SumOf(s.led.slots, MayLog(m)) <= Debits(s, m)
  }

  predicate Budget(s: State, m: nat)
  {
    DebitBudget(s, m) && RowBudget(s, m)
  }

  // The slot that a step may change, or none.
  function Moved(s: State, a: Action): nat
  {
    match a
    case Store(b) => if b.Query? then |s.led.slots| else b.i
    case Take(i, _) => i
    case Settle(i) => i
    case Crash(i) => i
    case _ => |s.led.slots|
  }

  lemma SlotSum(s: State, a: Action, f: L.Slot -> int)
    requires Enabled(s, a)
    ensures
      var t := Step(s, a);
      var i := Moved(s, a);
      if i < |s.led.slots|
      then SumOf(t.led.slots, f) == SumOf(s.led.slots, f) - f(s.led.slots[i]) + f(t.led.slots[i])
      else t.led.slots == s.led.slots
  {
    var t := Step(s, a);
    var i := Moved(s, a);
    if i < |s.led.slots| {
      SumUpdate(s.led.slots, i, t.led.slots[i], f);
      assert t.led.slots == s.led.slots[i := t.led.slots[i]];
    }
  }

  lemma StoreKeepsRowBudget(s: State, a: Action, m: nat)
    requires Inv(s) && Enabled(s, a) && a.Store? && RowBudget(s, m)
    ensures RowBudget(Step(s, a), m)
  {
    Touched(s, a);
    SlotSum(s, a, MayLog(m));
  }

  // Outside the store calls no counter moves.
  lemma CountersStay(s: State, a: Action, m: nat)
    requires Inv(s) && Enabled(s, a) && !a.Store?
    ensures Rows(Step(s, a), m) == Rows(s, m) && Debits(Step(s, a), m) == Debits(s, m)
  {
    Touched(s, a);
  }

  lemma StepKeepsRowBudget(s: State, a: Action, m: nat)
    requires Inv(s) && Enabled(s, a) && RowBudget(s, m)
    ensures RowBudget(Step(s, a), m)
  {
    if a.Store? {
      StoreKeepsRowBudget(s, a, m);
    } else {
      CountersStay(s, a, m);
      SlotSum(s, a, MayLog(m));
    }
  }

  lemma StoreKeepsDebitBudget(s: State, a: Action, m: nat)
    requires Inv(s) && Enabled(s, a) && a.Store? && DebitBudget(s, m)
    ensures DebitBudget(Step(s, a), m)
  {
    Touched(s, a);
    SlotSum(s, a, MayDebit(m));
  }

  lemma StepKeepsDebitBudget(s: State, a: Action, m: nat)
    requires Inv(s) && Enabled(s, a) && DebitBudget(s, m)
    ensures DebitBudget(Step(s, a), m)
  {
    var t := Step(s, a);
    if a.Store? {
      StoreKeepsDebitBudget(s, a, m);
    } else {
      Touched(s, a);
      SlotSum(s, a, MayDebit(m));
      if !a.Publish? && !a.Settle? {
        SumUpdate(s.consumers, a.i, t.consumers[a.i], Holds(m));
      }
    }
  }

  function RowsFor(m: nat): L.Row -> int
  {
    (row: L.Row) => if row.op.Usage? && row.op.msg == m then 1 else 0
  }

  function DebitsFor(m: nat): L.Op -> int
  {
    (op: L.Op) => if op.Usage? && op.msg == m then 1 else 0
  }

  /** The counters of a message tell what the tables say. */
  predicate Faithful(s: State, m: nat)
  {
    && Debits(s, m) == SumOf(s.led.applied, DebitsFor(m))
    && Rows(s, m) == SumOf(s.led.log, RowsFor(m))
  }

  lemma StoreKeepsFaithful(s: State, a: Action, m: nat)
    requires Inv(s) && Enabled(s, a) && a.Store? && Faithful(s, m)
    ensures Faithful(Step(s, a), m)
  {
    Touched(s, a);
    if a.a.Update? || a.a.Insert? {
      var op := s.led.slots[a.a.i].op;
      if a.a.Update? {
        SumAppend(s.led.applied, op, DebitsFor(m));
      } else {
        SumAppend(s.led.log, L.Row(op, a.a.at), RowsFor(m));
      }
    }
  }

  lemma StepKeepsFaithful(s: State, a: Action, m: nat)
    requires Inv(s) && Enabled(s, a) && Faithful(s, m)
    ensures Faithful(Step(s, a), m)
  {
    if a.Store? {
      StoreKeepsFaithful(s, a, m);
    } else {
      CountersStay(s, a, m);
    }
  }

  lemma {:induction false} RunKeepsCounts(s: State, run: seq<Action>, m: nat)
    requires Inv(s) && Runs(s, run) && Budget(s, m) && Faithful(s, m)
    ensures Budget(Exec(s, run), m) && Faithful(Exec(s, run), m)
    decreases |run|
  {
    if run != [] {
      StepKeepsInv(s, run[0]);
      StepKeepsDebitBudget(s, run[0], m);
      StepKeepsRowBudget(s, run[0], m);
      StepKeepsFaithful(s, run[0], m);
      RunKeepsCounts(Step(s, run[0]), run[1..], m);
    }
  }

  /** What survives every run of publishing, delivery, charging, crashes, lost acknowledgements,
      reconnects and requeues, for any number of consumers. */
  lemma DeliveryIsSafe(s: State, run: seq<Action>, m: nat)
    requires Initial(s) && Runs(s, run) && m < |Exec(s, run).msgs|
    ensures
      var t := Exec(s, run);
      var msg := t.msgs[m];
      && (msg.state.Acked? ==> 1 <= SumOf(t.led.log, RowsFor(m)))
      && (msg.state.Dropped? ==> msg.event.None?)
      && (msg.state.Unacked? ==>
            var i := msg.state.holder;
            i < |t.consumers| && t.consumers[i].open && (m in t.consumers[i].buffer || Charging(t, i, m)))
      && SumOf(t.led.log, RowsFor(m)) <= SumOf(t.led.applied, DebitsFor(m)) <= msg.deliveries
  {
    var t := Exec(s, run);
    SumZero(s.led.slots, MayDebit(m));
    SumZero(s.led.slots, MayLog(m));
    SumZero(s.consumers, Holds(m));
    RunKeepsInv(s, run);
    RunKeepsCounts(s, run, m);
    assert MsgOk(t, m);
    SumNonNegative(t.led.slots, MayDebit(m));
    SumNonNegative(t.led.slots, MayLog(m));
    SumNonNegative(t.consumers, Holds(m));
  }

  /** A published message is never lost or altered, and what is acknowledged or dropped stays so. */
  predicate Continues(x: Msg, y: Msg)
  {
    && y.event == x.event && y.src == x.src
    && x.deliveries <= y.deliveries && x.debits <= y.debits && x.rows <= y.rows
    && (x.state.Acked? || x.state.Dropped? ==> y.state == x.state)
  }

  lemma {:induction false} MessagesArePermanent(s: State, run: seq<Action>, m: nat)
    requires Inv(s) && Runs(s, run) && m < |s.msgs|
    ensures m < |Exec(s, run).msgs| && Continues(s.msgs[m], Exec(s, run).msgs[m])
    decreases |run|
  {
    if run != [] {
      StepKeepsInv(s, run[0]);
      StepContinues(s, run[0], m);
      MessagesArePermanent(Step(s, run[0]), run[1..], m);
    }
  }

  lemma StepContinues(s: State, a: Action, m: nat)
    requires Inv(s) && Enabled(s, a) && m < |s.msgs|
    ensures m < |Step(s, a).msgs| && Continues(s.msgs[m], Step(s, a).msgs[m])
  {
    Touched(s, a);
    if a.Settle? {
      assert Charging(s, a.i, s.led.slots[a.i].op.msg);
    }
  }

  /** Consumer i has made a deduction that is not acknowledged yet. */
  predicate Deducted(s: State, i: nat)
  {
    i < |s.led.slots| && s.led.slots[i].Call? && s.led.slots[i].op.Usage?
    && (s.led.slots[i].stage.Logging? || s.led.slots[i].stage == L.Done(true))
  }

  /** Nothing happens to a deduction that keeps its acknowledgement from being sent and arriving: it
      is reported, made over a connection that is still open, and recorded; and neither the
      connection nor the process goes before it is acknowledged.  Messages that are merely buffered,
      or read and not deducted yet, may lose their connection at any time. */
  predicate Clean(s: State, a: Action)
  {
    match a
    case Store(b) =>
      b.Query? || b.i >= |s.consumers|
      || (&& (b.Update? ==> b.out.Refused? || (b.out.Fine? && s.consumers[b.i].open))
          && (b.Insert? ==> b.out.Fine?))
    case Close(i) => !Deducted(s, i)
    case Crash(i) => !Deducted(s, i)
    case _ => true
  }

  predicate CleanRun(s: State, run: seq<Action>)
    requires Runs(s, run)
    decreases |run|
  {
    run == [] || (Clean(s, run[0]) && CleanRun(Step(s, run[0]), run[1..]))
  }

  /** The deductions and rows a message must have, told from where it stands. */
  function Due(s: State, m: nat): (nat, nat)
    requires m < |s.msgs|
  {
    match s.msgs[m].state
    case Acked => (1, 1)
    case Unacked(i) =>
      if Charging(s, i, m) then
        var stage := s.led.slots[i].stage;
        (if stage.Logging? || stage == L.Done(true) then 1 else 0, if stage == L.Done(true) then 1 else 0)
      else (0, 0)
    case _ => (0, 0)
  }

  predicate PaidOnce(s: State, m: nat)
    requires m < |s.msgs|
  {
    (s.msgs[m].debits, s.msgs[m].rows) == Due(s, m)
  }

  /** What has been deducted can still be acknowledged. */
  predicate Tidy(s: State, i: nat)
    requires i < |s.consumers|
  {
    Deducted(s, i) ==> s.consumers[i].open
  }

  ghost predicate CleanInv(s: State)
  {
    && Inv(s)
    && (forall i :: 0 <= i < |s.consumers| ==> Tidy(s, i))
    && (forall m :: 0 <= m < |s.msgs| ==> PaidOnce(s, m))
  }

  /** Consumer i is charging a message that nobody has deducted, or that it can still answer. */
  predicate Collectable(s: State, i: nat)
  {
    && i < |s.consumers| && i < |s.led.slots| && s.led.slots[i].Call? && s.led.slots[i].op.Usage?
    && (s.consumers[i].open || Debits(s, s.led.slots[i].op.msg) == 0)
  }

  // Before its deduction, such a message has not been deducted.
  lemma CollectableIsUnpaid(s: State, i: nat)
    requires CleanInv(s) && Collectable(s, i) && !Deducted(s, i)
    ensures Charging(s, i, s.led.slots[i].op.msg) && Debits(s, s.led.slots[i].op.msg) == 0
  {
    var m := s.led.slots[i].op.msg;
    assert SlotOk(s, i) && HoldsOk(s, i) && Charging(s, i, m);
    assert PaidOnce(s, m);
  }

  lemma StepKeepsClean(s: State, a: Action)
    requires CleanInv(s) && Enabled(s, a) && Clean(s, a)
    ensures CleanInv(Step(s, a))
  {
    var t := Step(s, a);
    StepKeepsInv(s, a);
    Touched(s, a);
    forall i | 0 <= i < |t.consumers| ensures Tidy(t, i) {
      assert Tidy(s, i);
    }
    forall m | 0 <= m < |t.msgs| ensures PaidOnce(t, m) {
      StepPaidOnce(s, a, m);
    }
  }

  lemma StorePaysOnce(s: State, a: Action, m: nat)
    requires CleanInv(s) && Enabled(s, a) && Clean(s, a) && a.Store? && m < |s.msgs|
    ensures PaidOnce(Step(s, a), m)
  {
    Touched(s, a);
    assert PaidOnce(s, m) && MsgOk(s, m);
    if !a.a.Query? && a.a.i < |s.consumers| && s.led.slots[a.a.i].Call? {
      assert Tidy(s, a.a.i) && HoldsOk(s, a.a.i);
      assert Charging(s, a.a.i, s.led.slots[a.a.i].op.msg);
    }
  }

  lemma StepPaidOnce(s: State, a: Action, m: nat)
    requires CleanInv(s) && Enabled(s, a) && Clean(s, a) && m < |Step(s, a).msgs|
    ensures PaidOnce(Step(s, a), m)
  {
    if a.Store? {
      StorePaysOnce(s, a, m);
    } else {
      Touched(s, a);
      if m < |s.msgs| {
        assert PaidOnce(s, m) && MsgOk(s, m);
      }
      if a.Settle? {
        assert Tidy(s, a.i) && Charging(s, a.i, s.led.slots[a.i].op.msg);
      }
      if a.Take? {
        assert Tidy(s, a.i);
      }
    }
  }

  lemma {:induction false} RunKeepsClean(s: State, run: seq<Action>)
    requires CleanInv(s) && Runs(s, run) && CleanRun(s, run)
    ensures CleanInv(Exec(s, run))
    decreases |run|
  {
    if run != [] {
      StepKeepsClean(s, run[0]);
      RunKeepsClean(Step(s, run[0]), run[1..]);
    }
  }
}
