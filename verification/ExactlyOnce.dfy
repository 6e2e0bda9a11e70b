/** Exactly when is a message charged exactly once?  Every deduction is accounted for: it belongs to
    the acknowledgement, or is in the hands of a consumer that will still acknowledge it, or was
    wasted by one particular step. */
module ExactlyOnce {
  import opened Sums
  import opened Delivery
  import opened Custody
  import opened DeliverySafety
  import L = Ledger

  /** Deducted for m, and neither acknowledged nor given up. */
  function InHand(m: nat): L.Slot -> int
  {
    (x: L.Slot) =>
      if x.Call? && x.op.Usage? && x.op.msg == m && (x.stage.Logging? || x.stage == L.Done(true)) then 1 else 0
  }

  /** The same, with the row written. */
  function Recorded(m: nat): L.Slot -> int
  {
    (x: L.Slot) => if x.Call? && x.op.Usage? && x.op.msg == m && x.stage == L.Done(true) then 1 else 0
  }

  function Acknowledged(s: State, m: nat): nat
  {
    if m < |s.msgs| && s.msgs[m].state.Acked? then 1 else 0
  }

  /** The steps after which a deduction for m will never be acknowledged: its update takes effect and
      reports an error, its insert reports an error, its consumer dies, or its acknowledgement is
      sent when the connection is gone. */
  function Waste(s: State, a: Action, m: nat): nat
    requires Enabled(s, a)
  {
    match a
    case Store(b) =>
      if (b.Update? && b.out.Lost? && Charging(s, b.i, m)) || (b.Insert? && !b.out.Fine? && Charging(s, b.i, m)) then 1
      else 0
    case Crash(i) => InHand(m)(s.led.slots[i])
    case Settle(i) => if s.consumers[i].open then 0 else InHand(m)(s.led.slots[i])
    case _ => 0
  }

  /** The same for rows: an insert that is refused leaves none to waste. */
  function RowWaste(s: State, a: Action, m: nat): nat
    requires Enabled(s, a)
  {
    match a
    case Store(b) => if b.Insert? && b.out.Lost? && Charging(s, b.i, m) then 1 else 0
    case Crash(i) => Recorded(m)(s.led.slots[i])
    case Settle(i) => if s.consumers[i].open then 0 else Recorded(m)(s.led.slots[i])
    case _ => 0
  }

  function Wasted(s: State, run: seq<Action>, m: nat): nat
    requires Runs(s, run)
    decreases |run|
  {
    if run == [] then 0 else Waste(s, run[0], m) + Wasted(Step(s, run[0]), run[1..], m)
  }

  function RowsWasted(s: State, run: seq<Action>, m: nat): nat
    requires Runs(s, run)
    decreases |run|
  {
    if run == [] then 0 else RowWaste(s, run[0], m) + RowsWasted(Step(s, run[0]), run[1..], m)
  }

  /** Deductions for m that no acknowledgement, present or future, accounts for. */
  function Excess(s: State, m: nat): int
  {
    Debits(s, m) - Acknowledged(s, m) - SumOf(s.led.slots, InHand(m))
  }

  function RowExcess(s: State, m: nat): int
  {
    Rows(s, m) - Acknowledged(s, m) - SumOf(s.led.slots, Recorded(m))
  }

  lemma StoreWastes(s: State, a: Action, m: nat)
    requires Inv(s) && Enabled(s, a) && a.Store?
    ensures Excess(Step(s, a), m) == Excess(s, m) + Waste(s, a, m)
  {
    Touched(s, a);
    SlotSum(s, a, InHand(m));
  }

  lemma SettleWastes(s: State, a: Action, m: nat)
    requires Inv(s) && Enabled(s, a) && a.Settle?
    ensures Excess(Step(s, a), m) == Excess(s, m) + Waste(s, a, m)
  {
    Touched(s, a);
    SlotSum(s, a, InHand(m));
    assert Charging(s, a.i, s.led.slots[a.i].op.msg);
  }

  lemma StepWastes(s: State, a: Action, m: nat)
    requires Inv(s) && Enabled(s, a)
    ensures Excess(Step(s, a), m) == Excess(s, m) + Waste(s, a, m)
  {
    if a.Store? {
      StoreWastes(s, a, m);
    } else if a.Settle? {
      SettleWastes(s, a, m);
    } else {
      Touched(s, a);
      SlotSum(s, a, InHand(m));
    }
  }

  lemma StoreWastesRows(s: State, a: Action, m: nat)
    requires Inv(s) && Enabled(s, a) && a.Store?
    ensures RowExcess(Step(s, a), m) == RowExcess(s, m) + RowWaste(s, a, m)
  {
    Touched(s, a);
    SlotSum(s, a, Recorded(m));
  }

  lemma SettleWastesRows(s: State, a: Action, m: nat)
    requires Inv(s) && Enabled(s, a) && a.Settle?
    ensures RowExcess(Step(s, a), m) == RowExcess(s, m) + RowWaste(s, a, m)
  {
    Touched(s, a);
    SlotSum(s, a, Recorded(m));
    assert Charging(s, a.i, s.led.slots[a.i].op.msg);
  }

  lemma StepWastesRows(s: State, a: Action, m: nat)
    requires Inv(s) && Enabled(s, a)
    ensures RowExcess(Step(s, a), m) == RowExcess(s, m) + RowWaste(s, a, m)
  {
    if a.Store? {
      StoreWastesRows(s, a, m);
    } else if a.Settle? {
      SettleWastesRows(s, a, m);
    } else {
      Touched(s, a);
      SlotSum(s, a, Recorded(m));
    }
  }

  /** Over every run, whatever fails, the excess grows by exactly what was wasted. */
  lemma {:induction false} RunWastes(s: State, run: seq<Action>, m: nat)
    requires Inv(s) && Runs(s, run)
    ensures Excess(Exec(s, run), m) == Excess(s, m) + Wasted(s, run, m)
    ensures RowExcess(Exec(s, run), m) == RowExcess(s, m) + RowsWasted(s, run, m)
    decreases |run|
  {
    if run != [] {
      StepKeepsInv(s, run[0]);
      StepWastes(s, run[0], m);
      StepWastesRows(s, run[0], m);
      RunWastes(Step(s, run[0]), run[1..], m);
    }
  }

  function DebitsOf(s: State, m: nat): int
  {
    SumOf(s.led.applied, DebitsFor(m))
  }

  function RowsOf(s: State, m: nat): int
  {
    SumOf(s.led.log, RowsFor(m))
  }

  /** In every run the deductions in the balance history and the rows in the transactions table are,
      message by message, one for the acknowledgement, those in hand, and those wasted. */
  lemma ChargesAreExplained(s: State, run: seq<Action>, m: nat)
    requires Initial(s) && Runs(s, run)
    ensures
      var t := Exec(s, run);
      && DebitsOf(t, m) == Acknowledged(t, m) + SumOf(t.led.slots, InHand(m)) + Wasted(s, run, m)
      && RowsOf(t, m) == Acknowledged(t, m) + SumOf(t.led.slots, Recorded(m)) + RowsWasted(s, run, m)
  {
    SumZero(s.led.slots, InHand(m));
    SumZero(s.led.slots, Recorded(m));
    RunWastes(s, run, m);
    Counted(s, run, m);
  }

  lemma Counted(s: State, run: seq<Action>, m: nat)
    requires Initial(s) && Runs(s, run)
    ensures Faithful(Exec(s, run), m) && Inv(Exec(s, run))
  {
    SumZero(s.led.slots, MayDebit(m));
    SumZero(s.led.slots, MayLog(m));
    SumZero(s.consumers, Holds(m));
    RunKeepsInv(s, run);
    RunKeepsCounts(s, run, m);
  }

  /** An acknowledged message that nobody is charging any more has been charged exactly once if and
      only if none of those steps has happened to it; and the same for its rows. */
  lemma ChargedOnceIffNothingWasted(s: State, run: seq<Action>, m: nat)
    requires Initial(s) && Runs(s, run)
    requires m < |Exec(s, run).msgs| && Exec(s, run).msgs[m].state.Acked?
    requires SumOf(Exec(s, run).led.slots, InHand(m)) == 0
    ensures DebitsOf(Exec(s, run), m) == 1 <==> Wasted(s, run, m) == 0
    ensures RowsOf(Exec(s, run), m) == 1 <==> RowsWasted(s, run, m) == 0
  {
    var t := Exec(s, run);
    ChargesAreExplained(s, run, m);
    SumNonNegative(t.led.slots, Recorded(m));
    forall i | 0 <= i < |t.led.slots|
      ensures Recorded(m)(t.led.slots[i]) + Nothing()(t.led.slots[i]) <= InHand(m)(t.led.slots[i])
    {
    }
    SumPair(t.led.slots, Recorded(m), Nothing(), InHand(m));
    SumZero(t.led.slots, Nothing());
  }

  function Nothing(): L.Slot -> int
  {
    (x: L.Slot) => 0
  }

  lemma {:induction false} CleanWastesNothing(s: State, run: seq<Action>, m: nat)
    requires CleanInv(s) && Runs(s, run) && CleanRun(s, run)
    ensures Wasted(s, run, m) == 0 && RowsWasted(s, run, m) == 0
    decreases |run|
  {
    if run != [] {
      CleanStepWastesNothing(s, run[0], m);
      StepKeepsClean(s, run[0]);
      CleanWastesNothing(Step(s, run[0]), run[1..], m);
    }
  }

  lemma CleanStepWastesNothing(s: State, a: Action, m: nat)
    requires CleanInv(s) && Enabled(s, a) && Clean(s, a)
    ensures Waste(s, a, m) == 0 && RowWaste(s, a, m) == 0
  {
    Touched(s, a);
    if a.Settle? {
      assert Tidy(s, a.i);
    }
    if a.Store? && !a.a.Query? {
      assert SlotOk(s, a.a.i);
    }
  }

  /** A deduction over a connection that is gone. */
  predicate Doomed(s: State, i: nat, m: nat)
  {
    i < |s.consumers| && !s.consumers[i].open && Charging(s, i, m) && Deducted(s, i)
  }

  lemma StaysDoomed(s: State, a: Action, i: nat, m: nat)
    requires Inv(s) && Enabled(s, a) && Doomed(s, i, m)
    ensures Doomed(Step(s, a), i, m) || 1 <= Waste(s, a, m)
  {
    Touched(s, a);
  }

  lemma {:induction false} DoomedIsWasted(s: State, run: seq<Action>, i: nat, m: nat)
    requires Inv(s) && Runs(s, run) && Doomed(s, i, m)
    requires SumOf(Exec(s, run).led.slots, InHand(m)) == 0
    ensures 1 <= Wasted(s, run, m)
    decreases |run|
  {
    if run == [] {
      forall j | 0 <= j < |s.led.slots| ensures InHand(m)(s.led.slots[j]) >= 0 {
      }
      SumDominates(s.led.slots, i, InHand(m));
    } else {
      StaysDoomed(s, run[0], i, m);
      if Waste(s, run[0], m) == 0 {
        StepKeepsInv(s, run[0]);
        DoomedIsWasted(Step(s, run[0]), run[1..], i, m);
      }
    }
  }

  // A step that is not clean wastes a deduction now or later.
  lemma UncleanStep(s: State, a: Action) returns (i: nat, m: nat)
    requires Inv(s) && Enabled(s, a) && !Clean(s, a)
    ensures m < |s.msgs| && (1 <= Waste(s, a, m) || Doomed(Step(s, a), i, m))
  {
    Touched(s, a);
    i := if a.Store? then a.a.i else a.i;
    assert SlotOk(s, i);
    m := s.led.slots[i].op.msg;
  }

  lemma {:induction false} UncleanIsWasted(s: State, run: seq<Action>) returns (m: nat)
    requires Inv(s) && Runs(s, run) && !CleanRun(s, run)
    requires forall k: nat :: SumOf(Exec(s, run).led.slots, InHand(k)) == 0
    ensures m < |Exec(s, run).msgs| && 1 <= Wasted(s, run, m)
    decreases |run|
  {
    var t := Step(s, run[0]);
    StepKeepsInv(s, run[0]);
    if Clean(s, run[0]) {
      m := UncleanIsWasted(t, run[1..]);
    } else {
      var i;
      i, m := UncleanStep(s, run[0]);
      MessagesArePermanent(s, run, m);
      if Waste(s, run[0], m) == 0 {
        DoomedIsWasted(t, run[1..], i, m);
      }
    }
  }

  /** In a run after which no consumer has a deduction in hand, every acknowledged message is charged
      exactly once and every other message not at all, if and only if the run is clean. */
  lemma ExactlyOnceIffClean(s: State, run: seq<Action>)
    requires Initial(s) && Runs(s, run)
    requires forall k: nat :: SumOf(Exec(s, run).led.slots, InHand(k)) == 0
    ensures CleanRun(s, run) <==>
      forall m :: 0 <= m < |Exec(s, run).msgs| ==> DebitsOf(Exec(s, run), m) == Acknowledged(Exec(s, run), m)
  {
    var t := Exec(s, run);
    forall m: nat ensures DebitsOf(t, m) == Acknowledged(t, m) + Wasted(s, run, m) {
      ChargesAreExplained(s, run, m);
      assert SumOf(t.led.slots, InHand(m)) == 0;
    }
    if CleanRun(s, run) {
      forall m | 0 <= m < |t.msgs| ensures DebitsOf(t, m) == Acknowledged(t, m) {
        CleanWastesNothing(s, run, m);
      }
    } else {
      var m := UncleanIsWasted(s, run);
      assert DebitsOf(t, m) != Acknowledged(t, m);
    }
  }

  lemma InHandAt(t: State, i: nat, m: nat)
    requires CleanInv(t) && i < |t.led.slots| && InHand(m)(t.led.slots[i]) != 0
    ensures m < |t.msgs| && t.msgs[m].state == Unacked(i)
  {
    assert SlotOk(t, i);
    assert Charging(t, i, m) && Deducted(t, i);
    assert Tidy(t, i) && HoldsOk(t, i);
  }

  // In a clean state a deduction in hand belongs to a message that is unacknowledged.
  lemma InHandIsUnacked(t: State, m: nat)
    requires CleanInv(t) && m < |t.msgs| && !t.msgs[m].state.Unacked?
    ensures SumOf(t.led.slots, InHand(m)) == 0 && SumOf(t.led.slots, Recorded(m)) == 0
  {
    forall i | 0 <= i < |t.led.slots| ensures InHand(m)(t.led.slots[i]) == 0 && Recorded(m)(t.led.slots[i]) == 0 {
      if InHand(m)(t.led.slots[i]) != 0 {
        InHandAt(t, i, m);
      }
    }
    SumZero(t.led.slots, InHand(m));
    SumZero(t.led.slots, Recorded(m));
  }

  /** In a clean run, requeues and lost connections included, at every moment: an acknowledged message
      has exactly one deduction and one row, one that is ready or dropped has neither, and no
      message has more. */
  lemma ChargedExactlyOnce(s: State, run: seq<Action>, m: nat)
    requires Initial(s) && Runs(s, run) && CleanRun(s, run) && m < |Exec(s, run).msgs|
    ensures
      var t := Exec(s, run);
      && (!t.msgs[m].state.Unacked? ==> DebitsOf(t, m) == RowsOf(t, m) == Acknowledged(t, m))
      && RowsOf(t, m) <= DebitsOf(t, m) <= 1
  {
    var t := Exec(s, run);
    RunKeepsClean(s, run);
    ChargesAreExplained(s, run, m);
    CleanWastesNothing(s, run, m);
    if !t.msgs[m].state.Unacked? {
      InHandIsUnacked(t, m);
    }
    Counted(s, run, m);
    assert PaidOnce(t, m);
  }
}
