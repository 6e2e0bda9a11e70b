/** Who holds a message, and what an acknowledged message has left behind: true in every run,
    whatever goes wrong. */
module Custody {
  import opened Delivery
  import L = Ledger

  predicate SlotOk(s: State, i: nat)
    requires i < |s.led.slots|
  {
    var x := s.led.slots[i];
    x.Call? ==>
      if i < |s.consumers|
      then x.op.Usage? && x.op.msg < |s.msgs| && s.msgs[x.op.msg].event.Some? && x.op == OpOf(s, x.op.msg)
      else x.op.Deposit?
  }

  /** What consumer i received over a connection that is still open is unacknowledged by it. */
  ghost predicate HoldsOk(s: State, i: nat)
    requires i < |s.consumers|
  {
    && (forall m :: m in s.consumers[i].buffer ==> m < |s.msgs|)
    && (s.consumers[i].open ==>
          && (forall m :: m in s.consumers[i].buffer ==> s.msgs[m].state == Unacked(i))
          && (forall m: nat :: Charging(s, i, m) ==>
                m < |s.msgs| && s.msgs[m].state == Unacked(i) && m !in s.consumers[i].buffer))
  }

  /** An unacknowledged message is in the hands of the consumer the broker has on record. */
  predicate MsgOk(s: State, m: nat)
    requires m < |s.msgs|
  {
    && (s.msgs[m].state.Unacked? ==>
          var i := s.msgs[m].state.holder;
          i < |s.consumers| && s.consumers[i].open && (m in s.consumers[i].buffer || Charging(s, i, m)))
    && (s.msgs[m].state.Acked? ==> s.msgs[m].event.Some? && 1 <= s.msgs[m].rows)
    && (s.msgs[m].state.Dropped? ==> s.msgs[m].event.None?)
  }

  /** A charge that succeeded has left a row. */
  predicate RowOk(s: State, i: nat)
    requires i < |s.led.slots|
  {
    var x := s.led.slots[i];
    x.Call? && x.op.Usage? && x.stage == L.Done(true) && x.op.msg < |s.msgs| ==> 1 <= s.msgs[x.op.msg].rows
  }

  ghost predicate Inv(s: State)
  {
    && |s.consumers| <= |s.led.slots|
    && (forall i :: 0 <= i < |s.led.slots| ==> SlotOk(s, i))
    && (forall i :: 0 <= i < |s.led.slots| ==> RowOk(s, i))
    && (forall i :: 0 <= i < |s.consumers| ==> HoldsOk(s, i))
    && (forall m :: 0 <= m < |s.msgs| ==> MsgOk(s, m))
  }

  // The facts about the parts of s that action a touches.
  lemma Touched(s: State, a: Action)
    requires Inv(s) && Enabled(s, a)
    ensures a.Deliver? ==> MsgOk(s, a.m) && HoldsOk(s, a.i) && SlotOk(s, a.i)
    ensures a.Take? ==> MsgOk(s, a.m) && HoldsOk(s, a.i) && SlotOk(s, a.i)
    ensures a.Settle? ==> SlotOk(s, a.i) && RowOk(s, a.i) && HoldsOk(s, a.i) && s.led.slots[a.i].op.Usage?
    ensures a.Store? && !a.a.Query? ==> SlotOk(s, a.a.i)
  {
  }

  lemma StoreSlot(s: State, a: Action, i: nat)
    requires Inv(s) && Enabled(s, a) && a.Store? && i < |Step(s, a).led.slots|
    ensures SlotOk(Step(s, a), i)
  {
    assert SlotOk(s, i);
  }

  lemma OtherSlot(s: State, a: Action, i: nat)
    requires Inv(s) && Enabled(s, a) && !a.Store? && i < |Step(s, a).led.slots|
    ensures SlotOk(Step(s, a), i)
  {
    Touched(s, a);
    assert SlotOk(s, i);
  }

  lemma StepSlots(s: State, a: Action)
    requires Inv(s) && Enabled(s, a)
    ensures |Step(s, a).consumers| <= |Step(s, a).led.slots|
    ensures forall i :: 0 <= i < |Step(s, a).led.slots| ==> SlotOk(Step(s, a), i)
  {
    var t := Step(s, a);
    forall i | 0 <= i < |t.led.slots| ensures SlotOk(t, i) {
      if a.Store? {
        StoreSlot(s, a, i);
      } else {
        OtherSlot(s, a, i);
      }
    }
  }

  lemma StepRows(s: State, a: Action)
    requires Inv(s) && Enabled(s, a)
    ensures forall i :: 0 <= i < |Step(s, a).led.slots| ==> RowOk(Step(s, a), i)
  {
    var t := Step(s, a);
    Touched(s, a);
    forall i | 0 <= i < |t.led.slots| ensures RowOk(t, i) {
      assert RowOk(s, i) && SlotOk(s, i);
    }
  }

  lemma StoreHolds(s: State, a: Action, i: nat)
    requires Inv(s) && Enabled(s, a) && a.Store? && i < |Step(s, a).consumers|
    ensures HoldsOk(Step(s, a), i)
  {
    assert HoldsOk(s, i) && SlotOk(s, i);
  }

  lemma AnswerHolds(s: State, a: Action, i: nat)
    requires Inv(s) && Enabled(s, a) && (a.Take? || a.Settle?) && i < |Step(s, a).consumers|
    ensures HoldsOk(Step(s, a), i)
  {
    Touched(s, a);
    assert HoldsOk(s, i) && SlotOk(s, i);
  }

  lemma OtherHolds(s: State, a: Action, i: nat)
    requires Inv(s) && Enabled(s, a) && !a.Store? && !a.Take? && !a.Settle? && i < |Step(s, a).consumers|
    ensures HoldsOk(Step(s, a), i)
  {
    Touched(s, a);
    assert HoldsOk(s, i) && SlotOk(s, i);
  }

  lemma StepHolds(s: State, a: Action)
    requires Inv(s) && Enabled(s, a)
    ensures forall i :: 0 <= i < |Step(s, a).consumers| ==> HoldsOk(Step(s, a), i)
  {
    var t := Step(s, a);
    forall i | 0 <= i < |t.consumers| ensures HoldsOk(t, i) {
      if a.Store? {
        StoreHolds(s, a, i);
      } else if a.Take? || a.Settle? {
        AnswerHolds(s, a, i);
      } else {
        OtherHolds(s, a, i);
      }
    }
  }

  lemma StoreMsg(s: State, a: Action, m: nat)
    requires Inv(s) && Enabled(s, a) && a.Store? && m < |Step(s, a).msgs|
    ensures MsgOk(Step(s, a), m)
  {
    assert MsgOk(s, m);
  }

  lemma OtherMsg(s: State, a: Action, m: nat)
    requires Inv(s) && Enabled(s, a) && !a.Store? && m < |Step(s, a).msgs|
    ensures MsgOk(Step(s, a), m)
  {
    Touched(s, a);
    assert m < |s.msgs| ==> MsgOk(s, m);
  }

  lemma StepMsgs(s: State, a: Action)
    requires Inv(s) && Enabled(s, a)
    ensures forall m :: 0 <= m < |Step(s, a).msgs| ==> MsgOk(Step(s, a), m)
  {
    var t := Step(s, a);
    forall m | 0 <= m < |t.msgs| ensures MsgOk(t, m) {
      if a.Store? {
        StoreMsg(s, a, m);
      } else {
        OtherMsg(s, a, m);
      }
    }
  }

  lemma StepKeepsInv(s: State, a: Action)
    requires Inv(s) && Enabled(s, a)
    ensures Inv(Step(s, a))
  {
    StepSlots(s, a);
    StepRows(s, a);
    StepHolds(s, a);
    StepMsgs(s, a);
  }

  lemma {:induction false} RunKeepsInv(s: State, run: seq<Action>)
    requires Inv(s) && Runs(s, run)
    ensures Inv(Exec(s, run))
    decreases |run|
  {
    if run != [] {
      StepKeepsInv(s, run[0]);
      RunKeepsInv(Step(s, run[0]), run[1..]);
    }
  }
}
