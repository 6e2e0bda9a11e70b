/** The single consumer that is deployed never charges a message that was acknowledged before, so for it
    no charge is refused, without exception. */
module OneConsumer {
  import opened Delivery
  import opened Custody
  import opened DeliverySafety
  import opened Drain
  import L = Ledger
  import Sys = System
  import Adm = Admission

  /** There is one consumer, and what it buffers or is charging is not acknowledged. */
  ghost predicate Fresh(s: State)
  {
    && |s.consumers| == 1
    && (forall m :: m in s.consumers[0].buffer && m < |s.msgs| ==> !s.msgs[m].state.Acked?)
    && (forall m: nat :: Charging(s, 0, m) && m < |s.msgs| ==> !s.msgs[m].state.Acked?)
  }

  lemma StoreKeepsFresh(s: State, a: Action)
    requires Inv(s) && Fresh(s) && Enabled(s, a) && a.Store?
    ensures Fresh(Step(s, a))
  {
    var t := Step(s, a);
    forall m: nat | Charging(t, 0, m) && m < |t.msgs| ensures !t.msgs[m].state.Acked? {
      assert Charging(s, 0, m);
    }
  }

  lemma StepKeepsFresh(s: State, a: Action)
    requires Inv(s) && Fresh(s) && Enabled(s, a)
    ensures Fresh(Step(s, a))
  {
    Touched(s, a);
    if a.Store? {
      StoreKeepsFresh(s, a);
    } else if a.Settle? {
      assert Charging(s, 0, s.led.slots[0].op.msg);
    }
  }

  // What such a consumer is about to check has not been deducted.
  lemma FreshIsCollectable(s: State, i: nat)
    requires CleanInv(s) && Fresh(s) && L.At(s.led, i, L.Reading) && s.led.slots[i].op.Usage?
    ensures Collectable(s, i)
  {
    assert SlotOk(s, i);
    var m := s.led.slots[i].op.msg;
    assert Charging(s, 0, m) && PaidOnce(s, m) && MsgOk(s, m);
  }

  lemma {:induction false} RunKeepsFresh(s: State, run: seq<Action>)
    requires Inv(s) && Fresh(s) && Runs(s, run)
    ensures Fresh(Exec(s, run))
    decreases |run|
  {
    if run != [] {
      StepKeepsFresh(s, run[0]);
      StepKeepsInv(s, run[0]);
      RunKeepsFresh(Step(s, run[0]), run[1..]);
    }
  }

  /** One consumer, and a balance that covers all that u's queued events cost: in every state of a
      clean run every charge for u passes its check. */
  lemma CoveredQueueIsNeverRefused(s: State, run: seq<Action>, u: L.User, i: nat)
    requires CleanInv(s) && NoDeposits(s) && Fresh(s) && Runs(s, run) && CleanRun(s, run) && ClosedRun(run)
    requires forall m :: 0 <= m < |s.msgs| ==> 0 <= CostOf(s.tariff, s.msgs[m])
    requires TotalOwed(s, u) <= L.Bal(s.led, u)
    requires L.At(Exec(s, run).led, i, L.Reading)
    requires Exec(s, run).led.slots[i].op.Usage? && Exec(s, run).led.slots[i].op.user == u
    ensures L.Passes(Exec(s, run).led, i, true)
  {
    RunKeepsFresh(s, run);
    RunKeepsClean(s, run);
    FreshIsCollectable(Exec(s, run), i);
    CoveredQueueDrains(s, run, u);
  }

  /** One consumer, and at most w requests outstanding for u, each costing at most c, with c*w <= 10:
      in every state of a fair run every charge for u passes its check. */
  lemma AdmittedIsNeverRefused(s: Sys.State, run: seq<Sys.Action>, u: L.User, c: nat, w: nat, i: nat)
    requires Sys.Initial(s) && |s.d.consumers| == 1 && 0 <= L.Bal(s.d.led, u)
    requires Sys.Runs(s, run) && Adm.FairRun(s, run, u, c, w) && c * w <= 10
    requires L.At(Sys.Exec(s, run).d.led, i, L.Reading)
    requires Sys.Exec(s, run).d.led.slots[i].op.Usage? && Sys.Exec(s, run).d.led.slots[i].op.user == u
    ensures L.Passes(Sys.Exec(s, run).d.led, i, true)
  {
    Sys.RunIsQueueRun(s, run);
    RunKeepsFresh(s.d, Sys.QueueRun(s, run));
    Adm.FairRunIsClean(s, run, u, c, w);
    FreshIsCollectable(Sys.Exec(s, run).d, i);
    Adm.AdmittedIsNeverRefused(s, run, u, c, w, i);
  }
}
