/** What a queue does when nothing new comes in: the total is charged whatever the order, and a
    queue is stuck exactly when every event left costs more than its user has. */
module Drain {
  import opened Sums
  import opened Delivery
  import opened Custody
  import opened DeliverySafety
  import L = Ledger

  /** No new messages and no deposits. */
  predicate Closed(a: Action)
  {
    !a.Publish? && !(a.Store? && a.a.Begin?)
  }

  predicate ClosedRun(run: seq<Action>)
  {
    forall a :: a in run ==> Closed(a)
  }

  predicate NoDeposits(s: State)
  {
    forall i :: |s.consumers| <= i < |s.led.slots| ==> s.led.slots[i].Idle?
  }

  function CostOf(tariff: Tariff, x: Msg): int
  {
    if x.event.None? then 0
    else tariff(x.event.value.model, x.event.value.prompt + x.event.value.completion)
  }

  /** What a message will still cost user u. */
  function Owed(tariff: Tariff, u: L.User): Msg -> int
  {
    (x: Msg) => if x.event.Some? && x.event.value.user == u && x.debits == 0 then CostOf(tariff, x) else 0
  }

  function TotalOwed(s: State, u: L.User): int
  {
    SumOf(s.msgs, Owed(s.tariff, u))
  }

  // Only store calls deduct.
  lemma NothingDeducted(s: State, a: Action)
    requires Enabled(s, a) && !a.Store? && !a.Publish?
    ensures |Step(s, a).msgs| == |s.msgs| && Step(s, a).led.balance == s.led.balance
    ensures Step(s, a).tariff == s.tariff
    ensures forall m :: 0 <= m < |s.msgs| ==>
      Step(s, a).msgs[m].event == s.msgs[m].event && Step(s, a).msgs[m].debits == s.msgs[m].debits
  {
  }

  lemma NoDepositsBegin(s: State, a: Action)
    requires Inv(s) && NoDeposits(s) && Enabled(s, a) && Closed(a)
    ensures NoDeposits(Step(s, a))
  {
    Touched(s, a);
  }

  // A deduction and the debt it settles.
  lemma StoreConserves(s: State, b: L.Action, u: L.User)
    requires CleanInv(s) && NoDeposits(s) && Enabled(s, Store(b)) && Clean(s, Store(b)) && Closed(Store(b))
    ensures L.Bal(Step(s, Store(b)).led, u) - TotalOwed(Step(s, Store(b)), u) == L.Bal(s.led, u) - TotalOwed(s, u)
  {
    var t := Step(s, Store(b));
    if !b.Query? {
      Touched(s, Store(b));
      if Pays(s, b) {
        var m := s.led.slots[b.i].op.msg;
        assert Tidy(s, b.i) && HoldsOk(s, b.i) && Charging(s, b.i, m);
        assert PaidOnce(s, m);
        SumUpdate(s.msgs, m, t.msgs[m], Owed(s.tariff, u));
      }
    }
  }

  lemma StepConserves(s: State, a: Action, u: L.User)
    requires CleanInv(s) && NoDeposits(s) && Enabled(s, a) && Clean(s, a) && Closed(a)
    ensures L.Bal(Step(s, a).led, u) - TotalOwed(Step(s, a), u) == L.Bal(s.led, u) - TotalOwed(s, u)
  {
    if a.Store? {
      StoreConserves(s, a.a, u);
    } else {
      NothingDeducted(s, a);
      SumSame(Step(s, a).msgs, s.msgs, Owed(s.tariff, u), Owed(s.tariff, u));
    }
  }

  /** Under any delivery and requeue order the balance minus what is still owed never changes. */
  lemma {:induction false} RunConserves(s: State, run: seq<Action>, u: L.User)
    requires CleanInv(s) && NoDeposits(s) && Runs(s, run) && CleanRun(s, run) && ClosedRun(run)
    ensures CleanInv(Exec(s, run)) && NoDeposits(Exec(s, run))
    ensures L.Bal(Exec(s, run).led, u) - TotalOwed(Exec(s, run), u) == L.Bal(s.led, u) - TotalOwed(s, u)
    ensures Exec(s, run).tariff == s.tariff && |Exec(s, run).msgs| == |s.msgs|
    decreases |run|
  {
    if run != [] {
      assert run[0] in run;
      StepKeepsClean(s, run[0]);
      NoDepositsBegin(s, run[0]);
      StepConserves(s, run[0], u);
      RunConserves(Step(s, run[0]), run[1..], u);
    }
  }

  /** What has been deducted from u for a message, as often as it was. */
  function Collected(tariff: Tariff, u: L.User): Msg -> int
  {
    (x: Msg) => if x.event.Some? && x.event.value.user == u then CostOf(tariff, x) * x.debits else 0
  }

  function TotalCollected(s: State, u: L.User): int
  {
    SumOf(s.msgs, Collected(s.tariff, u))
  }

  lemma StoreCollects(s: State, b: L.Action, u: L.User)
    requires Inv(s) && NoDeposits(s) && Enabled(s, Store(b)) && Closed(Store(b))
    ensures
      var t := Step(s, Store(b));
      L.Bal(t.led, u) + TotalCollected(t, u) == L.Bal(s.led, u) + TotalCollected(s, u)
  {
    var t := Step(s, Store(b));
    if !b.Query? {
      Touched(s, Store(b));
      if Pays(s, b) {
        var m := s.led.slots[b.i].op.msg;
        SumUpdate(s.msgs, m, t.msgs[m], Collected(s.tariff, u));
        var cost, n := CostOf(s.tariff, s.msgs[m]), s.msgs[m].debits;
        assert cost * (n + 1) == cost * n + cost;
      }
    }
  }

  lemma StepCollects(s: State, a: Action, u: L.User)
    requires Inv(s) && NoDeposits(s) && Enabled(s, a) && Closed(a)
    ensures L.Bal(Step(s, a).led, u) + TotalCollected(Step(s, a), u) == L.Bal(s.led, u) + TotalCollected(s, u)
  {
    if a.Store? {
      StoreCollects(s, a.a, u);
    } else {
      NothingDeducted(s, a);
      SumSame(Step(s, a).msgs, s.msgs, Collected(s.tariff, u), Collected(s.tariff, u));
    }
  }

  /** The same account for every run, whatever fails: what has left the balance is the cost of each
      message, as often as it was deducted.  ExactlyOnce tells how often that is. */
  lemma {:induction false} EveryRunIsAccounted(s: State, run: seq<Action>, u: L.User)
    requires Inv(s) && NoDeposits(s) && Runs(s, run) && ClosedRun(run)
    ensures L.Bal(Exec(s, run).led, u) + TotalCollected(Exec(s, run), u) == L.Bal(s.led, u) + TotalCollected(s, u)
    decreases |run|
  {
    if run != [] {
      assert run[0] in run;
      StepKeepsInv(s, run[0]);
      NoDepositsBegin(s, run[0]);
      StepCollects(s, run[0], u);
      EveryRunIsAccounted(Step(s, run[0]), run[1..], u);
    }
  }

  predicate Settled(s: State)
  {
    forall m :: 0 <= m < |s.msgs| ==> s.msgs[m].state.Acked? || s.msgs[m].state.Dropped?
  }

  // What a consumer is about to charge is still owed.
  lemma ReaderIsOwed(t: State, i: nat, u: L.User)
    requires CleanInv(t)
    requires forall m :: 0 <= m < |t.msgs| ==> 0 <= CostOf(t.tariff, t.msgs[m])
    requires L.At(t.led, i, L.Reading) && Collectable(t, i) && t.led.slots[i].op.user == u
    ensures L.CostOf(t.led.slots[i].op) <= TotalOwed(t, u)
  {
    CollectableIsUnpaid(t, i);
    assert SlotOk(t, i);
    SumDominates(t.msgs, t.led.slots[i].op.msg, Owed(t.tariff, u));
  }

  lemma NothingOwed(t: State, u: L.User)
    requires CleanInv(t) && Settled(t)
    ensures TotalOwed(t, u) == 0
  {
    forall m | 0 <= m < |t.msgs| ensures Owed(t.tariff, u)(t.msgs[m]) == 0 {
      assert PaidOnce(t, m) && MsgOk(t, m);
    }
    SumZero(t.msgs, Owed(t.tariff, u));
  }

  lemma CostsStay(s: State, run: seq<Action>)
    requires CleanInv(s) && Runs(s, run) && Exec(s, run).tariff == s.tariff && |Exec(s, run).msgs| == |s.msgs|
    requires forall m :: 0 <= m < |s.msgs| ==> 0 <= CostOf(s.tariff, s.msgs[m])
    ensures forall m :: 0 <= m < |s.msgs| ==> 0 <= CostOf(s.tariff, Exec(s, run).msgs[m])
  {
    forall m | 0 <= m < |s.msgs| ensures 0 <= CostOf(s.tariff, Exec(s, run).msgs[m]) {
      MessagesArePermanent(s, run, m);
      assert 0 <= CostOf(s.tariff, s.msgs[m]);
    }
  }

  /** If the balance of u covers all that u's queued events cost, then in every state that can be
      reached the check of every charge for u succeeds, but for a message that another consumer has
      charged after this one's connection went, and once the queue is settled the balance is what it
      was minus that total, whatever the order. */
  lemma CoveredQueueDrains(s: State, run: seq<Action>, u: L.User)
    requires CleanInv(s) && NoDeposits(s) && Runs(s, run) && CleanRun(s, run) && ClosedRun(run)
    requires forall m :: 0 <= m < |s.msgs| ==> 0 <= CostOf(s.tariff, s.msgs[m])
    requires TotalOwed(s, u) <= L.Bal(s.led, u)
    ensures
      var t := Exec(s, run);
      && (forall i: nat :: L.At(t.led, i, L.Reading) && Collectable(t, i) && t.led.slots[i].op.user == u ==>
            L.Passes(t.led, i, true))
      && 0 <= L.Bal(t.led, u)
      && (Settled(t) ==> L.Bal(t.led, u) == L.Bal(s.led, u) - TotalOwed(s, u))
  {
    var t := Exec(s, run);
    RunConserves(s, run, u);
    CostsStay(s, run);
    SumNonNegative(t.msgs, Owed(t.tariff, u));
    forall i: nat | L.At(t.led, i, L.Reading) && Collectable(t, i) && t.led.slots[i].op.user == u
      ensures L.Passes(t.led, i, true)
    {
      ReaderIsOwed(t, i, u);
    }
    if Settled(t) {
      NothingOwed(t, u);
    }
  }

  function Unsettled(): Msg -> int
  {
    (x: Msg) => if x.state.Ready? || x.state.Unacked? then 1 else 0
  }

  /** A charge whose acknowledgement reaches the broker. */
  function Success(s: State, a: Action): nat
    requires Enabled(s, a)
  {
    if a.Settle? && s.consumers[a.i].open && s.led.slots[a.i].stage.ok then 1 else 0
  }

  function Successes(s: State, run: seq<Action>): nat
    requires Runs(s, run)
    decreases |run|
  {
    if run == [] then 0 else Success(s, run[0]) + Successes(Step(s, run[0]), run[1..])
  }

  lemma StepUsesUp(s: State, a: Action)
    requires Inv(s) && Enabled(s, a) && !a.Publish?
    ensures SumOf(Step(s, a).msgs, Unsettled()) + Success(s, a) <= SumOf(s.msgs, Unsettled())
  {
    var t := Step(s, a);
    Touched(s, a);
    match a
    case Deliver(m, i) => SumUpdate(s.msgs, m, t.msgs[m], Unsettled());
    case Take(i, m) =>
      if s.msgs[m].event.None? && s.consumers[i].open {
        SumUpdate(s.msgs, m, t.msgs[m], Unsettled());
      }
    case Store(b) =>
      if Pays(s, b) {
        var m := s.led.slots[b.i].op.msg;
        SumUpdate(s.msgs, m, t.msgs[m], Unsettled());
      }
    case Settle(i) =>
      var m := s.led.slots[i].op.msg;
      if s.consumers[i].open {
        assert Charging(s, i, m);
        SumUpdate(s.msgs, m, t.msgs[m], Unsettled());
      }
    case Close(i) => SumSame(t.msgs, s.msgs, Unsettled(), Unsettled());
    case Crash(i) => SumSame(t.msgs, s.msgs, Unsettled(), Unsettled());
    case Reconnect(i) =>
  }

  /** Every successful delivery uses up one open message, so without new ones at most as many
      deliveries succeed as messages are open, in every run, faults included. */
  lemma {:induction false} SuccessesAreBounded(s: State, run: seq<Action>)
    requires Inv(s) && Runs(s, run) && ClosedRun(run)
    ensures SumOf(Exec(s, run).msgs, Unsettled()) + Successes(s, run) <= SumOf(s.msgs, Unsettled())
    ensures Successes(s, run) <= SumOf(s.msgs, Unsettled())
    decreases |run|
  {
    if run != [] {
      assert run[0] in run;
      StepKeepsInv(s, run[0]);
      StepUsesUp(s, run[0]);
      SuccessesAreBounded(Step(s, run[0]), run[1..]);
    }
    SumNonNegative(Exec(s, run).msgs, Unsettled());
  }
}
