/** A covered queue, left to work, cannot help draining: every run without disturbances is short, and
    ends with every message settled. */
module Termination {
  import opened Sums
  import opened Delivery
  import opened Custody
  import opened DeliverySafety
  import opened Drain
  import opened Stuck
  import opened Completion
  import L = Ledger

  /** A step that gets on with the work: undisturbed, every write succeeds, no connection comes or goes. */
  predicate Brisk(s: State, a: Action)
  {
    && Undisturbed(s, a) && !a.Close? && !a.Crash? && !a.Reconnect?
    && (a.Store? ==> !a.a.Query? && (a.a.Update? ==> a.a.out.Fine?) && (a.a.Insert? ==> a.a.out.Fine?))
  }

  predicate BriskRun(s: State, run: seq<Action>)
    requires Runs(s, run)
    decreases |run|
  {
    run == [] || (Brisk(s, run[0]) && BriskRun(Step(s, run[0]), run[1..]))
  }

  /** All consumers are connected, there is one at least, and the queue is covered. */
  ghost predicate Working(s: State)
  {
    && CleanInv(s) && NoDeposits(s) && Covered(s) && 0 < |s.consumers|
    && forall i :: 0 <= i < |s.consumers| ==> s.consumers[i].open
  }

  function StageWork(stage: L.Stage): nat
  {
    match stage
    case Reading => 4
    case Updating => 3
    case Logging => 2
    case Done(ok) => if ok then 1 else 7
  }

  /** How many steps message m still needs at most. */
  function Work(s: State, m: nat): nat
    requires m < |s.msgs|
  {
    match s.msgs[m].state
    case Ready => 6
    case Unacked(i) => if Charging(s, i, m) then StageWork(s.led.slots[i].stage) else 5
    case _ => 0
  }

  function Works(s: State): seq<int>
  {
    seq(|s.msgs|, m requires 0 <= m < |s.msgs| => Work(s, m))
  }

  function Same(): int -> int
  {
    (x: int) => x
  }

  function TotalWork(s: State): int
  {
    SumOf(Works(s), Same())
  }

  /** The message a step works on. */
  function Target(s: State, a: Action): nat
    requires Enabled(s, a)
  {
    match a
    case Deliver(m, _) => m
    case Take(_, m) => m
    case Store(b) =>
      if !b.Query? && b.i < |s.led.slots| && s.led.slots[b.i].Call? && s.led.slots[b.i].op.Usage?
      then s.led.slots[b.i].op.msg else |s.msgs|
    case Settle(i) => if s.led.slots[i].op.Usage? then s.led.slots[i].op.msg else |s.msgs|
    case _ => |s.msgs|
  }

  // A charge under way passes its check.
  lemma WillPass(s: State, i: nat)
    requires Working(s) && L.At(s.led, i, L.Reading)
    ensures i < |s.consumers| && s.led.slots[i].op.Usage? && L.Passes(s.led, i, true)
  {
    assert SlotOk(s, i);
    var u := s.led.slots[i].op.user;
    ReaderIsOwed(s, i, u);
    assert TotalOwed(s, u) <= L.Bal(s.led, u);
  }

  lemma DeliverWorks(s: State, m: nat, i: nat)
    requires Working(s) && Enabled(s, Deliver(m, i))
    ensures Work(Step(s, Deliver(m, i)), m) < Work(s, m)
    ensures forall k :: 0 <= k < |s.msgs| && k != m ==> Work(Step(s, Deliver(m, i)), k) == Work(s, k)
  {
    assert HoldsOk(s, i);
  }

  lemma TakeWorks(s: State, i: nat, m: nat)
    requires Working(s) && Enabled(s, Take(i, m))
    ensures |Step(s, Take(i, m)).msgs| == |s.msgs| && Work(Step(s, Take(i, m)), m) < Work(s, m)
    ensures forall k :: 0 <= k < |s.msgs| && k != m ==> Work(Step(s, Take(i, m)), k) == Work(s, k)
  {
    assert HoldsOk(s, i);
  }

  lemma StoreWorks(s: State, b: L.Action)
    requires Working(s) && Enabled(s, Store(b)) && Brisk(s, Store(b))
    ensures
      var m, t := Target(s, Store(b)), Step(s, Store(b));
      && m < |s.msgs| == |t.msgs| && Work(t, m) < Work(s, m)
      && forall k :: 0 <= k < |s.msgs| && k != m ==> Work(t, k) == Work(s, k)
  {
    Touched(s, Store(b));
    assert SlotOk(s, b.i) && b.i < |s.consumers| && HoldsOk(s, b.i);
    assert Charging(s, b.i, s.led.slots[b.i].op.msg);
    if b.Read? {
      WillPass(s, b.i);
    }
  }

  lemma SettleWorks(s: State, i: nat)
    requires Working(s) && Enabled(s, Settle(i))
    ensures
      var m, t := Target(s, Settle(i)), Step(s, Settle(i));
      && m < |s.msgs| == |t.msgs| && Work(t, m) < Work(s, m)
      && forall k :: 0 <= k < |s.msgs| && k != m ==> Work(t, k) == Work(s, k)
  {
    Touched(s, Settle(i));
    assert Charging(s, i, s.led.slots[i].op.msg);
  }

  /** Each step works on one message and leaves the others as they are. */
  lemma StepWorks(s: State, a: Action)
    requires Working(s) && Enabled(s, a) && Brisk(s, a)
    ensures TotalWork(Step(s, a)) < TotalWork(s)
  {
    var m, t := Target(s, a), Step(s, a);
    match a {
      case Deliver(k, i) => DeliverWorks(s, k, i);
      case Take(i, k) => TakeWorks(s, i, k);
      case Store(b) => StoreWorks(s, b);
      case Settle(i) => SettleWorks(s, i);
    }
    OneLess(Works(s), Works(t), m);
  }

  lemma OneLess(x: seq<int>, y: seq<int>, m: nat)
    requires m < |x| == |y| && y[m] < x[m]
    requires forall k :: 0 <= k < |x| && k != m ==> y[k] == x[k]
    ensures SumOf(y, Same()) < SumOf(x, Same())
  {
    assert y == x[m := y[m]];
    SumUpdate(x, m, y[m], Same());
  }

  lemma StepKeepsWorking(s: State, a: Action)
    requires Working(s) && Enabled(s, a) && Brisk(s, a)
    ensures Working(Step(s, a)) && |Step(s, a).msgs| == |s.msgs|
  {
    var run := CalmStep(s, a);
    UndisturbedIsClean(s, run);
    StaysCovered(s, run);
    CalmKeeps(s, run, Step(s, a));
    StayOpen(s, a);
  }

  lemma StayOpen(s: State, a: Action)
    requires Enabled(s, a) && Brisk(s, a)
    requires forall i :: 0 <= i < |s.consumers| ==> s.consumers[i].open
    ensures |Step(s, a).consumers| == |s.consumers|
    ensures forall i :: 0 <= i < |s.consumers| ==> Step(s, a).consumers[i].open
  {
  }

  lemma {:induction false} RunWorks(s: State, run: seq<Action>)
    requires Working(s) && Runs(s, run) && BriskRun(s, run)
    ensures Working(Exec(s, run)) && |run| + TotalWork(Exec(s, run)) <= TotalWork(s)
    decreases |run|
  {
    if run != [] {
      StepWorks(s, run[0]);
      StepKeepsWorking(s, run[0]);
      RunWorks(Step(s, run[0]), run[1..]);
    }
  }

  lemma {:induction false} WorkPerMessage(works: seq<int>, msgs: seq<Msg>)
    requires |works| == |msgs|
    requires forall m :: 0 <= m < |msgs| ==> 0 <= works[m] <= 7 * Unsettled()(msgs[m])
    ensures 0 <= SumOf(works, Same()) <= 7 * SumOf(msgs, Unsettled())
  {
    if works != [] {
      assert 0 <= works[0] <= 7 * Unsettled()(msgs[0]);
      forall m | 0 <= m < |msgs[1..]| ensures 0 <= works[1..][m] <= 7 * Unsettled()(msgs[1..][m]) {
        assert works[1..][m] == works[m + 1] && msgs[1..][m] == msgs[m + 1];
      }
      WorkPerMessage(works[1..], msgs[1..]);
    }
  }

  /** What consumer i can do next for the charge it has under way. */
  lemma NextOf(s: State, i: nat) returns (a: Action)
    requires Working(s) && i < |s.consumers| && i < |s.led.slots| && s.led.slots[i].Call?
    ensures Enabled(s, a) && Brisk(s, a)
  {
    match s.led.slots[i].stage
    case Reading => a := Store(L.Read(i, true));
    case Updating => a := Store(L.Update(i, L.Fine));
    case Logging => a := Store(L.Insert(i, L.Fine, 0));
    case Done(_) => a := Settle(i);
  }

  /** As long as a message is open there is something to do. */
  lemma Next(s: State) returns (a: Action)
    requires Working(s) && !Settled(s)
    ensures Enabled(s, a) && Brisk(s, a)
  {
    var m: nat :| m < |s.msgs| && !(s.msgs[m].state.Acked? || s.msgs[m].state.Dropped?);
    assert MsgOk(s, m);
    match s.msgs[m].state
    case Ready => a := Deliver(m, 0);
    case Unacked(i) =>
      if s.led.slots[i].Call? {
        a := NextOf(s, i);
      } else {
        a := Take(i, m);
      }
  }

  /** Nothing is left to do. */
  ghost predicate AtRest(s: State)
  {
    forall a :: Enabled(s, a) ==> !Brisk(s, a)
  }

  lemma RestIsSettled(t: State)
    requires Working(t) && AtRest(t)
    ensures Settled(t)
  {
    if !Settled(t) {
      var a := Next(t);
      assert false;
    }
  }

  lemma WorkIsBounded(s: State)
    ensures 0 <= TotalWork(s) <= 7 * SumOf(s.msgs, Unsettled())
  {
    WorkPerMessage(Works(s), s.msgs);
  }

  /** Connected consumers, a covered queue, and no disturbances: whatever order messages are delivered
      and steps interleave in, a run has at most seven steps for each open message, and where it can
      go no further every message is settled and each user has paid exactly what the queue owed. */
  lemma EveryRunDrains(s: State, run: seq<Action>, u: L.User)
    requires Working(s) && Runs(s, run) && BriskRun(s, run)
    ensures |run| <= 7 * SumOf(s.msgs, Unsettled())
    ensures AtRest(Exec(s, run)) ==>
      Settled(Exec(s, run)) && L.Bal(Exec(s, run).led, u) == L.Bal(s.led, u) - TotalOwed(s, u)
  {
    var t := Exec(s, run);
    RunWorks(s, run);
    WorkIsBounded(s);
    WorkIsBounded(t);
    if AtRest(t) {
      RestIsSettled(t);
      PaidInFull(s, run, u);
    }
  }

  lemma PaidInFull(s: State, run: seq<Action>, u: L.User)
    requires Working(s) && Runs(s, run) && BriskRun(s, run) && Settled(Exec(s, run))
    ensures L.Bal(Exec(s, run).led, u) == L.Bal(s.led, u) - TotalOwed(s, u)
  {
    BriskIsClean(s, run);
    assert TotalOwed(s, u) <= L.Bal(s.led, u);
    CoveredQueueDrains(s, run, u);
  }

  lemma {:induction false} BriskIsClean(s: State, run: seq<Action>)
    requires Runs(s, run) && BriskRun(s, run)
    ensures CleanRun(s, run) && ClosedRun(run)
    decreases |run|
  {
    if run != [] {
      BriskIsClean(Step(s, run[0]), run[1..]);
    }
  }
}
