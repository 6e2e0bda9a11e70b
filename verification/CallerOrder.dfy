/** The atomic history respects the order in which callers call and are answered: each caller is told
    exactly its own events, and an operation that has returned comes before one begun later. */
module CallerOrder {
  import opened Ledger
  import opened AtomicLedger

  /** An event of the history, and the caller whose step it is; a query has none. */
  datatype Mark = Mark(caller: int, event: Event)

  function Marked(s: State, a: Action): seq<Mark>
    requires Enabled(s, a)
  {
    if Visible(s, a) == [] then [] else [Mark(if a.Query? then -1 else a.i, Visible(s, a)[0])]
  }

  function Marks(s: State, run: seq<Action>): seq<Mark>
    requires Runs(s, run)
    decreases |run|
  {
    if run == [] then [] else Marked(s, run[0]) + Marks(Step(s, run[0]), run[1..])
  }

  function Events(marks: seq<Mark>): seq<Event>
  {
    seq(|marks|, k requires 0 <= k < |marks| => marks[k].event)
  }

  /** Without the callers, it is the history. */
  lemma {:induction false} MarksAreHistory(s: State, run: seq<Action>)
    requires Runs(s, run)
    ensures Events(Marks(s, run)) == History(s, run)
    decreases |run|
  {
    if run != [] {
      var t := Step(s, run[0]);
      MarksAreHistory(t, run[1..]);
      assert Events(Marked(s, run[0])) == Visible(s, run[0]);
      assert Events(Marked(s, run[0]) + Marks(t, run[1..])) == Events(Marked(s, run[0])) + Events(Marks(t, run[1..]));
    }
  }

  /** The events of caller i, in their order. */
  function By(marks: seq<Mark>, i: nat): seq<Event>
  {
    if marks == [] then []
    else (if marks[0].caller == i then [marks[0].event] else []) + By(marks[1..], i)
  }

  lemma {:induction false} ByConcat(m1: seq<Mark>, m2: seq<Mark>, i: nat)
    ensures By(m1 + m2, i) == By(m1, i) + By(m2, i)
  {
    if m1 == [] {
      assert m1 + m2 == m2;
    } else {
      var first := if m1[0].caller == i then [m1[0].event] else [];
      assert (m1 + m2)[0] == m1[0] && (m1 + m2)[1..] == m1[1..] + m2;
      assert By(m1 + m2, i) == first + By(m1[1..] + m2, i);
      ByConcat(m1[1..], m2, i);
      assert first + (By(m1[1..], i) + By(m2, i)) == (first + By(m1[1..], i)) + By(m2, i);
    }
  }

  predicate Acts(a: Action, i: nat)
  {
    !a.Query? && a.i == i
  }

  /** What caller i is told, in order. */
  function RepliesTo(s: State, run: seq<Action>, i: nat): seq<Event>
    requires Runs(s, run)
    decreases |run|
  {
    if run == [] then []
    else (if Acts(run[0], i) then Reply(s, run[0]) else []) + RepliesTo(Step(s, run[0]), run[1..], i)
  }

  /** What caller i asks for, in order. */
  function BegunBy(run: seq<Action>, i: nat): seq<Op>
  {
    if run == [] then []
    else (if run[0].Begin? && run[0].i == i then [run[0].op] else []) + BegunBy(run[1..], i)
  }

  /** Settled, and still to be told. */
  function Untold(s: State, i: nat): seq<Event>
    requires i < |s.slots|
  {
    var x := s.slots[i];
    if x.Call? && x.stage.Logging? then [Settled(x.op, true)]
    else if x.Call? && x.stage.Done? then [Settled(x.op, x.stage.ok)]
    else []
  }

  /** Begun, and still to be settled. */
  function Unsettled(s: State, i: nat): seq<Op>
    requires i < |s.slots|
  {
    var x := s.slots[i];
    if x.Call? && (x.stage.Reading? || x.stage.Updating?) then [x.op] else []
  }

  function Ops(events: seq<Event>): seq<Op>
  {
    if events == [] then []
    else (if events[0].Settled? then [events[0].op] else []) + Ops(events[1..])
  }

  lemma {:induction false} OpsConcat(e1: seq<Event>, e2: seq<Event>)
    ensures Ops(e1 + e2) == Ops(e1) + Ops(e2)
  {
    if e1 == [] {
      assert e1 + e2 == e2;
    } else {
      var first := if e1[0].Settled? then [e1[0].op] else [];
      assert (e1 + e2)[0] == e1[0] && (e1 + e2)[1..] == e1[1..] + e2;
      assert Ops(e1 + e2) == first + Ops(e1[1..] + e2);
      OpsConcat(e1[1..], e2);
      assert first + (Ops(e1[1..]) + Ops(e2)) == (first + Ops(e1[1..])) + Ops(e2);
    }
  }

  lemma StepTold(s: State, a: Action, i: nat)
    requires Enabled(s, a) && Faultless(a) && i < |s.slots|
    ensures Untold(s, i) + By(Marked(s, a), i) == (if Acts(a, i) then Reply(s, a) else []) + Untold(Step(s, a), i)
  {
  }

  // A step of somebody else, or a query.
  lemma OthersSettle(s: State, a: Action, i: nat)
    requires Enabled(s, a) && i < |s.slots| && !Acts(a, i)
    ensures By(Marked(s, a), i) == [] && BegunBy([a], i) == [] && Unsettled(Step(s, a), i) == Unsettled(s, i)
  {
  }

  lemma OwnSettles(s: State, a: Action, i: nat)
    requires Enabled(s, a) && Faultless(a) && i < |s.slots| && Acts(a, i)
    ensures Unsettled(s, i) + BegunBy([a], i) == Ops(By(Marked(s, a), i)) + Unsettled(Step(s, a), i)
  {
  }

  lemma StepSettled(s: State, a: Action, i: nat)
    requires Enabled(s, a) && Faultless(a) && i < |s.slots|
    ensures Unsettled(s, i) + BegunBy([a], i) == Ops(By(Marked(s, a), i)) + Unsettled(Step(s, a), i)
  {
    if Acts(a, i) {
      OwnSettles(s, a, i);
    } else {
      OthersSettle(s, a, i);
    }
  }

  // Two equations that meet in v.
  lemma Glue<T>(u: seq<T>, m: seq<T>, r: seq<T>, v: seq<T>, e: seq<T>, q: seq<T>, end: seq<T>)
    requires u + m == r + v && v + e == q + end
    ensures u + (m + e) == (r + q) + end
  {
    assert u + (m + e) == (u + m) + e;
    assert (r + v) + e == r + (v + e);
    assert r + (q + end) == (r + q) + end;
  }

  /** What a caller is told is what the history says of its own operations, in the same order, and
      nothing else. */
  lemma {:induction false} CallersAreToldTheirEvents(s: State, run: seq<Action>, i: nat)
    requires Runs(s, run) && i < |s.slots|
    requires forall a :: a in run ==> Faultless(a)
    ensures |Exec(s, run).slots| == |s.slots|
    ensures Untold(s, i) + By(Marks(s, run), i) == RepliesTo(s, run, i) + Untold(Exec(s, run), i)
    decreases |run|
  {
    if run != [] {
      var a, t, rest := run[0], Step(s, run[0]), run[1..];
      assert a in run;
      CallersAreToldTheirEvents(t, rest, i);
      TellOne(s, a, t, rest, i);
    }
  }

  lemma TellOne(s: State, a: Action, t: State, rest: seq<Action>, i: nat)
    requires Enabled(s, a) && Faultless(a) && i < |s.slots| && t == Step(s, a) && Runs(t, rest)
    requires i < |t.slots| == |Exec(t, rest).slots|
    requires Untold(t, i) + By(Marks(t, rest), i) == RepliesTo(t, rest, i) + Untold(Exec(t, rest), i)
    ensures Untold(s, i) + By(Marked(s, a) + Marks(t, rest), i)
         == ((if Acts(a, i) then Reply(s, a) else []) + RepliesTo(t, rest, i)) + Untold(Exec(t, rest), i)
  {
    StepTold(s, a, i);
    ByConcat(Marked(s, a), Marks(t, rest), i);
    Glue(Untold(s, i), By(Marked(s, a), i), if Acts(a, i) then Reply(s, a) else [], Untold(t, i),
         By(Marks(t, rest), i), RepliesTo(t, rest, i), Untold(Exec(t, rest), i));
  }

  /** The events of a caller are of the operations it began, in that order. */
  lemma {:induction false} EventsAreOfBegun(s: State, run: seq<Action>, i: nat)
    requires Runs(s, run) && i < |s.slots|
    requires forall a :: a in run ==> Faultless(a)
    ensures |Exec(s, run).slots| == |s.slots|
    ensures Unsettled(s, i) + BegunBy(run, i) == Ops(By(Marks(s, run), i)) + Unsettled(Exec(s, run), i)
    decreases |run|
  {
    if run != [] {
      var a, t, rest := run[0], Step(s, run[0]), run[1..];
      assert a in run;
      EventsAreOfBegun(t, rest, i);
      SettleOne(s, a, t, rest, i);
      assert BegunBy(run, i) == BegunBy([a], i) + BegunBy(rest, i);
    }
  }

  lemma SettleOne(s: State, a: Action, t: State, rest: seq<Action>, i: nat)
    requires Enabled(s, a) && Faultless(a) && i < |s.slots| && t == Step(s, a) && Runs(t, rest)
    requires i < |t.slots| == |Exec(t, rest).slots|
    requires Unsettled(t, i) + BegunBy(rest, i) == Ops(By(Marks(t, rest), i)) + Unsettled(Exec(t, rest), i)
    ensures Unsettled(s, i) + (BegunBy([a], i) + BegunBy(rest, i))
         == Ops(By(Marked(s, a) + Marks(t, rest), i)) + Unsettled(Exec(t, rest), i)
  {
    StepSettled(s, a, i);
    ByConcat(Marked(s, a), Marks(t, rest), i);
    OpsConcat(By(Marked(s, a), i), By(Marks(t, rest), i));
    Glue(Unsettled(s, i), BegunBy([a], i), Ops(By(Marked(s, a), i)), Unsettled(t, i),
         BegunBy(rest, i), Ops(By(Marks(t, rest), i)), Unsettled(Exec(t, rest), i));
  }

  lemma {:induction false} MarksConcat(s: State, r1: seq<Action>, r2: seq<Action>)
    requires Runs(s, r1) && Runs(Exec(s, r1), r2)
    ensures Runs(s, r1 + r2) && Marks(s, r1 + r2) == Marks(s, r1) + Marks(Exec(s, r1), r2)
    decreases |r1|
  {
    RunsConcat(s, r1, r2);
    if r1 == [] {
      assert r1 + r2 == r2;
    } else {
      assert (r1 + r2)[1..] == r1[1..] + r2;
      MarksConcat(Step(s, r1[0]), r1[1..], r2);
    }
  }

  /** Real time.  Cut a run anywhere: everything caller i has been told by then stands in the first
      part of the history, and if caller j is idle at the cut, what stands in the second part for j is
      of operations it began after the cut.  With AtomicIffCovered the history is a linearization. */
  lemma HistoryKeepsRealTime(s: State, r1: seq<Action>, r2: seq<Action>, i: nat, j: nat)
    requires Runs(s, r1) && Runs(Exec(s, r1), r2)
    requires forall a :: a in r1 + r2 ==> Faultless(a)
    requires Quiescent(s) && i < |s.slots| && j < |Exec(s, r1).slots| && Exec(s, r1).slots[j].Idle?
    ensures
      var t := Exec(s, r1);
      && Runs(s, r1 + r2) && Marks(s, r1 + r2) == Marks(s, r1) + Marks(t, r2)
      && RepliesTo(s, r1, i) <= By(Marks(s, r1), i)
      && Ops(By(Marks(t, r2), j)) <= BegunBy(r2, j)
  {
    var t := Exec(s, r1);
    forall a | a in r1 || a in r2 ensures Faultless(a) {
      assert a in r1 + r2;
    }
    MarksConcat(s, r1, r2);
    assert s.slots[i].Idle?;
    CallersAreToldTheirEvents(s, r1, i);
    EventsAreOfBegun(t, r2, j);
    assert [] + By(Marks(s, r1), i) == By(Marks(s, r1), i);
    assert [] + BegunBy(r2, j) == BegunBy(r2, j);
  }
}
