/** Request statistics: a counter behind a mutex, and snapshots of it. */
module Stats {
  import opened Text

  /** total and byStatus are the counts of exactly the requests in h. */
  predicate Tells(total: int, byStatus: map<string, int>, h: seq<string>)
  {
    && total == |h|
    && (forall k :: k in byStatus ==> k in h && byStatus[k] == multiset(h)[k])
    && (forall k :: k in h ==> k in byStatus)
  }

  ghost function SumValues(m: map<string, int>): int
  {
    if m == map[] then 0
    else var k :| k in m; m[k] + SumValues(m - {k})
  }

  lemma {:induction false} SumWithout(m: map<string, int>, k: string)
    requires k in m
    ensures SumValues(m) == m[k] + SumValues(m - {k})
    decreases |m|
  {
    var j :| j in m && SumValues(m) == m[j] + SumValues(m - {j});
    if j != k {
      SumWithout(m - {j}, k);
      SumWithout(m - {k}, j);
      assert m - {j} - {k} == m - {k} - {j};
    }
  }

  /** The total is the sum over all statuses. */
  lemma {:induction false} TotalIsSum(total: int, byStatus: map<string, int>, h: seq<string>)
    requires Tells(total, byStatus, h)
    ensures total == SumValues(byStatus)
    decreases |h|
  {
    if h == [] {
      assert byStatus == map[];
    } else {
      var n := |h| - 1;
      var k, g := h[n], h[..n];
      assert h == g + [k];
      assert k in byStatus;
      var fewer := if k in g then byStatus[k := byStatus[k] - 1] else byStatus - {k};
      assert multiset(h) == multiset(g) + multiset{k};
      TotalIsSum(n, fewer, g);
      SumWithout(byStatus, k);
      if k in g {
        SumWithout(fewer, k);
        assert fewer - {k} == byStatus - {k};
      }
    }
  }

  lemma AddOne(total: int, byStatus: map<string, int>, h: seq<string>, k: string)
    requires Tells(total, byStatus, h)
    ensures Tells(total + 1, Bumped(byStatus, k), h + [k])
  {
  }

  function Bumped(byStatus: map<string, int>, k: string): map<string, int>
  {
    byStatus[k := (if k in byStatus then byStatus[k] else 0) + 1]
  }

  class Counter {
    var total: int
    var byStatus: map<string, int>
    ghost var history: seq<string>

    ghost predicate Valid()
      reads this
    {
      Tells(total, byStatus, history)
    }

    constructor ()
      ensures Valid() && history == []
    {
      total, byStatus, history := 0, map[], [];
    }

    method Inc(status: string)
      requires Valid()
      modifies this
      ensures Valid() && history == old(history) + [status] && total == old(total) + 1
      ensures byStatus ==
        old(byStatus)[status := (if status in old(byStatus) then old(byStatus)[status] else 0) + 1]
    {
      AddOne(total, byStatus, history, status);
      total := total + 1;
      byStatus := byStatus[status := (if status in byStatus then byStatus[status] else 0) + 1];
      history := history + [status];
    }

    /** The copy made by the handler, key by key in whatever order. */
    method Snapshot() returns (copyTotal: int, copy: map<string, int>)
      requires Valid()
      ensures Tells(copyTotal, copy, history) && copyTotal == total && copy == byStatus
    {
      copy := map[];
      var todo := byStatus.Keys;
      while todo != {}
        invariant todo <= byStatus.Keys
        invariant copy == map k | k in byStatus && k !in todo :: byStatus[k]
        decreases todo
      {
        var k :| k in todo;
        copy := copy[k := byStatus[k]];
        todo := todo - {k};
      }
      assert copy == byStatus;
      copyTotal := total;
    }
  }

  /** Where a goroutine is: outside, in inc before or after the first increment, or copying. */
  datatype Thread =
    | Outside
    | Adding(status: string, half: bool)
    | Copying(copy: map<string, int>, todo: set<string>)

  /** A finished snapshot; `seen` is how many requests had been counted when it was taken. */
  datatype Snap = Snap(total: int, byStatus: map<string, int>, seen: nat)

  datatype State = State(
    total: int, byStatus: map<string, int>, holder: Option<nat>, threads: seq<Thread>,
    history: seq<string>, snaps: seq<Snap>)

  datatype Action =
    | EnterInc(i: nat, status: string)
    | AddTotal(i: nat)
    | AddStatus(i: nat)
    | EnterSnapshot(i: nat)
    | CopyKey(i: nat, k: string)
    | LeaveSnapshot(i: nat)

  predicate Enabled(s: State, a: Action)
  {
    && a.i < |s.threads|
    && match a
       case EnterInc(i, _) => s.holder.None? && s.threads[i].Outside?
       case EnterSnapshot(i) => s.holder.None? && s.threads[i].Outside?
       case AddTotal(i) => s.threads[i].Adding? && !s.threads[i].half
       case AddStatus(i) => s.threads[i].Adding? && s.threads[i].half
       case CopyKey(i, k) => s.threads[i].Copying? && k in s.threads[i].todo
       case LeaveSnapshot(i) => s.threads[i].Copying? && s.threads[i].todo == {}
  }

  function Step(s: State, a: Action): State
    requires Enabled(s, a)
  {
    match a
    case EnterInc(i, status) => s.(holder := Some(i), threads := s.threads[i := Adding(status, false)])
    case AddTotal(i) => s.(total := s.total + 1, threads := s.threads[i := s.threads[i].(half := true)])
    case AddStatus(i) =>
      var k := s.threads[i].status;
      s.(byStatus := Bumped(s.byStatus, k), history := s.history + [k], holder := None,
         threads := s.threads[i := Outside])
    case EnterSnapshot(i) => s.(holder := Some(i), threads := s.threads[i := Copying(map[], s.byStatus.Keys)])
    case CopyKey(i, k) =>
      var x := s.threads[i];
      var copy := if k in s.byStatus then x.copy[k := s.byStatus[k]] else x.copy;
      s.(threads := s.threads[i := Copying(copy, x.todo - {k})])
    case LeaveSnapshot(i) =>
      s.(holder := None, threads := s.threads[i := Outside],
         snaps := s.snaps + [Snap(s.total, s.threads[i].copy, |s.history|)])
  }

  predicate Runs(s: State, run: seq<Action>)
    decreases |run|
  {
    run == [] || (Enabled(s, run[0]) && Runs(Step(s, run[0]), run[1..]))
  }

  function Exec(s: State, run: seq<Action>): State
    requires Runs(s, run)
    decreases |run|
  {
    if run == [] then s else Exec(Step(s, run[0]), run[1..])
  }

  /** Whether the total is one ahead of the map. */
  predicate Half(s: State)
  {
    s.holder.Some? && s.holder.value < |s.threads|
    && s.threads[s.holder.value].Adding? && s.threads[s.holder.value].half
  }

  predicate CopyOk(s: State, i: nat)
    requires i < |s.threads|
  {
    s.threads[i].Copying? ==>
      && s.threads[i].todo <= s.byStatus.Keys
      && s.threads[i].copy == map k | k in s.byStatus && k !in s.threads[i].todo :: s.byStatus[k]
  }

  predicate SnapOk(s: State, j: nat)
    requires j < |s.snaps|
  {
    && s.snaps[j].seen <= |s.history|
    && Tells(s.snaps[j].total, s.snaps[j].byStatus, s.history[..s.snaps[j].seen])
    && (0 < j ==> s.snaps[j - 1].seen <= s.snaps[j].seen)
  }

  predicate Inv(s: State)
  {
    && (forall i :: 0 <= i < |s.threads| && s.holder != Some(i) ==> s.threads[i].Outside?)
    && Tells(if Half(s) then s.total - 1 else s.total, s.byStatus, s.history)
    && (forall i :: 0 <= i < |s.threads| ==> CopyOk(s, i))
    && (forall j :: 0 <= j < |s.snaps| ==> SnapOk(s, j))
  }

  lemma StepKeepsCounts(s: State, a: Action)
    requires Inv(s) && Enabled(s, a)
    ensures
      var t := Step(s, a);
      && (forall i :: 0 <= i < |t.threads| && t.holder != Some(i) ==> t.threads[i].Outside?)
      && Tells(if Half(t) then t.total - 1 else t.total, t.byStatus, t.history)
  {
    if a.AddStatus? {
      AddOne(s.total - 1, s.byStatus, s.history, s.threads[a.i].status);
    }
  }

  lemma StepKeepsCopy(s: State, a: Action, i: nat)
    requires Inv(s) && Enabled(s, a) && i < |s.threads|
    ensures i < |Step(s, a).threads| && CopyOk(Step(s, a), i)
  {
    assert CopyOk(s, i);
  }

  lemma StepKeepsSnap(s: State, a: Action, j: nat)
    requires Inv(s) && Enabled(s, a) && j < |Step(s, a).snaps|
    ensures SnapOk(Step(s, a), j)
  {
    var t := Step(s, a);
    if j < |s.snaps| {
      assert SnapOk(s, j);
      assert t.history[..s.snaps[j].seen] == s.history[..s.snaps[j].seen];
    } else {
      assert CopyOk(s, a.i) && s.threads[a.i].copy == s.byStatus;
      assert t.history[..|s.history|] == s.history;
      assert 0 < j ==> SnapOk(s, j - 1);
    }
  }

  lemma StepKeepsInv(s: State, a: Action)
    requires Inv(s) && Enabled(s, a)
    ensures Inv(Step(s, a))
  {
    var t := Step(s, a);
    StepKeepsCounts(s, a);
    forall i | 0 <= i < |t.threads| ensures CopyOk(t, i) {
      StepKeepsCopy(s, a, i);
    }
    forall j | 0 <= j < |t.snaps| ensures SnapOk(t, j) {
      StepKeepsSnap(s, a, j);
    }
  }

  lemma {:induction false} RunKeepsInv(s: State, run: seq<Action>)
    requires Inv(s) && Runs(s, run)
    ensures Inv(Exec(s, run))
    decreases |run|
  {
    if run != [] {
      StepKeepsInv(s, run[0]);
      RunKeepsInv(Step(s, run[0]), run[1..]);
    }
  }

  predicate Initial(s: State)
  {
    && s.total == 0 && s.byStatus == map[] && s.holder.None? && s.history == [] && s.snaps == []
    && forall i :: 0 <= i < |s.threads| ==> s.threads[i].Outside?
  }

  /** Over every interleaving of increments and snapshots: whenever the mutex is free the total is
      the sum of the map, and every snapshot is exactly the counts of the requests counted before
      it, its own total the sum of its own map. */
  lemma SnapshotsAreConsistent(s: State, run: seq<Action>)
    requires Initial(s) && Runs(s, run)
    ensures
      var t := Exec(s, run);
      && (t.holder.None? ==> t.total == SumValues(t.byStatus) == |t.history|)
      && (forall j :: 0 <= j < |t.snaps| ==> SnapOk(t, j) && t.snaps[j].total == SumValues(t.snaps[j].byStatus))
  {
    RunKeepsInv(s, run);
    var t := Exec(s, run);
    if t.holder.None? {
      TotalIsSum(t.total, t.byStatus, t.history);
    }
    forall j | 0 <= j < |t.snaps| ensures SnapOk(t, j) && t.snaps[j].total == SumValues(t.snaps[j].byStatus) {
      assert SnapOk(t, j);
      TotalIsSum(t.snaps[j].total, t.snaps[j].byStatus, t.history[..t.snaps[j].seen]);
    }
  }

  /** Later snapshots are at least as large, in total and for every status. */
  lemma {:induction false} SnapshotsGrow(s: State, i: nat, j: nat, k: string)
    requires Inv(s) && i <= j < |s.snaps| && k in s.snaps[i].byStatus
    ensures s.snaps[i].total <= s.snaps[j].total && s.snaps[i].seen <= s.snaps[j].seen
    ensures k in s.snaps[j].byStatus && s.snaps[i].byStatus[k] <= s.snaps[j].byStatus[k]
    decreases j - i
  {
    if i < j {
      SnapshotsGrow(s, i, j - 1, k);
      assert SnapOk(s, j - 1) && SnapOk(s, j);
      var g, h := s.history[..s.snaps[j - 1].seen], s.history[..s.snaps[j].seen];
      assert h == g + h[|g|..];
      assert multiset(h) == multiset(g) + multiset(h[|g|..]);
    }
  }

  /** Whoever holds the mutex keeps everybody else out. */
  lemma MutexExcludes(s: State, i: nat, status: string)
    requires i < |s.threads|
    ensures Enabled(s, EnterInc(i, status)) <==> s.holder.None? && s.threads[i].Outside?
    ensures Enabled(s, EnterSnapshot(i)) <==> s.holder.None? && s.threads[i].Outside?
    ensures Enabled(s, EnterInc(i, status)) ==> Step(s, EnterInc(i, status)).holder == Some(i)
    ensures Enabled(s, EnterSnapshot(i)) ==> Step(s, EnterSnapshot(i)).holder == Some(i)
  {
  }

  /** An increment, when it gets the mutex, counts its request, once, and gives the mutex back. */
  lemma IncCounts(s: State, i: nat, status: string) returns (run: seq<Action>)
    requires i < |s.threads| && s.holder.None? && s.threads[i].Outside?
    ensures run == [EnterInc(i, status), AddTotal(i), AddStatus(i)] && Runs(s, run)
    ensures
      var t := Exec(s, run);
      && t.total == s.total + 1 && t.history == s.history + [status] && t.holder.None?
      && t.byStatus == s.byStatus[status := (if status in s.byStatus then s.byStatus[status] else 0) + 1]
      && t.threads == s.threads && t.snaps == s.snaps
  {
    run := [EnterInc(i, status), AddTotal(i), AddStatus(i)];
    var s1 := Step(s, run[0]);
    var s2 := Step(s1, run[1]);
    var s3 := Step(s2, run[2]);
    assert run[1..] == [run[1], run[2]] && run[1..][1..] == [run[2]] && run[1..][1..][1..] == [];
    assert Runs(s3, []) && Runs(s2, [run[2]]) && Exec(s2, [run[2]]) == s3;
    assert Runs(s1, run[1..]) && Exec(s1, run[1..]) == s3;
    assert s3.threads == s.threads;
  }

  // The rest of a snapshot: the keys that are left, in some order.
  lemma {:induction false} CopyTheRest(s: State, i: nat) returns (run: seq<Action>)
    requires i < |s.threads| && s.threads[i].Copying? && CopyOk(s, i)
    ensures Runs(s, run)
    ensures
      var t := Exec(s, run);
      && t.snaps == s.snaps + [Snap(s.total, s.byStatus, |s.history|)] && t.holder.None?
      && t.total == s.total && t.byStatus == s.byStatus && t.history == s.history
      && t.threads == s.threads[i := Outside]
    decreases |s.threads[i].todo|
  {
    if s.threads[i].todo == {} {
      run := [LeaveSnapshot(i)];
      assert run[1..] == [] && s.threads[i].copy == s.byStatus;
      assert Exec(s, run) == Step(s, LeaveSnapshot(i));
    } else {
      var k :| k in s.threads[i].todo;
      var t := Step(s, CopyKey(i, k));
      StepKeepsOneCopy(s, i, k);
      var rest := CopyTheRest(t, i);
      run := [CopyKey(i, k)] + rest;
      assert run[1..] == rest;
      assert t.threads[i := Outside] == s.threads[i := Outside];
    }
  }

  lemma StepKeepsOneCopy(s: State, i: nat, k: string)
    requires i < |s.threads| && CopyOk(s, i) && Enabled(s, CopyKey(i, k))
    ensures CopyOk(Step(s, CopyKey(i, k)), i)
  {
  }

  /** A snapshot, when it gets the mutex, can be completed, and has the counts of that moment. */
  lemma SnapshotIsTaken(s: State, i: nat) returns (run: seq<Action>)
    requires i < |s.threads| && s.holder.None? && s.threads[i].Outside?
    ensures run != [] && run[0] == EnterSnapshot(i) && Runs(s, run)
    ensures
      var t := Exec(s, run);
      && t.snaps == s.snaps + [Snap(s.total, s.byStatus, |s.history|)] && t.holder.None?
      && t.total == s.total && t.byStatus == s.byStatus && t.history == s.history && t.threads == s.threads
  {
    var t := Step(s, EnterSnapshot(i));
    var rest := CopyTheRest(t, i);
    run := [EnterSnapshot(i)] + rest;
    assert run[1..] == rest;
    assert t.threads[i := Outside] == s.threads;
  }
}
