/** The admission bound cannot be improved: the minimum balance of 10 is enough if and only if
    requests times cost is at most 10. */
module AdmissionTight {
  import opened Text
  import opened Sums
  import opened System
  import opened Admission
  import opened Attempts
  import A = Attribution
  import P = Proxy
  import ST = StampedeTight
  import D = Delivery
  import S = DeliverySafety
  import L = Ledger
  import E = UsageEvent
  import K = CacheKey

  /** One consumer, a balance of exactly 10 for one user, and a price of c for everything. */
  function Queue(c: nat): D.State
  {
    D.State(L.State(map[NAME := 10], [], [], [L.Idle]), [], [D.Consumer(false, {})], (_: GoString, _: int) => c)
  }

  const NAME: GoString := Literal("u")
  const BODY: K.Request := K.Request([], K.Nil)

  /** What the proxies hold, on that balance, for a user with one key. */
  function With(c: nat, p: P.State): State
  {
    State(map[[] := Key(NAME, false)], p, Queue(c))
  }

  /** k requests of our user have been admitted and have missed the cache. */
  function Admittees(c: nat, k: nat): State
  {
    With(c, ST.Crowd(BODY, NAME, k))
  }

  /** The run is fair and leads to t. */
  ghost predicate Reaches(c: nat, w: nat, run: seq<Action>, t: State)
  {
    Runs(Start(c), run) && FairRun(Start(c), run, NAME, c, w) && Exec(Start(c), run) == t
  }

  function Start(c: nat): State
  {
    State(map[], P.State([], map[]), Queue(c))
  }

  lemma {:induction false} FairSnoc(s: State, run: seq<Action>, a: Action, c: nat, w: nat)
    requires Runs(s, run) && FairRun(s, run, NAME, c, w)
    requires Enabled(Exec(s, run), a) && Fair(Exec(s, run), a, NAME, c, w)
    ensures Runs(s, run + [a]) && FairRun(s, run + [a], NAME, c, w)
    ensures Exec(s, run + [a]) == Step(Exec(s, run), a)
    decreases |run|
  {
    if run == [] {
      assert run + [a] == [a] && [a][1..] == [];
      assert Runs(Step(s, a), []) && FairRun(Step(s, a), [], NAME, c, w);
    } else {
      assert (run + [a])[1..] == run[1..] + [a];
      FairSnoc(Step(s, run[0]), run[1..], a, c, w);
    }
  }

  ghost predicate Reached(c: nat, w: nat, t: State)
  {
    exists run: seq<Action> :: Reaches(c, w, run, t)
  }

  lemma More(c: nat, w: nat, t: State, a: Action)
    requires Reached(c, w, t) && Enabled(t, a) && Fair(t, a, NAME, c, w)
    ensures Reached(c, w, Step(t, a))
  {
    var run: seq<Action> :| Reaches(c, w, run, t);
    FairSnoc(Start(c), run, a, c, w);
    assert Reaches(c, w, run + [a], Step(t, a));
  }

  lemma FewOutstanding(s: State)
    requires s.d.msgs == []
    ensures Outstanding(s, NAME) <= |s.p.reqs|
  {
    SumOfFirst(s.p.reqs, |s.p.reqs|, 1, Admitted(NAME));
  }

  // A step of a proxy while nothing has been published.
  lemma FrontMore(c: nat, w: nat, p: P.State, a: P.Action, q: P.State)
    requires Reached(c, w, With(c, p)) && Enabled(With(c, p), Front(a)) && P.Step(p, a) == q
    requires !a.Call? && |q.reqs| <= w
    ensures Reached(c, w, With(c, q))
  {
    FewOutstanding(With(c, q));
    More(c, w, With(c, p), Front(a));
  }

  // One more request, through the steps that StampedeTight gives it.
  lemma Admit(c: nat, w: nat, k: nat)
    requires k < w && Reached(c, w, Admittees(c, k))
    ensures Reached(c, w, Admittees(c, k + 1))
  {
    var j := ST.Joins(BODY, NAME, k);
    var x := P.Req([], BODY, None, None, false, P.Validating);
    ST.JoinSteps(BODY, NAME, k);
    var p1 := ST.Plus(BODY, NAME, k, x);
    var p2 := ST.Plus(BODY, NAME, k, x.(user := Some(NAME), pc := P.Checking));
    var p3 := ST.Plus(BODY, NAME, k, x.(user := Some(NAME), pc := P.Looking));
    FrontMore(c, w, ST.Crowd(BODY, NAME, k), j[0], p1);
    FrontMore(c, w, p1, j[1], p2);
    FrontMore(c, w, p2, j[2], p3);
    FrontMore(c, w, p3, j[3], ST.Crowd(BODY, NAME, k + 1));
  }

  lemma NobodyYet(c: nat, w: nat)
    ensures Reached(c, w, Admittees(c, 0))
  {
    var a := Issue([], NAME);
    assert Step(Start(c), a).keys == Admittees(c, 0).keys && Start(c).p.reqs == Admittees(c, 0).p.reqs;
    FewOutstanding(Admittees(c, 0));
    assert Reaches(c, w, [], Start(c));
    More(c, w, Start(c), a);
  }

  lemma {:induction false} Gather(c: nat, w: nat, k: nat)
    requires k <= w
    ensures Reached(c, w, Admittees(c, k))
  {
    if k == 0 {
      NobodyYet(c, w);
    } else {
      var j := k - 1;
      Gather(c, w, j);
      Admit(c, w, j);
    }
  }

  lemma {:induction false} AllAdmitted(c: nat, k: nat)
    ensures Outstanding(Admittees(c, k), NAME) == k
  {
    if k > 0 {
      AllAdmitted(c, k - 1);
      var fewer, x := Admittees(c, k - 1).p.reqs, ST.Waiting(BODY, NAME);
      assert Admittees(c, k).p.reqs == fewer + [x];
      SumAppend(fewer, x, Admitted(NAME));
    }
  }

  /** Whenever c*w >= 10, a fair run exists in which w requests are admitted on the same balance of
      10, and the reserve is exactly the bound of ReserveIsKept. */
  lemma ReserveBoundIsReached(c: nat, w: nat) returns (run: seq<Action>)
    requires 10 <= c * w
    ensures Initial(Start(c)) && Runs(Start(c), run) && FairRun(Start(c), run, NAME, c, w)
    ensures Reserve(Exec(Start(c), run), NAME, c) == Floor(c, w)
  {
    Gather(c, w, w);
    AllAdmitted(c, w);
    run :| Reaches(c, w, run, Admittees(c, w));
  }

  const RESP: P.Response := P.Response([], [], 1, 0, 0)
  const NOON: E.Stamp := E.Stamp(2024, 1, 1, 12, 0, 0, 0)

  /** Some fair run leads to t, with room for at most w. */
  ghost predicate Good(c: nat, w: nat, t: State)
  {
    Reached(c, w, t) && t.d.tariff == Queue(c).tariff && Outstanding(t, NAME) <= w
  }

  lemma GoodInv(c: nat, w: nat, t: State)
    requires Reached(c, w, t)
    ensures Inv(t, NAME, c, w)
  {
    var run: seq<Action> :| Reaches(c, w, run, t);
    InitialInv(Start(c), NAME, c, w);
    FairRunIsClean(Start(c), run, NAME, c, w);
    RunKeepsInv(Start(c), run, NAME, c, w);
  }

  /** A step without faults that admits nobody. */
  predicate Harmless(s: State, a: Action)
  {
    match a
    case Front(b) => !b.Arrive? && !b.Check?
    case Ship(_, _) => true
    case Back(b) => S.Clean(s.d, b) && !(b.Store? && b.a.Begin?)
    case _ => false
  }

  lemma GoodStep(c: nat, w: nat, t: State, a: Action)
    requires Good(c, w, t) && Enabled(t, a) && Harmless(t, a)
    ensures Good(c, w, Step(t, a))
  {
    GoodInv(c, w, t);
    HarmlessStep(t, a, c, w);
    More(c, w, t, a);
  }

  lemma HarmlessStep(t: State, a: Action, c: nat, w: nat)
    requires Inv(t, NAME, c, w) && Enabled(t, a) && Harmless(t, a)
    ensures Outstanding(Step(t, a), NAME) <= Outstanding(t, NAME) && Step(t, a).d.tariff == t.d.tariff
  {
    match a {
      case Front(b) => FrontAdmits(t, b, NAME);
      case Ship(_, _) => ShipMoves(t, a, NAME);
      case Back(b) =>
        BackOpen(t.d, b, NAME);
        A.QueueStepKeeps(t.d, b);
    }
  }

  lemma GoodBack(c: nat, w: nat, t: State, b: D.Action)
    requires Good(c, w, t) && D.Enabled(t.d, b) && S.Clean(t.d, b)
    requires !b.Publish? && !(b.Store? && b.a.Begin?)
    ensures Good(c, w, t.(d := D.Step(t.d, b)))
  {
    GoodStep(c, w, t, Back(b));
  }

  predicate Inner(bs: seq<D.Action>)
  {
    forall b :: b in bs ==> !b.Publish? && !(b.Store? && b.a.Begin?)
  }

  // Running the queue protocol alone; d is the end.
  lemma {:induction false} GoodBacks(c: nat, w: nat, t: State, bs: seq<D.Action>, d: D.State)
    requires Good(c, w, t) && D.Runs(t.d, bs) && S.CleanRun(t.d, bs) && D.Exec(t.d, bs) == d && Inner(bs)
    ensures Good(c, w, t.(d := d))
    decreases |bs|
  {
    if bs != [] {
      assert bs[0] in bs;
      GoodBack(c, w, t, bs[0]);
      GoodBacks(c, w, t.(d := D.Step(t.d, bs[0])), bs[1..], d);
    }
  }

  /** k of w requests have been served and charged; the others are admitted and wait. */
  predicate Round(t: State, c: nat, w: nat, k: nat)
  {
    && t.d.consumers == [D.Consumer(true, {})] && t.d.led.slots == [L.Idle]
    && L.Bal(t.d.led, NAME) == 10 - k * c
    && |t.p.reqs| == w
    && forall r :: k <= r < w ==> t.p.reqs[r] == ST.Waiting(BODY, NAME)
  }

  lemma FirstRound(c: nat, w: nat) returns (t: State)
    ensures Good(c, w, t) && Round(t, c, w, 0)
  {
    t := Admittees(c, w);
    Gather(c, w, w);
    FewOutstanding(t);
    GoodBack(c, w, t, D.Reconnect(0));
    t := t.(d := D.Step(t.d, D.Reconnect(0)));
  }

  function After(s: State, k: nat, x: P.Req): State
    requires k < |s.p.reqs|
  {
    s.(p := P.State(s.p.reqs[k := x], s.p.cache))
  }

  // The steps of a request that has missed, none of which touches the cache.
  lemma FetchSteps(s: State, k: nat)
    requires k < |s.p.reqs| && s.p.reqs[k] == ST.Waiting(BODY, NAME)
    ensures
      var x := ST.Served(BODY, NAME, RESP);
      var a1, a2 := Front(P.Call(k, Some(RESP))), Front(P.Save(k, false));
      && Enabled(s, a1) && Step(s, a1) == After(s, k, x)
      && Enabled(After(s, k, x), a2) && Step(After(s, k, x), a2) == After(s, k, x.(pc := P.Publishing))
  {
    var x := ST.Served(BODY, NAME, RESP);
    assert s.p.reqs[k := x][k := x.(pc := P.Publishing)] == s.p.reqs[k := x.(pc := P.Publishing)];
  }

  lemma Fetched(c: nat, w: nat, s: State, k: nat) returns (t: State)
    requires Good(c, w, s) && k < |s.p.reqs| && s.p.reqs[k] == ST.Waiting(BODY, NAME)
    ensures Good(c, w, t) && t == After(s, k, ST.Served(BODY, NAME, RESP).(pc := P.Publishing))
  {
    FetchSteps(s, k);
    GoodStep(c, w, s, Front(P.Call(k, Some(RESP))));
    GoodStep(c, w, After(s, k, ST.Served(BODY, NAME, RESP)), Front(P.Save(k, false)));
    t := After(s, k, ST.Served(BODY, NAME, RESP).(pc := P.Publishing));
  }

  lemma Shipped(s: State, k: nat)
    requires k < |s.p.reqs| && s.p.reqs[k] == ST.Served(BODY, NAME, RESP).(pc := P.Publishing)
    ensures Enabled(s, Ship(k, NOON))
    ensures
      var t := Step(s, Ship(k, NOON));
      && t.d.led == s.d.led && t.d.consumers == s.d.consumers && |t.p.reqs| == |s.p.reqs|
      && (forall r :: k < r < |t.p.reqs| ==> t.p.reqs[r] == s.p.reqs[r])
      && |t.d.msgs| == |s.d.msgs| + 1
      && var x := t.d.msgs[|s.d.msgs|];
         x.state.Ready? && x.event.Some? && x.event.value.user == NAME
  {
    ValidIsUnchanged(NAME);
  }

  /** Request k is answered, and its usage event reaches the broker. */
  lemma Served(c: nat, w: nat, s: State, k: nat) returns (t: State)
    requires Good(c, w, s) && Round(s, c, w, k) && k < w
    ensures Good(c, w, t)
    ensures t.d.led == s.d.led && t.d.consumers == s.d.consumers && |t.p.reqs| == w
    ensures forall r :: k < r < w ==> t.p.reqs[r] == s.p.reqs[r]
    ensures |t.d.msgs| == |s.d.msgs| + 1
    ensures
      var x := t.d.msgs[|s.d.msgs|];
      x.state.Ready? && x.event.Some? && x.event.value.user == NAME
  {
    var s1 := Fetched(c, w, s, k);
    Shipped(s1, k);
    GoodStep(c, w, s1, Ship(k, NOON));
    t := Step(s1, Ship(k, NOON));
  }

  /** ... and is charged, if the balance still covers it. */
  lemma Charged(c: nat, w: nat, s: State, k: nat) returns (t: State)
    requires Good(c, w, s) && Round(s, c, w, k) && k < w && (k + 1) * c <= 10
    ensures Good(c, w, t) && Round(t, c, w, k + 1)
  {
    var s1 := Served(c, w, s, k);
    assert (k + 1) * c == k * c + c;
    t := Paid(c, w, s1, |s.d.msgs|);
  }

  /** Message m, of our user, can be charged now. */
  predicate Due(d: D.State, m: nat)
  {
    && CanAttempt(d, m, 0) && d.msgs[m].event.value.user == NAME
    && d.consumers == [D.Consumer(true, {})] && d.led.slots == [L.Idle]
  }

  lemma Settling(d: D.State, m: nat)
    requires Due(d, m)
    ensures
      var e := Attempted(d, m, 0, 0);
      && D.Enabled(e, D.Settle(0)) && S.Clean(e, D.Settle(0))
      && var t := D.Step(e, D.Settle(0));
         && t.consumers == d.consumers && t.led.slots == [L.Idle]
         && L.Bal(t.led, NAME) == L.Bal(d.led, NAME) - D.OpOf(d, m).cost
  {
  }

  lemma AttemptIsInner(m: nat) returns (bs: seq<D.Action>)
    ensures bs == Attempt(m, 0, 0) && Inner(bs)
  {
    bs := Attempt(m, 0, 0);
  }

  // One undisturbed charge and its acknowledgement.
  lemma Paid(c: nat, w: nat, s: State, m: nat) returns (t: State)
    requires Good(c, w, s) && Due(s.d, m)
    ensures Good(c, w, t) && t.p == s.p
    ensures t.d.consumers == s.d.consumers && t.d.led.slots == [L.Idle]
    ensures L.Bal(t.d.led, NAME) == L.Bal(s.d.led, NAME) - c
  {
    Settling(s.d, m);
    AttemptRuns(s.d, m, 0, 0);
    var bs := AttemptIsInner(m);
    GoodBacks(c, w, s, bs, Attempted(s.d, m, 0, 0));
    t := s.(d := Attempted(s.d, m, 0, 0));
    GoodBack(c, w, t, D.Settle(0));
    t := t.(d := D.Step(t.d, D.Settle(0)));
  }

  lemma {:induction false} Rounds(c: nat, w: nat, k: nat) returns (t: State)
    requires k <= w && k * c <= 10
    ensures Good(c, w, t) && Round(t, c, w, k)
  {
    if k == 0 {
      t := FirstRound(c, w);
    } else {
      var j := k - 1;
      assert k * c == j * c + c;
      t := Rounds(c, w, j);
      t := Charged(c, w, t, j);
    }
  }

  /** The condition c*w <= 10 is needed: otherwise w requests admitted on a balance of 10 are served
      one after the other until the balance no longer covers one that was published. */
  lemma AdmittedIsRefused(c: nat, w: nat) returns (run: seq<Action>)
    requires 10 < c * w
    ensures Initial(Start(c)) && Runs(Start(c), run) && FairRun(Start(c), run, NAME, c, w)
    ensures AboutToCheck(Exec(Start(c), run), 0, NAME) && !L.Passes(Exec(Start(c), run).d.led, 0, true)
  {
    var k := LastCovered(c, w);
    var s := Rounds(c, w, k);
    var t := Served(c, w, s, k);
    t := Begun(c, w, t, |s.d.msgs|);
    run :| Reaches(c, w, run, t);
  }

  // The consumer takes message m.
  lemma Begun(c: nat, w: nat, s: State, m: nat) returns (t: State)
    requires Good(c, w, s) && s.d.consumers == [D.Consumer(true, {})] && s.d.led.slots == [L.Idle]
    requires m < |s.d.msgs| && s.d.msgs[m].state.Ready? && s.d.msgs[m].event.Some?
    requires s.d.msgs[m].event.value.user == NAME && L.Bal(s.d.led, NAME) < c
    ensures Reached(c, w, t) && AboutToCheck(t, 0, NAME) && !L.Passes(t.d.led, 0, true)
  {
    GoodBack(c, w, s, D.Deliver(m, 0));
    t := s.(d := D.Step(s.d, D.Deliver(m, 0)));
    GoodBack(c, w, t, D.Take(0, m));
    t := t.(d := D.Step(t.d, D.Take(0, m)));
  }

  lemma LastCovered(c: nat, w: nat) returns (k: nat)
    requires 10 < c * w
    ensures k < w && k * c <= 10 < k * c + c
  {
    k := 10 / c;
    Products(c, w, k);
  }

  /** Whatever is published for a user who never has more than w requests outstanding, each costing
      at most c, passes its check. */
  ghost predicate NeverRefused(c: nat, w: nat)
  {
    forall s: State, run: seq<Action>, u: GoString, i: nat |
      Initial(s) && 0 <= L.Bal(s.d.led, u) && Runs(s, run) && FairRun(s, run, u, c, w)
      && AboutToCheck(Exec(s, run), i, u) ::
      L.Passes(Exec(s, run).d.led, i, true)
  }

  /** The minimum balance of 10 is enough if and only if c*w <= 10. */
  lemma NeverRefusedIff(c: nat, w: nat)
    ensures NeverRefused(c, w) <==> c * w <= 10
  {
    if c * w <= 10 {
      forall s: State, run: seq<Action>, u: GoString, i: nat |
        Initial(s) && 0 <= L.Bal(s.d.led, u) && Runs(s, run) && FairRun(s, run, u, c, w)
        && AboutToCheck(Exec(s, run), i, u)
        ensures L.Passes(Exec(s, run).d.led, i, true)
      {
        AdmittedIsNeverRefused(s, run, u, c, w, i);
      }
    } else {
      var run := AdmittedIsRefused(c, w);
      assert 0 <= L.Bal(Start(c).d.led, NAME);
    }
  }
}
