/** The stampede bound is reached: n requests that all miss before any of them saves. */
module StampedeTight {
  import opened Sums
  import opened Text
  import opened Proxy
  import opened Stampede
  import K = CacheKey

  function Waiting(body: K.Request, u: GoString): Req
  {
    Req([], body, Some(u), None, false, Calling)
  }

  function Served(body: K.Request, u: GoString, resp: Response): Req
  {
    Req([], body, Some(u), Some(resp), false, Caching)
  }

  /** k requests for the same body have missed. */
  function Crowd(body: K.Request, u: GoString, k: nat): State
  {
    State(seq(k, _ => Waiting(body, u)), map[])
  }

  /** The first k of n waiting requests have their answer. */
  function HalfServed(body: K.Request, u: GoString, resp: Response, n: nat, k: nat): State
  {
    State(seq(n, i => if i < k then Served(body, u, resp) else Waiting(body, u)), map[])
  }

  function Joins(body: K.Request, u: GoString, r: nat): seq<Action>
  {
    [Arrive([], body), Validate(r, Some(u)), Check(r, Some(MIN_BALANCE)), Lookup(r, true)]
  }

  function AllJoin(body: K.Request, u: GoString, k: nat): seq<Action>
  {
    if k == 0 then [] else AllJoin(body, u, k - 1) + Joins(body, u, k - 1)
  }

  function AllCall(resp: Response, k: nat): seq<Action>
  {
    if k == 0 then [] else AllCall(resp, k - 1) + [Call(k - 1, Some(resp))]
  }

  // Extending a bounded run by one step that keeps the bound.
  lemma {:induction false} BoundedSnoc(s: State, run: seq<Action>, a: Action, key: string, n: nat)
    requires Runs(s, run) && Bounded(s, run, key, n) && Enabled(Exec(s, run), a) && Steady(Exec(s, run), a, key)
    requires |Step(Exec(s, run), a).reqs| <= n
    ensures Runs(s, run + [a]) && Exec(s, run + [a]) == Step(Exec(s, run), a) && Bounded(s, run + [a], key, n)
    ensures CallsFor(s, run + [a], key) == CallsFor(s, run, key) + CallFor(Exec(s, run), a, key)
    decreases |run|
  {
    RunsSnoc(s, run, a);
    if run == [] {
      assert run + [a] == [a] && [a][1..] == [];
      SumOfFirst(Step(s, a).reqs, |Step(s, a).reqs|, 1, InFlight(key));
      assert Bounded(Step(s, a), [], key, n) && CallsFor(Step(s, a), [], key) == 0;
    } else {
      assert (run + [a])[1..] == run[1..] + [a];
      BoundedSnoc(Step(s, run[0]), run[1..], a, key, n);
    }
  }

  /** A crowd of k, and one more request that is x by now. */
  function Plus(body: K.Request, u: GoString, k: nat, x: Req): State
  {
    State(Crowd(body, u, k).reqs + [x], map[])
  }

  lemma PlusStep(body: K.Request, u: GoString, k: nat, x: Req, a: Action, y: Req)
    requires a.Validate? || a.Check? || a.Lookup?
    requires a.r == k && Enabled(Plus(body, u, k, x), a) && Advance(Plus(body, u, k, x), k, a) == y
    ensures Step(Plus(body, u, k, x), a) == Plus(body, u, k, y)
  {
    var c := Crowd(body, u, k).reqs;
    assert (c + [x])[k := y] == c + [y];
  }

  lemma JoinSteps(body: K.Request, u: GoString, k: nat)
    ensures
      var j := Joins(body, u, k);
      var x := Req([], body, None, None, false, Validating);
      var s1, s2 := Plus(body, u, k, x), Plus(body, u, k, x.(user := Some(u), pc := Checking));
      var s3 := Plus(body, u, k, x.(user := Some(u), pc := Looking));
      && Enabled(Crowd(body, u, k), j[0]) && Step(Crowd(body, u, k), j[0]) == s1
      && Enabled(s1, j[1]) && Step(s1, j[1]) == s2
      && Enabled(s2, j[2]) && Step(s2, j[2]) == s3
      && Enabled(s3, j[3]) && Step(s3, j[3]) == Crowd(body, u, k + 1)
  {
    var x := Req([], body, None, None, false, Validating);
    var x2 := x.(user := Some(u), pc := Checking);
    var x3 := x2.(pc := Looking);
    PlusStep(body, u, k, x, Validate(k, Some(u)), x2);
    PlusStep(body, u, k, x2, Check(k, Some(MIN_BALANCE)), x3);
    PlusStep(body, u, k, x3, Lookup(k, true), Waiting(body, u));
    assert Plus(body, u, k, Waiting(body, u)).reqs == Crowd(body, u, k + 1).reqs;
  }

  // A bounded run to t in which no call for the key is made.
  predicate Gathers(s: State, run: seq<Action>, key: string, n: nat, t: State)
  {
    Runs(s, run) && Bounded(s, run, key, n) && Exec(s, run) == t && CallsFor(s, run, key) == 0
  }

  // Extending it by a step that is not a call.
  lemma Quietly(s: State, run: seq<Action>, a: Action, key: string, n: nat, t: State, v: State)
    requires Gathers(s, run, key, n, t)
    requires Enabled(t, a) && Step(t, a) == v && |v.reqs| <= n
    requires a.Arrive? || a.Validate? || a.Check? || (a.Lookup? && a.up)
    ensures Gathers(s, run + [a], key, n, v)
  {
    BoundedSnoc(s, run, a, key, n);
  }

  // Two steps at a time.
  lemma TwoMore(s: State, run: seq<Action>, a: Action, b: Action, key: string, n: nat, t: State, u: State, v: State)
    requires Gathers(s, run, key, n, t)
    requires Enabled(t, a) && Step(t, a) == u && |u.reqs| <= n && Enabled(u, b) && Step(u, b) == v && |v.reqs| <= n
    requires a.Arrive? || a.Check?
    requires b.Validate? || (b.Lookup? && b.up)
    ensures Gathers(s, run + [a] + [b], key, n, v)
  {
    Quietly(s, run, a, key, n, t, u);
    Quietly(s, run + [a], b, key, n, u, v);
  }

  lemma JoinOne(s: State, run: seq<Action>, body: K.Request, u: GoString, key: string, n: nat, k: nat)
    requires Gathers(s, run, key, n, Crowd(body, u, k)) && k < n
    ensures Gathers(s, run + Joins(body, u, k), key, n, Crowd(body, u, k + 1))
  {
    var j := Joins(body, u, k);
    JoinSteps(body, u, k);
    var x := Req([], body, None, None, false, Validating);
    var s1, s2 := Plus(body, u, k, x), Plus(body, u, k, x.(user := Some(u), pc := Checking));
    var s3 := Plus(body, u, k, x.(user := Some(u), pc := Looking));
    TwoMore(s, run, j[0], j[1], key, n, Crowd(body, u, k), s1, s2);
    TwoMore(s, run + [j[0]] + [j[1]], j[2], j[3], key, n, s2, s3, Crowd(body, u, k + 1));
    assert run + [j[0]] + [j[1]] + [j[2]] + [j[3]] == run + j;
  }

  lemma {:induction false} CrowdGathers(body: K.Request, u: GoString, n: nat, k: nat)
    requires k <= n
    ensures Gathers(Crowd(body, u, 0), AllJoin(body, u, k), K.KeyText(body), n, Crowd(body, u, k))
  {
    var s, key := Crowd(body, u, 0), K.KeyText(body);
    if k > 0 {
      CrowdGathers(body, u, n, k - 1);
      JoinOne(s, AllJoin(body, u, k - 1), body, u, key, n, k - 1);
    }
  }

  lemma CallStep(body: K.Request, u: GoString, resp: Response, n: nat, k: nat)
    requires k < n
    ensures
      var s, a := HalfServed(body, u, resp, n, k), Call(k, Some(resp));
      && Enabled(s, a) && Step(s, a) == HalfServed(body, u, resp, n, k + 1)
      && s.reqs[k].body == body
  {
    var s, a := HalfServed(body, u, resp, n, k), Call(k, Some(resp));
    assert s.reqs[k] == Waiting(body, u);
    var t, h := Step(s, a).reqs, HalfServed(body, u, resp, n, k + 1).reqs;
    assert |t| == |h| == n;
    forall i | 0 <= i < n ensures t[i] == h[i] {
      if i == k {
        assert t[k] == Advance(s, k, a) == Served(body, u, resp) == h[k];
      } else {
        assert t[i] == s.reqs[i] == (if i < k then Served(body, u, resp) else Waiting(body, u));
      }
    }
    assert t == h;
  }

  lemma CallOnce(s: State, run: seq<Action>, a: Action, key: string, n: nat, t: State, v: State)
    requires Runs(s, run) && Bounded(s, run, key, n) && Exec(s, run) == t
    requires Enabled(t, a) && Step(t, a) == v && |v.reqs| <= n && a.Call? && a.resp.Some? && KeyOf(t, a.r) == key
    ensures Runs(s, run + [a]) && Exec(s, run + [a]) == v && Bounded(s, run + [a], key, n)
    ensures CallsFor(s, run + [a], key) == CallsFor(s, run, key) + 1
  {
    BoundedSnoc(s, run, a, key, n);
  }

  predicate Serving(body: K.Request, u: GoString, resp: Response, key: string, n: nat, k: nat, run: seq<Action>)
  {
    && Runs(Crowd(body, u, 0), run) && Exec(Crowd(body, u, 0), run) == HalfServed(body, u, resp, n, k)
    && Bounded(Crowd(body, u, 0), run, key, n) && CallsFor(Crowd(body, u, 0), run, key) == k
  }

  lemma ServeOne(body: K.Request, u: GoString, resp: Response, key: string, n: nat, k: nat, run: seq<Action>)
    requires k < n && Serving(body, u, resp, key, n, k, run) && key == K.KeyText(body)
    ensures Serving(body, u, resp, key, n, k + 1, run + [Call(k, Some(resp))])
  {
    CallStep(body, u, resp, n, k);
    CallOnce(Crowd(body, u, 0), run, Call(k, Some(resp)), key, n,
             HalfServed(body, u, resp, n, k), HalfServed(body, u, resp, n, k + 1));
  }

  lemma {:induction false} CrowdIsServed(
    body: K.Request, u: GoString, resp: Response, key: string, n: nat, k: nat, run: seq<Action>)
    requires k <= n && key == K.KeyText(body) && Serving(body, u, resp, key, n, 0, run)
    ensures Serving(body, u, resp, key, n, k, run + AllCall(resp, k))
  {
    if k == 0 {
      assert run + AllCall(resp, 0) == run;
    } else {
      CrowdIsServed(body, u, resp, key, n, k - 1, run);
      ServeOne(body, u, resp, key, n, k - 1, run + AllCall(resp, k - 1));
      assert run + AllCall(resp, k - 1) + [Call(k - 1, Some(resp))] == run + AllCall(resp, k);
    }
  }

  /** For every n some run from the empty cache, with at most n requests in flight and every cache
      call succeeding, makes exactly n successful provider calls for one key. */
  lemma StampedeBoundIsReached(body: K.Request, u: GoString, resp: Response, n: nat) returns (run: seq<Action>)
    ensures Runs(State([], map[]), run) && Bounded(State([], map[]), run, K.KeyText(body), n)
    ensures CallsFor(State([], map[]), run, K.KeyText(body)) == n
  {
    run := AllJoin(body, u, n) + AllCall(resp, n);
    assert Crowd(body, u, 0).reqs == [];
    assert Crowd(body, u, 0) == State([], map[]);
    CrowdGathers(body, u, n, n);
    assert Crowd(body, u, n).reqs == HalfServed(body, u, resp, n, 0).reqs;
    CrowdIsServed(body, u, resp, K.KeyText(body), n, n, AllJoin(body, u, n));
  }
}
