/** What each step of a request and of the cache does, told from the outside. */
module ProxySteps {
  import opened Text
  import opened Proxy
  import K = CacheKey

  /** From s to t only request r has moved, and only in these respects: it is now y. */
  predicate Becomes(s: State, t: State, r: nat, y: Req)
  {
    && r < |s.reqs| == |t.reqs| && t.reqs[r] == y
    && forall q :: 0 <= q < |s.reqs| && q != r ==> t.reqs[q] == s.reqs[q]
  }

  lemma ArrivalIsAppended(s: State, key: GoString, body: K.Request)
    ensures Enabled(s, Arrive(key, body)) && Step(s, Arrive(key, body)).cache == s.cache
    ensures Step(s, Arrive(key, body)).reqs == s.reqs + [Req(key, body, None, None, false, Validating)]
  {
  }

  lemma KeyDecides(s: State, r: nat, user: Option<GoString>)
    requires At(s, r, Validating)
    ensures
      var t := Step(s, Validate(r, user));
      && Enabled(s, Validate(r, user)) && t.cache == s.cache
      && Becomes(s, t, r, if user.Some? then s.reqs[r].(user := user, pc := Checking) else s.reqs[r].(pc := Failed))
  {
  }

  /** A balance of 10 is enough, 9 is not, and an error refuses. */
  lemma BalanceDecides(s: State, r: nat, balance: Option<int>)
    requires At(s, r, Checking)
    ensures
      var t := Step(s, Check(r, balance));
      && Enabled(s, Check(r, balance)) && t.cache == s.cache
      && Becomes(s, t, r, s.reqs[r].(pc := if balance.Some? && 10 <= balance.value then Looking else Failed))
  {
  }

  /** A hit repeats the cached response; a miss, or a failed call to Redis, goes to the provider. */
  lemma CacheDecides(s: State, r: nat, up: bool)
    requires At(s, r, Looking)
    ensures
      var t, k := Step(s, Lookup(r, up)), K.KeyText(s.reqs[r].body);
      && Enabled(s, Lookup(r, up)) && t.cache == s.cache
      && Becomes(s, t, r, s.reqs[r].(
           pc := if up && k in s.cache then Answered(s.cache[k].resp, s.cache[k].src) else Calling))
  {
  }

  lemma ProviderDecides(s: State, r: nat, resp: Option<Response>)
    requires At(s, r, Calling)
    ensures
      var t := Step(s, Call(r, resp));
      && Enabled(s, Call(r, resp)) && t.cache == s.cache
      && Becomes(s, t, r, if resp.Some? then s.reqs[r].(resp := resp, pc := Caching) else s.reqs[r].(pc := Failed))
  {
  }

  /** A Set that succeeds replaces the entry of this request's key and no other. */
  lemma SetStores(s: State, r: nat, up: bool)
    requires At(s, r, Caching) && s.reqs[r].resp.Some?
    ensures
      var t, k := Step(s, Save(r, up)), K.KeyText(s.reqs[r].body);
      && Enabled(s, Save(r, up)) && Becomes(s, t, r, s.reqs[r].(pc := Publishing))
      && (up ==> k in t.cache && t.cache[k] == Entry(s.reqs[r].resp.value, r))
      && (forall j :: j != k || !up ==> (j in t.cache <==> j in s.cache) && (j in s.cache ==> t.cache[j] == s.cache[j]))
  {
  }

  /** The request is answered with its own response whether or not the publish succeeds. */
  lemma PublishAnswers(s: State, r: nat, up: bool)
    requires At(s, r, Publishing) && s.reqs[r].resp.Some?
    ensures
      var t := Step(s, Publish(r, up));
      && Enabled(s, Publish(r, up)) && t.cache == s.cache
      && Becomes(s, t, r, s.reqs[r].(published := up, pc := Answered(s.reqs[r].resp.value, r)))
  {
  }

  lemma AbandonEnds(s: State, r: nat)
    requires r < |s.reqs| && !s.reqs[r].pc.Answered? && !s.reqs[r].pc.Failed? && !s.reqs[r].pc.Gone?
    ensures
      var t := Step(s, Abandon(r));
      Enabled(s, Abandon(r)) && t.cache == s.cache && Becomes(s, t, r, s.reqs[r].(pc := Gone))
  {
  }

  lemma FlushClears(s: State)
    ensures Enabled(s, Flush) && Step(s, Flush).cache == map[] && Step(s, Flush).reqs == s.reqs
  {
  }

  lemma ExpiryRemovesOne(s: State, k: string)
    requires k in s.cache
    ensures
      var t := Step(s, Expire(k));
      && Enabled(s, Expire(k)) && t.reqs == s.reqs && k !in t.cache
      && (forall j :: j != k ==> (j in t.cache <==> j in s.cache) && (j in s.cache ==> t.cache[j] == s.cache[j]))
  {
  }

  /** No Set for k succeeds. */
  predicate NeverSaved(s: State, run: seq<Action>, k: string)
    requires Runs(s, run)
    decreases |run|
  {
    run == [] ||
    (&& !(run[0].Save? && run[0].up && K.KeyText(s.reqs[run[0].r].body) == k)
     && NeverSaved(Step(s, run[0]), run[1..], k))
  }

  lemma {:induction false} StaysForgotten(s: State, run: seq<Action>, k: string)
    requires Runs(s, run) && NeverSaved(s, run, k) && k !in s.cache
    ensures k !in Exec(s, run).cache
    decreases |run|
  {
    if run != [] {
      StaysForgotten(Step(s, run[0]), run[1..], k);
    }
  }

  /** After a flush every lookup goes to the provider, until a Set for its key succeeds. */
  lemma FlushForgets(s: State, run: seq<Action>, r: nat, up: bool)
    requires Runs(Step(s, Flush), run) && At(Exec(Step(s, Flush), run), r, Looking)
    requires NeverSaved(Step(s, Flush), run, K.KeyText(Exec(Step(s, Flush), run).reqs[r].body))
    ensures
      var t := Exec(Step(s, Flush), run);
      Enabled(t, Lookup(r, up)) && Becomes(t, Step(t, Lookup(r, up)), r, t.reqs[r].(pc := Calling))
  {
    var t := Exec(Step(s, Flush), run);
    StaysForgotten(Step(s, Flush), run, K.KeyText(t.reqs[r].body));
  }

  /** After an entry has expired, so does every lookup of its key. */
  lemma ExpiryForgets(s: State, k: string, run: seq<Action>, r: nat, up: bool)
    requires k in s.cache && Runs(Step(s, Expire(k)), run) && NeverSaved(Step(s, Expire(k)), run, k)
    requires At(Exec(Step(s, Expire(k)), run), r, Looking)
    requires K.KeyText(Exec(Step(s, Expire(k)), run).reqs[r].body) == k
    ensures
      var t := Exec(Step(s, Expire(k)), run);
      Enabled(t, Lookup(r, up)) && Becomes(t, Step(t, Lookup(r, up)), r, t.reqs[r].(pc := Calling))
  {
    StaysForgotten(Step(s, Expire(k)), run, k);
  }

  /** Nothing happens to the entry of k. */
  predicate LeftAlone(s: State, run: seq<Action>, k: string)
    requires Runs(s, run)
    decreases |run|
  {
    run == [] ||
    (&& !(run[0].Save? && run[0].up && K.KeyText(s.reqs[run[0].r].body) == k)
     && !run[0].Flush? && run[0] != Expire(k) && LeftAlone(Step(s, run[0]), run[1..], k))
  }

  lemma {:induction false} EntryStays(s: State, run: seq<Action>, k: string)
    requires Runs(s, run) && LeftAlone(s, run, k) && k in s.cache
    ensures k in Exec(s, run).cache && Exec(s, run).cache[k] == s.cache[k]
    decreases |run|
  {
    if run != [] {
      EntryStays(Step(s, run[0]), run[1..], k);
    }
  }

  /** What one request has saved answers every later one with the same key, until the entry is replaced,
      flushed or expired. */
  lemma SavedIsServed(s: State, q: nat, run: seq<Action>, r: nat)
    requires At(s, q, Caching) && s.reqs[q].resp.Some?
    requires Runs(Step(s, Save(q, true)), run)
    requires LeftAlone(Step(s, Save(q, true)), run, K.KeyText(s.reqs[q].body))
    requires At(Exec(Step(s, Save(q, true)), run), r, Looking)
    requires K.KeyText(Exec(Step(s, Save(q, true)), run).reqs[r].body) == K.KeyText(s.reqs[q].body)
    ensures
      var t := Exec(Step(s, Save(q, true)), run);
      Becomes(t, Step(t, Lookup(r, true)), r, t.reqs[r].(pc := Answered(s.reqs[q].resp.value, q)))
  {
    SetStores(s, q, true);
    EntryStays(Step(s, Save(q, true)), run, K.KeyText(s.reqs[q].body));
  }
}
