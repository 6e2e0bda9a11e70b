/** The cache never changes an answer. */
module Transparency {
  import opened Text
  import opened Proxy
  import K = CacheKey

  /** Request src was given resp by the provider, for the key k. */
  predicate Given(s: State, k: string, resp: Response, src: nat)
  {
    src < |s.reqs| && s.reqs[src].resp == Some(resp) && KeyOf(s, src) == k
  }

  predicate ReqOk(s: State, r: nat)
    requires r < |s.reqs|
  {
    var x := s.reqs[r];
    && (x.pc.Answered? ==> Given(s, KeyOf(s, r), x.pc.resp, x.pc.src) && (x.pc.src == r <==> x.resp.Some?))
    && (x.pc.Caching? || x.pc.Publishing? ==> x.resp.Some?)
    && (x.pc.Validating? || x.pc.Checking? || x.pc.Looking? || x.pc.Calling? || x.pc.Failed? ==> x.resp.None?)
    && (x.published ==> x.pc.Answered? && x.pc.src == r)
    && (!x.pc.Validating? && !x.pc.Failed? && !x.pc.Gone? ==> x.user.Some?)
    && (x.resp.Some? ==> x.user.Some?)
    && (x.pc.Validating? ==> x.user.None?)
  }

  ghost predicate Inv(s: State)
  {
    && (forall k :: k in s.cache ==> Given(s, k, s.cache[k].resp, s.cache[k].src))
    && (forall r :: 0 <= r < |s.reqs| ==> ReqOk(s, r))
  }

  predicate Initial(s: State)
  {
    s.reqs == [] && s.cache == map[]
  }

  lemma StepKeepsGiven(s: State, a: Action, k: string, resp: Response, src: nat)
    requires Inv(s) && Enabled(s, a) && Given(s, k, resp, src)
    ensures Given(Step(s, a), k, resp, src)
  {
    assert ReqOk(s, src);
  }

  lemma StepKeepsEntry(s: State, a: Action, k: string)
    requires Inv(s) && Enabled(s, a) && k in Step(s, a).cache
    ensures Given(Step(s, a), k, Step(s, a).cache[k].resp, Step(s, a).cache[k].src)
  {
    if k in s.cache && s.cache[k] == Step(s, a).cache[k] {
      StepKeepsGiven(s, a, k, s.cache[k].resp, s.cache[k].src);
    }
  }

  lemma OtherKeepsReq(s: State, a: Action, r: nat)
    requires Inv(s) && Enabled(s, a) && r < |s.reqs|
    requires a.Arrive? || a.Expire? || a.Flush? || a.r != r
    ensures r < |Step(s, a).reqs| && ReqOk(Step(s, a), r)
  {
    assert ReqOk(s, r);
    assert Step(s, a).reqs[r] == s.reqs[r];
    if s.reqs[r].pc.Answered? {
      StepKeepsGiven(s, a, KeyOf(s, r), s.reqs[r].pc.resp, s.reqs[r].pc.src);
    }
  }

  lemma OwnKeepsReq(s: State, a: Action, r: nat)
    requires Inv(s) && Enabled(s, a) && r < |s.reqs|
    requires !a.Arrive? && !a.Expire? && !a.Flush? && a.r == r
    ensures r < |Step(s, a).reqs| && ReqOk(Step(s, a), r)
  {
    var t := Step(s, a);
    assert ReqOk(s, r);
    if t.reqs[r].pc.Answered? && t.reqs[r].pc.src != r {
      StepKeepsGiven(s, a, KeyOf(s, r), t.reqs[r].pc.resp, t.reqs[r].pc.src);
    }
  }

  lemma StepKeepsReq(s: State, a: Action, r: nat)
    requires Inv(s) && Enabled(s, a) && r < |Step(s, a).reqs|
    ensures ReqOk(Step(s, a), r)
  {
    if r < |s.reqs| {
      if !a.Arrive? && !a.Expire? && !a.Flush? && a.r == r {
        OwnKeepsReq(s, a, r);
      } else {
        OtherKeepsReq(s, a, r);
      }
    }
  }

  lemma StepKeepsInv(s: State, a: Action)
    requires Inv(s) && Enabled(s, a)
    ensures Inv(Step(s, a))
  {
    var t := Step(s, a);
    forall k | k in t.cache ensures Given(t, k, t.cache[k].resp, t.cache[k].src) {
      StepKeepsEntry(s, a, k);
    }
    forall r | 0 <= r < |t.reqs| ensures ReqOk(t, r) {
      StepKeepsReq(s, a, r);
    }
  }

  lemma {:induction false} RunKeepsInv(s: State, run: seq<Action>)
    requires Inv(s) && Runs(s, run)
    ensures Inv(Exec(s, run))
    decreases |run|
  {
    if run != [] {
      StepKeepsInv(s, run[0]);
      RunKeepsInv(Step(s, run[0]), run[1..]);
    }
  }

  /** Over every interleaving of requests, flushes, expiries and failed cache calls: a cached entry
      was returned by the provider to a request with that key, and so was every answer. */
  lemma CacheOnlyRepeats(s: State, run: seq<Action>)
    requires Initial(s) && Runs(s, run)
    ensures
      var t := Exec(s, run);
      && (forall k :: k in t.cache ==> Given(t, k, t.cache[k].resp, t.cache[k].src))
      && (forall r :: 0 <= r < |t.reqs| && t.reqs[r].pc.Answered? ==>
            Given(t, KeyOf(t, r), t.reqs[r].pc.resp, t.reqs[r].pc.src))
  {
    RunKeepsInv(s, run);
    var t := Exec(s, run);
    forall r | 0 <= r < |t.reqs| && t.reqs[r].pc.Answered?
      ensures Given(t, KeyOf(t, r), t.reqs[r].pc.resp, t.reqs[r].pc.src)
    {
      assert ReqOk(t, r);
    }
  }

  /** If the provider is a function of the request as it is written, every answer, cached or not, is the
      one the provider would have given to this request itself. */
  lemma AnswersAreAsWritten(s: State, run: seq<Action>, provider: K.Request -> Response, r: nat)
    requires Initial(s) && Runs(s, run) && r < |Exec(s, run).reqs| && Exec(s, run).reqs[r].pc.Answered?
    requires forall q :: 0 <= q < |Exec(s, run).reqs| && Exec(s, run).reqs[q].resp.Some? ==>
               Exec(s, run).reqs[q].resp.value == provider(K.BlurredRequest(Exec(s, run).reqs[q].body))
    ensures Exec(s, run).reqs[r].pc.resp == provider(K.BlurredRequest(Exec(s, run).reqs[r].body))
  {
    CacheOnlyRepeats(s, run);
    var t := Exec(s, run);
    K.SameKeyIffSameBlurred(t.reqs[r].body, t.reqs[t.reqs[r].pc.src].body);
  }

  /** If the provider is a function of the request, every answer to a request of valid text is the one
      the provider would have given to it: the cached proxy answers as the uncached one. */
  lemma AnswersAreTheProviders(s: State, run: seq<Action>, provider: K.Request -> Response, r: nat)
    requires Initial(s) && Runs(s, run) && r < |Exec(s, run).reqs| && Exec(s, run).reqs[r].pc.Answered?
    requires K.ValidRequest(Exec(s, run).reqs[r].body)
    requires forall q :: 0 <= q < |Exec(s, run).reqs| && Exec(s, run).reqs[q].resp.Some? ==>
               Exec(s, run).reqs[q].resp.value == provider(Exec(s, run).reqs[q].body)
    ensures Exec(s, run).reqs[r].pc.resp == provider(Exec(s, run).reqs[r].body)
  {
    CacheOnlyRepeats(s, run);
    var t := Exec(s, run);
    K.ValidRequestsHaveOwnKeys(t.reqs[r].body, t.reqs[t.reqs[r].pc.src].body);
  }
}
