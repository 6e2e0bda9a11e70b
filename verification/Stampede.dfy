/** How many provider calls one cache key can cause while its entry is neither flushed nor expired. */
module Stampede {
  import opened Sums
  import opened Proxy
  import opened Text
  import K = CacheKey

  function InFlight(k: string): Req -> int
  {
    (x: Req) => if !Over(x.pc) && K.KeyText(x.body) == k then 1 else 0
  }

  /** Missed the cache, has not called yet. */
  function Missed(k: string): Req -> int
  {
    (x: Req) => if x.pc.Calling? && K.KeyText(x.body) == k then 1 else 0
  }

  /** Has its answer, has not saved it yet. */
  function Unsaved(k: string): Req -> int
  {
    (x: Req) => if x.pc.Caching? && K.KeyText(x.body) == k then 1 else 0
  }

  /** The entry of k is left alone, and cache calls for k succeed: in particular nobody gives up
      between the answer and its Set. */
  predicate Steady(s: State, a: Action, k: string)
    requires Enabled(s, a)
  {
    match a
    case Flush => false
    case Expire(j) => j != k
    case Lookup(r, up) => KeyOf(s, r) == k ==> up
    case Save(r, up) => KeyOf(s, r) == k ==> up
    case Abandon(r) => KeyOf(s, r) == k ==> !s.reqs[r].pc.Caching?
    case _ => true
  }

  /** At most n requests for k are in flight, at every moment. */
  predicate Bounded(s: State, run: seq<Action>, k: string, n: nat)
    requires Runs(s, run)
    decreases |run|
  {
    && SumOf(s.reqs, InFlight(k)) <= n
    && (run != [] ==> Steady(s, run[0], k) && Bounded(Step(s, run[0]), run[1..], k, n))
  }

  /** A successful provider call for k. */
  function CallFor(s: State, a: Action, k: string): nat
    requires Enabled(s, a)
  {
    if a.Call? && a.resp.Some? && KeyOf(s, a.r) == k then 1 else 0
  }

  function CallsFor(s: State, run: seq<Action>, k: string): nat
    requires Runs(s, run)
    decreases |run|
  {
    if run == [] then 0 else CallFor(s, run[0], k) + CallsFor(Step(s, run[0]), run[1..], k)
  }

  /** `done` calls were made; until the first answer is saved, all their makers are still at hand. */
  predicate Account(s: State, k: string, n: nat, done: nat)
  {
    && done + SumOf(s.reqs, Missed(k)) <= n
    && (k !in s.cache ==> done <= SumOf(s.reqs, Unsaved(k)))
  }

  /** The request that a moves, if it is one that is there already. */
  predicate Moves(s: State, a: Action)
  {
    !a.Arrive? && !a.Expire? && !a.Flush? && a.r < |s.reqs|
  }

  lemma StepSums(s: State, a: Action, f: Req -> int)
    requires Enabled(s, a)
    ensures Moves(s, a) ==> SumOf(Step(s, a).reqs, f) == SumOf(s.reqs, f) - f(s.reqs[a.r]) + f(Advance(s, a.r, a))
    ensures a.Arrive? ==>
      SumOf(Step(s, a).reqs, f) == SumOf(s.reqs, f) + f(Req(a.key, a.body, None, None, false, Validating))
    ensures a.Expire? || a.Flush? ==> SumOf(Step(s, a).reqs, f) == SumOf(s.reqs, f)
  {
    if Moves(s, a) {
      SumUpdate(s.reqs, a.r, Advance(s, a.r, a), f);
    } else if a.Arrive? {
      SumAppend(s.reqs, Req(a.key, a.body, None, None, false, Validating), f);
    }
  }

  lemma MissedAndUnsaved(s: State, k: string)
    ensures SumOf(s.reqs, Missed(k)) + SumOf(s.reqs, Unsaved(k)) <= SumOf(s.reqs, InFlight(k))
  {
    forall i | 0 <= i < |s.reqs| ensures Missed(k)(s.reqs[i]) + Unsaved(k)(s.reqs[i]) <= InFlight(k)(s.reqs[i]) {
    }
    SumPair(s.reqs, Missed(k), Unsaved(k), InFlight(k));
  }

  lemma StepAccounts(s: State, a: Action, k: string, n: nat, done: nat)
    requires Enabled(s, a) && Steady(s, a, k) && Account(s, k, n, done) && AnswersReady(s)
    requires SumOf(Step(s, a).reqs, InFlight(k)) <= n
    ensures Account(Step(s, a), k, n, done + CallFor(s, a, k))
  {
    MissedAndUnsaved(Step(s, a), k);
    StepSums(s, a, Missed(k));
    StepSums(s, a, Unsaved(k));
  }

  /** An answer is there to be saved. */
  predicate AnswersReady(s: State)
  {
    forall r :: 0 <= r < |s.reqs| ==> (s.reqs[r].pc.Caching? ==> s.reqs[r].resp.Some?)
  }

  lemma {:induction false} CallsAccounted(s: State, run: seq<Action>, k: string, n: nat, done: nat)
    requires Runs(s, run) && Bounded(s, run, k, n) && Account(s, k, n, done) && AnswersReady(s)
    ensures done + CallsFor(s, run, k) <= n
    decreases |run|
  {
    if run == [] {
      SumNonNegative(s.reqs, Missed(k));
    } else {
      StepAccounts(s, run[0], k, n, done);
      CallsAccounted(Step(s, run[0]), run[1..], k, n, done + CallFor(s, run[0], k));
    }
  }

  /** From any state, as long as the entry of k is neither flushed nor expired and cache calls
      succeed, at most as many provider calls succeed for k as requests for k are ever in flight at
      once; with one request at a time, at most one. */
  lemma StampedeBound(s: State, run: seq<Action>, k: string, n: nat)
    requires Runs(s, run) && Bounded(s, run, k, n) && AnswersReady(s)
    ensures CallsFor(s, run, k) <= n
  {
    MissedAndUnsaved(s, k);
    SumNonNegative(s.reqs, Unsaved(k));
    CallsAccounted(s, run, k, n, 0);
  }

  /** An answer for k was given: it is cached, or about to be. */
  predicate Fed(s: State, k: string)
  {
    k in s.cache || 0 < SumOf(s.reqs, Unsaved(k))
  }

  lemma StepFeeds(s: State, a: Action, k: string)
    requires Enabled(s, a) && Fed(Step(s, a), k)
    ensures Fed(s, k) || CallFor(s, a, k) == 1
  {
    StepSums(s, a, Unsaved(k));
    if a.Save? && KeyOf(s, a.r) == k {
      SumDominates(s.reqs, a.r, Unsaved(k));
    }
  }

  lemma {:induction false} FedByCalls(s: State, run: seq<Action>, k: string)
    requires Runs(s, run) && Fed(Exec(s, run), k)
    ensures Fed(s, k) || 1 <= CallsFor(s, run, k)
    decreases |run|
  {
    if run != [] {
      FedByCalls(Step(s, run[0]), run[1..], k);
      if Fed(Step(s, run[0]), k) {
        StepFeeds(s, run[0], k);
      }
    }
  }

  /** One request at a time for a key that is neither cached nor about to be: if it is cached in the
      end, exactly one provider call was made for it. */
  lemma SequentialRequestsCallOnce(s: State, run: seq<Action>, k: string)
    requires Runs(s, run) && Bounded(s, run, k, 1) && AnswersReady(s)
    requires !Fed(s, k) && k in Exec(s, run).cache
    ensures CallsFor(s, run, k) == 1
  {
    StampedeBound(s, run, k, 1);
    FedByCalls(s, run, k);
  }
}
