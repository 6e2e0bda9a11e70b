/** The whole pipeline: API keys, proxies with their cache, the queue, the consumers and the ledger. */
module System {
  import opened Text
  import P = Proxy
  import D = Delivery
  import L = Ledger
  import E = UsageEvent

  datatype Key = Key(user: GoString, revoked: bool)

  /** Keys are stored under their SHA-256 hash, which is taken to be collision-free. */
  datatype State = State(keys: map<GoString, Key>, p: P.State, d: D.State)

  /** `Ship` is a publish that reaches the broker; any other step of a proxy is a `Front`. */
  datatype Action =
    | Issue(key: GoString, user: GoString)
    | Revoke(key: GoString)
    | Front(a: P.Action)
    | Ship(r: nat, at: E.Stamp)
    | Back(b: D.Action)

  predicate Live(s: State, key: GoString)
  {
    key in s.keys && !s.keys[key].revoked
  }

  /** What the billing service may answer about a balance: an error, the balance, or the 0 that
      stands for a failed query. */
  predicate BalanceAnswer(s: State, user: GoString, answer: Option<int>)
  {
    answer.None? || answer.value == 0 || answer.value == L.Bal(s.d.led, user)
  }

  predicate Enabled(s: State, a: Action)
  {
    match a
    case Issue(key, user) => key !in s.keys && ValidText(user)
    case Revoke(key) => key in s.keys
    case Front(a) =>
      && P.Enabled(s.p, a)
      && (a.Validate? && a.user.Some? ==>
            var key := s.p.reqs[a.r].key;
            Live(s, key) && a.user.value == s.keys[key].user)
      && (a.Check? ==> s.p.reqs[a.r].user.Some? && BalanceAnswer(s, s.p.reqs[a.r].user.value, a.balance))
      && !(a.Publish? && a.up)
    case Ship(r, at) =>
      && P.Enabled(s.p, P.Publish(r, true)) && E.ValidStamp(at)
      && s.p.reqs[r].user.Some? && s.p.reqs[r].resp.Some?
    case Back(b) => D.Enabled(s.d, b) && !b.Publish?
  }

  /** The event names the requested model, not the one the provider reports. */
  function EventOf(x: P.Req, at: E.Stamp): E.Event
    requires x.user.Some? && x.resp.Some?
  {
    E.Event(x.user.value, x.body.model, x.resp.value.prompt, x.resp.value.completion, at)
  }

  /** The event as the consumer will see it; ShipSendsText says that this is what decoding gives. */
  function Received(s: State, r: nat, at: E.Stamp): E.Event
    requires r < |s.p.reqs| && s.p.reqs[r].user.Some? && s.p.reqs[r].resp.Some?
  {
    E.Delivered(EventOf(s.p.reqs[r], at))
  }

  function Step(s: State, a: Action): State
    requires Enabled(s, a)
  {
    match a
    case Issue(key, user) => s.(keys := s.keys[key := Key(user, false)])
    case Revoke(key) => s.(keys := s.keys[key := s.keys[key].(revoked := true)])
    case Front(a) => s.(p := P.Step(s.p, a))
    case Ship(r, at) =>
      s.(p := P.Step(s.p, P.Publish(r, true)), d := D.Step(s.d, D.Publish(Some(Received(s, r, at)), r)))
    case Back(b) => s.(d := D.Step(s.d, b))
  }

  /** What a publish puts into the queue is the JSON text of the event: the message holds exactly
      what the consumer decodes from that text. */
  lemma ShipSendsText(s: State, r: nat, at: E.Stamp)
    requires Enabled(s, Ship(r, at))
    ensures Step(s, Ship(r, at)).d.msgs[|s.d.msgs|].event == E.Decode(E.Encode(EventOf(s.p.reqs[r], at)))
  {
    E.EventRoundTrip(EventOf(s.p.reqs[r], at));
  }

  predicate Runs(s: State, run: seq<Action>)
    decreases |run|
  {
    run == [] || (Enabled(s, run[0]) && Runs(Step(s, run[0]), run[1..]))
  }

  function Exec(s: State, run: seq<Action>): State
    requires Runs(s, run)
    decreases |run|
  {
    if run == [] then s else Exec(Step(s, run[0]), run[1..])
  }

  predicate Initial(s: State)
  {
    s.keys == map[] && s.p.reqs == [] && s.p.cache == map[] && D.Initial(s.d)
  }

  /** The steps of the queue protocol in a run of the system. */
  function QueueRun(s: State, run: seq<Action>): seq<D.Action>
    requires Runs(s, run)
    decreases |run|
  {
    if run == [] then []
    else (match run[0]
          case Ship(r, at) => [D.Publish(Some(Received(s, r, at)), r)]
          case Back(b) => [b]
          case _ => []) + QueueRun(Step(s, run[0]), run[1..])
  }

  /** Seen from the queue, a run of the system is a run of the queue protocol, so what is proved
      about delivery, and through it about the ledger, holds in the system. */
  lemma {:induction false} RunIsQueueRun(s: State, run: seq<Action>)
    requires Runs(s, run)
    ensures D.Runs(s.d, QueueRun(s, run)) && D.Exec(s.d, QueueRun(s, run)) == Exec(s, run).d
    decreases |run|
  {
    if run != [] {
      var t := Step(s, run[0]);
      RunIsQueueRun(t, run[1..]);
      var rest := QueueRun(t, run[1..]);
      if run[0].Ship? || run[0].Back? {
        assert QueueRun(s, run)[1..] == rest;
      } else {
        assert QueueRun(s, run) == rest;
      }
    }
  }

  /** The steps of the proxies in a run of the system. */
  function FrontRun(s: State, run: seq<Action>): seq<P.Action>
    requires Runs(s, run)
    decreases |run|
  {
    if run == [] then []
    else (match run[0]
          case Ship(r, at) => [P.Publish(r, true)]
          case Front(a) => [a]
          case _ => []) + FrontRun(Step(s, run[0]), run[1..])
  }

  /** Seen from the proxies, a run of the system is a run of the proxies over their cache. */
  lemma {:induction false} RunIsFrontRun(s: State, run: seq<Action>)
    requires Runs(s, run)
    ensures P.Runs(s.p, FrontRun(s, run)) && P.Exec(s.p, FrontRun(s, run)) == Exec(s, run).p
    decreases |run|
  {
    if run != [] {
      var t := Step(s, run[0]);
      RunIsFrontRun(t, run[1..]);
      var rest := FrontRun(t, run[1..]);
      if run[0].Ship? || run[0].Front? {
        assert FrontRun(s, run)[1..] == rest;
      } else {
        assert FrontRun(s, run) == rest;
      }
    }
  }

  /** Revoking a key revokes that key, keeps its owner, and touches nothing else. */
  lemma RevokeRevokes(s: State, key: GoString)
    requires key in s.keys
    ensures
      var t := Step(s, Revoke(key));
      && Enabled(s, Revoke(key)) && t.p == s.p && t.d == s.d && t.keys.Keys == s.keys.Keys
      && t.keys[key] == Key(s.keys[key].user, true)
      && forall k :: k in s.keys && k != key ==> t.keys[k] == s.keys[k]
  {
  }

  /** A new key belongs to its user, is not revoked, and touches nothing else. */
  lemma IssueIssues(s: State, key: GoString, user: GoString)
    requires key !in s.keys && ValidText(user)
    ensures
      var t := Step(s, Issue(key, user));
      && Enabled(s, Issue(key, user)) && t.p == s.p && t.d == s.d && t.keys == s.keys[key := Key(user, false)]
  {
  }

  /** A request can be validated exactly with a key that exists and is not revoked, as its owner's. */
  lemma ValidationNeedsLiveKey(s: State, r: nat, user: GoString)
    requires P.At(s.p, r, P.Validating)
    ensures
      var key := s.p.reqs[r].key;
      Enabled(s, Front(P.Validate(r, Some(user)))) <==>
        key in s.keys && !s.keys[key].revoked && s.keys[key].user == user
  {
  }

  /** A balance check is answered by an error, by the user's balance, or by the 0 of a failed read. */
  lemma CheckNeedsBalance(s: State, r: nat, answer: int)
    requires P.At(s.p, r, P.Checking) && s.p.reqs[r].user.Some?
    ensures
      var u := s.p.reqs[r].user.value;
      Enabled(s, Front(P.Check(r, Some(answer)))) <==>
        answer == 0 || answer == (if u in s.d.led.balance then s.d.led.balance[u] else 0)
    ensures Enabled(s, Front(P.Check(r, None)))
  {
  }
}
