/** Completion requests of all proxy instances, step by step, over one shared cache. */
module Proxy {
  import opened Text
  import K = CacheKey

  const MIN_BALANCE: int := 10

  datatype Response = Response(content: GoString, model: GoString, prompt: int, completion: int, latency: int)

  /** Where a request stands.  An answer remembers which request the provider gave it to. */
  datatype Pc =
    | Validating | Checking | Looking | Calling | Caching | Publishing
    | Answered(resp: Response, src: nat)
    | Failed
    | Gone

  /** `resp` is what the provider returned to this very request. */
  datatype Req = Req(
    key: GoString, body: K.Request, user: Option<GoString>, resp: Option<Response>, published: bool, pc: Pc)

  datatype Entry = Entry(resp: Response, src: nat)

  datatype State = State(reqs: seq<Req>, cache: map<string, Entry>)

  /** `up` tells whether the call to Redis or to RabbitMQ succeeds. */
  datatype Action =
    | Arrive(key: GoString, body: K.Request)
    | Validate(r: nat, user: Option<GoString>)
    | Check(r: nat, balance: Option<int>)
    | Lookup(r: nat, up: bool)
    | Call(r: nat, resp: Option<Response>)
    | Save(r: nat, up: bool)
    | Publish(r: nat, up: bool)
    | Abandon(r: nat)
    | Expire(k: string)
    | Flush

  predicate At(s: State, r: nat, pc: Pc)
  {
    r < |s.reqs| && s.reqs[r].pc == pc
  }

  predicate Over(pc: Pc)
  {
    pc.Answered? || pc.Failed? || pc.Gone?
  }

  predicate Enabled(s: State, a: Action)
  {
    match a
    case Arrive(_, _) => true
    case Validate(r, _) => At(s, r, Validating)
    case Check(r, _) => At(s, r, Checking)
    case Lookup(r, _) => At(s, r, Looking)
    case Call(r, _) => At(s, r, Calling)
    case Save(r, _) => At(s, r, Caching)
    case Publish(r, _) => At(s, r, Publishing)
    case Abandon(r) => r < |s.reqs| && !Over(s.reqs[r].pc)
    case Expire(k) => k in s.cache
    case Flush => true
  }

  function KeyOf(s: State, r: nat): string
    requires r < |s.reqs|
  {
    K.KeyText(s.reqs[r].body)
  }

  predicate Hits(s: State, r: nat, up: bool)
    requires r < |s.reqs|
  {
    up && KeyOf(s, r) in s.cache
  }

  /** What becomes of request r. */
  function Advance(s: State, r: nat, a: Action): Req
    requires Enabled(s, a) && r < |s.reqs|
  {
    var x := s.reqs[r];
    match a
    case Validate(_, user) => if user.Some? then x.(user := user, pc := Checking) else x.(pc := Failed)
    case Check(_, balance) => x.(pc := if balance.Some? && balance.value >= MIN_BALANCE then Looking else Failed)
    case Lookup(_, up) =>
      if Hits(s, r, up) then
        var e := s.cache[KeyOf(s, r)];
        x.(pc := Answered(e.resp, e.src))
      else x.(pc := Calling)
    case Call(_, resp) => if resp.Some? then x.(resp := resp, pc := Caching) else x.(pc := Failed)
    case Save(_, _) => x.(pc := Publishing)
    case Publish(_, up) => if x.resp.Some? then x.(published := up, pc := Answered(x.resp.value, r)) else x
    case Abandon(_) => x.(pc := Gone)
    case _ => x
  }

  function Step(s: State, a: Action): State
    requires Enabled(s, a)
  {
    match a
    case Arrive(key, body) => s.(reqs := s.reqs + [Req(key, body, None, None, false, Validating)])
    case Expire(k) => s.(cache := s.cache - {k})
    case Flush => s.(cache := map[])
    case Save(r, up) =>
      var x := s.reqs[r];
      State(s.reqs[r := Advance(s, r, a)],
            if up && x.resp.Some? then s.cache[KeyOf(s, r) := Entry(x.resp.value, r)] else s.cache)
    case _ => s.(reqs := s.reqs[a.r := Advance(s, a.r, a)])
  }

  predicate Runs(s: State, run: seq<Action>)
    decreases |run|
  {
    run == [] || (Enabled(s, run[0]) && Runs(Step(s, run[0]), run[1..]))
  }

  function Exec(s: State, run: seq<Action>): State
    requires Runs(s, run)
    decreases |run|
  {
    if run == [] then s else Exec(Step(s, run[0]), run[1..])
  }

  lemma {:induction false} RunsSnoc(s: State, run: seq<Action>, a: Action)
    requires Runs(s, run) && Enabled(Exec(s, run), a)
    ensures Runs(s, run + [a]) && Exec(s, run + [a]) == Step(Exec(s, run), a)
    decreases |run|
  {
    if run == [] {
      assert run + [a] == [a] && [a][1..] == [];
      assert Runs(Step(s, a), []);
    } else {
      assert (run + [a])[1..] == run[1..] + [a];
      RunsSnoc(Step(s, run[0]), run[1..], a);
    }
  }

  lemma {:induction false} RunsConcat(s: State, r1: seq<Action>, r2: seq<Action>)
    requires Runs(s, r1) && Runs(Exec(s, r1), r2)
    ensures Runs(s, r1 + r2) && Exec(s, r1 + r2) == Exec(Exec(s, r1), r2)
    decreases |r1|
  {
    if r1 == [] {
      assert r1 + r2 == r2;
    } else {
      assert (r1 + r2)[1..] == r1[1..] + r2;
      RunsConcat(Step(s, r1[0]), r1[1..], r2);
    }
  }
}
