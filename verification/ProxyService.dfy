/** The completion service of a proxy as an object, handling one request from start to end. */
module ProxyService {
  import opened Text
  import K = CacheKey
  import P = Proxy
  import E = UsageEvent

  /** What the services around the proxy answer during one request. */
  datatype Luck = Luck(
    user: Option<GoString>, balance: Option<int>, lookup: bool, resp: Option<P.Response>,
    save: bool, publish: bool, at: E.Stamp)

  datatype Result = Ok(resp: P.Response) | AuthError | BillingError | InsufficientBalance | ProviderError

  function Sent(user: GoString, model: GoString, luck: Luck): E.Event
    requires luck.resp.Some?
  {
    E.Event(user, model, luck.resp.value.prompt, luck.resp.value.completion, luck.at)
  }

  /** The errors are told apart by how far the request got. */
  predicate Tells(result: Result, x: P.Req)
  {
    match result
    case Ok(resp) => x.pc.Answered? && x.pc.resp == resp
    case AuthError => x.pc.Failed? && x.user.None?
    case ProviderError => x.pc.Failed? && x.user.Some?
    case _ => x.pc.Failed? && x.user.Some? && x.resp.None?
  }

  predicate AreTexts(texts: seq<string>, events: seq<E.Event>)
  {
    && |texts| == |events|
    && forall i :: 0 <= i < |events| ==> E.ValidStamp(events[i].at) && texts[i] == E.Encode(events[i])
  }

  lemma OneMoreText(texts: seq<string>, events: seq<E.Event>, e: E.Event)
    requires AreTexts(texts, events) && E.ValidStamp(e.at)
    ensures AreTexts(texts + [E.Encode(e)], events + [e])
  {
    var more, longer := texts + [E.Encode(e)], events + [e];
    forall i | 0 <= i < |longer| ensures E.ValidStamp(longer[i].at) && more[i] == E.Encode(longer[i]) {
      assert i < |events| ==> longer[i] == events[i] && more[i] == texts[i];
    }
  }

  class Service {
    var cache: map<string, P.Response>
    var outbox: seq<string>
    ghost var sent: seq<E.Event>
    ghost var reqs: seq<P.Req>
    ghost var origin: map<string, nat>

    constructor ()
      ensures Valid() && View() == P.State([], map[]) && cache == map[]
      ensures Posted() && sent == [] && outbox == []
    {
      cache, outbox, sent, reqs, origin := map[], [], [], [], map[];
    }

    ghost predicate Valid()
      reads this
    {
      cache.Keys == origin.Keys
    }

    /** The queue holds the JSON texts of the events sent. */
    ghost predicate Posted()
      reads this
    {
      AreTexts(outbox, sent)
    }

    ghost function View(): P.State
      requires Valid()
      reads this
    {
      P.State(reqs, map k | k in cache :: P.Entry(cache[k], origin[k]))
    }

    // A step that leaves the cache alone.
    ghost method Note(s: P.State, run: seq<P.Action>, a: P.Action) returns (r: seq<P.Action>)
      requires Valid() && P.Runs(s, run) && View() == P.Exec(s, run)
      requires P.Enabled(View(), a) && !a.Save? && !a.Expire? && !a.Flush?
      modifies this`reqs
      ensures Valid() && View() == P.Step(old(View()), a)
      ensures r == run + [a] && P.Runs(s, r) && View() == P.Exec(s, r)
    {
      P.RunsSnoc(s, run, a);
      r := run + [a];
      reqs := P.Step(View(), a).reqs;
    }

    /** The Set after a provider call; its failure goes unnoticed. */
    method Save(key: string, resp: P.Response, up: bool, ghost r: nat)
      requires Valid() && P.At(View(), r, P.Caching) && View().reqs[r].resp == Some(resp) && P.KeyOf(View(), r) == key
      modifies this`cache, this`reqs, this`origin
      ensures Valid() && P.Enabled(old(View()), P.Save(r, up)) && View() == P.Step(old(View()), P.Save(r, up))
      ensures cache == if up then old(cache)[key := resp] else old(cache)
    {
      ghost var s := View();
      if up {
        cache := cache[key := resp];
        origin := origin[key := r];
      }
      reqs := P.Step(s, P.Save(r, up)).reqs;
      assert View().cache == P.Step(s, P.Save(r, up)).cache;
    }

    /** Publishes the usage of a response; an error is returned and then ignored. */
    method PublishUsage(user: GoString, model: GoString, prompt: int, completion: int, up: bool, at: E.Stamp)
      returns (err: bool)
      requires E.ValidStamp(at)
      modifies this`outbox, this`sent
      ensures sent == old(sent) + (if up then [E.Event(user, model, prompt, completion, at)] else [])
      ensures outbox == old(outbox) +
        (if up then [E.Encode(E.Event(user, model, prompt, completion, at))] else [])
      ensures old(Posted()) ==> Posted()
      ensures err == !up
    {
      if up {
        if Posted() {
          OneMoreText(outbox, sent, E.Event(user, model, prompt, completion, at));
        }
        var event := E.Event(user, model, prompt, completion, at);
        outbox := outbox + [E.Encode(event)];
        sent := sent + [event];
      }
      err := !up;
    }

    /** Key and balance are checked; `refused` is the error, if there is one. */
    method Admit(key: GoString, body: K.Request, luck: Luck) returns (refused: Option<Result>, ghost run: seq<P.Action>)
      requires Valid()
      modifies this`reqs
      ensures Valid() && P.Runs(old(View()), run) && View() == P.Exec(old(View()), run)
      ensures |reqs| == |old(reqs)| + 1 && reqs[..|old(reqs)|] == old(reqs)
      ensures
        var failed := P.Req(key, body, luck.user, None, false, P.Failed);
        if luck.user.None? then refused == Some(AuthError) && reqs[|old(reqs)|] == failed
        else if luck.balance.None? then refused == Some(BillingError) && reqs[|old(reqs)|] == failed
        else if luck.balance.value < 10
        then refused == Some(InsufficientBalance) && reqs[|old(reqs)|] == failed
        else refused == None && reqs[|old(reqs)|] == failed.(pc := P.Looking)
    {
      ghost var s := View();
      ghost var r := |reqs|;
      run := [];
      run := Note(s, run, P.Arrive(key, body));
      run := Note(s, run, P.Validate(r, luck.user));
      if luck.user.None? {
        return Some(AuthError), run;
      }
      run := Note(s, run, P.Check(r, luck.balance));
      if luck.balance.None? {
        return Some(BillingError), run;
      }
      if luck.balance.value < P.MIN_BALANCE {
        return Some(InsufficientBalance), run;
      }
      refused := None;
    }

    /** The provider call, the Set and the publish of a request that missed the cache. */
    method Fetch(user: GoString, model: GoString, key: string, luck: Luck, ghost r: nat)
      returns (result: Result, ghost run: seq<P.Action>)
      requires Valid() && E.ValidStamp(luck.at) && P.At(View(), r, P.Calling)
      requires reqs[r].user == Some(user) && P.KeyOf(View(), r) == key
      modifies this
      ensures Valid() && P.Runs(old(View()), run) && View() == P.Exec(old(View()), run)
      ensures old(Posted()) ==> Posted()
      ensures
        var x := old(reqs)[r];
        if luck.resp.None?
        then result == ProviderError && reqs == old(reqs)[r := x.(pc := P.Failed)] && sent == old(sent)
        else
          && result == Ok(luck.resp.value)
          && reqs == old(reqs)[
               r := x.(resp := luck.resp, published := luck.publish, pc := P.Answered(luck.resp.value, r))]
          && sent == old(sent) + (if luck.publish then [Sent(user, model, luck)] else [])
      ensures outbox == old(outbox) +
        (if luck.resp.Some? && luck.publish then [E.Encode(Sent(user, model, luck))] else [])
      ensures cache ==
        if luck.resp.Some? && luck.save then old(cache)[key := luck.resp.value] else old(cache)
    {
      ghost var s := View();
      run := [];
      run := Note(s, run, P.Call(r, luck.resp));
      if luck.resp.None? {
        return ProviderError, run;
      }
      ghost var more;
      result, more := Finish(user, model, key, luck, r);
      P.RunsConcat(s, run, more);
      run := run + more;
    }

    /** The Set and the publish, neither of which can fail the request. */
    method Finish(user: GoString, model: GoString, key: string, luck: Luck, ghost r: nat)
      returns (result: Result, ghost run: seq<P.Action>)
      requires Valid() && E.ValidStamp(luck.at) && P.At(View(), r, P.Caching)
      requires luck.resp.Some? && reqs[r].resp == luck.resp && P.KeyOf(View(), r) == key
      modifies this
      ensures Valid() && P.Runs(old(View()), run) && View() == P.Exec(old(View()), run)
      ensures old(Posted()) ==> Posted()
      ensures result == Ok(luck.resp.value)
      ensures reqs == old(reqs)[r := old(reqs)[r].(published := luck.publish, pc := P.Answered(luck.resp.value, r))]
      ensures sent == old(sent) + (if luck.publish then [Sent(user, model, luck)] else [])
      ensures outbox == old(outbox) + (if luck.publish then [E.Encode(Sent(user, model, luck))] else [])
      ensures cache == if luck.save then old(cache)[key := luck.resp.value] else old(cache)
    {
      ghost var s := View();
      var resp := luck.resp.value;
      run := [];
      P.RunsSnoc(s, run, P.Save(r, luck.save));
      Save(key, resp, luck.save, r);
      run := run + [P.Save(r, luck.save)];
      run := Note(s, run, P.Publish(r, luck.publish));
      var err := PublishUsage(user, model, resp.prompt, resp.completion, luck.publish, luck.at);
      result := Ok(resp);
    }

    /** One request.  The checks come in this order: key, balance, cache, provider.  What is answered,
        what is cached and what is published follows from how they come out, and from nothing else.
        The steps are a run of the proxy machine. */
    method Complete(key: GoString, body: K.Request, luck: Luck) returns (result: Result, ghost run: seq<P.Action>)
      requires Valid() && E.ValidStamp(luck.at)
      modifies this
      ensures result ==
        if luck.user.None? then AuthError
        else if luck.balance.None? then BillingError
        else if luck.balance.value < 10 then InsufficientBalance
        else if luck.lookup && K.KeyText(body) in old(cache) then Ok(old(cache)[K.KeyText(body)])
        else if luck.resp.None? then ProviderError
        else Ok(luck.resp.value)
      ensures
        var served :=
          luck.user.Some? && luck.balance.Some? && 10 <= luck.balance.value
          && !(luck.lookup && K.KeyText(body) in old(cache)) && luck.resp.Some?;
        && (cache == if served && luck.save then old(cache)[K.KeyText(body) := luck.resp.value] else old(cache))
        && (if served && luck.publish then
              var event := E.Event(
                luck.user.value, body.model, luck.resp.value.prompt, luck.resp.value.completion, luck.at);
              sent == old(sent) + [event] && outbox == old(outbox) + [E.Encode(event)]
            else sent == old(sent) && outbox == old(outbox))
      ensures old(Posted()) ==> Posted()
      ensures |reqs| == |old(reqs)| + 1 && reqs[..|old(reqs)|] == old(reqs)
      ensures reqs[|old(reqs)|].key == key && reqs[|old(reqs)|].body == body
      ensures Tells(result, reqs[|old(reqs)|])
      ensures Valid() && P.Runs(old(View()), run) && View() == P.Exec(old(View()), run)
    {
      ghost var s := View();
      ghost var r := |reqs|;
      var refused;
      refused, run := Admit(key, body, luck);
      if refused.Some? {
        return refused.value, run;
      }
      var cacheKey := K.KeyText(body);
      run := Note(s, run, P.Lookup(r, luck.lookup));
      if luck.lookup && cacheKey in cache {
        return Ok(cache[cacheKey]), run;
      }
      ghost var more;
      result, more := Fetch(luck.user.value, body.model, cacheKey, luck, r);
      P.RunsConcat(s, run, more);
      run := run + more;
    }

    /** Empties the cache and nothing else. */
    method ClearCache()
      requires Valid()
      modifies this`cache, this`origin
      ensures Valid() && cache == map[]
      ensures P.Enabled(old(View()), P.Flush) && View() == P.Step(old(View()), P.Flush)
    {
      cache, origin := map[], map[];
    }
  }
}
