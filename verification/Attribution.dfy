/** Every charge goes back to a provider response, for the owner of a key that was valid. */
module Attribution {
  import opened Text
  import opened Sums
  import opened System
  import P = Proxy
  import T = Transparency
  import D = Delivery
  import C = Custody
  import L = Ledger
  import E = UsageEvent

  /** A request is bound to the owner of its key. */
  predicate OwnerOk(s: State, r: nat)
    requires r < |s.p.reqs|
  {
    var x := s.p.reqs[r];
    x.user.Some? ==> x.key in s.keys && s.keys[x.key].user == x.user.value && ValidText(x.user.value)
  }

  /** Message m is the usage event of the request that published it. */
  predicate MsgFrom(s: State, m: nat)
    requires m < |s.d.msgs|
  {
    var msg := s.d.msgs[m];
    && msg.src < |s.p.reqs| && msg.event.Some?
    && var x := s.p.reqs[msg.src];
       && x.published && x.user.Some? && x.resp.Some?
       && msg.event.value.user == x.user.value
       && msg.event.value.model == Repaired(x.body.model)
       && msg.event.value.prompt == x.resp.value.prompt
       && msg.event.value.completion == x.resp.value.completion
  }

  predicate RowFrom(s: State, op: L.Op)
  {
    op.Usage? ==> op.msg < |s.d.msgs| && s.d.msgs[op.msg].event.Some? && op == D.OpOf(s.d, op.msg)
  }

  function Published(): P.Req -> int
  {
    (x: P.Req) => if x.published then 1 else 0
  }

  ghost predicate Inv(s: State)
  {
    && T.Inv(s.p) && C.Inv(s.d)
    && (forall k :: k in s.keys ==> ValidText(s.keys[k].user))
    && (forall r :: 0 <= r < |s.p.reqs| ==> OwnerOk(s, r))
    && (forall m :: 0 <= m < |s.d.msgs| ==> MsgFrom(s, m))
    && (forall j :: 0 <= j < |s.d.led.log| ==> RowFrom(s, s.d.led.log[j].op))
    && (forall m, k :: 0 <= m < k < |s.d.msgs| ==> s.d.msgs[m].src != s.d.msgs[k].src)
    && SumOf(s.p.reqs, Published()) == |s.d.msgs|
  }

  /** A queue step neither adds nor alters messages, unless it publishes. */
  lemma QueueStepKeeps(d: D.State, b: D.Action)
    requires C.Inv(d) && D.Enabled(d, b) && !b.Publish?
    ensures |D.Step(d, b).msgs| == |d.msgs| && D.Step(d, b).tariff == d.tariff
    ensures forall m :: 0 <= m < |d.msgs| ==>
      D.Step(d, b).msgs[m].event == d.msgs[m].event && D.Step(d, b).msgs[m].src == d.msgs[m].src
  {
    C.Touched(d, b);
  }

  lemma QueueStepLog(d: D.State, b: D.Action)
    requires C.Inv(d) && D.Enabled(d, b)
    ensures
      var t := D.Step(d, b);
      || t.led.log == d.led.log
      || (b.Store? && b.a.Insert? && b.a.i < |d.led.slots| && d.led.slots[b.a.i].Call?
          && t.led.log == d.led.log + [L.Row(d.led.slots[b.a.i].op, b.a.at)])
  {
  }

  lemma BackKeepsInv(s: State, b: D.Action)
    requires Inv(s) && Enabled(s, Back(b))
    ensures Inv(Step(s, Back(b)))
  {
    var t := Step(s, Back(b));
    C.StepKeepsInv(s.d, b);
    QueueStepKeeps(s.d, b);
    forall m | 0 <= m < |t.d.msgs| ensures MsgFrom(t, m) {
      assert MsgFrom(s, m);
    }
    forall r | 0 <= r < |t.p.reqs| ensures OwnerOk(t, r) {
      assert OwnerOk(s, r);
    }
    QueueStepLog(s.d, b);
    forall j | 0 <= j < |t.d.led.log| ensures RowFrom(t, t.d.led.log[j].op) {
      if j < |s.d.led.log| {
        assert RowFrom(s, s.d.led.log[j].op);
      } else {
        assert C.SlotOk(s.d, b.a.i);
      }
    }
  }

  lemma FrontKeepsInv(s: State, a: P.Action)
    requires Inv(s) && Enabled(s, Front(a))
    ensures Inv(Step(s, Front(a)))
  {
    var t := Step(s, Front(a));
    T.StepKeepsInv(s.p, a);
    forall r | 0 <= r < |s.p.reqs| ensures SameRecord(s.p.reqs[r], t.p.reqs[r]) {
      FrontStepKeeps(s, a, r);
    }
    forall r | 0 <= r < |t.p.reqs| ensures OwnerOk(t, r) {
      FrontKeepsOwner(s, a, r);
    }
    forall m | 0 <= m < |t.d.msgs| ensures MsgFrom(t, m) {
      assert MsgFrom(s, m);
    }
    forall j | 0 <= j < |t.d.led.log| ensures RowFrom(t, t.d.led.log[j].op) {
      assert RowFrom(s, s.d.led.log[j].op);
    }
    FrontKeepsCount(s, a);
  }

  /** What a published request says about itself does not change. */
  predicate SameRecord(x: P.Req, y: P.Req)
  {
    && y.key == x.key && y.body == x.body
    && (x.user.Some? ==> y.user == x.user)
    && (x.resp.Some? ==> y.resp == x.resp)
    && (x.published ==> y.published)
  }

  lemma FrontStepKeeps(s: State, a: P.Action, r: nat)
    requires T.Inv(s.p) && P.Enabled(s.p, a) && r < |s.p.reqs|
    ensures r < |P.Step(s.p, a).reqs| && SameRecord(s.p.reqs[r], P.Step(s.p, a).reqs[r])
  {
    assert T.ReqOk(s.p, r);
  }

  lemma FrontKeepsOwner(s: State, a: P.Action, r: nat)
    requires Inv(s) && Enabled(s, Front(a)) && r < |Step(s, Front(a)).p.reqs|
    ensures OwnerOk(Step(s, Front(a)), r)
  {
    if r < |s.p.reqs| {
      assert OwnerOk(s, r);
    }
  }

  lemma FrontKeepsCount(s: State, a: P.Action)
    requires Inv(s) && Enabled(s, Front(a))
    ensures SumOf(P.Step(s.p, a).reqs, Published()) == SumOf(s.p.reqs, Published())
  {
    var t := P.Step(s.p, a);
    if a.Arrive? {
      SumAppend(s.p.reqs, t.reqs[|s.p.reqs|], Published());
    } else if !a.Expire? && !a.Flush? {
      assert T.ReqOk(s.p, a.r);
      SumUpdate(s.p.reqs, a.r, t.reqs[a.r], Published());
    }
  }

  lemma ShipAddsMessage(s: State, r: nat, at: E.Stamp)
    requires Inv(s) && Enabled(s, Ship(r, at))
    ensures
      var t := Step(s, Ship(r, at));
      && |t.d.msgs| == |s.d.msgs| + 1 && t.d.msgs[..|s.d.msgs|] == s.d.msgs
      && MsgFrom(t, |s.d.msgs|) && t.d.msgs[|s.d.msgs|].src == r && !s.p.reqs[r].published
  {
    var e := EventOf(s.p.reqs[r], at);
    assert OwnerOk(s, r) && T.ReqOk(s.p, r);
    ValidIsUnchanged(e.user);
  }

  lemma ShipKeepsMessages(s: State, r: nat, at: E.Stamp)
    requires Inv(s) && Enabled(s, Ship(r, at))
    ensures
      var t := Step(s, Ship(r, at));
      && (forall m :: 0 <= m < |t.d.msgs| ==> MsgFrom(t, m))
      && (forall m, k :: 0 <= m < k < |t.d.msgs| ==> t.d.msgs[m].src != t.d.msgs[k].src)
      && SumOf(t.p.reqs, Published()) == |t.d.msgs|
  {
    var t, n := Step(s, Ship(r, at)), |s.d.msgs|;
    ShipAddsMessage(s, r, at);
    forall m | 0 <= m < n ensures t.d.msgs[m] == s.d.msgs[m] && MsgFrom(t, m) && t.d.msgs[m].src != r {
      assert t.d.msgs[..n][m] == s.d.msgs[m];
      assert MsgFrom(s, m);
    }
    SumUpdate(s.p.reqs, r, t.p.reqs[r], Published());
  }

  lemma ShipKeepsRows(s: State, r: nat, at: E.Stamp)
    requires Inv(s) && Enabled(s, Ship(r, at))
    ensures
      var t := Step(s, Ship(r, at));
      && (forall q :: 0 <= q < |t.p.reqs| ==> OwnerOk(t, q))
      && (forall j :: 0 <= j < |t.d.led.log| ==> RowFrom(t, t.d.led.log[j].op))
  {
    var t := Step(s, Ship(r, at));
    forall q | 0 <= q < |t.p.reqs| ensures OwnerOk(t, q) {
      assert OwnerOk(s, q);
    }
    forall j | 0 <= j < |t.d.led.log| ensures RowFrom(t, t.d.led.log[j].op) {
      assert RowFrom(s, s.d.led.log[j].op);
    }
  }

  lemma ShipKeepsInv(s: State, r: nat, at: E.Stamp)
    requires Inv(s) && Enabled(s, Ship(r, at))
    ensures Inv(Step(s, Ship(r, at)))
  {
    ShipKeepsMessages(s, r, at);
    ShipKeepsRows(s, r, at);
    T.StepKeepsInv(s.p, P.Publish(r, true));
    C.StepKeepsInv(s.d, D.Publish(Some(Received(s, r, at)), r));
  }

  lemma KeysKeepInv(s: State, a: Action)
    requires Inv(s) && Enabled(s, a) && (a.Issue? || a.Revoke?)
    ensures Inv(Step(s, a))
  {
    var t := Step(s, a);
    forall r | 0 <= r < |t.p.reqs| ensures OwnerOk(t, r) {
      assert OwnerOk(s, r);
    }
    forall m | 0 <= m < |t.d.msgs| ensures MsgFrom(t, m) {
      assert MsgFrom(s, m);
    }
    forall j | 0 <= j < |t.d.led.log| ensures RowFrom(t, t.d.led.log[j].op) {
      assert RowFrom(s, s.d.led.log[j].op);
    }
  }

  lemma StepKeepsInv(s: State, a: Action)
    requires Inv(s) && Enabled(s, a)
    ensures Inv(Step(s, a))
  {
    match a
    case Issue(_, _) => KeysKeepInv(s, a);
    case Revoke(_) => KeysKeepInv(s, a);
    case Front(b) => FrontKeepsInv(s, b);
    case Ship(r, at) => ShipKeepsInv(s, r, at);
    case Back(b) => BackKeepsInv(s, b);
  }

  lemma {:induction false} RunKeepsInv(s: State, run: seq<Action>)
    requires Inv(s) && Runs(s, run)
    ensures Inv(Exec(s, run))
    decreases |run|
  {
    if run != [] {
      StepKeepsInv(s, run[0]);
      RunKeepsInv(Step(s, run[0]), run[1..]);
    }
  }

  lemma InitialInv(s: State)
    requires Initial(s)
    ensures Inv(s)
  {
  }

  /** In every run, whatever fails: each usage row was left by one message, published by one request;
      the row's user owns the key that request came with, its tokens are the prompt and completion
      tokens the provider reported to that request, and it names the requested model. */
  lemma RowsAreAttributed(s: State, run: seq<Action>, j: nat)
    requires Initial(s) && Runs(s, run) && j < |Exec(s, run).d.led.log|
    requires Exec(s, run).d.led.log[j].op.Usage?
    ensures
      var t := Exec(s, run);
      var op := t.d.led.log[j].op;
      && op.msg < |t.d.msgs| && t.d.msgs[op.msg].src < |t.p.reqs|
      && var x := t.p.reqs[t.d.msgs[op.msg].src];
         && x.key in t.keys && t.keys[x.key].user == op.user
         && x.published && x.resp.Some? && op.tokens == x.resp.value.prompt + x.resp.value.completion
         && op.model == Repaired(x.body.model) && op.cost == t.d.tariff(op.model, op.tokens)
  {
    var t := Exec(s, run);
    InitialInv(s);
    RunKeepsInv(s, run);
    var op := t.d.led.log[j].op;
    assert RowFrom(t, op);
    assert MsgFrom(t, op.msg);
    assert OwnerOk(t, t.d.msgs[op.msg].src);
  }

  /** Usage events and provider calls correspond one to one: no request publishes twice, nothing is
      published without a provider response, and no event is dropped as undecodable. */
  lemma EventsAreProviderCalls(s: State, run: seq<Action>)
    requires Initial(s) && Runs(s, run)
    ensures
      var t := Exec(s, run);
      && |t.d.msgs| == SumOf(t.p.reqs, Published())
      && (forall m, k :: 0 <= m < k < |t.d.msgs| ==> t.d.msgs[m].src != t.d.msgs[k].src)
      && (forall m :: 0 <= m < |t.d.msgs| ==> MsgFrom(t, m) && !t.d.msgs[m].state.Dropped?)
  {
    var t := Exec(s, run);
    InitialInv(s);
    RunKeepsInv(s, run);
    forall m | 0 <= m < |t.d.msgs| ensures !t.d.msgs[m].state.Dropped? {
      assert MsgFrom(t, m) && C.MsgOk(t.d, m);
    }
  }

  /** A request keeps its key and body, and its user and response once it has them. */
  lemma {:induction false} RequestsStay(s: State, run: seq<Action>, r: nat)
    requires Inv(s) && Runs(s, run) && r < |s.p.reqs|
    ensures r < |Exec(s, run).p.reqs| && SameRecord(s.p.reqs[r], Exec(s, run).p.reqs[r])
    decreases |run|
  {
    if run != [] {
      StepKeepsInv(s, run[0]);
      RequestStays(s, run[0], r);
      RequestsStay(Step(s, run[0]), run[1..], r);
    }
  }

  lemma RequestStays(s: State, a: Action, r: nat)
    requires Inv(s) && Enabled(s, a) && r < |s.p.reqs|
    ensures r < |Step(s, a).p.reqs| && SameRecord(s.p.reqs[r], Step(s, a).p.reqs[r])
  {
    match a
    case Front(b) => FrontStepKeeps(s, b, r);
    case Ship(q, _) => FrontStepKeeps(s, P.Publish(q, true), r);
    case _ =>
  }

  /** The step that validated request r, with a live key of that user. */
  predicate Validates(s: State, a: Action, r: nat, key: GoString, user: GoString)
  {
    && a == Front(P.Validate(r, Some(user)))
    && r < |s.p.reqs| && s.p.reqs[r].key == key && Live(s, key) && s.keys[key].user == user
  }

  predicate Unvalidated(s: State, r: nat)
  {
    r < |s.p.reqs| ==> s.p.reqs[r].user.None?
  }

  lemma FirstValidation(s: State, a: Action, r: nat)
    requires Enabled(s, a) && Unvalidated(s, r) && !Unvalidated(Step(s, a), r)
    ensures Validates(s, a, r, Step(s, a).p.reqs[r].key, Step(s, a).p.reqs[r].user.value)
  {
  }

  /** A request has a user only because some step of the run validated its key, at a moment when the
      key was not revoked and belonged to that user. */
  lemma {:induction false} WasValidated(s: State, run: seq<Action>, r: nat) returns (k: nat)
    requires Inv(s) && Runs(s, run) && Unvalidated(s, r) && !Unvalidated(Exec(s, run), r)
    ensures k < |run| && Runs(s, run[..k])
    ensures
      var x := Exec(s, run).p.reqs[r];
      Validates(Exec(s, run[..k]), run[k], r, x.key, x.user.value)
    decreases |run|
  {
    var t := Step(s, run[0]);
    StepKeepsInv(s, run[0]);
    if Unvalidated(t, r) {
      k := WasValidated(t, run[1..], r);
      assert run[..k + 1][0] == run[0] && run[..k + 1][1..] == run[1..][..k];
      k := k + 1;
    } else {
      FirstValidation(s, run[0], r);
      RequestsStay(t, run[1..], r);
      k := 0;
      assert run[..0] == [];
    }
  }

  /** End to end: each usage row was preceded by a step that validated, with a key that was live and
      belonged to the row's user, the request whose provider response it charges. */
  lemma RowsWereValidated(s: State, run: seq<Action>, j: nat) returns (k: nat)
    requires Initial(s) && Runs(s, run) && j < |Exec(s, run).d.led.log|
    requires Exec(s, run).d.led.log[j].op.Usage?
    ensures k < |run| && Runs(s, run[..k])
    ensures
      var t := Exec(s, run);
      var op := t.d.led.log[j].op;
      && op.msg < |t.d.msgs| && t.d.msgs[op.msg].src < |t.p.reqs|
      && Validates(Exec(s, run[..k]), run[k], t.d.msgs[op.msg].src, t.p.reqs[t.d.msgs[op.msg].src].key, op.user)
  {
    var t := Exec(s, run);
    InitialInv(s);
    RunKeepsInv(s, run);
    var op := t.d.led.log[j].op;
    assert RowFrom(t, op);
    assert MsgFrom(t, op.msg);
    k := WasValidated(s, run, t.d.msgs[op.msg].src);
  }

  predicate RevokedIn(s: State, key: GoString)
  {
    key in s.keys && s.keys[key].revoked
  }

  lemma StepAfterRevocation(s: State, a: Action, key: GoString, r: nat)
    requires Enabled(s, a) && RevokedIn(s, key)
    requires r < |Step(s, a).p.reqs| && Step(s, a).p.reqs[r].key == key
    requires Step(s, a).p.reqs[r].user.Some?
    ensures r < |s.p.reqs| && s.p.reqs[r].key == key && s.p.reqs[r].user == Step(s, a).p.reqs[r].user
    ensures RevokedIn(Step(s, a), key)
  {
  }

  /** Revocation is final: once a key is revoked it stays revoked and validates no further request,
      so a request with that key that has a user later had it before. */
  lemma {:induction false} NothingValidatesAfterRevocation(s: State, run: seq<Action>, key: GoString, r: nat)
    requires Runs(s, run) && RevokedIn(s, key)
    requires r < |Exec(s, run).p.reqs| && Exec(s, run).p.reqs[r].key == key && Exec(s, run).p.reqs[r].user.Some?
    ensures RevokedIn(Exec(s, run), key)
    ensures r < |s.p.reqs| && s.p.reqs[r].key == key && s.p.reqs[r].user == Exec(s, run).p.reqs[r].user
    decreases |run|
  {
    if run != [] {
      var t := Step(s, run[0]);
      assert RevokedIn(t, key);
      NothingValidatesAfterRevocation(t, run[1..], key, r);
      StepAfterRevocation(s, run[0], key, r);
    }
  }

  /** So every row that a revoked key still leaves goes back to a request validated before. */
  lemma RowsAfterRevocation(s0: State, before: seq<Action>, after: seq<Action>, key: GoString, j: nat)
    requires Initial(s0) && Runs(s0, before) && Runs(Exec(s0, before), after)
    requires RevokedIn(Exec(s0, before), key)
    requires
      var t := Exec(Exec(s0, before), after);
      && j < |t.d.led.log| && t.d.led.log[j].op.Usage? && t.d.led.log[j].op.msg < |t.d.msgs|
      && t.d.msgs[t.d.led.log[j].op.msg].src < |t.p.reqs|
      && t.p.reqs[t.d.msgs[t.d.led.log[j].op.msg].src].key == key
    ensures
      var s, t := Exec(s0, before), Exec(Exec(s0, before), after);
      var r := t.d.msgs[t.d.led.log[j].op.msg].src;
      r < |s.p.reqs| && s.p.reqs[r].key == key && s.p.reqs[r].user == Some(t.d.led.log[j].op.user)
  {
    var s, t := Exec(s0, before), Exec(Exec(s0, before), after);
    InitialInv(s0);
    RunKeepsInv(s0, before);
    RunKeepsInv(s, after);
    var op := t.d.led.log[j].op;
    assert RowFrom(t, op);
    assert MsgFrom(t, op.msg);
    NothingValidatesAfterRevocation(s, after, key, t.d.msgs[op.msg].src);
  }

  /** From the moment a key is revoked it validates nothing: whatever request with that key has a user
      later had it at that moment. */
  lemma RevocationIsFinal(s: State, key: GoString, run: seq<Action>, r: nat)
    requires key in s.keys && Runs(Step(s, Revoke(key)), run)
    requires r < |Exec(Step(s, Revoke(key)), run).p.reqs|
    requires Exec(Step(s, Revoke(key)), run).p.reqs[r].key == key
    requires Exec(Step(s, Revoke(key)), run).p.reqs[r].user.Some?
    ensures
      var t := Exec(Step(s, Revoke(key)), run);
      && key in t.keys && t.keys[key].revoked
      && r < |s.p.reqs| && s.p.reqs[r].key == key && s.p.reqs[r].user == t.p.reqs[r].user
  {
    RevokeRevokes(s, key);
    NothingValidatesAfterRevocation(Step(s, Revoke(key)), run, key, r);
  }

  /** And no such request is validated any more. */
  lemma RevokedKeyValidatesNothing(s: State, key: GoString, run: seq<Action>, r: nat, user: GoString)
    requires key in s.keys && Runs(Step(s, Revoke(key)), run)
    requires P.At(Exec(Step(s, Revoke(key)), run).p, r, P.Validating)
    requires Exec(Step(s, Revoke(key)), run).p.reqs[r].key == key
    ensures !Enabled(Exec(Step(s, Revoke(key)), run), Front(P.Validate(r, Some(user))))
  {
    RevokeRevokes(s, key);
    StaysRevoked(Step(s, Revoke(key)), run, key);
    ValidationNeedsLiveKey(Exec(Step(s, Revoke(key)), run), r, user);
  }

  lemma {:induction false} StaysRevoked(s: State, run: seq<Action>, key: GoString)
    requires Runs(s, run) && RevokedIn(s, key)
    ensures RevokedIn(Exec(s, run), key)
    decreases |run|
  {
    if run != [] {
      StaysRevoked(Step(s, run[0]), run[1..], key);
    }
  }

  /** So every row that a key leaves after its revocation goes back to a request that was validated, as that
      row's user's, before. */
  lemma RowsAfterRevoke(s0: State, before: seq<Action>, key: GoString, after: seq<Action>, j: nat)
    requires Initial(s0) && Runs(s0, before) && key in Exec(s0, before).keys
    requires Runs(Step(Exec(s0, before), Revoke(key)), after)
    requires
      var t := Exec(Step(Exec(s0, before), Revoke(key)), after);
      && j < |t.d.led.log| && t.d.led.log[j].op.Usage? && t.d.led.log[j].op.msg < |t.d.msgs|
      && t.d.msgs[t.d.led.log[j].op.msg].src < |t.p.reqs|
      && t.p.reqs[t.d.msgs[t.d.led.log[j].op.msg].src].key == key
    ensures
      var s, t := Exec(s0, before), Exec(Step(Exec(s0, before), Revoke(key)), after);
      var r := t.d.msgs[t.d.led.log[j].op.msg].src;
      r < |s.p.reqs| && s.p.reqs[r].key == key && s.p.reqs[r].user == Some(t.d.led.log[j].op.user)
  {
    var s := Exec(s0, before);
    var u := Step(s, Revoke(key));
    InitialInv(s0);
    RunKeepsInv(s0, before);
    StepKeepsInv(s, Revoke(key));
    RunKeepsInv(u, after);
    var t := Exec(u, after);
    var op := t.d.led.log[j].op;
    assert RowFrom(t, op);
    assert MsgFrom(t, op.msg);
    RevocationIsFinal(s, key, after, t.d.msgs[op.msg].src);
  }
}
