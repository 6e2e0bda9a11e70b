/** Does a balance of 10 at admission guarantee that the usage can be charged later? */
module Admission {
  import opened Text
  import opened Sums
  import opened System
  import A = Attribution
  import P = Proxy
  import T = Transparency
  import D = Delivery
  import C = Custody
  import S = DeliverySafety
  import L = Ledger
  import Dr = Drain
  import Cost
  import Rounding

  /** Admitted on the balance of u, and neither answered, failed nor abandoned yet. */
  function Admitted(u: GoString): P.Req -> int
  {
    (x: P.Req) =>
      if x.user == Some(u) && (x.pc.Looking? || x.pc.Calling? || x.pc.Caching? || x.pc.Publishing?) then 1 else 0
  }

  /** Published for u and not charged yet. */
  function Unpaid(u: GoString): D.Msg -> int
  {
    (x: D.Msg) => if x.event.Some? && x.event.value.user == u && x.debits == 0 then 1 else 0
  }

  function Outstanding(s: State, u: GoString): int
  {
    SumOf(s.p.reqs, Admitted(u)) + SumOf(s.d.msgs, Unpaid(u))
  }

  /** Published for u, less what was deducted for it; a message that is charged again counts negative. */
  function Open(u: GoString): D.Msg -> int
  {
    (x: D.Msg) => if x.event.Some? && x.event.value.user == u then 1 - x.debits else 0
  }

  function Net(s: State, u: GoString): int
  {
    SumOf(s.p.reqs, Admitted(u)) + SumOf(s.d.msgs, Open(u))
  }

  /** Deductions beyond the first. */
  function Overpaid(u: GoString): D.Msg -> int
  {
    (x: D.Msg) => if x.event.Some? && x.event.value.user == u && 1 < x.debits then x.debits - 1 else 0
  }

  predicate GoodDeposit(a: Action)
  {
    a.Back? && a.b.Store? && a.b.a.Begin? ==> a.b.a.op.Deposit? && 0 <= a.b.a.op.amount
  }

  predicate Affordable(s: State, model: GoString, resp: P.Response, c: nat)
  {
    0 <= s.d.tariff(Repaired(model), resp.prompt + resp.completion) <= c
  }

  /** A step, faulty or not, with a deposit that is not negative, with a provider response that costs
      at most c, and with at most w outstanding for u afterwards. */
  predicate Sound(s: State, a: Action, u: GoString, c: nat, w: nat)
    requires Enabled(s, a)
  {
    && GoodDeposit(a)
    && (a.Front? && a.a.Call? && a.a.resp.Some? ==> Affordable(s, s.p.reqs[a.a.r].body.model, a.a.resp.value, c))
    && Outstanding(Step(s, a), u) <= w
  }

  predicate SoundRun(s: State, run: seq<Action>, u: GoString, c: nat, w: nat)
    requires Runs(s, run)
    decreases |run|
  {
    run == [] || (Sound(s, run[0], u, c, w) && SoundRun(Step(s, run[0]), run[1..], u, c, w))
  }

  /** No fault that charges twice. */
  predicate CleanBack(s: State, a: Action)
  {
    a.Back? ==> S.Clean(s.d, a.b)
  }

  predicate Fair(s: State, a: Action, u: GoString, c: nat, w: nat)
    requires Enabled(s, a)
  {
    Sound(s, a, u, c, w) && CleanBack(s, a)
  }

  predicate FairRun(s: State, run: seq<Action>, u: GoString, c: nat, w: nat)
    requires Runs(s, run)
    decreases |run|
  {
    run == [] || (Fair(s, run[0], u, c, w) && FairRun(Step(s, run[0]), run[1..], u, c, w))
  }

  predicate DepositOk(s: State, i: nat)
    requires i < |s.d.led.slots|
  {
    s.d.led.slots[i].Call? && s.d.led.slots[i].op.Deposit? ==> 0 <= s.d.led.slots[i].op.amount
  }

  predicate RespOk(s: State, r: nat, c: nat)
    requires r < |s.p.reqs|
  {
    s.p.reqs[r].resp.Some? ==> Affordable(s, s.p.reqs[r].body.model, s.p.reqs[r].resp.value, c)
  }

  /** min(0, 10 - c*w), the least that is kept in reserve. */
  function Floor(c: nat, w: nat): int
  {
    if 10 - c * w < 0 then 10 - c * w else 0
  }

  /** The balance less c for everything outstanding. */
  function Reserve(s: State, u: GoString, c: nat): int
  {
    L.Bal(s.d.led, u) - c * Outstanding(s, u)
  }

  function NetReserve(s: State, u: GoString, c: nat): int
  {
    L.Bal(s.d.led, u) - c * Net(s, u)
  }

  predicate Deposits(s: State)
  {
    forall i :: 0 <= i < |s.d.led.slots| ==> DepositOk(s, i)
  }

  predicate Responses(s: State, c: nat)
  {
    forall r :: 0 <= r < |s.p.reqs| ==> RespOk(s, r, c)
  }

  ghost predicate Inv(s: State, u: GoString, c: nat, w: nat)
  {
    A.Inv(s) && Deposits(s) && Responses(s, c) && NetReserve(s, u, c) >= Floor(c, w)
  }

  // The cost of a message is the cost of the response behind it.
  lemma MessageCost(s: State, m: nat, c: nat)
    requires A.Inv(s) && m < |s.d.msgs| && Responses(s, c)
    ensures s.d.msgs[m].event.Some? && 0 <= D.OpOf(s.d, m).cost <= c
  {
    assert A.MsgFrom(s, m);
    assert RespOk(s, s.d.msgs[m].src, c);
  }

  lemma {:induction false} OpenIsUnpaidLessOverpaid(msgs: seq<D.Msg>, u: GoString)
    ensures SumOf(msgs, Open(u)) == SumOf(msgs, Unpaid(u)) - SumOf(msgs, Overpaid(u))
    ensures SumOf(msgs, Open(u)) <= SumOf(msgs, Unpaid(u))
  {
    if msgs != [] {
      OpenIsUnpaidLessOverpaid(msgs[1..], u);
    }
  }

  lemma FrontSum(s: State, a: P.Action, f: P.Req -> int)
    requires P.Enabled(s.p, a)
    ensures a.Arrive? ==>
      SumOf(P.Step(s.p, a).reqs, f) == SumOf(s.p.reqs, f) + f(P.Req(a.key, a.body, None, None, false, P.Validating))
    ensures a.Expire? || a.Flush? ==> P.Step(s.p, a).reqs == s.p.reqs
    ensures !a.Arrive? && !a.Expire? && !a.Flush? ==>
      && a.r < |s.p.reqs|
      && SumOf(P.Step(s.p, a).reqs, f) == SumOf(s.p.reqs, f) - f(s.p.reqs[a.r]) + f(P.Advance(s.p, a.r, a))
  {
    if a.Arrive? {
      SumAppend(s.p.reqs, P.Req(a.key, a.body, None, None, false, P.Validating), f);
    } else if !a.Expire? && !a.Flush? {
      SumUpdate(s.p.reqs, a.r, P.Advance(s.p, a.r, a), f);
    }
  }

  // Only a passing balance read admits anybody.
  lemma FrontAdmits(s: State, a: P.Action, u: GoString)
    requires A.Inv(s) && Enabled(s, Front(a))
    ensures
      var n, m := SumOf(s.p.reqs, Admitted(u)), SumOf(P.Step(s.p, a).reqs, Admitted(u));
      m <= n || (m == n + 1 && a.Check? && 10 <= L.Bal(s.d.led, u))
  {
    FrontSum(s, a, Admitted(u));
    if !a.Arrive? && !a.Expire? && !a.Flush? {
      assert T.ReqOk(s.p, a.r);
    }
  }

  lemma Products(c: nat, x: int, y: int)
    ensures x <= y ==> c * x <= c * y
    ensures c * (x + 1) == c * x + c
    ensures c * (x - 1) == c * x - c
  {
  }

  lemma FrontKeepsReserve(s: State, a: P.Action, u: GoString, c: nat, w: nat)
    requires A.Inv(s) && NetReserve(s, u, c) >= Floor(c, w) && Enabled(s, Front(a))
    requires Outstanding(Step(s, Front(a)), u) <= w
    ensures NetReserve(Step(s, Front(a)), u, c) >= Floor(c, w)
  {
    var t := Step(s, Front(a));
    FrontAdmits(s, a, u);
    OpenIsUnpaidLessOverpaid(s.d.msgs, u);
    Products(c, Net(t, u), Net(s, u));
    Products(c, Net(t, u), w);
  }

  // A publish turns an admitted request into a message that is still to be paid.
  lemma ShipMoves(s: State, a: Action, u: GoString)
    requires A.Inv(s) && Enabled(s, a) && a.Ship?
    ensures Net(Step(s, a), u) == Net(s, u) && Outstanding(Step(s, a), u) == Outstanding(s, u)
    ensures Step(s, a).d.led == s.d.led
  {
    var x := s.p.reqs[a.r];
    assert A.OwnerOk(s, a.r);
    ValidIsUnchanged(x.user.value);
    FrontSum(s, P.Publish(a.r, true), Admitted(u));
    var msg := D.Msg(Some(Received(s, a.r, a.at)), a.r, D.Ready, 0, 0, 0);
    SumAppend(s.d.msgs, msg, Unpaid(u));
    SumAppend(s.d.msgs, msg, Open(u));
  }

  // A deduction for u.
  predicate Deducts(d: D.State, b: D.Action, u: GoString)
    requires D.Enabled(d, b)
  {
    b.Store? && b.a.Update? && D.Pays(d, b.a) && d.led.slots[b.a.i].op.user == u
  }

  // Apart from deductions, the queue protocol does not change what is open.
  lemma BackOpen(d: D.State, b: D.Action, u: GoString)
    requires C.Inv(d) && D.Enabled(d, b) && !b.Publish?
    ensures SumOf(D.Step(d, b).msgs, Open(u)) == SumOf(d.msgs, Open(u)) - (if Deducts(d, b, u) then 1 else 0)
    ensures SumOf(D.Step(d, b).msgs, Unpaid(u)) <= SumOf(d.msgs, Unpaid(u))
  {
    var t := D.Step(d, b);
    C.Touched(d, b);
    if b.Store? {
      if D.Pays(d, b.a) {
        var m := d.led.slots[b.a.i].op.msg;
        SumUpdate(d.msgs, m, t.msgs[m], Open(u));
        SumUpdate(d.msgs, m, t.msgs[m], Unpaid(u));
      }
    } else {
      Dr.NothingDeducted(d, b);
      SumSame(t.msgs, d.msgs, Open(u), Open(u));
      SumSame(t.msgs, d.msgs, Unpaid(u), Unpaid(u));
    }
  }

  lemma BackBalance(s: State, b: D.Action, u: GoString, c: nat)
    requires A.Inv(s) && Deposits(s) && Responses(s, c) && Enabled(s, Back(b))
    ensures L.Bal(D.Step(s.d, b).led, u) >= L.Bal(s.d.led, u) - (if Deducts(s.d, b, u) then c else 0)
  {
    C.Touched(s.d, b);
    if b.Store? && b.a.Update? {
      var op := s.d.led.slots[b.a.i].op;
      assert C.SlotOk(s.d, b.a.i) && DepositOk(s, b.a.i);
      if op.Usage? {
        MessageCost(s, op.msg, c);
      }
    }
  }

  lemma BackKeepsReserve(s: State, b: D.Action, u: GoString, c: nat, w: nat)
    requires Inv(s, u, c, w) && Enabled(s, Back(b))
    ensures NetReserve(Step(s, Back(b)), u, c) >= Floor(c, w)
  {
    BackOpen(s.d, b, u);
    BackBalance(s, b, u, c);
    Products(c, Net(s, u), 0);
  }

  lemma BackDeposit(d: D.State, b: D.Action, i: nat)
    requires D.Enabled(d, b) && i < |d.led.slots|
    ensures
      var x := D.Step(d, b).led.slots;
      && |x| == |d.led.slots|
      && (x[i].Call? && x[i].op.Deposit? ==>
            (d.led.slots[i].Call? && x[i].op == d.led.slots[i].op) || (b.Store? && b.a.Begin? && x[i].op == b.a.op))
  {
  }

  lemma SlotsStay(s: State, a: Action)
    requires Enabled(s, a)
    ensures |Step(s, a).d.led.slots| == |s.d.led.slots|
    ensures !a.Back? ==> Step(s, a).d.led == s.d.led
  {
  }

  lemma DepositStays(s: State, a: Action, i: nat)
    requires Enabled(s, a) && GoodDeposit(a) && i < |s.d.led.slots| && DepositOk(s, i)
    ensures i < |Step(s, a).d.led.slots| && DepositOk(Step(s, a), i)
  {
    if a.Back? {
      BackDeposit(s.d, a.b, i);
    } else {
      SlotsStay(s, a);
    }
  }

  lemma StepKeepsDeposits(s: State, a: Action)
    requires Enabled(s, a) && GoodDeposit(a) && Deposits(s)
    ensures Deposits(Step(s, a))
  {
    SlotsStay(s, a);
    forall i | 0 <= i < |Step(s, a).d.led.slots| ensures DepositOk(Step(s, a), i) {
      DepositStays(s, a, i);
    }
  }

  lemma TariffStays(s: State, a: Action)
    requires Enabled(s, a)
    ensures Step(s, a).d.tariff == s.d.tariff
  {
  }

  lemma FrontResponse(s: State, a: P.Action, r: nat, c: nat)
    requires P.Enabled(s.p, a) && r < |P.Step(s.p, a).reqs|
    requires r < |s.p.reqs| ==> RespOk(s, r, c)
    requires a.Call? && a.resp.Some? ==> Affordable(s, s.p.reqs[a.r].body.model, a.resp.value, c)
    ensures RespOk(s.(p := P.Step(s.p, a)), r, c)
  {
  }

  lemma StepKeepsResponses(s: State, a: Action, c: nat)
    requires Enabled(s, a) && Responses(s, c)
    requires a.Front? && a.a.Call? && a.a.resp.Some? ==> Affordable(s, s.p.reqs[a.a.r].body.model, a.a.resp.value, c)
    ensures Responses(Step(s, a), c)
  {
    TariffStays(s, a);
    forall r | 0 <= r < |Step(s, a).p.reqs| ensures RespOk(Step(s, a), r, c) {
      assert r < |s.p.reqs| ==> RespOk(s, r, c);
      if a.Front? {
        FrontResponse(s, a.a, r, c);
      } else if a.Ship? {
        FrontResponse(s, P.Publish(a.r, true), r, c);
      }
    }
  }

  lemma StepKeepsInv(s: State, a: Action, u: GoString, c: nat, w: nat)
    requires Inv(s, u, c, w) && Enabled(s, a) && Sound(s, a, u, c, w)
    ensures Inv(Step(s, a), u, c, w)
  {
    A.StepKeepsInv(s, a);
    StepKeepsDeposits(s, a);
    StepKeepsResponses(s, a, c);
    match a
    case Front(b) => FrontKeepsReserve(s, b, u, c, w);
    case Ship(_, _) => ShipMoves(s, a, u);
    case Back(b) => BackKeepsReserve(s, b, u, c, w);
    case _ =>
  }

  lemma {:induction false} RunKeepsInv(s: State, run: seq<Action>, u: GoString, c: nat, w: nat)
    requires Inv(s, u, c, w) && Runs(s, run) && SoundRun(s, run, u, c, w)
    ensures Inv(Exec(s, run), u, c, w)
    decreases |run|
  {
    if run != [] {
      StepKeepsInv(s, run[0], u, c, w);
      RunKeepsInv(Step(s, run[0]), run[1..], u, c, w);
    }
  }

  lemma InitialInv(s: State, u: GoString, c: nat, w: nat)
    requires Initial(s) && 0 <= L.Bal(s.d.led, u)
    ensures Inv(s, u, c, w)
  {
    A.InitialInv(s);
    assert Net(s, u) == 0;
  }

  lemma NetReserveIsKept(s: State, run: seq<Action>, u: GoString, c: nat, w: nat)
    requires Initial(s) && 0 <= L.Bal(s.d.led, u) && Runs(s, run) && SoundRun(s, run, u, c, w)
    ensures NetReserve(Exec(s, run), u, c) >= Floor(c, w)
  {
    InitialInv(s, u, c, w);
    RunKeepsInv(s, run, u, c, w);
  }

  lemma NetReserveIs(t: State, u: GoString, c: nat)
    ensures NetReserve(t, u, c) == L.Bal(t.d.led, u) - c * (Outstanding(t, u) - SumOf(t.d.msgs, Overpaid(u)))
  {
    OpenIsUnpaidLessOverpaid(t.d.msgs, u);
    assert Net(t, u) == Outstanding(t, u) - SumOf(t.d.msgs, Overpaid(u));
  }

  /** With at most w requests outstanding for u, each costing at most c, and whatever fails: the
      balance of u covers what is outstanding but for max(0, c*w - 10) and for c each time something
      that was paid has been deducted again. */
  lemma ReserveDegrades(s: State, run: seq<Action>, u: GoString, c: nat, w: nat)
    requires Initial(s) && 0 <= L.Bal(s.d.led, u) && Runs(s, run) && SoundRun(s, run, u, c, w)
    ensures
      var t := Exec(s, run);
      L.Bal(t.d.led, u) - c * (Outstanding(t, u) - SumOf(t.d.msgs, Overpaid(u))) >= Floor(c, w)
  {
    NetReserveIsKept(s, run, u, c, w);
    NetReserveIs(Exec(s, run), u, c);
  }

  lemma {:induction false} FairRunIsClean(s: State, run: seq<Action>, u: GoString, c: nat, w: nat)
    requires S.CleanInv(s.d) && Runs(s, run) && FairRun(s, run, u, c, w)
    ensures SoundRun(s, run, u, c, w) && S.CleanInv(Exec(s, run).d)
    decreases |run|
  {
    if run != [] {
      CleanStep(s, run[0]);
      FairRunIsClean(Step(s, run[0]), run[1..], u, c, w);
    }
  }

  lemma CleanStep(s: State, a: Action)
    requires S.CleanInv(s.d) && Enabled(s, a) && CleanBack(s, a)
    ensures S.CleanInv(Step(s, a).d)
  {
    match a
    case Ship(r, at) => S.StepKeepsClean(s.d, D.Publish(Some(Received(s, r, at)), r));
    case Back(b) => S.StepKeepsClean(s.d, b);
    case _ =>
  }

  lemma NothingOverpaid(t: State, u: GoString)
    requires S.CleanInv(t.d)
    ensures SumOf(t.d.msgs, Overpaid(u)) == 0
  {
    forall m | 0 <= m < |t.d.msgs| ensures Overpaid(u)(t.d.msgs[m]) == 0 {
      assert S.PaidOnce(t.d, m);
    }
    SumZero(t.d.msgs, Overpaid(u));
  }

  /** Without the faults that charge twice, the balance covers what is outstanding but for
      max(0, c*w - 10). */
  lemma ReserveIsKept(s: State, run: seq<Action>, u: GoString, c: nat, w: nat)
    requires Initial(s) && 0 <= L.Bal(s.d.led, u) && Runs(s, run) && FairRun(s, run, u, c, w)
    ensures L.Bal(Exec(s, run).d.led, u) - c * Outstanding(Exec(s, run), u) >= Floor(c, w)
  {
    FairRunIsClean(s, run, u, c, w);
    ReserveDegrades(s, run, u, c, w);
    NothingOverpaid(Exec(s, run), u);
  }

  /** A charge for u that is about to be checked: of a message that nobody has deducted, or over a
      connection that is still open.  Any other charge is a second one for a message that was paid
      after its first delivery lost its connection. */
  predicate AboutToCheck(s: State, i: nat, u: GoString)
  {
    && L.At(s.d.led, i, L.Reading) && S.Collectable(s.d, i)
    && s.d.led.slots[i].op.user == u
  }

  /** So if c*w <= 10, whatever was admitted and published for u can be charged: in every state
      that can be reached every charge for u passes its check. */
  lemma AdmittedIsNeverRefused(s: State, run: seq<Action>, u: GoString, c: nat, w: nat, i: nat)
    requires Initial(s) && 0 <= L.Bal(s.d.led, u) && Runs(s, run) && FairRun(s, run, u, c, w)
    requires c * w <= 10
    requires AboutToCheck(Exec(s, run), i, u)
    ensures L.Passes(Exec(s, run).d.led, i, true)
  {
    var t := Exec(s, run);
    ReserveIsKept(s, run, u, c, w);
    FairRunIsClean(s, run, u, c, w);
    InitialInv(s, u, c, w);
    RunKeepsInv(s, run, u, c, w);
    ChargeIsOutstanding(t, i, u, c);
    Products(c, 1, Outstanding(t, u));
  }

  lemma ChargeIsOutstanding(t: State, i: nat, u: GoString, c: nat)
    requires A.Inv(t) && Responses(t, c) && S.CleanInv(t.d) && AboutToCheck(t, i, u)
    ensures t.d.led.slots[i].op.cost <= c && 1 <= Outstanding(t, u)
  {
    var m := t.d.led.slots[i].op.msg;
    assert C.SlotOk(t.d, i);
    S.CollectableIsUnpaid(t.d, i);
    MessageCost(t, m, c);
    SumDominates(t.d.msgs, m, Unpaid(u));
    SumNonNegative(t.p.reqs, Admitted(u));
  }

  /** What the mock provider can answer. */
  predicate MockResponse(resp: P.Response)
  {
    50 <= resp.prompt < 200 && 30 <= resp.completion < 130
  }

  /** Every response of the mock provider costs one unit. */
  ghost predicate MockCostsOne(tariff: D.Tariff)
  {
    forall model, tokens :: 80 <= tokens <= 328 ==> tariff(model, tokens) == 1
  }

  /** At the price list with 0.03, which is what it is set to, it does, ... */
  lemma ShippedPriceCostsOne(prices: Cost.Prices)
    requires prices == map[Literal("gpt-4") := 0.03, Literal("gpt-4-turbo") := 0.03, Literal("default") := 0.03]
    ensures MockCostsOne(Cost.TariffOf(prices))
  {
    forall model, tokens | 80 <= tokens <= 328 ensures Cost.TariffOf(prices)(model, tokens) == 1 {
      Cost.PriceCases(prices, model);
      Cost.MockRequestCostsOne(tokens);
    }
  }

  /** ... in float64 as well. */
  lemma ShippedPriceCostsOneInFloat(rnd: real -> real, range: Rounding.Range, prices: Cost.Prices)
    requires Rounding.Nearest(rnd, range) && range.low <= 0.0001 && 1000.0 <= range.high
    requires
      prices == map[Literal("gpt-4") := rnd(0.03), Literal("gpt-4-turbo") := rnd(0.03), Literal("default") := rnd(0.03)]
    ensures MockCostsOne(Rounding.FloatTariff(rnd, prices))
  {
    forall model, tokens | 80 <= tokens <= 328 ensures Rounding.FloatTariff(rnd, prices)(model, tokens) == 1 {
      assert Rounding.FloatPrice(rnd, prices, model) == rnd(0.03);
      Rounding.MockRequestCostsOneInFloat(rnd, range, tokens);
    }
  }

  /** A fair step but for the price: its response is one of the mock provider's. */
  predicate MockStep(s: State, a: Action, u: GoString)
    requires Enabled(s, a)
  {
    && CleanBack(s, a) && GoodDeposit(a) && Outstanding(Step(s, a), u) <= 10
    && (a.Front? && a.a.Call? && a.a.resp.Some? ==> MockResponse(a.a.resp.value))
  }

  predicate MockRun(s: State, run: seq<Action>, u: GoString)
    requires Runs(s, run)
    decreases |run|
  {
    run == [] || (MockStep(s, run[0], u) && MockRun(Step(s, run[0]), run[1..], u))
  }

  lemma {:induction false} MockRunIsFair(s: State, run: seq<Action>, u: GoString)
    requires Runs(s, run) && MockRun(s, run, u) && MockCostsOne(s.d.tariff)
    ensures FairRun(s, run, u, 1, 10)
    decreases |run|
  {
    if run != [] {
      TariffStays(s, run[0]);
      MockRunIsFair(Step(s, run[0]), run[1..], u);
    }
  }

  /** With the mock provider at the shipped price, ten outstanding requests per user are safe: over
      every such run each charge passes its check. */
  lemma TenMockRequestsAreNeverRefused(s: State, run: seq<Action>, u: GoString, i: nat)
    requires Initial(s) && 0 <= L.Bal(s.d.led, u) && Runs(s, run) && MockRun(s, run, u)
    requires MockCostsOne(s.d.tariff)
    requires AboutToCheck(Exec(s, run), i, u)
    ensures L.Passes(Exec(s, run).d.led, i, true)
  {
    MockRunIsFair(s, run, u);
    AdmittedIsNeverRefused(s, run, u, 1, 10, i);
  }
}
