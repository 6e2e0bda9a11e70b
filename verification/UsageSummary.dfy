/** The usage statistics and what they have to do with charging. */
module UsageSummary {
  import opened Text
  import opened Sums
  import opened Ledger
  import Cost
  import Rounding
  import R = Reconcile

  datatype Summary = Summary(tokens: int, amount: int, requests: int)

  const DAY: nat := 86400

  /** Any other period counts as a day. */
  function Window(period: GoString): nat
  {
    if period == Literal("week") then 7 * DAY
    else if period == Literal("month") then 30 * DAY
    else DAY
  }

  predicate Counts(row: Row, u: User, since: int)
  {
    row.op.Usage? && row.op.user == u && since <= row.at
  }

  function TokensOf(u: User, since: int): Row -> int
  {
    (row: Row) => if Counts(row, u, since) then row.op.tokens else 0
  }

  function AmountOf(u: User, since: int): Row -> int
  {
    (row: Row) => if Counts(row, u, since) then row.op.cost else 0
  }

  function RequestsOf(u: User, since: int): Row -> int
  {
    (row: Row) => if Counts(row, u, since) then 1 else 0
  }

  function Since(log: seq<Row>, u: User, since: int): Summary
  {
    Summary(SumOf(log, TokensOf(u, since)), SumOf(log, AmountOf(u, since)), SumOf(log, RequestsOf(u, since)))
  }

  function GetUsage(log: seq<Row>, u: User, period: GoString, now: int): Summary
  {
    Since(log, u, now - Window(period))
  }

  /** The statistics of a log, row by row: a row adds its tokens, its cost and one request if it is usage of
      the user and not older than a week, a month or, for any other period, a day; nothing else does. */
  lemma {:induction false} UsageRowByRow(log: seq<Row>, row: Row, u: User, period: GoString, now: int)
    ensures GetUsage([], u, period, now) == Summary(0, 0, 0)
    ensures
      var n := if period == Literal("week") then 604800 else if period == Literal("month") then 2592000 else 86400;
      var s := GetUsage(log, u, period, now);
      GetUsage(log + [row], u, period, now) ==
        if row.op.Usage? && row.op.user == u && now - n <= row.at
        then Summary(s.tokens + row.op.tokens, s.amount + row.op.cost, s.requests + 1)
        else s
  {
    assert |Literal("week")| == 4 && |Literal("month")| == 5;
    var since := now - Window(period);
    SumAppend(log, row, TokensOf(u, since));
    SumAppend(log, row, AmountOf(u, since));
    SumAppend(log, row, RequestsOf(u, since));
  }

  predicate NoLess(x: Summary, y: Summary)
  {
    x.tokens <= y.tokens && x.amount <= y.amount && x.requests <= y.requests
  }

  predicate NonNegativeRows(log: seq<Row>)
  {
    forall i :: 0 <= i < |log| && log[i].op.Usage? ==> 0 <= log[i].op.tokens && 0 <= log[i].op.cost
  }

  lemma {:induction false} LongerWindow(log: seq<Row>, u: User, early: int, late: int)
    requires NonNegativeRows(log) && early <= late
    ensures NoLess(Since(log, u, late), Since(log, u, early))
  {
    if log != [] {
      assert forall i :: 0 <= i < |log[1..]| ==> log[1..][i] == log[i + 1];
      LongerWindow(log[1..], u, early, late);
      assert log[0].op.Usage? ==> 0 <= log[0].op.tokens && 0 <= log[0].op.cost;
    }
  }

  /** A day's totals are at most the week's, and those at most the month's. */
  lemma PeriodsAreNested(log: seq<Row>, u: User, other: GoString, now: int)
    requires NonNegativeRows(log)
    requires other != Literal("week") && other != Literal("month")
    ensures NoLess(GetUsage(log, u, other, now), GetUsage(log, u, Literal("week"), now))
    ensures NoLess(GetUsage(log, u, Literal("week"), now), GetUsage(log, u, Literal("month"), now))
    ensures GetUsage(log, u, other, now) == GetUsage(log, u, Literal("day"), now)
  {
    assert |Literal("week")| == 4 && |Literal("month")| == 5 && |Literal("day")| == 3;
    LongerWindow(log, u, now - 7 * DAY, now - DAY);
    LongerWindow(log, u, now - 30 * DAY, now - 7 * DAY);
  }

  /** The token counts of the rows in the window. */
  function TokenList(log: seq<Row>, u: User, since: int): seq<int>
  {
    if log == [] then []
    else (if Counts(log[0], u, since) then [log[0].op.tokens] else []) + TokenList(log[1..], u, since)
  }

  predicate AtPrice(log: seq<Row>, u: User, since: int, price: real)
  {
    forall i :: 0 <= i < |log| && Counts(log[i], u, since) ==> log[i].op.cost == Cost.CostAt(log[i].op.tokens, price)
  }

  lemma {:induction false} SummaryIsList(log: seq<Row>, u: User, since: int, price: real)
    requires AtPrice(log, u, since, price)
    ensures
      var list := TokenList(log, u, since);
      Since(log, u, since) == Summary(SumOf(list, Cost.Whole()), SumOf(list, Cost.Billed(price)), |list|)
  {
    if log != [] {
      var rest := TokenList(log[1..], u, since);
      assert forall i :: 0 <= i < |log[1..]| ==> log[1..][i] == log[i + 1];
      SummaryIsList(log[1..], u, since, price);
      if Counts(log[0], u, since) {
        var list := TokenList(log, u, since);
        assert list[0] == log[0].op.tokens && list[1..] == rest;
      } else {
        assert TokenList(log, u, since) == rest;
      }
    }
  }

  /** At one price the total amount is the exact amount for the total tokens, rounded up by less
      than one unit per request. */
  lemma AmountMatchesTokens(log: seq<Row>, u: User, since: int, price: real)
    requires AtPrice(log, u, since, price)
    ensures
      var s := Since(log, u, since);
      && Cost.Exact(s.tokens, price) <= s.amount as real
      && (0 < s.requests ==> (s.amount as real) < Cost.Exact(s.tokens, price) + s.requests as real)
  {
    SummaryIsList(log, u, since, price);
    Cost.BillForEvents(TokenList(log, u, since), price);
  }

  /** Every cost is within one of the exact cost, as those computed in float64 are. */
  predicate NearPrice(log: seq<Row>, u: User, since: int, price: real)
  {
    forall i :: 0 <= i < |log| && Counts(log[i], u, since) ==>
      -1 <= log[i].op.cost - Cost.CostAt(log[i].op.tokens, price) <= 1
  }

  lemma {:induction false} SummaryIsNearList(log: seq<Row>, u: User, since: int, price: real)
    requires NearPrice(log, u, since, price)
    ensures
      var list, s := TokenList(log, u, since), Since(log, u, since);
      && s.tokens == SumOf(list, Cost.Whole()) && s.requests == |list|
      && -|list| <= s.amount - SumOf(list, Cost.Billed(price)) <= |list|
  {
    if log != [] {
      var rest := TokenList(log[1..], u, since);
      assert forall i :: 0 <= i < |log[1..]| ==> log[1..][i] == log[i + 1];
      SummaryIsNearList(log[1..], u, since, price);
      if Counts(log[0], u, since) {
        var list := TokenList(log, u, since);
        assert list[0] == log[0].op.tokens && list[1..] == rest;
      } else {
        assert TokenList(log, u, since) == rest;
      }
    }
  }

  /** Rounding widens the interval by one unit per request on either side. */
  lemma FloatAmountMatchesTokens(log: seq<Row>, u: User, since: int, price: real)
    requires NearPrice(log, u, since, price)
    ensures
      var s := Since(log, u, since);
      && Cost.Exact(s.tokens, price) - s.requests as real <= s.amount as real
      && (0 < s.requests ==> (s.amount as real) < Cost.Exact(s.tokens, price) + 2.0 * s.requests as real)
  {
    SummaryIsNearList(log, u, since, price);
    Cost.BillForEvents(TokenList(log, u, since), price);
  }

  /** What holds of every operation that is under way or recorded. */
  ghost predicate Throughout(s: State, p: Op -> bool)
  {
    && (forall i :: 0 <= i < |s.slots| && s.slots[i].Call? ==> p(s.slots[i].op))
    && (forall j :: 0 <= j < |s.log| ==> p(s.log[j].op))
  }

  /** A run records nothing that was not begun. */
  lemma {:induction false} RecordedWasBegun(s: State, run: seq<Action>, p: Op -> bool)
    requires Runs(s, run) && Throughout(s, p)
    requires forall a :: a in run && a.Begin? ==> p(a.op)
    ensures Throughout(Exec(s, run), p)
    decreases |run|
  {
    if run != [] {
      assert run[0] in run;
      RecordedWasBegun(Step(s, run[0]), run[1..], p);
    }
  }

  /** Every charge is made at the tariff. */
  function PricedAt(tariff: (GoString, int) -> int): Op -> bool
  {
    (op: Op) => op.Usage? ==> op.cost == tariff(op.model, op.tokens)
  }

  lemma LogIsPriced(s: State, run: seq<Action>, tariff: (GoString, int) -> int)
    requires Runs(s, run) && Throughout(s, PricedAt(tariff))
    requires forall a :: a in run && a.Begin? ==> PricedAt(tariff)(a.op)
    ensures forall j :: 0 <= j < |Exec(s, run).log| && Exec(s, run).log[j].op.Usage? ==>
      var op := Exec(s, run).log[j].op;
      op.cost == tariff(op.model, op.tokens)
  {
    RecordedWasBegun(s, run, PricedAt(tariff));
    forall j | 0 <= j < |Exec(s, run).log| && Exec(s, run).log[j].op.Usage?
      ensures Exec(s, run).log[j].op.cost == tariff(Exec(s, run).log[j].op.model, Exec(s, run).log[j].op.tokens)
    {
      assert PricedAt(tariff)(Exec(s, run).log[j].op);
    }
  }

  function NonNegativeOp(): Op -> bool
  {
    (op: Op) => op.Usage? ==> 0 <= op.tokens && 0 <= op.cost
  }

  /** If no charge is begun with negative tokens or a negative cost, the periods are nested in the
      log of any run. */
  lemma PeriodsOfRunAreNested(s: State, run: seq<Action>, u: User, other: GoString, now: int)
    requires Runs(s, run) && s.log == [] && Quiescent(s)
    requires forall a :: a in run && a.Begin? && a.op.Usage? ==> 0 <= a.op.tokens && 0 <= a.op.cost
    requires other != Literal("week") && other != Literal("month")
    ensures
      var log := Exec(s, run).log;
      && NoLess(GetUsage(log, u, other, now), GetUsage(log, u, Literal("week"), now))
      && NoLess(GetUsage(log, u, Literal("week"), now), GetUsage(log, u, Literal("month"), now))
  {
    RecordedWasBegun(s, run, NonNegativeOp());
    var log := Exec(s, run).log;
    forall i | 0 <= i < |log| && log[i].op.Usage? ensures 0 <= log[i].op.tokens && 0 <= log[i].op.cost {
      assert NonNegativeOp()(log[i].op);
    }
    PeriodsAreNested(log, u, other, now);
  }

  /** Every charge for u is made at the price list, and its model has this price. */
  predicate ChargedAt(op: Op, u: User, prices: Cost.Prices, price: real)
  {
    op.Usage? && op.user == u ==>
      op.cost == Cost.Charge(prices, op.model, op.tokens) && Cost.PriceOf(prices, op.model) == price
  }

  /** For any log left by runs that charge u at the price list, where the models u has used have one
      price. */
  lemma SummaryOfRun(s: State, run: seq<Action>, prices: Cost.Prices, price: real, u: User, period: GoString, now: int)
    requires Runs(s, run) && s.log == [] && Quiescent(s)
    requires forall a :: a in run && a.Begin? ==> ChargedAt(a.op, u, prices, price)
    ensures
      var sum := GetUsage(Exec(s, run).log, u, period, now);
      && Cost.Exact(sum.tokens, price) <= sum.amount as real
      && (0 < sum.requests ==> (sum.amount as real) < Cost.Exact(sum.tokens, price) + sum.requests as real)
  {
    var p := (op: Op) => ChargedAt(op, u, prices, price);
    RecordedWasBegun(s, run, p);
    var log, since := Exec(s, run).log, now - Window(period);
    forall i | 0 <= i < |log| && Counts(log[i], u, since)
      ensures log[i].op.cost == Cost.CostAt(log[i].op.tokens, price)
    {
      assert p(log[i].op);
    }
    AmountMatchesTokens(log, u, since, price);
  }

  /** The same in float64; nothing overflows, and the exact cost is below 2 to the power 50. */
  predicate FloatChargedAt(op: Op, u: User, arith: Arithmetic, prices: Cost.Prices, price: real)
  {
    op.Usage? && op.user == u ==>
      && op.cost == Rounding.FloatCharge(arith.rnd, prices, op.model, op.tokens)
      && Rounding.FloatPrice(arith.rnd, prices, op.model) == price
      && Rounding.Suits(arith.range, op.tokens, price) && Cost.Exact(op.tokens, price) < 1125899906842624.0
  }

  datatype Arithmetic = Arithmetic(rnd: real -> real, range: Rounding.Range)

  /** The same when the charges are computed in float64. */
  lemma FloatSummaryOfRun(
    s: State, run: seq<Action>, arith: Arithmetic, prices: Cost.Prices, price: real,
    u: User, period: GoString, now: int)
    requires Runs(s, run) && s.log == [] && Quiescent(s) && Rounding.Nearest(arith.rnd, arith.range)
    requires forall a :: a in run && a.Begin? ==> FloatChargedAt(a.op, u, arith, prices, price)
    ensures
      var sum := GetUsage(Exec(s, run).log, u, period, now);
      && Cost.Exact(sum.tokens, price) - sum.requests as real <= sum.amount as real
      && (0 < sum.requests ==> (sum.amount as real) < Cost.Exact(sum.tokens, price) + 2.0 * sum.requests as real)
  {
    var p := (op: Op) => FloatChargedAt(op, u, arith, prices, price);
    RecordedWasBegun(s, run, p);
    var log, since := Exec(s, run).log, now - Window(period);
    forall i | 0 <= i < |log| && Counts(log[i], u, since)
      ensures -1 <= log[i].op.cost - Cost.CostAt(log[i].op.tokens, price) <= 1
    {
      assert p(log[i].op);
      Rounding.FloatCostWithinOne(arith.rnd, arith.range, log[i].op.tokens, price);
    }
    FloatAmountMatchesTokens(log, u, since, price);
  }

  function DepositOf(u: User): Row -> int
  {
    (row: Row) => if row.op.Deposit? && row.op.user == u then row.op.amount else 0
  }

  lemma {:induction false} RowsSplit(log: seq<Row>, u: User, since: int)
    requires forall i :: 0 <= i < |log| ==> since <= log[i].at
    ensures SumOf(log, R.RowDelta(u)) == SumOf(log, DepositOf(u)) - Since(log, u, since).amount
  {
    if log != [] {
      assert forall i :: 0 <= i < |log[1..]| ==> log[1..][i] == log[i + 1];
      assert since <= log[0].at;
      RowsSplit(log[1..], u, since);
    }
  }

  /** When no row is missing and nobody is inside a call, the balance is deposits minus the amount
      the statistics report over a window that reaches back to the first row. */
  lemma SummaryExplainsBalance(s: State, run: seq<Action>, u: User, since: int)
    requires Runs(s, run) && R.LoggedRun(run) && Quiescent(s) && Quiescent(Exec(s, run))
    requires s.log == [] && Bal(s, u) == 0
    requires forall i :: 0 <= i < |Exec(s, run).log| ==> since <= Exec(s, run).log[i].at
    ensures
      var log := Exec(s, run).log;
      Bal(Exec(s, run), u) == SumOf(log, DepositOf(u)) - Since(log, u, since).amount
  {
    R.QuiescentBalance(s, run, u);
    SumZero(s.slots, R.Unlogged(u));
    RowsSplit(Exec(s, run).log, u, since);
  }
}
