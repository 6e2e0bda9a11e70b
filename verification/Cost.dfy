/** What a usage event costs: the ceiling of tokens / 1000 * price * 100. */
module Cost {
  import opened Text
  import opened Sums

  function Ceil(x: real): int
  {
    -((-x).Floor)
  }

  /** Ceil(x) is the least integer that is not below x. */
  lemma CeilIsLeast(x: real, n: int)
    ensures x <= n as real <==> Ceil(x) <= n
  {
  }

  lemma CeilMonotone(x: real, y: real)
    requires x <= y
    ensures Ceil(x) <= Ceil(y)
  {
  }

  type Prices = map<GoString, real>

  const DEFAULT_MODEL: GoString := Literal("default")

  /** A model that is listed keeps its price, even zero; any other model is charged the default,
      and the fallback when the default is missing or zero. */
  function PriceOr(prices: Prices, model: GoString, fallback: real): real
  {
    if model in prices then prices[model]
    else if DEFAULT_MODEL in prices && prices[DEFAULT_MODEL] != 0.0 then prices[DEFAULT_MODEL]
    else fallback
  }

  function PriceOf(prices: Prices, model: GoString): real
  {
    PriceOr(prices, model, 0.03)
  }

  /** The three cases of the lookup: listed, default, fallback. */
  lemma PriceCases(prices: Prices, model: GoString)
    ensures model in prices ==> PriceOf(prices, model) == prices[model]
    ensures
      model !in prices && Literal("default") in prices && prices[Literal("default")] != 0.0 ==>
        PriceOf(prices, model) == prices[Literal("default")]
    ensures
      model !in prices && (Literal("default") !in prices || prices[Literal("default")] == 0.0) ==>
        PriceOf(prices, model) == 0.03
  {
  }

  /** The price list of the billing service: two models and a default, all at one price. */
  function PriceList(price: real): Prices
  {
    map[Literal("gpt-4") := price, Literal("gpt-4-turbo") := price, Literal("default") := price]
  }

  /** Of that list every model has its one price, unless it is zero and the model is not listed. */
  lemma ListPrice(price: real, model: GoString)
    ensures
      PriceOf(PriceList(price), model) ==
        if price == 0.0 && model != Literal("gpt-4") && model != Literal("gpt-4-turbo") && model != Literal("default")
        then 0.03 else price
  {
  }

  function Exact(tokens: int, price: real): real
  {
    tokens as real / 1000.0 * price * 100.0
  }

  function CostAt(tokens: int, price: real): int
  {
    Ceil(Exact(tokens, price))
  }

  function Charge(prices: Prices, model: GoString, tokens: int): int
  {
    CostAt(tokens, PriceOf(prices, model))
  }

  /** The price list as a function of model and tokens. */
  function TariffOf(prices: Prices): (GoString, int) -> int
  {
    (model: GoString, tokens: int) => Charge(prices, model, tokens)
  }

  lemma ExactIsLinear(tokens: int, price: real)
    ensures Exact(tokens, price) == tokens as real * price / 10.0
  {
  }

  /** More tokens never cost less, and no tokens cost nothing. */
  lemma CostMonotone(t1: int, t2: int, price: real)
    requires t1 <= t2 && 0.0 <= price
    ensures CostAt(t1, price) <= CostAt(t2, price)
    ensures CostAt(0, price) == 0
    ensures 0 <= t1 ==> 0 <= CostAt(t1, price)
  {
    Scale(t1, t2, price);
    if 0 <= t1 {
      Scale(0, t1, price);
    }
  }

  lemma Scale(t1: int, t2: int, price: real)
    requires t1 <= t2 && 0.0 <= price
    ensures Exact(t1, price) <= Exact(t2, price)
  {
    ExactIsLinear(t1, price);
    ExactIsLinear(t2, price);
    assert (t2 - t1) as real * price >= 0.0;
  }

  /** Charging two parts apart costs at least as much as charging them together, and at most one more. */
  lemma CostSubadditive(t1: int, t2: int, price: real)
    ensures CostAt(t1 + t2, price) <= CostAt(t1, price) + CostAt(t2, price) <= CostAt(t1 + t2, price) + 1
  {
    var x1, x2, c1, c2 := Exact(t1, price), Exact(t2, price), CostAt(t1, price), CostAt(t2, price);
    assert Exact(t1 + t2, price) == x1 + x2;
    CeilIsLeast(x1, c1);
    CeilIsLeast(x2, c2);
    CeilIsLeast(x1 + x2, c1 + c2);
    CeilIsLeast(x1 + x2, c1 + c2 - 2);
  }

  function Whole(): int -> int
  {
    (t: int) => t
  }

  function Billed(price: real): int -> int
  {
    (t: int) => CostAt(t, price)
  }

  /** k events at one price: the bill is at least the exact amount for all their tokens together and
      exceeds it by less than k. */
  lemma {:induction false} BillForEvents(tokens: seq<int>, price: real)
    ensures Exact(SumOf(tokens, Whole()), price) <= SumOf(tokens, Billed(price)) as real
    ensures tokens != [] ==>
      (SumOf(tokens, Billed(price)) as real) < Exact(SumOf(tokens, Whole()), price) + |tokens| as real
  {
    if tokens != [] {
      var rest := SumOf(tokens[1..], Whole());
      BillForEvents(tokens[1..], price);
      assert Exact(tokens[0] + rest, price) == Exact(tokens[0], price) + Exact(rest, price);
      if |tokens| == 1 {
        assert rest == 0;
      }
    }
  }

  /** Splitting a request into parts never lowers the bill and raises it by less than the number of parts. */
  lemma SplittingCostsMore(parts: seq<int>, price: real)
    requires parts != []
    ensures CostAt(SumOf(parts, Whole()), price) <= SumOf(parts, Billed(price))
            < CostAt(SumOf(parts, Whole()), price) + |parts|
  {
    BillForEvents(parts, price);
  }

  /** The mock provider answers with 80 to 328 tokens, which at the shipped price cost exactly one unit. */
  lemma MockRequestCostsOne(tokens: int)
    requires 80 <= tokens <= 328
    ensures CostAt(tokens, 0.03) == 1
  {
  }

  /** A zero PRICE_GPT4 makes the listed models free, while any other model still costs 0.03. */
  lemma ZeroPriceIsNotFreeForAll(prices: Prices, listed: GoString, other: GoString, tokens: int)
    requires listed in prices && prices[listed] == 0.0
    requires other !in prices && DEFAULT_MODEL in prices && prices[DEFAULT_MODEL] == 0.0
    requires 0 < tokens
    ensures Charge(prices, listed, tokens) == 0 < Charge(prices, other, tokens)
  {
  }
}
