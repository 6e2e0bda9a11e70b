/** The cost as float64 arithmetic computes it, operation by operation. */
module Rounding {
  import opened Cost
  import opened Text

  /** The normal numbers: for float64 from 2 to the power -1022 up to just below 2 to the power 1024. */
  datatype Range = Range(low: real, high: real)

  predicate Normal(range: Range, x: real)
  {
    x == 0.0 || range.low <= x <= range.high
  }

  /** Rounding keeps the order of numbers that do not overflow. */
  ghost predicate Orderly(rnd: real -> real, high: real)
  {
    rnd(0.0) == 0.0 && forall x, y {:trigger InOrder(x, y, high)} :: InOrder(x, y, high) ==> rnd(x) <= rnd(y)
  }

  predicate InOrder(x: real, y: real, high: real)
  {
    0.0 <= x <= y <= high
  }

  /** Round-to-nearest as section 4.3.1 of IEEE 754-2019 gives it: orderly, and off by at most 2 to
      the power -53 relatively on the normal numbers.  Nothing is said about smaller ones. */
  ghost predicate Nearest(rnd: real -> real, range: Range)
  {
    && 0.0 < range.low && Orderly(rnd, range.high)
    && forall x {:trigger Normal(range, x)} :: Normal(range, x) ==> Rounded(x, rnd(x))
  }

  predicate Rounded(x: real, r: real)
  {
    0.0 <= x ==> -x <= (r - x) * 9007199254740992.0 <= x
  }

  /** The conversion of the token count and then the three operations, each rounded. */
  function FloatAmount(rnd: real -> real, tokens: int, price: real): real
  {
    rnd(Product(rnd, rnd(rnd(tokens as real) / 1000.0), price) * 100.0)
  }

  function Product(rnd: real -> real, x: real, y: real): real
  {
    rnd(x * y)
  }

  function FloatCost(rnd: real -> real, tokens: int, price: real): int
  {
    Ceil(FloatAmount(rnd, tokens, price))
  }

  /** The listed prices are float64 numbers already; the fallback 0.03 is rounded to one. */
  function FloatPrice(rnd: real -> real, prices: Prices, model: GoString): real
  {
    PriceOr(prices, model, rnd(0.03))
  }

  /** The charge of the price list, computed like that. */
  function FloatCharge(rnd: real -> real, prices: Prices, model: GoString, tokens: int): int
  {
    FloatCost(rnd, tokens, FloatPrice(rnd, prices, model))
  }

  function FloatTariff(rnd: real -> real, prices: Prices): (GoString, int) -> int
  {
    (model: GoString, tokens: int) => FloatCharge(rnd, prices, model, tokens)
  }

  // x is what k roundings may have made of e: off by at most k * 1.25 * 2^-53, relatively.
  predicate Within(e: real, x: real, k: int)
  {
    0.0 <= e && -(k as real * e) <= (x - e) * 7205759403792793.6 <= k as real * e
  }

  lemma Round(e: real, x: real, r: real, k: int)
    requires Rounded(x, r) && 0 <= k <= 3 && Within(e, x, k)
    ensures Within(e, r, k + 1)
  {
    assert k == 0 || k == 1 || k == 2 || k == 3;
    assert 0.0 <= x;
  }

  lemma ScaleWithin(e: real, x: real, k: int, f: real)
    requires 0.0 <= f && Within(e, x, k)
    ensures Within(e * f, x * f, k)
  {
    var d := (x - e) * 7205759403792793.6;
    Ordered(-(k as real * e), d, f);
    Ordered(d, k as real * e, f);
    assert d * f == (x * f - e * f) * 7205759403792793.6;
    assert (k as real * e) * f == k as real * (e * f);
  }

  lemma Ordered(x: real, y: real, k: real)
    requires x <= y && 0.0 <= k
    ensures x * k <= y * k
  {
  }

  predicate Computed(tokens: int, price: real, x0: real, x1: real, x2: real, x3: real)
  {
    && Rounded(tokens as real, x0) && Rounded(x0 / 1000.0, x1)
    && Rounded(x1 * price, x2) && Rounded(x2 * 100.0, x3)
  }

  lemma Chain(tokens: int, price: real, x0: real, x1: real, x2: real, x3: real)
    requires 0 <= tokens && 0.0 <= price && Computed(tokens, price, x0, x1, x2, x3)
    ensures Within(Exact(tokens, price), x3, 4)
  {
    UpToDivision(tokens, x0, x1);
    LastTwo(tokens as real / 1000.0, price, x1, x2, x3);
  }

  lemma LastTwo(e: real, price: real, x1: real, x2: real, x3: real)
    requires 0.0 <= price && Within(e, x1, 2) && Rounded(x1 * price, x2) && Rounded(x2 * 100.0, x3)
    ensures Within(e * price * 100.0, x3, 4)
  {
    ScaleWithin(e, x1, 2, price);
    Round(e * price, x1 * price, x2, 2);
    ScaleWithin(e * price, x2, 3, 100.0);
    Round(e * price * 100.0, x2 * 100.0, x3, 3);
  }

  lemma Rounds(rnd: real -> real, range: Range, x: real, r: real)
    requires Nearest(rnd, range) && Normal(range, x) && r == rnd(x)
    ensures Rounded(x, r)
  {
  }

  lemma FirstTwo(range: Range, tokens: int, price: real, x0: real)
    requires 0.0 < range.low && Suits(range, tokens, price)
    ensures Normal(range, tokens as real)
    ensures Rounded(tokens as real, x0) ==> Normal(range, x0 / 1000.0)
  {
  }

  // The exact values after the first division and after the multiplication.
  lemma Parts(range: Range, tokens: int, price: real) returns (q: real, e: real)
    requires Suits(range, tokens, price)
    ensures 0.0 <= q == tokens as real / 1000.0 && 0.0 <= e == q * price && Exact(tokens, price) == e * 100.0
    ensures Sizable(range, tokens, price) ==> e == 0.0 || (2.0 * range.low <= e && 200.0 * e <= range.high)
  {
    q := tokens as real / 1000.0;
    e := q * price;
  }

  lemma Third(range: Range, q: real, price: real, x1: real)
    requires 0.0 < range.low && 0.0 <= price && Within(q, x1, 2)
    requires q * price == 0.0 || (2.0 * range.low <= q * price && 2.0 * (q * price) <= range.high)
    ensures Normal(range, x1 * price) && Within(q * price, x1 * price, 2)
  {
    ScaleWithin(q, x1, 2, price);
    StillNormal(range, q * price, x1 * price, 2);
  }

  lemma Fourth(range: Range, e: real, x: real, x2: real)
    requires 0.0 < range.low && Within(e, x, 2) && Rounded(x, x2)
    requires e == 0.0 || (2.0 * range.low <= e && 200.0 * e <= range.high)
    ensures Normal(range, x2 * 100.0)
  {
    Round(e, x, x2, 2);
    ScaleWithin(e, x2, 3, 100.0);
    StillNormal(range, e * 100.0, x2 * 100.0, 3);
  }

  lemma UpToDivision(tokens: int, x0: real, x1: real)
    requires 0 <= tokens && Rounded(tokens as real, x0) && Rounded(x0 / 1000.0, x1)
    ensures Within(tokens as real / 1000.0, x1, 2)
  {
    var e := tokens as real;
    Round(e, e, x0, 0);
    Round(e / 1000.0, x0 / 1000.0, x1, 1);
  }

  // The stages by name.
  lemma StagesOf(rnd: real -> real, tokens: int, price: real) returns (x0: real, x1: real, x2: real, x3: real)
    ensures x0 == rnd(tokens as real) && x1 == rnd(x0 / 1000.0) && x2 == rnd(x1 * price) && x3 == rnd(x2 * 100.0)
    ensures x3 == FloatAmount(rnd, tokens, price)
    ensures forall high :: Fits(rnd, high, tokens, price) ==>
      tokens as real <= high && x0 / 1000.0 <= high && x1 * price <= high && x2 * 100.0 <= high
  {
    x0 := rnd(tokens as real);
    x1 := rnd(x0 / 1000.0);
    x2 := Product(rnd, x1, price);
    ProductOf(rnd, x1, price);
    x3 := rnd(x2 * 100.0);
    forall high | Fits(rnd, high, tokens, price) ensures x1 * price <= high && x2 * 100.0 <= high {
      assert AtMost(x1, price, high);
    }
  }

  lemma ProductOf(rnd: real -> real, x: real, y: real)
    ensures Product(rnd, x, y) == rnd(x * y)
    ensures forall high :: AtMost(x, y, high) ==> x * y <= high
  {
  }

  /** The numbers that the four stages round. */
  predicate AllNormal(range: Range, tokens: int, price: real, x0: real, x1: real, x2: real)
  {
    && Normal(range, tokens as real) && Normal(range, x0 / 1000.0)
    && Normal(range, x1 * price) && Normal(range, x2 * 100.0)
  }

  /** Each stage is rounded from a number that is still normal, so each rounding is accurate. */
  lemma Stages(rnd: real -> real, range: Range, tokens: int, price: real)
    returns (x0: real, x1: real, x2: real, x3: real)
    requires Nearest(rnd, range) && Suits(range, tokens, price) && Sizable(range, tokens, price)
    ensures AllNormal(range, tokens, price, x0, x1, x2)
    ensures Computed(tokens, price, x0, x1, x2, x3) && x3 == FloatAmount(rnd, tokens, price)
  {
    x0, x1, x2, x3 := StagesOf(rnd, tokens, price);
    var q, e := Parts(range, tokens, price);
    FirstTwo(range, tokens, price, x0);
    Rounds(rnd, range, tokens as real, x0);
    Rounds(rnd, range, x0 / 1000.0, x1);
    UpToDivision(tokens, x0, x1);
    Third(range, q, price, x1);
    var y := x1 * price;
    Rounds(rnd, range, y, x2);
    Fourth(range, e, y, x2);
    Rounds(rnd, range, x2 * 100.0, x3);
  }

  lemma StillNormal(range: Range, e: real, x: real, k: int)
    requires 0.0 < range.low && Within(e, x, k) && 0 <= k <= 4
    requires e == 0.0 || (2.0 * range.low <= e && 2.0 * e <= range.high)
    ensures Normal(range, x)
  {
    assert k == 0 || k == 1 || k == 2 || k == 3 || k == 4;
  }

  /** Nothing is out of range: for float64, the token count and twice the exact cost are not too
      large to be written down. */
  predicate Suits(range: Range, tokens: int, price: real)
  {
    && 0 <= tokens && 0.0 <= price && range.low <= 0.0001 && 1.0 <= range.high && tokens as real <= range.high
    && 2.0 * Exact(tokens, price) <= range.high
  }

  /** The exact cost is zero, or large enough that no stage underflows. */
  predicate Sizable(range: Range, tokens: int, price: real)
  {
    Exact(tokens, price) == 0.0 || 200.0 * range.low <= Exact(tokens, price)
  }

  /** For every token count and price with an exact cost below 2 to the power 50, the float64 cost
      differs from the exact one by at most one, whether or not something underflows on the way. */
  lemma FloatCostWithinOne(rnd: real -> real, range: Range, tokens: int, price: real)
    requires Nearest(rnd, range) && Suits(range, tokens, price)
    requires Exact(tokens, price) < 1125899906842624.0
    ensures CostAt(tokens, price) - 1 <= FloatCost(rnd, tokens, price) <= CostAt(tokens, price) + 1
  {
    if Sizable(range, tokens, price) {
      var x0, x1, x2, x3 := Stages(rnd, range, tokens, price);
      CeilingsWithinOne(tokens, price, x0, x1, x2, x3);
    } else {
      TinyCost(rnd, range, tokens, price);
    }
  }

  // An amount that may underflow is rounded to something between 0 and 1.
  lemma TinyCost(rnd: real -> real, range: Range, tokens: int, price: real)
    requires Nearest(rnd, range) && Suits(range, tokens, price) && !Sizable(range, tokens, price)
    ensures CostAt(tokens, price) == 1 && 0 <= FloatCost(rnd, tokens, price) <= 1
  {
    var x0, x1, x2, x3 := StagesOf(rnd, tokens, price);
    var q, e := Parts(range, tokens, price);
    FirstTwo(range, tokens, price, x0);
    Rounds(rnd, range, tokens as real, x0);
    Rounds(rnd, range, x0 / 1000.0, x1);
    UpToDivision(tokens, x0, x1);
    ScaleWithin(q, x1, 2, price);
    var y := x1 * price;
    TinyTail(rnd, range, e, y, x2, x3);
    TinyCeilings(Exact(tokens, price), x3);
  }

  lemma TinyTail(rnd: real -> real, range: Range, e: real, y: real, x2: real, x3: real)
    requires Nearest(rnd, range) && range.low <= 0.0001 && 1.0 <= range.high
    requires 0.0 <= e < 2.0 * range.low && Within(e, y, 2) && x2 == rnd(y) && x3 == rnd(x2 * 100.0)
    ensures 0.0 <= x3 <= 0.5
  {
    var u, v := 4.0 * range.low, 800.0 * range.low;
    Rounds(rnd, range, u, rnd(u));
    Ordering(rnd, range.high, y, u, x2, rnd(u));
    Rounds(rnd, range, v, rnd(v));
    Ordering(rnd, range.high, x2 * 100.0, v, x3, rnd(v));
  }

  lemma TinyCeilings(e: real, x: real)
    requires 0.0 < e <= 1.0 && 0.0 <= x <= 0.5
    ensures Ceil(e) == 1 && 0 <= Ceil(x) <= 1
  {
  }

  lemma CeilingsWithinOne(tokens: int, price: real, x0: real, x1: real, x2: real, x3: real)
    requires 0 <= tokens && 0.0 <= price && Computed(tokens, price, x0, x1, x2, x3)
    requires Exact(tokens, price) < 1125899906842624.0
    ensures CostAt(tokens, price) - 1 <= Ceil(x3) <= CostAt(tokens, price) + 1
  {
    Chain(tokens, price, x0, x1, x2, x3);
    NearbyCeilings(Exact(tokens, price), x3);
  }

  lemma NearbyCeilings(e: real, x: real)
    requires Within(e, x, 4) && e < 1125899906842624.0
    ensures Ceil(e) - 1 <= Ceil(x) <= Ceil(e) + 1
  {
    assert e - 1.0 < x < e + 1.0;
    CeilIsLeast(x, Ceil(e) + 1);
    CeilIsLeast(e, Ceil(x) + 1);
  }

  lemma Ordering(rnd: real -> real, high: real, x: real, y: real, r: real, q: real)
    requires Orderly(rnd, high) && 0.0 <= x <= y <= high && r == rnd(x) && q == rnd(y)
    ensures 0.0 <= r <= q
  {
    assert InOrder(0.0, x, high) && InOrder(x, y, high);
  }

  /** No stage overflows. */
  predicate Fits(rnd: real -> real, high: real, tokens: int, price: real)
  {
    && tokens as real <= high
    && rnd(tokens as real) / 1000.0 <= high
    && AtMost(rnd(rnd(tokens as real) / 1000.0), price, high)
    && Product(rnd, rnd(rnd(tokens as real) / 1000.0), price) * 100.0 <= high
  }

  predicate AtMost(x: real, y: real, high: real)
  {
    x * y <= high
  }

  /** Rounding never makes more tokens cheaper, however small the amounts. */
  lemma FloatCostMonotone(rnd: real -> real, high: real, t1: int, t2: int, price: real)
    requires Orderly(rnd, high) && 0 <= t1 <= t2 && 0.0 <= price && Fits(rnd, high, t2, price)
    ensures 0 <= FloatCost(rnd, t1, price) <= FloatCost(rnd, t2, price)
  {
    var x0, x1, x2, x3 := StagesOf(rnd, t1, price);
    var y0, y1, y2, y3 := StagesOf(rnd, t2, price);
    Ordering(rnd, high, t1 as real, t2 as real, x0, y0);
    Ordering(rnd, high, x0 / 1000.0, y0 / 1000.0, x1, y1);
    OrderlyTail(rnd, high, x1, y1, price, x2, y2, x3, y3);
    CeilMonotone(x3, y3);
    CeilMonotone(0.0, x3);
  }

  lemma OrderlyTail(
    rnd: real -> real, high: real, x1: real, y1: real, price: real, x2: real, y2: real, x3: real, y3: real)
    requires Orderly(rnd, high) && 0.0 <= x1 <= y1 && 0.0 <= price && y1 * price <= high && y2 * 100.0 <= high
    requires x2 == rnd(x1 * price) && y2 == rnd(y1 * price) && x3 == rnd(x2 * 100.0) && y3 == rnd(y2 * 100.0)
    ensures 0.0 <= x3 <= y3
  {
    Ordered(0.0, x1, price);
    Ordered(x1, y1, price);
    Ordering(rnd, high, x1 * price, y1 * price, x2, y2);
    Ordering(rnd, high, x2 * 100.0, y2 * 100.0, x3, y3);
  }

  /** A mock request still costs exactly one unit, with 0.03 itself stored as the nearest float64. */
  lemma MockRequestCostsOneInFloat(rnd: real -> real, range: Range, tokens: int)
    requires Nearest(rnd, range) && range.low <= 0.0001 && 1000.0 <= range.high
    requires 80 <= tokens <= 328
    ensures FloatCost(rnd, tokens, rnd(0.03)) == 1
  {
    assert Normal(range, 0.03);
    Round(0.03, 0.03, rnd(0.03), 0);
    MockExact(tokens, rnd(0.03));
    var x0, x1, x2, x3 := Stages(rnd, range, tokens, rnd(0.03));
    MockCeiling(tokens, rnd(0.03), x0, x1, x2, x3);
  }

  lemma MockCeiling(tokens: int, price: real, x0: real, x1: real, x2: real, x3: real)
    requires 80 <= tokens <= 328 && 0.02 <= price <= 0.0301 && Computed(tokens, price, x0, x1, x2, x3)
    ensures Ceil(x3) == 1
  {
    MockExact(tokens, price);
    Chain(tokens, price, x0, x1, x2, x3);
    assert 0.0 < x3 <= 1.0;
  }

  lemma MockExact(tokens: int, price: real)
    requires 80 <= tokens <= 328 && 0.02 <= price <= 0.0301
    ensures 0.1 <= Exact(tokens, price) <= 0.99
  {
    ExactIsLinear(tokens, price);
    assert 80.0 * price <= tokens as real * price <= 328.0 * price;
  }
}
