/** Sums of a weight over a sequence, and what one update or one append does to them. */
module Sums {

  function SumOf<T>(s: seq<T>, f: T -> int): int
  {
    if s == [] then 0 else f(s[0]) + SumOf(s[1..], f)
  }

  lemma {:induction false} SumConcat<T>(s: seq<T>, t: seq<T>, f: T -> int)
    ensures SumOf(s + t, f) == SumOf(s, f) + SumOf(t, f)
  {
    if s == [] {
      assert s + t == t;
    } else {
      assert (s + t)[1..] == s[1..] + t;
      SumConcat(s[1..], t, f);
    }
  }

  lemma {:induction false} SumAppend<T>(s: seq<T>, x: T, f: T -> int)
    ensures SumOf(s + [x], f) == SumOf(s, f) + f(x)
  {
    SumConcat(s, [x], f);
  }

  lemma {:induction false} SumUpdate<T>(s: seq<T>, i: nat, x: T, f: T -> int)
    requires i < |s|
    ensures SumOf(s[i := x], f) == SumOf(s, f) - f(s[i]) + f(x)
  {
    assert s[i := x] == s[..i] + [x] + s[i + 1..];
    assert s == s[..i] + [s[i]] + s[i + 1..];
    SumConcat(s[..i] + [x], s[i + 1..], f);
    SumConcat(s[..i] + [s[i]], s[i + 1..], f);
    SumAppend(s[..i], x, f);
    SumAppend(s[..i], s[i], f);
  }

  // Equal weights give equal sums.
  lemma {:induction false} SumSame<T>(s: seq<T>, t: seq<T>, f: T -> int, g: T -> int)
    requires |s| == |t|
    requires forall i :: 0 <= i < |s| ==> f(s[i]) == g(t[i])
    ensures SumOf(s, f) == SumOf(t, g)
  {
    if s != [] {
      assert f(s[0]) == g(t[0]);
      SumSame(s[1..], t[1..], f, g);
    }
  }

  lemma {:induction false} SumZero<T>(s: seq<T>, f: T -> int)
    requires forall i :: 0 <= i < |s| ==> f(s[i]) == 0
    ensures SumOf(s, f) == 0
  {
    if s != [] {
      assert f(s[0]) == 0;
      SumZero(s[1..], f);
    }
  }

  lemma {:induction false} SumNonNegative<T>(s: seq<T>, f: T -> int)
    requires forall i :: 0 <= i < |s| ==> f(s[i]) >= 0
    ensures SumOf(s, f) >= 0
  {
    if s != [] {
      assert f(s[0]) >= 0;
      SumNonNegative(s[1..], f);
    }
  }

  // Of non-negative weights, each is at most the sum.
  lemma SumDominates<T>(s: seq<T>, i: nat, f: T -> int)
    requires i < |s|
    requires forall j :: 0 <= j < |s| ==> f(s[j]) >= 0
    ensures f(s[i]) <= SumOf(s, f)
  {
    assert s == s[..i] + [s[i]] + s[i + 1..];
    SumConcat(s[..i] + [s[i]], s[i + 1..], f);
    SumAppend(s[..i], s[i], f);
    SumNonNegative(s[..i], f);
    SumNonNegative(s[i + 1..], f);
  }

  // If only the first n entries weigh anything, and none more than c, the sum is at most n*c.
  lemma {:induction false} SumOfFirst<T>(s: seq<T>, n: nat, c: nat, f: T -> int)
    requires forall i :: 0 <= i < |s| ==> f(s[i]) <= c
    requires forall i :: n <= i < |s| ==> f(s[i]) <= 0
    ensures SumOf(s, f) <= n * c
  {
    if s != [] {
      var rest := s[1..];
      assert forall i :: 0 <= i < |rest| ==> rest[i] == s[i + 1];
      if n == 0 {
        assert f(s[0]) <= 0;
        SumOfFirst(rest, 0, c, f);
      } else {
        assert f(s[0]) <= c;
        SumOfFirst(rest, n - 1, c, f);
        assert n * c == (n - 1) * c + c;
      }
    }
  }

  // As above, when one of the first n entries weighs nothing.
  lemma {:induction false} SumOfOthers<T>(s: seq<T>, n: nat, i: nat, c: nat, f: T -> int)
    requires i < n && i < |s|
    requires f(s[i]) <= 0
    requires forall j :: 0 <= j < |s| ==> f(s[j]) <= c
    requires forall j :: n <= j < |s| ==> f(s[j]) <= 0
    ensures SumOf(s, f) <= (n - 1) * c
  {
    var rest := s[1..];
    assert forall j :: 0 <= j < |rest| ==> rest[j] == s[j + 1];
    if i == 0 {
      SumOfFirst(rest, n - 1, c, f);
    } else {
      assert f(s[0]) <= c;
      SumOfOthers(rest, n - 1, i - 1, c, f);
      assert (n - 1) * c == (n - 2) * c + c;
    }
  }

  lemma {:induction false} SumPair<T>(s: seq<T>, f: T -> int, g: T -> int, h: T -> int)
    requires forall i :: 0 <= i < |s| ==> f(s[i]) + g(s[i]) <= h(s[i])
    ensures SumOf(s, f) + SumOf(s, g) <= SumOf(s, h)
  {
    if s != [] {
      assert f(s[0]) + g(s[0]) <= h(s[0]);
      SumPair(s[1..], f, g, h);
    }
  }
}
