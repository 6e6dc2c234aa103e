/** How feeds' shares of a node add up in 64-bit floating point, counted in parts of a
    node: how far off sums are, and that the unit makes no difference. */
module Shares {
  import opened Float64

  /** The number 0.8 stands for. */
  function Round80(one: nat): nat { RoundIsNear(0.8 * one as real); Round(0.8 * one as real) }

  /** What `s` feeds to a node make of each: `1.0 / s`. */
  function ShareOf(one: nat, s: nat): nat
    requires s > 0
  {
    RoundIsNear(one as real / s as real);
    Round(one as real / s as real)
  }

  /** `n` shares added up one by one. */
  function Sum(n: nat, c: nat): nat { if n == 0 then 0 else Add(Sum(n - 1, c), c) }

  // ----- in halves of the unit -----

  lemma ShareDoubles(one: nat, s: nat)
    requires s > 0 && one >= TWO52 * s
    ensures ShareOf(2 * one, s) == 2 * ShareOf(one, s) && ShareOf(one, s) >= TWO52
  {
    var x := one as real / s as real;
    QuotientIsMore(one, s);
    assert (2 * one) as real / s as real == 2.0 * x;
    RoundOfDouble(x);
    RoundIsNear(x);
  }

  lemma QuotientIsMore(one: nat, s: nat)
    requires s > 0 && one >= TWO52 * s
    ensures one as real / s as real >= TWO52 as real
  {
    var x, y := one as real / s as real, s as real;
    assert x * y == one as real >= TWO52 as real * y;
    NotNegative(x - TWO52 as real, y);
  }

  lemma NotNegative(a: real, y: real)
    requires y > 0.0 && a * y >= 0.0
    ensures a >= 0.0
  {
  }

  lemma {:induction false} SumDoubles(n: nat, c: nat)
    requires c >= TWO52
    ensures Sum(n, 2 * c) == 2 * Sum(n, c)
  {
    if n > 0 {
      SumDoubles(n - 1, c);
      assert (2 * Sum(n - 1, c) + 2 * c) as real == 2.0 * (Sum(n - 1, c) + c) as real;
      RoundOfDouble((Sum(n - 1, c) + c) as real);
    }
  }

  lemma {:induction false} AnySumDoubles(one: nat, n: nat, s: nat)
    requires s > 0 && one >= TWO52 * s
    ensures Sum(n, ShareOf(2 * one, s)) == 2 * Sum(n, ShareOf(one, s))
  {
    ShareDoubles(one, s);
    SumDoubles(n, ShareOf(one, s));
  }

  lemma PartDoubles(one: nat)
    requires one >= 2 * TWO52
    ensures Round80(2 * one) == 2 * Round80(one)
  {
    assert 0.8 * (2 * one) as real == 2.0 * (0.8 * one as real);
    RoundOfDouble(0.8 * one as real);
  }

  /** In `f` times smaller units everything is `f` times as much. */
  lemma {:induction false} UnitsAgree(one: nat, f: nat, n: nat, s: nat)
    requires s > 0 && PowerOf2(f) && one >= TWO52 * s && one >= 2 * TWO52
    ensures Sum(n, ShareOf(f * one, s)) == f * Sum(n, ShareOf(one, s))
    ensures Round80(f * one) == f * Round80(one)
  {
    hide Sum, ShareOf, Round80;
    if f > 1 {
      var h := f / 2;
      UnitsAgree(one, h, n, s);
      assert h * one >= one by { Scale(1, h, one); }
      AnySumDoubles(h * one, n, s);
      PartDoubles(h * one);
      Twice(h, one);
      Twice(h, Sum(n, ShareOf(one, s)));
      Twice(h, Round80(one));
    }
  }

  lemma {:induction false} AddScales(f: nat, a: nat, b: nat)
    requires PowerOf2(f) && a + b >= TWO52
    ensures Add(f * a, f * b) == f * Add(a, b)
  {
    if f > 1 {
      var h := f / 2;
      AddScales(h, a, b);
      Twice(h, a);
      Twice(h, b);
      Twice(h, Add(a, b));
      Spread(h, a, b);
      Scale(1, h, a + b);
      assert (2 * (h * a) + 2 * (h * b)) as real == 2.0 * (h * a + h * b) as real;
      RoundOfDouble((h * a + h * b) as real);
    }
  }

  lemma {:induction false} ShareScales(f: nat, one: nat, s: nat)
    requires s > 0 && PowerOf2(f) && one >= TWO52 * s
    ensures ShareOf(f * one, s) == f * ShareOf(one, s)
  {
    hide ShareOf;
    if f > 1 {
      var h := f / 2;
      ShareScales(h, one, s);
      assert h * one >= one by { Scale(1, h, one); }
      ShareDoubles(h * one, s);
      Twice(h, one);
      Twice(h, ShareOf(one, s));
    }
  }

  lemma Twice(h: nat, x: nat)
    ensures 2 * (h * x) == 2 * h * x
  {
  }

  lemma Scale(a: nat, b: nat, x: nat)
    requires a <= b
    ensures a * x <= b * x
  {
  }

  lemma Cancels(f: nat, a: nat, b: nat)
    requires f > 0
    ensures f * a > f * b <==> a > b
  {
    if a <= b { Scale(a, b, f); } else { Scale(b + 1, a, f); }
  }

  // ----- quotients -----

  lemma ShareIs(one: nat, k: nat)
    requires k > 0
    ensures one as real / k as real >= 0.0 && ShareOf(one, k) == Round(one as real / k as real)
  {
  }

  lemma {:induction false} QuotientIs(one: nat, k: nat, c: nat, u: nat)
    requires k > 0 && TWO52 * u * k <= one < TWO53 * u * k
    requires 2 * (k * c - one) < u * k && 2 * (one - k * c) < u * k
    ensures var x := one as real / k as real;
            && TWO52 as real * u as real <= x < TWO53 as real * u as real
            && -(u as real) < 2.0 * (c as real - x) < u as real
  {
    Below(TWO52 * u, one, k);
    Below(TWO53 * u, one, k);
    Below(2 * c - u, 2 * one, k);
    Below(2 * c + u, 2 * one, k);
    DoubleQuotient(one, k);
    Regrouped(c, u, k);
  }

  lemma Regrouped(c: nat, u: nat, k: nat)
    ensures (2 * c - u) * k == 2 * (k * c) - u * k && (2 * c + u) * k == 2 * (k * c) + u * k
    ensures TWO52 * u * k == TWO52 * (u * k) && TWO53 * u * k == TWO53 * (u * k)
  {
  }

  lemma DoubleQuotient(one: nat, k: nat)
    requires k > 0
    ensures (2 * one) as real / k as real == 2.0 * (one as real / k as real)
  {
    var x, y := one as real / k as real, k as real;
    assert x * y == one as real;
    Divided(2.0 * x, (2 * one) as real, y);
  }

  lemma Below(b: int, one: nat, k: nat)
    requires k > 0
    ensures b * k < one <==> b as real < one as real / k as real
    ensures b * k <= one <==> b as real <= one as real / k as real
  {
    var x, y := one as real / k as real, k as real;
    assert x * y == one as real;
    Product(b, k);
    Compare(b as real, x, y);
  }

  lemma Product(a: int, b: int)
    ensures a as real * b as real == (a * b) as real
  {
  }

  lemma Compare(a: real, b: real, y: real)
    requires y > 0.0
    ensures a * y < b * y <==> a < b
    ensures a * y <= b * y <==> a <= b
  {
    var d := b - a;
    assert b * y - a * y == d * y;
    assert d > 0.0 ==> d * y > 0.0;
    assert d < 0.0 ==> d * y < 0.0;
  }

  lemma Divided(x: real, a: real, b: real)
    requires b > 0.0 && x * b == a
    ensures a / b == x
  {
  }

  lemma SameQuotient(one: nat, k: nat, f: nat)
    requires k > 0 && f > 0 && k * f > 0
    ensures (f * one) as real / (k * f) as real == one as real / k as real
  {
    var x, y, z := one as real / k as real, k as real, f as real;
    Product(f, one);
    Product(k, f);
    assert x * y == one as real;
    assert x * (y * z) == (x * y) * z;
    Divided(x, (f * one) as real, (k * f) as real);
  }

  // ----- off the line -----

  /** A unit that holds a 2^50th part. */
  predicate Fine(one: nat) { one % 0x4_0000_0000_0000 == 0 && one > 0 }

  /** How far each addition is off, at most. */
  function Off(one: nat): nat { one / 0x4_0000_0000_0000 }

  lemma ShareIsNear(one: nat, s: nat)
    requires s > 0 && one >= TWO52 * s && Fine(one)
    ensures one - Off(one) <= s * ShareOf(one, s) <= one + Off(one)
  {
    hide *;
    var c := ShareOf(one, s);
    ShareNearQuotient(one, s);
    QuotientTimes(one, s);
    NearProduct(one as real / s as real, c, s as real, one as real);
    Product(s, c);
    Commutes(s as real, c as real);
    Within(s * c, one);
  }

  lemma Commutes(a: real, b: real)
    ensures a * b == b * a
  {
  }

  lemma ShareNearQuotient(one: nat, s: nat)
    requires s > 0 && one >= TWO52 * s
    ensures var x := one as real / s as real; -x <= (ShareOf(one, s) as real - x) * TWO53 as real <= x
  {
    QuotientIsMore(one, s);
    ShareIs(one, s);
    hide *;
    RoundIsNear(one as real / s as real);
  }

  lemma QuotientTimes(one: nat, s: nat)
    requires s > 0
    ensures one as real / s as real * s as real == one as real
  {
  }

  lemma Within(p: int, one: nat)
    requires Fine(one) && -(one as real) <= (p as real - one as real) * TWO53 as real <= one as real
    ensures one - Off(one) <= p <= one + Off(one)
  {
    OffIs(one);
  }

  lemma NearProduct(x: real, c: nat, y: real, one: real)
    requires y > 0.0 && x * y == one && -x <= (c as real - x) * TWO53 as real <= x
    ensures -one <= (c as real * y - one) * TWO53 as real <= one
  {
    var d := c as real - x;
    assert c as real * y - one == d * y;
    Compare(d * TWO53 as real, x, y);
    Compare(-x, d * TWO53 as real, y);
    assert d * TWO53 as real * y == d * y * TWO53 as real;
    assert -x * y == -one;
  }

  /** While it's below four, each addition takes a sum no further off. */
  lemma {:induction false} SumIsNear(one: nat, n: nat, c: nat)
    requires Fine(one) && n * (c + Off(one)) <= 4 * one
    ensures n * c - n * Off(one) <= Sum(n, c) <= n * c + n * Off(one)
  {
    hide Fine, Off, Add;
    var e := Off(one);
    if n > 0 {
      OneLess(n, c + e);
      SumIsNear(one, n - 1, c);
      AddIsNear(Sum(n - 1, c), c);
      OneLess(n, c);
      OneLess(n, e);
      assert (n - 1) * (c + e) == (n - 1) * c + (n - 1) * e;
      assert Sum(n - 1, c) + c <= 4 * one;
      OffIs(one);
    }
  }

  lemma OffIs(one: nat)
    requires Fine(one)
    ensures one == Off(one) * 0x4_0000_0000_0000
  {
  }

  lemma OneLess(n: nat, x: int)
    requires n > 0
    ensures n * x == (n - 1) * x + x
  {
  }

  /** Fewer feeds than an answer never come to more than the node, and more always do. */
  lemma OffTheLine(one: nat, n: nat, s: nat)
    requires 0 < s <= 0x10_0000 && Fine(one) && one >= TWO52 * s
    ensures n < s ==> Sum(n, ShareOf(one, s)) <= one
    ensures n > s ==> Sum(n, ShareOf(one, s)) > one
  {
    hide *;
    var c, e := ShareOf(one, s), Off(one);
    ShareIsLarge(one, s);
    if n < s {
      SumAtMost(one, n, s - 1, s);
      Spread(s - 1, c, e);
      OneLess(s, c);
      OneLess(s, e);
    } else if n > s {
      SumAtLeast(one, s + 1, n, s);
      SpreadLess(s + 1, c, e);
      OneLess(s + 1, c);
      OneLess(s + 1, e);
    }
  }

  lemma Spread(m: nat, c: int, e: int)
    ensures m * (c + e) == m * c + m * e
  {
  }

  lemma SpreadLess(m: nat, c: int, e: int)
    ensures m * (c - e) == m * c - m * e
  {
  }

  /** A share is more than its setup's worth of errors, many times. */
  lemma ShareIsLarge(one: nat, s: nat)
    requires 0 < s <= 0x10_0000 && Fine(one) && one >= TWO52 * s
    ensures var c, e := ShareOf(one, s), Off(one);
            && e > 0 && c > 16 * (s * e) + 16 * e
            && one - e <= s * c <= one + e
  {
    var c, e := ShareOf(one, s), Off(one);
    ShareIsNear(one, s);
    OffIs(one);
    hide *;
    var b := 16 * (s * e) + 16 * e;
    assert s * e <= 0x10_0000 * e by { Scale(s, 0x10_0000, e); }
    var top := 16 * (0x10_0000 * e) + 16 * e;
    assert s * b <= 0x10_0000 * top by { Scale(s, 0x10_0000, top); Scale(b, top, s); }
    if c <= b { Scale(c, b, s); }
  }

  /** The error after `m` shares, up to four times the node's. */
  lemma SumAtMost(one: nat, n: nat, m: nat, s: nat)
    requires 0 < s <= 0x10_0000 && Fine(one) && one >= TWO52 * s && n <= m <= 2 * s
    ensures Sum(n, ShareOf(one, s)) <= m * (ShareOf(one, s) + Off(one))
  {
    var c, e := ShareOf(one, s), Off(one);
    hide *;
    FourAtMost(one, n, s);
    SumIsNear(one, n, c);
    Spread(n, c, e);
    Scale(n, m, c + e);
  }

  lemma FourAtMost(one: nat, n: nat, s: nat)
    requires 0 < s <= 0x10_0000 && Fine(one) && one >= TWO52 * s && n <= 2 * s
    ensures n * (ShareOf(one, s) + Off(one)) <= 4 * one
  {
    var c, e := ShareOf(one, s), Off(one);
    hide *;
    ShareIsLarge(one, s);
    Scale(n, 2 * s, c + e);
    Twice(s, c + e);
    Spread(s, c, e);
    Scale(1, s, c);
  }

  lemma SumAtLeast(one: nat, m: nat, n: nat, s: nat)
    requires 0 < s <= 0x10_0000 && Fine(one) && one >= TWO52 * s && m <= n && m <= 2 * s
    ensures Sum(n, ShareOf(one, s)) >= m * (ShareOf(one, s) - Off(one))
  {
    var c, e := ShareOf(one, s), Off(one);
    hide *;
    FourAtMost(one, m, s);
    SumIsNear(one, m, c);
    SpreadLess(m, c, e);
    SumGrows(m, n, c);
  }

  lemma {:induction false} SumIsExact(n: nat, c: nat)
    ensures Exact(Sum(n, c))
  {
    if n > 0 {
      SumIsExact(n - 1, c);
      AddIsMore(Sum(n - 1, c), c);
    }
  }

  lemma {:induction false} SumGrows(m: nat, n: nat, c: nat)
    requires m <= n
    ensures Sum(m, c) <= Sum(n, c)
  {
    if m < n {
      SumGrows(m, n - 1, c);
      SumIsExact(n - 1, c);
      AddIsMore(Sum(n - 1, c), c);
    }
  }

  lemma Round80IsNear(one: nat)
    requires Fine(one) && one >= 2 * TWO52
    ensures 4 * one - Off(one) <= 5 * Round80(one) <= 4 * one + Off(one)
  {
    var x := 0.8 * one as real;
    RoundIsNear(x);
    OffIs(one);
    var r := Round80(one);
    assert -x <= (r as real - x) * TWO53 as real <= x;
  }

  /** Nor do fewer than four fifths of an answer come to more than 0.8, and more always do. */
  lemma OffFourFifths(one: nat, n: nat, s: nat)
    requires 0 < s <= 0x10_0000 && Fine(one) && one >= TWO52 * s && one >= 2 * TWO52
    ensures 5 * n < 4 * s ==> Sum(n, ShareOf(one, s)) <= Round80(one)
    ensures 5 * n > 4 * s ==> Sum(n, ShareOf(one, s)) > Round80(one)
  {
    hide *;
    if 5 * n < 4 * s { UpToFourFifths(one, n, s); } else if 5 * n > 4 * s { FromFourFifths(one, n, s); }
  }

  lemma UpToFourFifths(one: nat, n: nat, s: nat)
    requires 0 < s <= 0x10_0000 && Fine(one) && one >= TWO52 * s && one >= 2 * TWO52 && 5 * n < 4 * s
    ensures Sum(n, ShareOf(one, s)) <= Round80(one)
  {
    hide *;
    var c, e := ShareOf(one, s), Off(one);
    ShareIsLarge(one, s);
    Round80IsNear(one);
    SumAtMost(one, n, n, s);
    Scale(5 * n, 4 * s - 1, c + e);
    Fives(n, c + e);
    Fours(s, c, e);
  }

  lemma FromFourFifths(one: nat, n: nat, s: nat)
    requires 0 < s <= 0x10_0000 && Fine(one) && one >= TWO52 * s && one >= 2 * TWO52 && 5 * n > 4 * s
    ensures Sum(n, ShareOf(one, s)) > Round80(one)
  {
    hide *;
    var c, e := ShareOf(one, s), Off(one);
    ShareIsLarge(one, s);
    Round80IsNear(one);
    var m := if n < 2 * s then n else 2 * s;
    SumAtLeast(one, m, n, s);
    Scale(4 * s + 1, 5 * m, c - e);
    Fives(m, c - e);
    Fours(s, c, e);
  }

  lemma Fives(n: nat, x: int)
    ensures 5 * n * x == 5 * (n * x)
  {
  }

  lemma Fours(s: nat, c: int, e: int)
    ensures (4 * s - 1) * (c + e) == 4 * (s * c) + 4 * (s * e) - c - e
    ensures (4 * s + 1) * (c - e) == 4 * (s * c) - 4 * (s * e) + c - e
  {
    assert 4 * s * (c + e) == 4 * (s * c) + 4 * (s * e);
    assert 4 * s * (c - e) == 4 * (s * c) - 4 * (s * e);
  }
}
