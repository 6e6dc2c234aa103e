/** Adding numbers as the program's 64-bit floating-point type does (binary64 of
    IEEE 754-2019, section 3.6): each result to 53 bits, the nearest, ties to even.
    Numbers are counts of a unit far below any that are added. */
module Float64 {
  const TWO52: int := 0x10_0000_0000_0000
  const TWO53: int := 0x20_0000_0000_0000

  /** The nearest whole number, the even one of two. */
  function Nearest(x: real): int {
    var q := x.Floor;
    var r := x - q as real;
    if r < 0.5 || (r == 0.5 && q % 2 == 0) then q else q + 1
  }

  /** The nearest number of 53 bits. */
  function Round(x: real): int
    requires x >= 0.0
    decreases x.Floor
  {
    if x < TWO53 as real then Nearest(x) else 2 * Round(x / 2.0)
  }

  function Add(a: nat, b: nat): (sum: nat) {
    RoundIsNear((a + b) as real);
    Round((a + b) as real)
  }

  /** Rounding is off by at most half the last bit. */
  lemma {:induction false} RoundIsNear(x: real)
    requires x >= 0.0
    ensures Round(x) >= 0
    ensures x >= TWO52 as real ==> Round(x) >= TWO52
    ensures x < TWO53 as real ==> -0.5 <= Round(x) as real - x <= 0.5
    ensures x >= TWO52 as real ==> -x <= (Round(x) as real - x) * TWO53 as real <= x
    decreases x.Floor
  {
    if x >= TWO53 as real { RoundIsNear(x / 2.0); }
  }

  /** What is less is rounded to no more. */
  lemma {:induction false} RoundIsMonotone(x: real, y: real)
    requires 0.0 <= x <= y
    ensures Round(x) <= Round(y)
    decreases x.Floor
  {
    if x >= TWO53 as real {
      RoundIsMonotone(x / 2.0, y / 2.0);
    } else if y >= TWO53 as real {
      RoundIsNear(y / 2.0);
    }
  }

  /** A number of 53 bits. */
  predicate Exact(n: nat) { Round(n as real) == n }

  lemma {:induction false} DoubleIsExact(n: nat)
    requires Exact(n)
    ensures Exact(2 * n)
  {
    if 2 * n >= TWO53 {
      assert (2 * n) as real / 2.0 == n as real;
    }
  }

  lemma {:induction false} RoundIsExact(x: real)
    requires x >= 0.0
    ensures Round(x) >= 0 && Exact(Round(x))
    decreases x.Floor
  {
    RoundIsNear(x);
    if x >= TWO53 as real {
      RoundIsExact(x / 2.0);
      DoubleIsExact(Round(x / 2.0));
    } else if Round(x) == TWO53 {
      assert Exact(TWO52);
      DoubleIsExact(TWO52);
    }
  }

  /** Adding never loses what was there. */
  lemma AddIsMore(a: nat, b: nat)
    requires Exact(a)
    ensures Add(a, b) >= a && Exact(Add(a, b))
  {
    RoundIsMonotone(a as real, (a + b) as real);
    RoundIsExact((a + b) as real);
  }

  lemma AddIsMonotone(a: nat, b: nat, c: nat)
    requires a <= b
    ensures Add(a, c) <= Add(b, c)
  {
    RoundIsMonotone((a + c) as real, (b + c) as real);
  }

  /** A sum is off by at most its 2^53rd part. */
  lemma AddIsNear(a: nat, b: nat)
    ensures -(a + b) <= (Add(a, b) - (a + b)) * TWO53 <= a + b
  {
    RoundIsNear((a + b) as real);
  }

  /** In halves of the unit everything is twice as much. */
  lemma RoundOfDouble(x: real)
    requires x >= TWO52 as real
    ensures Round(2.0 * x) == 2 * Round(x)
  {
    assert 2.0 * x / 2.0 == x;
  }

  // ----- working a sum out -----

  predicate PowerOf2(u: nat) { u == 1 || (u > 1 && u % 2 == 0 && PowerOf2(u / 2)) }

  /** What `x` rounds to, where the last of 53 bits stands for `u`: the multiple `w` of it that
      is nearest, the even one of two; or itself, if it's a multiple of a lower bit. */
  lemma {:induction false} RoundsTo(x: real, u: nat, w: nat, a: nat)
    requires PowerOf2(u) && w == a * u && 0.0 <= x < TWO53 as real * u as real
    requires x == w as real || x >= TWO52 as real * u as real
    requires -(u as real) <= 2.0 * (w as real - x) <= u as real
    requires 2.0 * (w as real - x) == u as real || 2.0 * (x - w as real) == u as real ==> a % 2 == 0
    ensures Round(x) == w
    decreases u
  {
    if u > 1 && x >= TWO53 as real {
      Halved(a, u, w);
      RoundsTo(x / 2.0, u / 2, w / 2, a);
    }
  }

  lemma Halved(a: nat, u: nat, w: nat)
    requires u % 2 == 0 && w == a * u
    ensures w % 2 == 0 && w / 2 == a * (u / 2)
  {
    var h := u / 2;
    assert w == a * (2 * h) == 2 * (a * h);
  }

  /** No number of 53 bits is nearer. */
  lemma {:induction false} RoundIsNearest(x: real, m: nat)
    requires x >= 0.0 && Exact(m)
    ensures Apart(Round(x) as real, x) <= Apart(m as real, x)
    decreases x.Floor
  {
    if x >= TWO53 as real {
      if m % 2 == 0 {
        HalfIsExact(m / 2);
        RoundIsNearest(x / 2.0, m / 2);
        ApartByHalves(Round(x / 2.0), m / 2, x);
      } else {
        OddIsSmall(m);
        assert Exact(TWO52);
        RoundIsNearest(x / 2.0, TWO52);
        ApartByHalves(Round(x / 2.0), TWO52, x);
      }
    } else {
      NearestIsNearest(x, m);
    }
  }

  lemma NearestIsNearest(x: real, m: int)
    ensures Apart(Nearest(x) as real, x) <= Apart(m as real, x)
  {
    var q, n := x.Floor, Nearest(x);
    assert n == q || n == q + 1;
    var r := x - q as real;
    assert n == q ==> r <= 0.5;
    assert n == q + 1 ==> r >= 0.5;
    if m <= q { assert m as real <= q as real; } else { assert m as real >= q as real + 1.0; }
  }

  lemma ApartByHalves(n: int, m: int, x: real)
    requires Apart(n as real, x / 2.0) <= Apart(m as real, x / 2.0)
    ensures Apart((2 * n) as real, x) <= Apart((2 * m) as real, x)
  {
  }

  function Apart(a: real, b: real): real { if a < b then b - a else a - b }

  lemma HalfIsExact(n: nat)
    requires Exact(2 * n)
    ensures Exact(n)
  {
    if 2 * n >= TWO53 { assert (2 * n) as real / 2.0 == n as real; }
  }

  lemma OddIsSmall(m: nat)
    requires Exact(m) && m % 2 == 1
    ensures m < TWO53
  {
  }
}
