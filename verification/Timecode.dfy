/** Which frame shows at a moment, counted from a frame whose timecode is known. */
module Timecode {
  import opened Wrappers

  /** A frame of video at `num`/`den` frames per second. */
  datatype Frame = Frame(num: int, den: int, index: int)

  const SECOND: int := 1_000_000_000
  const SLACK: int := 1_000
  const I64_MIN: int := -0x8000_0000_0000_0000
  const I64_MAX: int := 0x7fff_ffff_ffff_ffff

  /** Whole frames in `ns`, a moment a hair before a frame belonging to it. */
  function Count(ns: int, num: int, den: int): int
    requires num > 0 && den > 0
  {
    ((ns + SLACK) * num) / (den * SECOND)
  }

  /** The frame showing `ns` after `f`; none at no rate, or further than can be counted. */
  function After(f: Frame, ns: int): Option<Frame> {
    if f.num <= 0 || f.den <= 0 then None
    else
      var frames := Count(ns, f.num, f.den);
      if I64_MIN <= frames <= I64_MAX then Some(f.(index := f.index + frames)) else None
  }

  /** Frame `k`'s exact time, rounded down to a nanosecond. */
  function Stamp(k: int, num: int, den: int): int
    requires num > 0 && den > 0
  {
    (k * (den * SECOND)) / num
  }

  /** The first nanosecond of frame `k`'s: its exact time rounded up, less the slack. */
  function FirstOf(k: int, num: int, den: int): int
    requires num > 0 && den > 0
  {
    -((-k * (den * SECOND)) / num) - SLACK
  }

  /** Dividing rounds down. */
  lemma DivIs(a: int, b: int, q: int)
    requires b > 0
    ensures a / b == q <==> q * b <= a < q * b + b
  {
    var r := a / b;
    assert a == r * b + a % b;
    if q * b <= a < q * b + b {
      if q < r { assert (q + 1) * b <= r * b by { Times(q + 1, r, b); } }
      if q > r { assert (r + 1) * b <= q * b by { Times(r + 1, q, b); } }
    }
  }

  lemma Times(x: int, y: int, b: int)
    requires x <= y && b >= 0
    ensures x * b <= y * b
  {
    assert y * b - x * b == (y - x) * b;
  }

  lemma Cancels(x: int, y: int, b: int)
    requires b > 0 && x * b < y * b
    ensures x < y
  {
    if y <= x { Times(y, x, b); }
  }

  /** Frame `k`'s time stays in bounds of the division by `d`. */
  lemma StampBounds(k: int, num: int, d: int)
    requires num > 0
    ensures (k * d) / num * num <= k * d < (k * d) / num * num + num
  {
    DivIs(k * d, num, (k * d) / num);
  }

  /** Rounding every frame's exact time down to a nanosecond and counting gives
      that frame, exactly if a frame lasts longer than the slack. */
  lemma StampsCountExactly(num: int, den: int)
    requires num > 0 && den > 0
    ensures (forall k :: Count(Stamp(k, num, den), num, den) == k) <==> den * SECOND > SLACK * num
  {
    var d := den * SECOND;
    if d > SLACK * num {
      forall k ensures Count(Stamp(k, num, den), num, den) == k {
        var t := Stamp(k, num, den);
        StampBounds(k, num, d);
        assert (t + SLACK) * num == t * num + SLACK * num;
        DivIs((t + SLACK) * num, d, k);
      }
    } else {
      assert Stamp(0, num, den) == 0 by { DivIs(0, num, 0); }
      DivIs(SLACK * num, d, 0);
      assert Count(Stamp(0, num, den), num, den) != 0;
    }
  }

  /** A moment counts as frame `k` exactly from that frame's first nanosecond until
      the next one's: each frame has one stretch of time, and they follow each other. */
  lemma FramesAreStretches(ns: int, k: int, num: int, den: int)
    requires num > 0 && den > 0
    ensures Count(ns, num, den) == k <==> FirstOf(k, num, den) <= ns < FirstOf(k + 1, num, den)
  {
    var d := den * SECOND;
    DivIs((ns + SLACK) * num, d, k);
    FirstIsFirst(ns, k, num, den);
    FirstIsFirst(ns, k + 1, num, den);
    assert (k + 1) * d == k * d + d;
  }

  lemma FirstIsFirst(ns: int, k: int, num: int, den: int)
    requires num > 0 && den > 0
    ensures FirstOf(k, num, den) <= ns <==> k * (den * SECOND) <= (ns + SLACK) * num
  {
    var d := den * SECOND;
    var x := -((-k * d) / num);
    StampBounds(-k, num, d);
    assert -k * d == -(k * d);
    assert -x * num <= -(k * d) < -x * num + num;
    assert -x * num == -(x * num);
    var y := ns + SLACK;
    if x <= y {
      Times(x, y, num);
    } else {
      Times(y, x - 1, num);
      assert (x - 1) * num == x * num - num;
    }
  }

  /** Later moments never count as earlier frames. */
  lemma CountIsMonotone(ns1: int, ns2: int, num: int, den: int)
    requires num > 0 && den > 0 && ns1 <= ns2
    ensures Count(ns1, num, den) <= Count(ns2, num, den)
  {
    var d := den * SECOND;
    var a, b := Count(ns1, num, den), Count(ns2, num, den);
    DivIs((ns1 + SLACK) * num, d, a);
    DivIs((ns2 + SLACK) * num, d, b);
    Times(ns1 + SLACK, ns2 + SLACK, num);
    assert (b + 1) * d == b * d + d;
    Cancels(a, b + 1, d);
  }

  /** Counting from a frame to another's time and from there on is counting straight
      there, at any rate under a million frames per second. */
  lemma AfterComposes(f: Frame, j: int, k: int)
    requires f.num > 0 && f.den > 0 && f.den * SECOND > SLACK * f.num
    requires I64_MIN <= j <= I64_MAX && I64_MIN <= k <= I64_MAX && I64_MIN <= j + k <= I64_MAX
    ensures var there := After(f, Stamp(j, f.num, f.den));
            && there == Some(f.(index := f.index + j))
            && After(there.value, Stamp(k, f.num, f.den)) == After(f, Stamp(j + k, f.num, f.den))
  {
    StampsCountExactly(f.num, f.den);
    assert forall n :: Count(Stamp(n, f.num, f.den), f.num, f.den) == n;
  }

  /** The frame that shows is the one that owns the moment, and there's none exactly at no rate, or
      if it's further on or back than 64 bits count. */
  lemma AfterIsTheOwner(f: Frame, ns: int, k: int)
    requires f.num > 0 && f.den > 0 && FirstOf(k, f.num, f.den) <= ns < FirstOf(k + 1, f.num, f.den)
    ensures After(f, ns) == if -0x8000_0000_0000_0000 <= k < 0x8000_0000_0000_0000 then Some(f.(index := f.index + k))
                            else None
  {
    FramesAreStretches(ns, k, f.num, f.den);
    hide Count, FirstOf;
  }

  /** At up to a frame a nanosecond, what's counted always fits. */
  lemma AfterIsCounted(f: Frame, ns: int)
    requires 0 < f.num && 0 < f.den && f.num <= f.den * SECOND
    requires I64_MIN <= ns <= I64_MAX - SLACK
    ensures After(f, ns) == Some(f.(index := f.index + Count(ns, f.num, f.den)))
  {
    var d := f.den * SECOND;
    var q := Count(ns, f.num, f.den);
    DivIs((ns + SLACK) * f.num, d, q);
    hide Count;
    NoFurther(ns + SLACK, f.num, d, q);
  }

  /** A part of a whole is no further off than it. */
  lemma NoFurther(y: int, num: int, d: int, q: int)
    requires 0 < num <= d && q * d <= y * num < q * d + d
    ensures if y >= 0 then 0 <= q <= y else y <= q <= 0
  {
    Distributes(q, d);
    if y >= 0 {
      Smaller(y, num, d);
      Distributes(y, d);
      Cancels(q, y + 1, d);
      Cancels(0, q + 1, d);
    } else {
      Smaller(-y, num, d);
      assert -y * d == -(y * d) && -y * num == -(y * num);
      Cancels(y, q + 1, d);
      Cancels(q, 1, d);
    }
  }

  lemma Distributes(q: int, d: int)
    ensures (q + 1) * d == q * d + d
  {
  }

  lemma Smaller(y: int, num: int, d: int)
    requires y >= 0 && 0 < num <= d
    ensures 0 <= y * num <= y * d
  {
    assert y * d - y * num == y * (d - num);
  }
}
