/** For which answers of a benchmark the sum of shares tips over: as many feeds as the
    answer come to more than the node, or four fifths of them to more than 0.8 of it.
    Each sum is worked out a stretch at a time, while its last bit stands for the same. */
module Tipping {
  import opened Float64
  import opened Shares

  /** One, in units small enough for every share to have 53 bits. */
  const BASE: nat := 0x800_0000_0000_0000

  /** 0.8 is no number of 53 bits either. */
  const FOUR_FIFTHS: nat := 0x666_6666_6666_6680

  /** `s` feeds of a setup that sustains `s` come to more than the node. */
  predicate Tips(s: nat)
    requires s > 0
  {
    Sum(s, ShareOf(BASE, s)) > BASE
  }

  /** Four fifths of them come to more than four fifths of it. */
  predicate TipsPart(s: nat)
    requires s > 0
  {
    Sum(4 * s / 5, ShareOf(BASE, s)) > FOUR_FIFTHS
  }

  // ----- which answers tip over -----

  /** The answers a benchmark can come to of which as many feeds tip over. */
  predicate Tipping(s: nat) {
    s in {
      9, 11, 18, 20, 21, 25, 35, 36, 39, 40, 41, 42, 43, 45, 47, 48, 49, 50, 51, 52, 55, 56, 57, 58, 60, 61, 67,
      73, 76, 77, 81, 82, 83, 86, 89, 92, 95, 98, 100, 101, 108, 111, 113, 114, 122, 123, 125
    }
  }

  /** And of which four fifths do. */
  predicate TippingPart(s: nat) { s in {20, 25, 35, 40, 45, 50, 55, 60, 95, 100, 125} }

  // ----- sums worked out -----

  /** `n` shares of `c` come to `d` more than they are. */
  predicate Reached(c: nat, n: nat, d: int) { Sum(n, c) == n * c + d }

  /** A sum before rounding and after: `q` times the last bit. */
  lemma Adds(a: nat, c: nat, u: nat, q: nat, w: nat)
    requires u > 0 && PowerOf2(u) && w == q * u && a + c < TWO53 * u
    requires w == a + c || a + c >= TWO52 * u
    requires 2 * (w - a - c) <= u && 2 * (a + c - w) <= u
    requires 2 * (w - a - c) == u || 2 * (a + c - w) == u ==> q % 2 == 0
    ensures Add(a, c) == w
  {
    hide PowerOf2, Round;
    var x := a + c;
    assert x as real < TWO53 as real * u as real;
    RoundsTo(x as real, u, w, q);
  }

  lemma Exactly(w: nat, u: nat)
    requires u > 0 && w % u == 0
    ensures w == w / u * u
  {
  }

  /** A share added to `t` comes to `t + step`, a multiple of `u` and no other nearer. */
  predicate Settles(c: nat, t: nat, u: nat, step: nat)
    requires u > 0
  {
    && (t + step) % u == 0 && (step == c || t + c >= TWO52 * u)
    && 2 * (step - c) <= u && 2 * (c - step) <= u
    && (Halfway(c, u, step) ==> (t + step) / u % 2 == 0)
  }

  predicate Halfway(c: nat, u: nat, step: nat) { 2 * (step - c) == u || 2 * (c - step) == u }

  /** And so does the next one. */
  predicate Repeats(c: nat, u: nat, step: nat)
    requires u > 0
  {
    step % u == 0 && (Halfway(c, u, step) ==> step / u % 2 == 0)
  }

  /** `m` more shares, while the last bit stands for `u` and rounding adds `e` to each. */
  lemma {:induction false} Leg(c: nat, n: nat, d: int, u: nat, m: nat, e: int)
    requires u > 0 && PowerOf2(u) && m > 0 && Reached(c, n, d) && n * c + d >= 0 && c + e >= 0
    requires Settles(c, n * c + d, u, c + e) && (m > 1 ==> Repeats(c, u, c + e))
    requires n * c + d + c + (m - 1) * (c + e) < TWO53 * u
    ensures Reached(c, n + m, d + m * e)
  {
    hide Sum, PowerOf2, Steps, Settles, Repeats;
    StepsAre(m - 1, c + e);
    StepsAre(m, c + e);
    Walk(c, n, n * c + d, u, m, c + e);
    Regroup(c, n, d, m, e);
  }

  lemma Regroup(c: int, n: int, d: int, m: int, e: int)
    ensures (n + m) * c + (d + m * e) == n * c + d + m * (c + e)
  {
    assert (n + m) * c == n * c + m * c;
    assert m * (c + e) == m * c + m * e;
  }

  function Steps(m: nat, step: nat): nat { if m == 0 then 0 else Steps(m - 1, step) + step }

  lemma {:induction false} StepsAre(m: nat, step: nat)
    ensures Steps(m, step) == m * step
  {
    if m > 0 { StepsAre(m - 1, step); }
  }

  lemma {:induction false} Walk(c: nat, n: nat, t: nat, u: nat, m: nat, step: nat)
    requires u > 0 && PowerOf2(u) && m > 0 && Sum(n, c) == t
    requires Settles(c, t, u, step) && (m > 1 ==> Repeats(c, u, step))
    requires t + c + Steps(m - 1, step) < TWO53 * u
    ensures Sum(n + m, c) == t + Steps(m, step)
    decreases m
  {
    hide PowerOf2, Sum, Settles, Repeats;
    Once(c, n, t, u, step);
    if m > 1 {
      SettlesAgain(c, t, u, step);
      Walk(c, n + 1, t + step, u, m - 1, step);
    } else {
      assert Steps(1, step) == Steps(0, step) + step;
    }
  }

  lemma Once(c: nat, n: nat, t: nat, u: nat, step: nat)
    requires u > 0 && PowerOf2(u) && Sum(n, c) == t && Settles(c, t, u, step) && t + c < TWO53 * u
    ensures Sum(n + 1, c) == t + step
  {
    hide PowerOf2, Add;
    Exactly(t + step, u);
    Adds(t, c, u, (t + step) / u, t + step);
  }

  lemma SettlesAgain(c: nat, t: nat, u: nat, step: nat)
    requires u > 0 && Settles(c, t, u, step) && Repeats(c, u, step)
    ensures Settles(c, t + step, u, step)
  {
    hide Halfway;
    AddMultiples(t + step, step, u);
    if Halfway(c, u, step) { BothEven((t + step) / u, step / u); }
  }

  lemma BothEven(a: nat, b: nat)
    requires a % 2 == 0 && b % 2 == 0
    ensures (a + b) % 2 == 0
  {
  }

  lemma AddMultiples(a: nat, b: nat, u: nat)
    requires u > 0 && a % u == 0 && b % u == 0
    ensures (a + b) % u == 0 && (a + b) / u == a / u + b / u
  {
    var x, y := a / u, b / u;
    assert a == x * u && b == y * u;
    assert a + b == (x + y) * u;
    WholeMultiple(x + y, u);
  }

  lemma WholeMultiple(x: nat, u: nat)
    requires u > 0
    ensures x * u % u == 0 && x * u / u == x
  {
    var q, r := x * u / u, x * u % u;
    assert x * u == q * u + r;
    assert (x - q) * u == r;
    Between(x - q, u);
  }

  lemma Between(k: int, u: nat)
    requires 0 <= k * u < u
    ensures k == 0
  {
    assert k > 0 ==> k * u >= u;
  }

  /** A share worked out: `c` is the nearest, its last bit standing for `u`. */
  lemma Share(k: nat, c: nat, u: nat)
    requires k > 0 && u > 0 && PowerOf2(u) && c % u == 0 && TWO52 * u * k <= BASE < TWO53 * u * k
    requires 2 * (k * c - BASE) < u * k && 2 * (BASE - k * c) < u * k
    ensures c == ShareOf(BASE, k) && Reached(c, 0, 0)
  {
    hide PowerOf2, Round;
    QuotientIs(BASE, k, c, u);
    assert c == c / u * u;
    var x := BASE as real / k as real;
    hide ShareOf;
    RoundsTo(x, u, c, c / u);
    ShareIs(BASE, k);
  }

  lemma Whole(k: nat, f: nat, c: nat, d: int)
    requires k > 0 && f > 0 && PowerOf2(f) && k * f <= 128 && c == ShareOf(BASE, k) && Reached(c, k * f, d)
    ensures Tips(k * f) <==> k * f * c + d > f * BASE
  {
    hide Sum, ShareOf, PowerOf2;
    SameShare(k, f);
    UnitsAgree(BASE, f, k * f, k * f);
    Cancels(f, Sum(k * f, ShareOf(BASE, k * f)), BASE);
  }

  lemma Part(k: nat, f: nat, n: nat, c: nat, d: int)
    requires k > 0 && f > 0 && PowerOf2(f) && k * f <= 128 && c == ShareOf(BASE, k) && Reached(c, n, d)
    requires 5 * n == 4 * (k * f)
    ensures TipsPart(k * f) <==> n * c + d > f * FOUR_FIFTHS
  {
    hide Sum, ShareOf, PowerOf2, Round80;
    SameShare(k, f);
    FourFifthsIs();
    UnitsAgree(BASE, f, n, k * f);
    Cancels(f, Sum(n, ShareOf(BASE, k * f)), FOUR_FIFTHS);
    assert 4 * (k * f) / 5 == n;
  }

  lemma SameShare(k: nat, f: nat)
    requires k > 0 && f > 0
    ensures k * f > 0 && ShareOf(f * BASE, k * f) == ShareOf(BASE, k)
  {
    assert k * f > 0 by { Scale(1, k, f); }
    var x := BASE as real / k as real;
    assert x * k as real == BASE as real;
    SameQuotient(BASE, k, f);
  }

  lemma FourFifthsIs()
    ensures Round80(BASE) == FOUR_FIFTHS
  {
    RoundsTo(0.8 * BASE as real, 64, FOUR_FIFTHS, FOUR_FIFTHS / 64);
  }

  // ----- every sum -----

  lemma Powers()
    ensures PowerOf2(1) && PowerOf2(2) && PowerOf2(4) && PowerOf2(8) && PowerOf2(16) && PowerOf2(32)
    ensures PowerOf2(64) && PowerOf2(128) && PowerOf2(256) && PowerOf2(512) && PowerOf2(1024) && PowerOf2(2048)
    ensures PowerOf2(4096) && PowerOf2(8192) && PowerOf2(16384)
  {
  }

  lemma Row1()
    ensures !Tips(1) && !Tips(2) && !Tips(4) && !Tips(8) && !Tips(16) && !Tips(32) && !Tips(64) &&
            !Tips(128)
  {
    hide Sum, Add, Round, ShareOf, Tips, TipsPart, Round80, Reached, PowerOf2;
    Powers();
    Share(1, 576460752303423488, 128); Leg(576460752303423488, 0, 0, 128, 1, 0);
    Whole(1, 1, 576460752303423488, 0); Leg(576460752303423488, 1, 0, 256, 1, 0);
    Whole(1, 2, 576460752303423488, 0); Leg(576460752303423488, 2, 0, 512, 2, 0);
    Whole(1, 4, 576460752303423488, 0); Leg(576460752303423488, 4, 0, 1024, 4, 0);
    Whole(1, 8, 576460752303423488, 0); Leg(576460752303423488, 8, 0, 2048, 8, 0);
    Whole(1, 16, 576460752303423488, 0); Leg(576460752303423488, 16, 0, 4096, 16, 0);
    Whole(1, 32, 576460752303423488, 0); Leg(576460752303423488, 32, 0, 8192, 32, 0);
    Whole(1, 64, 576460752303423488, 0); Leg(576460752303423488, 64, 0, 16384, 64, 0);
    Whole(1, 128, 576460752303423488, 0);
  }

  lemma Row3()
    ensures !Tips(3) && !Tips(6) && !Tips(12) && !Tips(24) && Tips(48) && !Tips(96)
  {
    hide Sum, Add, Round, ShareOf, Tips, TipsPart, Round80, Reached, PowerOf2;
    Powers();
    Share(3, 192153584101141152, 32); Leg(192153584101141152, 0, 0, 32, 1, 0);
    Leg(192153584101141152, 1, 0, 64, 1, 0); Leg(192153584101141152, 2, 0, 64, 1, 32);
    Whole(3, 1, 192153584101141152, 32); Leg(192153584101141152, 3, 32, 128, 3, -32);
    Whole(3, 2, 192153584101141152, -64); Leg(192153584101141152, 6, -64, 256, 1, -32);
    Leg(192153584101141152, 7, -96, 256, 4, 96); Leg(192153584101141152, 11, 288, 512, 1, -160);
    Whole(3, 4, 192153584101141152, 128); Leg(192153584101141152, 12, 128, 512, 12, -160);
    Whole(3, 8, 192153584101141152, -1792); Leg(192153584101141152, 24, -1792, 1024, 23, 352);
    Leg(192153584101141152, 47, 6304, 2048, 1, 352); Whole(3, 16, 192153584101141152, 6656);
    Leg(192153584101141152, 48, 6656, 2048, 48, -672); Whole(3, 32, 192153584101141152, -25600);
  }

  lemma Row5Begins()
    ensures 115292150460684704 == ShareOf(BASE, 5) && Reached(115292150460684704, 20, 384)
    ensures !TipsPart(5) && !Tips(5) && !TipsPart(10) && !Tips(10) && TipsPart(20) && Tips(20)
  {
    hide Sum, Add, Round, ShareOf, Tips, TipsPart, Round80, Reached, PowerOf2;
    Powers();
    Share(5, 115292150460684704, 16); Leg(115292150460684704, 0, 0, 32, 2, 0);
    Leg(115292150460684704, 2, 0, 64, 1, 32); Leg(115292150460684704, 3, 32, 64, 1, -32);
    Part(5, 1, 4, 115292150460684704, 0); Leg(115292150460684704, 4, 0, 128, 1, -32);
    Whole(5, 1, 115292150460684704, -32); Leg(115292150460684704, 5, -32, 128, 3, -32);
    Part(5, 2, 8, 115292150460684704, -128); Leg(115292150460684704, 8, -128, 128, 2, -32);
    Whole(5, 2, 115292150460684704, -192); Leg(115292150460684704, 10, -192, 256, 1, -32);
    Leg(115292150460684704, 11, -224, 256, 5, 96); Part(5, 4, 16, 115292150460684704, 256);
    Leg(115292150460684704, 16, 256, 256, 3, 96); Leg(115292150460684704, 19, 544, 512, 1, -160);
    Whole(5, 4, 115292150460684704, 384);
  }

  lemma Row5()
    ensures !TipsPart(5) && !Tips(5) && !TipsPart(10) && !Tips(10) && TipsPart(20) && Tips(20) &&
            TipsPart(40) && Tips(40) && !TipsPart(80) && !Tips(80)
  {
    hide Sum, Add, Round, ShareOf, Tips, TipsPart, Round80, Reached, PowerOf2;
    Powers();
    Row5Begins();
    Leg(115292150460684704, 20, 384, 512, 12, 96); Part(5, 8, 32, 115292150460684704, 1536);
    Leg(115292150460684704, 32, 1536, 512, 7, 96); Leg(115292150460684704, 39, 2208, 1024, 1, -416);
    Whole(5, 8, 115292150460684704, 1792); Leg(115292150460684704, 40, 1792, 1024, 24, -416);
    Part(5, 16, 64, 115292150460684704, -8192); Leg(115292150460684704, 64, -8192, 1024, 16, -416);
    Whole(5, 16, 115292150460684704, -14848);
  }

  lemma Row7()
    ensures !Tips(7) && !Tips(14) && !Tips(28) && Tips(56) && !Tips(112)
  {
    hide Sum, Add, Round, ShareOf, Tips, TipsPart, Round80, Reached, PowerOf2;
    Powers();
    Share(7, 82351536043346208, 16); Leg(82351536043346208, 0, 0, 32, 3, 0);
    Leg(82351536043346208, 3, 0, 64, 1, 0); Leg(82351536043346208, 4, 0, 64, 3, -32);
    Whole(7, 1, 82351536043346208, -96); Leg(82351536043346208, 7, -96, 128, 7, -32);
    Whole(7, 2, 82351536043346208, -320); Leg(82351536043346208, 14, -320, 256, 1, 96);
    Leg(82351536043346208, 15, -224, 256, 13, -32); Whole(7, 4, 82351536043346208, -640);
    Leg(82351536043346208, 28, -640, 512, 1, -32); Leg(82351536043346208, 29, -672, 512, 26, 224);
    Leg(82351536043346208, 55, 5152, 1024, 1, 224); Whole(7, 8, 82351536043346208, 5376);
    Leg(82351536043346208, 56, 5376, 1024, 56, -288); Whole(7, 16, 82351536043346208, -10752);
  }

  lemma Row9()
    ensures Tips(9) && Tips(18) && Tips(36) && !Tips(72)
  {
    hide Sum, Add, Round, ShareOf, Tips, TipsPart, Round80, Reached, PowerOf2;
    Powers();
    Share(9, 64051194700380384, 8); Leg(64051194700380384, 0, 0, 32, 4, 0);
    Leg(64051194700380384, 4, 0, 64, 4, 32); Leg(64051194700380384, 8, 128, 128, 1, 32);
    Whole(9, 1, 64051194700380384, 160); Leg(64051194700380384, 9, 160, 128, 8, 32);
    Leg(64051194700380384, 17, 416, 256, 1, -96); Whole(9, 2, 64051194700380384, 320);
    Leg(64051194700380384, 18, 320, 256, 17, 32); Leg(64051194700380384, 35, 864, 512, 1, -224);
    Whole(9, 4, 64051194700380384, 640); Leg(64051194700380384, 36, 640, 512, 36, -224);
    Whole(9, 8, 64051194700380384, -7424);
  }

  lemma Row11()
    ensures Tips(11) && !Tips(22) && !Tips(44) && !Tips(88)
  {
    hide Sum, Add, Round, ShareOf, Tips, TipsPart, Round80, Reached, PowerOf2;
    Powers();
    Share(11, 52405522936674864, 8); Leg(52405522936674864, 0, 0, 16, 2, 0);
    Leg(52405522936674864, 2, 0, 32, 1, -16); Leg(52405522936674864, 3, -16, 32, 2, 16);
    Leg(52405522936674864, 5, 16, 64, 5, 16); Leg(52405522936674864, 10, 96, 128, 1, 16);
    Whole(11, 1, 52405522936674864, 112); Leg(52405522936674864, 11, 112, 128, 11, -48);
    Whole(11, 2, 52405522936674864, -416); Leg(52405522936674864, 22, -416, 256, 1, 80);
    Leg(52405522936674864, 23, -336, 256, 21, -48); Whole(11, 4, 52405522936674864, -1344);
    Leg(52405522936674864, 44, -1344, 512, 1, 208); Leg(52405522936674864, 45, -1136, 512, 43, -48);
    Whole(11, 8, 52405522936674864, -3200);
  }

  lemma Row13()
    ensures !Tips(13) && !Tips(26) && Tips(52) && !Tips(104)
  {
    hide Sum, Add, Round, ShareOf, Tips, TipsPart, Round80, Reached, PowerOf2;
    Powers();
    Share(13, 44343134792571040, 8); Leg(44343134792571040, 0, 0, 32, 6, 0);
    Leg(44343134792571040, 6, 0, 64, 1, 32); Leg(44343134792571040, 7, 32, 64, 6, -32);
    Whole(13, 1, 44343134792571040, -160); Leg(44343134792571040, 13, -160, 128, 13, -32);
    Whole(13, 2, 44343134792571040, -576); Leg(44343134792571040, 26, -576, 256, 25, 96);
    Leg(44343134792571040, 51, 1824, 512, 1, 96); Whole(13, 4, 44343134792571040, 1920);
    Leg(44343134792571040, 52, 1920, 512, 52, -160); Whole(13, 8, 44343134792571040, -6400);
  }

  lemma Row15()
    ensures !TipsPart(15) && !Tips(15) && !TipsPart(30) && !Tips(30) && TipsPart(60) && Tips(60) &&
            !TipsPart(120) && !Tips(120)
  {
    hide Sum, Add, Round, ShareOf, Tips, TipsPart, Round80, Reached, PowerOf2;
    Powers();
    Share(15, 38430716820228232, 8); Leg(38430716820228232, 0, 0, 8, 1, 0);
    Leg(38430716820228232, 1, 0, 16, 1, 0); Leg(38430716820228232, 2, 0, 16, 1, 8);
    Leg(38430716820228232, 3, 8, 32, 4, -8); Leg(38430716820228232, 7, -24, 64, 1, 24);
    Leg(38430716820228232, 8, 0, 64, 4, -8); Part(15, 1, 12, 38430716820228232, -32);
    Leg(38430716820228232, 12, -32, 64, 3, -8); Whole(15, 1, 38430716820228232, -56);
    Leg(38430716820228232, 15, -56, 128, 1, 56); Leg(38430716820228232, 16, 0, 128, 8, -8);
    Part(15, 2, 24, 38430716820228232, -64); Leg(38430716820228232, 24, -64, 128, 6, -8);
    Whole(15, 2, 38430716820228232, -112); Leg(38430716820228232, 30, -112, 256, 1, -8);
    Leg(38430716820228232, 31, -120, 256, 17, 120); Part(15, 4, 48, 38430716820228232, 1920);
    Leg(38430716820228232, 48, 1920, 256, 11, 120); Leg(38430716820228232, 59, 3240, 512, 1, -136);
    Whole(15, 4, 38430716820228232, 3104); Leg(38430716820228232, 60, 3104, 512, 36, -136);
    Part(15, 8, 96, 38430716820228232, -1792); Leg(38430716820228232, 96, -1792, 512, 24, -136);
    Whole(15, 8, 38430716820228232, -5056);
  }

  lemma Row17()
    ensures !Tips(17) && !Tips(34) && !Tips(68)
  {
    hide Sum, Add, Round, ShareOf, Tips, TipsPart, Round80, Reached, PowerOf2;
    Powers();
    Share(17, 33909456017848440, 4); Leg(33909456017848440, 0, 0, 8, 2, 0);
    Leg(33909456017848440, 2, 0, 16, 1, -8); Leg(33909456017848440, 3, -8, 16, 1, 8);
    Leg(33909456017848440, 4, 0, 32, 4, 8); Leg(33909456017848440, 8, 32, 64, 1, -24);
    Leg(33909456017848440, 9, 8, 64, 7, 8); Leg(33909456017848440, 16, 64, 128, 1, -56);
    Whole(17, 1, 33909456017848440, 8); Leg(33909456017848440, 17, 8, 128, 16, 8);
    Leg(33909456017848440, 33, 136, 256, 1, -120); Whole(17, 2, 33909456017848440, 16);
    Leg(33909456017848440, 34, 16, 256, 34, -120); Whole(17, 4, 33909456017848440, -4064);
  }

  lemma Row19()
    ensures !Tips(19) && !Tips(38) && Tips(76)
  {
    hide Sum, Add, Round, ShareOf, Tips, TipsPart, Round80, Reached, PowerOf2;
    Powers();
    Share(19, 30340039594917024, 4); Leg(30340039594917024, 0, 0, 32, 9, 0);
    Leg(30340039594917024, 9, 0, 64, 1, 0); Leg(30340039594917024, 10, 0, 64, 1, 32);
    Leg(30340039594917024, 11, 32, 64, 8, -32); Whole(19, 1, 30340039594917024, -224);
    Leg(30340039594917024, 19, -224, 128, 19, -32); Whole(19, 2, 30340039594917024, -832);
    Leg(30340039594917024, 38, -832, 256, 1, -32); Leg(30340039594917024, 39, -864, 256, 36, 96);
    Leg(30340039594917024, 75, 2592, 512, 1, 96); Whole(19, 4, 30340039594917024, 2688);
  }

  lemma Row21()
    ensures Tips(21) && Tips(42) && !Tips(84)
  {
    hide Sum, Add, Round, ShareOf, Tips, TipsPart, Round80, Reached, PowerOf2;
    Powers();
    Share(21, 27450512014448736, 4); Leg(27450512014448736, 0, 0, 32, 10, 0);
    Leg(27450512014448736, 10, 0, 64, 1, -32); Leg(27450512014448736, 11, -32, 64, 9, 32);
    Leg(27450512014448736, 20, 256, 128, 1, 32); Whole(21, 1, 27450512014448736, 288);
    Leg(27450512014448736, 21, 288, 128, 20, 32); Leg(27450512014448736, 41, 928, 256, 1, -96);
    Whole(21, 2, 27450512014448736, 832); Leg(27450512014448736, 42, 832, 256, 42, -96);
    Whole(21, 4, 27450512014448736, -3200);
  }

  lemma Row23()
    ensures !Tips(23) && !Tips(46) && Tips(92)
  {
    hide Sum, Add, Round, ShareOf, Tips, TipsPart, Round80, Reached, PowerOf2;
    Powers();
    Share(23, 25063510969714064, 4); Leg(25063510969714064, 0, 0, 16, 5, 0);
    Leg(25063510969714064, 5, 0, 32, 1, 0); Leg(25063510969714064, 6, 0, 32, 1, 16);
    Leg(25063510969714064, 7, 16, 32, 4, -16); Leg(25063510969714064, 11, -48, 64, 12, -16);
    Whole(23, 1, 25063510969714064, -240); Leg(25063510969714064, 23, -240, 128, 23, -16);
    Whole(23, 2, 25063510969714064, -608); Leg(25063510969714064, 46, -608, 256, 1, -16);
    Leg(25063510969714064, 47, -624, 256, 44, 112); Leg(25063510969714064, 91, 4304, 512, 1, -144);
    Whole(23, 4, 25063510969714064, 4160);
  }

  lemma Row25()
    ensures TipsPart(25) && Tips(25) && TipsPart(50) && Tips(50) && TipsPart(100) && Tips(100)
  {
    hide Sum, Add, Round, ShareOf, Tips, TipsPart, Round80, Reached, PowerOf2;
    Powers();
    Share(25, 23058430092136940, 4); Leg(23058430092136940, 0, 0, 4, 1, 0);
    Leg(23058430092136940, 1, 0, 8, 1, 0); Leg(23058430092136940, 2, 0, 8, 1, -4);
    Leg(23058430092136940, 3, -4, 16, 3, 4); Leg(23058430092136940, 6, 8, 32, 1, 4);
    Leg(23058430092136940, 7, 12, 32, 5, -12); Leg(23058430092136940, 12, -48, 64, 1, -12);
    Leg(23058430092136940, 13, -60, 64, 7, 20); Part(25, 1, 20, 23058430092136940, 80);
    Leg(23058430092136940, 20, 80, 64, 4, 20); Leg(23058430092136940, 24, 160, 128, 1, -44);
    Whole(25, 1, 23058430092136940, 116); Leg(23058430092136940, 25, 116, 128, 15, 20);
    Part(25, 2, 40, 23058430092136940, 416); Leg(23058430092136940, 40, 416, 128, 9, 20);
    Leg(23058430092136940, 49, 596, 256, 1, -108); Whole(25, 2, 23058430092136940, 488);
    Leg(23058430092136940, 50, 488, 256, 30, 20); Part(25, 4, 80, 23058430092136940, 1088);
    Leg(23058430092136940, 80, 1088, 256, 19, 20); Leg(23058430092136940, 99, 1468, 512, 1, 20);
    Whole(25, 4, 23058430092136940, 1488);
  }

  lemma Row27()
    ensures !Tips(27) && !Tips(54) && Tips(108)
  {
    hide Sum, Add, Round, ShareOf, Tips, TipsPart, Round80, Reached, PowerOf2;
    Powers();
    Share(27, 21350398233460128, 4); Leg(21350398233460128, 0, 0, 32, 13, 0);
    Leg(21350398233460128, 13, 0, 64, 1, 0); Leg(21350398233460128, 14, 0, 64, 1, 32);
    Leg(21350398233460128, 15, 32, 64, 12, -32); Whole(27, 1, 21350398233460128, -352);
    Leg(21350398233460128, 27, -352, 128, 27, -32); Whole(27, 2, 21350398233460128, -1216);
    Leg(21350398233460128, 54, -1216, 256, 53, 96); Leg(21350398233460128, 107, 3872, 512, 1, -160);
    Whole(27, 4, 21350398233460128, 3712);
  }

  lemma Row29()
    ensures !Tips(29) && Tips(58) && !Tips(116)
  {
    hide Sum, Add, Round, ShareOf, Tips, TipsPart, Round80, Reached, PowerOf2;
    Powers();
    Share(29, 19877956975980120, 4); Leg(19877956975980120, 0, 0, 8, 3, 0);
    Leg(19877956975980120, 3, 0, 16, 1, 0); Leg(19877956975980120, 4, 0, 16, 3, 8);
    Leg(19877956975980120, 7, 24, 32, 7, 8); Leg(19877956975980120, 14, 80, 64, 1, 8);
    Leg(19877956975980120, 15, 88, 64, 14, -24); Whole(29, 1, 19877956975980120, -248);
    Leg(19877956975980120, 29, -248, 128, 28, 40); Leg(19877956975980120, 57, 872, 256, 1, -88);
    Whole(29, 2, 19877956975980120, 784); Leg(19877956975980120, 58, 784, 256, 58, -88);
    Whole(29, 4, 19877956975980120, -4320);
  }

  lemma Row31()
    ensures !Tips(31) && !Tips(62) && !Tips(124)
  {
    hide Sum, Add, Round, ShareOf, Tips, TipsPart, Round80, Reached, PowerOf2;
    Powers();
    Share(31, 18595508138820112, 4); Leg(18595508138820112, 0, 0, 16, 7, 0);
    Leg(18595508138820112, 7, 0, 32, 1, 0); Leg(18595508138820112, 8, 0, 32, 7, -16);
    Leg(18595508138820112, 15, -112, 64, 16, -16); Whole(31, 1, 18595508138820112, -368);
    Leg(18595508138820112, 31, -368, 128, 31, -16); Whole(31, 2, 18595508138820112, -864);
    Leg(18595508138820112, 62, -864, 256, 1, 112); Leg(18595508138820112, 63, -752, 256, 61, -16);
    Whole(31, 4, 18595508138820112, -1728);
  }

  lemma Row33()
    ensures !Tips(33) && !Tips(66)
  {
    hide Sum, Add, Round, ShareOf, Tips, TipsPart, Round80, Reached, PowerOf2;
    Powers();
    Share(33, 17468507645558288, 2); Leg(17468507645558288, 0, 0, 16, 8, 0);
    Leg(17468507645558288, 8, 0, 32, 8, -16); Leg(17468507645558288, 16, -128, 64, 17, -16);
    Whole(33, 1, 17468507645558288, -400); Leg(17468507645558288, 33, -400, 128, 33, -16);
    Whole(33, 2, 17468507645558288, -928);
  }

  lemma Row35()
    ensures TipsPart(35) && Tips(35) && !TipsPart(70) && !Tips(70)
  {
    hide Sum, Add, Round, ShareOf, Tips, TipsPart, Round80, Reached, PowerOf2;
    Powers();
    Share(35, 16470307208669242, 2); Leg(16470307208669242, 0, 0, 2, 1, 0);
    Leg(16470307208669242, 1, 0, 4, 1, 0); Leg(16470307208669242, 2, 0, 8, 1, 2);
    Leg(16470307208669242, 3, 2, 8, 1, -2); Leg(16470307208669242, 4, 0, 16, 1, -2);
    Leg(16470307208669242, 5, -2, 16, 3, 6); Leg(16470307208669242, 8, 16, 32, 9, 6);
    Leg(16470307208669242, 17, 70, 64, 1, -26); Leg(16470307208669242, 18, 44, 64, 10, 6);
    Part(35, 1, 28, 16470307208669242, 104); Leg(16470307208669242, 28, 104, 64, 6, 6);
    Leg(16470307208669242, 34, 140, 128, 1, 6); Whole(35, 1, 16470307208669242, 146);
    Leg(16470307208669242, 35, 146, 128, 21, -58); Part(35, 2, 56, 16470307208669242, -1072);
    Leg(16470307208669242, 56, -1072, 128, 14, -58); Whole(35, 2, 16470307208669242, -1884);
  }

  lemma Row37()
    ensures !Tips(37) && !Tips(74)
  {
    hide Sum, Add, Round, ShareOf, Tips, TipsPart, Round80, Reached, PowerOf2;
    Powers();
    Share(37, 15580020332524960, 2); Leg(15580020332524960, 0, 0, 32, 18, 0);
    Leg(15580020332524960, 18, 0, 64, 1, 32); Leg(15580020332524960, 19, 32, 64, 18, -32);
    Whole(37, 1, 15580020332524960, -544); Leg(15580020332524960, 37, -544, 128, 37, -32);
    Whole(37, 2, 15580020332524960, -1728);
  }

  lemma Row39()
    ensures Tips(39) && !Tips(78)
  {
    hide Sum, Add, Round, ShareOf, Tips, TipsPart, Round80, Reached, PowerOf2;
    Powers();
    Share(39, 14781044930857012, 2); Leg(14781044930857012, 0, 0, 4, 2, 0);
    Leg(14781044930857012, 2, 0, 8, 1, 4); Leg(14781044930857012, 3, 4, 8, 1, -4);
    Leg(14781044930857012, 4, 0, 16, 5, -4); Leg(14781044930857012, 9, -20, 32, 10, 12);
    Leg(14781044930857012, 19, 100, 64, 19, 12); Leg(14781044930857012, 38, 328, 128, 1, -52);
    Whole(39, 1, 14781044930857012, 276); Leg(14781044930857012, 39, 276, 128, 39, -52);
    Whole(39, 2, 14781044930857012, -1752);
  }

  lemma Row41()
    ensures Tips(41) && Tips(82)
  {
    hide Sum, Add, Round, ShareOf, Tips, TipsPart, Round80, Reached, PowerOf2;
    Powers();
    Share(41, 14060018348863988, 2); Leg(14060018348863988, 0, 0, 4, 2, 0);
    Leg(14060018348863988, 2, 0, 8, 1, 4); Leg(14060018348863988, 3, 4, 8, 2, -4);
    Leg(14060018348863988, 5, -4, 16, 5, -4); Leg(14060018348863988, 10, -24, 32, 1, -4);
    Leg(14060018348863988, 11, -28, 32, 9, 12); Leg(14060018348863988, 20, 80, 64, 1, -20);
    Leg(14060018348863988, 21, 60, 64, 19, 12); Leg(14060018348863988, 40, 288, 128, 1, -52);
    Whole(41, 1, 14060018348863988, 236); Leg(14060018348863988, 41, 236, 128, 40, 12);
    Leg(14060018348863988, 81, 716, 256, 1, 12); Whole(41, 2, 14060018348863988, 728);
  }

  lemma Row43()
    ensures Tips(43) && Tips(86)
  {
    hide Sum, Add, Round, ShareOf, Tips, TipsPart, Round80, Reached, PowerOf2;
    Powers();
    Share(43, 13406064007056360, 2); Leg(13406064007056360, 0, 0, 8, 5, 0);
    Leg(13406064007056360, 5, 0, 16, 1, 0); Leg(13406064007056360, 6, 0, 16, 1, 8);
    Leg(13406064007056360, 7, 8, 16, 3, -8); Leg(13406064007056360, 10, -16, 32, 11, -8);
    Leg(13406064007056360, 21, -104, 64, 1, -8); Leg(13406064007056360, 22, -112, 64, 20, 24);
    Leg(13406064007056360, 42, 368, 128, 1, 24); Whole(43, 1, 13406064007056360, 392);
    Leg(13406064007056360, 43, 392, 128, 42, 24); Leg(13406064007056360, 85, 1400, 256, 1, -104);
    Whole(43, 2, 13406064007056360, 1296);
  }

  lemma Row45()
    ensures TipsPart(45) && Tips(45) && !TipsPart(90) && !Tips(90)
  {
    hide Sum, Add, Round, ShareOf, Tips, TipsPart, Round80, Reached, PowerOf2;
    Powers();
    Share(45, 12810238940076078, 2); Leg(12810238940076078, 0, 0, 2, 1, 0);
    Leg(12810238940076078, 1, 0, 4, 1, 0); Leg(12810238940076078, 2, 0, 8, 1, -2);
    Leg(12810238940076078, 3, -2, 8, 2, 2); Leg(12810238940076078, 5, 2, 16, 1, -6);
    Leg(12810238940076078, 6, -4, 16, 5, 2); Leg(12810238940076078, 11, 6, 32, 11, -14);
    Leg(12810238940076078, 22, -148, 64, 1, -14); Leg(12810238940076078, 23, -162, 64, 13, 18);
    Part(45, 1, 36, 12810238940076078, 72); Leg(12810238940076078, 36, 72, 64, 8, 18);
    Leg(12810238940076078, 44, 216, 128, 1, 18); Whole(45, 1, 12810238940076078, 234);
    Leg(12810238940076078, 45, 234, 128, 27, -46); Part(45, 2, 72, 12810238940076078, -1008);
    Leg(12810238940076078, 72, -1008, 128, 18, -46); Whole(45, 2, 12810238940076078, -1836);
  }

  lemma Row47()
    ensures Tips(47) && !Tips(94)
  {
    hide Sum, Add, Round, ShareOf, Tips, TipsPart, Round80, Reached, PowerOf2;
    Powers();
    Share(47, 12265122389434542, 2); Leg(12265122389434542, 0, 0, 2, 1, 0);
    Leg(12265122389434542, 1, 0, 4, 1, 0); Leg(12265122389434542, 2, 0, 8, 1, -2);
    Leg(12265122389434542, 3, -2, 8, 2, 2); Leg(12265122389434542, 5, 2, 16, 1, -6);
    Leg(12265122389434542, 6, -4, 16, 5, 2); Leg(12265122389434542, 11, 6, 32, 12, -14);
    Leg(12265122389434542, 23, -162, 64, 23, 18); Leg(12265122389434542, 46, 252, 128, 1, 18);
    Whole(47, 1, 12265122389434542, 270); Leg(12265122389434542, 47, 270, 128, 47, -46);
    Whole(47, 2, 12265122389434542, -1892);
  }

  lemma Row49()
    ensures Tips(49) && Tips(98)
  {
    hide Sum, Add, Round, ShareOf, Tips, TipsPart, Round80, Reached, PowerOf2;
    Powers();
    Share(49, 11764505149049458, 2); Leg(11764505149049458, 0, 0, 2, 1, 0);
    Leg(11764505149049458, 1, 0, 4, 1, 0); Leg(11764505149049458, 2, 0, 4, 1, 2);
    Leg(11764505149049458, 3, 2, 8, 3, -2); Leg(11764505149049458, 6, -4, 16, 1, 6);
    Leg(11764505149049458, 7, 2, 16, 5, -2); Leg(11764505149049458, 12, -8, 32, 1, -2);
    Leg(11764505149049458, 13, -10, 32, 11, 14); Leg(11764505149049458, 24, 144, 64, 24, 14);
    Leg(11764505149049458, 48, 480, 128, 1, -50); Whole(49, 1, 11764505149049458, 430);
    Leg(11764505149049458, 49, 430, 128, 48, 14); Leg(11764505149049458, 97, 1102, 256, 1, 14);
    Whole(49, 2, 11764505149049458, 1116);
  }

  lemma Row51()
    ensures Tips(51) && !Tips(102)
  {
    hide Sum, Add, Round, ShareOf, Tips, TipsPart, Round80, Reached, PowerOf2;
    Powers();
    Share(51, 11303152005949480, 2); Leg(11303152005949480, 0, 0, 8, 6, 0);
    Leg(11303152005949480, 6, 0, 16, 1, 8); Leg(11303152005949480, 7, 8, 16, 5, -8);
    Leg(11303152005949480, 12, -32, 32, 13, -8); Leg(11303152005949480, 25, -136, 64, 1, -8);
    Leg(11303152005949480, 26, -144, 64, 24, 24); Leg(11303152005949480, 50, 432, 128, 1, -40);
    Whole(51, 1, 11303152005949480, 392); Leg(11303152005949480, 51, 392, 128, 51, -40);
    Whole(51, 2, 11303152005949480, -1648);
  }

  lemma Row53()
    ensures !Tips(53) && !Tips(106)
  {
    hide Sum, Add, Round, ShareOf, Tips, TipsPart, Round80, Reached, PowerOf2;
    Powers();
    Share(53, 10876617967989122, 2); Leg(10876617967989122, 0, 0, 2, 1, 0);
    Leg(10876617967989122, 1, 0, 4, 1, 0); Leg(10876617967989122, 2, 0, 4, 1, 2);
    Leg(10876617967989122, 3, 2, 8, 3, -2); Leg(10876617967989122, 6, -4, 16, 1, 6);
    Leg(10876617967989122, 7, 2, 16, 6, -2); Leg(10876617967989122, 13, -10, 32, 1, 14);
    Leg(10876617967989122, 14, 4, 32, 12, -2); Leg(10876617967989122, 26, -20, 64, 1, 30);
    Leg(10876617967989122, 27, 10, 64, 26, -2); Whole(53, 1, 10876617967989122, -42);
    Leg(10876617967989122, 53, -42, 128, 1, 62); Leg(10876617967989122, 54, 20, 128, 52, -2);
    Whole(53, 2, 10876617967989122, -84);
  }

  lemma Row55()
    ensures TipsPart(55) && Tips(55) && !TipsPart(110) && !Tips(110)
  {
    hide Sum, Add, Round, ShareOf, Tips, TipsPart, Round80, Reached, PowerOf2;
    Powers();
    Share(55, 10481104587334972, 2); Leg(10481104587334972, 0, 0, 4, 3, 0);
    Leg(10481104587334972, 3, 0, 8, 1, 0); Leg(10481104587334972, 4, 0, 8, 2, 4);
    Leg(10481104587334972, 6, 8, 16, 7, 4); Leg(10481104587334972, 13, 36, 32, 1, -12);
    Leg(10481104587334972, 14, 24, 32, 13, 4); Leg(10481104587334972, 27, 76, 64, 1, -28);
    Leg(10481104587334972, 28, 48, 64, 16, 4); Part(55, 1, 44, 10481104587334972, 112);
    Leg(10481104587334972, 44, 112, 64, 10, 4); Leg(10481104587334972, 54, 152, 128, 1, 4);
    Whole(55, 1, 10481104587334972, 156); Leg(10481104587334972, 55, 156, 128, 33, -60);
    Part(55, 2, 88, 10481104587334972, -1824); Leg(10481104587334972, 88, -1824, 128, 22, -60);
    Whole(55, 2, 10481104587334972, -3144);
  }

  lemma Row57()
    ensures Tips(57) && Tips(114)
  {
    hide Sum, Add, Round, ShareOf, Tips, TipsPart, Round80, Reached, PowerOf2;
    Powers();
    Share(57, 10113346531639008, 2); Leg(10113346531639008, 0, 0, 32, 28, 0);
    Leg(10113346531639008, 28, 0, 64, 28, 32); Leg(10113346531639008, 56, 896, 128, 1, 32);
    Whole(57, 1, 10113346531639008, 928); Leg(10113346531639008, 57, 928, 128, 56, 32);
    Leg(10113346531639008, 113, 2720, 256, 1, -96); Whole(57, 2, 10113346531639008, 2624);
  }

  lemma Row59()
    ensures !Tips(59) && !Tips(118)
  {
    hide Sum, Add, Round, ShareOf, Tips, TipsPart, Round80, Reached, PowerOf2;
    Powers();
    Share(59, 9770521225481754, 2); Leg(9770521225481754, 0, 0, 2, 1, 0); Leg(9770521225481754, 1, 0, 4, 1, 0);
    Leg(9770521225481754, 2, 0, 4, 1, 2); Leg(9770521225481754, 3, 2, 8, 4, -2);
    Leg(9770521225481754, 7, -6, 16, 7, 6); Leg(9770521225481754, 14, 36, 32, 1, -10);
    Leg(9770521225481754, 15, 26, 32, 14, 6); Leg(9770521225481754, 29, 110, 64, 1, 6);
    Leg(9770521225481754, 30, 116, 64, 29, -26); Whole(59, 1, 9770521225481754, -638);
    Leg(9770521225481754, 59, -638, 128, 59, -26); Whole(59, 2, 9770521225481754, -2172);
  }

  lemma Row61()
    ensures Tips(61) && Tips(122)
  {
    hide Sum, Add, Round, ShareOf, Tips, TipsPart, Round80, Reached, PowerOf2;
    Powers();
    Share(61, 9450176267269238, 2); Leg(9450176267269238, 0, 0, 2, 1, 0); Leg(9450176267269238, 1, 0, 4, 1, 0);
    Leg(9450176267269238, 2, 0, 4, 1, -2); Leg(9450176267269238, 3, -2, 8, 4, 2);
    Leg(9450176267269238, 7, 6, 16, 8, -6); Leg(9450176267269238, 15, -42, 32, 15, 10);
    Leg(9450176267269238, 30, 108, 64, 30, 10); Leg(9450176267269238, 60, 408, 128, 1, -54);
    Whole(61, 1, 9450176267269238, 354); Leg(9450176267269238, 61, 354, 128, 60, 10);
    Leg(9450176267269238, 121, 954, 256, 1, 10); Whole(61, 2, 9450176267269238, 964);
  }

  lemma Row63()
    ensures !Tips(63) && !Tips(126)
  {
    hide Sum, Add, Round, ShareOf, Tips, TipsPart, Round80, Reached, PowerOf2;
    Powers();
    Share(63, 9150170671482912, 2); Leg(9150170671482912, 0, 0, 32, 31, 0);
    Leg(9150170671482912, 31, 0, 64, 1, 0); Leg(9150170671482912, 32, 0, 64, 31, -32);
    Whole(63, 1, 9150170671482912, -992); Leg(9150170671482912, 63, -992, 128, 63, -32);
    Whole(63, 2, 9150170671482912, -3008);
  }

  lemma Row65()
    ensures !TipsPart(65) && !Tips(65)
  {
    hide Sum, Add, Round, ShareOf, Tips, TipsPart, Round80, Reached, PowerOf2;
    Powers();
    Share(65, 8868626958514208, 1); Leg(8868626958514208, 0, 0, 32, 32, 0);
    Leg(8868626958514208, 32, 0, 64, 20, -32); Part(65, 1, 52, 8868626958514208, -640);
    Leg(8868626958514208, 52, -640, 64, 13, -32); Whole(65, 1, 8868626958514208, -1056);
  }

  lemma Row67()
    ensures Tips(67)
  {
    hide Sum, Add, Round, ShareOf, Tips, TipsPart, Round80, Reached, PowerOf2;
    Powers();
    Share(67, 8603891825424231, 1); Leg(8603891825424231, 0, 0, 1, 1, 0); Leg(8603891825424231, 1, 0, 2, 1, 0);
    Leg(8603891825424231, 2, 0, 4, 1, -1); Leg(8603891825424231, 3, -1, 4, 1, 1);
    Leg(8603891825424231, 4, 0, 8, 1, -3); Leg(8603891825424231, 5, -3, 8, 3, 1);
    Leg(8603891825424231, 8, 0, 16, 1, 1); Leg(8603891825424231, 9, 1, 16, 7, -7);
    Leg(8603891825424231, 16, -48, 32, 17, -7); Leg(8603891825424231, 33, -167, 64, 1, -7);
    Leg(8603891825424231, 34, -174, 64, 32, 25); Leg(8603891825424231, 66, 626, 128, 1, 25);
    Whole(67, 1, 8603891825424231, 651);
  }

  lemma Row69()
    ensures !Tips(69)
  {
    hide Sum, Add, Round, ShareOf, Tips, TipsPart, Round80, Reached, PowerOf2;
    Powers();
    Share(69, 8354503656571355, 1); Leg(8354503656571355, 0, 0, 1, 1, 0); Leg(8354503656571355, 1, 0, 2, 1, 0);
    Leg(8354503656571355, 2, 0, 4, 1, -1); Leg(8354503656571355, 3, -1, 4, 1, 1);
    Leg(8354503656571355, 4, 0, 8, 1, 1); Leg(8354503656571355, 5, 1, 8, 3, -3);
    Leg(8354503656571355, 8, -8, 16, 9, 5); Leg(8354503656571355, 17, 37, 32, 1, -11);
    Leg(8354503656571355, 18, 26, 32, 16, 5); Leg(8354503656571355, 34, 106, 64, 35, -27);
    Whole(69, 1, 8354503656571355, -839);
  }

  lemma Row71()
    ensures !Tips(71)
  {
    hide Sum, Add, Round, ShareOf, Tips, TipsPart, Round80, Reached, PowerOf2;
    Powers();
    Share(71, 8119165525400331, 1); Leg(8119165525400331, 0, 0, 1, 1, 0); Leg(8119165525400331, 1, 0, 2, 1, 0);
    Leg(8119165525400331, 2, 0, 4, 1, -1); Leg(8119165525400331, 3, -1, 4, 1, 1);
    Leg(8119165525400331, 4, 0, 8, 1, 1); Leg(8119165525400331, 5, 1, 8, 3, -3);
    Leg(8119165525400331, 8, -8, 16, 9, 5); Leg(8119165525400331, 17, 37, 32, 18, -11);
    Leg(8119165525400331, 35, -161, 64, 1, 21); Leg(8119165525400331, 36, -140, 64, 35, -11);
    Whole(71, 1, 8119165525400331, -525);
  }

  lemma Row73()
    ensures Tips(73)
  {
    hide Sum, Add, Round, ShareOf, Tips, TipsPart, Round80, Reached, PowerOf2;
    Powers();
    Share(73, 7896722634293472, 1); Leg(7896722634293472, 0, 0, 32, 36, 0);
    Leg(7896722634293472, 36, 0, 64, 36, 32); Leg(7896722634293472, 72, 1152, 128, 1, 32);
    Whole(73, 1, 7896722634293472, 1184);
  }

  lemma Row75()
    ensures !TipsPart(75) && !Tips(75)
  {
    hide Sum, Add, Round, ShareOf, Tips, TipsPart, Round80, Reached, PowerOf2;
    Powers();
    Share(75, 7686143364045647, 1); Leg(7686143364045647, 0, 0, 1, 1, 0); Leg(7686143364045647, 1, 0, 2, 1, 0);
    Leg(7686143364045647, 2, 0, 4, 1, -1); Leg(7686143364045647, 3, -1, 4, 1, 1);
    Leg(7686143364045647, 4, 0, 8, 1, -3); Leg(7686143364045647, 5, -3, 8, 4, 1);
    Leg(7686143364045647, 9, 1, 16, 1, -7); Leg(7686143364045647, 10, -6, 16, 8, 1);
    Leg(7686143364045647, 18, 2, 32, 1, 1); Leg(7686143364045647, 19, 3, 32, 18, -15);
    Leg(7686143364045647, 37, -267, 64, 1, 17); Leg(7686143364045647, 38, -250, 64, 22, -15);
    Part(75, 1, 60, 7686143364045647, -580); Leg(7686143364045647, 60, -580, 64, 15, -15);
    Whole(75, 1, 7686143364045647, -805);
  }

  lemma Row77()
    ensures Tips(77)
  {
    hide Sum, Add, Round, ShareOf, Tips, TipsPart, Round80, Reached, PowerOf2;
    Powers();
    Share(77, 7486503276667838, 1); Leg(7486503276667838, 0, 0, 2, 2, 0); Leg(7486503276667838, 2, 0, 4, 1, -2);
    Leg(7486503276667838, 3, -2, 4, 1, 2); Leg(7486503276667838, 4, 0, 8, 5, 2);
    Leg(7486503276667838, 9, 10, 16, 1, -6); Leg(7486503276667838, 10, 4, 16, 9, 2);
    Leg(7486503276667838, 19, 22, 32, 1, -14); Leg(7486503276667838, 20, 8, 32, 18, 2);
    Leg(7486503276667838, 38, 44, 64, 1, -30); Leg(7486503276667838, 39, 14, 64, 37, 2);
    Leg(7486503276667838, 76, 88, 128, 1, 2); Whole(77, 1, 7486503276667838, 90);
  }

  lemma Row79()
    ensures !Tips(79)
  {
    hide Sum, Add, Round, ShareOf, Tips, TipsPart, Round80, Reached, PowerOf2;
    Powers();
    Share(79, 7296971548144601, 1); Leg(7296971548144601, 0, 0, 1, 1, 0); Leg(7296971548144601, 1, 0, 2, 1, 0);
    Leg(7296971548144601, 2, 0, 4, 1, 1); Leg(7296971548144601, 3, 1, 4, 1, -1);
    Leg(7296971548144601, 4, 0, 8, 1, 3); Leg(7296971548144601, 5, 3, 8, 4, -1);
    Leg(7296971548144601, 9, -1, 16, 10, 7); Leg(7296971548144601, 19, 69, 32, 20, 7);
    Leg(7296971548144601, 39, 209, 64, 1, 7); Leg(7296971548144601, 40, 216, 64, 39, -25);
    Whole(79, 1, 7296971548144601, -759);
  }

  lemma Row81()
    ensures Tips(81)
  {
    hide Sum, Add, Round, ShareOf, Tips, TipsPart, Round80, Reached, PowerOf2;
    Powers();
    Share(81, 7116799411153376, 1); Leg(7116799411153376, 0, 0, 32, 40, 0);
    Leg(7116799411153376, 40, 0, 64, 40, 32); Leg(7116799411153376, 80, 1280, 128, 1, 32);
    Whole(81, 1, 7116799411153376, 1312);
  }

  lemma Row83()
    ensures Tips(83)
  {
    hide Sum, Add, Round, ShareOf, Tips, TipsPart, Round80, Reached, PowerOf2;
    Powers();
    Share(83, 6945310268715946, 1); Leg(6945310268715946, 0, 0, 2, 2, 0); Leg(6945310268715946, 2, 0, 4, 1, 2);
    Leg(6945310268715946, 3, 2, 4, 2, -2); Leg(6945310268715946, 5, -2, 8, 5, -2);
    Leg(6945310268715946, 10, -12, 16, 1, -2); Leg(6945310268715946, 11, -14, 16, 9, 6);
    Leg(6945310268715946, 20, 40, 32, 1, 6); Leg(6945310268715946, 21, 46, 32, 20, -10);
    Leg(6945310268715946, 41, -154, 64, 1, -10); Leg(6945310268715946, 42, -164, 64, 40, 22);
    Leg(6945310268715946, 82, 716, 128, 1, 22); Whole(83, 1, 6945310268715946, 738);
  }

  lemma Row85()
    ensures !TipsPart(85) && !Tips(85)
  {
    hide Sum, Add, Round, ShareOf, Tips, TipsPart, Round80, Reached, PowerOf2;
    Powers();
    Share(85, 6781891203569688, 1); Leg(6781891203569688, 0, 0, 8, 10, 0);
    Leg(6781891203569688, 10, 0, 16, 1, -8); Leg(6781891203569688, 11, -8, 16, 10, 8);
    Leg(6781891203569688, 21, 72, 32, 21, 8); Leg(6781891203569688, 42, 240, 64, 1, 8);
    Leg(6781891203569688, 43, 248, 64, 25, -24); Part(85, 1, 68, 6781891203569688, -352);
    Leg(6781891203569688, 68, -352, 64, 17, -24); Whole(85, 1, 6781891203569688, -760);
  }

  lemma Row87()
    ensures !Tips(87)
  {
    hide Sum, Add, Round, ShareOf, Tips, TipsPart, Round80, Reached, PowerOf2;
    Powers();
    Share(87, 6625985658660040, 1); Leg(6625985658660040, 0, 0, 8, 10, 0);
    Leg(6625985658660040, 10, 0, 16, 1, 8); Leg(6625985658660040, 11, 8, 16, 10, -8);
    Leg(6625985658660040, 21, -72, 32, 22, -8); Leg(6625985658660040, 43, -248, 64, 1, 24);
    Leg(6625985658660040, 44, -224, 64, 43, -8); Whole(87, 1, 6625985658660040, -568);
  }

  lemma Row89()
    ensures Tips(89)
  {
    hide Sum, Add, Round, ShareOf, Tips, TipsPart, Round80, Reached, PowerOf2;
    Powers();
    Share(89, 6477087104532848, 1); Leg(6477087104532848, 0, 0, 16, 22, 0);
    Leg(6477087104532848, 22, 0, 32, 1, -16); Leg(6477087104532848, 23, -16, 32, 21, 16);
    Leg(6477087104532848, 44, 320, 64, 44, 16); Leg(6477087104532848, 88, 1024, 128, 1, 16);
    Whole(89, 1, 6477087104532848, 1040);
  }

  lemma Row91()
    ensures !Tips(91)
  {
    hide Sum, Add, Round, ShareOf, Tips, TipsPart, Round80, Reached, PowerOf2;
    Powers();
    Share(91, 6334733541795863, 1); Leg(6334733541795863, 0, 0, 1, 1, 0); Leg(6334733541795863, 1, 0, 2, 1, 0);
    Leg(6334733541795863, 2, 0, 4, 1, -1); Leg(6334733541795863, 3, -1, 4, 2, 1);
    Leg(6334733541795863, 5, 1, 8, 1, -3); Leg(6334733541795863, 6, -2, 8, 5, 1);
    Leg(6334733541795863, 11, 3, 16, 11, -7); Leg(6334733541795863, 22, -74, 32, 1, -7);
    Leg(6334733541795863, 23, -81, 32, 22, 9); Leg(6334733541795863, 45, 117, 64, 46, -23);
    Whole(91, 1, 6334733541795863, -941);
  }

  lemma Row93()
    ensures !Tips(93)
  {
    hide Sum, Add, Round, ShareOf, Tips, TipsPart, Round80, Reached, PowerOf2;
    Powers();
    Share(93, 6198502712940038, 1); Leg(6198502712940038, 0, 0, 2, 2, 0); Leg(6198502712940038, 2, 0, 4, 1, -2);
    Leg(6198502712940038, 3, -2, 4, 2, 2); Leg(6198502712940038, 5, 2, 8, 6, 2);
    Leg(6198502712940038, 11, 14, 16, 12, -6); Leg(6198502712940038, 23, -58, 32, 1, 10);
    Leg(6198502712940038, 24, -48, 32, 22, -6); Leg(6198502712940038, 46, -180, 64, 1, 26);
    Leg(6198502712940038, 47, -154, 64, 46, -6); Whole(93, 1, 6198502712940038, -430);
  }

  lemma Row95()
    ensures TipsPart(95) && Tips(95)
  {
    hide Sum, Add, Round, ShareOf, Tips, TipsPart, Round80, Reached, PowerOf2;
    Powers();
    Share(95, 6068007918983405, 1); Leg(6068007918983405, 0, 0, 1, 1, 0); Leg(6068007918983405, 1, 0, 2, 1, 0);
    Leg(6068007918983405, 2, 0, 4, 1, 1); Leg(6068007918983405, 3, 1, 4, 2, -1);
    Leg(6068007918983405, 5, -1, 8, 6, 3); Leg(6068007918983405, 11, 17, 16, 12, 3);
    Leg(6068007918983405, 23, 53, 32, 24, -13); Leg(6068007918983405, 47, -259, 64, 29, 19);
    Part(95, 1, 76, 6068007918983405, 292); Leg(6068007918983405, 76, 292, 64, 18, 19);
    Leg(6068007918983405, 94, 634, 128, 1, 19); Whole(95, 1, 6068007918983405, 653);
  }

  lemma Row97()
    ensures !Tips(97)
  {
    hide Sum, Add, Round, ShareOf, Tips, TipsPart, Round80, Reached, PowerOf2;
    Powers();
    Share(97, 5942894353643541, 1); Leg(5942894353643541, 0, 0, 1, 1, 0); Leg(5942894353643541, 1, 0, 2, 1, 0);
    Leg(5942894353643541, 2, 0, 2, 1, 1); Leg(5942894353643541, 3, 1, 4, 3, -1);
    Leg(5942894353643541, 6, -2, 8, 1, -1); Leg(5942894353643541, 7, -3, 8, 5, 3);
    Leg(5942894353643541, 12, 12, 16, 1, 3); Leg(5942894353643541, 13, 15, 16, 11, -5);
    Leg(5942894353643541, 24, -40, 32, 1, -5); Leg(5942894353643541, 25, -45, 32, 23, 11);
    Leg(5942894353643541, 48, 208, 64, 49, -21); Whole(97, 1, 5942894353643541, -821);
  }

  lemma Row99()
    ensures !Tips(99)
  {
    hide Sum, Add, Round, ShareOf, Tips, TipsPart, Round80, Reached, PowerOf2;
    Powers();
    Share(99, 5822835881852763, 1); Leg(5822835881852763, 0, 0, 1, 1, 0); Leg(5822835881852763, 1, 0, 2, 1, 0);
    Leg(5822835881852763, 2, 0, 2, 1, -1); Leg(5822835881852763, 3, -1, 4, 3, 1);
    Leg(5822835881852763, 6, 2, 8, 1, 1); Leg(5822835881852763, 7, 3, 8, 5, -3);
    Leg(5822835881852763, 12, -12, 16, 1, -3); Leg(5822835881852763, 13, -15, 16, 11, 5);
    Leg(5822835881852763, 24, 40, 32, 1, -11); Leg(5822835881852763, 25, 29, 32, 24, 5);
    Leg(5822835881852763, 49, 149, 64, 50, -27); Whole(99, 1, 5822835881852763, -1201);
  }

  lemma Row101()
    ensures Tips(101)
  {
    hide Sum, Add, Round, ShareOf, Tips, TipsPart, Round80, Reached, PowerOf2;
    Powers();
    Share(101, 5707532201023995, 1); Leg(5707532201023995, 0, 0, 1, 1, 0); Leg(5707532201023995, 1, 0, 2, 1, 0);
    Leg(5707532201023995, 2, 0, 2, 1, -1); Leg(5707532201023995, 3, -1, 4, 3, 1);
    Leg(5707532201023995, 6, 2, 8, 1, 1); Leg(5707532201023995, 7, 3, 8, 5, -3);
    Leg(5707532201023995, 12, -12, 16, 1, -3); Leg(5707532201023995, 13, -15, 16, 12, 5);
    Leg(5707532201023995, 25, 45, 32, 1, -11); Leg(5707532201023995, 26, 34, 32, 24, 5);
    Leg(5707532201023995, 50, 154, 64, 1, -27); Leg(5707532201023995, 51, 127, 64, 49, 5);
    Leg(5707532201023995, 100, 372, 128, 1, 5); Whole(101, 1, 5707532201023995, 377);
  }

  lemma Row103()
    ensures !Tips(103)
  {
    hide Sum, Add, Round, ShareOf, Tips, TipsPart, Round80, Reached, PowerOf2;
    Powers();
    Share(103, 5596706333042946, 1); Leg(5596706333042946, 0, 0, 2, 3, 0); Leg(5596706333042946, 3, 0, 4, 1, 0);
    Leg(5596706333042946, 4, 0, 4, 2, -2); Leg(5596706333042946, 6, -4, 8, 6, -2);
    Leg(5596706333042946, 12, -16, 16, 1, 6); Leg(5596706333042946, 13, -10, 16, 12, -2);
    Leg(5596706333042946, 25, -34, 32, 1, 14); Leg(5596706333042946, 26, -20, 32, 25, -2);
    Leg(5596706333042946, 51, -70, 64, 1, 30); Leg(5596706333042946, 52, -40, 64, 51, -2);
    Whole(103, 1, 5596706333042946, -142);
  }

  lemma Row105()
    ensures !TipsPart(105) && !Tips(105)
  {
    hide Sum, Add, Round, ShareOf, Tips, TipsPart, Round80, Reached, PowerOf2;
    Powers();
    Share(105, 5490102402889748, 1); Leg(5490102402889748, 0, 0, 4, 6, 0); Leg(5490102402889748, 6, 0, 8, 1, 4);
    Leg(5490102402889748, 7, 4, 8, 6, -4); Leg(5490102402889748, 13, -20, 16, 13, -4);
    Leg(5490102402889748, 26, -72, 32, 26, 12); Leg(5490102402889748, 52, 240, 64, 32, -20);
    Part(105, 1, 84, 5490102402889748, -400); Leg(5490102402889748, 84, -400, 64, 21, -20);
    Whole(105, 1, 5490102402889748, -820);
  }

  lemma Row107()
    ensures !Tips(107)
  {
    hide Sum, Add, Round, ShareOf, Tips, TipsPart, Round80, Reached, PowerOf2;
    Powers();
    Share(107, 5387483666387135, 1); Leg(5387483666387135, 0, 0, 1, 1, 0); Leg(5387483666387135, 1, 0, 2, 1, 0);
    Leg(5387483666387135, 2, 0, 2, 1, -1); Leg(5387483666387135, 3, -1, 4, 3, 1);
    Leg(5387483666387135, 6, 2, 8, 1, -3); Leg(5387483666387135, 7, -1, 8, 6, 1);
    Leg(5387483666387135, 13, 5, 16, 1, -7); Leg(5387483666387135, 14, -2, 16, 12, 1);
    Leg(5387483666387135, 26, 10, 32, 1, -15); Leg(5387483666387135, 27, -5, 32, 26, 1);
    Leg(5387483666387135, 53, 21, 64, 1, -31); Leg(5387483666387135, 54, -10, 64, 53, 1);
    Whole(107, 1, 5387483666387135, 43);
  }

  lemma Row109()
    ensures !Tips(109)
  {
    hide Sum, Add, Round, ShareOf, Tips, TipsPart, Round80, Reached, PowerOf2;
    Powers();
    Share(109, 5288630755077280, 1); Leg(5288630755077280, 0, 0, 32, 54, 0);
    Leg(5288630755077280, 54, 0, 64, 1, 32); Leg(5288630755077280, 55, 32, 64, 54, -32);
    Whole(109, 1, 5288630755077280, -1696);
  }

  lemma Row111()
    ensures Tips(111)
  {
    hide Sum, Add, Round, ShareOf, Tips, TipsPart, Round80, Reached, PowerOf2;
    Powers();
    Share(111, 5193340110841653, 1); Leg(5193340110841653, 0, 0, 1, 1, 0); Leg(5193340110841653, 1, 0, 2, 1, 0);
    Leg(5193340110841653, 2, 0, 2, 1, 1); Leg(5193340110841653, 3, 1, 4, 3, -1);
    Leg(5193340110841653, 6, -2, 8, 1, -1); Leg(5193340110841653, 7, -3, 8, 6, 3);
    Leg(5193340110841653, 13, 15, 16, 14, -5); Leg(5193340110841653, 27, -55, 32, 28, 11);
    Leg(5193340110841653, 55, 253, 64, 1, -21); Leg(5193340110841653, 56, 232, 64, 54, 11);
    Leg(5193340110841653, 110, 826, 128, 1, -53); Whole(111, 1, 5193340110841653, 773);
  }

  lemma Row113()
    ensures Tips(113)
  {
    hide Sum, Add, Round, ShareOf, Tips, TipsPart, Round80, Reached, PowerOf2;
    Powers();
    Share(113, 5101422586755960, 1); Leg(5101422586755960, 0, 0, 8, 14, 0);
    Leg(5101422586755960, 14, 0, 16, 1, -8); Leg(5101422586755960, 15, -8, 16, 13, 8);
    Leg(5101422586755960, 28, 96, 32, 28, 8); Leg(5101422586755960, 56, 320, 64, 56, 8);
    Leg(5101422586755960, 112, 768, 128, 1, 8); Whole(113, 1, 5101422586755960, 776);
  }

  lemma Row115()
    ensures !TipsPart(115) && !Tips(115)
  {
    hide Sum, Add, Round, ShareOf, Tips, TipsPart, Round80, Reached, PowerOf2;
    Powers();
    Share(115, 5012702193942813, 1); Leg(5012702193942813, 0, 0, 1, 1, 0); Leg(5012702193942813, 1, 0, 2, 1, 0);
    Leg(5012702193942813, 2, 0, 2, 1, 1); Leg(5012702193942813, 3, 1, 4, 4, -1);
    Leg(5012702193942813, 7, -3, 8, 7, 3); Leg(5012702193942813, 14, 18, 16, 1, -5);
    Leg(5012702193942813, 15, 13, 16, 13, 3); Leg(5012702193942813, 28, 52, 32, 29, 3);
    Leg(5012702193942813, 57, 139, 64, 35, -29); Part(115, 1, 92, 5012702193942813, -876);
    Leg(5012702193942813, 92, -876, 64, 23, -29); Whole(115, 1, 5012702193942813, -1543);
  }

  lemma Row117()
    ensures !Tips(117)
  {
    hide Sum, Add, Round, ShareOf, Tips, TipsPart, Round80, Reached, PowerOf2;
    Powers();
    Share(117, 4927014976952338, 1); Leg(4927014976952338, 0, 0, 2, 3, 0); Leg(4927014976952338, 3, 0, 4, 1, 0);
    Leg(4927014976952338, 4, 0, 4, 3, -2); Leg(4927014976952338, 7, -6, 8, 7, -2);
    Leg(4927014976952338, 14, -20, 16, 1, 6); Leg(4927014976952338, 15, -14, 16, 14, -2);
    Leg(4927014976952338, 29, -42, 32, 29, 14); Leg(4927014976952338, 58, 364, 64, 59, -18);
    Whole(117, 1, 4927014976952338, -698);
  }

  lemma Row119()
    ensures !Tips(119)
  {
    hide Sum, Add, Round, ShareOf, Tips, TipsPart, Round80, Reached, PowerOf2;
    Powers();
    Share(119, 4844208002549777, 1); Leg(4844208002549777, 0, 0, 1, 1, 0); Leg(4844208002549777, 1, 0, 2, 1, 0);
    Leg(4844208002549777, 2, 0, 2, 1, 1); Leg(4844208002549777, 3, 1, 4, 4, -1);
    Leg(4844208002549777, 7, -3, 8, 1, 3); Leg(4844208002549777, 8, 0, 8, 6, -1);
    Leg(4844208002549777, 14, -6, 16, 1, 7); Leg(4844208002549777, 15, 1, 16, 14, -1);
    Leg(4844208002549777, 29, -13, 32, 30, 15); Leg(4844208002549777, 59, 437, 64, 1, 15);
    Leg(4844208002549777, 60, 452, 64, 59, -17); Whole(119, 1, 4844208002549777, -551);
  }

  lemma Row121()
    ensures !Tips(121)
  {
    hide Sum, Add, Round, ShareOf, Tips, TipsPart, Round80, Reached, PowerOf2;
    Powers();
    Share(121, 4764138448788624, 1); Leg(4764138448788624, 0, 0, 16, 30, 0);
    Leg(4764138448788624, 30, 0, 32, 1, 16); Leg(4764138448788624, 31, 16, 32, 29, -16);
    Leg(4764138448788624, 60, -448, 64, 61, -16); Whole(121, 1, 4764138448788624, -1424);
  }

  lemma Row123()
    ensures Tips(123)
  {
    hide Sum, Add, Round, ShareOf, Tips, TipsPart, Round80, Reached, PowerOf2;
    Powers();
    Share(123, 4686672782954663, 1); Leg(4686672782954663, 0, 0, 1, 1, 0); Leg(4686672782954663, 1, 0, 2, 1, 0);
    Leg(4686672782954663, 2, 0, 2, 1, -1); Leg(4686672782954663, 3, -1, 4, 4, 1);
    Leg(4686672782954663, 7, 3, 8, 1, -3); Leg(4686672782954663, 8, 0, 8, 7, 1);
    Leg(4686672782954663, 15, 7, 16, 15, -7); Leg(4686672782954663, 30, -98, 32, 1, 9);
    Leg(4686672782954663, 31, -89, 32, 30, -7); Leg(4686672782954663, 61, -299, 64, 1, -7);
    Leg(4686672782954663, 62, -306, 64, 60, 25); Leg(4686672782954663, 122, 1194, 128, 1, 25);
    Whole(123, 1, 4686672782954663, 1219);
  }

  lemma Row125()
    ensures TipsPart(125) && Tips(125)
  {
    hide Sum, Add, Round, ShareOf, Tips, TipsPart, Round80, Reached, PowerOf2;
    Powers();
    Share(125, 4611686018427388, 1); Leg(4611686018427388, 0, 0, 4, 7, 0); Leg(4611686018427388, 7, 0, 8, 1, 0);
    Leg(4611686018427388, 8, 0, 8, 7, 4); Leg(4611686018427388, 15, 28, 16, 16, 4);
    Leg(4611686018427388, 31, 92, 32, 31, 4); Leg(4611686018427388, 62, 216, 64, 1, -28);
    Leg(4611686018427388, 63, 188, 64, 37, 4); Part(125, 1, 100, 4611686018427388, 336);
    Leg(4611686018427388, 100, 336, 64, 24, 4); Leg(4611686018427388, 124, 432, 128, 1, -60);
    Whole(125, 1, 4611686018427388, 372);
  }

  lemma Row127()
    ensures !Tips(127)
  {
    hide Sum, Add, Round, ShareOf, Tips, TipsPart, Round80, Reached, PowerOf2;
    Powers();
    Share(127, 4539061041759240, 1); Leg(4539061041759240, 0, 0, 8, 15, 0);
    Leg(4539061041759240, 15, 0, 16, 1, 0); Leg(4539061041759240, 16, 0, 16, 15, -8);
    Leg(4539061041759240, 31, -120, 32, 32, -8); Leg(4539061041759240, 63, -376, 64, 64, -8);
    Whole(127, 1, 4539061041759240, -888);
  }

  lemma ExactFrom1(s: nat)
    requires 1 <= s < 33
    ensures Tips(s) <==> Tipping(s)
    ensures s % 5 == 0 ==> (TipsPart(s) <==> TippingPart(s))
  {
    hide Tips, TipsPart;
    match s {
      case 1 => Row1();
      case 2 => Row1();
      case 3 => Row3();
      case 4 => Row1();
      case 5 => Row5();
      case 6 => Row3();
      case 7 => Row7();
      case 8 => Row1();
      case 9 => Row9();
      case 10 => Row5();
      case 11 => Row11();
      case 12 => Row3();
      case 13 => Row13();
      case 14 => Row7();
      case 15 => Row15();
      case 16 => Row1();
      case 17 => Row17();
      case 18 => Row9();
      case 19 => Row19();
      case 20 => Row5();
      case 21 => Row21();
      case 22 => Row11();
      case 23 => Row23();
      case 24 => Row3();
      case 25 => Row25();
      case 26 => Row13();
      case 27 => Row27();
      case 28 => Row7();
      case 29 => Row29();
      case 30 => Row15();
      case 31 => Row31();
      case 32 => Row1();
    }
  }

  lemma ExactFrom33(s: nat)
    requires 33 <= s < 65
    ensures Tips(s) <==> Tipping(s)
    ensures s % 5 == 0 ==> (TipsPart(s) <==> TippingPart(s))
  {
    hide Tips, TipsPart;
    match s {
      case 33 => Row33();
      case 34 => Row17();
      case 35 => Row35();
      case 36 => Row9();
      case 37 => Row37();
      case 38 => Row19();
      case 39 => Row39();
      case 40 => Row5();
      case 41 => Row41();
      case 42 => Row21();
      case 43 => Row43();
      case 44 => Row11();
      case 45 => Row45();
      case 46 => Row23();
      case 47 => Row47();
      case 48 => Row3();
      case 49 => Row49();
      case 50 => Row25();
      case 51 => Row51();
      case 52 => Row13();
      case 53 => Row53();
      case 54 => Row27();
      case 55 => Row55();
      case 56 => Row7();
      case 57 => Row57();
      case 58 => Row29();
      case 59 => Row59();
      case 60 => Row15();
      case 61 => Row61();
      case 62 => Row31();
      case 63 => Row63();
      case 64 => Row1();
    }
  }

  lemma ExactFrom65(s: nat)
    requires 65 <= s < 97
    ensures Tips(s) <==> Tipping(s)
    ensures s % 5 == 0 ==> (TipsPart(s) <==> TippingPart(s))
  {
    hide Tips, TipsPart;
    match s {
      case 65 => Row65();
      case 66 => Row33();
      case 67 => Row67();
      case 68 => Row17();
      case 69 => Row69();
      case 70 => Row35();
      case 71 => Row71();
      case 72 => Row9();
      case 73 => Row73();
      case 74 => Row37();
      case 75 => Row75();
      case 76 => Row19();
      case 77 => Row77();
      case 78 => Row39();
      case 79 => Row79();
      case 80 => Row5();
      case 81 => Row81();
      case 82 => Row41();
      case 83 => Row83();
      case 84 => Row21();
      case 85 => Row85();
      case 86 => Row43();
      case 87 => Row87();
      case 88 => Row11();
      case 89 => Row89();
      case 90 => Row45();
      case 91 => Row91();
      case 92 => Row23();
      case 93 => Row93();
      case 94 => Row47();
      case 95 => Row95();
      case 96 => Row3();
    }
  }

  lemma ExactFrom97(s: nat)
    requires 97 <= s < 129
    ensures Tips(s) <==> Tipping(s)
    ensures s % 5 == 0 ==> (TipsPart(s) <==> TippingPart(s))
  {
    hide Tips, TipsPart;
    match s {
      case 97 => Row97();
      case 98 => Row49();
      case 99 => Row99();
      case 100 => Row25();
      case 101 => Row101();
      case 102 => Row51();
      case 103 => Row103();
      case 104 => Row13();
      case 105 => Row105();
      case 106 => Row53();
      case 107 => Row107();
      case 108 => Row27();
      case 109 => Row109();
      case 110 => Row55();
      case 111 => Row111();
      case 112 => Row7();
      case 113 => Row113();
      case 114 => Row57();
      case 115 => Row115();
      case 116 => Row29();
      case 117 => Row117();
      case 118 => Row59();
      case 119 => Row119();
      case 120 => Row15();
      case 121 => Row121();
      case 122 => Row61();
      case 123 => Row123();
      case 124 => Row31();
      case 125 => Row125();
      case 126 => Row63();
      case 127 => Row127();
      case 128 => Row1();
    }
  }

  /** As many feeds as an answer tip over exactly for the answers listed, and so do four fifths of them. */
  lemma TippingIsExact(s: nat)
    requires 1 <= s <= 128
    ensures Tips(s) <==> Tipping(s)
    ensures s % 5 == 0 ==> (TipsPart(s) <==> TippingPart(s))
  {
    hide Tips, TipsPart, Tipping, TippingPart;
    if s < 33 {
      ExactFrom1(s);
    } else if s < 65 {
      ExactFrom33(s);
    } else if s < 97 {
      ExactFrom65(s);
    } else {
      ExactFrom97(s);
    }
  }

  // ----- the order of feeds -----

  /** Five shares added one by one. */
  function SumOf5(a: nat, b: nat, c: nat, d: nat, e: nat): nat { Add(Add(Add(Add(a, b), c), d), e) }

  /** Setups that sustain 2, 5, 6, 12 and 20 feeds: one feed of each is the whole node.
      Their shares come to no more than it in one order, and to more in another. */
  lemma OrderTips()
    ensures SumOf5(ShareOf(BASE, 12), ShareOf(BASE, 6), ShareOf(BASE, 2), ShareOf(BASE, 5), ShareOf(BASE, 20)) <= BASE
    ensures SumOf5(ShareOf(BASE, 2), ShareOf(BASE, 20), ShareOf(BASE, 12), ShareOf(BASE, 5), ShareOf(BASE, 6)) > BASE
  {
    hide Add, Round, ShareOf, PowerOf2, Reached;
    Powers();
    Share(2, 288230376151711744, 64);
    Share(5, 115292150460684704, 16);
    Share(6, 96076792050570576, 16);
    Share(12, 48038396025285288, 8);
    Share(20, 28823037615171176, 4);
    Adds(48038396025285288, 96076792050570576, 16, 9007199254740992, 144115188075855872);
    Adds(144115188075855872, 288230376151711744, 64, 6755399441055744, 432345564227567616);
    Adds(432345564227567616, 115292150460684704, 64, 8556839292003942, 547637714688252288);
    Adds(547637714688252288, 28823037615171176, 64, 9007199254740992, 576460752303423488);
    Adds(288230376151711744, 28823037615171176, 64, 4953959590107546, 317053413766882944);
    Adds(317053413766882944, 48038396025285288, 64, 5704559528002629, 365091809792168256);
    Adds(365091809792168256, 115292150460684704, 64, 7505999378950828, 480383960252852992);
    Adds(480383960252852992, 96076792050570576, 128, 4503599627370497, 576460752303423616);
  }
}
