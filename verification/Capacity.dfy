/** How much a node can do, from its benchmarks: the runs that stand for each setup
    and format, what a feed of another format is taken to cost, and feeds added up. */
module Capacity {
  import opened Wrappers
  import opened Float64
  import opened Shares
  import Tipping

  datatype Format = Format(width: nat, height: nat, num: nat, den: nat)

  datatype StepResult = StepResult(feeds: nat, passed: bool, quick: bool, outputBytes: seq<nat>)

  /** A stored benchmark run of the setup that `key` identifies. */
  datatype Run = Run(id: string, key: string, completed: bool, media: Format, sustainable: nat, steps: seq<StepResult>)

  datatype Profile = Profile(key: string, media: Format, sustainable: nat, runId: string, outputBytes: seq<nat>)

  function FrameRate(f: Format): real { f.num as real / (if f.den == 0 then 1 else f.den) as real }

  function PixelRate(f: Format): (r: real)
    ensures r >= 0.0
  {
    PixelRateIsPositive(f);
    f.width as real * f.height as real * f.num as real / (if f.den == 0 then 1 else f.den) as real
  }

  lemma PixelRateIsPositive(f: Format)
    ensures f.width as real * f.height as real * f.num as real / (if f.den == 0 then 1 else f.den) as real >= 0.0
  {
    assert f.width as real * f.height as real >= 0.0;
    assert f.width as real * f.height as real * f.num as real >= 0.0;
  }

  /** The same size, and frame rates within a hundredth: 29.97 is written in more ways than one. */
  predicate Matches(f: Format, g: Format) {
    && f.width == g.width && f.height == g.height
    && -0.01 < FrameRate(f) - FrameRate(g) < 0.01
  }

  predicate Represents(p: Profile, r: Run) { p.key == r.key && Matches(p.media, r.media) }

  // ----- the runs that count -----

  predicate Counts(r: Run) { r.completed && r.steps != [] }

  /** The last step that `ok` holds of. */
  function LastWhere(ok: StepResult -> bool, steps: seq<StepResult>): Option<StepResult> {
    if steps == [] then None
    else if ok(steps[|steps| - 1]) then Some(steps[|steps| - 1])
    else LastWhere(ok, steps[..|steps| - 1])
  }

  /** The step whose writes a run's profile tells: of those that passed in full at the answer the
      last, or the last that passed at all, or where none did the first measured. */
  function Chosen(r: Run): StepResult
    requires Counts(r)
  {
    var full := LastWhere((s: StepResult) => s.passed && !s.quick && s.feeds == r.sustainable, r.steps);
    var passing := LastWhere((s: StepResult) => s.passed, r.steps);
    if full.Some? then full.value else if passing.Some? then passing.value else r.steps[0]
  }

  function ProfileOf(r: Run): Profile
    requires Counts(r)
  {
    Profile(r.key, r.media, r.sustainable, r.id, Chosen(r).outputBytes)
  }

  /** Run `i`, of runs newest first, stands for itself: no newer one that does matches it. */
  predicate Stands(runs: seq<Run>, i: nat)
    requires i < |runs|
    decreases i
  {
    Counts(runs[i]) && forall j: nat :: j < i && Stands(runs, j) ==> !SameKind(runs[j], runs[i])
  }

  predicate SameKind(newer: Run, older: Run) { newer.key == older.key && Matches(newer.media, older.media) }

  /** The profiles of the runs that stand for themselves, newest first. */
  function Profiles(runs: seq<Run>): seq<Profile> { ProfilesOf(runs, |runs|) }

  function ProfilesOf(runs: seq<Run>, n: nat): seq<Profile>
    requires n <= |runs|
  {
    if n == 0 then []
    else ProfilesOf(runs, n - 1) + if Stands(runs, n - 1) then [ProfileOf(runs[n - 1])] else []
  }

  lemma {:induction false} ProfilesStand(runs: seq<Run>, n: nat, p: Profile)
    requires n <= |runs|
    ensures p in ProfilesOf(runs, n) <==> exists i: nat :: i < n && Stands(runs, i) && p == ProfileOf(runs[i])
  {
    if n > 0 { ProfilesStand(runs, n - 1, p); }
  }

  method FromRuns(runs: seq<Run>) returns (profiles: seq<Profile>)
    ensures profiles == Profiles(runs)
  {
    profiles := [];
    for n := 0 to |runs|
      invariant profiles == ProfilesOf(runs, n)
    {
      var run := runs[n];
      if Counts(run) {
        var known := exists k :: 0 <= k < |profiles| && Represents(profiles[k], run);
        RepresentedWhen(runs, n, run);
        if !known { profiles := profiles + [ProfileOf(run)]; }
      }
    }
  }

  lemma RepresentedWhen(runs: seq<Run>, n: nat, run: Run)
    requires n <= |runs|
    ensures (exists k :: 0 <= k < |ProfilesOf(runs, n)| && Represents(ProfilesOf(runs, n)[k], run)) <==>
            exists j: nat :: j < n && Stands(runs, j) && SameKind(runs[j], run)
  {
    var ps := ProfilesOf(runs, n);
    if k :| 0 <= k < |ps| && Represents(ps[k], run) {
      ProfilesStand(runs, n, ps[k]);
    }
    if j: nat :| j < n && Stands(runs, j) && SameKind(runs[j], run) {
      ProfilesStand(runs, n, ProfileOf(runs[j]));
      var k :| 0 <= k < |ps| && ps[k] == ProfileOf(runs[j]);
      assert Represents(ps[k], run);
    }
  }

  lemma MatchesBothWays(f: Format, g: Format)
    ensures Matches(f, g) <==> Matches(g, f)
    ensures Matches(f, f)
  {
  }

  /** No two profiles are of the same setup and matching formats. */
  lemma {:induction false} ProfilesDontMatch(runs: seq<Run>, n: nat, i: nat, j: nat)
    requires n <= |runs| && i < j < |ProfilesOf(runs, n)|
    ensures var ps := ProfilesOf(runs, n);
            !(ps[i].key == ps[j].key && Matches(ps[i].media, ps[j].media))
  {
    var ps := ProfilesOf(runs, n);
    var before := ProfilesOf(runs, n - 1);
    if j < |before| {
      ProfilesDontMatch(runs, n - 1, i, j);
    } else {
      ProfilesStand(runs, n - 1, ps[i]);
      var k: nat :| k < n - 1 && Stands(runs, k) && ps[i] == ProfileOf(runs[k]);
      assert !SameKind(runs[k], runs[n - 1]);
    }
  }

  /** Every run that counts is represented by a profile of one at least as new. */
  lemma {:induction false} EveryRunIsRepresented(runs: seq<Run>, i: nat)
    requires i < |runs| && Counts(runs[i])
    ensures exists j: nat :: j <= i && Stands(runs, j) && ProfileOf(runs[j]) in Profiles(runs)
                            && Represents(ProfileOf(runs[j]), runs[i])
  {
    MatchesBothWays(runs[i].media, runs[i].media);
    var j: nat := i;
    if !Stands(runs, i) {
      j :| j < i && Stands(runs, j) && SameKind(runs[j], runs[i]);
    }
    ProfilesStand(runs, |runs|, ProfileOf(runs[j]));
  }

  /** Matching isn't transitive: a run matching a newer one may stand for itself,
      because what it matches stands for nothing. */
  lemma MatchedRunCanStand(key: string, steps: seq<StepResult>)
    requires steps != []
    ensures var at := (thousandths: nat) => Run("", key, true, Format(1920, 1080, thousandths, 1000), 4, steps);
            var runs := [at(29970), at(29979), at(29988)];
            && SameKind(runs[1], runs[2])
            && Stands(runs, 0) && !Stands(runs, 1) && Stands(runs, 2)
  {
  }

  lemma {:induction false} LastIsLast(ok: StepResult -> bool, steps: seq<StepResult>)
    ensures match LastWhere(ok, steps)
            case None => forall k :: 0 <= k < |steps| ==> !ok(steps[k])
            case Some(s) => exists k :: 0 <= k < |steps| && s == steps[k] && ok(s)
                                        && forall m :: k < m < |steps| ==> !ok(steps[m])
  {
    if steps != [] {
      var n := |steps| - 1;
      LastIsLast(ok, steps[..n]);
      if !ok(steps[n]) && LastWhere(ok, steps[..n]).Some? {
        var s := LastWhere(ok, steps[..n]).value;
        var k :| 0 <= k < n && s == steps[..n][k] && ok(s) && forall m :: k < m < n ==> !ok(steps[..n][m]);
        assert forall m :: k < m < n ==> steps[m] == steps[..n][m];
      }
    }
  }

  predicate FullPass(r: Run, k: nat)
    requires k < |r.steps|
  {
    r.steps[k].passed && !r.steps[k].quick && r.steps[k].feeds == r.sustainable
  }

  /** The step a run's writes are from passed if any step did, and is the newest
      full one at the answer if there's one. */
  lemma ChosenIsBest(r: Run)
    requires Counts(r)
    ensures Chosen(r) in r.steps
    ensures Chosen(r).passed <==> exists s :: s in r.steps && s.passed
    ensures forall k: nat ::
              k < |r.steps| && FullPass(r, k) && (forall m: nat :: k < m < |r.steps| ==> !FullPass(r, m)) ==>
              Chosen(r) == r.steps[k]
  {
    LastIsLast((s: StepResult) => s.passed && !s.quick && s.feeds == r.sustainable, r.steps);
    LastIsLast((s: StepResult) => s.passed, r.steps);
  }

  // ----- looking up -----

  /** A quotient of floating-point numbers that aren't negative: by nothing it's infinite, or not a number. */
  datatype Number = Finite(value: real) | Infinite | NotANumber

  function Quotient(a: real, b: real): Number {
    if b != 0.0 then Finite(a / b) else if a == 0.0 then NotANumber else Infinite
  }

  /** How far a quotient is from 1, as its logarithm says: a format of twice the
      pixels is as far as one of half. */
  function Distance(q: Number): Number {
    match q
    case Finite(x) => if x == 0.0 then Infinite else if x > 0.0 && x < 1.0 then Finite(1.0 / x) else Finite(x)
    case _ => q
  }

  predicate Nearer(a: Number, b: Number) {
    match a
    case Finite(x) => b.Finite? ==> x < b.value
    case Infinite => b.NotANumber?
    case NotANumber => false
  }

  datatype Match = Match(feeds: Number, estimated: bool, outputBytes: seq<nat>)

  function DistanceTo(p: Profile, format: Format): Number { Distance(Quotient(PixelRate(p.media), PixelRate(format))) }

  /** The first of the candidates nearest to the format. */
  function Nearest(candidates: seq<Profile>, format: Format): Profile
    requires candidates != []
  {
    if |candidates| == 1 then candidates[0]
    else
      var n := |candidates| - 1;
      var best := Nearest(candidates[..n], format);
      if Nearer(DistanceTo(candidates[n], format), DistanceTo(best, format)) then candidates[n] else best
  }

  /** The profile a matching format is looked up in. */
  function FirstMatch(format: Format, ps: seq<Profile>): Option<Profile> {
    if ps == [] then None else if Matches(ps[0].media, format) then Some(ps[0]) else FirstMatch(format, ps[1..])
  }

  function Candidates(profiles: seq<Profile>, key: string): seq<Profile> {
    FilterMap((p: Profile) => if p.key == key then Some(p) else None, profiles)
  }

  /** The profile that answers for this setup and format, and whether it's an estimate: none if no
      profile has the setup. */
  function Lookup(profiles: seq<Profile>, key: string, format: Option<Format>): Option<Match> {
    var candidates := Candidates(profiles, key);
    if candidates == [] then None
    else if format == None then
      Some(Match(Finite(candidates[0].sustainable as real), true, candidates[0].outputBytes))
    else
      var exact := FirstMatch(format.value, candidates);
      if exact.Some? then Some(Match(Finite(exact.value.sustainable as real), false, exact.value.outputBytes))
      else
        var p := Nearest(candidates, format.value);
        Some(Match(Quotient(p.sustainable as real * PixelRate(p.media), PixelRate(format.value)), true, p.outputBytes))
  }

  lemma NearerOrders(a: Number, b: Number, c: Number)
    ensures !Nearer(a, a)
    ensures Nearer(a, b) ==> !Nearer(b, a) && (Nearer(c, b) || Nearer(a, c))
  {
  }

  lemma {:induction false} NearestIsNearest(candidates: seq<Profile>, format: Format)
    requires candidates != []
    ensures var best := Nearest(candidates, format);
            exists k :: 0 <= k < |candidates| && best == candidates[k]
                        && (forall i :: 0 <= i < |candidates| ==>
                              !Nearer(DistanceTo(candidates[i], format), DistanceTo(best, format)))
                        && (forall i :: 0 <= i < k ==>
                              Nearer(DistanceTo(best, format), DistanceTo(candidates[i], format)))
  {
    hide DistanceTo, Nearer;
    forall a, b, c | Nearer(a, b) ensures !Nearer(b, a) && (Nearer(c, b) || Nearer(a, c)) { NearerOrders(a, b, c); }
    if |candidates| == 1 {
      NearerOrders(DistanceTo(candidates[0], format), DistanceTo(candidates[0], format), NotANumber);
      assert candidates[0] == Nearest(candidates, format);
    } else {
      var n := |candidates| - 1;
      var rest := candidates[..n];
      NearestIsNearest(rest, format);
      var was := Nearest(rest, format);
      var k :| 0 <= k < n && was == rest[k]
               && (forall i :: 0 <= i < n ==> !Nearer(DistanceTo(rest[i], format), DistanceTo(was, format)))
               && (forall i :: 0 <= i < k ==> Nearer(DistanceTo(was, format), DistanceTo(rest[i], format)));
      assert forall i :: 0 <= i < n ==> candidates[i] == rest[i];
      if Nearer(DistanceTo(candidates[n], format), DistanceTo(was, format)) {
        assert Nearest(candidates, format) == candidates[n];
      } else {
        assert Nearest(candidates, format) == candidates[k];
      }
    }
  }

  /** A node's capacity is what was measured where the format was: the newest match,
      never scaled, and at most one profile of those kept can be it in its own format. */
  lemma {:induction false} MeasuredFormatIsExact(runs: seq<Run>, i: nat)
    requires i < |runs| && Stands(runs, i)
    ensures Lookup(Profiles(runs), runs[i].key, Some(runs[i].media)) ==
            Some(Match(Finite(runs[i].sustainable as real), false, Chosen(runs[i]).outputBytes))
  {
    var ps, key, format := Profiles(runs), runs[i].key, runs[i].media;
    var p := ProfileOf(runs[i]);
    ProfilesStand(runs, |runs|, p);
    MatchesBothWays(format, format);
    CandidatesAre(ps, key, p);
    FirstMatchMatches(format, Candidates(ps, key));
    var q := FirstMatch(format, Candidates(ps, key)).value;
    CandidatesAre(ps, key, q);
    var a :| 0 <= a < |ps| && ps[a] == p;
    var b :| 0 <= b < |ps| && ps[b] == q;
    MatchesBothWays(p.media, q.media);
    if a < b { ProfilesDontMatch(runs, |runs|, a, b); }
    if b < a { ProfilesDontMatch(runs, |runs|, b, a); }
  }

  /** What's told of `format` is `p`'s: as it was measured in a matching format, or scaled
      from the nearest where none matches. */
  ghost predicate ToldBy(profiles: seq<Profile>, key: string, format: Format, m: Match, p: Profile) {
    && p in profiles && p.key == key && m.outputBytes == p.outputBytes
    && m.estimated == !Matches(p.media, format)
    && (if !m.estimated then m.feeds == Finite(p.sustainable as real)
        else
          && m.feeds == Quotient(p.sustainable as real * PixelRate(p.media), PixelRate(format))
          && forall q :: q in profiles && q.key == key ==>
               !Matches(q.media, format) && !Nearer(DistanceTo(q, format), DistanceTo(p, format)))
  }

  /** Only a setup never measured is unknown. */
  lemma LookupIsOfTheNearest(profiles: seq<Profile>, key: string, format: Format)
    ensures match Lookup(profiles, key, Some(format))
            case None => forall p :: p in profiles ==> p.key != key
            case Some(m) => exists p :: ToldBy(profiles, key, format, m, p)
  {
    hide ToldBy, DistanceTo, PixelRate, Matches, Nearer, Quotient, Candidates, FirstMatch, Nearest;
    var candidates := Candidates(profiles, key);
    if candidates == [] {
      forall p | p in profiles ensures p.key != key { CandidatesAre(profiles, key, p); }
    } else {
      TellingOne(profiles, key, format);
    }
  }

  lemma TellingOne(profiles: seq<Profile>, key: string, format: Format)
    requires Candidates(profiles, key) != []
    ensures Lookup(profiles, key, Some(format)).Some?
    ensures exists p :: ToldBy(profiles, key, format, Lookup(profiles, key, Some(format)).value, p)
  {
    hide ToldBy, DistanceTo, PixelRate, Matches, Nearer, Quotient, Candidates, FirstMatch, Nearest;
    if FirstMatch(format, Candidates(profiles, key)).Some? {
      ToldByAMatch(profiles, key, format);
    } else {
      ToldByTheNearest(profiles, key, format);
    }
  }

  lemma ToldByAMatch(profiles: seq<Profile>, key: string, format: Format)
    requires Candidates(profiles, key) != [] && FirstMatch(format, Candidates(profiles, key)).Some?
    ensures ToldBy(profiles, key, format, Lookup(profiles, key, Some(format)).value,
                   FirstMatch(format, Candidates(profiles, key)).value)
  {
    hide DistanceTo, PixelRate, Matches, Nearer, Quotient, Candidates, FirstMatch, Nearest;
    var candidates := Candidates(profiles, key);
    FirstMatchMatches(format, candidates);
    CandidatesAre(profiles, key, FirstMatch(format, candidates).value);
  }

  lemma ToldByTheNearest(profiles: seq<Profile>, key: string, format: Format)
    requires Candidates(profiles, key) != [] && FirstMatch(format, Candidates(profiles, key)).None?
    ensures ToldBy(profiles, key, format, Lookup(profiles, key, Some(format)).value,
                   Nearest(Candidates(profiles, key), format))
  {
    hide DistanceTo, PixelRate, Matches, Nearer, Quotient, Candidates, FirstMatch, Nearest;
    var candidates := Candidates(profiles, key);
    var p := Nearest(candidates, format);
    var m := Lookup(profiles, key, Some(format)).value;
    assert m == Match(Quotient(p.sustainable as real * PixelRate(p.media), PixelRate(format)), true, p.outputBytes);
    FirstMatchMatches(format, candidates);
    NearestOf(candidates, format);
    CandidatesAre(profiles, key, p);
    forall q | q in profiles && q.key == key
      ensures !Matches(q.media, format) && !Nearer(DistanceTo(q, format), DistanceTo(p, format))
    {
      CandidatesAre(profiles, key, q);
    }
  }

  lemma {:induction false} NearestOf(candidates: seq<Profile>, format: Format)
    requires candidates != []
    ensures Nearest(candidates, format) in candidates
    ensures forall q :: q in candidates ==>
              !Nearer(DistanceTo(q, format), DistanceTo(Nearest(candidates, format), format))
  {
    hide DistanceTo, Nearer, Nearest;
    NearestIsNearest(candidates, format);
  }

  lemma {:induction false} FirstMatchMatches(format: Format, ps: seq<Profile>)
    ensures match FirstMatch(format, ps)
            case None => forall p :: p in ps ==> !Matches(p.media, format)
            case Some(first) => first in ps && Matches(first.media, format)
  {
    hide Matches;
    if ps != [] { FirstMatchMatches(format, ps[1..]); }
  }

  lemma CandidatesAre(profiles: seq<Profile>, key: string, p: Profile)
    ensures p in Candidates(profiles, key) <==> p in profiles && p.key == key
  {
  }

  lemma {:induction false} CandidatesAdd(a: seq<Profile>, b: seq<Profile>, key: string)
    ensures Candidates(a + b, key) == Candidates(a, key) + Candidates(b, key)
  {
    if a == [] {
      assert a + b == b;
    } else {
      assert (a + b)[1..] == a[1..] + b;
      CandidatesAdd(a[1..], b, key);
    }
  }

  /** A source whose format isn't known is taken to be like the newest run of the setup. */
  lemma UnknownFormatIsTheNewest(runs: seq<Run>, i: nat)
    requires i < |runs| && Counts(runs[i])
    requires forall j :: 0 <= j < i && Counts(runs[j]) ==> runs[j].key != runs[i].key
    ensures Lookup(Profiles(runs), runs[i].key, None) ==
            Some(Match(Finite(runs[i].sustainable as real), true, Chosen(runs[i]).outputBytes))
  {
    NewestIsFirst(runs, i, |runs|);
  }

  lemma {:induction false} NewestIsFirst(runs: seq<Run>, i: nat, n: nat)
    requires i < n <= |runs| && Counts(runs[i])
    requires forall j :: 0 <= j < i && Counts(runs[j]) ==> runs[j].key != runs[i].key
    ensures var candidates := Candidates(ProfilesOf(runs, n), runs[i].key);
            candidates != [] && candidates[0] == ProfileOf(runs[i])
  {
    hide Candidates, ProfileOf;
    var key, before := runs[i].key, ProfilesOf(runs, n - 1);
    if i < n - 1 {
      NewestIsFirst(runs, i, n - 1);
      CandidatesAdd(before, if Stands(runs, n - 1) then [ProfileOf(runs[n - 1])] else [], key);
    } else {
      assert Stands(runs, i);
      CandidatesAdd(before, [ProfileOf(runs[i])], key);
      assert Candidates(before, key) == [] by { NoneBefore(runs, i); }
      assert Candidates([ProfileOf(runs[i])], key) == [ProfileOf(runs[i])] by { OneCandidate(runs[i]); }
    }
  }

  lemma OneCandidate(r: Run)
    requires Counts(r)
    ensures Candidates([ProfileOf(r)], r.key) == [ProfileOf(r)]
  {
    var p, pick := ProfileOf(r), (p: Profile) => if p.key == r.key then Some(p) else None;
    assert [p][1..] == [];
    assert FilterMap(pick, [p]) == [p] + FilterMap(pick, []);
    CandidatesAdd([p], [], r.key);
  }

  lemma NoneBefore(runs: seq<Run>, i: nat)
    requires i < |runs| && forall j :: 0 <= j < i && Counts(runs[j]) ==> runs[j].key != runs[i].key
    ensures Candidates(ProfilesOf(runs, i), runs[i].key) == []
  {
    var ps, key := ProfilesOf(runs, i), runs[i].key;
    forall p | p in ps ensures p.key != key { ProfilesStand(runs, i, p); }
    NoCandidates(ps, key);
  }

  lemma {:induction false} NoCandidates(profiles: seq<Profile>, key: string)
    requires forall p :: p in profiles ==> p.key != key
    ensures Candidates(profiles, key) == []
  {
    if profiles != [] { NoCandidates(profiles[1..], key); }
  }

  // ----- load -----

  /** A whole node, in parts smaller than the last bit of any share. */
  const ONE: nat := 0x1_0000_0000_0000_0000_0000_0000_0000_0000_0000_0000_0000_0000_0000_0000_0000_0000

  /** A feed's share of the node, `1.0 / feeds.max(0.5)`: a setup that can't sustain one
      counts as twice the node. */
  function Share(feeds: Number): (r: nat) {
    match feeds
    case Finite(x) => OneOver(if x > 0.5 then x else 0.5)
    case Infinite => 0
    case NotANumber => OneOver(0.5)
  }

  function OneOver(x: real): (r: nat)
    requires x > 0.0
    ensures Exact(r)
  {
    RoundIsExact(ONE as real / x);
    Round(ONE as real / x)
  }

  datatype Load = Load(load: nat, unknown: nat, estimated: bool)

  datatype Verdict = Fits | Tight | Unknown | Over

  /** 0.8 of a node. */
  function TightLoad(): nat { Round80(ONE) }

  function VerdictOf(l: Load): Verdict {
    if l.load > ONE then Over else if l.unknown > 0 then Unknown else if l.load > TightLoad() then Tight else Fits
  }

  /** From fitting over tight and unknown to over, the second is no better. */
  predicate NoBetter(a: Verdict, b: Verdict) {
    match a
    case Fits => true
    case Tight => b != Fits
    case Unknown => b == Unknown || b == Over
    case Over => b == Over
  }

  datatype Feed = Feed(key: string, format: Option<Format>)

  const NOTHING := Load(0, 0, false)

  /** Loads added as the program adds them: each sum to 53 bits. */
  function Plus(a: Load, b: Load): Load {
    Load(Add(a.load, b.load), a.unknown + b.unknown, a.estimated || b.estimated)
  }

  function FeedLoad(profiles: seq<Profile>, feed: Feed): Load {
    match Lookup(profiles, feed.key, feed.format)
    case Some(m) => Load(Share(m.feeds), 0, m.estimated)
    case None => Load(0, 1, false)
  }

  /** Feeds added up, in their order. */
  function Total(profiles: seq<Profile>, feeds: seq<Feed>): Load {
    if feeds == [] then NOTHING
    else Plus(Total(profiles, feeds[..|feeds| - 1]), FeedLoad(profiles, feeds[|feeds| - 1]))
  }

  method LoadOf(profiles: seq<Profile>, feeds: seq<Feed>) returns (total: Load)
    ensures total == Total(profiles, feeds)
  {
    total := NOTHING;
    for i := 0 to |feeds|
      invariant total == Total(profiles, feeds[..i]) && Exact(total.load)
    {
      assert feeds[..i + 1][..i] == feeds[..i];
      match Lookup(profiles, feeds[i].key, feeds[i].format) {
        case Some(m) =>
          AddIsMore(total.load, Share(m.feeds));
          total := total.(load := Add(total.load, Share(m.feeds)), estimated := total.estimated || m.estimated);
        case None =>
          AddsNothing(total.load);
          total := total.(unknown := total.unknown + 1);
      }
    }
    assert feeds[..|feeds|] == feeds;
  }

  lemma AddsNothing(a: nat)
    requires Exact(a)
    ensures Add(a, 0) == a
  {
  }

  lemma {:induction false} TotalIsExact(profiles: seq<Profile>, feeds: seq<Feed>)
    ensures Exact(Total(profiles, feeds).load)
  {
    if feeds != [] {
      TotalIsExact(profiles, feeds[..|feeds| - 1]);
      AddIsMore(Total(profiles, feeds[..|feeds| - 1]).load, FeedLoad(profiles, feeds[|feeds| - 1]).load);
    }
  }

  // ----- more feeds -----

  /** The feeds of `some`, in their order, are among those of `all`. */
  predicate Within(some: seq<Feed>, all: seq<Feed>)
    decreases |all|
  {
    some == [] || (all != [] &&
      var m, n := |some| - 1, |all| - 1;
      Within(some, all[..n]) || (some[m] == all[n] && Within(some[..m], all[..n])))
  }

  /** Adding feeds anywhere among others never lowers the load, nor the verdict. */
  lemma {:induction false} MoreFeedsWeighMore(profiles: seq<Profile>, some: seq<Feed>, all: seq<Feed>)
    requires Within(some, all)
    ensures NoLighter(Total(profiles, some), Total(profiles, all))
    ensures NoBetter(VerdictOf(Total(profiles, some)), VerdictOf(Total(profiles, all)))
    decreases |all|
  {
    hide FeedLoad, VerdictOf, NoBetter, Add, Exact;
    if all != [] {
      var m, n := |some| - 1, |all| - 1;
      var feed := FeedLoad(profiles, all[n]);
      var before := Total(profiles, all[..n]);
      TotalIsExact(profiles, all[..n]);
      if some != [] && some[m] == all[n] && Within(some[..m], all[..n]) {
        MoreFeedsWeighMore(profiles, some[..m], all[..n]);
        AddIsMonotone(Total(profiles, some[..m]).load, before.load, feed.load);
      } else {
        MoreFeedsWeighMore(profiles, some, all[..n]);
        AddIsMore(before.load, feed.load);
      }
    }
    MoreIsWorse(Total(profiles, some), Total(profiles, all));
  }

  predicate NoLighter(a: Load, b: Load) {
    a.load <= b.load && a.unknown <= b.unknown && (a.estimated ==> b.estimated)
  }

  lemma MoreIsWorse(a: Load, b: Load)
    requires NoLighter(a, b)
    ensures NoBetter(VerdictOf(a), VerdictOf(b))
  {
  }

  // ----- the order of feeds -----

  /** What feeds come to but for rounding sums: no matter in which order. */
  function Unrounded(profiles: seq<Profile>, feeds: seq<Feed>): nat {
    if feeds == [] then 0
    else Unrounded(profiles, feeds[..|feeds| - 1]) + FeedLoad(profiles, feeds[|feeds| - 1]).load
  }

  function UnknownOf(profiles: seq<Profile>, feeds: seq<Feed>): nat {
    if feeds == [] then 0
    else UnknownOf(profiles, feeds[..|feeds| - 1]) + FeedLoad(profiles, feeds[|feeds| - 1]).unknown
  }

  /** Unrounded, feeds add up however they're grouped. */
  lemma {:induction false} TotalAdds(profiles: seq<Profile>, a: seq<Feed>, b: seq<Feed>)
    ensures Unrounded(profiles, a + b) == Unrounded(profiles, a) + Unrounded(profiles, b)
    ensures UnknownOf(profiles, a + b) == UnknownOf(profiles, a) + UnknownOf(profiles, b)
  {
    hide FeedLoad;
    if b == [] {
      assert a + b == a;
    } else {
      var n := |b| - 1;
      TotalAdds(profiles, a, b[..n]);
      assert (a + b)[..|a| + n] == a + b[..n];
    }
  }

  lemma {:induction false} UnknownIsCounted(profiles: seq<Profile>, feeds: seq<Feed>)
    ensures Total(profiles, feeds).unknown == UnknownOf(profiles, feeds)
  {
    hide FeedLoad, Add;
    if feeds != [] { UnknownIsCounted(profiles, feeds[..|feeds| - 1]); }
  }

  /** Rounding takes the sum of `n` feeds no further off than `n` 2^52nd parts of it. */
  lemma {:induction false} TotalIsNear(profiles: seq<Profile>, feeds: seq<Feed>)
    requires |feeds| <= TWO52
    ensures var t, x := Total(profiles, feeds).load, Unrounded(profiles, feeds);
            -(|feeds| * x) <= (t - x) * TWO52 <= |feeds| * x
  {
    hide FeedLoad, Add;
    if feeds != [] {
      var n := |feeds| - 1;
      var t, x := Total(profiles, feeds[..n]).load, Unrounded(profiles, feeds[..n]);
      TotalIsNear(profiles, feeds[..n]);
      AddIsNear(t, FeedLoad(profiles, feeds[n]).load);
      StaysNear(n, t, x, FeedLoad(profiles, feeds[n]).load, Total(profiles, feeds).load);
    }
  }

  lemma StaysNear(n: nat, t: nat, x: nat, c: nat, sum: nat)
    requires n < TWO52 && -(n * x) <= (t - x) * TWO52 <= n * x
    requires -(t + c) <= (sum - (t + c)) * TWO53 <= t + c
    ensures -((n + 1) * (x + c)) <= (sum - (x + c)) * TWO52 <= (n + 1) * (x + c)
  {
    var y := n * x;
    assert y <= TWO52 * x by { Scale(n, TWO52, x); }
    assert t <= 2 * x;
    assert (n + 1) * (x + c) == y + n * c + x + c;
    assert n * c >= 0;
  }

  /** Unrounded, the same feeds weigh the same in any order. */
  lemma {:induction false} SameFeedsWeighTheSame(profiles: seq<Profile>, a: seq<Feed>, b: seq<Feed>)
    requires multiset(a) == multiset(b)
    ensures Unrounded(profiles, a) == Unrounded(profiles, b) && UnknownOf(profiles, a) == UnknownOf(profiles, b)
    ensures |a| == |b|
    decreases |a|
  {
    hide FeedLoad;
    assert |a| == |multiset(a)| == |multiset(b)| == |b|;
    if a != [] {
      var n := |a| - 1;
      var i := Without(a[..n], a[n], b) by { assert a == a[..n] + [a[n]]; }
      var others := b[..i] + b[i + 1..];
      SameFeedsWeighTheSame(profiles, a[..n], others);
      TakenOut(profiles, b, i);
    }
  }

  lemma TakenOut(profiles: seq<Profile>, b: seq<Feed>, i: nat)
    requires i < |b|
    ensures var others := b[..i] + b[i + 1..];
            && Unrounded(profiles, b) == Unrounded(profiles, others) + FeedLoad(profiles, b[i]).load
            && UnknownOf(profiles, b) == UnknownOf(profiles, others) + FeedLoad(profiles, b[i]).unknown
  {
    hide FeedLoad;
    var here := [b[i]];
    assert b == b[..i] + (here + b[i + 1..]);
    TotalAdds(profiles, b[..i], here + b[i + 1..]);
    TotalAdds(profiles, here, b[i + 1..]);
    TotalAdds(profiles, b[..i], b[i + 1..]);
    assert here[..0] == [];
  }

  lemma Without(rest: seq<Feed>, feed: Feed, all: seq<Feed>) returns (i: nat)
    requires multiset(rest + [feed]) == multiset(all)
    ensures i < |all| && all[i] == feed && multiset(rest) == multiset(all[..i] + all[i + 1..])
  {
    OneApart(rest, feed, []);
    assert rest + [feed] + [] == rest + [feed] && rest + [] == rest;
    assert feed in multiset(all);
    i :| 0 <= i < |all| && all[i] == feed;
    assert all == all[..i] + [feed] + all[i + 1..];
    OneApart(all[..i], feed, all[i + 1..]);
    var a, b := multiset(rest), multiset(all[..i] + all[i + 1..]);
    assert a == (a + multiset{feed}) - multiset{feed} == (b + multiset{feed}) - multiset{feed} == b;
  }

  lemma OneApart(before: seq<Feed>, feed: Feed, after: seq<Feed>)
    ensures multiset(before + [feed] + after) == multiset(before + after) + multiset{feed}
  {
  }

  /** A sum of `n` shares is further from `line` than rounding can take it. */
  predicate OffTheMark(x: nat, n: nat, line: nat) {
    x * (TWO52 + n) <= line * TWO52 || x * (TWO52 - n) > line * TWO52
  }

  /** Only at the line itself, to so many 2^52nd parts, can the order of feeds change the verdict. */
  lemma OrderSeldomMatters(profiles: seq<Profile>, a: seq<Feed>, b: seq<Feed>)
    requires multiset(a) == multiset(b) && |a| <= TWO52
    requires OffTheMark(Unrounded(profiles, a), |a|, ONE) && OffTheMark(Unrounded(profiles, a), |a|, TightLoad())
    ensures VerdictOf(Total(profiles, a)) == VerdictOf(Total(profiles, b))
  {
    hide Total, Unrounded, UnknownOf, TightLoad, OffTheMark;
    SameFeedsWeighTheSame(profiles, a, b);
    TotalIsNear(profiles, a);
    TotalIsNear(profiles, b);
    UnknownIsCounted(profiles, a);
    UnknownIsCounted(profiles, b);
    var x := Unrounded(profiles, a);
    SameSide(Total(profiles, a).load, Total(profiles, b).load, x, |a|, ONE);
    SameSide(Total(profiles, a).load, Total(profiles, b).load, x, |a|, TightLoad());
  }

  lemma SameSide(t: nat, u: nat, x: nat, n: nat, line: nat)
    requires OffTheMark(x, n, line) && n <= TWO52
    requires -(n * x) <= (t - x) * TWO52 <= n * x && -(n * x) <= (u - x) * TWO52 <= n * x
    ensures t > line <==> u > line
  {
    assert x * (TWO52 + n) == x * TWO52 + n * x;
    assert x * (TWO52 - n) == x * TWO52 - n * x;
  }

  /** The node sustains `s` feeds like this one, by a benchmark. */
  predicate Sustains(profiles: seq<Profile>, feed: Feed, s: nat) {
    var m := Lookup(profiles, feed.key, feed.format);
    m.Some? && m.value.feeds == Finite(s as real)
  }

  /** There the order can: of five feeds that take a half, a fifth, a sixth, a twelfth and a
      twentieth of a node, one order comes to it and another to more. */
  lemma OrderCanTip(profiles: seq<Profile>, f2: Feed, f5: Feed, f6: Feed, f12: Feed, f20: Feed)
    requires Sustains(profiles, f2, 2) && Sustains(profiles, f5, 5) && Sustains(profiles, f6, 6)
    requires Sustains(profiles, f12, 12) && Sustains(profiles, f20, 20)
    ensures VerdictOf(Total(profiles, [f12, f6, f2, f5, f20])) != Over
    ensures VerdictOf(Total(profiles, [f2, f20, f12, f5, f6])) == Over
  {
    hide VerdictOf;
    TotalOfFive(profiles, f12, f6, f2, f5, f20, 12, 6, 2, 5, 20);
    TotalOfFive(profiles, f2, f20, f12, f5, f6, 2, 20, 12, 5, 6);
    Tipping.OrderTips();
    hide *;
    OverIs(Total(profiles, [f12, f6, f2, f5, f20]));
    OverIs(Total(profiles, [f2, f20, f12, f5, f6]));
  }

  lemma OverIs(l: Load)
    ensures VerdictOf(l) == Over <==> l.load > ONE
  {
  }

  lemma TotalOfFive(profiles: seq<Profile>, f1: Feed, f2: Feed, f3: Feed, f4: Feed, f5: Feed,
                    s1: nat, s2: nat, s3: nat, s4: nat, s5: nat)
    requires Sustains(profiles, f1, s1) && Sustains(profiles, f2, s2) && Sustains(profiles, f3, s3)
    requires Sustains(profiles, f4, s4) && Sustains(profiles, f5, s5)
    requires 0 < s1 <= 128 && 0 < s2 <= 128 && 0 < s3 <= 128 && 0 < s4 <= 128 && 0 < s5 <= 128
    ensures var one := Tipping.BASE;
            Total(profiles, [f1, f2, f3, f4, f5]).load > ONE <==>
            Tipping.SumOf5(ShareOf(one, s1), ShareOf(one, s2), ShareOf(one, s3), ShareOf(one, s4), ShareOf(one, s5))
            > one
  {
    hide Sum, ShareOf, Round80, Add, Round, PowerOf2, Tipping.SumOf5, Total;
    OneIs();
    SustainedShare(profiles, f1, s1);
    SustainedShare(profiles, f2, s2);
    SustainedShare(profiles, f3, s3);
    SustainedShare(profiles, f4, s4);
    SustainedShare(profiles, f5, s5);
    TotalIsSumOf5(profiles, f1, f2, f3, f4, f5);
    var one := Tipping.BASE;
    var a, b, c := ShareOf(one, s1), ShareOf(one, s2), ShareOf(one, s3);
    SumOf5Scales(SCALE, a, b, c, ShareOf(one, s4), ShareOf(one, s5));
    Cancels(SCALE, Tipping.SumOf5(a, b, c, ShareOf(one, s4), ShareOf(one, s5)), one);
  }

  lemma SustainedShare(profiles: seq<Profile>, f: Feed, s: nat)
    requires Sustains(profiles, f, s) && 0 < s <= 128
    ensures FeedLoad(profiles, f).load == SCALE * ShareOf(Tipping.BASE, s)
    ensures ShareOf(Tipping.BASE, s) >= TWO52
  {
    hide Lookup;
    OneIs();
    ShareIsOf(s);
    ShareScales(SCALE, Tipping.BASE, s);
    ShareDoubles(Tipping.BASE, s);
  }

  lemma TotalIsSumOf5(profiles: seq<Profile>, f1: Feed, f2: Feed, f3: Feed, f4: Feed, f5: Feed)
    ensures Total(profiles, [f1, f2, f3, f4, f5]).load ==
            Tipping.SumOf5(FeedLoad(profiles, f1).load, FeedLoad(profiles, f2).load, FeedLoad(profiles, f3).load,
                           FeedLoad(profiles, f4).load, FeedLoad(profiles, f5).load)
  {
    hide FeedLoad, Add;
    TotalMore(profiles, [], f1);
    TotalMore(profiles, [f1], f2);
    TotalMore(profiles, [f1, f2], f3);
    TotalMore(profiles, [f1, f2, f3], f4);
    TotalMore(profiles, [f1, f2, f3, f4], f5);
    FirstIsItself(profiles, f1);
    assert [] + [f1] == [f1] && [f1] + [f2] == [f1, f2] && [f1, f2] + [f3] == [f1, f2, f3];
    assert [f1, f2, f3] + [f4] == [f1, f2, f3, f4] && [f1, f2, f3, f4] + [f5] == [f1, f2, f3, f4, f5];
  }

  lemma FirstIsItself(profiles: seq<Profile>, f: Feed)
    ensures Add(0, FeedLoad(profiles, f).load) == FeedLoad(profiles, f).load
  {
    hide Lookup;
  }

  lemma TotalMore(profiles: seq<Profile>, feeds: seq<Feed>, f: Feed)
    ensures Total(profiles, feeds + [f]) == Plus(Total(profiles, feeds), FeedLoad(profiles, f))
  {
    assert (feeds + [f])[..|feeds|] == feeds;
  }

  lemma SumOf5Scales(f: nat, a: nat, b: nat, c: nat, d: nat, e: nat)
    requires PowerOf2(f) && a >= TWO52
    ensures Tipping.SumOf5(f * a, f * b, f * c, f * d, f * e) == f * Tipping.SumOf5(a, b, c, d, e)
  {
    var ab := Add(a, b);
    var abc := Add(ab, c);
    var abcd := Add(abc, d);
    RoundIsNear((a + b) as real);
    RoundIsNear((ab + c) as real);
    RoundIsNear((abc + d) as real);
    hide Add, Round, PowerOf2;
    AddScales(f, a, b);
    AddScales(f, ab, c);
    AddScales(f, abc, d);
    AddScales(f, abcd, e);
  }

  // ----- what a verdict, an estimate and a distance are -----

  /** Feeds are over exactly if they come to more than the node; otherwise unknown if the setup of
      one was never measured, and tight or fitting by whether they come to more than 0.8 of it. */
  lemma VerdictMeans(profiles: seq<Profile>, feeds: seq<Feed>)
    ensures var l := Total(profiles, feeds);
            var unknown := exists f :: f in feeds && forall p :: p in profiles ==> p.key != f.key;
            && (VerdictOf(l) == Over <==> l.load > ONE)
            && (VerdictOf(l) == Unknown <==> l.load <= ONE && unknown)
            && (VerdictOf(l) == Tight <==> TightLoad() < l.load <= ONE && !unknown)
            && (VerdictOf(l) == Fits <==> l.load <= ONE && l.load <= TightLoad() && !unknown)
  {
    UnknownWhen(profiles, feeds);
    hide Total, TightLoad;
  }

  lemma {:induction false} UnknownWhen(profiles: seq<Profile>, feeds: seq<Feed>)
    ensures Total(profiles, feeds).unknown > 0 <==>
            exists f :: f in feeds && forall p :: p in profiles ==> p.key != f.key
  {
    hide Lookup, Plus;
    if feeds != [] {
      var n := |feeds| - 1;
      var last := feeds[n];
      UnknownWhen(profiles, feeds[..n]);
      KnownWhen(profiles, last);
      PlusCounts(Total(profiles, feeds[..n]), FeedLoad(profiles, last));
      assert feeds == feeds[..n] + [last] && last in feeds;
    }
  }

  lemma PlusCounts(a: Load, b: Load)
    ensures Plus(a, b).unknown == a.unknown + b.unknown && Plus(a, b).estimated == (a.estimated || b.estimated)
  {
  }

  lemma KnownWhen(profiles: seq<Profile>, f: Feed)
    ensures Lookup(profiles, f.key, f.format).Some? <==> exists p :: p in profiles && p.key == f.key
  {
    var candidates := Candidates(profiles, f.key);
    hide Candidates;
    if p :| p in profiles && p.key == f.key { CandidatesAre(profiles, f.key, p); }
    if candidates != [] { CandidatesAre(profiles, f.key, candidates[0]); }
  }

  /** They're an estimate exactly if one of them is. */
  lemma {:induction false} EstimatedWhen(profiles: seq<Profile>, feeds: seq<Feed>)
    ensures Total(profiles, feeds).estimated <==>
            exists f :: f in feeds && Lookup(profiles, f.key, f.format).Some?
                        && Lookup(profiles, f.key, f.format).value.estimated
  {
    hide Lookup, Plus;
    if feeds != [] {
      var n := |feeds| - 1;
      var last := feeds[n];
      EstimatedWhen(profiles, feeds[..n]);
      PlusCounts(Total(profiles, feeds[..n]), FeedLoad(profiles, last));
      assert feeds == feeds[..n] + [last] && last in feeds;
    }
  }

  function Denominator(f: Format): nat { if f.den == 0 then 1 else f.den }

  /** What a setup that came to `s` feeds in one format is estimated to do in another: as many times
      as many as it has fewer pixels a second, the product of width, height and frame rate. */
  lemma EstimateMeans(s: nat, media: Format, format: Format)
    requires format.width * format.height * format.num > 0
    ensures var m := Quotient(s as real * PixelRate(media), PixelRate(format));
            && m.Finite?
            && m.value * (format.width * format.height * format.num * Denominator(media)) as real ==
               (s * (media.width * media.height * media.num) * Denominator(format)) as real
  {
    var a, b := media.width * media.height * media.num, format.width * format.height * format.num;
    RateIs(media);
    RateIs(format);
    hide PixelRate;
    var c, d := Denominator(media), Denominator(format);
    var p, q := PixelRate(media), PixelRate(format);
    IsPositive(q, d as real, b as real);
    var x := s as real * p / q;
    assert x * q == s as real * p;
    Crosswise(x, s as real, p, q, a as real, b as real, c as real, d as real);
    assert s as real * a as real * d as real == (s * a * d) as real;
    assert b as real * c as real == (b * c) as real;
  }

  /** In a format without pixels any number can be done, if there were pixels in the one measured. */
  lemma EstimateOfNothing(s: nat, media: Format, format: Format)
    requires format.width * format.height * format.num == 0
    ensures Quotient(s as real * PixelRate(media), PixelRate(format)) ==
            if s * (media.width * media.height * media.num) > 0 then Infinite else NotANumber
  {
    RateIs(media);
    RateIs(format);
    var a, r := media.width * media.height * media.num, PixelRate(media);
    var c, d := Denominator(media), Denominator(format);
    hide PixelRate;
    assert PixelRate(format) == 0.0 by { IsNothing(PixelRate(format), d as real); }
    assert s as real * r * c as real == s as real * a as real == (s * a) as real;
    if s * a > 0 {
      IsPositive(s as real * r, c as real, (s * a) as real);
    } else {
      IsNothing(s as real * r, c as real);
    }
  }

  lemma IsNothing(q: real, d: real)
    requires q * d == 0.0 && d > 0.0
    ensures q == 0.0
  {
  }

  /** Formats match exactly if they're of one size, at frame rates less than a hundredth apart. */
  lemma MatchesWhen(f: Format, g: Format)
    ensures var apart := f.num * Denominator(g) - g.num * Denominator(f);
            Matches(f, g) <==>
            && f.width == g.width && f.height == g.height
            && -(Denominator(f) * Denominator(g)) < 100 * apart < Denominator(f) * Denominator(g)
  {
    var x := FrameRate(f) - FrameRate(g);
    assert Matches(f, g) <==> f.width == g.width && f.height == g.height && -0.01 < x < 0.01;
    var apart, all := FramesApart(f, g);
    hide *;
    Hundredth(x, all as real, apart as real);
    AsReals(apart, all);
  }

  lemma AsReals(a: int, b: int)
    ensures -(b as real) < 100.0 * a as real < b as real <==> -b < 100 * a < b
  {
    assert 100.0 * a as real == (100 * a) as real;
  }

  lemma FramesApart(f: Format, g: Format) returns (apart: int, all: int)
    ensures apart == f.num * Denominator(g) - g.num * Denominator(f) && all == Denominator(f) * Denominator(g) > 0
    ensures (FrameRate(f) - FrameRate(g)) * all as real == apart as real
  {
    var c, d := Denominator(f), Denominator(g);
    var x, y := FrameRate(f), FrameRate(g);
    assert x * c as real == f.num as real && y * d as real == g.num as real;
    hide FrameRate, Denominator;
    AllPositive(c, d);
    Scaled(x, y, c as real, d as real, f.num as real, g.num as real);
    assert c as real * d as real == (c * d) as real;
    assert f.num as real * d as real == (f.num * d) as real && g.num as real * c as real == (g.num * c) as real;
    apart, all := f.num * d - g.num * c, c * d;
  }

  lemma AllPositive(c: nat, d: nat)
    requires c > 0 && d > 0
    ensures c * d > 0
  {
  }

  lemma Scaled(x: real, y: real, c: real, d: real, m: real, n: real)
    requires x * c == m && y * d == n
    ensures (x - y) * (c * d) == m * d - n * c
  {
    assert x * (c * d) == x * c * d && y * (c * d) == y * d * c;
  }

  lemma Hundredth(x: real, k: real, y: real)
    requires k > 0.0 && x * k == y
    ensures -0.01 < x < 0.01 <==> -k < 100.0 * y < k
  {
    assert k - 100.0 * y == (1.0 - 100.0 * x) * k;
    assert k + 100.0 * y == (1.0 + 100.0 * x) * k;
  }

  /** A feed whose setup was never measured adds nothing but itself to what's unknown. */
  lemma UnknownFeed(profiles: seq<Profile>, f: Feed)
    requires forall p :: p in profiles ==> p.key != f.key
    ensures FeedLoad(profiles, f) == Load(0, 1, false)
  {
    hide Lookup;
    KnownWhen(profiles, f);
  }

  lemma IsPositive(q: real, d: real, b: real)
    requires q * d == b && d > 0.0 && b > 0.0
    ensures q > 0.0
  {
  }

  lemma RateIs(f: Format)
    ensures PixelRate(f) * Denominator(f) as real == (f.width * f.height * f.num) as real
  {
    var w, h, n, d := f.width as real, f.height as real, f.num as real, Denominator(f) as real;
    assert PixelRate(f) == w * h * n / d;
    assert w * h == (f.width * f.height) as real;
    assert w * h * n == (f.width * f.height * f.num) as real;
    assert w * h * n / d * d == w * h * n;
  }

  lemma Crosswise(x: real, s: real, p: real, q: real, a: real, b: real, c: real, d: real)
    requires x * q == s * p && p * c == a && q * d == b
    ensures x * (b * c) == s * a * d
  {
    assert x * (b * c) == x * q * (d * c);
    assert s * p * (d * c) == s * (p * c) * d;
  }

  /** One of a format without pixels is farther than any that has some. */
  lemma NothingIsFarther(p: Profile, q: Profile, format: Format)
    requires PixelRate(p.media) > 0.0 && PixelRate(q.media) == 0.0 && PixelRate(format) > 0.0
    ensures Nearer(DistanceTo(p, format), DistanceTo(q, format))
  {
    var a, f := PixelRate(p.media), PixelRate(format);
    hide PixelRate;
    FactorIs(a, f);
    assert 0.0 / f == 0.0;
  }

  /** One profile is nearer than another exactly if its pixel rate is the smaller factor away. */
  lemma NearerWhen(p: Profile, q: Profile, format: Format)
    requires PixelRate(p.media) > 0.0 && PixelRate(q.media) > 0.0 && PixelRate(format) > 0.0
    ensures var a, b, f := PixelRate(p.media), PixelRate(q.media), PixelRate(format);
            Nearer(DistanceTo(p, format), DistanceTo(q, format)) <==>
            Larger(a, f) * Smaller(b, f) < Larger(b, f) * Smaller(a, f)
  {
    var a, b, f := PixelRate(p.media), PixelRate(q.media), PixelRate(format);
    hide PixelRate;
    FactorIs(a, f);
    FactorIs(b, f);
    var x, y := Larger(a, f) / Smaller(a, f), Larger(b, f) / Smaller(b, f);
    Compared(x, y, Larger(a, f), Smaller(a, f), Larger(b, f), Smaller(b, f));
  }

  function Larger(a: real, b: real): real { if a < b then b else a }

  function Smaller(a: real, b: real): real { if a < b then a else b }

  lemma FactorIs(a: real, f: real)
    requires a > 0.0 && f > 0.0
    ensures Distance(Quotient(a, f)) == Finite(Larger(a, f) / Smaller(a, f))
  {
    var x, y := a / f, f / a;
    assert x * f == a && y * a == f;
    IsPositive(x, f, a);
    AboveOne(x, a, f);
    Inverse(x, y, a, f);
  }

  lemma AboveOne(x: real, a: real, f: real)
    requires x * f == a && f > 0.0
    ensures x < 1.0 <==> a < f
  {
    assert (1.0 - x) * f == f - a;
  }

  lemma Inverse(x: real, y: real, a: real, f: real)
    requires x > 0.0 && a > 0.0 && f > 0.0 && x * f == a && y * a == f
    ensures 1.0 / x == y
  {
    assert x * y * a == x * f;
    assert x * y == 1.0 by { Cancel(x * y, 1.0, a); }
    var z := 1.0 / x;
    assert z * x == 1.0;
    Cancel(z, y, x);
  }

  lemma Cancel(u: real, v: real, k: real)
    requires k > 0.0 && u * k == v * k
    ensures u == v
  {
    assert (u - v) * k == 0.0;
  }

  lemma Compared(x: real, y: real, a: real, b: real, c: real, d: real)
    requires b > 0.0 && d > 0.0 && x == a / b && y == c / d
    ensures x < y <==> a * d < c * b
  {
    assert x * b == a && y * d == c;
    assert a * d == x * (b * d) && c * b == y * (b * d);
    var k := b * d;
    assert k > 0.0;
    if x < y { assert x * k < y * k; }
    if x >= y { assert x * k >= y * k; }
  }

  /** A feed's share is one over how many are sustained, to 53 bits, and twice the node for a setup
      that can't sustain half of one. */
  lemma ShareMeans(feeds: Number)
    ensures match feeds
            case Finite(x) =>
              if x > 0.5 then Share(feeds) == Round(ONE as real / x) else Share(feeds) == 2 * ONE
            case Infinite => Share(feeds) == 0
            case NotANumber => Share(feeds) == 2 * ONE
  {
    OneIs();
    TwoIs();
  }

  lemma TwoIs()
    ensures Round(ONE as real / 0.5) == 2 * ONE
  {
    OneIsExact();
    assert ONE as real / 0.5 == 2.0 * ONE as real;
    DoubleIsExact(ONE);
  }

  lemma OneIsExact()
    ensures Exact(ONE)
  {
    hide PowerOf2;
    OneIs();
    Tipping.Powers();
    PowersMultiply(0x4000, 0x4000);
    PowersMultiply(0x1000_0000, 0x4000);
    PowersMultiply(0x400_0000_0000, 0x4000);
    PowersMultiply(0x100_0000_0000_0000, 8);
    PowersMultiply(SCALE, Tipping.BASE);
    PowerIsExact(ONE);
  }

  lemma {:induction false} PowerIsExact(u: nat)
    requires PowerOf2(u)
    ensures Exact(u)
  {
    if u != 1 {
      PowerIsExact(u / 2);
      DoubleIsExact(u / 2);
    }
  }

  // ----- a benchmark's answer -----

  lemma {:induction false} TotalOfSame(profiles: seq<Profile>, feed: Feed, n: nat)
    requires Lookup(profiles, feed.key, feed.format).Some?
    ensures var m := Lookup(profiles, feed.key, feed.format).value;
            Total(profiles, seq(n, _ => feed)) == Load(Sum(n, Share(m.feeds)), 0, n > 0 && m.estimated)
  {
    hide Add, Share;
    var feeds := seq(n, _ => feed);
    if n > 0 {
      assert feeds[..n - 1] == seq(n - 1, _ => feed);
      TotalOfSame(profiles, feed, n - 1);
    }
  }

  /** How a benchmark's answer and the verdict on feeds of the setup it measured agree, for
      answers to a million. Fewer feeds than the answer are never over and more always are,
      fewer than four fifths fit comfortably and more never do. As many as the answer, or
      just four fifths, are judged as meant exactly if their sum doesn't tip over. */
  lemma {:induction false} AnswerIsTheLine(runs: seq<Run>, i: nat, n: nat)
    requires i < |runs| && Stands(runs, i) && runs[i].sustainable <= 0x10_0000
    ensures var s := runs[i].sustainable;
            var verdict := VerdictOf(Total(Profiles(runs), seq(n, _ => Feed(runs[i].key, Some(runs[i].media)))));
            && (n < s ==> verdict != Over) && (n > s ==> verdict == Over)
            && (5 * n < 4 * s ==> verdict == Fits) && (5 * n > 4 * s ==> verdict != Fits)
            && (n == s == 0 ==> verdict == Fits)
            && (n == s && 0 < s <= 128 ==> (verdict == Over <==> Tipping.Tipping(s)))
            && (5 * n == 4 * s && 0 < s <= 128 ==> (verdict == Fits <==> !Tipping.TippingPart(s)))
  {
    var s := runs[i].sustainable;
    MeasuredFormatIsExact(runs, i);
    TotalOfSame(Profiles(runs), Feed(runs[i].key, Some(runs[i].media)), n);
    hide *;
    SumIsTheLine(n, s);
    VerdictIs(Total(Profiles(runs), seq(n, _ => Feed(runs[i].key, Some(runs[i].media)))));
  }

  /** Nine ninths come to more than one: the nine feeds a benchmark found are over. */
  lemma {:induction false} NineOfNineAreOver(runs: seq<Run>, i: nat)
    requires i < |runs| && Stands(runs, i) && runs[i].sustainable == 9
    ensures VerdictOf(Total(Profiles(runs), seq(9, _ => Feed(runs[i].key, Some(runs[i].media))))) == Over
  {
    hide Profiles, Total, VerdictOf, Stands;
    AnswerIsTheLine(runs, i, 9);
  }

  /** A run of setup `key`, that came to `s` feeds. */
  function RunOf(key: string, media: Format, s: nat): Run {
    Run(key, key, true, media, s, [StepResult(s, true, false, [])])
  }

  /** Runs of five setups, that came to 2, 5, 6, 12 and 20 feeds. */
  function FiveRuns(media: Format): seq<Run> {
    [RunOf("a", media, 2), RunOf("b", media, 5), RunOf("c", media, 6), RunOf("d", media, 12), RunOf("e", media, 20)]
  }

  /** On a node with those runs the order does. */
  lemma OrderCanTipFor(media: Format)
    ensures var profiles := Profiles(FiveRuns(media));
            var a, b, c := Feed("a", Some(media)), Feed("b", Some(media)), Feed("c", Some(media));
            var d, e := Feed("d", Some(media)), Feed("e", Some(media));
            && VerdictOf(Total(profiles, [d, c, a, b, e])) != Over
            && VerdictOf(Total(profiles, [a, e, d, b, c])) == Over
  {
    FiveSustain(media);
    hide *;
    OrderCanTip(Profiles(FiveRuns(media)), Feed("a", Some(media)), Feed("b", Some(media)), Feed("c", Some(media)),
                Feed("d", Some(media)), Feed("e", Some(media)));
  }

  lemma FiveSustain(media: Format)
    ensures var profiles := Profiles(FiveRuns(media));
            && Sustains(profiles, Feed("a", Some(media)), 2) && Sustains(profiles, Feed("b", Some(media)), 5)
            && Sustains(profiles, Feed("c", Some(media)), 6) && Sustains(profiles, Feed("d", Some(media)), 12)
            && Sustains(profiles, Feed("e", Some(media)), 20)
  {
    var runs := FiveRuns(media);
    assert runs[0].key == "a" && runs[1].key == "b" && runs[2].key == "c" && runs[3].key == "d" && runs[4].key == "e";
    forall i: nat | i < |runs| ensures Stands(runs, i) { KeysApart(media, i); }
    hide Profiles, Lookup, Stands, Chosen;
    MeasuredFormatIsExact(runs, 0);
    MeasuredFormatIsExact(runs, 1);
    MeasuredFormatIsExact(runs, 2);
    MeasuredFormatIsExact(runs, 3);
    MeasuredFormatIsExact(runs, 4);
  }

  lemma KeysApart(media: Format, i: nat)
    requires i < 5
    ensures Stands(FiveRuns(media), i)
  {
    var runs := FiveRuns(media);
    hide Matches;
    forall j: nat | j < i ensures runs[j].key != runs[i].key {
      assert runs[j].key[0] != runs[i].key[0];
    }
  }

  lemma VerdictIs(l: Load)
    requires l.unknown == 0
    ensures VerdictOf(l) == Over <==> l.load > ONE
    ensures VerdictOf(l) == Fits <==> l.load <= ONE && l.load <= TightLoad()
  {
  }

  lemma SumIsTheLine(n: nat, s: nat)
    requires s <= 0x10_0000
    ensures var sum := Sum(n, Share(Finite(s as real)));
            && (n < s ==> sum <= ONE) && (n > s ==> sum > ONE)
            && (5 * n < 4 * s ==> sum <= TightLoad()) && (5 * n > 4 * s ==> sum > TightLoad() || sum > ONE)
            && (n == s == 0 ==> sum == 0)
            && (n == s && 0 < s <= 128 ==> (sum > ONE <==> Tipping.Tipping(s)))
            && (5 * n == 4 * s && 0 < s <= 128 ==> (sum > TightLoad() <==> Tipping.TippingPart(s)))
  {
    hide Sum, Share, Round80, Tipping.Tipping, Tipping.TippingPart;
    OneIs();
    if s == 0 {
      NoneIsTwice(n);
    } else {
      ShareIsOf(s);
      OffTheLine(ONE, n, s);
      OffFourFifths(ONE, n, s);
      if s <= 128 { SumAtTheLine(n, s); }
    }
  }

  lemma SumAtTheLine(n: nat, s: nat)
    requires 0 < s <= 128
    ensures n == s ==> (Sum(n, ShareOf(ONE, s)) > ONE <==> Tipping.Tipping(s))
    ensures 5 * n == 4 * s ==> (Sum(n, ShareOf(ONE, s)) > TightLoad() <==> Tipping.TippingPart(s))
  {
    hide Sum, Share, ShareOf, Round80, Tipping.Tipping, Tipping.TippingPart;
    OneIs();
    UnitsAgree(Tipping.BASE, SCALE, n, s);
    Cancels(SCALE, Sum(n, ShareOf(Tipping.BASE, s)), Tipping.BASE);
    Cancels(SCALE, Sum(n, ShareOf(Tipping.BASE, s)), Tipping.FOUR_FIFTHS);
    Tipping.FourFifthsIs();
    Tipping.TippingIsExact(s);
    assert 5 * n == 4 * s ==> 4 * s / 5 == n && s % 5 == 0;
  }

  /** How many of the units here are in one of those the tipping sums are worked out in. */
  const SCALE: nat := 0x20_0000_0000_0000_0000_0000_0000_0000_0000_0000_0000_0000_0000

  lemma OneIs()
    ensures ONE == SCALE * Tipping.BASE && PowerOf2(SCALE) && Fine(ONE) && ONE >= TWO52 * 0x10_0000
  {
    hide PowerOf2;
    Tipping.Powers();
    var p14 := 0x4000;
    var p28 := p14 * p14;
    var p56 := p28 * p28;
    var p112 := p56 * p56;
    PowersMultiply(p14, p14);
    PowersMultiply(p28, p28);
    PowersMultiply(p56, p56);
    PowersMultiply(p112, p56);
    PowersMultiply(p112 * p56, p28);
    PowersMultiply(p112 * p56 * p28, 2);
    assert SCALE == p112 * p56 * p28 * 2;
  }

  lemma {:induction false} PowersMultiply(a: nat, b: nat)
    requires PowerOf2(a) && PowerOf2(b)
    ensures PowerOf2(a * b)
  {
    if a > 1 {
      PowersMultiply(a / 2, b);
      Twice(a / 2, b);
      assert a * b == 2 * (a / 2 * b);
    }
  }

  lemma ShareIsOf(s: nat)
    requires s > 0
    ensures Share(Finite(s as real)) == ShareOf(ONE, s)
  {
  }

  lemma NoneIsTwice(n: nat)
    ensures n > 0 ==> Sum(n, Share(Finite(0.0))) > ONE
    ensures Sum(0, Share(Finite(0.0))) == 0
  {
    var c := Share(Finite(0.0));
    RoundIsNear(ONE as real / 0.5);
    assert c > ONE;
    if n > 0 {
      SumGrows(1, n, c);
      AddsNothing(c);
    }
  }
}
