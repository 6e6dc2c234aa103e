/** What outputs are called: the path a stream is served at, made URL-safe, and
    the configuration two outputs share exactly if they send the same thing. */
module MountPath {
  import opened Wrappers

  /** What Unicode says of characters: their lower case, and which are white space. */
  datatype Unicode = Unicode(lower: char -> string, space: char -> bool)

  predicate Upper(c: char) { 'A' <= c <= 'Z' }

  /** Lower-case ASCII letters and digits, `_` and `.`. */
  predicate Plain(c: char) { 'a' <= c <= 'z' || '0' <= c <= '9' || c == '_' || c == '.' }

  predicate Safe(c: char) { Plain(c) || c == '-' }

  /** What is true of Unicode: lower case holds no upper-case letters and leaves the
      safe characters alone; these and slashes aren't space. */
  ghost predicate Valid(u: Unicode) {
    && (forall c :: Safe(c) ==> u.lower(c) == [c] && !u.space(c))
    && (forall c, d :: d in u.lower(c) ==> !Upper(d))
    && !u.space('/')
  }

  // ----- trimming -----

  function TrimStart(f: char -> bool, s: string): string {
    if s != "" && f(s[0]) then TrimStart(f, s[1..]) else s
  }

  function TrimEnd(f: char -> bool, s: string): string {
    if s != "" && f(s[|s| - 1]) then TrimEnd(f, s[..|s| - 1]) else s
  }

  function Trim(f: char -> bool, s: string): string { TrimEnd(f, TrimStart(f, s)) }

  predicate Tight(f: char -> bool, s: string) { s != "" ==> !f(s[0]) && !f(s[|s| - 1]) }

  lemma {:induction false} TrimStartCuts(f: char -> bool, s: string) returns (i: nat)
    ensures i <= |s| && TrimStart(f, s) == s[i..] && (forall k :: 0 <= k < i ==> f(s[k])) && (i < |s| ==> !f(s[i]))
  {
    i := 0;
    if s != "" && f(s[0]) {
      var j := TrimStartCuts(f, s[1..]);
      i := j + 1;
      assert forall k :: 1 <= k < i ==> s[k] == s[1..][k - 1];
    }
  }

  lemma {:induction false} TrimEndCuts(f: char -> bool, s: string) returns (j: nat)
    ensures j <= |s| && TrimEnd(f, s) == s[..j] && (forall k :: j <= k < |s| ==> f(s[k])) && (j > 0 ==> !f(s[j - 1]))
  {
    j := |s|;
    if s != "" && f(s[|s| - 1]) {
      j := TrimEndCuts(f, s[..|s| - 1]);
      assert s[..|s| - 1][..j] == s[..j];
    }
  }

  /** What's trimmed is all there was at either end, and nothing else. */
  lemma TrimCuts(f: char -> bool, s: string) returns (i: nat, j: nat)
    ensures i <= j <= |s| && Trim(f, s) == s[i..j] && Tight(f, s[i..j])
    ensures forall k :: 0 <= k < i || j <= k < |s| ==> f(s[k])
  {
    i := TrimStartCuts(f, s);
    var n := TrimEndCuts(f, s[i..]);
    j := i + n;
    assert s[i..][..n] == s[i..j];
    forall k | j <= k < |s| ensures f(s[k]) {
      assert s[k] == s[i..][k - i];
    }
    if n > 0 { assert s[i..][n - 1] == s[i..j][n - 1]; }
  }

  lemma TightIsTrimmed(f: char -> bool, s: string)
    ensures Trim(f, s) == s <==> Tight(f, s)
    ensures Tight(f, Trim(f, s))
  {
    var i, j := TrimCuts(f, s);
  }

  /** Cutting what's trimmed anyway off a string makes no difference. */
  lemma TrimsTo(f: char -> bool, start: string, s: string, end: string)
    requires (forall c :: c in start ==> f(c)) && (forall c :: c in end ==> f(c)) && s != "" && Tight(f, s)
    ensures Trim(f, start + s + end) == s
  {
    var t, n := start + s + end, |start|;
    var i, j := TrimCuts(f, t);
    forall k | 0 <= k < n ensures f(t[k]) {
      assert t[k] == start[k] && start[k] in start;
    }
    forall k | n + |s| <= k < |t| ensures f(t[k]) {
      assert t[k] == end[k - n - |s|] && end[k - n - |s|] in end;
    }
    assert !f(t[n]) && !f(t[n + |s| - 1]) by { assert t[n] == s[0] && t[n + |s| - 1] == s[|s| - 1]; }
    assert i <= n && n + |s| <= j;
    assert t[i..j][0] == t[i] && t[i..j][j - i - 1] == t[j - 1];
    assert i == n && j == n + |s|;
    assert t[n..n + |s|] == s;
  }

  // ----- a segment -----

  function LowerAll(u: Unicode, s: string): string {
    if s == "" then "" else u.lower(s[0]) + LowerAll(u, s[1..])
  }

  /** ASCII letters and digits, `_` and `.` are kept. */
  predicate Kept(c: char) { Plain(c) || Upper(c) }

  predicate EndsWithDash(s: string) { s != "" && s[|s| - 1] == '-' }

  /** One more character: kept, or a dash unless there's one already. */
  function Push(out: string, c: char): string {
    if Kept(c) then out + [c] else if EndsWithDash(out) then out else out + "-"
  }

  function PushAll(cs: string): string {
    if cs == "" then "" else Push(PushAll(cs[..|cs| - 1]), cs[|cs| - 1])
  }

  predicate IsDash(c: char) { c == '-' }

  function SlugOf(u: Unicode, segment: string): string {
    Trim(IsDash, PushAll(LowerAll(u, Trim(u.space, segment))))
  }

  method Slug(u: Unicode, segment: string) returns (slug: string)
    ensures slug == SlugOf(u, segment)
  {
    var cs := LowerAll(u, Trim(u.space, segment));
    var out := "";
    for i := 0 to |cs|
      invariant out == PushAll(cs[..i])
    {
      var c := cs[i];
      if Kept(c) {
        out := out + [c];
      } else if !EndsWithDash(out) {
        out := out + "-";
      }
      assert cs[..i + 1][..i] == cs[..i];
    }
    assert cs[..|cs|] == cs;
    slug := Trim(IsDash, out);
  }

  /** The words of a text: the longest stretches of kept characters. */
  function Words(cs: string): seq<string> {
    if cs == "" then []
    else
      var c, rest := cs[|cs| - 1], cs[..|cs| - 1];
      var words := Words(rest);
      if !Kept(c) then words
      else if rest != "" && Kept(rest[|rest| - 1]) && words != [] then
        words[..|words| - 1] + [words[|words| - 1] + [c]]
      else words + [[c]]
  }

  function Dashed(words: seq<string>): string {
    if |words| == 0 then ""
    else if |words| == 1 then words[0]
    else Dashed(words[..|words| - 1]) + "-" + words[|words| - 1]
  }

  predicate IsWord(w: string) { w != "" && forall i :: 0 <= i < |w| ==> Kept(w[i]) }

  predicate AreWords(words: seq<string>) { forall i :: 0 <= i < |words| ==> IsWord(words[i]) }

  function Lead(cs: string): string { if cs != "" && !Kept(cs[0]) then "-" else "" }

  function Tail(cs: string): string {
    if Words(cs) != [] && !Kept(cs[|cs| - 1]) then "-" else ""
  }

  lemma DashedMore(words: seq<string>, w: string)
    requires words != []
    ensures Dashed(words + [w]) == Dashed(words) + "-" + w
  {
    assert (words + [w])[..|words|] == words;
  }

  lemma DashedLonger(words: seq<string>, w: string, c: char)
    ensures Dashed(words + [w + [c]]) == Dashed(words + [w]) + [c]
  {
    assert (words + [w + [c]])[..|words|] == words == (words + [w])[..|words|];
  }

  lemma {:induction false} DashedIsTight(words: seq<string>)
    requires words != [] && AreWords(words)
    ensures Dashed(words) != "" && Tight(IsDash, Dashed(words)) && Kept(Dashed(words)[|Dashed(words)| - 1])
  {
    if |words| > 1 { DashedIsTight(words[..|words| - 1]); }
  }

  /** What's pushed of characters with these words. */
  predicate Spelled(out: string, lead: string, words: seq<string>, tail: string) {
    out == lead + Dashed(words) + tail
  }

  lemma GrowsTheWord(out: string, lead: string, words: seq<string>, c: char)
    requires words != [] && Kept(c) && Spelled(out, lead, words, "")
    ensures Spelled(Push(out, c), lead, words[..|words| - 1] + [words[|words| - 1] + [c]], "")
  {
    var n := |words| - 1;
    DashedLonger(words[..n], words[n], c);
    assert words[..n] + [words[n]] == words;
  }

  lemma StartsAWord(out: string, lead: string, words: seq<string>, c: char)
    requires words != [] && Kept(c) && Spelled(out, lead, words, "-")
    ensures Spelled(Push(out, c), lead, words + [[c]], "")
  {
    DashedMore(words, [c]);
  }

  lemma EndsTheWord(out: string, lead: string, words: seq<string>, tail: string, c: char)
    requires words != [] && AreWords(words) && !Kept(c) && Spelled(out, lead, words, tail) && tail in {"", "-"}
    ensures Spelled(Push(out, c), lead, words, "-")
  {
    DashedIsTight(words);
    if tail == "" { assert out[|out| - 1] == Dashed(words)[|Dashed(words)| - 1]; }
  }

  /** All that's pushed is the words with a dash between, and a dash before and
      after them where there's anything else. */
  lemma {:induction false} PushedAreWords(cs: string)
    ensures AreWords(Words(cs)) && Spelled(PushAll(cs), Lead(cs), Words(cs), Tail(cs))
    ensures cs != "" && Kept(cs[|cs| - 1]) ==> Words(cs) != []
  {
    hide Spelled, Push;
    if cs == "" {
      assert Spelled("", "", [], "") by { SpelledNothing(""); }
    } else {
      var c, rest := cs[|cs| - 1], cs[..|cs| - 1];
      var words, out := Words(rest), PushAll(rest);
      PushedAreWords(rest);
      if words == [] {
        NoWords(rest);
        FirstWord(rest, c);
      } else {
        FirstStays(cs);
        if !Kept(c) {
          EndsTheWord(out, Lead(rest), words, Tail(rest), c);
        } else if Kept(rest[|rest| - 1]) {
          GrowsTheWord(out, Lead(rest), words, c);
        } else {
          StartsAWord(out, Lead(rest), words, c);
        }
      }
    }
  }

  lemma SpelledNothing(lead: string)
    ensures Spelled(lead, lead, [], "")
  {
  }

  lemma FirstWord(rest: string, c: char)
    requires Words(rest) == [] && Spelled(PushAll(rest), Lead(rest), [], "")
    requires forall i :: 0 <= i < |rest| ==> !Kept(rest[i])
    ensures Spelled(PushAll(rest + [c]), Lead(rest + [c]), Words(rest + [c]), Tail(rest + [c]))
  {
    WordsOfMore(rest, c);
    var out := PushAll(rest);
    assert Dashed([]) == "" && Dashed([[c]]) == [c];
    assert out == Lead(rest);
    if Kept(c) {
      assert Lead(rest + [c]) == Lead(rest);
      assert out + [c] == Lead(rest) + [c] + "";
    } else {
      assert Lead(rest + [c]) == "-";
      assert (if EndsWithDash(out) then out else out + "-") == "-";
    }
  }

  lemma WordsOfMore(rest: string, c: char)
    requires Words(rest) == [] && forall i :: 0 <= i < |rest| ==> !Kept(rest[i])
    ensures Words(rest + [c]) == if Kept(c) then [[c]] else []
    ensures Tail(rest + [c]) == ""
    ensures PushAll(rest + [c]) == Push(PushAll(rest), c)
  {
    var cs := rest + [c];
    assert cs[..|cs| - 1] == rest && cs[|cs| - 1] == c;
  }

  lemma FirstStays(cs: string)
    requires |cs| > 1
    ensures Lead(cs) == Lead(cs[..|cs| - 1])
  {
  }

  lemma {:induction false} NoWords(cs: string)
    requires Words(cs) == []
    ensures forall i :: 0 <= i < |cs| ==> !Kept(cs[i])
  {
    if cs != "" { NoWords(cs[..|cs| - 1]); }
  }

  /** A segment's slug is its words, in lower case, with a dash between. */
  lemma SlugIsWords(u: Unicode, segment: string)
    ensures SlugOf(u, segment) == Dashed(Words(LowerAll(u, Trim(u.space, segment))))
  {
    var cs := LowerAll(u, Trim(u.space, segment));
    PushedAreWords(cs);
    assert PushAll(cs) == Lead(cs) + Dashed(Words(cs)) + Tail(cs);
    if Words(cs) == [] {
      TightIsTrimmed(IsDash, "");
      TrimDash();
      assert PushAll(cs) == Lead(cs);
    } else {
      DashedIsTight(Words(cs));
      TrimsTo(IsDash, Lead(cs), Dashed(Words(cs)), Tail(cs));
    }
  }

  lemma TrimDash()
    ensures Trim(IsDash, "-") == ""
  {
    var i, j := TrimCuts(IsDash, "-");
  }

  // ----- URL-safe -----

  /** What a segment of a path may be: safe characters, with dashes only one at a time and inside. */
  predicate Clean(s: string) {
    && s != "" && Tight(IsDash, s)
    && (forall i :: 0 <= i < |s| ==> Safe(s[i]))
    && (forall i, j :: 0 <= i < j == i + 1 < |s| ==> s[i] != '-' || s[j] != '-')
  }

  predicate Lowered(s: string) { forall i :: 0 <= i < |s| ==> !Upper(s[i]) }

  lemma {:induction false} LowerIsLowered(u: Unicode, s: string)
    requires Valid(u)
    ensures Lowered(LowerAll(u, s))
  {
    if s != "" {
      LowerIsLowered(u, s[1..]);
      assert forall i :: 0 <= i < |u.lower(s[0])| ==> u.lower(s[0])[i] in u.lower(s[0]);
    }
  }

  lemma {:induction false} WordsAreLowered(cs: string)
    requires Lowered(cs)
    ensures forall i :: 0 <= i < |Words(cs)| ==> Lowered(Words(cs)[i])
  {
    if cs != "" { WordsAreLowered(cs[..|cs| - 1]); }
  }

  lemma {:induction false} DashedIsClean(words: seq<string>)
    requires words != [] && AreWords(words) && (forall i :: 0 <= i < |words| ==> Lowered(words[i]))
    ensures Clean(Dashed(words)) && Kept(Dashed(words)[|Dashed(words)| - 1])
  {
    var n := |words| - 1;
    var w := words[n];
    assert forall i :: 0 <= i < |w| ==> Plain(w[i]);
    if n > 0 {
      DashedIsClean(words[..n]);
      JoinsClean(Dashed(words[..n]), w);
    }
  }

  lemma JoinsClean(s: string, w: string)
    requires Clean(s) && w != "" && forall i :: 0 <= i < |w| ==> Plain(w[i])
    ensures Clean(s + "-" + w) && Kept((s + "-" + w)[|s + "-" + w| - 1])
  {
    var t := s + "-" + w;
    assert t[0] == s[0] && t[|t| - 1] == w[|w| - 1];
  }

  lemma SlugIsClean(u: Unicode, segment: string)
    requires Valid(u)
    ensures SlugOf(u, segment) == "" || Clean(SlugOf(u, segment))
  {
    var cs := LowerAll(u, Trim(u.space, segment));
    SlugIsWords(u, segment);
    PushedAreWords(cs);
    LowerIsLowered(u, Trim(u.space, segment));
    WordsAreLowered(cs);
    if Words(cs) != [] { DashedIsClean(Words(cs)); }
  }

  lemma {:induction false} CleanIsLower(u: Unicode, s: string)
    requires Valid(u) && forall i :: 0 <= i < |s| ==> Safe(s[i])
    ensures LowerAll(u, s) == s
  {
    if s != "" {
      assert forall i :: 0 <= i < |s[1..]| ==> s[1..][i] == s[i + 1];
      CleanIsLower(u, s[1..]);
    }
  }

  lemma {:induction false} CleanIsPushed(s: string)
    requires forall i :: 0 <= i < |s| ==> Safe(s[i])
    requires forall i, j :: 0 <= i < j == i + 1 < |s| ==> s[i] != '-' || s[j] != '-'
    ensures PushAll(s) == s
  {
    if s != "" {
      CleanIsPushed(s[..|s| - 1]);
      assert s == s[..|s| - 1] + [s[|s| - 1]];
    }
  }

  /** The clean segments are just the ones that stay as they are. */
  lemma CleanStays(u: Unicode, s: string)
    requires Valid(u)
    ensures SlugOf(u, s) == s <==> s == "" || Clean(s)
  {
    SlugIsClean(u, s);
    if s == "" || Clean(s) {
      TightIsTrimmed(u.space, s);
      CleanIsLower(u, s);
      CleanIsPushed(s);
      TightIsTrimmed(IsDash, s);
    }
  }

  // ----- a path -----

  function Split(s: string): (parts: seq<string>)
    ensures parts != []
  {
    if s == "" then [""]
    else
      var rest := Split(s[1..]);
      if s[0] == '/' then [""] + rest else [[s[0]] + rest[0]] + rest[1..]
  }

  function Join(parts: seq<string>): string {
    if |parts| == 0 then "" else if |parts| == 1 then parts[0] else parts[0] + "/" + Join(parts[1..])
  }

  predicate NoSlash(s: string) { forall i :: 0 <= i < |s| ==> s[i] != '/' }

  /** Splitting is joining's inverse. */
  lemma {:induction false} SplitIsExact(s: string)
    ensures Join(Split(s)) == s && forall i :: 0 <= i < |Split(s)| ==> NoSlash(Split(s)[i])
  {
    if s != "" {
      SplitIsExact(s[1..]);
      var rest := Split(s[1..]);
      assert s == [s[0]] + s[1..];
      if s[0] == '/' { JoinAfterSlash(rest); } else { JoinLonger(s[0], rest); }
    }
  }

  lemma JoinAfterSlash(rest: seq<string>)
    requires rest != []
    ensures Join([""] + rest) == "/" + Join(rest)
  {
    assert ([""] + rest)[1..] == rest;
    assert "" + "/" + Join(rest) == "/" + Join(rest);
  }

  lemma JoinLonger(c: char, rest: seq<string>)
    requires rest != []
    ensures Join([[c] + rest[0]] + rest[1..]) == [c] + Join(rest)
  {
    var parts := [[c] + rest[0]] + rest[1..];
    assert parts[1..] == rest[1..] && parts[0] == [c] + rest[0];
    if |rest| > 1 {
      assert [c] + rest[0] + "/" + Join(rest[1..]) == [c] + (rest[0] + "/" + Join(rest[1..]));
    }
  }

  lemma {:induction false} SplitWord(w: string, s: string)
    requires NoSlash(w)
    ensures Split(w + "/" + s) == [w] + Split(s) && Split(w) == [w]
  {
    var t := w + "/" + s;
    if w == "" {
      assert t[0] == '/' && t[1..] == s;
    } else {
      assert t[1..] == w[1..] + "/" + s;
      SplitWord(w[1..], s);
      assert [w[0]] + w[1..] == w;
    }
  }

  lemma {:induction false} SplitJoined(parts: seq<string>)
    requires parts != [] && forall i :: 0 <= i < |parts| ==> NoSlash(parts[i])
    ensures Split(Join(parts)) == parts
  {
    if |parts| == 1 {
      SplitWord(parts[0], "");
    } else {
      SplitJoined(parts[1..]);
      SplitWord(parts[0], Join(parts[1..]));
      assert parts == [parts[0]] + parts[1..];
    }
  }

  /** The parts' slugs, but empty ones. */
  function Slugs(u: Unicode, parts: seq<string>): seq<string> {
    FilterMap(part => if SlugOf(u, part) == "" then None else Some(SlugOf(u, part)), parts)
  }

  predicate IsSlash(c: char) { c == '/' }

  /** `path`, unless there's nothing to it, or the channel's name. */
  function Wanted(u: Unicode, path: Option<string>, name: string): string {
    if path.Some? && Trim(IsSlash, Trim(u.space, path.value)) != "" then Trim(u.space, path.value) else name
  }

  function MountPath(u: Unicode, path: Option<string>, name: string): string {
    var segments := Slugs(u, Split(Wanted(u, path, name)));
    if segments == [] then "/channel" else "/" + Join(segments)
  }

  predicate AreClean(segments: seq<string>) { forall i :: 0 <= i < |segments| ==> Clean(segments[i]) }

  /** A URL-safe path: clean segments, each after a slash. */
  ghost predicate IsMount(p: string) {
    exists segments :: segments != [] && AreClean(segments) && p == "/" + Join(segments)
  }

  lemma SlugsAreClean(u: Unicode, parts: seq<string>)
    requires Valid(u)
    ensures AreClean(Slugs(u, parts))
  {
    var slugs := Slugs(u, parts);
    forall k | 0 <= k < |slugs| ensures Clean(slugs[k]) {
      assert slugs[k] in slugs;
      var i :| 0 <= i < |parts| && SlugOf(u, parts[i]) == slugs[k] != "";
      SlugIsClean(u, parts[i]);
    }
  }

  lemma {:induction false} CleanSlugsStay(u: Unicode, segments: seq<string>)
    requires Valid(u) && AreClean(segments)
    ensures Slugs(u, segments) == segments
  {
    if segments != [] {
      CleanSlugsStay(u, segments[1..]);
      CleanStays(u, segments[0]);
    }
  }

  /** Whatever is asked for is served at a URL-safe path. */
  lemma MountPathIsSafe(u: Unicode, path: Option<string>, name: string)
    requires Valid(u)
    ensures IsMount(MountPath(u, path, name))
  {
    var segments := Slugs(u, Split(Wanted(u, path, name)));
    SlugsAreClean(u, Split(Wanted(u, path, name)));
    if segments == [] {
      assert Clean("channel");
      assert AreClean(["channel"]) && "/channel" == "/" + Join(["channel"]);
    }
  }

  lemma {:induction false} JoinEnds(segments: seq<string>)
    requires segments != [] && AreClean(segments)
    ensures Join(segments) != "" && Safe(Join(segments)[|Join(segments)| - 1])
  {
    if |segments| > 1 { JoinEnds(segments[1..]); }
  }

  /** The URL-safe paths are just the ones that stay as they are, whatever the channel is called. */
  lemma SafeStays(u: Unicode, p: string, name: string)
    requires Valid(u)
    ensures MountPath(u, Some(p), name) == p <==> IsMount(p)
  {
    MountPathIsSafe(u, Some(p), name);
    if IsMount(p) {
      var segments :| segments != [] && AreClean(segments) && p == "/" + Join(segments);
      MountOfSafe(u, segments, name);
    }
  }

  lemma MountOfSafe(u: Unicode, segments: seq<string>, name: string)
    requires Valid(u) && segments != [] && AreClean(segments)
    ensures MountPath(u, Some("/" + Join(segments)), name) == "/" + Join(segments)
  {
    var p := "/" + Join(segments);
    JoinEnds(segments);
    assert Safe(p[|p| - 1]);
    TightIsTrimmed(u.space, p);
    assert Trim(IsSlash, p) != "" by { var i, j := TrimCuts(IsSlash, p); }
    assert Wanted(u, Some(p), name) == p;
    SplitWord("", Join(segments));
    assert "" + "/" + Join(segments) == p;
    SplitJoined(segments);
    CleanStays(u, "");
    CleanSlugsStay(u, segments);
    assert ([""] + segments)[1..] == segments;
  }

  /** A path asked for again stays the same, under any other name too. */
  lemma MountPathIsIdempotent(u: Unicode, path: Option<string>, name: string, other: string)
    requires Valid(u)
    ensures MountPath(u, Some(MountPath(u, path, name)), other) == MountPath(u, path, name)
  {
    MountPathIsSafe(u, path, name);
    SafeStays(u, MountPath(u, path, name), other);
  }

  // ----- what outputs send -----

  datatype OutputConfig =
    | Ndi(ndiName: Option<string>)
    | Srt(url: string, latencyMs: nat, bitrateKbps: nat, passphrase: Option<string>)
    | Rtsp(path: Option<string>, bitrateKbps: nat)
    | Whep(path: Option<string>, bitrateKbps: nat)
    | Decklink(device: string, mode: Option<string>)
    | Display(display: string, audioDevice: Option<string>, idle: string)

  function NdiNameOr(u: Unicode, ndiName: Option<string>, name: string): string {
    if ndiName.Some? && Trim(u.space, ndiName.value) != "" then Trim(u.space, ndiName.value) else name
  }

  /** The configuration with what defaults to the channel's name filled in. */
  function Identity(u: Unicode, config: OutputConfig, name: string): OutputConfig {
    match config
    case Ndi(ndiName) => Ndi(Some(NdiNameOr(u, ndiName, name)))
    case Rtsp(path, bitrate) => Rtsp(Some(MountPath(u, path, name)), bitrate)
    case Whep(path, bitrate) => Whep(Some(MountPath(u, path, name)), bitrate)
    case _ => config
  }

  /** An output called something of its own, whatever the channel is called. */
  predicate OwnName(u: Unicode, config: OutputConfig) {
    match config
    case Ndi(ndiName) => ndiName.Some? && Trim(u.space, ndiName.value) != ""
    case Rtsp(path, _) => path.Some? && Trim(IsSlash, Trim(u.space, path.value)) != ""
    case Whep(path, _) => path.Some? && Trim(IsSlash, Trim(u.space, path.value)) != ""
    case _ => true
  }

  /** Filling in again changes nothing under any name, exactly if an NDI output with
      no name of its own got a name with nothing to trim. */
  lemma IdentityIsIdempotentWhen(u: Unicode, config: OutputConfig, a: string)
    requires Valid(u)
    ensures (forall b :: Identity(u, Identity(u, config, a), b) == Identity(u, config, a)) <==>
            (config.Ndi? && !OwnName(u, config) ==> a != "" && Trim(u.space, a) == a)
  {
    match config {
      case Ndi(ndiName) =>
        var n := NdiNameOr(u, ndiName, a);
        if ndiName.Some? { TightIsTrimmed(u.space, ndiName.value); }
        TightIsTrimmed(u.space, Trim(u.space, if ndiName.Some? then ndiName.value else ""));
        forall b
          ensures NdiNameOr(u, Some(n), b) == n <==> (if Trim(u.space, n) != "" then Trim(u.space, n) == n else n == b)
        { }
        if Trim(u.space, n) == "" {
          assert NdiNameOr(u, Some(n), n + "x") != n;
          assert Identity(u, Identity(u, config, a), n + "x") != Identity(u, config, a);
        } else {
          assert NdiNameOr(u, Some(n), a) == n <==> Trim(u.space, n) == n;
          assert Identity(u, Identity(u, config, a), a) == Identity(u, config, a) <==> Trim(u.space, n) == n;
        }
      case Rtsp(path, bitrate) =>
        forall b { MountPathIsIdempotent(u, path, a, b); }
      case Whep(path, bitrate) =>
        forall b { MountPathIsIdempotent(u, path, a, b); }
      case _ =>
    }
  }

  /** A rename changes an output's identity exactly if it's named after the channel
      and the two names come to something else. */
  lemma RenameChangesWhen(u: Unicode, config: OutputConfig, a: string, b: string)
    ensures Identity(u, config, a) != Identity(u, config, b) <==>
            && !OwnName(u, config)
            && (if config.Ndi? then a != b else MountPath(u, None, a) != MountPath(u, None, b))
  {
  }

  // ----- what they come to -----

  /** The name an NDI output is seen by: its own, trimmed, or the channel's if there's nothing to that. */
  predicate IsNdiName(u: Unicode, ndiName: Option<string>, name: string, shown: string) {
    if ndiName.Some? && exists i :: 0 <= i < |ndiName.value| && !u.space(ndiName.value[i])
    then shown == Trim(u.space, ndiName.value)
    else shown == name
  }

  /** Two outputs have one identity exactly if they're the same thing: of one kind, with the same
      settings, and for a stream that's called by a name or served at a path, by the same. */
  lemma IdentitiesAgreeWhen(u: Unicode, c: OutputConfig, a: string, d: OutputConfig, b: string)
    ensures Identity(u, c, a) == Identity(u, d, b) <==>
            match (c, d)
            case (Ndi(x), Ndi(y)) => exists shown :: IsNdiName(u, x, a, shown) && IsNdiName(u, y, b, shown)
            case (Rtsp(p, r), Rtsp(q, s)) => r == s && MountPath(u, p, a) == MountPath(u, q, b)
            case (Whep(p, r), Whep(q, s)) => r == s && MountPath(u, p, a) == MountPath(u, q, b)
            case _ => c == d && !c.Ndi? && !c.Rtsp? && !c.Whep?
  {
    match (c, d) {
      case (Ndi(x), Ndi(y)) =>
        NdiNameIs(u, x, a);
        NdiNameIs(u, y, b);
        assert IsNdiName(u, x, a, NdiNameOr(u, x, a));
      case _ =>
    }
  }

  lemma NdiNameIs(u: Unicode, ndiName: Option<string>, name: string)
    ensures forall shown :: IsNdiName(u, ndiName, name, shown) <==> shown == NdiNameOr(u, ndiName, name)
  {
    if ndiName.Some? { SomethingLeft(u.space, ndiName.value); }
  }

  /** Something is left of a text exactly if not all of it is trimmed. */
  lemma SomethingLeft(f: char -> bool, s: string)
    ensures Trim(f, s) != "" <==> exists i :: 0 <= i < |s| && !f(s[i])
  {
    var i, j := TrimCuts(f, s);
    if i < j { assert Trim(f, s)[0] == s[i]; }
  }

  /** A path that was asked for is used, whatever the channel is called, if there's more to it than
      slashes; and if not the channel's name is. */
  lemma PathIsOf(u: Unicode, path: Option<string>, a: string, b: string)
    ensures (path.Some? && exists i :: 0 <= i < |Trim(u.space, path.value)| && Trim(u.space, path.value)[i] != '/') ==>
              MountPath(u, path, a) == MountPath(u, path, b) == MountPath(u, None, Trim(u.space, path.value))
    ensures !(path.Some? && exists i :: 0 <= i < |Trim(u.space, path.value)| && Trim(u.space, path.value)[i] != '/') ==>
              MountPath(u, path, a) == MountPath(u, None, a)
  {
    if path.Some? { SomethingLeft(IsSlash, Trim(u.space, path.value)); }
  }

  /** A channel's name is its path if it's made of safe segments, and a name with nothing to keep
      comes to "/channel"; any other by its segments' words, as slugs, in their order, but for empty ones. */
  lemma NameIsItsPath(u: Unicode, name: string, segments: seq<string>)
    requires Valid(u) && segments != [] && AreClean(segments) && name == Join(segments)
    ensures MountPath(u, None, name) == "/" + name
  {
    CleanHasNoSlash(segments);
    SplitJoined(segments);
    CleanSlugsStay(u, segments);
  }

  lemma CleanHasNoSlash(segments: seq<string>)
    requires AreClean(segments)
    ensures forall i :: 0 <= i < |segments| ==> NoSlash(segments[i])
  {
  }

  lemma NothingIsChannel(u: Unicode, name: string)
    requires forall i :: 0 <= i < |Split(name)| ==> Words(LowerAll(u, Trim(u.space, Split(name)[i]))) == []
    ensures MountPath(u, None, name) == "/channel"
  {
    forall i | 0 <= i < |Split(name)| ensures SlugOf(u, Split(name)[i]) == "" { SlugIsWords(u, Split(name)[i]); }
    FilterMapNone(part => if SlugOf(u, part) == "" then None else Some(SlugOf(u, part)), Split(name));
  }

  /** The characters of a path that stay as they are: digits, lower-case letters and three more. */
  lemma SafeCharacters(c: char)
    ensures Safe(c) <==> c in {'-', '_', '.'} || c in {'0', '1', '2', '3', '4', '5', '6', '7', '8', '9'}
                         || c in {'a', 'b', 'c', 'd', 'e', 'f', 'g', 'h', 'i', 'j', 'k', 'l', 'm'}
                         || c in {'n', 'o', 'p', 'q', 'r', 's', 't', 'u', 'v', 'w', 'x', 'y', 'z'}
    ensures Kept(c) <==> (Safe(c) && c != '-')
                         || c in {'A', 'B', 'C', 'D', 'E', 'F', 'G', 'H', 'I', 'J', 'K', 'L', 'M'}
                         || c in {'N', 'O', 'P', 'Q', 'R', 'S', 'T', 'U', 'V', 'W', 'X', 'Y', 'Z'}
  {
  }
}
