/** Moving an app's files by renaming them one at a time: all or nothing, on a file
    system where any operation may fail. */
module MoveFiles {
  import opened Wrappers

  type Path = seq<string>

  type Files = map<Path, string>

  /** A folder isn't a file: no file's path continues another's. */
  ghost predicate Tree(files: Files) {
    forall p, q :: p in files && q in files ==> !(p < q)
  }

  /** The files in a folder, at any depth. */
  function Under(files: Files, dir: Path): set<Path> { set p | p in files && dir < p }

  function Dest(from: Path, to: Path, p: Path): Path
    requires from <= p
  {
    to + p[|from|..]
  }

  function Dests(from: Path, to: Path, s: set<Path>): set<Path>
    requires forall p :: p in s ==> from <= p
  {
    set p | p in s :: Dest(from, to, p)
  }

  ghost predicate Apart(a: Path, b: Path) { !(a <= b) && !(b <= a) }

  /** Files once `moved` are at their destinations, and what was at the destinations in `lost` is gone. */
  ghost function Shape(files: Files, from: Path, to: Path, moved: set<Path>, lost: set<Path>): Files
    requires moved <= Under(files, from) && lost <= Under(files, from)
  {
    map q | q in (files.Keys - moved - Dests(from, to, lost)) + Dests(from, to, moved) ::
      if q in Dests(from, to, moved) then (SourceOf(files, from, to, moved, q); files[from + q[|to|..]]) else files[q]
  }

  lemma SourceOf(files: Files, from: Path, to: Path, moved: set<Path>, q: Path)
    requires moved <= Under(files, from) && q in Dests(from, to, moved)
    ensures to <= q && from + q[|to|..] in moved
  {
    var p :| p in moved && q == Dest(from, to, p);
    assert from + q[|to|..] == p;
  }

  lemma Continues(a: Path, b: Path, c: Path)
    ensures a <= b <= c ==> a <= c
  {
    if a <= b <= c { assert a == b[..|a|] == c[..|b|][..|a|]; }
  }

  lemma DestIsElsewhere(from: Path, to: Path, p: Path)
    requires Apart(from, to) && from <= p
    ensures to <= Dest(from, to, p) && !(from <= Dest(from, to, p)) && !(to <= p)
    ensures from + Dest(from, to, p)[|to|..] == p && Apart(p, Dest(from, to, p))
  {
    var d := Dest(from, to, p);
    Continues(from, p, d);
    Continues(to, d, p);
    if from <= d { Comparable(from, to, d); }
    if to <= p { Comparable(from, to, p); }
  }

  /** Two folders a path is in are one in the other. */
  lemma Comparable(a: Path, b: Path, p: Path)
    requires a <= p && b <= p
    ensures a <= b || b <= a
  {
    if |a| <= |b| { assert a == p[..|a|] == b[..|a|]; } else { assert b == p[..|b|] == a[..|b|]; }
  }

  /** Another file to its destination. */
  lemma ShapeForward(files: Files, from: Path, to: Path, moved: set<Path>, p: Path)
    requires Apart(from, to) && moved <= Under(files, from) && p in Under(files, from) - moved
    ensures var now := Shape(files, from, to, moved, moved);
            && p in now
            && (now - {p})[Dest(from, to, p) := now[p]] == Shape(files, from, to, moved + {p}, moved + {p})
  {
    var now, later := Shape(files, from, to, moved, moved), Shape(files, from, to, moved + {p}, moved + {p});
    var d := Dest(from, to, p);
    forall r | r in moved + {p} { DestIsElsewhere(from, to, r); }
    assert Dests(from, to, moved + {p}) == Dests(from, to, moved) + {d};
    assert (now - {p})[d := now[p]].Keys == later.Keys;
  }

  /** A moved file back to its place. */
  lemma ShapeBack(files: Files, from: Path, to: Path, moved: set<Path>, lost: set<Path>, p: Path)
    requires Apart(from, to) && moved <= lost <= Under(files, from) && p in moved
    ensures var now := Shape(files, from, to, moved, lost);
            && Dest(from, to, p) in now
            && (now - {Dest(from, to, p)})[p := now[Dest(from, to, p)]] == Shape(files, from, to, moved - {p}, lost)
  {
    var now, later := Shape(files, from, to, moved, lost), Shape(files, from, to, moved - {p}, lost);
    var d := Dest(from, to, p);
    forall r | r in lost { DestIsElsewhere(from, to, r); }
    assert Dests(from, to, moved) == Dests(from, to, moved - {p}) + {d};
    assert d !in Dests(from, to, moved - {p});
    assert (now - {d})[p := now[d]].Keys == later.Keys;
  }

  // ----- the file system -----

  class FileSystem {
    var files: Files
    /** Operations done, and which of them the system fails. */
    var ops: nat
    const fails: nat -> bool

    /** Whether something's in the way of a file at `p`: a folder there, or a file where a folder must be. */
    ghost predicate InTheWay(p: Path, but: Path)
      reads this
    {
      exists q :: q in files && q != but && (q < p || p < q)
    }

    /** `create_dir_all` for the destination's folder, then `rename`, replacing what's there. */
    method Rename(p: Path, d: Path) returns (ok: bool)
      requires Tree(files) && !(p <= d) && !(d <= p)
      modifies this`files, this`ops
      ensures ops == old(ops) + 1 && Tree(files)
      ensures ok <==> !fails(old(ops)) && p in old(files) && !old(InTheWay(d, p))
      ensures files == if ok then (old(files) - {p})[d := old(files)[p]] else old(files)
    {
      ok := !fails(ops) && p in files && !exists q :: q in files && q != p && (q < d || d < q);
      ops := ops + 1;
      if ok { files := (files - {p})[d := files[p]]; }
    }

    /** Every file under `dir`, in whatever order folders list what they hold. */
    method FilesIn(dir: Path, ghost depth: nat) returns (ok: bool, list: seq<Path>)
      requires Tree(files) && |dir| <= depth && forall p :: p in files ==> |p| <= depth
      modifies this`ops
      ensures ops > old(ops)
      ensures ok <==> forall i :: old(ops) <= i < ops ==> !fails(i)
      ensures ok ==> Lists(list, Under(files, dir))
      decreases depth - |dir|
    {
      list := [];
      ok := !fails(ops);
      ops := ops + 1;
      if !ok { return; }
      var left := Names(files, dir);
      ghost var done: set<string> := {};
      while left != {}
        invariant left == Names(files, dir) - done
        invariant ops > old(ops) && forall i :: old(ops) <= i < ops ==> !fails(i)
        invariant Lists(list, Entries(files, dir, done))
        decreases left
      {
        var name :| name in left;
        var entry := dir + [name];
        var found: seq<Path>;
        if entry in files {
          found := [entry];
          OneFile(files, dir, name);
        } else {
          ok, found := FilesIn(entry, depth);
          if !ok { return; }
        }
        EntriesGrow(files, dir, done, name);
        ListsJoin(list, Entries(files, dir, done), found, Entries(files, dir, {name}));
        list := list + found;
        left, done := left - {name}, done + {name};
      }
      forall p | p in Under(files, dir) ensures p in Entries(files, dir, done) {
        assert p[|dir|] in Names(files, dir);
      }
      assert Entries(files, dir, done) == Under(files, dir);
    }

    /** List, then rename one by one; at the first failure rename back what was renamed, whatever fails then. */
    method MoveFiles(from: Path, to: Path) returns (ok: bool, ghost failedAt: nat)
      requires Tree(files) && Apart(from, to)
      modifies this`files, this`ops
      ensures Tree(files) && old(ops) < ops
      ensures ok ==> files == AllMoved(old(files), from, to)
      ensures ok ==> forall i :: old(ops) <= i < ops ==> !fails(i)
      ensures !ok ==> old(ops) <= failedAt < ops
      ensures !ok && (forall i :: failedAt < i < ops ==> !fails(i)) ==>
                exists moved :: moved <= Under(old(files), from) && files == Shape(old(files), from, to, {}, moved)
      ensures !ok && (forall i :: failedAt < i < ops ==> !fails(i)) && Under(old(files), to) == {} ==>
                files == old(files)
      ensures Clear(old(files), from, to) && (forall i :: old(ops) <= i < ops ==> !fails(i)) ==> ok
    {
      hide Shape, Tree, Clear, Depth, Elements, Under, Lists;
      ghost var before := files;
      ghost var depth := Depth(files) + |from|;
      var list: seq<Path>;
      ok, list := FilesIn(from, depth);
      failedAt := ops - 1;
      if !ok {
        ShapeOfNothing(before, from, to);
        return;
      }
      ShapeOfNothing(before, from, to);
      AllElements(list, Under(before, from));
      var i := 0;
      while i < |list|
        invariant 0 <= i <= |list| && Tree(files)
        invariant Lists(list, Under(before, from)) && Elements(list[..i]) <= Under(before, from)
        invariant files == Shape(before, from, to, Elements(list[..i]), Elements(list[..i]))
        invariant old(ops) < ops && forall k :: old(ops) <= k < ops ==> !fails(k)
      {
        var p := list[i];
        NextElement(list, Under(before, from), i);
        InUnder(before, from, p);
        DestIsElsewhere(from, to, p);
        ShapeForward(before, from, to, Elements(list[..i]), p);
        if Clear(before, from, to) { WayThereIsClear(before, from, to, Elements(list[..i]), p); }
        ok := Rename(p, to + p[|from|..]);
        if !ok {
          failedAt := ops - 1;
          MoveBack(before, from, to, list, i, failedAt);
          if Under(before, to) == {} { NothingLost(before, from, to, Elements(list[..i])); }
          return;
        }
        i := i + 1;
      }
    }

    method MoveBack(ghost before: Files, from: Path, to: Path, list: seq<Path>, n: nat, ghost failedAt: nat)
      requires Tree(files) && Tree(before) && Apart(from, to) && n <= |list| && failedAt < ops
      requires Lists(list, Under(before, from)) && Elements(list[..n]) <= Under(before, from)
      requires files == Shape(before, from, to, Elements(list[..n]), Elements(list[..n]))
      requires forall i :: failedAt < i < ops ==> !fails(i)
      modifies this`files, this`ops
      ensures Tree(files) && old(ops) <= ops
      ensures (forall i :: failedAt < i < ops ==> !fails(i)) ==>
                files == Shape(before, from, to, {}, Elements(list[..n]))
    {
      hide Shape, Tree;
      var j := n;
      ghost var lost := Elements(list[..n]);
      while j > 0
        invariant 0 <= j <= n && Tree(files) && old(ops) <= ops
        invariant Elements(list[..j]) <= lost
        invariant (forall i :: failedAt < i < ops ==> !fails(i)) ==>
                    files == Shape(before, from, to, Elements(list[..j]), lost)
      {
        j := j - 1;
        var p := list[j];
        NextElement(list, Under(before, from), j);
        assert p in lost;
        DestIsElsewhere(from, to, p);
        if forall i :: failedAt < i < ops ==> !fails(i) {
          ShapeBack(before, from, to, Elements(list[..j + 1]), lost, p);
          WayBackIsClear(before, from, to, Elements(list[..j + 1]), lost, p);
          assert Elements(list[..j + 1]) - {p} == Elements(list[..j]);
          assert p in Elements(list[..j + 1]);
        }
        var _ := Rename(to + p[|from|..], p);
      }
      assert Elements(list[..j]) == {};
    }

    /** The update on Windows: the app's files aside, the new ones in; if that fails,
        the old ones back. However it fails, if nothing fails after that too, every
        file is as it was. */
    method Swap(app: Path, update: Path, backup: Path) returns (ok: bool, ghost failedAt: nat)
      requires Tree(files) && Apart(app, update) && Apart(app, backup) && Apart(update, backup)
      requires Under(files, backup) == {}
      modifies this`files, this`ops
      ensures Tree(files)
      ensures ok ==> files == AllMoved(AllMoved(old(files), app, backup), update, app)
      ensures !ok ==> old(ops) <= failedAt < ops
      ensures !ok && (forall i :: failedAt < i < ops ==> !fails(i)) ==> files == old(files)
      ensures (&& Clear(old(files), app, backup) && Clear(AllMoved(old(files), app, backup), update, app)
               && forall i :: old(ops) <= i < ops ==> !fails(i)) ==> ok
    {
      ghost var before := files;
      ok, failedAt := MoveFiles(app, backup);
      if !ok { return; }
      ghost var aside := files;
      NothingLeft(before, app, backup);
      ok, failedAt := MoveFiles(update, app);
      if !ok {
        ghost var now := ops;
        var _, _ := MoveFiles(backup, app);
        if forall i :: failedAt < i < ops ==> !fails(i) {
          assert forall i :: failedAt < i < now ==> !fails(i);
          MoveBackUndoes(before, app, backup);
          WayBackStaysClear(before, app, backup);
        }
      }
    }
  }

  /** What's been moved: all of it. */
  ghost function AllMoved(files: Files, from: Path, to: Path): Files {
    Shape(files, from, to, Under(files, from), Under(files, from))
  }

  /** Nothing's at the destination, nor a file where its folder must be. */
  ghost predicate Clear(files: Files, from: Path, to: Path) {
    Under(files, from) != {} ==> Under(files, to) == {} && forall q :: q in files ==> !(q <= to)
  }

  /** With the app's files aside nothing is in the way of the update's, if the app has any. */
  lemma WayInIsClear(files: Files, app: Path, update: Path, backup: Path)
    requires Tree(files) && Apart(app, backup) && Clear(files, app, backup) && Under(files, app) != {}
    ensures Clear(AllMoved(files, app, backup), update, app)
  {
    var aside := AllMoved(files, app, backup);
    var p :| p in Under(files, app);
    forall q | q in aside ensures !(app < q) && !(q <= app) {
      if q in Dests(app, backup, Under(files, app)) {
        var r :| r in Under(files, app) && q == Dest(app, backup, r);
        DestIsElsewhere(app, backup, r);
        assert q <= app ==> backup <= app;
      } else {
        assert q in files && q !in Under(files, app);
        assert q <= app ==> q < p;
      }
    }
  }

  lemma WayThereIsClear(files: Files, from: Path, to: Path, moved: set<Path>, p: Path)
    requires Tree(files) && Apart(from, to) && Clear(files, from, to)
    requires moved <= Under(files, from) && p in Under(files, from)
    ensures var d := Dest(from, to, p);
            forall q :: q in Shape(files, from, to, moved, moved) && q != p ==> !(q < d) && !(d < q)
  {
    var d := Dest(from, to, p);
    DestIsElsewhere(from, to, p);
    forall q | q in Shape(files, from, to, moved, moved) && q != p
      ensures !(q < d) && !(d < q)
    {
      if q in Dests(from, to, moved) {
        var r :| r in moved && q == Dest(from, to, r);
        SamePrefix(from, to, r, p);
        SamePrefix(from, to, p, r);
      } else {
        assert q !in Under(files, to);
        BesideOrAlong(to, d, q);
      }
    }
  }

  /** What's along the way to a path in a folder is on the way to the folder, or in it. */
  lemma BesideOrAlong(to: Path, d: Path, q: Path)
    requires to <= d
    ensures q < d || d < q ==> q <= to || to < q
  {
    if |q| <= |to| {
      assert q < d ==> q == d[..|q|] == to[..|q|];
    } else {
      assert q < d ==> to == d[..|to|] == q[..|to|];
    }
    Continues(to, d, q);
  }

  lemma SamePrefix(from: Path, to: Path, p: Path, r: Path)
    requires from <= p && from <= r
    ensures Dest(from, to, p) < Dest(from, to, r) ==> p < r
  {
    var d, e := Dest(from, to, p), Dest(from, to, r);
    if d < e {
      assert p == from + d[|to|..] && r == from + e[|to|..];
      assert d == e[..|d|];
    }
  }

  /** With nothing at the destination to begin with, nothing's lost. */
  lemma NothingLost(files: Files, from: Path, to: Path, lost: set<Path>)
    requires Apart(from, to) && lost <= Under(files, from) && Under(files, to) == {}
    ensures Shape(files, from, to, {}, lost) == files
  {
    forall p | p in lost ensures Dest(from, to, p) !in files {
      assert Dest(from, to, p) !in Under(files, to);
    }
  }

  /** A move that failed and was rolled back leaves everything as it was exactly if
      it had replaced nothing. */
  lemma RollbackIsExactWhen(files: Files, from: Path, to: Path, lost: set<Path>)
    requires Apart(from, to) && lost <= Under(files, from)
    ensures Shape(files, from, to, {}, lost) == files <==> forall p :: p in lost ==> Dest(from, to, p) !in files
  {
    if p :| p in lost && Dest(from, to, p) in files {
      assert Dest(from, to, p) in Dests(from, to, lost);
      assert Dest(from, to, p) !in Shape(files, from, to, {}, lost);
    }
  }

  lemma NothingLeft(files: Files, from: Path, to: Path)
    requires Apart(from, to)
    ensures Under(AllMoved(files, from, to), from) == {}
  {
    forall p | p in Under(files, from) { DestIsElsewhere(from, to, p); }
  }

  /** Every file moved to its place, with what it held; it's gone from where it was, and nothing else changed. */
  lemma AllMovedMeans(files: Files, from: Path, to: Path)
    requires Apart(from, to)
    ensures var after := AllMoved(files, from, to);
            && (forall p :: p in Under(files, from) ==>
                  p !in after && Dest(from, to, p) in after && after[Dest(from, to, p)] == files[p])
            && (forall q :: q in files && !(from < q) && !(to < q) ==> q in after && after[q] == files[q])
  {
    forall p | p in Under(files, from) { DestIsElsewhere(from, to, p); }
  }

  /** No two files move to the same place. */
  lemma {:induction false} SameCount(from: Path, to: Path, s: set<Path>)
    requires forall p :: p in s ==> from <= p
    ensures |Dests(from, to, s)| == |s|
  {
    if s != {} {
      var p :| p in s;
      var rest := s - {p};
      SameCount(from, to, rest);
      DestsOfMore(from, to, rest, p);
      assert s == rest + {p};
    }
  }

  lemma DestsOfMore(from: Path, to: Path, s: set<Path>, p: Path)
    requires p !in s && from <= p && forall r :: r in s ==> from <= r
    ensures Dests(from, to, s + {p}) == Dests(from, to, s) + {Dest(from, to, p)}
    ensures Dest(from, to, p) !in Dests(from, to, s)
  {
    hide Dest;
    forall r | r in s && Dest(from, to, r) == Dest(from, to, p) ensures false { DestIsItsOwn(from, to, p, r); }
  }

  lemma DestIsItsOwn(from: Path, to: Path, p: Path, r: Path)
    requires from <= p && from <= r && Dest(from, to, p) == Dest(from, to, r)
    ensures p == r
  {
    assert Dest(from, to, p)[|to|..] == p[|from|..] && Dest(from, to, r)[|to|..] == r[|from|..];
    assert p == from + p[|from|..] && r == from + r[|from|..];
  }

  lemma UnderAfterMove(files: Files, from: Path, to: Path)
    requires Apart(from, to) && Under(files, to) == {}
    ensures Under(AllMoved(files, from, to), to) == Dests(from, to, Under(files, from))
  {
    forall p | p in Under(files, from) { DestIsElsewhere(from, to, p); }
    forall q | q in Under(AllMoved(files, from, to), to) ensures q in Dests(from, to, Under(files, from)) {
      assert q !in Under(files, to);
    }
  }

  lemma DestsBack(from: Path, to: Path, s: set<Path>)
    requires Apart(from, to) && forall p :: p in s ==> from <= p
    ensures forall q :: q in Dests(from, to, s) ==> to <= q && Dest(to, from, q) in s
    ensures Dests(to, from, Dests(from, to, s)) == s
  {
    forall p | p in s ensures to <= Dest(from, to, p) && Dest(to, from, Dest(from, to, p)) == p {
      DestIsElsewhere(from, to, p);
    }
    forall p | p in s ensures p in Dests(to, from, Dests(from, to, s)) {
      assert Dest(from, to, p) in Dests(from, to, s);
    }
  }

  /** Moving files back undoes moving them. */
  lemma MoveBackUndoes(files: Files, from: Path, to: Path)
    requires Apart(from, to) && Under(files, to) == {}
    ensures AllMoved(AllMoved(files, from, to), to, from) == files
  {
    var there := AllMoved(files, from, to);
    var back := AllMoved(there, to, from);
    UnderAfterMove(files, from, to);
    DestsBack(from, to, Under(files, from));
    forall p | p in Under(files, from) { DestIsElsewhere(from, to, p); }
    assert there.Keys == (files.Keys - Under(files, from)) + Dests(from, to, Under(files, from));
    KeysAfter(there, to, from);
    assert forall q :: q in Dests(from, to, Under(files, from)) ==> q !in files by {
      forall q | q in Dests(from, to, Under(files, from)) ensures q !in files { assert q !in Under(files, to); }
    }
    assert back.Keys == files.Keys;
    forall p | p in files ensures back[p] == files[p] {
      if p in Under(files, from) { assert there[Dest(from, to, p)] == files[p]; }
    }
  }

  lemma KeysAfter(files: Files, from: Path, to: Path)
    ensures AllMoved(files, from, to).Keys
            == (files.Keys - Under(files, from) - Dests(from, to, Under(files, from)))
               + Dests(from, to, Under(files, from))
  {
  }

  /** Nothing's in the way of moving them back. */
  lemma WayBackStaysClear(files: Files, from: Path, to: Path)
    requires Tree(files) && Apart(from, to) && Under(files, to) == {}
    ensures Clear(AllMoved(files, from, to), to, from)
  {
    var there := AllMoved(files, from, to);
    NothingLeft(files, from, to);
    UnderAfterMove(files, from, to);
    forall q | q in there && Under(there, to) != {} ensures !(q <= from) {
      var d :| d in Under(there, to);
      var p :| p in Under(files, from) && d == Dest(from, to, p);
      Continues(q, from, p);
      Continues(to, q, from);
      if q in Dests(from, to, Under(files, from)) {
        var r :| r in Under(files, from) && q == Dest(from, to, r);
        DestIsElsewhere(from, to, r);
      }
    }
  }

  function Elements(list: seq<Path>): set<Path> { set p | p in list }

  lemma AllElements(list: seq<Path>, s: set<Path>)
    requires Lists(list, s)
    ensures Elements(list[..0]) == {} && Elements(list[..|list|]) == s
  {
  }

  lemma InUnder(files: Files, dir: Path, p: Path)
    requires p in Under(files, dir)
    ensures p in files && dir < p
  {
  }

  lemma NextElement(list: seq<Path>, s: set<Path>, i: nat)
    requires i < |list| && Lists(list, s)
    ensures list[i] in s
    ensures Elements(list[..i + 1]) == Elements(list[..i]) + {list[i]} && list[i] !in Elements(list[..i])
  {
    assert list[..i + 1] == list[..i] + [list[i]];
  }

  lemma ShapeOfNothing(files: Files, from: Path, to: Path)
    ensures Shape(files, from, to, {}, {}) == files
  {
  }

  /** Nothing's in the way of a file going back to where it was. */
  lemma WayBackIsClear(files: Files, from: Path, to: Path, moved: set<Path>, lost: set<Path>, p: Path)
    requires Tree(files) && Apart(from, to) && moved <= lost <= Under(files, from) && p in moved
    ensures forall q :: q in Shape(files, from, to, moved, lost) ==> !(q < p) && !(p < q)
  {
    forall q | q in Shape(files, from, to, moved, lost)
      ensures !(q < p) && !(p < q)
    {
      if q in Dests(from, to, moved) {
        var r :| r in moved && q == Dest(from, to, r);
        DestIsElsewhere(from, to, r);
        DestIsElsewhere(from, to, p);
      }
    }
  }

  ghost function Depth(files: Files): (d: nat)
    ensures forall p :: p in files ==> |p| <= d
  {
    if files == map[] then 0
    else
      var p :| p in files;
      var rest := Depth(files - {p});
      assert forall q :: q in files ==> q == p || q in files - {p};
      if |p| > rest then |p| else rest
  }

  /** `list` holds just the paths of `s`, once each. */
  ghost predicate Lists(list: seq<Path>, s: set<Path>) {
    && (forall p :: p in list <==> p in s)
    && (forall i, j :: 0 <= i < j < |list| ==> list[i] != list[j])
  }

  lemma ListsJoin(a: seq<Path>, s: set<Path>, b: seq<Path>, t: set<Path>)
    requires Lists(a, s) && Lists(b, t) && s !! t
    ensures Lists(a + b, s + t)
  {
    var list := a + b;
    forall i, j | 0 <= i < j < |list| ensures list[i] != list[j] {
      if i < |a| <= j { assert list[i] in s && list[j] in t; }
    }
  }

  /** What's directly in a folder. */
  function Names(files: Files, dir: Path): set<string> { set p | p in files && dir < p :: p[|dir|] }

  /** The files of a folder that are in the entries named. */
  function Entries(files: Files, dir: Path, names: set<string>): set<Path> {
    set p | p in files && dir < p && p[|dir|] in names
  }

  lemma OneFile(files: Files, dir: Path, name: string)
    requires Tree(files) && dir + [name] in files
    ensures Entries(files, dir, {name}) == {dir + [name]}
  {
    forall p | p in Entries(files, dir, {name})
      ensures p == dir + [name]
    {
      assert p == dir + p[|dir|..] && dir + [name] <= p;
    }
  }

  lemma EntriesGrow(files: Files, dir: Path, done: set<string>, name: string)
    requires name !in done
    ensures Entries(files, dir, done + {name}) == Entries(files, dir, done) + Entries(files, dir, {name})
    ensures Entries(files, dir, done) !! Entries(files, dir, {name})
    ensures dir + [name] !in files ==> Entries(files, dir, {name}) == Under(files, dir + [name])
  {
    forall p | p in files && dir < p && p[|dir|] == name && p != dir + [name]
      ensures dir + [name] < p
    {
      assert p == dir + p[|dir|..];
    }
  }
}
