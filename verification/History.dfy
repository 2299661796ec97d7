/**
 The durable job history (internal/history/history.go): appending finished jobs
 through the rotating writer, and the reader that walks the live file and the
 archives. JSON is a lossless codec whose encoded length is a parameter.
 */
module History {
  import opened Wrappers
  import opened Jobs
  import opened Files
  import opened Rotate
  import Decimal

  const DEFAULT_LIMIT: nat := 20

  /** A line longer than this, newline included, makes the scanner give up. */
  const MAX_LINE: nat := 4 * 1024 * 1024

  datatype Query = Query(target: string, jobID: string, limit: int)

  function Limit(q: Query): (n: nat)
    ensures n > 0
  {
    if q.limit <= 0 then DEFAULT_LIMIT else q.limit
  }

  predicate Matches(q: Query, line: Line) {
    && line.Entry?
    && (q.target == "" || line.snap.target == q.target)
    && (q.jobID == "" || q.jobID <= line.snap.id)
  }

  // ---------------------------------------------------------------- writing

  /** Append: a job that is still running is skipped. */
  method Append(w: Writer, snap: Snapshot, encoded: nat) returns (ok: bool)
    requires w.Valid()
    modifies w, w.dir
    ensures w.Valid()
    ensures !Terminal(snap.view.state) ==> ok && w.dir.files == old(w.dir.files)
    ensures Terminal(snap.view.state) ==> (!ok <==> !old(w.open) || w.dir.faults > old(w.dir.faults))
    ensures Terminal(snap.view.state) && ok ==> w.Contents() == Added(old(w.Contents()), Entry(encoded + 1, snap), w.maxBytes)
    ensures OthersKept(old(w.dir.files), w.dir.files, w.path, w.keep)
  {
    if !Terminal(snap.view.state) { return true; }
    ok := w.Write(Entry(encoded + 1, snap));
  }

  // ----------------------------------------------------------------- a file

  /** The matching snapshots of a file, oldest first. */
  function Hits(f: File, q: Query): seq<Snapshot> {
    if f == [] then []
    else
      var last := f[|f| - 1];
      Hits(f[..|f| - 1], q) + if Matches(q, last) then [last.snap] else []
  }

  /** The hits of a file are the snapshots of its entries for the target asked for, if any, whose id begins with the one asked for. */
  lemma {:induction false} HitsIff(f: File, q: Query, snap: Snapshot)
    ensures snap in Hits(f, q) <==>
              exists i :: 0 <= i < |f| && f[i].Entry? && f[i].snap == snap
                && (|q.target| == 0 || snap.target == q.target)
                && |q.jobID| <= |snap.id| && snap.id[..|q.jobID|] == q.jobID
  {
    if f != [] {
      var n := |f| - 1;
      HitsIff(f[..n], q, snap);
      assert forall i :: 0 <= i < n ==> f[i] == f[..n][i];
    }
  }

  /** Of a single line it is the snapshot or nothing, so by HitsConcat hits keep the order and the number of their lines. */
  lemma HitsOfOne(line: Line, q: Query)
    ensures Hits([line], q) ==
              if line.Entry? && (|q.target| == 0 || line.snap.target == q.target)
                 && |q.jobID| <= |line.snap.id| && line.snap.id[..|q.jobID|] == q.jobID
              then [line.snap] else []
  {
    assert [line][..0] == [];
  }

  /** However far the id of a job is shortened, asking for it finds the job. */
  lemma ShortenedIdIsHit(f: File, i: nat, n: nat, limit: int)
    requires i < |f| && f[i].Entry? && n <= |f[i].snap.id|
    ensures f[i].snap in Hits(f, Query("", f[i].snap.id[..n], limit))
  {
    HitsIff(f, Query("", f[i].snap.id[..n], limit), f[i].snap);
  }

  predicate Oversized(f: File) {
    exists i :: 0 <= i < |f| && f[i].size > MAX_LINE
  }

  /** A file as it is opened: None if it is there and cannot be. A file that is not there is empty. */
  type Source = Option<File>

  predicate Unreadable(source: Source) {
    source.None? || Oversized(source.value)
  }

  method ReadFile(source: Source, q: Query) returns (found: seq<Snapshot>, failed: bool)
    ensures failed <==> Unreadable(source)
    ensures !failed ==> found == Hits(source.value, q)
  {
    found := [];
    if source.None? { return found, true; }
    var f := source.value;
    for i := 0 to |f|
      invariant found == Hits(f[..i], q)
      invariant forall k :: 0 <= k < i ==> f[k].size <= MAX_LINE
    {
      assert f[..i + 1][..i] == f[..i];
      if f[i].size > MAX_LINE { return found, true; }
      match f[i]
      case Junk(_) =>
      case Entry(_, snap) =>
        if q.target != "" && snap.target != q.target { continue; }
        if q.jobID != "" && !(q.jobID <= snap.id) { continue; }
        found := found + [snap];
    }
    assert f[..|f|] == f;
    failed := false;
  }

  // ------------------------------------------------------------ the listing

  /** The named files as they are opened; `locked` are those that cannot be. */
  function Sources(files: Names, locked: set<string>, names: seq<string>): seq<Source> {
    seq(|names|, i requires 0 <= i < |names| =>
      if names[i] in files && names[i] in locked then None else Some(Get(files, names[i])))
  }

  /** A named file that is locked does not open; any other is what is there, or empty. */
  lemma SourceIs(files: Names, locked: set<string>, names: seq<string>, i: nat)
    requires i < |names|
    ensures
      var source := Sources(files, locked, names)[i];
      && (source == None <==> names[i] in files && names[i] in locked)
      && (names[i] in files && names[i] !in locked ==> source == Some(files[names[i]]))
      && (names[i] !in files ==> source == Some([]))
  {
  }

  function Opened(files: seq<File>): seq<Source> {
    seq(|files|, i requires 0 <= i < |files| => Some(files[i]))
  }

  function NamesAt(files: Names, names: seq<string>): seq<File> {
    seq(|names|, i requires 0 <= i < |names| => Get(files, names[i]))
  }

  /** Distinct names in ascending archive index. */
  ghost predicate Ascending(names: seq<string>, path: string) {
    forall i, k :: 0 <= i < k < |names| ==> names[i] != names[k] && IndexOf(names[i], path) <= IndexOf(names[k], path)
  }

  /** A listing of the globbed names, newest archive first. */
  ghost predicate Listing(files: Names, path: string, names: seq<string>) {
    && (forall name :: name in names <==> name in files && Globbed(name, path))
    && Ascending(names, path)
  }

  method ArchiveIndex(name: string, path: string) returns (n: nat)
    ensures n == IndexOf(name, path)
  {
    var trimmed := TrimSuffix(TrimPrefix(name, path + "."), ".gz");
    n := 0;
    for i := 0 to |trimmed|
      invariant Decimal.AllDigits(trimmed[..i]) && n == Decimal.Value(trimmed[..i])
    {
      if trimmed[i] < '0' || trimmed[i] > '9' {
        return FOREIGN_INDEX;
      }
      assert trimmed[..i + 1][..i] == trimmed[..i];
      n := n * 10 + Decimal.DigitValue(trimmed[i]);
    }
    assert trimmed[..|trimmed|] == trimmed;
  }

  /** The archives newest first; the order of equal indexes is left open. */
  method SortedArchives(files: Names, path: string) returns (names: seq<string>)
    ensures Listing(files, path, names)
  {
    var left := set name | name in files && Globbed(name, path);
    names := [];
    ghost var all := left;
    while left != {}
      invariant Split(all, names, left) && Ascending(names, path) && AllBelow(names, left, path)
      decreases left
    {
      var least := Smallest(left, path);
      SplitSnoc(all, names, left, least, path);
      AscendingSnoc(names, least, path);
      names := names + [least];
      left := left - {least};
    }
  }

  /** What is listed and what is left make up all. */
  ghost predicate Split(all: set<string>, names: seq<string>, left: set<string>) {
    && (forall name :: name in all <==> name in left || name in names)
    && (forall name :: name in names ==> name !in left)
  }

  ghost predicate AllBelow(names: seq<string>, left: set<string>, path: string) {
    forall i, name :: 0 <= i < |names| && name in left ==> IndexOf(names[i], path) <= IndexOf(name, path)
  }

  lemma SplitSnoc(all: set<string>, names: seq<string>, left: set<string>, least: string, path: string)
    requires Split(all, names, left) && AllBelow(names, left, path) && least in left
    requires forall name :: name in left ==> IndexOf(least, path) <= IndexOf(name, path)
    ensures Split(all, names + [least], left - {least}) && AllBelow(names + [least], left - {least}, path)
    ensures least !in names && forall i :: 0 <= i < |names| ==> IndexOf(names[i], path) <= IndexOf(least, path)
  {
  }

  lemma AscendingSnoc(names: seq<string>, least: string, path: string)
    requires Ascending(names, path) && least !in names
    requires forall i :: 0 <= i < |names| ==> IndexOf(names[i], path) <= IndexOf(least, path)
    ensures Ascending(names + [least], path)
  {
  }

  method Smallest(names: set<string>, path: string) returns (least: string)
    requires names != {}
    ensures least in names && forall name :: name in names ==> IndexOf(least, path) <= IndexOf(name, path)
  {
    var left := names;
    least :| least in left;
    left := left - {least};
    var best := ArchiveIndex(least, path);
    while left != {}
      invariant left <= names && least in names && best == IndexOf(least, path)
      invariant forall name :: name in names && name !in left ==> best <= IndexOf(name, path)
    {
      var name :| name in left;
      left := left - {name};
      var n := ArchiveIndex(name, path);
      if n < best { least, best := name, n; }
    }
  }

  // ---------------------------------------------------------------- reading

  function Reverse<T>(s: seq<T>): seq<T> {
    if s == [] then [] else [s[|s| - 1]] + Reverse(s[..|s| - 1])
  }

  function Take<T>(s: seq<T>, n: nat): seq<T> {
    if |s| <= n then s else s[..n]
  }

  datatype Answer = Answer(found: seq<Snapshot>, failed: bool)

  /** What the walk over files returns, having `found` so far. */
  function Walk(found: seq<Snapshot>, sources: seq<Source>, q: Query): Answer
    decreases |sources|
  {
    if sources == [] then Answer(found, false)
    else if Unreadable(sources[0]) then Answer(found, true)
    else
      var more := found + Reverse(Hits(sources[0].value, q));
      if |more| >= Limit(q) then Answer(more[..Limit(q)], false) else Walk(more, sources[1..], q)
  }

  /** The walk over the live file and then the archives, in an order their indexes allow. */
  method Read(files: Names, locked: set<string>, path: string, q: Query) returns (a: Answer)
    ensures exists names :: Listing(files, path, names) && a == Walk([], Sources(files, locked, [path] + names), q)
  {
    var listed := SortedArchives(files, path);
    var list := Sources(files, locked, [path] + listed);
    var out := [];
    for f := 0 to |list|
      invariant |out| < Limit(q)
      invariant Walk([], list, q) == Walk(out, list[f..], q)
    {
      assert list[f..][1..] == list[f + 1..];
      var found, failed := ReadFile(list[f], q);
      if failed { return Answer(out, true); }
      var full;
      out, full := AppendNewest(out, found, Limit(q));
      if full { return Answer(out, false); }
    }
    a := Answer(out, false);
  }

  /** A file holds its newest hit last; stop as soon as the limit is reached. */
  method AppendNewest(before: seq<Snapshot>, found: seq<Snapshot>, limit: nat) returns (out: seq<Snapshot>, full: bool)
    requires |before| < limit
    ensures full <==> |before + Reverse(found)| >= limit
    ensures out == if full then (before + Reverse(found))[..limit] else before + Reverse(found)
  {
    out := before;
    var i := |found|;
    assert found[..i] == found;
    while i > 0
      invariant 0 <= i <= |found| && |out| < limit
      invariant out + Reverse(found[..i]) == before + Reverse(found)
    {
      i := i - 1;
      assert found[..i + 1][..i] == found[..i];
      out := out + [found[i]];
      if |out| >= limit {
        FullAnswer(before, found, out, found[..i], limit);
        return out, true;
      }
    }
    full := false;
  }

  lemma FullAnswer(before: seq<Snapshot>, found: seq<Snapshot>, out: seq<Snapshot>, rest: seq<Snapshot>, limit: nat)
    requires out + Reverse(rest) == before + Reverse(found) && |out| == limit
    ensures |before + Reverse(found)| >= limit && (before + Reverse(found))[..limit] == out
  {
  }

  // ----------------------------------------------------- the reader's answer

  /** The simple reading of a log: newest matching first, as many as asked for. */
  function Newest(log: File, q: Query): seq<Snapshot> {
    Take(Reverse(Hits(log, q)), Limit(q))
  }

  lemma {:induction false} ReverseAt<T>(s: seq<T>, k: nat)
    requires k < |s|
    ensures |Reverse(s)| == |s| && Reverse(s)[k] == s[|s| - 1 - k]
  {
    if |s| > 1 { ReverseAt(s[..|s| - 1], if k > 0 then k - 1 else 0); }
  }

  /** The simple reading is the last hits, the last of them first, as many as asked for, or twenty. */
  lemma NewestIs(log: File, q: Query, k: nat)
    requires k < |Hits(log, q)|
    ensures
      var limit := if q.limit <= 0 then 20 else q.limit;
      && |Newest(log, q)| == (if |Hits(log, q)| <= limit then |Hits(log, q)| else limit)
      && (k < limit ==> Newest(log, q)[k] == Hits(log, q)[|Hits(log, q)| - 1 - k])
  {
    ReverseAt(Hits(log, q), k);
  }

  /** A job asked for by its id, shortened or not, is found if fewer jobs than asked for match and are newer. */
  lemma JobIsFound(log: File, i: nat, n: nat, limit: nat)
    requires i < |log| && log[i].Entry? && n <= |log[i].snap.id|
    requires |Hits(log[i + 1..], Query("", log[i].snap.id[..n], limit))| < limit
    ensures log[i].snap in Newest(log, Query("", log[i].snap.id[..n], limit))
  {
    var q := Query("", log[i].snap.id[..n], limit);
    var before, later := Hits(log[..i], q), Hits(log[i + 1..], q);
    assert log == log[..i] + [log[i]] + log[i + 1..];
    HitsConcat(log[..i] + [log[i]], log[i + 1..], q);
    HitsConcat(log[..i], [log[i]], q);
    HitsOfOne(log[i], q);
    assert Hits(log, q) == before + [log[i].snap] + later;
    NewestIs(log, q, |later|);
  }

  /** A source cannot be read exactly when it does not open or has a line of more than 4 MiB. */
  lemma UnreadableIff(source: Source)
    ensures Unreadable(source) <==> source == None || exists i :: 0 <= i < |source.value| && source.value[i].size > 4194304
  {
  }

  /** The log that a list of files, newest first, amounts to. */
  function Joined(files: seq<File>): File {
    if files == [] then [] else Joined(files[1..]) + files[0]
  }

  lemma {:induction false} HitsConcat(a: File, b: File, q: Query)
    ensures Hits(a + b, q) == Hits(a, q) + Hits(b, q)
  {
    if b == [] {
      assert a + b == a;
    } else {
      assert (a + b)[..|a + b| - 1] == a + b[..|b| - 1];
      HitsConcat(a, b[..|b| - 1], q);
    }
  }

  lemma {:induction false} ReverseConcat<T>(a: seq<T>, b: seq<T>)
    ensures Reverse(a + b) == Reverse(b) + Reverse(a)
  {
    if b == [] {
      assert a + b == a;
    } else {
      assert (a + b)[..|a + b| - 1] == a + b[..|b| - 1];
      ReverseConcat(a, b[..|b| - 1]);
    }
  }

  /** The newest file is read first. */
  lemma NewestFileFirst(files: seq<File>, q: Query)
    requires files != []
    ensures Reverse(Hits(Joined(files), q)) == Reverse(Hits(files[0], q)) + Reverse(Hits(Joined(files[1..]), q))
  {
    HitsConcat(Joined(files[1..]), files[0], q);
    ReverseConcat(Hits(Joined(files[1..]), q), Hits(files[0], q));
  }

  lemma TakeFull(found: seq<Snapshot>, here: seq<Snapshot>, later: seq<Snapshot>, n: nat)
    ensures found + (here + later) == found + here + later
    ensures |found + here| >= n ==> Take(found + (here + later), n) == (found + here)[..n]
  {
  }

  /** When every file opens and no line is oversized the walk is the simple reading of the joined log. */
  lemma {:induction false} WalkIsNewest(found: seq<Snapshot>, files: seq<File>, q: Query)
    requires |found| < Limit(q)
    requires forall i :: 0 <= i < |files| ==> !Oversized(files[i])
    ensures Walk(found, Opened(files), q) == Answer(Take(found + Reverse(Hits(Joined(files), q)), Limit(q)), false)
    decreases |files|
  {
    if files == [] {
      assert found + Reverse(Hits(Joined(files), q)) == found;
    } else {
      var here := Reverse(Hits(files[0], q));
      NewestFileFirst(files, q);
      TakeFull(found, here, Reverse(Hits(Joined(files[1..]), q)), Limit(q));
      assert Opened(files)[1..] == Opened(files[1..]);
      if |found + here| < Limit(q) {
        WalkIsNewest(found + here, files[1..], q);
      }
    }
  }

  /**
   Exactly when a read fails: a file that does not open or holds an oversized line,
   the first of its kind, is met before the limit is reached. What the files before
   it gave is returned all the same.
   */
  lemma {:induction false} FailsIff(found: seq<Snapshot>, before: seq<File>, bad: Source, later: seq<Source>, q: Query)
    requires |found| < Limit(q) && Unreadable(bad)
    requires forall i :: 0 <= i < |before| ==> !Oversized(before[i])
    ensures
      var a, all := Walk(found, Opened(before) + [bad] + later, q), found + Reverse(Hits(Joined(before), q));
      (a.failed <==> |all| < Limit(q)) && (a.failed ==> a.found == all)
    decreases |before|
  {
    var sources := Opened(before) + [bad] + later;
    if before == [] {
      assert sources[0] == bad;
      assert found + Reverse(Hits(Joined(before), q)) == found;
    } else {
      var here := Reverse(Hits(before[0], q));
      NewestFileFirst(before, q);
      TakeFull(found, here, Reverse(Hits(Joined(before[1..]), q)), Limit(q));
      assert sources[0] == Some(before[0]) && sources[1..] == Opened(before[1..]) + [bad] + later;
      if |found + here| < Limit(q) {
        FailsIff(found + here, before[1..], bad, later, q);
      }
    }
  }

  // ------------------------------------------------- a directory of archives

  /** The names of archives `from`, `from` + 1, ... that exist, up to `keep`. */
  function Present(files: Names, path: string, from: nat, keep: nat): seq<string>
    decreases keep + 1 - from
  {
    if from > keep then []
    else (if Archive(path, from) in files then [Archive(path, from)] else []) + Present(files, path, from + 1, keep)
  }

  /** `name` is one of the archives from number `from` to `keep`. */
  ghost predicate IsArchive(name: string, path: string, from: nat, keep: nat) {
    exists i :: from <= i <= keep && name == Archive(path, i)
  }

  ghost predicate ListsArchives(files: Names, names: seq<string>, path: string, from: nat, keep: nat) {
    forall name :: name in names <==> name in files && IsArchive(name, path, from, keep)
  }

  /** A file the reader takes for an archive although the writer, keeping this many, would not touch it. */
  ghost predicate Stray(name: string, path: string, keep: nat) {
    Globbed(name, path) && !IsArchive(name, path, 1, keep)
  }

  /** No such file holds a line. */
  ghost predicate NoStrayLines(files: Names, path: string, keep: nat) {
    forall name :: name in files && Stray(name, path, keep) ==> files[name] == []
  }

  /** The names of a listing that the writer uses. */
  ghost function Kept(names: seq<string>, path: string, keep: nat): seq<string> {
    if names == [] then []
    else (if IsArchive(names[0], path, 1, keep) then [names[0]] else []) + Kept(names[1..], path, keep)
  }

  lemma {:induction false} KeptNames(names: seq<string>, path: string, keep: nat)
    ensures forall name :: name in Kept(names, path, keep) <==> name in names && IsArchive(name, path, 1, keep)
  {
    if names != [] {
      KeptNames(names[1..], path, keep);
      assert names == [names[0]] + names[1..];
    }
  }

  lemma {:induction false} KeptAscends(names: seq<string>, path: string, keep: nat)
    requires Ascending(names, path)
    ensures Ascending(Kept(names, path, keep), path)
  {
    if names != [] {
      var rest := Kept(names[1..], path, keep);
      KeptAscends(names[1..], path, keep);
      KeptNames(names[1..], path, keep);
      forall k | 0 <= k < |rest| ensures names[0] != rest[k] && IndexOf(names[0], path) <= IndexOf(rest[k], path) {
        assert rest[k] in names[1..];
        var i :| 0 <= i < |names[1..]| && names[1..][i] == rest[k];
        assert names[i + 1] == rest[k];
      }
    }
  }

  /** Among the listed names the writer's are the archives that exist, in order. */
  lemma ListingIsPresent(files: Names, path: string, keep: nat, names: seq<string>)
    requires Listing(files, path, names)
    ensures Kept(names, path, keep) == Present(files, path, 1, keep)
  {
    KeptNames(names, path, keep);
    KeptAscends(names, path, keep);
    forall name | name in files && IsArchive(name, path, 1, keep) ensures name in names {
      var i :| 1 <= i <= keep && name == Archive(path, i);
      IndexOfArchive(path, i);
    }
    ListingUnique(files, path, 1, keep, Kept(names, path, keep));
  }

  /** What is read beside the writer's archives adds its lines, so it adds none exactly when it holds none. */
  lemma {:induction false} StraysAddLines(files: Names, names: seq<string>, path: string, keep: nat)
    ensures |Joined(NamesAt(files, names))| >= |Joined(NamesAt(files, Kept(names, path, keep)))|
    ensures Joined(NamesAt(files, names)) == Joined(NamesAt(files, Kept(names, path, keep))) <==>
              forall k :: 0 <= k < |names| && !IsArchive(names[k], path, 1, keep) ==> Get(files, names[k]) == []
  {
    if names != [] {
      var name, rest := names[0], names[1..];
      StraysAddLines(files, rest, path, keep);
      NamesPush(files, name, rest);
      NamesPush(files, name, Kept(rest, path, keep));
      SplitFirst(files, names, path, keep);
      assert names == [name] + rest;
      var read := Joined(NamesAt(files, rest));
      if IsArchive(name, path, 1, keep) {
        assert Kept(names, path, keep) == [name] + Kept(rest, path, keep);
        SameTail(read, Joined(NamesAt(files, Kept(rest, path, keep))), Get(files, name));
      } else {
        assert Kept(names, path, keep) == Kept(rest, path, keep);
        assert Get(files, name) == [] ==> read + Get(files, name) == read;
        assert |read + Get(files, name)| == |read| + |Get(files, name)|;
      }
    }
  }

  /** A property of all listed names, taken apart at the first. */
  lemma SplitFirst(files: Names, names: seq<string>, path: string, keep: nat)
    requires names != []
    ensures (forall k :: 0 <= k < |names| && !IsArchive(names[k], path, 1, keep) ==> Get(files, names[k]) == []) <==>
              && (!IsArchive(names[0], path, 1, keep) ==> Get(files, names[0]) == [])
              && forall k :: 0 <= k < |names[1..]| && !IsArchive(names[1..][k], path, 1, keep) ==> Get(files, names[1..][k]) == []
  {
    assert forall k :: 0 < k < |names| ==> names[k] == names[1..][k - 1];
    assert forall k :: 0 <= k < |names[1..]| ==> names[1..][k] == names[k + 1];
  }

  lemma NamesPush(files: Names, name: string, rest: seq<string>)
    ensures Joined(NamesAt(files, [name] + rest)) == Joined(NamesAt(files, rest)) + Get(files, name)
  {
    assert NamesAt(files, [name] + rest) == [Get(files, name)] + NamesAt(files, rest);
    JoinedPush(Get(files, name), NamesAt(files, rest));
  }

  lemma SameTail(a: File, b: File, tail: File)
    ensures a + tail == b + tail <==> a == b
  {
    if a + tail == b + tail { SameFront(a, b, tail); }
  }

  lemma PartialIsNotGlobbed(path: string)
    ensures !Globbed(Partial(path), path)
  {
    var p := Partial(path);
    assert p[|p| - 1] == 'l' && p[|p| - 3..][2] == p[|p| - 1];
  }

  lemma {:induction false} ListingUnique(files: Names, path: string, from: nat, keep: nat, names: seq<string>)
    requires ListsArchives(files, names, path, from, keep) && Ascending(names, path)
    ensures names == Present(files, path, from, keep)
    decreases keep + 1 - from
  {
    if from > keep {
      if names != [] { HasElement(names); }
    } else if Archive(path, from) in files {
      FirstIsLeast(files, path, from, keep, names);
      var rest := names[1..];
      assert names == [names[0]] + rest;
      forall name ensures name in rest <==> name in files && IsArchive(name, path, from + 1, keep) {
        RestNames(files, path, from, keep, names, name);
      }
      ListingUnique(files, path, from + 1, keep, rest);
    } else {
      forall name | name in files ensures IsArchive(name, path, from, keep) <==> IsArchive(name, path, from + 1, keep) {
      }
      ListingUnique(files, path, from + 1, keep, names);
    }
  }

  lemma HasElement(names: seq<string>)
    requires names != []
    ensures exists name :: name in names
  {
    assert names[0] in names;
  }

  lemma FirstIsLeast(files: Names, path: string, from: nat, keep: nat, names: seq<string>)
    requires from <= keep && Archive(path, from) in files
    requires ListsArchives(files, names, path, from, keep) && Ascending(names, path)
    ensures names != [] && names[0] == Archive(path, from)
  {
    assert IsArchive(Archive(path, from), path, from, keep);
    var k :| 0 <= k < |names| && names[k] == Archive(path, from);
    assert names[0] in names;
    var i: nat :| from <= i <= keep && names[0] == Archive(path, i);
    if k > 0 { LowerArchive(names[0], names[k], path, i, from); }
  }

  lemma LowerArchive(name: string, other: string, path: string, i: nat, k: nat)
    requires name == Archive(path, i) && other == Archive(path, k) && IndexOf(name, path) <= IndexOf(other, path)
    ensures i <= k
  {
    IndexOfArchive(path, i);
    IndexOfArchive(path, k);
  }

  lemma RestNames(files: Names, path: string, from: nat, keep: nat, names: seq<string>, name: string)
    requires names != [] && names[0] == Archive(path, from)
    requires ListsArchives(files, names, path, from, keep) && Ascending(names, path)
    ensures name in names[1..] <==> name in files && IsArchive(name, path, from + 1, keep)
  {
    if name in names[1..] {
      var k :| 0 <= k < |names[1..]| && names[1..][k] == name;
      assert names[k + 1] == name && names[0] != name;
      assert name in names;
      var i :| from <= i <= keep && name == Archive(path, i);
      assert i != from;
    }
    forall i: nat | from + 1 <= i <= keep && name == Archive(path, i) && name in files ensures name in names[1..] {
      NamesDiffer(path, i, from);
      assert IsArchive(name, path, from, keep);
      assert name in names;
    }
  }

  lemma JoinedPush(first: File, files: seq<File>)
    ensures Joined([first] + files) == Joined(files) + first
  {
    assert ([first] + files)[1..] == files;
  }

  lemma {:induction false} JoinedPresent(files: Names, path: string, from: nat, keep: nat)
    requires 1 <= from <= keep + 1
    ensures Joined(NamesAt(files, Present(files, path, from, keep))) + Archived(files, path, from - 1) == Archived(files, path, keep)
    decreases keep + 1 - from
  {
    if from == keep + 1 {
      assert Joined(NamesAt(files, [])) == [];
    } else {
      JoinedPresent(files, path, from + 1, keep);
      PresentStep(files, path, from, Present(files, path, from + 1, keep));
    }
  }

  /** Listing one archive more in front reads it after the others. */
  lemma PresentStep(files: Names, path: string, from: nat, rest: seq<string>)
    requires from >= 1
    ensures
      var name := Archive(path, from);
      Joined(NamesAt(files, (if name in files then [name] else []) + rest)) + Archived(files, path, from - 1)
      == Joined(NamesAt(files, rest)) + Archived(files, path, from)
  {
    var name := Archive(path, from);
    var j, below := Joined(NamesAt(files, rest)), Archived(files, path, from - 1);
    assert Archived(files, path, from) == Get(files, name) + below;
    assert j + (Get(files, name) + below) == (j + Get(files, name)) + below;
    if name in files {
      assert NamesAt(files, [name] + rest) == [Get(files, name)] + NamesAt(files, rest);
      JoinedPush(Get(files, name), NamesAt(files, rest));
    } else {
      assert j + Get(files, name) == j;
      assert [] + rest == rest;
    }
  }

  /** Reading a directory walks the writer's log exactly when no stray archive in it holds a line. */
  lemma DirectoryJoinsIff(files: Names, path: string, keep: nat, names: seq<string>)
    requires Listing(files, path, names)
    ensures Joined([Get(files, path)] + NamesAt(files, names)) == Log(files, path, keep) <==> NoStrayLines(files, path, keep)
  {
    var kept := Kept(names, path, keep);
    ListingIsPresent(files, path, keep, names);
    JoinedPresent(files, path, 1, keep);
    assert Archived(files, path, 0) == [] && Joined(NamesAt(files, kept)) + [] == Joined(NamesAt(files, kept));
    JoinedPush(Get(files, path), NamesAt(files, names));
    SameTail(Joined(NamesAt(files, names)), Archived(files, path, keep), Get(files, path));
    StraysAddLines(files, names, path, keep);
    StraysAreListed(files, path, keep, names);
  }

  lemma StraysAreListed(files: Names, path: string, keep: nat, names: seq<string>)
    requires Listing(files, path, names)
    ensures NoStrayLines(files, path, keep) <==>
              forall k :: 0 <= k < |names| && !IsArchive(names[k], path, 1, keep) ==> Get(files, names[k]) == []
  {
    if forall k :: 0 <= k < |names| && !IsArchive(names[k], path, 1, keep) ==> Get(files, names[k]) == [] {
      forall name | name in files && Stray(name, path, keep) ensures files[name] == [] {
        assert name in names;
        var k :| 0 <= k < |names| && names[k] == name;
      }
    } else {
      var k :| 0 <= k < |names| && !IsArchive(names[k], path, 1, keep) && Get(files, names[k]) != [];
      assert names[k] in names;
    }
  }

  /** The writer neither makes nor fills a stray archive. */
  lemma WriterMakesNoStray(before: Names, after: Names, path: string, keep: nat)
    requires OthersKept(before, after, path, keep) && NoStrayLines(before, path, keep)
    ensures NoStrayLines(after, path, keep)
  {
    forall name | name in after && Stray(name, path, keep) ensures after[name] == [] {
      PartialIsNotGlobbed(path);
      assert !Globbed(path, path);
      assert !Ours(name, path, keep);
      assert Get(before, name) == Get(after, name);
    }
  }

  /**
   The reader refines the log: after any run of appended lines, whatever the
   rotations did and whatever else the directory holds, a read returns the newest
   matching jobs of a suffix of everything written, newest first, as long as no
   stray archive holds a line.
   */
  lemma ReadAfterRun(files: Names, path: string, keep: nat, start: Shelf, lines: seq<Line>, maxBytes: nat,
                     q: Query, names: seq<string>)
    requires Listing(files, path, names) && NoStrayLines(files, path, keep)
    requires ShelfOf(files, path, keep) == Run(start, lines, maxBytes)
    requires forall i :: 0 <= i < |Log(files, path, keep)| ==> Log(files, path, keep)[i].size <= MAX_LINE
    ensures
      var retained := ShelfLog(Run(start, lines, maxBytes));
      && IsSuffix(retained, ShelfLog(start) + lines)
      && Walk([], Sources(files, {}, [path] + names), q) == Answer(Newest(retained, q), false)
  {
    assert Sources(files, {}, [path] + names) == Opened([Get(files, path)] + NamesAt(files, names));
    var list := [Get(files, path)] + NamesAt(files, names);
    LogIsShelfLog(files, path, keep);
    RetainedIsSuffix(start, lines, maxBytes);
    DirectoryJoinsIff(files, path, keep, names);
    JoinedSizes(list);
    WalkIsNewest([], list, q);
    assert [] + Reverse(Hits(Joined(list), q)) == Reverse(Hits(Joined(list), q));
  }

  /** A directory with a live file and two archives of one line each. */
  function ThreeFiles(path: string, live: Line, first: Line, second: Line): Names {
    map[path := [live], Archive(path, 1) := [first], Archive(path, 2) := [second]]
  }

  /**
   The condition is needed: a writer that keeps one archive, in a directory left by
   one that kept two, prunes line `b` and leaves the older line `a` to be read.
   */
  lemma StrayLeavesAGap(path: string, a: Line, b: Line, c: Line, d: Line, maxBytes: nat)
    requires a != b && c.size > 0 && c.size + d.size > maxBytes
    ensures
      var before, after := ThreeFiles(path, c, b, a), ThreeFiles(path, d, c, a);
      var names := [Archive(path, 1), Archive(path, 2)];
      && ShelfOf(after, path, 1) == Run(ShelfOf(before, path, 1), [d], maxBytes) && OthersKept(before, after, path, 1)
      && Listing(after, path, names) && !NoStrayLines(after, path, 1)
      && Joined([Get(before, path)] + NamesAt(before, names)) == [a, b, c]
      && Joined([Get(after, path)] + NamesAt(after, names)) == [a, c, d] && !IsSuffix([a, c, d], [a, b, c, d])
  {
    var before, after := ThreeFiles(path, c, b, a), ThreeFiles(path, d, c, a);
    OneRotation(path, a, b, c, d, maxBytes);
    TwoArchivesAreListed(path, d, c, a);
    SecondIsStray(path, d, c, a);
    SecondIsKept(path, a, b, c, d);
    JoinThree(path, c, b, a);
    JoinThree(path, d, c, a);
    assert [a, b, c, d][1..][0] == b && [a, c, d][0] == a;
  }

  lemma SecondIsKept(path: string, a: Line, b: Line, c: Line, d: Line)
    ensures OthersKept(ThreeFiles(path, c, b, a), ThreeFiles(path, d, c, a), path, 1)
  {
    NamesDiffer(path, 1, 2);
    NamesDiffer(path, 2, 1);
    assert Ours(Archive(path, 1), path, 1);
  }

  lemma OneRotation(path: string, a: Line, b: Line, c: Line, d: Line, maxBytes: nat)
    requires c.size > 0 && c.size + d.size > maxBytes
    ensures ShelfOf(ThreeFiles(path, d, c, a), path, 1) == Run(ShelfOf(ThreeFiles(path, c, b, a), path, 1), [d], maxBytes)
  {
    ShelfOfThree(path, d, c, a);
    ShelfOfThree(path, c, b, a);
    RotatesOnce(b, c, d, maxBytes);
  }

  lemma ShelfOfThree(path: string, live: Line, first: Line, second: Line)
    ensures ShelfOf(ThreeFiles(path, live, first, second), path, 1) == Shelf([live], [[first]])
  {
    NamesDiffer(path, 1, 2);
  }

  lemma RotatesOnce(b: Line, c: Line, d: Line, maxBytes: nat)
    requires c.size > 0 && c.size + d.size > maxBytes
    ensures Run(Shelf([c], [[b]]), [d], maxBytes) == Shelf([d], [[c]])
  {
    assert [c][..0] == [] && Size([c]) == c.size;
    assert [d][..0] == [] && [[b]][..0] == [];
    assert Added(Shelf([c], [[b]]), d, maxBytes) == Shelf([] + [d], [[c]] + []);
  }

  lemma TwoArchivesAreListed(path: string, live: Line, first: Line, second: Line)
    ensures Listing(ThreeFiles(path, live, first, second), path, [Archive(path, 1), Archive(path, 2)])
  {
    IndexOfArchive(path, 1);
    IndexOfArchive(path, 2);
    NamesDiffer(path, 1, 2);
    assert !Globbed(path, path);
  }

  lemma SecondIsStray(path: string, live: Line, first: Line, second: Line)
    ensures !NoStrayLines(ThreeFiles(path, live, first, second), path, 1)
  {
    IndexOfArchive(path, 2);
    NamesDiffer(path, 2, 1);
    assert Stray(Archive(path, 2), path, 1) && ThreeFiles(path, live, first, second)[Archive(path, 2)] != [];
  }

  lemma JoinThree(path: string, live: Line, first: Line, second: Line)
    ensures
      var files := ThreeFiles(path, live, first, second);
      Joined([Get(files, path)] + NamesAt(files, [Archive(path, 1), Archive(path, 2)])) == [second, first, live]
  {
    var files := ThreeFiles(path, live, first, second);
    NamesDiffer(path, 1, 2);
    NamesDiffer(path, 2, 1);
    var list := [Get(files, path)] + NamesAt(files, [Archive(path, 1), Archive(path, 2)]);
    assert list == [[live], [first], [second]];
    assert list[1..] == [[first], [second]] && [[first], [second]][1..] == [[second]] && [[second]][1..] == [];
    assert Joined([[second]]) == [second];
    assert Joined([[first], [second]]) == [second] + [first];
  }

  lemma {:induction false} JoinedSizes(files: seq<File>)
    requires forall i :: 0 <= i < |Joined(files)| ==> Joined(files)[i].size <= MAX_LINE
    ensures forall i :: 0 <= i < |files| ==> !Oversized(files[i])
  {
    if files != [] {
      var rest := Joined(files[1..]);
      assert forall i :: 0 <= i < |rest| ==> Joined(files)[i] == rest[i];
      assert forall i :: 0 <= i < |files[0]| ==> Joined(files)[|rest| + i] == files[0][i];
      JoinedSizes(files[1..]);
    }
  }
}
