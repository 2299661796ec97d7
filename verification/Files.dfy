/**
 A directory of line files with operations that may fail, the names a rotating
 writer uses in it, and what those files hold in order of age.
 */
module Files {
  import opened Wrappers
  import opened Jobs
  import Decimal

  datatype Snapshot = Snapshot(id: string, target: string, view: View)

  /** One newline-terminated line and its size in bytes, newline included. */
  datatype Line = Entry(size: nat, snap: Snapshot) | Junk(size: nat)

  type File = seq<Line>

  type Names = map<string, File>

  function Size(f: File): nat {
    if f == [] then 0 else Size(f[..|f| - 1]) + f[|f| - 1].size
  }

  function Get(files: Names, name: string): File {
    if name in files then files[name] else []
  }

  // ------------------------------------------------------------------ names

  function Archive(path: string, i: nat): string {
    path + "." + Decimal.Print(i) + ".gz"
  }

  function Partial(path: string): string {
    Archive(path, 1) + ".partial"
  }

  function TrimPrefix(s: string, prefix: string): string {
    if prefix <= s then s[|prefix|..] else s
  }

  predicate HasSuffix(s: string, suffix: string) {
    |suffix| <= |s| && s[|s| - |suffix|..] == suffix
  }

  function TrimSuffix(s: string, suffix: string): string {
    if HasSuffix(s, suffix) then s[..|s| - |suffix|] else s
  }

  const FOREIGN_INDEX: nat := 0x4000_0000

  /** The number between the path and ".gz"; foreign names sort last. */
  function IndexOf(name: string, path: string): nat {
    var trimmed := TrimSuffix(TrimPrefix(name, path + "."), ".gz");
    if Decimal.AllDigits(trimmed) then Decimal.Value(trimmed) else FOREIGN_INDEX
  }

  /** filepath.Glob(path + ".*.gz") for a path without pattern characters, in one directory. */
  predicate Globbed(name: string, path: string) {
    |path| + 4 <= |name| && path + "." <= name && HasSuffix(name, ".gz")
  }

  /** The index inverts the archive name. */
  lemma IndexOfArchive(path: string, i: nat)
    ensures IndexOf(Archive(path, i), path) == i && Globbed(Archive(path, i), path)
  {
    var digits := Decimal.Print(i);
    Decimal.ValueOfPrint(i);
    var name := Archive(path, i);
    assert name == (path + ".") + (digits + ".gz");
    assert TrimPrefix(name, path + ".") == digits + ".gz";
    assert (digits + ".gz")[..|digits|] == digits;
    assert name[|name| - 3..] == ".gz";
  }

  /** What is globbed is the path, a dot, anything at all and ".gz"; its index is the number in between, or two to the power 30. */
  lemma GlobbedIff(name: string, path: string, middle: string)
    requires middle == if |path| + 4 <= |name| then name[|path| + 1..|name| - 3] else ""
    ensures Globbed(name, path) <==> name == path + "." + middle + ".gz"
    ensures Globbed(name, path) && Decimal.AllDigits(middle) ==> IndexOf(name, path) == Decimal.Value(middle)
    ensures Globbed(name, path) && !Decimal.AllDigits(middle) ==> IndexOf(name, path) == 1073741824
  {
    var n := |path|;
    if n + 4 <= |name| {
      assert name == name[..n + 1] + middle + name[|name| - 3..];
      if Globbed(name, path) {
        assert name[..n + 1] == path + ".";
        assert TrimPrefix(name, path + ".") == middle + ".gz";
        assert (middle + ".gz")[..|middle|] == middle && (middle + ".gz")[|middle|..] == ".gz";
      }
    }
    if name == path + "." + middle + ".gz" { GluedIsGlobbed(name, path, middle); }
  }

  lemma GluedIsGlobbed(name: string, path: string, middle: string)
    requires name == path + "." + middle + ".gz"
    ensures Globbed(name, path)
  {
    assert name == (path + ".") + (middle + ".gz");
    assert name[|name| - 3..] == ".gz";
  }

  lemma NamesDiffer(path: string, i: nat, k: nat)
    ensures i != k ==> Archive(path, i) != Archive(path, k)
    ensures Archive(path, i) != path && Partial(path) != path
    ensures Archive(path, i) != Partial(path)
  {
    IndexOfArchive(path, i);
    IndexOfArchive(path, k);
    var p := Partial(path);
    assert p[|p| - 1] == 'l' && Archive(path, i)[|Archive(path, i)| - 1] == 'z';
  }

  // ------------------------------------------------------------- in order of age

  /** The archives from number `i` down to 1: oldest line first. */
  function Archived(files: Names, path: string, i: nat): File {
    if i == 0 then [] else Get(files, Archive(path, i)) + Archived(files, path, i - 1)
  }

  /** Every line on disk, oldest first, read in descending archive order and then the live file. */
  function Log(files: Names, path: string, keep: nat): File {
    Archived(files, path, keep) + Get(files, path)
  }

  lemma {:induction false} ArchivedFrame(a: Names, b: Names, path: string, i: nat)
    requires forall k :: 1 <= k <= i ==> Get(a, Archive(path, k)) == Get(b, Archive(path, k))
    ensures Archived(a, path, i) == Archived(b, path, i)
  {
    if i > 0 { ArchivedFrame(a, b, path, i - 1); }
  }

  // -------------------------------------------------------------- the directory

  datatype Status = Done | Missing | Fault

  /** The file system as the writer sees it: each operation may fail and then changes nothing. */
  class Dir {
    var files: Names
    /** Every state the directory went through, oldest first. */
    ghost var trace: seq<Names>
    /** A rename replaced a file that existed. */
    ghost var clobbered: bool
    /** How many operations failed for no reason of the writer's. */
    ghost var faults: nat

    constructor (files: Names)
      ensures this.files == files && trace == [files] && !clobbered && faults == 0
    {
      this.files := files;
      trace := [files];
      clobbered := false;
      faults := 0;
    }

    /** An operation that leaves the directory alone, such as reading a file or closing it. */
    method Access(name: string) returns (ok: bool)
      modifies this`faults
      ensures faults == old(faults) + if ok then 0 else 1
    {
      ok := *;
      if !ok { faults := faults + 1; }
    }

    method Set(next: Names)
      modifies this
      ensures files == next && trace == old(trace) + [next] && clobbered == old(clobbered) && faults == old(faults)
    {
      files := next;
      trace := trace + [next];
    }

    method Remove(name: string) returns (s: Status)
      modifies this
      ensures clobbered == old(clobbered)
      ensures s == Done ==> name in old(files) && files == old(files) - {name} && trace == old(trace) + [files]
      ensures s != Done ==> files == old(files) && trace == old(trace)
      ensures s == Missing ==> name !in files
      ensures faults == old(faults) + if s == Fault then 1 else 0
    {
      var fault: bool := *;
      if fault {
        faults := faults + 1;
        return Fault;
      }
      if name !in files { return Missing; }
      Set(files - {name});
      s := Done;
    }

    method Rename(source: string, dest: string) returns (s: Status)
      requires source != dest
      modifies this
      ensures clobbered <==> old(clobbered) || (s == Done && dest in old(files))
      ensures s == Done ==> source in old(files) && files == old(files)[dest := old(files)[source]] - {source} && trace == old(trace) + [files]
      ensures s != Done ==> files == old(files) && trace == old(trace)
      ensures s == Missing ==> source !in files
      ensures faults == old(faults) + if s == Fault then 1 else 0
    {
      var fault: bool := *;
      if fault {
        faults := faults + 1;
        return Fault;
      }
      if source !in files { return Missing; }
      clobbered := clobbered || dest in files;
      Set(files[dest := files[source]] - {source});
      s := Done;
    }

    /** Create `name` with `content`, or append to it; a failed write leaves what was there. */
    method Append(name: string, content: File) returns (s: Status)
      modifies this
      ensures clobbered == old(clobbered)
      ensures s == Done ==> files == old(files)[name := Get(old(files), name) + content] && trace == old(trace) + [files]
      ensures s != Done ==> files == old(files) && trace == old(trace)
      ensures s != Missing
      ensures faults == old(faults) + if s == Fault then 1 else 0
    {
      var fault: bool := *;
      if fault {
        faults := faults + 1;
        return Fault;
      }
      Set(files[name := Get(files, name) + content]);
      s := Done;
    }

    /** Start `name` afresh with some first part of `content`, all of it when it succeeds. */
    method Overwrite(name: string, content: File) returns (s: Status)
      modifies this
      ensures clobbered == old(clobbered)
      ensures name in files && files[name] <= content && files == old(files)[name := files[name]]
      ensures trace == old(trace) + [files] && (s == Done ==> files[name] == content)
      ensures s != Missing
      ensures faults == old(faults) + if s == Fault then 1 else 0
    {
      var written :| 0 <= written <= |content|;
      if written < |content| {
        Set(files[name := content[..written]]);
        faults := faults + 1;
        return Fault;
      }
      Set(files[name := content]);
      s := Done;
    }
  }
}
