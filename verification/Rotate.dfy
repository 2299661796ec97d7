/**
 The size-rotating writer (internal/rotate/rotate.go) over a directory whose
 operations may fail. What every intermediate state keeps, and what a whole run
 keeps. A single writer; a write adds a whole line or nothing.
 */
module Rotate {
  import opened Wrappers
  import opened Files

  // ---------------------------------------------------------- archive slots

  function Slot(files: Names, path: string, i: nat): Option<File> {
    if Archive(path, i) in files then Some(files[Archive(path, i)]) else None
  }

  /** A name the writer uses: the live file, the archive being built, or an archive. */
  ghost predicate Ours(name: string, path: string, keep: nat) {
    || name == path || name == Partial(path)
    || exists i :: 1 <= i <= keep && name == Archive(path, i)
  }

  /** Nothing but the writer's own files differs. */
  ghost predicate OthersKept(before: Names, after: Names, path: string, keep: nat) {
    forall name :: !Ours(name, path, keep) ==>
      (name in before <==> name in after) && Get(before, name) == Get(after, name)
  }

  lemma SlotsAfterRename(files: Names, path: string, i: nat)
    requires Slot(files, path, i).Some?
    ensures
      var next := files[Archive(path, i + 1) := files[Archive(path, i)]] - {Archive(path, i)};
      && Get(next, path) == Get(files, path) && (path in next <==> path in files)
      && forall k: nat {:trigger Slot(next, path, k)} {:trigger Slot(files, path, k)} :: Slot(next, path, k) ==
           if k == i + 1 then Slot(files, path, i) else if k == i then None else Slot(files, path, k)
  {
    var next := files[Archive(path, i + 1) := files[Archive(path, i)]] - {Archive(path, i)};
    NamesDiffer(path, i, i + 1);
    forall k: nat ensures Slot(next, path, k) ==
        if k == i + 1 then Slot(files, path, i) else if k == i then None else Slot(files, path, k)
    {
      NamesDiffer(path, k, i);
      NamesDiffer(path, k, i + 1);
    }
  }

  lemma {:induction false} RenameKeepsArchived(a: Names, b: Names, path: string, i: nat, n: nat)
    requires 1 <= i < n
    requires Slot(a, path, i + 1).None? && Slot(b, path, i + 1) == Slot(a, path, i) && Slot(b, path, i).None?
    requires forall k: nat :: k != i && k != i + 1 ==> Slot(a, path, k) == Slot(b, path, k)
    ensures Archived(a, path, n) == Archived(b, path, n)
  {
    if n == i + 1 {
      ArchivedFrame(a, b, path, i - 1) by { SlotsGiveContents(a, b, path, i - 1); }
      var below := Archived(a, path, i - 1);
      assert Archived(a, path, n) == Get(a, Archive(path, n)) + (Get(a, Archive(path, i)) + below);
      assert Archived(b, path, n) == Get(b, Archive(path, n)) + (Get(b, Archive(path, i)) + below);
      assert Slot(a, path, n).None? && Slot(b, path, n) == Slot(a, path, i);
    } else {
      RenameKeepsArchived(a, b, path, i, n - 1);
      assert Slot(a, path, n) == Slot(b, path, n);
    }
  }

  lemma SlotsGiveContents(a: Names, b: Names, path: string, n: nat)
    requires forall k: nat :: 1 <= k <= n ==> Slot(a, path, k) == Slot(b, path, k)
    ensures forall k :: 1 <= k <= n ==> Get(a, Archive(path, k)) == Get(b, Archive(path, k))
  {
    forall k: nat | 1 <= k <= n ensures Get(a, Archive(path, k)) == Get(b, Archive(path, k)) {
      assert Slot(a, path, k) == Slot(b, path, k);
    }
  }

  // ------------------------------------------- what a rotation may leave behind

  /** The log without the oldest archive. */
  function Younger(files: Names, path: string, keep: nat): File
    requires keep > 0
  {
    Archived(files, path, keep - 1) + Get(files, path)
  }

  /**
   A directory state on the way from `start`: nothing is lost but the pruned
   archive, the lines are in order of age, and the only line held twice is one
   of the live file already published as archive 1.
   */
  ghost predicate Conserved(start: Names, now: Names, path: string, keep: nat)
    requires keep > 0
  {
    || Log(now, path, keep) == Log(start, path, keep)
    || Log(now, path, keep) == Younger(start, path, keep)
    || (&& Log(now, path, keep) == Younger(start, path, keep) + Get(start, path)
        && Slot(now, path, 1) == Some(Get(start, path)) && Get(now, path) == Get(start, path))
  }

  /** Every state the directory passed through since `since` is conserved. */
  ghost predicate AllConserved(start: Names, trace: seq<Names>, since: nat, path: string, keep: nat)
    requires keep > 0
  {
    forall j :: since <= j < |trace| ==> Conserved(start, trace[j], path, keep)
  }

  ghost predicate SameLog(trace: seq<Names>, since: nat, log: File, path: string, keep: nat) {
    forall j :: since <= j < |trace| ==> Log(trace[j], path, keep) == log
  }

  /** Archives moved one up, archive 1 free, the live file untouched. */
  ghost predicate Shifted(before: Names, after: Names, path: string, keep: nat) {
    && Slot(after, path, 1).None?
    && (forall k: nat {:trigger Slot(after, path, k)} :: 2 <= k <= keep ==> Slot(after, path, k) == Slot(before, path, k - 1))
    && Get(after, path) == Get(before, path) && (path in after <==> path in before)
  }

  /** Part way through the shift: slot i + 1 is free, the slots above it hold their lower neighbours' files. */
  ghost predicate MidShift(start: Names, now: Names, path: string, keep: nat, i: nat) {
    && Slot(now, path, i + 1).None?
    && (forall k: nat {:trigger Slot(now, path, k)} :: k <= i ==> Slot(now, path, k) == Slot(start, path, k))
    && (forall k: nat {:trigger Slot(now, path, k)} :: i + 2 <= k <= keep ==> Slot(now, path, k) == Slot(start, path, k - 1))
    && Get(now, path) == Get(start, path) && (path in now <==> path in start)
    && Log(now, path, keep) == Log(start, path, keep)
    && OthersKept(start, now, path, keep)
  }

  lemma RenameKeepsOthers(now: Names, path: string, keep: nat, i: nat)
    requires 1 <= i < keep && Archive(path, i) in now
    ensures OthersKept(now, now[Archive(path, i + 1) := now[Archive(path, i)]] - {Archive(path, i)}, path, keep)
  {
    assert Ours(Archive(path, i + 1), path, keep) && Ours(Archive(path, i), path, keep);
  }

  lemma RenameAdvances(start: Names, now: Names, path: string, keep: nat, i: nat)
    requires 1 <= i < keep && MidShift(start, now, path, keep, i)
    ensures Slot(now, path, i).Some? ==>
              MidShift(start, now[Archive(path, i + 1) := now[Archive(path, i)]] - {Archive(path, i)}, path, keep, i - 1)
    ensures Slot(now, path, i).None? ==> MidShift(start, now, path, keep, i - 1)
  {
    if Slot(now, path, i).Some? {
      var next := now[Archive(path, i + 1) := now[Archive(path, i)]] - {Archive(path, i)};
      SlotsAfterRename(now, path, i);
      RenameKeepsOthers(now, path, keep, i);
      assert Log(next, path, keep) == Log(now, path, keep) by {
        RenameKeepsArchived(now, next, path, i, keep);
      }
    } else {
      assert Slot(start, path, i).None?;
    }
  }

  /** The shifting loop of rotate: archive i becomes archive i + 1, highest first. */
  method Shift(dir: Dir, path: string, keep: nat) returns (ok: bool)
    requires keep > 0 && Slot(dir.files, path, keep).None?
    modifies dir
    ensures dir.clobbered == old(dir.clobbered) && OthersKept(old(dir.files), dir.files, path, keep)
    ensures old(dir.trace) <= dir.trace
    ensures SameLog(dir.trace, |old(dir.trace)|, Log(old(dir.files), path, keep), path, keep)
    ensures Log(dir.files, path, keep) == Log(old(dir.files), path, keep)
    ensures Get(dir.files, path) == Get(old(dir.files), path)
    ensures ok ==> Shifted(old(dir.files), dir.files, path, keep)
    ensures dir.faults >= old(dir.faults) && (ok <==> dir.faults == old(dir.faults))
  {
    ghost var start := dir.files;
    var i := keep - 1;
    while i >= 1
      invariant 0 <= i < keep
      invariant dir.clobbered == old(dir.clobbered) && dir.faults == old(dir.faults)
      invariant old(dir.trace) <= dir.trace
      invariant SameLog(dir.trace, |old(dir.trace)|, Log(start, path, keep), path, keep)
      invariant MidShift(start, dir.files, path, keep, i)
    {
      ok := ShiftOne(dir, path, keep, i, start);
      if !ok { return; }
      i := i - 1;
    }
    ok := true;
  }

  /** One rename of the loop; an archive that is not there is skipped. */
  method ShiftOne(dir: Dir, path: string, keep: nat, i: nat, ghost start: Names) returns (ok: bool)
    requires 1 <= i < keep && MidShift(start, dir.files, path, keep, i)
    modifies dir
    ensures dir.clobbered == old(dir.clobbered) && old(dir.trace) <= dir.trace
    ensures SameLog(dir.trace, |old(dir.trace)|, Log(start, path, keep), path, keep)
    ensures MidShift(start, dir.files, path, keep, if ok then i - 1 else i)
    ensures dir.faults >= old(dir.faults) && (ok <==> dir.faults == old(dir.faults))
  {
    NamesDiffer(path, i, i + 1);
    RenameAdvances(start, dir.files, path, keep, i);
    assert Archive(path, i + 1) !in dir.files by { assert Slot(dir.files, path, i + 1).None?; }
    var s := dir.Rename(Archive(path, i), Archive(path, i + 1));
    ok := s != Fault;
  }

  // -------------------------------------------------------------- publishing

  lemma LogFrame(a: Names, b: Names, path: string, keep: nat)
    requires forall k: nat :: 1 <= k <= keep ==> Slot(a, path, k) == Slot(b, path, k)
    requires Get(a, path) == Get(b, path)
    ensures Log(a, path, keep) == Log(b, path, keep)
  {
    SlotsGiveContents(a, b, path, keep);
    ArchivedFrame(a, b, path, keep);
  }

  /** A file that is neither an archive nor the live file does not show in the log. */
  lemma ScratchIsInvisible(files: Names, content: File, path: string, keep: nat)
    ensures
      var next := files[Partial(path) := content];
      && Log(next, path, keep) == Log(files, path, keep) && OthersKept(files, next, path, keep)
      && Get(next, path) == Get(files, path) && (path in next <==> path in files)
      && forall k: nat {:trigger Slot(next, path, k)} :: Slot(next, path, k) == Slot(files, path, k)
    ensures
      var next := files - {Partial(path)};
      && Log(next, path, keep) == Log(files, path, keep) && OthersKept(files, next, path, keep)
      && Get(next, path) == Get(files, path) && (path in next <==> path in files)
      && forall k: nat {:trigger Slot(next, path, k)} :: Slot(next, path, k) == Slot(files, path, k)
  {
    forall k: nat ensures Archive(path, k) != Partial(path) && Partial(path) != path {
      NamesDiffer(path, k, k);
    }
    NamesDiffer(path, 0, 0);
    LogFrame(files, files[Partial(path) := content], path, keep);
    LogFrame(files, files - {Partial(path)}, path, keep);
  }

  /** What publishing the live file as archive 1 does. */
  lemma PublishDuplicates(files: Names, path: string, keep: nat)
    requires keep > 0 && Partial(path) in files && Slot(files, path, 1).None?
    ensures
      var next := files[Archive(path, 1) := files[Partial(path)]] - {Partial(path)};
      && Log(next, path, keep) == Archived(files, path, keep) + files[Partial(path)] + Get(files, path)
      && Slot(next, path, 1) == Some(files[Partial(path)])
      && (forall k: nat {:trigger Slot(next, path, k)} :: k != 1 ==> Slot(next, path, k) == Slot(files, path, k))
      && Get(next, path) == Get(files, path) && (path in next <==> path in files)
      && OthersKept(files, next, path, keep) && Partial(path) !in next
  {
    var next := files[Archive(path, 1) := files[Partial(path)]] - {Partial(path)};
    forall k: nat ensures Archive(path, k) != Partial(path) && (k != 1 ==> Archive(path, k) != Archive(path, 1)) && Archive(path, k) != path {
      NamesDiffer(path, k, 1);
    }
    NamesDiffer(path, 1, 1);
    assert forall k: nat :: k != 1 ==> Slot(next, path, k) == Slot(files, path, k);
    NewestArchive(files, next, path, keep);
  }

  lemma {:induction false} NewestArchive(a: Names, b: Names, path: string, n: nat)
    requires n > 0 && Slot(a, path, 1).None? && Slot(b, path, 1).Some?
    requires forall k: nat :: k != 1 ==> Slot(b, path, k) == Slot(a, path, k)
    ensures Archived(b, path, n) == Archived(a, path, n) + Slot(b, path, 1).value
  {
    if n == 1 {
      assert Archived(a, path, 0) == [] && Archived(b, path, 0) == [];
    } else {
      NewestArchive(a, b, path, n - 1);
      assert Slot(b, path, n) == Slot(a, path, n);
      assert Archived(b, path, n) == Get(a, Archive(path, n)) + (Archived(a, path, n - 1) + Slot(b, path, 1).value);
    }
  }

  /** The live file copied to archive 1, which was free. */
  ghost predicate Published(before: Names, after: Names, path: string, keep: nat) {
    && Slot(after, path, 1) == Some(Get(before, path))
    && (forall k: nat {:trigger Slot(after, path, k)} :: k != 1 ==> Slot(after, path, k) == Slot(before, path, k))
    && Get(after, path) == Get(before, path)
    && Log(after, path, keep) == Log(before, path, keep) + Get(before, path)
  }

  /** gzipFile: build the archive beside its place, then rename it there in one step. */
  method GzipFile(dir: Dir, path: string, keep: nat) returns (ok: bool)
    requires keep > 0 && Slot(dir.files, path, 1).None?
    modifies dir
    ensures dir.clobbered == old(dir.clobbered) && OthersKept(old(dir.files), dir.files, path, keep)
    ensures old(dir.trace) <= dir.trace
    ensures forall j :: |old(dir.trace)| <= j < |dir.trace| ==>
              Log(dir.trace[j], path, keep) == Log(old(dir.files), path, keep) || Published(old(dir.files), dir.trace[j], path, keep)
    ensures ok && path in old(dir.files) ==> Published(old(dir.files), dir.files, path, keep) && path in dir.files
    ensures path !in old(dir.files) ==> ok && dir.files == old(dir.files)
    ensures !ok ==> Log(dir.files, path, keep) == Log(old(dir.files), path, keep)
    ensures Get(dir.files, path) == Get(old(dir.files), path)
    ensures dir.faults >= old(dir.faults) && (ok <==> dir.faults == old(dir.faults))
  {
    if path !in dir.files { return true; }
    ghost var start := dir.files;
    ok := Build(dir, path, keep);
    if !ok { return; }
    ghost var built := dir.files;
    PublishIsPublished(start, built, path, keep);
    PublishDuplicates(built, path, keep);
    NamesDiffer(path, 1, 1);
    assert Archive(path, 1) !in dir.files by { assert Slot(dir.files, path, 1).None?; }
    var s := dir.Rename(Partial(path), Archive(path, 1));
    if s != Done {
      ScratchIsInvisible(built, [], path, keep);
      var _ := dir.Remove(Partial(path));
      return false;
    }
  }

  /** The archive under construction, complete or removed again. */
  method Build(dir: Dir, path: string, keep: nat) returns (ok: bool)
    requires keep > 0 && path in dir.files && Slot(dir.files, path, 1).None?
    modifies dir
    ensures dir.clobbered == old(dir.clobbered) && OthersKept(old(dir.files), dir.files, path, keep)
    ensures old(dir.trace) <= dir.trace
    ensures SameLog(dir.trace, |old(dir.trace)|, Log(old(dir.files), path, keep), path, keep)
    ensures Log(dir.files, path, keep) == Log(old(dir.files), path, keep) && Get(dir.files, path) == Get(old(dir.files), path)
    ensures Slot(dir.files, path, 1).None?
    ensures ok ==> dir.files == old(dir.files)[Partial(path) := old(dir.files)[path]]
    ensures dir.faults >= old(dir.faults) && (ok <==> dir.faults == old(dir.faults))
  {
    ghost var start := dir.files;
    var readable := dir.Access(path);
    if !readable { return false; }
    var content := dir.files[path];
    var s := dir.Overwrite(Partial(path), content);
    ghost var built := dir.files;
    ScratchIsInvisible(start, built[Partial(path)], path, keep);
    if s == Fault {
      ScratchIsInvisible(built, [], path, keep);
      var _ := dir.Remove(Partial(path));
      return false;
    }
    ok := true;
  }

  lemma PublishIsPublished(start: Names, built: Names, path: string, keep: nat)
    requires keep > 0 && path in start && Slot(start, path, 1).None?
    requires built == start[Partial(path) := start[path]]
    ensures Published(start, built[Archive(path, 1) := built[Partial(path)]] - {Partial(path)}, path, keep)
  {
    ScratchIsInvisible(start, start[path], path, keep);
    PublishDuplicates(built, path, keep);
    SlotsGiveContents(start, built, path, keep);
    ArchivedFrame(start, built, path, keep);
  }

  // ----------------------------------------------------------------- rotate

  lemma PruneDropsOldest(files: Names, path: string, keep: nat)
    requires keep > 0
    ensures
      var next := files - {Archive(path, keep)};
      && Log(next, path, keep) == Younger(files, path, keep) && OthersKept(files, next, path, keep)
      && Slot(next, path, keep).None?
      && (forall k: nat {:trigger Slot(next, path, k)} :: k != keep ==> Slot(next, path, k) == Slot(files, path, k))
      && Get(next, path) == Get(files, path) && (path in next <==> path in files)
  {
    var next := files - {Archive(path, keep)};
    SlotsAfterRemove(files, path, keep);
    SlotsGiveContents(next, files, path, keep - 1);
    ArchivedFrame(next, files, path, keep - 1);
    assert Get(next, Archive(path, keep)) == [];
  }

  lemma SlotsAfterRemove(files: Names, path: string, i: nat)
    ensures
      var next := files - {Archive(path, i)};
      && Get(next, path) == Get(files, path) && (path in next <==> path in files) && Slot(next, path, i).None?
      && forall k: nat {:trigger Slot(next, path, k)} {:trigger Slot(files, path, k)} :: k != i ==> Slot(next, path, k) == Slot(files, path, k)
  {
    var next := files - {Archive(path, i)};
    NamesDiffer(path, i, i);
    forall k: nat | k != i ensures Slot(next, path, k) == Slot(files, path, k) {
      NamesDiffer(path, k, i);
    }
  }

  lemma RemoveLiveEndsDuplicate(files: Names, path: string, keep: nat)
    ensures
      var next := files - {path};
      && Log(next, path, keep) == Archived(files, path, keep) && OthersKept(files, next, path, keep) && Get(next, path) == []
      && forall k: nat {:trigger Slot(next, path, k)} :: Slot(next, path, k) == Slot(files, path, k)
  {
    var next := files - {path};
    forall k: nat ensures Archive(path, k) != path { NamesDiffer(path, k, k); }
    assert forall k: nat :: Slot(next, path, k) == Slot(files, path, k);
    SlotsGiveContents(next, files, path, keep);
    ArchivedFrame(next, files, path, keep);
  }

  /** The files after a whole rotation: everything moved one place, the live file gone. */
  ghost predicate Rotated(before: Names, after: Names, path: string, keep: nat) {
    && path !in after
    && Slot(after, path, 1) == Some(Get(before, path))
    && forall k: nat {:trigger Slot(after, path, k)} :: 2 <= k <= keep ==> Slot(after, path, k) == Slot(before, path, k - 1)
  }

  /** Prune the oldest archive and shift the others. */
  method PruneAndShift(dir: Dir, path: string, keep: nat) returns (ok: bool)
    requires keep > 0 && path in dir.files
    modifies dir
    ensures dir.clobbered == old(dir.clobbered) && OthersKept(old(dir.files), dir.files, path, keep)
    ensures old(dir.trace) <= dir.trace
    ensures AllConserved(old(dir.files), dir.trace, |old(dir.trace)|, path, keep)
    ensures Conserved(old(dir.files), dir.files, path, keep)
    ensures ok ==> Log(dir.files, path, keep) == Younger(old(dir.files), path, keep)
    ensures ok ==> Shifted(old(dir.files), dir.files, path, keep)
    ensures dir.faults >= old(dir.faults) && (ok <==> dir.faults == old(dir.faults))
  {
    ghost var start := dir.files;
    PruneDropsOldest(start, path, keep);
    var s := dir.Remove(Archive(path, keep));
    if s == Fault { return false; }
    ghost var pruned := dir.files;
    if s == Missing { assert pruned == start - {Archive(path, keep)}; }
    ok := Shift(dir, path, keep);
    if ok { ShiftOfPruned(start, pruned, dir.files, path, keep); }
  }

  lemma ShiftOfPruned(start: Names, pruned: Names, shifted: Names, path: string, keep: nat)
    requires keep > 0 && Shifted(pruned, shifted, path, keep)
    requires forall k: nat :: k != keep ==> Slot(pruned, path, k) == Slot(start, path, k)
    requires Get(pruned, path) == Get(start, path) && (path in pruned <==> path in start)
    ensures Shifted(start, shifted, path, keep)
  {
  }

  /** Publish the live file as archive 1 and remove it. */
  method PublishAndRemove(dir: Dir, path: string, keep: nat) returns (ok: bool)
    requires keep > 0 && path in dir.files && Slot(dir.files, path, 1).None?
    modifies dir
    ensures dir.clobbered == old(dir.clobbered) && OthersKept(old(dir.files), dir.files, path, keep)
    ensures old(dir.trace) <= dir.trace
    ensures forall j :: |old(dir.trace)| <= j < |dir.trace| ==>
              Log(dir.trace[j], path, keep) == Log(old(dir.files), path, keep) || Published(old(dir.files), dir.trace[j], path, keep)
    ensures Log(dir.files, path, keep) == Log(old(dir.files), path, keep) || Published(old(dir.files), dir.files, path, keep)
    ensures ok ==> path !in dir.files && Slot(dir.files, path, 1) == Some(Get(old(dir.files), path))
    ensures ok ==> Log(dir.files, path, keep) == Log(old(dir.files), path, keep)
    ensures ok ==> forall k: nat {:trigger Slot(dir.files, path, k)} :: k != 1 ==> Slot(dir.files, path, k) == Slot(old(dir.files), path, k)
    ensures dir.faults >= old(dir.faults) && (ok <==> dir.faults == old(dir.faults))
  {
    ghost var start := dir.files;
    ok := GzipFile(dir, path, keep);
    if !ok { return; }
    ghost var published := dir.files;
    RemoveLiveEndsDuplicate(published, path, keep);
    assert Archived(published, path, keep) == Log(start, path, keep) by {
      assert Archived(published, path, keep) + Get(start, path) == Log(start, path, keep) + Get(start, path);
      SameFront(Archived(published, path, keep), Log(start, path, keep), Get(start, path));
    }
    var s := dir.Remove(path);
    ok := s != Fault;
  }

  lemma SameFront(a: File, b: File, tail: File)
    requires a + tail == b + tail
    ensures a == b
  {
    assert |a| == |b|;
    assert (a + tail)[..|a|] == a && (b + tail)[..|b|] == b;
  }

  /**
   rotate with archives, up to the reopening: wherever it stops, the directory and
   every state it passed through are conserved, and no rename met an existing file.
   */
  method RotateArchives(dir: Dir, path: string, keep: nat) returns (ok: bool)
    requires keep > 0 && path in dir.files
    modifies dir
    ensures dir.clobbered == old(dir.clobbered) && OthersKept(old(dir.files), dir.files, path, keep)
    ensures old(dir.trace) <= dir.trace
    ensures AllConserved(old(dir.files), dir.trace, |old(dir.trace)|, path, keep)
    ensures Conserved(old(dir.files), dir.files, path, keep)
    ensures ok ==> Rotated(old(dir.files), dir.files, path, keep)
    ensures ok ==> Log(dir.files, path, keep) == Younger(old(dir.files), path, keep)
    ensures dir.faults >= old(dir.faults) && (ok <==> dir.faults == old(dir.faults))
  {
    ok := PruneAndShift(dir, path, keep);
    if !ok { return; }
    ghost var mid := dir.trace;
    ok := PublishAndRemove(dir, path, keep);
    forall j | |old(dir.trace)| <= j < |dir.trace| ensures Conserved(old(dir.files), dir.trace[j], path, keep) {
      if j < |mid| { assert dir.trace[j] == mid[j]; }
    }
  }

  // ------------------------------------------------------ the abstract shelf

  /** What is retained: the live file and the archives, newest first, `keep` of them. */
  datatype Shelf = Shelf(live: File, archives: seq<File>)

  function ShelfOf(files: Names, path: string, keep: nat): Shelf {
    Shelf(Get(files, path), seq(keep, i requires 0 <= i < keep => Get(files, Archive(path, i + 1))))
  }

  function Chronological(archives: seq<File>): File {
    if archives == [] then []
    else archives[|archives| - 1] + Chronological(archives[..|archives| - 1])
  }

  function ShelfLog(s: Shelf): File { Chronological(s.archives) + s.live }

  lemma {:induction false} ArchivedIsChronological(files: Names, path: string, keep: nat)
    ensures Chronological(ShelfOf(files, path, keep).archives) == Archived(files, path, keep)
  {
    if keep > 0 {
      ArchivedIsChronological(files, path, keep - 1);
      assert ShelfOf(files, path, keep).archives[..keep - 1] == ShelfOf(files, path, keep - 1).archives;
    }
  }

  lemma LogIsShelfLog(files: Names, path: string, keep: nat)
    ensures Log(files, path, keep) == ShelfLog(ShelfOf(files, path, keep))
  {
    ArchivedIsChronological(files, path, keep);
  }

  function RotateShelf(s: Shelf): Shelf {
    if s.archives == [] then Shelf([], [])
    else Shelf([], [s.live] + s.archives[..|s.archives| - 1])
  }

  predicate Overflows(s: Shelf, line: Line, maxBytes: nat) {
    Size(s.live) > 0 && Size(s.live) + line.size > maxBytes
  }

  /** Rotated first if the line would not fit. */
  function WithRoom(s: Shelf, line: Line, maxBytes: nat): Shelf {
    if Overflows(s, line, maxBytes) then RotateShelf(s) else s
  }

  function Added(s: Shelf, line: Line, maxBytes: nat): Shelf {
    var r := WithRoom(s, line, maxBytes);
    r.(live := r.live + [line])
  }

  /**
   What one written line does: unless it would take a file that is not empty past the
   bound it goes to the end of the live file, and else the live file becomes the first
   archive, every archive the next, the last one goes, and the line starts a new file.
   */
  lemma AddedIs(s: Shelf, line: Line, maxBytes: nat)
    ensures Size(s.live) == 0 || Size(s.live) + line.size <= maxBytes ==>
              Added(s, line, maxBytes) == Shelf(s.live + [line], s.archives)
    ensures Size(s.live) > 0 && Size(s.live) + line.size > maxBytes ==>
              var a := Added(s, line, maxBytes);
              && a.live == [line] && |a.archives| == |s.archives|
              && (s.archives != [] ==> a.archives[0] == s.live)
              && forall i :: 0 < i < |s.archives| ==> a.archives[i] == s.archives[i - 1]
    ensures
      var log := ShelfLog(Added(s, line, maxBytes));
      log != [] && log[|log| - 1] == line
  {
    assert Added(s, line, maxBytes).live == WithRoom(s, line, maxBytes).live + [line];
  }

  /** The size of a file is that of its lines, one by one. */
  lemma SizeIs(f: File, line: Line)
    ensures Size([]) == 0 && Size(f + [line]) == Size(f) + line.size
  {
    assert (f + [line])[..|f|] == f;
  }

  lemma RotatedIsRotateShelf(before: Names, after: Names, path: string, keep: nat)
    requires if keep > 0 then Rotated(before, after, path, keep) else path !in after
    ensures ShelfOf(after, path, keep) == RotateShelf(ShelfOf(before, path, keep))
  {
    var a, b := ShelfOf(after, path, keep), ShelfOf(before, path, keep);
    if keep > 0 {
      forall i | 0 <= i < keep ensures a.archives[i] == if i == 0 then b.live else b.archives[i - 1] {
        var slot := Slot(after, path, i + 1);
        assert slot == if i == 0 then Some(Get(before, path)) else Slot(before, path, i);
      }
    }
  }

  // ----------------------------------------------------------------- writer

  const DEFAULT_MAX_BYTES: nat := 10 * 1024 * 1024

  class Writer {
    const path: string
    const maxBytes: nat
    const keep: nat
    const dir: Dir
    /** The live file is open for appending. */
    var open: bool
    var n: nat

    ghost predicate Valid()
      reads this, dir
    {
      open ==> path in dir.files && n == Size(dir.files[path])
    }

    ghost function Contents(): Shelf
      reads this, dir
    {
      ShelfOf(dir.files, path, keep)
    }

    /** A bound that is not positive means the default, a negative number of archives none. */
    constructor (dir: Dir, path: string, maxBytes: int, keep: int)
      ensures this.dir == dir && this.path == path && !open && Valid()
      ensures this.maxBytes == if maxBytes <= 0 then 10485760 else maxBytes
      ensures this.keep == if keep < 0 then 0 else keep
    {
      this.dir, this.path := dir, path;
      this.maxBytes := if maxBytes <= 0 then DEFAULT_MAX_BYTES else maxBytes;
      this.keep := if keep < 0 then 0 else keep;
      open, n := false, 0;
    }

    /** `open`: create the live file or append to the one that is there. */
    method Reopen() returns (ok: bool)
      requires Valid() && !open
      modifies this, dir
      ensures Valid() && ok == open && old(dir.trace) <= dir.trace && dir.clobbered == old(dir.clobbered)
      ensures Contents() == old(Contents())
      ensures forall j :: |old(dir.trace)| <= j < |dir.trace| ==> Log(dir.trace[j], path, keep) == Log(old(dir.files), path, keep)
      ensures dir.faults >= old(dir.faults) && (ok <==> dir.faults == old(dir.faults))
      ensures OthersKept(old(dir.files), dir.files, path, keep)
    {
      ghost var before := dir.files;
      var s := dir.Append(path, []);
      if s != Done { return false; }
      assert Get(before, path) + [] == Get(before, path);
      SameShelf(before, dir.files, path, keep);
      n := Size(dir.files[path]);
      open := true;
      ok := true;
    }

    /** `rotate`: on success the live file is empty again; on failure the writer stays closed. */
    method Rotate() returns (ok: bool)
      requires Valid() && open
      modifies this, dir
      ensures Valid() && ok == open && old(dir.trace) <= dir.trace && dir.clobbered == old(dir.clobbered)
      ensures ok ==> Contents() == RotateShelf(old(Contents()))
      ensures keep > 0 ==> AllConserved(old(dir.files), dir.trace, |old(dir.trace)|, path, keep) && Conserved(old(dir.files), dir.files, path, keep)
      ensures dir.faults >= old(dir.faults) && (ok <==> dir.faults == old(dir.faults))
      ensures OthersKept(old(dir.files), dir.files, path, keep)
    {
      ghost var before := dir.files;
      open := false;
      var closed := dir.Access(path);
      if !closed { return false; }
      if keep == 0 {
        var s := dir.Remove(path);
        if s == Fault { return false; }
      } else {
        ok := RotateArchives(dir, path, keep);
        if !ok { return; }
      }
      RotatedIsRotateShelf(before, dir.files, path, keep);
      LogIsShelfLog(dir.files, path, keep);
      n := 0;
      ghost var rotated := dir.trace;
      ok := Reopen();
      LogIsShelfLog(dir.files, path, keep);
      if keep > 0 {
        ConservedAcross(before, rotated, dir.trace, |old(dir.trace)|, path, keep);
      }
    }

    /**
     Write: rotate first if the line would not fit, then append it whole. Every
     directory state on the way is conserved, whether or not it succeeds.
     */
    method Write(line: Line) returns (ok: bool)
      requires Valid()
      modifies this, dir
      ensures Valid() && old(dir.trace) <= dir.trace && dir.clobbered == old(dir.clobbered)
      ensures ok ==> old(open) && open && Contents() == Added(old(Contents()), line, maxBytes)
      ensures !old(open) ==> !ok && dir.files == old(dir.files)
      ensures !ok && open ==> Contents() == old(Contents()) || Contents() == RotateShelf(old(Contents()))
      ensures !ok && !open && keep > 0 ==> Conserved(old(dir.files), dir.files, path, keep)
      ensures dir.faults >= old(dir.faults) && (!ok <==> !old(open) || dir.faults > old(dir.faults))
      ensures OthersKept(old(dir.files), dir.files, path, keep)
    {
      if !open { return false; }
      ok := MakeRoom(line);
      if ok { ok := AppendLine(line); }
    }

    /** The check before the append. */
    method MakeRoom(line: Line) returns (ok: bool)
      requires Valid() && open
      modifies this, dir
      ensures Valid() && ok == open && old(dir.trace) <= dir.trace && dir.clobbered == old(dir.clobbered)
      ensures ok ==> Contents() == WithRoom(old(Contents()), line, maxBytes)
      ensures !ok && keep > 0 ==> Conserved(old(dir.files), dir.files, path, keep)
      ensures dir.faults >= old(dir.faults) && (ok <==> dir.faults == old(dir.faults))
      ensures OthersKept(old(dir.files), dir.files, path, keep)
    {
      ok := true;
      if n > 0 && n + line.size > maxBytes { ok := Rotate(); }
    }

    method AppendLine(line: Line) returns (ok: bool)
      requires Valid() && open
      modifies this`n, dir
      ensures Valid() && old(dir.trace) <= dir.trace && dir.clobbered == old(dir.clobbered)
      ensures Contents() == if ok then old(Contents()).(live := old(Contents()).live + [line]) else old(Contents())
      ensures dir.faults >= old(dir.faults) && (ok <==> dir.faults == old(dir.faults))
      ensures OthersKept(old(dir.files), dir.files, path, keep)
    {
      ghost var before := dir.files;
      var s := dir.Append(path, [line]);
      if s != Done { return false; }
      AppendedShelf(before, dir.files, path, keep, line);
      n := n + line.size;
      ok := true;
    }
  }

  /** Open: the path must be absolute; the file that is there is kept and appended to. */
  method Open(dir: Dir, path: string, maxBytes: int, keep: int) returns (w: Option<Writer>)
    modifies dir
    ensures w.Some? <==> "/" <= path && dir.faults == old(dir.faults)
    ensures w.Some? ==> fresh(w.value) && w.value.dir == dir && w.value.path == path && w.value.Valid() && w.value.open
    ensures w.Some? ==> w.value.maxBytes == if maxBytes <= 0 then 10485760 else maxBytes
    ensures w.Some? ==> w.value.keep == if keep < 0 then 0 else keep
    ensures w.Some? ==> w.value.Contents() == ShelfOf(old(dir.files), path, w.value.keep)
    ensures dir.clobbered == old(dir.clobbered)
    ensures OthersKept(old(dir.files), dir.files, path, if keep < 0 then 0 else keep)
  {
    if !("/" <= path) { return None; }
    var made := dir.Access(path);
    if !made { return None; }
    var writer := new Writer(dir, path, maxBytes, keep);
    var ok := writer.Reopen();
    w := if ok then Some(writer) else None;
  }

  lemma SameShelf(a: Names, b: Names, path: string, keep: nat)
    requires b == a[path := Get(a, path)]
    ensures ShelfOf(a, path, keep) == ShelfOf(b, path, keep)
    ensures Log(b, path, keep) == Log(a, path, keep)
    ensures OthersKept(a, b, path, keep)
  {
    forall k: nat ensures Archive(path, k) != path { NamesDiffer(path, k, k); }
    assert ShelfOf(a, path, keep).archives == ShelfOf(b, path, keep).archives;
    LogIsShelfLog(a, path, keep);
    LogIsShelfLog(b, path, keep);
  }

  lemma AppendedShelf(a: Names, b: Names, path: string, keep: nat, line: Line)
    requires b == a[path := Get(a, path) + [line]]
    ensures ShelfOf(b, path, keep) == ShelfOf(a, path, keep).(live := Get(a, path) + [line])
    ensures Size(b[path]) == Size(Get(a, path)) + line.size
    ensures OthersKept(a, b, path, keep)
  {
    forall k: nat ensures Archive(path, k) != path { NamesDiffer(path, k, k); }
    assert ShelfOf(a, path, keep).archives == ShelfOf(b, path, keep).archives;
    assert b[path][..|b[path]| - 1] == Get(a, path);
  }

  /** Reopening after the rotation adds states with the same log. */
  lemma ConservedAcross(start: Names, mid: seq<Names>, end: seq<Names>, since: nat, path: string, keep: nat)
    requires keep > 0 && mid <= end && since <= |mid| && AllConserved(start, mid, since, path, keep)
    requires forall j :: |mid| <= j < |end| ==> Log(end[j], path, keep) == Younger(start, path, keep)
    ensures AllConserved(start, end, since, path, keep)
  {
    forall j | since <= j < |end| ensures Conserved(start, end[j], path, keep) {
      if j < |mid| { assert end[j] == mid[j]; }
    }
  }

  // -------------------------------------------------------------- whole runs

  function Run(s: Shelf, lines: seq<Line>, maxBytes: nat): Shelf {
    if lines == [] then s else Added(Run(s, lines[..|lines| - 1], maxBytes), lines[|lines| - 1], maxBytes)
  }

  function Rotations(s: Shelf, lines: seq<Line>, maxBytes: nat): nat {
    if lines == [] then 0
    else
      var init, last := lines[..|lines| - 1], lines[|lines| - 1];
      Rotations(s, init, maxBytes) + if Overflows(Run(s, init, maxBytes), last, maxBytes) then 1 else 0
  }

  lemma {:induction false} ChronologicalPushFront(newest: File, archives: seq<File>)
    ensures Chronological([newest] + archives) == Chronological(archives) + newest
  {
    var all := [newest] + archives;
    if archives == [] {
      assert all[..0] == [] && all[0] == newest;
    } else {
      var n := |archives| - 1;
      assert all[..n + 1] == [newest] + archives[..n] && all[n + 1] == archives[n];
      ChronologicalPushFront(newest, archives[..n]);
    }
  }

  /** A rotation drops the oldest archive from the front of the log and changes nothing else. */
  lemma RotateShelfDropsOldest(s: Shelf)
    ensures ShelfLog(s) == (if s.archives == [] then s.live else s.archives[|s.archives| - 1]) + ShelfLog(RotateShelf(s))
    ensures |RotateShelf(s).archives| == |s.archives|
  {
    if s.archives != [] {
      ChronologicalPushFront(s.live, s.archives[..|s.archives| - 1]);
    }
  }

  ghost predicate IsSuffix(a: File, b: File) {
    |a| <= |b| && b[|b| - |a|..] == a
  }

  /** What is retained after any run is a suffix of everything ever written, in order. */
  lemma {:induction false} RetainedIsSuffix(s: Shelf, lines: seq<Line>, maxBytes: nat)
    ensures IsSuffix(ShelfLog(Run(s, lines, maxBytes)), ShelfLog(s) + lines)
  {
    if lines == [] {
      assert ShelfLog(s) + lines == ShelfLog(s);
    } else {
      var init, last := lines[..|lines| - 1], lines[|lines| - 1];
      RetainedIsSuffix(s, init, maxBytes);
      var r := Run(s, init, maxBytes);
      AddedIsSuffix(r, last, maxBytes);
      SuffixGrows(ShelfLog(r), ShelfLog(Added(r, last, maxBytes)), ShelfLog(s) + init, last);
      LastSplits(ShelfLog(s), lines);
    }
  }

  lemma LastSplits(a: File, b: File)
    requires b != []
    ensures a + b == a + b[..|b| - 1] + [b[|b| - 1]]
  {
  }

  lemma AddedIsSuffix(r: Shelf, last: Line, maxBytes: nat)
    ensures IsSuffix(ShelfLog(Added(r, last, maxBytes)), ShelfLog(r) + [last])
  {
    RotateShelfDropsOldest(r);
    var t := if Overflows(r, last, maxBytes) then RotateShelf(r) else r;
    assert ShelfLog(Added(r, last, maxBytes)) == ShelfLog(t) + [last];
  }

  lemma SuffixGrows(a: File, b: File, whole: File, last: Line)
    requires IsSuffix(a, whole) && IsSuffix(b, a + [last])
    ensures IsSuffix(b, whole + [last])
  {
    assert (whole + [last])[|whole| - |a|..] == a + [last];
    var n := |a| + 1 - |b|;
    assert (whole + [last])[|whole| + 1 - |b|..] == (a + [last])[n..];
  }

  /** Within the bound, or a single line that is larger than the bound by itself. */
  ghost predicate Fits(f: File, maxBytes: nat) { Size(f) <= maxBytes || |f| == 1 }

  /** Every file fits and no line is empty. */
  ghost predicate Bounded(s: Shelf, maxBytes: nat) {
    && Fits(s.live, maxBytes)
    && (forall i :: 0 <= i < |s.archives| ==> Fits(s.archives[i], maxBytes))
    && (s.live == [] || Size(s.live) > 0)
  }

  lemma {:induction false} FilesStayBounded(s: Shelf, lines: seq<Line>, maxBytes: nat)
    requires Bounded(s, maxBytes) && forall i :: 0 <= i < |lines| ==> lines[i].size > 0
    ensures Bounded(Run(s, lines, maxBytes), maxBytes)
  {
    if lines != [] {
      FilesStayBounded(s, lines[..|lines| - 1], maxBytes);
      AddedIsBounded(Run(s, lines[..|lines| - 1], maxBytes), lines[|lines| - 1], maxBytes);
    }
  }

  lemma AddedIsBounded(s: Shelf, line: Line, maxBytes: nat)
    requires Bounded(s, maxBytes) && line.size > 0
    ensures Bounded(Added(s, line, maxBytes), maxBytes)
  {
    var t := WithRoom(s, line, maxBytes);
    RotatedIsBounded(s, maxBytes);
    assert Bounded(t, maxBytes);
    SizeIs(t.live, line);
  }

  lemma RotatedIsBounded(s: Shelf, maxBytes: nat)
    requires Bounded(s, maxBytes)
    ensures Bounded(RotateShelf(s), maxBytes)
  {
    var r := RotateShelf(s);
    forall i | 0 <= i < |r.archives| ensures Fits(r.archives[i], maxBytes) {
      assert r.archives[i] == if i == 0 then s.live else s.archives[i - 1];
    }
  }

  function TotalSize(files: seq<File>): nat {
    if files == [] then 0 else TotalSize(files[..|files| - 1]) + Size(files[|files| - 1])
  }

  /** The newest archives, one for each rotation so far, are nearly full. */
  lemma {:induction false} ArchivesAreFull(s: Shelf, lines: seq<Line>, maxBytes: nat, largest: nat)
    requires forall i :: 0 <= i < |lines| ==> lines[i].size <= largest
    ensures NewestFull(Run(s, lines, maxBytes).archives, Rotations(s, lines, maxBytes), maxBytes, largest)
  {
    if lines != [] {
      var init, last := lines[..|lines| - 1], lines[|lines| - 1];
      ArchivesAreFull(s, init, maxBytes, largest);
      FullAfterAdd(Run(s, init, maxBytes), last, maxBytes, largest, Rotations(s, init, maxBytes));
    }
  }

  ghost predicate NewestFull(archives: seq<File>, count: nat, maxBytes: nat, largest: nat) {
    forall i :: 0 <= i < |archives| && i < count ==> Size(archives[i]) + largest > maxBytes
  }

  lemma FullAfterAdd(s: Shelf, line: Line, maxBytes: nat, largest: nat, count: nat)
    requires line.size <= largest && NewestFull(s.archives, count, maxBytes, largest)
    ensures NewestFull(Added(s, line, maxBytes).archives, count + if Overflows(s, line, maxBytes) then 1 else 0, maxBytes, largest)
  {
    var r := Added(s, line, maxBytes);
    if Overflows(s, line, maxBytes) {
      assert forall i :: 0 < i < |r.archives| ==> r.archives[i] == s.archives[i - 1];
    }
  }

  lemma {:induction false} SumOfFull(files: seq<File>, floor: int)
    requires forall i :: 0 <= i < |files| ==> Size(files[i]) >= floor
    ensures TotalSize(files) >= |files| * floor
  {
    if files != [] {
      SumOfFull(files[..|files| - 1], floor);
      assert |files| * floor == (|files| - 1) * floor + floor;
    }
  }

  /** After `keep` rotations at least `keep` full files, short of one line each, are retained. */
  lemma RetentionFloor(s: Shelf, lines: seq<Line>, maxBytes: nat, largest: nat)
    requires forall i :: 0 <= i < |lines| ==> lines[i].size <= largest
    requires s.archives != [] && Rotations(s, lines, maxBytes) >= |s.archives|
    ensures TotalSize(Run(s, lines, maxBytes).archives) >= |s.archives| * (maxBytes - largest + 1)
  {
    SameCount(s, lines, maxBytes);
    ArchivesAreFull(s, lines, maxBytes, largest);
    FullIsMuch(Run(s, lines, maxBytes).archives, Rotations(s, lines, maxBytes), maxBytes, largest);
  }

  lemma FullIsMuch(archives: seq<File>, count: nat, maxBytes: nat, largest: nat)
    requires NewestFull(archives, count, maxBytes, largest) && count >= |archives|
    ensures TotalSize(archives) >= |archives| * (maxBytes - largest + 1)
  {
    SumOfFull(archives, maxBytes - largest + 1);
  }

  lemma {:induction false} SameCount(s: Shelf, lines: seq<Line>, maxBytes: nat)
    ensures |Run(s, lines, maxBytes).archives| == |s.archives|
  {
    if lines != [] { SameCount(s, lines[..|lines| - 1], maxBytes); }
  }
}
