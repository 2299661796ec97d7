/**
 Restoring the previous images (internal/pipeline/pipeline.go `rollback`): the
 retagging loop over a changing tag table, the recreation, and what the outcome
 word says about the images that run afterwards.
 */
module Rollback {
  import opened Wrappers
  import opened Jobs
  import opened Trace
  import opened Docker
  import ImageRef
  import Health

  datatype Hook = NoHook | PreUpdate(required: bool)

  /** The part of a target's configuration the pipeline reads. */
  datatype Target = Target(services: seq<string>, takesTag: bool, rollback: bool, hook: Hook,
                           healthTimeout: int, stabilityWindow: int)

  datatype Cause = UpFailed | Unhealthy(failure: Health.Failure)

  datatype Message =
    | InvalidCompose
    | InspectFailed
    | TagRefused(refusal: ImageRef.Refusal)
    | PullFailed
    | DryRunReport(changed: seq<string>)
    | UpToDate
    | HookFailed
    | Updated(changed: seq<string>)
    | RollbackDisabled(cause: Cause)
    | RollbackReport(cause: Cause, missing: seq<string>, retagFailed: seq<string>)

  /** The value of the tag variable a docker command runs with. */
  function EnvTag(t: Target, tag: string): string {
    if t.takesTag then tag else ""
  }

  /** The reference a container is to run, "" if it has none that can be tagged. */
  function RefOf(desired: map<string, string>, c: Container): string {
    var wanted := if c.service in desired then ImageRef.TaggedRef(desired[c.service]) else "";
    if wanted != "" then wanted else ImageRef.TaggedRef(c.image)
  }

  /** The tag of the first wanted container that has one. */
  function PreviousTag(t: Target, before: seq<Container>): string {
    if !t.takesTag || before == [] then ""
    else if InScope(t.services, before[0].service) && ImageRef.RefTag(before[0].image) != ""
    then ImageRef.RefTag(before[0].image)
    else PreviousTag(t, before[1..])
  }

  /** Container `i` is the first wanted one that has a tag. */
  ghost predicate FirstTagged(t: Target, before: seq<Container>, i: int) {
    && 0 <= i < |before| && Tagged(t, before[i])
    && forall k :: 0 <= k < i ==> !Tagged(t, before[k])
  }

  predicate Tagged(t: Target, c: Container) {
    InScope(t.services, c.service) && ImageRef.RefTag(c.image) != ""
  }

  /** A target that takes a tag goes back to a given one exactly when the first wanted container with a tag carries it. */
  lemma {:induction false} PreviousTagIff(t: Target, before: seq<Container>, tag: string)
    requires t.takesTag && tag != ""
    ensures PreviousTag(t, before) == tag <==> exists i :: FirstTagged(t, before, i) && ImageRef.RefTag(before[i].image) == tag
  {
    if before != [] {
      var rest := before[1..];
      PreviousTagIff(t, rest, tag);
      if Tagged(t, before[0]) {
        assert FirstTagged(t, before, 0);
      } else {
        forall i ensures FirstTagged(t, before, i + 1) <==> FirstTagged(t, rest, i) {
          if 0 <= i < |rest| {
            assert before[i + 1] == rest[i] && forall k :: 0 < k <= i ==> before[k] == rest[k - 1];
            assert forall k :: 0 <= k < i ==> rest[k] == before[k + 1];
          }
        }
        forall i | FirstTagged(t, before, i) ensures i > 0 && FirstTagged(t, rest, i - 1) {
          assert FirstTagged(t, before, (i - 1) + 1);
        }
      }
    }
  }

  /** So a service that does not follow the tag variable, listed first, gives the stack its own tag to go back to. */
  lemma AnotherServiceGivesTheTag()
    ensures
      var db := Container("db", "db-1", "running", "", "postgres:15", "a");
      var web := Container("web", "web-1", "running", "", "acme/web:1", "b");
      PreviousTag(Target([], true, true, NoHook, 1, 0), [db] + [web]) == "15"
  {
    PostgresTag();
    FirstGivesTheTag(Target([], true, true, NoHook, 1, 0), Container("db", "db-1", "running", "", "postgres:15", "a"),
                     [Container("web", "web-1", "running", "", "acme/web:1", "b")]);
  }

  lemma FirstGivesTheTag(t: Target, c: Container, rest: seq<Container>)
    requires t.takesTag && Tagged(t, c)
    ensures PreviousTag(t, [c] + rest) == ImageRef.RefTag(c.image)
  {
    assert ([c] + rest)[0] == c;
  }

  lemma PostgresTag()
    ensures ImageRef.RefTag("postgres:15") == "15"
  {
    assert "postgres" + [':'] + "15" == "postgres:15";
    assert "postgres:"[0] != ImageRef.DIGEST_PREFIX[0];
    ImageRef.RejoinIff("postgres", "15");
  }

  /** What is taken for the resolved images when the compose file does not resolve. */
  function FromContainers(before: seq<Container>): map<string, string> {
    if before == [] then map[]
    else
      var c := before[|before| - 1];
      var rest := FromContainers(before[..|before| - 1]);
      if ImageRef.TaggedRef(c.image) != "" then rest[c.service := ImageRef.TaggedRef(c.image)] else rest
  }

  method ResolveImages(d: Daemon, sink: Recorder, tag: string, before: seq<Container>)
    returns (desired: map<string, string>, ghost resolved: bool)
    requires sink.Mode() == Closed
    modifies d`now, d`badResolve, sink
    ensures old(sink.calls) <= sink.calls && sink.Mode() == Closed
    ensures ShownBy(sink.calls) == Noted(ShownBy(old(sink.calls)), "resolve-images", resolved)
    ensures d.now >= old(d.now)
    ensures d.badResolve == old(d.badResolve) + if resolved then 0 else 1
    ensures desired == if resolved then d.compose(tag) else FromContainers(before)
  {
    sink.StartStep("resolve-images");
    var res;
    desired, res := d.DesiredImages(tag);
    resolved := res.err.None?;
    if res.err.Some? {
      desired := map[];
      for i := 0 to |before|
        invariant desired == FromContainers(before[..i])
      {
        assert before[..i + 1][..i] == before[..i];
        var ref := ImageRef.TaggedRef(before[i].image);
        if ref != "" { desired := desired[before[i].service := ref]; }
      }
      assert before[..|before|] == before;
    }
    sink.AddStep("resolve-images", res.err, []);
  }

  method Snapshot(d: Daemon, sink: Recorder, name: string, tag: string) returns (list: seq<Container>, res: Res)
    requires sink.Mode() == Closed
    modifies d`now, d`containers, d`looks, d`badList, sink
    ensures old(sink.calls) <= sink.calls && sink.Mode() == Closed
    ensures ShownBy(sink.calls) == Noted(ShownBy(old(sink.calls)), name, res.err.None?)
    ensures d.now >= old(d.now) && Identities(d.containers) == old(Identities(d.containers))
    ensures res.err.None? ==> list == d.containers
    ensures d.looks == old(d.looks) + [Look(tag, d.now, if res.err.None? then Some(list) else None)]
    ensures d.badList == old(d.badList) + if res.err.Some? then 1 else 0
  {
    sink.StartStep(name);
    list, res := d.Containers(tag);
    sink.AddStep(name, res.err, []);
  }

  // ------------------------------------------------------------- retagging

  /** What became of one container's image: nothing to restore, not on disk, not retagged, or in place. */
  datatype Mark = Skipped | Gone | NotTagged | Held

  predicate Restorable(desired: map<string, string>, c: Container) {
    c.imageID != "" && RefOf(desired, c) != ""
  }

  /** The services with a given mark, in container order. */
  function Named(before: seq<Container>, marks: seq<Mark>, m: Mark): seq<string>
    requires |marks| <= |before|
  {
    if marks == [] then []
    else
      var n := |marks| - 1;
      Named(before, marks[..n], m) + if marks[n] == m then [before[n].service] else []
  }

  /** No later container took over the reference of container `i`. */
  ghost predicate LastHolder(before: seq<Container>, desired: map<string, string>, marks: seq<Mark>, i: int)
    requires |marks| <= |before|
  {
    && 0 <= i < |marks| && marks[i] == Held
    && forall k :: i < k < |marks| && marks[k] == Held ==> RefOf(desired, before[k]) != RefOf(desired, before[i])
  }

  /** The tag table after the marked containers: every reference points at its last holder's image. */
  ghost predicate Retagged(before: seq<Container>, desired: map<string, string>, marks: seq<Mark>, tags: Tags) {
    && |marks| <= |before|
    && (forall i :: 0 <= i < |marks| ==> (marks[i] == Skipped <==> !Restorable(desired, before[i])))
    && forall i :: LastHolder(before, desired, marks, i) ==>
         RefOf(desired, before[i]) in tags && tags[RefOf(desired, before[i])] == before[i].imageID
  }

  /**
   The marks are honest: an image in place is on disk, one marked gone is not unless a
   question about it failed, and a retagging that failed should have worked.
   */
  ghost predicate Honest(before: seq<Container>, marks: seq<Mark>, images: set<string>, misled: bool, refused: bool)
    requires |marks| <= |before|
  {
    forall i :: 0 <= i < |marks| ==>
      && (marks[i] == Held ==> before[i].imageID in images)
      && (marks[i] == Gone ==> misled || before[i].imageID !in images)
      && (marks[i] == NotTagged ==> refused)
  }

  /** References that no container took over are as they were. */
  ghost predicate OthersKept(before: seq<Container>, desired: map<string, string>, marks: seq<Mark>, was: Tags, tags: Tags)
    requires |marks| <= |before|
  {
    forall ref :: ref in was.Keys + tags.Keys ==>
      || TakenOver(before, desired, marks, ref)
      || (ref in was && ref in tags && was[ref] == tags[ref])
  }

  ghost predicate TakenOver(before: seq<Container>, desired: map<string, string>, marks: seq<Mark>, ref: string)
    requires |marks| <= |before|
  {
    exists i :: 0 <= i < |marks| && marks[i] == Held && RefOf(desired, before[i]) == ref
  }

  lemma OthersStep(before: seq<Container>, desired: map<string, string>, marks: seq<Mark>, was: Tags, tags: Tags, m: Mark, next: Tags)
    requires |marks| < |before| && OthersKept(before, desired, marks, was, tags)
    requires next == if m == Held then tags[RefOf(desired, before[|marks|]) := before[|marks|].imageID] else tags
    ensures OthersKept(before, desired, marks + [m], was, next)
  {
    var more := marks + [m];
    forall ref | ref in was.Keys + next.Keys
      ensures TakenOver(before, desired, more, ref) || (ref in was && ref in next && was[ref] == next[ref])
    {
      if TakenOver(before, desired, marks, ref) {
        var i :| 0 <= i < |marks| && marks[i] == Held && RefOf(desired, before[i]) == ref;
        assert more[i] == Held;
      } else if m == Held && ref == RefOf(desired, before[|marks|]) {
        assert more[|marks|] == Held;
      } else {
        assert ref in was.Keys + tags.Keys;
      }
    }
  }

  lemma RetagStep(before: seq<Container>, desired: map<string, string>, marks: seq<Mark>, tags: Tags, m: Mark, next: Tags)
    requires Retagged(before, desired, marks, tags) && |marks| < |before|
    requires m == Skipped <==> !Restorable(desired, before[|marks|])
    requires next == if m == Held then tags[RefOf(desired, before[|marks|]) := before[|marks|].imageID] else tags
    ensures Retagged(before, desired, marks + [m], next)
  {
    var n, more := |marks|, marks + [m];
    forall i | LastHolder(before, desired, more, i)
      ensures RefOf(desired, before[i]) in next && next[RefOf(desired, before[i])] == before[i].imageID
    {
      if i < n {
        assert more[i] == marks[i] && forall k :: 0 <= k < n ==> more[k] == marks[k];
        assert LastHolder(before, desired, marks, i);
        assert more[n] == m;
      }
    }
  }

  /** All that a retagging over `marks` so far has done. */
  ghost predicate Retagging(before: seq<Container>, desired: map<string, string>, marks: seq<Mark>, was: Tags, tags: Tags,
                            images: set<string>, misled: bool, refused: bool) {
    && |marks| <= |before|
    && Retagged(before, desired, marks, tags) && OthersKept(before, desired, marks, was, tags)
    && Honest(before, marks, images, misled, refused)
  }

  /** What one more mark does. */
  ghost predicate Marks(m: Mark, desired: map<string, string>, c: Container, tags: Tags, next: Tags,
                        images: set<string>, misled: bool, refused: bool) {
    && (m == Skipped <==> !Restorable(desired, c))
    && next == (if m == Held then tags[RefOf(desired, c) := c.imageID] else tags)
    && (m == Held ==> c.imageID in images)
    && (m == Gone ==> misled || c.imageID !in images)
    && (m == NotTagged ==> refused)
  }

  lemma RetaggingStep(before: seq<Container>, desired: map<string, string>, marks: seq<Mark>, was: Tags, tags: Tags,
                      images: set<string>, misled: bool, refused: bool, m: Mark, next: Tags, misledNow: bool, refusedNow: bool)
    requires |marks| < |before| && Retagging(before, desired, marks, was, tags, images, misled, refused)
    requires (misled ==> misledNow) && (refused ==> refusedNow)
    requires Marks(m, desired, before[|marks|], tags, next, images, misledNow, refusedNow)
    ensures Retagging(before, desired, marks + [m], was, next, images, misledNow, refusedNow)
  {
    RetagStep(before, desired, marks, tags, m, next);
    OthersStep(before, desired, marks, was, tags, m, next);
    HonestStep(before, marks, images, misled, refused, m, misledNow, refusedNow);
  }

  lemma HonestStep(before: seq<Container>, marks: seq<Mark>, images: set<string>, misled: bool, refused: bool,
                   m: Mark, misledNow: bool, refusedNow: bool)
    requires |marks| < |before| && Honest(before, marks, images, misled, refused)
    requires (misled ==> misledNow) && (refused ==> refusedNow)
    requires m == Held ==> before[|marks|].imageID in images
    requires m == Gone ==> misledNow || before[|marks|].imageID !in images
    requires m == NotTagged ==> refusedNow
    ensures Honest(before, marks + [m], images, misledNow, refusedNow)
  {
    var more := marks + [m];
    assert forall i :: 0 <= i < |marks| ==> more[i] == marks[i];
  }

  method Retag(d: Daemon, sink: Recorder, before: seq<Container>, desired: map<string, string>)
    returns (missing: seq<string>, retagFailed: seq<string>, ghost marks: seq<Mark>, ghost notes: seq<Done>)
    requires sink.Mode() == Closed
    modifies d`now, d`tags, d`badLookup, d`badExists, d`badTag, sink
    ensures d.now >= old(d.now)
    ensures old(sink.calls) <= sink.calls && sink.Mode() == Closed
    ensures Adds(ShownBy(old(sink.calls)), ShownBy(sink.calls), notes)
    ensures |marks| == |before| && Marked(before, marks, notes, missing, retagFailed)
    ensures d.badLookup >= old(d.badLookup) && d.badExists >= old(d.badExists) && d.badTag >= old(d.badTag)
    ensures |marks| == |before|
    ensures Retagging(before, desired, marks, old(d.tags), d.tags, d.images, d.badExists > old(d.badExists), d.badTag > old(d.badTag))
  {
    missing, retagFailed, marks, notes := [], [], [], [];
    AddsNothing(ShownBy(sink.calls));
    for i := 0 to |before|
      invariant old(sink.calls) <= sink.calls && sink.Mode() == Closed
      invariant Adds(ShownBy(old(sink.calls)), ShownBy(sink.calls), notes)
      invariant |marks| == i && Marked(before, marks, notes, missing, retagFailed)
      invariant d.badLookup >= old(d.badLookup) && d.badExists >= old(d.badExists) && d.badTag >= old(d.badTag)
      invariant d.now >= old(d.now)
      invariant Retagging(before, desired, marks, old(d.tags), d.tags, d.images, d.badExists > old(d.badExists), d.badTag > old(d.badTag))
    {
      ghost var tags, misled, refused := d.tags, d.badExists > old(d.badExists), d.badTag > old(d.badTag);
      ghost var shown := ShownBy(sink.calls);
      var mark;
      ghost var note;
      mark, note := RetagOne(d, sink, before[i], desired);
      RetaggingStep(before, desired, marks, old(d.tags), tags, d.images, misled, refused, mark, d.tags,
                    d.badExists > old(d.badExists), d.badTag > old(d.badTag));
      MarkedStep(before, marks, notes, missing, retagFailed, mark, note);
      AddsMore(ShownBy(old(sink.calls)), shown, ShownBy(sink.calls), notes, note);
      marks, notes := marks + [mark], notes + note;
      if mark == Gone { missing := missing + [before[i].service]; }
      if mark == NotTagged { retagFailed := retagFailed + [before[i].service]; }
    }
  }

  /** The steps a retagging reports: one for each reference moved, or not moved, with the service's name and how it went. */
  ghost predicate TagNotes(before: seq<Container>, marks: seq<Mark>, notes: seq<Done>)
    requires |marks| <= |before|
    decreases marks
  {
    if marks == [] then notes == []
    else
      var n := |marks| - 1;
      exists k :: 0 <= k <= |notes| && TagNotes(before, marks[..n], notes[..k]) && TagNote(before[n], marks[n], notes[k..])
  }

  /** Of one container: nothing, or the step that put its reference back, or failed to. */
  ghost predicate TagNote(c: Container, m: Mark, note: seq<Done>) {
    match m
    case Skipped => note == []
    case Gone => note == []
    case NotTagged => note == [Done("rollback-tag:" + c.service, false)]
    case Held => note == [] || note == [Done("rollback-tag:" + c.service, true)]
  }

  lemma TagNotesStep(before: seq<Container>, marks: seq<Mark>, notes: seq<Done>, m: Mark, note: seq<Done>)
    requires |marks| < |before| && TagNotes(before, marks, notes) && TagNote(before[|marks|], m, note)
    ensures TagNotes(before, marks + [m], notes + note)
  {
    assert (marks + [m])[..|marks|] == marks;
    assert (notes + note)[..|notes|] == notes && (notes + note)[|notes|..] == note;
  }

  /** The two lists of services and the steps are those of the marks. */
  ghost predicate Marked(before: seq<Container>, marks: seq<Mark>, notes: seq<Done>, missing: seq<string>, retagFailed: seq<string>) {
    && |marks| <= |before| && TagNotes(before, marks, notes)
    && missing == Named(before, marks, Gone) && retagFailed == Named(before, marks, NotTagged)
  }

  lemma MarkedStep(before: seq<Container>, marks: seq<Mark>, notes: seq<Done>, missing: seq<string>, retagFailed: seq<string>,
                   m: Mark, note: seq<Done>)
    requires |marks| < |before| && Marked(before, marks, notes, missing, retagFailed) && TagNote(before[|marks|], m, note)
    ensures
      var s := before[|marks|].service;
      Marked(before, marks + [m], notes + note, if m == Gone then missing + [s] else missing,
             if m == NotTagged then retagFailed + [s] else retagFailed)
  {
    NamedStep(before, marks, m);
    TagNotesStep(before, marks, notes, m, note);
  }

  lemma NamedStep(before: seq<Container>, marks: seq<Mark>, mark: Mark)
    requires |marks| < |before|
    ensures forall m :: Named(before, marks + [mark], m) ==
              Named(before, marks, m) + if mark == m then [before[|marks|].service] else []
  {
    assert (marks + [mark])[..|marks|] == marks;
  }

  /** One round of the loop. */
  method RetagOne(d: Daemon, sink: Recorder, c: Container, desired: map<string, string>)
    returns (mark: Mark, ghost note: seq<Done>)
    requires sink.Mode() == Closed
    modifies d`now, d`tags, d`badLookup, d`badExists, d`badTag, sink
    ensures d.now >= old(d.now)
    ensures old(sink.calls) <= sink.calls && sink.Mode() == Closed
    ensures Adds(ShownBy(old(sink.calls)), ShownBy(sink.calls), note)
    ensures TagNote(c, mark, note)
    ensures d.badLookup >= old(d.badLookup) && d.badExists >= old(d.badExists) && d.badTag >= old(d.badTag)
    ensures Marks(mark, desired, c, old(d.tags), d.tags, d.images, d.badExists > old(d.badExists), d.badTag > old(d.badTag))
  {
    var ref := RefOf(desired, c);
    note := [];
    AddsNothing(ShownBy(sink.calls));
    if c.imageID == "" || ref == "" { return Skipped, note; }
    var exists_ := d.ImageExists(c.imageID);
    if !exists_ { return Gone, note; }
    var cur := d.ImageID(ref);
    if cur == Some(c.imageID) {
      assert old(d.tags)[ref := c.imageID] == old(d.tags);
      return Held, note;
    }
    sink.StartStep("rollback-tag:" + c.service);
    var res := d.Tag(c.imageID, ref);
    sink.AddStep("rollback-tag:" + c.service, res.err, res.output);
    mark := if res.err.None? then Held else NotTagged;
    note := [Done("rollback-tag:" + c.service, res.err.None?)];
  }

  // -------------------------------------------------------- what is restored

  /** Containers that share a reference ran the same image. */
  ghost predicate SharersAgree(before: seq<Container>, desired: map<string, string>, marks: seq<Mark>)
    requires |marks| <= |before|
  {
    forall i, k :: 0 <= i < |marks| && 0 <= k < |marks| && marks[i] == Held && marks[k] == Held ==>
      RefOf(desired, before[i]) == RefOf(desired, before[k]) ==> before[i].imageID == before[k].imageID
  }

  /** Every container whose image is in place has its reference pointing at exactly that image. */
  ghost predicate AllRestored(before: seq<Container>, desired: map<string, string>, marks: seq<Mark>, tags: Tags)
    requires |marks| <= |before|
  {
    forall i :: 0 <= i < |marks| && marks[i] == Held ==>
      RefOf(desired, before[i]) in tags && tags[RefOf(desired, before[i])] == before[i].imageID
  }

  lemma {:induction false} HolderExists(before: seq<Container>, desired: map<string, string>, marks: seq<Mark>, i: int) returns (k: int)
    requires |marks| <= |before| && 0 <= i < |marks| && marks[i] == Held
    ensures i <= k && LastHolder(before, desired, marks, k) && RefOf(desired, before[k]) == RefOf(desired, before[i])
    decreases |marks| - i
  {
    if LastHolder(before, desired, marks, i) {
      k := i;
    } else {
      var j :| i < j < |marks| && marks[j] == Held && RefOf(desired, before[j]) == RefOf(desired, before[i]);
      k := HolderExists(before, desired, marks, j);
    }
  }

  /** The retagging restores every image it could exactly when containers sharing a reference ran one image. */
  lemma RestoredIffSharersAgree(before: seq<Container>, desired: map<string, string>, marks: seq<Mark>, tags: Tags)
    requires Retagged(before, desired, marks, tags)
    ensures AllRestored(before, desired, marks, tags) <==> SharersAgree(before, desired, marks)
  {
    if SharersAgree(before, desired, marks) {
      forall i | 0 <= i < |marks| && marks[i] == Held
        ensures RefOf(desired, before[i]) in tags && tags[RefOf(desired, before[i])] == before[i].imageID
      {
        var k := HolderExists(before, desired, marks, i);
      }
    }
  }

  /** A reference a container can be given: neither empty nor an image's digest. */
  ghost predicate Taggable(ref: string) { ref != "" && !("sha256:" <= ref) }

  /** A container is to run what its service resolves to if that can be tagged, else the image it was created from, and nothing else. */
  lemma RefOfIff(desired: map<string, string>, c: Container, ref: string)
    requires ref != ""
    ensures RefOf(desired, c) == ref <==>
              && Taggable(ref)
              && if c.service in desired && Taggable(desired[c.service]) then ref == desired[c.service] else ref == c.image
    ensures Taggable(c.image) ==> RefOf(desired, c) != ""
  {
  }

  /**
   A container that had an image ID and a reference to put it back under, its own or
   the one its service resolves to, is in place unless its service is named: whatever
   state it was in.
   */
  lemma UnnamedIsHeld(before: seq<Container>, desired: map<string, string>, marks: seq<Mark>, tags: Tags, i: int)
    requires |marks| == |before| && Retagged(before, desired, marks, tags)
    requires 0 <= i < |before| && before[i].imageID != ""
    requires Taggable(before[i].image) || (before[i].service in desired && Taggable(desired[before[i].service]))
    requires before[i].service !in Named(before, marks, Gone) && before[i].service !in Named(before, marks, NotTagged)
    ensures marks[i] == Held
  {
    NamedIff(before, marks, marks[i], before[i].service);
  }

  /** The services listed under a mark are those of the containers that carry it. */
  lemma {:induction false} NamedIff(before: seq<Container>, marks: seq<Mark>, m: Mark, service: string)
    requires |marks| <= |before|
    ensures service in Named(before, marks, m) <==> exists i :: 0 <= i < |marks| && marks[i] == m && before[i].service == service
  {
    if marks != [] {
      var n := |marks| - 1;
      NamedIff(before, marks[..n], m, service);
      assert forall i :: 0 <= i < n ==> marks[i] == marks[..n][i];
    }
  }

  // --------------------------------------------------------------- rollback

  /** One wait for health and what it gave up on, if it did. */
  datatype HealthRun = HealthRun(tag: string, polls: seq<Health.Poll>, time: Health.Timing, failure: Option<Health.Failure>)

  /** The wait ended for the reason it says. */
  ghost predicate Waited(h: HealthRun, services: seq<string>, t: Target) {
    match h.failure
    case None => Health.Stable(h.polls, services, t.stabilityWindow, h.time)
    case Some(f) => Health.GaveUp(f, h.polls, services, t.healthTimeout, t.stabilityWindow, h.time)
  }

  /** These polls are among the listings from number `from` on. */
  ghost predicate Among(polls: seq<Look>, looks: seq<Look>, from: nat) {
    exists k :: from <= k && MadeAt(polls, looks, k)
  }

  ghost predicate MadeAt(polls: seq<Look>, looks: seq<Look>, k: nat) {
    k + |polls| <= |looks| && looks[k..k + |polls|] == polls
  }

  /** A wait that took place between two moments: its polls are listings made after the first `listed`, and its clock was read in between. */
  ghost predicate OnRecord(h: HealthRun, listed: nat, was: World, w: World) {
    && Among(h.polls, w.looks, listed) && was.now <= h.time.start
    && (forall k :: 0 <= k < |h.polls| ==> h.polls[k].tag == h.tag)
    && match h.failure
       case None => h.time.checked <= w.now
       case Some(NotRunning(_)) => h.time.graceRead <= w.now
       case Some(TimedOut) => h.time.deadlineRead <= w.now
       case Some(Cancelled) => true
  }

  lemma OnRecordLater(h: HealthRun, first: nat, listed: nat, earlier: World, was: World, w: World, later: World)
    requires OnRecord(h, listed, was, w) && first <= listed && Later(earlier, was) && Later(w, later)
    ensures OnRecord(h, first, earlier, later)
  {
    var k :| listed <= k && MadeAt(h.polls, w.looks, k);
    assert later.looks[k..k + |h.polls|] == w.looks[k..k + |h.polls|];
    assert first <= k && MadeAt(h.polls, later.looks, k);
  }

  /** The containers left out of a retagging are exactly those without an image ID and those without any reference. */
  lemma SkippedIff(before: seq<Container>, desired: map<string, string>, marks: seq<Mark>, tags: Tags, i: int)
    requires 0 <= i < |marks| && Retagged(before, desired, marks, tags)
    ensures marks[i] == Skipped <==>
              || before[i].imageID == ""
              || (!Taggable(before[i].image) && (before[i].service in desired ==> !Taggable(desired[before[i].service])))
  {
  }

  /** A rollback: the tags and images it met, the marks it made and the steps it reported of them, its `up`, the listings made before, and its wait. */
  datatype Account =
    | NotTried
    | Tried(desired: map<string, string>, resolved: bool, was: Tags, images: set<string>, marks: seq<Mark>, notes: seq<Done>,
            up: UpRun, health: Option<HealthRun>)

  /** What a rollback did, whatever its outcome; `bad` are the commands that failed while it ran. */
  ghost predicate Accounts(a: Account, compose: Compose, t: Target, before: seq<Container>,
                           missing: seq<string>, retagFailed: seq<string>, bad: Faults) {
    && a.Tried?
    && a.up.tag == EnvTag(t, PreviousTag(t, before)) && a.up.services == t.services && a.up.force
    && a.desired == (if a.resolved then compose(a.up.tag) else FromContainers(before))
    && (bad.resolve <= 0 ==> a.resolved)
    && |a.marks| == |before|
    && Retagging(before, a.desired, a.marks, a.was, a.up.tags, a.images, bad.present > 0, bad.tag > 0)
    && Marked(before, a.marks, a.notes, missing, retagFailed)
  }

  /** The outcome word of a rollback. */
  ghost predicate Concluded(state: State, a: Account, retagFailed: seq<string>, watched: seq<string>, t: Target)
    requires a.Tried?
  {
    && state in {RolledBack, RollbackFailed}
    && (a.health.Some? <==> retagFailed == [] && a.up.ok)
    && (a.health.Some? ==> Waited(a.health.value, watched, t) && a.health.value.tag == a.up.tag)
    && (state == RolledBack <==> a.health.Some? && a.health.value.failure.None?)
  }

  /** The failures between two counts. */
  ghost function Since(was: Faults, count: Faults): Faults {
    Faults(count.validate - was.validate, count.list - was.list, count.resolve - was.resolve, count.pull - was.pull,
           count.hook - was.hook, count.lookup - was.lookup, count.present - was.present, count.tag - was.tag)
  }

  /** What a rollback, if there is one, comes to. */
  ghost predicate Ran(state: State, message: Message, a: Account, t: Target, before: seq<Container>, watched: seq<string>,
                      cause: Cause, was: World, w: World) {
    if !t.rollback then state == State.Failed && message == RollbackDisabled(cause) && w.ups == was.ups && w.tags == was.tags && a == NotTried
    else
      && message.RollbackReport? && message.cause == cause
      && Restored(a, t, before, message.missing, message.retagFailed, was, w)
      && (a.health.Some? ==> OnRecord(a.health.value, a.up.listed, was, w))
      && Concluded(state, a, message.retagFailed, watched, t)
  }

  /** Images put back and the stack recreated. */
  ghost predicate Restored(a: Account, t: Target, before: seq<Container>, missing: seq<string>, retagFailed: seq<string>,
                           was: World, w: World) {
    && Accounts(a, w.compose, t, before, missing, retagFailed, Since(was.bad, w.bad)) && a.was == was.tags && a.up.listed == |was.looks|
    && w.ups == was.ups + [a.up] && Agrees(a.up.tags, w.tags)
    && (a.up.ok ==> RunsTagged(w.compose(a.up.tag), t.services, w.tags, w.containers))
  }

  /** Whether listing number `k` worked. */
  ghost predicate Listed(looks: seq<Look>, k: int) {
    0 <= k < |looks| && looks[k].seen.Some?
  }

  /** The steps of putting images back and recreating. */
  ghost function RestoreNotes(a: Account): seq<Done>
    requires a.Tried?
  {
    [Done("resolve-images", a.resolved)] + a.notes + [Done("rollback-up", a.up.ok)]
  }

  /** The steps after those of the update proper: putting images back, recreating, waiting, and looking at the stack. */
  ghost function RunNotes(steps: seq<Done>, t: Target, a: Account, looks: seq<Look>): seq<Done> {
    if a.NotTried? then steps + [Done("inspect-after", Listed(looks, |looks| - 1))]
    else EndNotes(steps + RestoreNotes(a), a.up.listed, a.health, looks)
  }

  ghost function EndNotes(steps: seq<Done>, from: nat, health: Option<HealthRun>, looks: seq<Look>): seq<Done> {
    var looked := steps + [Done("inspect-after", Listed(looks, from))];
    if health.None? then looked else WaitNotes(looked, "rollback-health", health.value.failure.None?, looks)
  }

  /** The steps of a wait: itself and, if it went well, a last look. */
  ghost function WaitNotes(steps: seq<Done>, name: string, ok: bool, looks: seq<Look>): seq<Done> {
    var waited := steps + [Done(name, ok)];
    if ok then waited + [Done("inspect-after", Listed(looks, |looks| - 1))] else waited
  }

  method Run(d: Daemon, sink: Recorder, t: Target, before: seq<Container>, watched: seq<string>, cause: Cause)
    returns (state: State, message: Message, ghost a: Account)
    requires sink.Mode() == Closed && t.healthTimeout > 0
    modifies d`now, d`images, d`tags, d`containers, d`ups, d`looks, d`badList, d`badResolve, d`badLookup, d`badExists, d`badTag, sink
    ensures old(sink.calls) <= sink.calls && sink.Mode() == Closed
    ensures ShownBy(sink.calls).before == ShownBy(old(sink.calls)).before && ShownBy(sink.calls).changed == ShownBy(old(sink.calls)).changed
    ensures Later(old(Now(d)), Now(d)) && LastLook(old(d.badList), d.badList, sink.calls, d.containers)
    ensures Ran(state, message, a, t, before, watched, cause, old(Now(d)), Now(d)) && (a.Tried? ==> a.images == old(d.images))
    ensures ShownBy(sink.calls).steps == RunNotes(ShownBy(old(sink.calls)).steps, t, a, d.looks)
  {
    if !t.rollback {
      var _ := LookAfter(d, sink, EnvTag(t, ""));
      return State.Failed, RollbackDisabled(cause), NotTried;
    }
    var tag := EnvTag(t, PreviousTag(t, before));
    var missing, retagFailed, ok;
    missing, retagFailed, ok, a := Restore(d, sink, t, before, tag);
    ghost var mid := Now(d);
    message := RollbackReport(cause, missing, retagFailed);
    state, a := Conclude(d, sink, t, tag, watched, ok, retagFailed, a);
    if a.health.Some? { OnRecordLater(a.health.value, a.up.listed, a.up.listed, old(Now(d)), mid, Now(d), Now(d)); }
    RestoredStays(a.(health := None), a, t, before, missing, retagFailed, old(Now(d)), mid, Now(d));
  }

  /** Waiting and looking take nothing back. */
  lemma RestoredStays(a: Account, b: Account, t: Target, before: seq<Container>, missing: seq<string>, retagFailed: seq<string>,
                      was: World, mid: World, w: World)
    requires Restored(a, t, before, missing, retagFailed, was, mid) && b.Tried? && b == a.(health := b.health)
    requires Later(mid, w) && w.tags == mid.tags && w.ups == mid.ups && Identities(w.containers) == Identities(mid.containers)
    ensures Restored(b, t, before, missing, retagFailed, was, w)
  {
    AccountsWiden(a, b, w.compose, t, before, missing, retagFailed, Since(was.bad, mid.bad), Since(was.bad, w.bad));
    if a.up.ok { RunsTaggedIsStable(w.compose(a.up.tag), t.services, w.tags, mid.containers, w.containers); }
  }

  /** Counting more failures than those of the rollback itself takes nothing back. */
  lemma AccountsWiden(a: Account, b: Account, compose: Compose, t: Target, before: seq<Container>,
                      missing: seq<string>, retagFailed: seq<string>, bad: Faults, more: Faults)
    requires Accounts(a, compose, t, before, missing, retagFailed, bad) && b.Tried? && b == a.(health := b.health)
    requires AtLeast(bad, more)
    ensures Accounts(b, compose, t, before, missing, retagFailed, more)
  {
  }

  /** The step around one `up`. */
  method Recreate(d: Daemon, sink: Recorder, name: string, tag: string, services: seq<string>, force: bool) returns (ok: bool)
    requires sink.Mode() == Closed
    modifies d`now, d`images, d`tags, d`containers, d`ups, sink
    ensures d.now >= old(d.now)
    ensures old(sink.calls) <= sink.calls && sink.Mode() == Closed
    ensures ShownBy(sink.calls) == Noted(ShownBy(old(sink.calls)), name, ok)
    ensures d.ups == old(d.ups) + [UpRun(tag, services, force, old(d.tags), |d.looks|, ok)] && Agrees(old(d.tags), d.tags)
    ensures ok ==> RunsTagged(d.compose(tag), services, d.tags, d.containers)
  {
    sink.StartStep(name);
    var res := d.Up(tag, services, force);
    sink.AddStep(name, res.err, res.output);
    ok := res.err.None?;
  }

  /** Resolve the references and put the previous images back under them. */
  method RetagPrevious(d: Daemon, sink: Recorder, before: seq<Container>, tag: string)
    returns (missing: seq<string>, retagFailed: seq<string>, ghost desired: map<string, string>, ghost resolved: bool,
             ghost marks: seq<Mark>, ghost notes: seq<Done>)
    requires sink.Mode() == Closed
    modifies d`now, d`tags, d`badResolve, d`badLookup, d`badExists, d`badTag, sink
    ensures d.now >= old(d.now)
    ensures old(sink.calls) <= sink.calls && sink.Mode() == Closed
    ensures Adds(ShownBy(old(sink.calls)), ShownBy(sink.calls), [Done("resolve-images", resolved)] + notes)
    ensures |marks| == |before| && Marked(before, marks, notes, missing, retagFailed)
    ensures d.badLookup >= old(d.badLookup) && d.badExists >= old(d.badExists) && d.badTag >= old(d.badTag)
    ensures d.badResolve == old(d.badResolve) + if resolved then 0 else 1
    ensures desired == if resolved then d.compose(tag) else FromContainers(before)
    ensures |marks| == |before| && missing == Named(before, marks, Gone) && retagFailed == Named(before, marks, NotTagged)
    ensures Retagging(before, desired, marks, old(d.tags), d.tags, d.images, d.badExists > old(d.badExists), d.badTag > old(d.badTag))
  {
    var images;
    images, resolved := ResolveImages(d, sink, tag, before);
    desired := images;
    ghost var shown := ShownBy(sink.calls);
    missing, retagFailed, marks, notes := Retag(d, sink, before, images);
    AddsMore(ShownBy(old(sink.calls)), shown, ShownBy(sink.calls), [Done("resolve-images", resolved)], notes);
  }

  /** Retag to the previous images and recreate. */
  method Restore(d: Daemon, sink: Recorder, t: Target, before: seq<Container>, tag: string)
    returns (missing: seq<string>, retagFailed: seq<string>, ok: bool, ghost a: Account)
    requires sink.Mode() == Closed && tag == EnvTag(t, PreviousTag(t, before))
    modifies d`now, d`images, d`tags, d`containers, d`ups, d`badResolve, d`badLookup, d`badExists, d`badTag, sink
    ensures old(sink.calls) <= sink.calls && sink.Mode() == Closed
    ensures a.Tried? && Adds(ShownBy(old(sink.calls)), ShownBy(sink.calls), RestoreNotes(a))
    ensures Later(old(Now(d)), Now(d)) && Restored(a, t, before, missing, retagFailed, old(Now(d)), Now(d))
    ensures a.images == old(d.images) && a.health == None && a.up.ok == ok
  {
    ghost var was := Now(d);
    ghost var images := d.images;
    ghost var desired, resolved, marks, notes;
    missing, retagFailed, desired, resolved, marks, notes := RetagPrevious(d, sink, before, tag);
    ghost var mid, shown := Now(d), ShownBy(sink.calls);
    ok := Recreate(d, sink, "rollback-up", tag, t.services, true);
    a := Tried(desired, resolved, was.tags, images, marks, notes, UpRun(tag, t.services, true, mid.tags, |was.looks|, ok), None);
    AddsMore(ShownBy(old(sink.calls)), shown, ShownBy(sink.calls), [Done("resolve-images", resolved)] + notes, [Done("rollback-up", ok)]);
    PutBack(a, t, before, missing, retagFailed, mid.bad.present > was.bad.present, mid.bad.tag > was.bad.tag, was, Now(d));
  }

  /** What resolving, retagging and recreating come to. */
  lemma PutBack(a: Account, t: Target, before: seq<Container>, missing: seq<string>, retagFailed: seq<string>,
                misled: bool, refused: bool, was: World, w: World)
    requires a.Tried? && a.was == was.tags && a.up.listed == |was.looks| && |a.marks| == |before| && TagNotes(before, a.marks, a.notes)
    requires a.up == UpRun(EnvTag(t, PreviousTag(t, before)), t.services, true, a.up.tags, a.up.listed, a.up.ok)
    requires a.desired == if a.resolved then w.compose(a.up.tag) else FromContainers(before)
    requires w.bad.resolve <= was.bad.resolve ==> a.resolved
    requires Retagging(before, a.desired, a.marks, a.was, a.up.tags, a.images, misled, refused)
    requires misled == (w.bad.present > was.bad.present) && refused == (w.bad.tag > was.bad.tag)
    requires missing == Named(before, a.marks, Gone) && retagFailed == Named(before, a.marks, NotTagged)
    requires w.ups == was.ups + [a.up] && Agrees(a.up.tags, w.tags)
    requires a.up.ok ==> RunsTagged(w.compose(a.up.tag), t.services, w.tags, w.containers)
    ensures Restored(a, t, before, missing, retagFailed, was, w)
  {
  }

  /** If no listing failed, the last list shown is that of the containers there are. */
  ghost predicate LastLook(was: nat, count: nat, calls: seq<Call>, cs: seq<Container>) {
    count >= was && (count == was ==> Shows(ShownBy(calls).after, cs))
  }

  /** Look at the stack and show it. */
  method LookAfter(d: Daemon, sink: Recorder, tag: string) returns (after: seq<Container>)
    requires sink.Mode() == Closed
    modifies d`now, d`containers, d`looks, d`badList, sink
    ensures old(sink.calls) <= sink.calls && sink.Mode() == Closed
    ensures old(d.looks) < d.looks && |d.looks| == |old(d.looks)| + 1 && d.looks[|old(d.looks)|].tag == tag
    ensures ShownBy(sink.calls) ==
              Noted(ShownBy(old(sink.calls)), "inspect-after", Listed(d.looks, |old(d.looks)|)).(after := States(after))
    ensures d.now >= old(d.now) && Identities(d.containers) == old(Identities(d.containers))
    ensures d.badList == old(d.badList) ==> after == d.containers
    ensures LastLook(old(d.badList), d.badList, sink.calls, d.containers)
  {
    var res;
    after, res := Snapshot(d, sink, "inspect-after", tag);
    sink.SetAfter(States(after));
  }

  /** The rest of rollback: look, wait for health unless something failed already, and look again. */
  method Conclude(d: Daemon, sink: Recorder, t: Target, tag: string, watched: seq<string>, upOK: bool,
                  retagFailed: seq<string>, ghost before: Account)
    returns (state: State, ghost a: Account)
    requires sink.Mode() == Closed && t.healthTimeout > 0
    requires before.Tried? && before.health.None? && before.up.ok == upOK && before.up.tag == tag && before.up.listed == |d.looks|
    modifies d`now, d`containers, d`looks, d`badList, sink
    ensures old(sink.calls) <= sink.calls && sink.Mode() == Closed
    ensures ShownBy(sink.calls).before == ShownBy(old(sink.calls)).before && ShownBy(sink.calls).changed == ShownBy(old(sink.calls)).changed
    ensures Identities(d.containers) == old(Identities(d.containers))
    ensures a.Tried? && a == before.(health := a.health) && Concluded(state, a, retagFailed, watched, t)
    ensures Later(old(Now(d)), Now(d)) && (a.health.Some? ==> OnRecord(a.health.value, a.up.listed, old(Now(d)), Now(d)))
    ensures LastLook(old(d.badList), d.badList, sink.calls, d.containers)
    ensures ShownBy(sink.calls).steps == EndNotes(ShownBy(old(sink.calls)).steps, before.up.listed, a.health, d.looks)
  {
    a := before;
    var after := LookAfter(d, sink, tag);
    ghost var looked, mid := d.containers, Now(d);
    if |retagFailed| > 0 || !upOK { return RollbackFailed, a; }
    var failure;
    ghost var run;
    failure, run := AwaitHealth(d, sink, t, tag, watched, "rollback-health");
    a := a.(health := Some(run));
    OnRecordLater(run, a.up.listed, |mid.looks|, old(Now(d)), mid, Now(d), Now(d));
    state := if failure.Some? then RollbackFailed else RolledBack;
    if failure.Some? && d.badList == old(d.badList) { ShowsIdentities(States(after), looked, d.containers); }
  }

  /** Wait for health and, if it came, look at the stack once more. */
  method AwaitHealth(d: Daemon, sink: Recorder, t: Target, tag: string, watched: seq<string>, name: string)
    returns (failure: Option<Health.Failure>, ghost run: HealthRun)
    requires sink.Mode() == Closed && t.healthTimeout > 0
    modifies d`now, d`containers, d`looks, d`badList, sink
    ensures old(sink.calls) <= sink.calls && sink.Mode() == Closed
    ensures ShownBy(sink.calls).before == ShownBy(old(sink.calls)).before && ShownBy(sink.calls).changed == ShownBy(old(sink.calls)).changed
    ensures Identities(d.containers) == old(Identities(d.containers))
    ensures Waited(run, watched, t) && run.failure == failure && run.tag == tag
    ensures ShownBy(sink.calls).steps == WaitNotes(ShownBy(old(sink.calls)).steps, name, failure.None?, d.looks)
    ensures Later(old(Now(d)), Now(d)) && OnRecord(run, |old(d.looks)|, old(Now(d)), Now(d))
    ensures failure.None? ==> LastLook(old(d.badList), d.badList, sink.calls, d.containers)
    ensures failure.Some? ==> ShownBy(sink.calls).after == ShownBy(old(sink.calls)).after && d.badList >= old(d.badList)
  {
    failure, run := Wait(d, sink, t, tag, watched, name);
    if failure.Some? { return; }
    ghost var waited := Now(d);
    var _ := LookAfter(d, sink, tag);
    OnRecordLater(run, |old(d.looks)|, |old(d.looks)|, old(Now(d)), old(Now(d)), waited, Now(d));
  }

  /** The wait itself, which is on record. */
  method Wait(d: Daemon, sink: Recorder, t: Target, tag: string, watched: seq<string>, name: string)
    returns (failure: Option<Health.Failure>, ghost run: HealthRun)
    requires sink.Mode() == Closed && t.healthTimeout > 0
    modifies d`now, d`containers, d`looks, d`badList, sink
    ensures old(sink.calls) <= sink.calls && sink.Mode() == Closed
    ensures ShownBy(sink.calls) == Noted(ShownBy(old(sink.calls)), name, failure.None?)
    ensures Identities(d.containers) == old(Identities(d.containers))
    ensures Waited(run, watched, t) && run.failure == failure && run.tag == tag
    ensures Later(old(Now(d)), Now(d)) && OnRecord(run, |old(d.looks)|, old(Now(d)), Now(d))
  {
    ghost var polls, time;
    failure, polls, time := Health.WaitHealthy(d, sink, tag, watched, t.healthTimeout, t.stabilityWindow, name);
    run := HealthRun(tag, polls, time, failure);
    assert MadeAt(polls, d.looks, |old(d.looks)|);
  }

  lemma RunsTaggedIsStable(images: map<string, string>, services: seq<string>, tags: Tags, a: seq<Container>, b: seq<Container>)
    requires RunsTagged(images, services, tags, a) && Identities(a) == Identities(b)
    ensures RunsTagged(images, services, tags, b)
  {
    assert |Identities(a)| == |a| && |Identities(b)| == |b|;
    forall i | 0 <= i < |b| ensures Identity(a[i]) == Identity(b[i]) {
      assert Identities(a)[i] == Identity(a[i]) && Identities(b)[i] == Identity(b[i]);
    }
  }

  // --------------------------------------------- what rolled_back says about images

  /** The resolved images still give the container's service the reference that was put back. */
  ghost predicate Names(images: map<string, string>, desired: map<string, string>, c: Container) {
    c.service in images && images[c.service] == RefOf(desired, c)
  }

  /**
   What runs after the `up` of a rollback. For a container whose image was put in
   place and whose service still resolves to that reference, what runs there is
   the previous image exactly when the last container to hold the reference had
   the same one.
   */
  lemma RunsPreviousIff(t: Target, compose: Compose, before: seq<Container>, a: Account, missing: seq<string>,
                        retagFailed: seq<string>, bad: Faults, tags: Tags, after: seq<Container>, i: int, j: int)
    requires Accounts(a, compose, t, before, missing, retagFailed, bad)
    requires Agrees(a.up.tags, tags) && RunsTagged(compose(a.up.tag), t.services, tags, after)
    requires 0 <= i < |before| && a.marks[i] == Held && Names(compose(a.up.tag), a.desired, before[i])
    requires 0 <= j < |after| && after[j].service == before[i].service && InScope(t.services, after[j].service)
    ensures after[j].imageID == before[i].imageID <==> LastHoldersAgree(before, a.desired, a.marks, i)
  {
    var k := HolderExists(before, a.desired, a.marks, i);
    assert after[j].imageID == before[k].imageID;
    forall m | LastHolder(before, a.desired, a.marks, m) && RefOf(a.desired, before[m]) == RefOf(a.desired, before[i])
      ensures m == k
    {
    }
  }

  ghost predicate LastHoldersAgree(before: seq<Container>, desired: map<string, string>, marks: seq<Mark>, i: int)
    requires |marks| <= |before| && 0 <= i < |before|
  {
    forall k :: LastHolder(before, desired, marks, k) && RefOf(desired, before[k]) == RefOf(desired, before[i]) ==>
      before[k].imageID == before[i].imageID
  }

  /** A compose file that resolved names the reference put back for every service it gives a taggable image. */
  lemma ResolvedNames(t: Target, compose: Compose, before: seq<Container>, a: Account, missing: seq<string>,
                      retagFailed: seq<string>, bad: Faults, i: int)
    requires Accounts(a, compose, t, before, missing, retagFailed, bad) && a.resolved && 0 <= i < |before|
    requires before[i].service in a.desired && ImageRef.TaggedRef(a.desired[before[i].service]) != ""
    ensures Names(compose(a.up.tag), a.desired, before[i])
  {
  }
}
