/**
 What the outcome of an update says, spelled out: which containers were looked at,
 in what state they were, which images run, and in which order of commands.
 */
module Outcomes {
  import opened Wrappers
  import opened Jobs
  import opened Trace
  import opened Docker
  import opened Rollback
  import opened Pipeline
  import ImageRef
  import Health

  // ------------------------------------------------------------ a stack at rest

  /** The last container listed for the service runs and has no health check or a healthy one. */
  ghost predicate RunsWell(cs: seq<Container>, service: string) {
    exists i :: 0 <= i < |cs| && cs[i].service == service && Lower(cs[i].state) == "running"
      && (Lower(cs[i].health) == "" || Lower(cs[i].health) == "healthy")
      && forall k :: i < k < |cs| ==> cs[k].service != service
  }

  /** No container is listed for the service, or the last one has stopped for good. */
  ghost predicate HasStopped(cs: seq<Container>, service: string) {
    || (forall k :: 0 <= k < |cs| ==> cs[k].service != service)
    || exists i :: 0 <= i < |cs| && cs[i].service == service
         && (Lower(cs[i].state) == "exited" || Lower(cs[i].state) == "dead" || Lower(cs[i].state) == "removing")
         && forall k :: i < k < |cs| ==> cs[k].service != service
  }

  /** The service is configured or, when none is, one of its containers was running before. */
  ghost predicate Watches(t: Target, before: seq<Container>, service: string) {
    if |t.services| > 0 then service in t.services
    else exists i :: 0 <= i < |before| && before[i].service == service && Lower(before[i].state) == "running"
  }

  lemma {:induction false} RunningServicesIff(before: seq<Container>, service: string)
    ensures service in RunningServices(before) <==>
              exists i :: 0 <= i < |before| && before[i].service == service && Lower(before[i].state) == "running"
  {
    if before != [] {
      var n := |before| - 1;
      RunningServicesIff(before[..n], service);
      assert forall i :: 0 <= i < n ==> before[i] == before[..n][i];
    }
  }

  /** The services whose health decides are exactly the watched ones. */
  lemma HealthTargetsIff(t: Target, before: seq<Container>, service: string)
    ensures service in HealthTargets(t, before) <==> Watches(t, before, service)
  {
    RunningServicesIff(before, service);
  }

  /** Every watched service runs well; with none to watch, some container does. */
  ghost predicate StackWell(t: Target, before: seq<Container>, cs: seq<Container>) {
    && (forall s :: Watches(t, before, s) ==> RunsWell(cs, s))
    && ((forall s :: !Watches(t, before, s)) ==>
          exists i :: 0 <= i < |cs| && Lower(cs[i].state) == "running" && (Lower(cs[i].health) == "" || Lower(cs[i].health) == "healthy"))
  }

  lemma SettledIsWell(t: Target, before: seq<Container>, cs: seq<Container>)
    ensures Settled(cs, HealthTargets(t, before)) <==> StackWell(t, before, cs)
  {
    var targets := HealthTargets(t, before);
    forall s ensures s in targets <==> Watches(t, before, s) {
      HealthTargetsIff(t, before, s);
    }
    forall s ensures ServiceSettled(cs, s) <==> RunsWell(cs, s) {
      ServiceSettledIff(cs, s);
    }
    SettledIff(cs, targets);
    if targets != [] { assert Watches(t, before, targets[0]); }
  }

  /**
   A stretch of listings during which the stack was at rest: the first and last of
   them answered, no answer in between found it otherwise, and the clock ran for at
   least the stability window from after the first to after the last.
   */
  ghost predicate AtRest(looks: seq<Look>, from: int, to: int, since: int, until: int, t: Target, before: seq<Container>) {
    && 0 <= from <= to < |looks| && looks[from].seen.Some? && looks[to].seen.Some?
    && (forall k :: from <= k <= to && looks[k].seen.Some? ==> StackWell(t, before, looks[k].seen.value))
    && looks[from].at <= since && looks[to].at <= until && until - since >= t.stabilityWindow
  }

  /** After the first `listed` listings the stack was seen at rest for the stability window. */
  ghost predicate CameToRest(listed: nat, w: World, t: Target, before: seq<Container>) {
    exists from, to, since, until ::
      listed <= from && until <= w.now && AtRest(w.looks, from, to, since, until, t, before)
  }

  /** A wait that succeeded saw the stack at rest. */
  lemma WaitSawRest(h: HealthRun, listed: nat, t: Target, before: seq<Container>, was: World, w: World)
    requires OnRecord(h, listed, was, w) && h.failure.None? && Waited(h, HealthTargets(t, before), t)
    ensures CameToRest(listed, w, t, before)
  {
    var services := HealthTargets(t, before);
    var n :| listed <= n && MadeAt(h.polls, w.looks, n);
    var i :| Health.SettledFrom(h.polls, services, i, h.time.since.value);
    PollsAtRest(h.polls, i, h.time.since.value, h.time.checked, t, before);
    MadeAtRest(w.looks, h.polls, n, i, h.time.since.value, h.time.checked, t, before);
  }

  /** A settled stretch of polls is a stretch at rest. */
  lemma PollsAtRest(polls: seq<Look>, i: int, since: int, until: int, t: Target, before: seq<Container>)
    requires Health.SettledFrom(polls, HealthTargets(t, before), i, since)
    requires Health.PollSettled(polls[|polls| - 1], HealthTargets(t, before))
    requires polls[|polls| - 1].at <= until && until - since >= t.stabilityWindow
    ensures AtRest(polls, i, |polls| - 1, since, until, t, before)
  {
    forall k | i <= k < |polls| && polls[k].seen.Some? ensures StackWell(t, before, polls[k].seen.value) {
      assert Health.PollSettled(polls[k], HealthTargets(t, before));
      SettledIsWell(t, before, polls[k].seen.value);
    }
  }

  /** Polls at rest among the listings made. */
  lemma MadeAtRest(looks: seq<Look>, polls: seq<Look>, n: nat, i: int, since: int, until: int, t: Target, before: seq<Container>)
    requires MadeAt(polls, looks, n) && AtRest(polls, i, |polls| - 1, since, until, t, before)
    ensures AtRest(looks, n + i, n + |polls| - 1, since, until, t, before)
  {
    forall m | n <= m < n + |polls| ensures looks[m] == polls[m - n] {
      assert looks[n..n + |polls|][m - n] == polls[m - n];
    }
  }

  // ---------------------------------------------------------------- the words

  /** The tag a command runs with: the requested one if the stack takes one. */
  ghost predicate GivenTag(t: Target, tag: string, given: string) {
    given == if t.takesTag then tag else ""
  }

  /** With the requested tag the update validated the file once, listed the containers first of all, and pulled once. */
  ghost predicate LookedAndPulled(before: seq<Container>, t: Target, req: Request, was: World, w: World) {
    && |w.validated| == |was.validated| + 1 && w.validated[..|was.validated|] == was.validated
    && GivenTag(t, req.tag, w.validated[|was.validated|])
    && |was.looks| < |w.looks| && w.looks[|was.looks|].seen == Some(before) && GivenTag(t, req.tag, w.looks[|was.looks|].tag)
    && |w.pulls| == |was.pulls| + 1 && w.pulls[..|was.pulls|] == was.pulls
    && GivenTag(t, req.tag, w.pulls[|was.pulls|].tag) && w.pulls[|was.pulls|].services == t.services
  }

  /**
   An update that succeeded ran one `up`, with the requested tag and services, which
   worked; its requested services run what their references name; and the stack was
   then seen at rest for the stability window, service by service.
   */
  lemma SucceededMeans(message: Message, e: Ending, t: Target, req: Request, was: World, w: World, shown: Shown, j: int)
    requires Truthful(Succeeded, message, e, t, req, was, w, shown)
    ensures e.plan.Some? && LookedAndPulled(e.plan.value.before, t, req, was, w)
    ensures |w.ups| == |was.ups| + 1 && w.ups[..|was.ups|] == was.ups
    ensures CameToRest(w.ups[|was.ups|].listed, w, t, e.plan.value.before)
    ensures e.health.Some? && GivenTag(t, req.tag, e.health.value.tag)
    ensures forall ref :: ref in e.planned ==> ref in w.tags && w.tags[ref] == e.planned[ref]
    ensures
      var u := w.ups[|was.ups|];
      u.ok && GivenTag(t, req.tag, u.tag) && u.services == t.services && !u.force
    ensures
      var images := w.compose(w.ups[|was.ups|].tag);
      0 <= j < |w.containers| && (|t.services| == 0 || w.containers[j].service in t.services) && w.containers[j].service in images ==>
        && w.containers[j].image == images[w.containers[j].service]
        && w.containers[j].image in w.tags && w.containers[j].imageID == w.tags[w.containers[j].image]
  {
    WaitSawRest(e.health.value, w.ups[|was.ups|].listed, t, e.plan.value.before, was, w);
  }

  /**
   An update that was rolled back ran two: the second forced, for the same services,
   after which the stack was seen at rest for the window, and no retagging failed.
   */
  lemma RolledBackMeans(message: Message, e: Ending, t: Target, req: Request, was: World, w: World, shown: Shown)
    requires Truthful(RolledBack, message, e, t, req, was, w, shown)
    ensures e.plan.Some? && LookedAndPulled(e.plan.value.before, t, req, was, w)
    ensures t.rollback && |w.ups| == |was.ups| + 2 && CameToRest(w.ups[|was.ups| + 1].listed, w, t, e.plan.value.before)
    ensures message.RollbackReport? && message.retagFailed == []
    ensures e.rollback.Tried? && e.rollback.health.Some? && GivenTag(t, PreviousTag(t, e.plan.value.before), e.rollback.health.value.tag)
    ensures w.ups[..|was.ups|] == was.ups
    ensures
      var u, v := w.ups[|was.ups|], w.ups[|was.ups| + 1];
      && GivenTag(t, req.tag, u.tag) && u.services == t.services && !u.force
      && GivenTag(t, PreviousTag(t, e.plan.value.before), v.tag) && v.services == t.services && v.force && v.ok
  {
    WaitSawRest(e.rollback.health.value, e.rollback.up.listed, t, e.plan.value.before, was, w);
  }

  /** A rollback that failed says why: an image not put back, an `up` that failed, or a stack that did not settle. */
  lemma RollbackFailedMeans(message: Message, e: Ending, t: Target, req: Request, was: World, w: World, shown: Shown)
    requires Truthful(RollbackFailed, message, e, t, req, was, w, shown)
    ensures t.rollback && message.RollbackReport? && |w.ups| == |was.ups| + 2 && w.ups[|was.ups| + 1].force
    ensures message.retagFailed != [] ==> w.bad.tag > was.bad.tag
    ensures message.retagFailed == [] && w.ups[|was.ups| + 1].ok ==> e.rollback.health.Some? && e.rollback.health.value.failure.Some?
  {
    if message.retagFailed != [] {
      var a, before := e.rollback, e.plan.value.before;
      NamedIff(before, a.marks, NotTagged, message.retagFailed[0]);
    }
  }

  /**
   A wait that says a service is not running saw it so: at its last poll a watched
   service had no container or one that had stopped for good, the stack was not at
   rest, and the clock had passed the grace period of twenty seconds.
   */
  lemma NotRunningMeans(h: HealthRun, listed: nat, service: string, t: Target, before: seq<Container>, was: World, w: World)
    requires OnRecord(h, listed, was, w) && h.failure == Some(Health.NotRunning(service)) && Waited(h, HealthTargets(t, before), t)
    ensures h.polls != [] && h.polls[|h.polls| - 1].seen.Some? && h.polls[|h.polls| - 1] in w.looks
    ensures Watches(t, before, service) && HasStopped(h.polls[|h.polls| - 1].seen.value, service)
    ensures !StackWell(t, before, h.polls[|h.polls| - 1].seen.value)
    ensures h.time.graceRead > h.time.start + 20 * 1_000_000_000
  {
    var last := h.polls[|h.polls| - 1];
    var n :| listed <= n && MadeAt(h.polls, w.looks, n);
    assert w.looks[n..n + |h.polls|][|h.polls| - 1] == last;
    HealthTargetsIff(t, before, service);
    ServiceCrashedIff(last.seen.value, service);
    SettledIsWell(t, before, last.seen.value);
  }

  /** The same containers of the same images, whatever state they are in now. */
  ghost predicate SameContainers(a: seq<Container>, b: seq<Container>) {
    && |a| == |b|
    && forall i :: 0 <= i < |a| ==>
         a[i].service == b[i].service && a[i].name == b[i].name && a[i].image == b[i].image && a[i].imageID == b[i].imageID
  }

  lemma IdentitiesMean(a: seq<Container>, b: seq<Container>)
    ensures Identities(a) == Identities(b) <==> SameContainers(a, b)
  {
    assert |Identities(a)| == |a| && |Identities(b)| == |b|;
    if Identities(a) == Identities(b) {
      forall i | 0 <= i < |a| ensures Identity(a[i]) == Identity(b[i]) {
        assert Identities(a)[i] == Identity(a[i]) && Identities(b)[i] == Identity(b[i]);
      }
    }
  }

  /** The job's list shows these containers. */
  ghost predicate ListsContainers(states: seq<ServiceState>, cs: seq<Container>) {
    && |states| == |cs|
    && forall i :: 0 <= i < |cs| ==>
         && states[i].service == cs[i].service && states[i].container == cs[i].name
         && states[i].image == cs[i].image && states[i].imageID == cs[i].imageID
  }

  lemma ShowsMeans(states: seq<ServiceState>, cs: seq<Container>)
    requires Shows(states, cs)
    ensures ListsContainers(states, cs)
  {
    assert |Unstated(states)| == |states| && |Unstated(States(cs))| == |cs|;
    forall i | 0 <= i < |cs| ensures states[i].(state := "", health := "") == States(cs)[i].(state := "", health := "") {
      assert Unstated(states)[i] == Unstated(States(cs))[i];
    }
  }

  /**
   An update that stops before its first `up`, a dry run, one with nothing to do or a
   failure without a word on rollback, recreated nothing: the stack still has the very
   containers it had. Every other one ran its `up` and, if no listing failed, the job
   ends with the list of the containers there are.
   */
  lemma StoppedIff(word: State, message: Message, e: Ending, t: Target, req: Request, was: World, w: World, shown: Shown)
    requires Truthful(word, message, e, t, req, was, w, shown)
    ensures w.ups == was.ups <==> word == DryRun || word == NoChange || (word == State.Failed && !message.RollbackDisabled?)
    ensures w.ups == was.ups ==> SameContainers(was.containers, w.containers)
    ensures w.ups != was.ups && w.bad.list <= was.bad.list ==> ListsContainers(shown.after, w.containers)
  {
    IdentitiesMean(w.containers, was.containers);
    if w.ups != was.ups && w.bad.list <= was.bad.list { ShowsMeans(shown.after, w.containers); }
  }

  /** The plan's containers are the stack's, its images the compose file's if that resolved, and the job shows them as the ones before. */
  lemma PlanMeans(word: State, message: Message, e: Ending, t: Target, req: Request, was: World, w: World, shown: Shown)
    requires Truthful(word, message, e, t, req, was, w, shown) && e.plan.Some?
    ensures LookedAndPulled(e.plan.value.before, t, req, was, w) && SameContainers(was.containers, e.plan.value.before)
    ensures ListsContainers(shown.before, e.plan.value.before) && shown.changed == e.plan.value.changed
    ensures w.bad.resolve <= was.bad.resolve ==> e.plan.value.desired == was.compose(if t.takesTag then req.tag else "")
  {
    var before := e.plan.value.before;
    IdentitiesMean(was.containers, before);
    assert shown.before == States(before);
    forall i | 0 <= i < |before|
      ensures shown.before[i].service == before[i].service && shown.before[i].container == before[i].name
      ensures shown.before[i].image == before[i].image && shown.before[i].imageID == before[i].imageID
    {
      StatesShow(before, i);
    }
  }

  /** A dry run is what was asked for, and the hook is blamed exactly when it was required, was reached and failed. */
  lemma HookFailedIff(word: State, message: Message, e: Ending, t: Target, req: Request, was: World, w: World, shown: Shown)
    requires Truthful(word, message, e, t, req, was, w, shown) && e.plan.Some?
    ensures word == DryRun <==> req.dryRun
    ensures message == HookFailed <==> !req.dryRun && word != NoChange && t.hook == PreUpdate(true) && w.bad.hook > was.bad.hook
  {
  }

  /** A tag that was let through keeps every wanted service's repository: only tags and digests changed. */
  lemma TagKeepsRepositories(word: State, message: Message, e: Ending, t: Target, req: Request, was: World, w: World, shown: Shown, s: string)
    requires Truthful(word, message, e, t, req, was, w, shown) && e.plan.Some?
    requires t.takesTag && req.tag != "" && s in e.plan.value.desired && (|t.services| == 0 || s in t.services)
    ensures s in was.compose("") && ImageRef.Repository(was.compose("")[s]) == ImageRef.Repository(e.plan.value.desired[s])
  {
  }

  /** A tag is refused, once the file resolved, only for a wanted service that has no image without it or moves to another repository. */
  lemma RefusalMeans(word: State, r: ImageRef.Refusal, e: Ending, t: Target, req: Request, was: World, w: World, shown: Shown)
    requires Truthful(word, TagRefused(r), e, t, req, was, w, shown) && e.plan.None?
    ensures t.takesTag && req.tag != "" && w.ups == was.ups
    ensures r == ImageRef.Unresolved ==> w.bad.resolve > was.bad.resolve
    ensures w.bad.resolve <= was.bad.resolve ==>
              exists s :: && s in was.compose(req.tag) && (|t.services| == 0 || s in t.services)
                          && (r == ImageRef.NoImageWithoutTag(s) <==> s !in was.compose(""))
                          && (r == ImageRef.MovesRepository(s) <==>
                                s in was.compose("") && ImageRef.Repository(was.compose("")[s]) != ImageRef.Repository(was.compose(req.tag)[s]))
  {
    if w.bad.resolve <= was.bad.resolve {
      var base, desired := was.compose(""), was.compose(req.tag);
      var s :| s in desired && ImageRef.Wanted(t.services, s) && ImageRef.Objection(base, desired, s) == Some(r);
    }
  }

  /** An update left as it failed has rollback switched off and one `up`, which failed or after which the wait gave up. */
  lemma LeftMeans(message: Message, e: Ending, t: Target, req: Request, was: World, w: World, shown: Shown)
    requires Truthful(State.Failed, message, e, t, req, was, w, shown) && message.RollbackDisabled?
    ensures !t.rollback && |w.ups| == |was.ups| + 1 && w.ups[..|was.ups|] == was.ups
    ensures message.cause == UpFailed <==> !w.ups[|was.ups|].ok
    ensures message.cause.Unhealthy? ==> e.health.Some? && e.health.value.failure == Some(message.cause.failure)
  {
  }

  /** What an update reports as its cause: its own `up` failed, or it worked and the wait gave up for the reason given. */
  lemma CauseMeans(word: State, message: Message, e: Ending, t: Target, req: Request, was: World, w: World, shown: Shown)
    requires Truthful(word, message, e, t, req, was, w, shown) && message.RollbackReport?
    ensures |w.ups| == |was.ups| + 2
    ensures message.cause == UpFailed <==> !w.ups[|was.ups|].ok
    ensures message.cause.Unhealthy? ==>
              && e.health.Some? && e.health.value.failure == Some(message.cause.failure)
              && OnRecord(e.health.value, w.ups[|was.ups|].listed, was, w) && Waited(e.health.value, HealthTargets(t, e.plan.value.before), t)
  {
  }

  /** What a job is told when it went well: the services that changed are those the job shows. */
  lemma MessagesTell(word: State, message: Message, e: Ending, t: Target, req: Request, was: World, w: World, shown: Shown)
    requires Truthful(word, message, e, t, req, was, w, shown)
    ensures word == Succeeded ==> message == Updated(shown.changed)
    ensures word == DryRun ==> message == DryRunReport(shown.changed)
    ensures word == NoChange ==> message == UpToDate && shown.changed == []
    ensures word == RolledBack || word == RollbackFailed ==> message.RollbackReport?
    ensures word == State.Failed ==> !message.RollbackReport?
  {
  }

  /** A service is reported missing for a container of it whose image was not on disk, or not found to be. */
  lemma MissingMeans(word: State, message: Message, e: Ending, t: Target, req: Request, was: World, w: World, shown: Shown, s: string)
    requires Truthful(word, message, e, t, req, was, w, shown) && message.RollbackReport? && s in message.missing
    ensures e.plan.Some? && e.rollback.Tried?
    ensures exists i :: 0 <= i < |e.plan.value.before| && e.plan.value.before[i].service == s && e.plan.value.before[i].imageID != ""
              && (e.plan.value.before[i].imageID !in e.rollback.images || w.bad.present > was.bad.present)
  {
    var before, marks := e.plan.value.before, e.rollback.marks;
    NamedIff(before, marks, Gone, s);
    var i :| 0 <= i < |marks| && marks[i] == Gone && before[i].service == s;
    assert before[i].service == s;
    SkippedIff(before, e.rollback.desired, marks, e.rollback.up.tags, i);
  }

  /**
   A reference that no container was put back under names the image it named before the
   rollback, or none; so in the end it names what it named when the update was planned.
   */
  lemma OtherReferencesStay(word: State, message: Message, e: Ending, t: Target, req: Request, was: World, w: World, shown: Shown, ref: string)
    requires Truthful(word, message, e, t, req, was, w, shown) && message.RollbackReport?
    requires forall i :: 0 <= i < |e.rollback.marks| && i < |e.plan.value.before| && e.rollback.marks[i] == Held ==>
               RefOf(e.rollback.desired, e.plan.value.before[i]) != ref
    ensures ref in e.rollback.was <==> ref in e.rollback.up.tags
    ensures ref in e.rollback.was ==> e.rollback.was[ref] == e.rollback.up.tags[ref]
    ensures ref in e.planned ==> ref in w.tags && w.tags[ref] == e.planned[ref]
  {
    assert !TakenOver(e.plan.value.before, e.rollback.desired, e.rollback.marks, ref);
    assert ref in e.rollback.was || ref in e.rollback.up.tags ==> ref in e.rollback.was.Keys + e.rollback.up.tags.Keys;
  }

  /** A wait that timed out was still going after its timeout, and had not seen the stack at rest for the window. */
  lemma TimedOutMeans(h: HealthRun, listed: nat, t: Target, before: seq<Container>, was: World, w: World)
    requires OnRecord(h, listed, was, w) && h.failure == Some(Health.TimedOut) && Waited(h, HealthTargets(t, before), t)
    ensures h.time.deadlineRead > h.time.start + t.healthTimeout && h.time.deadlineRead <= w.now
    ensures h.polls != []
    ensures
      var last := h.polls[|h.polls| - 1];
      last.seen.Some? && StackWell(t, before, last.seen.value) ==>
        h.time.since.Some? && h.time.checked - h.time.since.value < t.stabilityWindow
  {
    var last := h.polls[|h.polls| - 1];
    if last.seen.Some? && StackWell(t, before, last.seen.value) {
      SettledIsWell(t, before, last.seen.value);
      assert Health.PollSettled(last, HealthTargets(t, before));
      assert !Health.InterruptedAfter(h.polls, HealthTargets(t, before), |h.polls| - 1, |h.polls|);
    }
  }

  // ------------------------------------------------------------ nothing to do

  /** The container needs no recreation: it is not asked about, or its reference is the one wanted and names its own image. */
  ghost predicate UpToDateContainer(t: Target, desired: map<string, string>, tags: Tags, c: Container) {
    || (|t.services| > 0 && c.service !in t.services)
    || (!Taggable(c.image) && !HasReference(desired, c.service))
    || exists ref :: Runs(desired, c, ref) && (Taggable(c.image) ==> c.image == ref) && ref in tags && tags[ref] == c.imageID
  }

  /** The reference the container is to run. */
  ghost predicate Runs(desired: map<string, string>, c: Container, ref: string) {
    if HasReference(desired, c.service) then ref == desired[c.service] else ref == c.image && Taggable(ref)
  }

  lemma CurrentIff(t: Target, desired: map<string, string>, tags: Tags, c: Container)
    ensures Current(t, desired, tags, c) <==> UpToDateContainer(t, desired, tags, c)
  {
    var ref := RefOf(desired, c);
    if ref != "" {
      RefOfIff(desired, c, ref);
      assert Runs(desired, c, ref);
      assert forall other :: Runs(desired, c, other) ==> other == ref;
    } else {
      assert !Taggable(c.image) && !HasReference(desired, c.service);
    }
  }

  lemma AllCurrentIff(t: Target, desired: map<string, string>, tags: Tags, cs: seq<Container>)
    ensures AllCurrent(t, desired, tags, cs) <==> forall i :: 0 <= i < |cs| ==> UpToDateContainer(t, desired, tags, cs[i])
  {
    forall i | 0 <= i < |cs| ensures CurrentFor(t, desired, tags)(cs[i]) <==> UpToDateContainer(t, desired, tags, cs[i]) {
      CurrentIff(t, desired, tags, cs[i]);
    }
  }

  /**
   Nothing to do is said only of a stack at rest whose every container is up to date,
   and nothing was recreated.
   */
  lemma NoChangeMeans(message: Message, e: Ending, t: Target, req: Request, was: World, w: World, shown: Shown)
    requires Truthful(NoChange, message, e, t, req, was, w, shown)
    ensures !req.dryRun && !req.force && w.ups == was.ups
    ensures e.plan.Some? && LookedAndPulled(e.plan.value.before, t, req, was, w)
    ensures
      var p := e.plan.value;
      && StackWell(t, p.before, p.before)
      && forall i :: 0 <= i < |p.before| ==> UpToDateContainer(t, p.desired, w.tags, p.before[i])
  {
    var p := e.plan.value;
    SettledIsWell(t, p.before, p.before);
    AllCurrentIff(t, p.desired, w.tags, p.before);
  }

  /** And it is said of every such stack that is neither forced nor a dry run, unless an image could not be looked up. */
  lemma NoChangeIff(word: State, message: Message, e: Ending, t: Target, req: Request, was: World, w: World, shown: Shown)
    requires Truthful(word, message, e, t, req, was, w, shown) && e.plan.Some? && w.bad.lookup <= was.bad.lookup
    ensures
      var p := e.plan.value;
      word == NoChange <==>
        && !req.dryRun && !req.force && StackWell(t, p.before, p.before)
        && forall i :: 0 <= i < |p.before| ==> UpToDateContainer(t, p.desired, e.planned, p.before[i])
  {
    var p := e.plan.value;
    SettledIsWell(t, p.before, p.before);
    AllCurrentIff(t, p.desired, e.planned, p.before);
    NoneFailsIffAll(CurrentFor(t, p.desired, e.planned), p.before);
  }

  /** The services said to change are those of the containers that are not up to date, unless an image could not be looked up. */
  lemma ChangedMeans(word: State, message: Message, e: Ending, t: Target, req: Request, was: World, w: World, shown: Shown, s: string)
    requires Truthful(word, message, e, t, req, was, w, shown) && e.plan.Some? && w.bad.lookup <= was.bad.lookup
    ensures
      var p := e.plan.value;
      s in shown.changed <==>
        exists i :: 0 <= i < |p.before| && p.before[i].service == s && !UpToDateContainer(t, p.desired, e.planned, p.before[i])
  {
    var p := e.plan.value;
    FailingIff(CurrentFor(t, p.desired, e.planned), p.before, s);
    forall i | 0 <= i < |p.before|
      ensures CurrentFor(t, p.desired, e.planned)(p.before[i]) <==> UpToDateContainer(t, p.desired, e.planned, p.before[i])
    {
      CurrentIff(t, p.desired, e.planned, p.before[i]);
    }
  }

  lemma {:induction false} FailingIff(ok: Container -> bool, cs: seq<Container>, service: string)
    ensures service in Failing(ok, cs) <==> exists i :: 0 <= i < |cs| && cs[i].service == service && !ok(cs[i])
  {
    if cs != [] {
      var n := |cs| - 1;
      FailingIff(ok, cs[..n], service);
      assert forall i :: 0 <= i < n ==> cs[i] == cs[..n][i];
    }
  }

  /** The images taken from the containers when the compose file did not resolve: the last taggable one of each service. */
  lemma {:induction false} FromContainersIff(before: seq<Container>, service: string, ref: string)
    ensures service in FromContainers(before) && FromContainers(before)[service] == ref <==>
              exists i :: 0 <= i < |before| && before[i].service == service && before[i].image == ref && Taggable(ref)
                && forall k :: i < k < |before| ==> before[k].service == service ==> !Taggable(before[k].image)
  {
    if before != [] {
      var n := |before| - 1;
      FromContainersIff(before[..n], service, ref);
      assert forall i :: 0 <= i < n ==> before[i] == before[..n][i];
      if before[n].service == service && Taggable(before[n].image) {
        assert forall i :: 0 <= i < n && before[i].service == service && before[i].image == ref && Taggable(ref) ==>
          before[n].service == service && i < n < |before|;
      }
    }
  }

  // ------------------------------------------------------------------ the steps

  /** What a job is told when an update stops before it has a plan: each command so far, the last of them as failed unless a tag was refused. */
  lemma EarlySteps(steps: seq<Done>, word: State, message: Message, e: Ending, t: Target, was: World, w: World)
    requires e.plan.None?
    ensures
      var shown := UpdateNotes(steps, word, message, e, t, was, w);
      && (message == InvalidCompose ==> shown == steps + [Done("validate", false)])
      && (message == InspectFailed ==> shown == steps + [Done("validate", true), Done("inspect-before", false)])
      && (message.TagRefused? ==>
            shown == steps + [Done("validate", true), Done("inspect-before", true), Done("resolve-images", e.resolved)])
      && (message == PullFailed ==>
            shown == steps + [Done("validate", true), Done("inspect-before", true), Done("resolve-images", e.resolved), Done("pull", false)])
  {
  }

  /** The steps up to the plan. */
  ghost function FourSteps(resolved: bool): seq<Done> {
    [Done("validate", true), Done("inspect-before", true), Done("resolve-images", resolved), Done("pull", true)]
  }

  /** The hook is a step if there is one, and how it went is how the command went. */
  ghost function HookStep(t: Target, was: World, w: World): seq<Done> {
    if t.hook == NoHook then [] else [Done("pre-update", !(w.bad.hook > was.bad.hook))]
  }

  /** The steps as far as the hook. */
  ghost function FirstSteps(e: Ending, t: Target, was: World, w: World): seq<Done> {
    FourSteps(e.resolved) + HookStep(t, was, w)
  }

  lemma FirstStepsAre(steps: seq<Done>, e: Ending, t: Target, was: World, w: World)
    ensures PlanNotes(steps, None, e.resolved) == steps + FourSteps(e.resolved)
    ensures HookNotes(PlanNotes(steps, None, e.resolved), t, was, w) == steps + FirstSteps(e, t, was, w)
  {
    var four := FourSteps(e.resolved);
    assert PlanNotes(steps, None, e.resolved) == steps + four;
    assert steps + four + HookStep(t, was, w) == steps + (four + HookStep(t, was, w));
  }

  lemma PlannedSteps(steps: seq<Done>, word: State, message: Message, e: Ending, t: Target, was: World, w: World)
    requires e.plan.Some? && (word == DryRun || word == NoChange || message == HookFailed)
    ensures
      UpdateNotes(steps, word, message, e, t, was, w) ==
      steps + if word == DryRun || word == NoChange then FourSteps(e.resolved) else FirstSteps(e, t, was, w)
  {
    FirstStepsAre(steps, e, t, was, w);
  }

  /** The `up`, and the wait for health if it worked. */
  ghost function UpSteps(ok: bool, health: Option<HealthRun>): seq<Done> {
    [Done("up", ok)] + match health
                       case None => []
                       case Some(h) => [Done("health", h.failure == None)]
  }

  /** A look at the stack. */
  ghost function LastStep(looks: seq<Look>): seq<Done> {
    [Done("inspect-after", looks != [] && looks[|looks| - 1].seen != None)]
  }

  /** An update that succeeded, or is left as it failed, ends with its `up`, its wait if the `up` worked, and a look. */
  lemma UpStepsAre(steps: seq<Done>, ok: bool, e: Ending, t: Target, looks: seq<Look>)
    requires e.rollback == NotTried
    ensures DeployNotes(steps, ok, e, t, looks) == steps + UpSteps(ok, e.health) + LastStep(looks)
  {
    assert steps + [Done("up", ok)] + UpSteps(ok, e.health)[1..] == steps + UpSteps(ok, e.health);
  }

  lemma DeployedSteps(steps: seq<Done>, word: State, message: Message, e: Ending, t: Target, req: Request, was: World, w: World, shown: Shown)
    requires Truthful(word, message, e, t, req, was, w, shown)
    requires word == Succeeded || (word == State.Failed && message.RollbackDisabled?)
    ensures |w.ups| > |was.ups|
    ensures
      UpdateNotes(steps, word, message, e, t, was, w) ==
      steps + FirstSteps(e, t, was, w) + UpSteps(w.ups[|was.ups|].ok, e.health) + LastStep(w.looks)
  {
    FirstStepsAre(steps, e, t, was, w);
    UpStepsAre(steps + FirstSteps(e, t, was, w), w.ups[|was.ups|].ok, e, t, w.looks);
  }

  /** The steps of a rollback: the images resolved, the references put back, the forced `up`, a look, and the wait with another look. */
  ghost function RollbackSteps(a: Account, looks: seq<Look>): seq<Done>
    requires a.Tried?
  {
    [Done("resolve-images", a.resolved)] + a.notes + [Done("rollback-up", a.up.ok)]
    + [Done("inspect-after", a.up.listed < |looks| && looks[a.up.listed].seen != None)]
    + match a.health
      case None => []
      case Some(h) =>
        [Done("rollback-health", h.failure == None)] + if h.failure == None then LastStep(looks) else []
  }

  lemma RollbackStepsAre(steps: seq<Done>, t: Target, a: Account, looks: seq<Look>)
    requires a.Tried?
    ensures RunNotes(steps, t, a, looks) == steps + RollbackSteps(a, looks)
  {
    var looked := [Done("inspect-after", Listed(looks, a.up.listed))];
    assert steps + RestoreNotes(a) + looked == steps + (RestoreNotes(a) + looked);
  }

  /** An update that was rolled back goes on after its failure with the steps of the rollback. */
  lemma RevertedSteps(steps: seq<Done>, word: State, message: Message, e: Ending, t: Target, req: Request, was: World, w: World, shown: Shown)
    requires Truthful(word, message, e, t, req, was, w, shown) && message.RollbackReport?
    ensures |w.ups| > |was.ups| && e.rollback.Tried?
    ensures
      UpdateNotes(steps, word, message, e, t, was, w) ==
      steps + FirstSteps(e, t, was, w) + UpSteps(w.ups[|was.ups|].ok, e.health) + RollbackSteps(e.rollback, w.looks)
  {
    FirstStepsAre(steps, e, t, was, w);
    FailedUpStepsAre(steps + FirstSteps(e, t, was, w), w.ups[|was.ups|].ok, e, t, w.looks);
  }

  lemma FailedUpStepsAre(first: seq<Done>, ok: bool, e: Ending, t: Target, looks: seq<Look>)
    requires e.rollback.Tried? && (e.health.Some? ==> e.health.value.failure.Some?)
    ensures DeployNotes(first, ok, e, t, looks) == first + UpSteps(ok, e.health) + RollbackSteps(e.rollback, looks)
  {
    var upped := first + UpSteps(ok, e.health);
    RollbackStepsAre(upped, t, e.rollback, looks);
    assert first + [Done("up", ok)] + UpSteps(ok, e.health)[1..] == upped;
  }

  /** The name of a container's retagging step. */
  ghost predicate IsTagStep(name: string, c: Container) { name == "rollback-tag:" + c.service }

  /** Of the references put back, the failed steps are those of the containers not retagged. */
  lemma {:induction false} TagNotesIff(before: seq<Container>, marks: seq<Mark>, notes: seq<Done>, name: string)
    requires |marks| <= |before| && TagNotes(before, marks, notes)
    ensures Done(name, false) in notes <==> exists i :: 0 <= i < |marks| && marks[i] == NotTagged && IsTagStep(name, before[i])
    ensures Done(name, true) in notes ==> exists i :: 0 <= i < |marks| && marks[i] == Held && IsTagStep(name, before[i])
  {
    if marks != [] {
      var n := |marks| - 1;
      var k :| 0 <= k <= |notes| && TagNotes(before, marks[..n], notes[..k]) && TagNote(before[n], marks[n], notes[k..]);
      var front, back := notes[..k], notes[k..];
      assert notes == front + back;
      TagNotesIff(before, marks[..n], front, name);
      TagNoteIs(before[n], marks[n], back, name);
      LastMark(before, marks, marks[..n], NotTagged, name);
      LastMark(before, marks, marks[..n], Held, name);
    }
  }

  lemma LastMark(before: seq<Container>, marks: seq<Mark>, init: seq<Mark>, m: Mark, name: string)
    requires 0 < |marks| <= |before| && init == marks[..|marks| - 1]
    ensures
      var n := |marks| - 1;
      (exists i :: 0 <= i < |marks| && marks[i] == m && IsTagStep(name, before[i])) <==>
      (exists i :: 0 <= i < |init| && init[i] == m && IsTagStep(name, before[i])) || (marks[n] == m && IsTagStep(name, before[n]))
  {
    assert forall i :: 0 <= i < |init| ==> marks[i] == init[i];
  }

  lemma TagNoteIs(c: Container, m: Mark, note: seq<Done>, name: string)
    requires TagNote(c, m, note)
    ensures Done(name, false) in note <==> m == NotTagged && IsTagStep(name, c)
    ensures Done(name, true) in note ==> m == Held && IsTagStep(name, c)
  {
  }
}
