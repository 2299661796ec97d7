/**
 The update pipeline (internal/pipeline/pipeline.go `pipeline` and `Check`):
 every path from validation to an outcome word, and what that word says about
 the Docker world and about the calls the sink received.
 */
module Pipeline {
  import opened Wrappers
  import opened Jobs
  import opened Trace
  import opened Docker
  import opened Rollback
  import ImageRef
  import Health

  datatype Request = Request(tag: string, dryRun: bool, force: bool)

  // --------------------------------------------------------------- the diff

  /** A container that already is what the resolved images ask for, or that is not asked about. */
  predicate Current(t: Target, desired: map<string, string>, tags: Tags, c: Container) {
    var ref := RefOf(desired, c);
    || !InScope(t.services, c.service) || ref == ""
    || (ImageRef.TaggedRef(c.image) in {"", ref} && ref in tags && tags[ref] == c.imageID)
  }

  function CurrentFor(t: Target, desired: map<string, string>, tags: Tags): Container -> bool {
    c => Current(t, desired, tags, c)
  }

  /** The services of the containers that fail a test, in container order. */
  function Failing(ok: Container -> bool, cs: seq<Container>): seq<string> {
    if cs == [] then []
    else
      var last := cs[|cs| - 1];
      Failing(ok, cs[..|cs| - 1]) + if ok(last) then [] else [last.service]
  }

  ghost predicate AllOf(ok: Container -> bool, cs: seq<Container>) {
    forall i :: 0 <= i < |cs| ==> ok(cs[i])
  }

  function Outdated(t: Target, desired: map<string, string>, tags: Tags, before: seq<Container>): seq<string> {
    Failing(CurrentFor(t, desired, tags), before)
  }

  ghost predicate AllCurrent(t: Target, desired: map<string, string>, tags: Tags, before: seq<Container>) {
    AllOf(CurrentFor(t, desired, tags), before)
  }

  /** The services to recreate: the outdated ones, and those whose image could not be looked up. */
  method ChangedServices(d: Daemon, t: Target, desired: map<string, string>, before: seq<Container>)
    returns (changed: seq<string>)
    modifies d`now, d`badLookup
    ensures d.now >= old(d.now)
    ensures changed == [] ==> AllCurrent(t, desired, d.tags, before)
    ensures d.badLookup == old(d.badLookup) ==> changed == Outdated(t, desired, d.tags, before)
    ensures d.badLookup >= old(d.badLookup)
  {
    changed := [];
    for i := 0 to |before|
      invariant d.now >= old(d.now) && d.badLookup >= old(d.badLookup)
      invariant changed == [] ==> AllCurrent(t, desired, d.tags, before[..i])
      invariant d.badLookup == old(d.badLookup) ==> changed == Outdated(t, desired, d.tags, before[..i])
    {
      OneMore(CurrentFor(t, desired, d.tags), before, i);
      var outdated := LooksOutdated(d, t, desired, before[i]);
      if outdated { changed := changed + [before[i].service]; }
    }
    assert before[..|before|] == before;
  }

  /** One round of the loop. */
  method LooksOutdated(d: Daemon, t: Target, desired: map<string, string>, c: Container) returns (outdated: bool)
    modifies d`now, d`badLookup
    ensures d.now >= old(d.now) && d.badLookup >= old(d.badLookup)
    ensures !outdated ==> Current(t, desired, d.tags, c)
    ensures d.badLookup == old(d.badLookup) ==> outdated == !Current(t, desired, d.tags, c)
  {
    var ref := RefOf(desired, c);
    if !InScope(t.services, c.service) || ref == "" { return false; }
    var current := ImageRef.TaggedRef(c.image);
    if current != "" && current != ref { return true; }
    var newID := d.ImageID(ref);
    outdated := newID != Some(c.imageID);
  }

  lemma OneMore(ok: Container -> bool, cs: seq<Container>, i: nat)
    requires i < |cs|
    ensures Failing(ok, cs[..i + 1]) == Failing(ok, cs[..i]) + if ok(cs[i]) then [] else [cs[i].service]
    ensures AllOf(ok, cs[..i + 1]) <==> AllOf(ok, cs[..i]) && ok(cs[i])
  {
    var more := cs[..i + 1];
    assert more[..i] == cs[..i] && more[i] == cs[i];
    assert forall k :: 0 <= k < i ==> more[k] == cs[..i][k];
  }

  lemma {:induction false} NoneFailsIffAll(ok: Container -> bool, cs: seq<Container>)
    ensures Failing(ok, cs) == [] <==> AllOf(ok, cs)
  {
    if cs != [] {
      var n := |cs| - 1;
      NoneFailsIffAll(ok, cs[..n]);
      OneMore(ok, cs, n);
      assert cs[..n + 1] == cs;
    }
  }

  /** The services whose health decides: the configured ones, or all that were running. */
  function HealthTargets(t: Target, before: seq<Container>): seq<string> {
    if t.services != [] then t.services else RunningServices(before)
  }

  function RunningServices(before: seq<Container>): seq<string> {
    if before == [] then []
    else
      var last := before[|before| - 1];
      RunningServices(before[..|before| - 1]) + if IsRunning(last) then [last.service] else []
  }

  // --------------------------------------------------------- before the up

  /** What is known once the new images are on disk. */
  datatype Plan = Plan(before: seq<Container>, desired: map<string, string>, changed: seq<string>)

  /** Nothing was recreated. */
  ghost predicate Untouched(was: World, w: World) {
    w.ups == was.ups && Identities(w.containers) == Identities(was.containers)
  }

  /**
   The facts a plan rests on: the compose file is valid and the pull worked, its
   containers are the stack's, its images are the compose file's or, if that did
   not resolve, the containers' own, the outdated services are those the tag
   table shows, up to lookups that failed, and a requested tag changes no more
   than the tag. `bad` are the commands that failed.
   */
  ghost predicate Fits(p: Plan, t: Target, req: Request, was: World, planned: Tags, bad: Faults) {
    && bad.validate <= 0 && bad.pull <= 0
    && Identities(p.before) == Identities(was.containers)
    && p.desired in {was.compose(EnvTag(t, req.tag)), FromContainers(p.before)}
    && (bad.resolve <= 0 ==> p.desired == was.compose(EnvTag(t, req.tag)))
    && (p.changed == [] ==> AllCurrent(t, p.desired, planned, p.before))
    && (bad.lookup <= 0 ==> p.changed == Outdated(t, p.desired, planned, p.before))
    && (!t.takesTag || req.tag == "" || ImageRef.TagOnlyChangesTheTag(t.services, p.desired, Some(was.compose(""))))
  }

  /** With the requested tag the file was validated, the plan's containers listed first of all, and its images pulled once. */
  ghost predicate Began(p: Plan, t: Target, req: Request, was: World, w: World) {
    && w.validated == was.validated + [EnvTag(t, req.tag)]
    && was.looks < w.looks && w.looks[|was.looks|].seen == Some(p.before) && w.looks[|was.looks|].tag == EnvTag(t, req.tag)
    && w.pulls == was.pulls + [PullRun(EnvTag(t, req.tag), t.services)]
  }

  /** The job shows what the plan found. */
  ghost predicate Tells(p: Plan, shown: Shown) {
    shown.before == States(p.before) && shown.changed == p.changed
  }

  /** A failure before there is a plan names the command that failed or the service that stopped the tag. */
  ghost predicate EarlyFailure(m: Message, t: Target, req: Request, was: World, bad: Faults) {
    match m
    case InvalidCompose => bad.validate > 0
    case InspectFailed => bad.validate <= 0 && bad.list > 0
    case TagRefused(r) => bad.validate <= 0 && t.takesTag && req.tag != "" && Refused(r, t, req, was, bad)
    case PullFailed => bad.validate <= 0 && bad.pull > 0
    case _ => false
  }

  ghost predicate Refused(r: ImageRef.Refusal, t: Target, req: Request, was: World, bad: Faults) {
    if r.Unresolved? || bad.resolve > 0 then bad.resolve > 0
    else Offends(r, t.services, was.compose(""), was.compose(req.tag))
  }

  ghost predicate Offends(r: ImageRef.Refusal, services: seq<string>, base: map<string, string>, desired: map<string, string>) {
    exists s :: s in desired && ImageRef.Wanted(services, s) && ImageRef.Objection(base, desired, s) == Some(r)
  }

  /** What is seen first is what the job shows as the containers before. */
  ghost predicate FirstSeen(before: seq<Container>, tag: string, was: World, w: World, shown: Shown) {
    && w.validated == was.validated + [tag]
    && was.looks < w.looks && w.looks[|was.looks|].seen == Some(before) && w.looks[|was.looks|].tag == tag
    && Identities(before) == Identities(w.containers) && shown.before == States(before)
  }

  /** The steps of validating and looking. */
  ghost function LookNotes(steps: seq<Done>, stop: Option<Message>): seq<Done> {
    if stop == Some(InvalidCompose) then steps + [Done("validate", false)]
    else steps + [Done("validate", true)] + [Done("inspect-before", stop != Some(InspectFailed))]
  }

  /** And of resolving the images. */
  ghost function SurveyNotes(steps: seq<Done>, stop: Option<Message>, resolved: bool): seq<Done> {
    if stop == Some(InvalidCompose) || stop == Some(InspectFailed) then LookNotes(steps, stop)
    else LookNotes(steps, None) + [Done("resolve-images", resolved)]
  }

  /** And of pulling them. */
  ghost function PlanNotes(steps: seq<Done>, stop: Option<Message>, resolved: bool): seq<Done> {
    var surveyed := SurveyNotes(steps, stop, resolved);
    if stop.None? || stop == Some(PullFailed) then surveyed + [Done("pull", stop.None?)] else surveyed
  }

  /** Validation and the first inspection. */
  method Inspect(d: Daemon, sink: Recorder, tag: string) returns (stop: Option<Message>, before: seq<Container>)
    requires sink.Mode() == Closed
    modifies d`now, d`containers, d`looks, d`validated, d`badValidate, d`badList, sink
    ensures old(sink.calls) <= sink.calls && sink.Mode() == Closed
    ensures Untouched(old(Now(d)), Now(d)) && Later(old(Now(d)), Now(d))
    ensures stop.None? ==> d.badValidate == old(d.badValidate) && FirstSeen(before, tag, old(Now(d)), Now(d), ShownBy(sink.calls))
    ensures ShownBy(sink.calls).steps == LookNotes(ShownBy(old(sink.calls)).steps, stop)
    ensures stop.Some? ==>
              || (stop.value == InvalidCompose && d.badValidate > old(d.badValidate))
              || (stop.value == InspectFailed && d.badValidate == old(d.badValidate) && d.badList > old(d.badList))
  {
    before := [];
    sink.StartStep("validate");
    var res := d.Validate(tag);
    sink.AddStep("validate", res.err, res.output);
    if res.err.Some? { return Some(InvalidCompose), before; }

    before, res := Snapshot(d, sink, "inspect-before", tag);
    if res.err.Some? { return Some(InspectFailed), before; }
    sink.SetBefore(States(before));
    stop := None;
  }

  /** The inspection, the resolved images and the tag guard. */
  method Survey(d: Daemon, sink: Recorder, t: Target, req: Request)
    returns (stop: Option<Message>, before: seq<Container>, desired: map<string, string>, ghost resolved: bool)
    requires sink.Mode() == Closed
    modifies d`now, d`containers, d`looks, d`validated, d`badValidate, d`badList, d`badResolve, sink
    ensures old(sink.calls) <= sink.calls && sink.Mode() == Closed
    ensures ShownBy(sink.calls).steps == SurveyNotes(ShownBy(old(sink.calls)).steps, stop, resolved)
    ensures Untouched(old(Now(d)), Now(d)) && Later(old(Now(d)), Now(d))
    ensures stop.Some? ==> EarlyFailure(stop.value, t, req, old(Now(d)), Since(old(d.Counted()), d.Counted()))
    ensures stop.None? ==> d.badValidate == old(d.badValidate) && FirstSeen(before, EnvTag(t, req.tag), old(Now(d)), Now(d), ShownBy(sink.calls))
    ensures stop.None? ==> desired == if resolved then d.compose(EnvTag(t, req.tag)) else FromContainers(before)
    ensures stop.None? && d.badResolve == old(d.badResolve) ==> resolved
    ensures stop.None? ==> !t.takesTag || req.tag == "" || ImageRef.TagOnlyChangesTheTag(t.services, desired, Some(d.compose("")))
  {
    desired, resolved := map[], false;
    var tag := EnvTag(t, req.tag);
    stop, before := Inspect(d, sink, tag);
    if stop.Some? { return; }
    desired, resolved := ResolveImages(d, sink, tag, before);
    var refusal := CheckTag(d, t, req.tag, desired);
    stop := if refusal.Some? then Some(TagRefused(refusal.value)) else None;
  }

  /** The pull in its step. */
  method PullImages(d: Daemon, sink: Recorder, tag: string, services: seq<string>) returns (ok: bool)
    requires sink.Mode() == Closed
    modifies d`now, d`images, d`tags, d`pulls, d`badPull, sink
    ensures old(sink.calls) <= sink.calls && sink.Mode() == Closed && ShownBy(sink.calls) == Noted(ShownBy(old(sink.calls)), "pull", ok)
    ensures d.now >= old(d.now) && d.pulls == old(d.pulls) + [PullRun(tag, services)]
    ensures d.badPull == old(d.badPull) + if ok then 0 else 1
  {
    sink.StartStep("pull");
    var res := d.Pull(tag, services);
    sink.AddStep("pull", res.err, res.output);
    ok := res.err.None?;
  }

  method Prepare(d: Daemon, sink: Recorder, t: Target, req: Request)
    returns (stop: Option<Message>, p: Plan, ghost resolved: bool)
    requires sink.Mode() == Closed
    modifies d`now, d`images, d`tags, d`containers, d`looks, d`validated, d`badValidate, d`badList, d`badResolve, d`pulls, d`badPull, d`badLookup, sink
    ensures old(sink.calls) <= sink.calls && sink.Mode() == Closed
    ensures Untouched(old(Now(d)), Now(d)) && Later(old(Now(d)), Now(d))
    ensures ShownBy(sink.calls).steps == PlanNotes(ShownBy(old(sink.calls)).steps, stop, resolved)
    ensures stop.None? ==> Began(p, t, req, old(Now(d)), Now(d)) && Tells(p, ShownBy(sink.calls))
    ensures stop.None? ==> Fits(p, t, req, old(Now(d)), d.tags, Since(old(d.Counted()), d.Counted()))
    ensures stop.Some? ==> EarlyFailure(stop.value, t, req, old(Now(d)), Since(old(d.Counted()), d.Counted()))
  {
    var before, desired;
    stop, before, desired, resolved := Survey(d, sink, t, req);
    p := Plan(before, desired, []);
    if stop.Some? { return; }
    var pulled, changed := Compare(d, sink, t, EnvTag(t, req.tag), before, desired);
    if !pulled { return Some(PullFailed), p, resolved; }
    p := p.(changed := changed);
  }

  /** The pull and the diff. */
  method Compare(d: Daemon, sink: Recorder, t: Target, tag: string, before: seq<Container>, desired: map<string, string>)
    returns (pulled: bool, changed: seq<string>)
    requires sink.Mode() == Closed
    modifies d`now, d`images, d`tags, d`pulls, d`badPull, d`badLookup, sink
    ensures old(sink.calls) <= sink.calls && sink.Mode() == Closed
    ensures d.now >= old(d.now) && d.pulls == old(d.pulls) + [PullRun(tag, t.services)]
    ensures d.badPull == old(d.badPull) + (if pulled then 0 else 1) && d.badLookup >= old(d.badLookup)
    ensures pulled && changed == [] ==> AllCurrent(t, desired, d.tags, before)
    ensures pulled && d.badLookup == old(d.badLookup) ==> changed == Outdated(t, desired, d.tags, before)
    ensures
      var noted := Noted(ShownBy(old(sink.calls)), "pull", pulled);
      ShownBy(sink.calls) == if pulled then noted.(changed := changed) else noted
  {
    changed := [];
    pulled := PullImages(d, sink, tag, t.services);
    if !pulled { return; }
    changed := ChangedServices(d, t, desired, before);
    sink.SetChanged(changed);
  }

  /** The tag guard with the images the stack resolves to without the tag. */
  method CheckTag(d: Daemon, t: Target, tag: string, desired: map<string, string>) returns (refusal: Option<ImageRef.Refusal>)
    modifies d`now, d`badResolve
    ensures d.now >= old(d.now)
    ensures d.badResolve >= old(d.badResolve)
    ensures refusal.Some? ==> t.takesTag && tag != ""
    ensures refusal == Some(ImageRef.Unresolved) ==> d.badResolve > old(d.badResolve)
    ensures refusal.Some? && refusal.value != ImageRef.Unresolved ==> Offends(refusal.value, t.services, d.compose(""), desired)
    ensures refusal.None? ==> !t.takesTag || tag == "" || ImageRef.TagOnlyChangesTheTag(t.services, desired, Some(d.compose("")))
    ensures !t.takesTag || tag == "" ==> refusal.None?
  {
    if !t.takesTag || tag == "" { return None; }
    var base, res := d.DesiredImages(EnvTag(t, ""));
    refusal := ImageRef.TagGuard(t.takesTag, tag, t.services, desired, if res.err.None? then Some(base) else None);
  }

  method RunPreUpdate(d: Daemon, sink: Recorder, hook: Hook) returns (go: bool)
    requires sink.Mode() == Closed
    modifies d`now, d`badHook, sink
    ensures old(sink.calls) <= sink.calls && sink.Mode() == Closed
    ensures hook.NoHook? ==> ShownBy(sink.calls) == ShownBy(old(sink.calls))
    ensures !hook.NoHook? ==> ShownBy(sink.calls) == Noted(ShownBy(old(sink.calls)), "pre-update", d.badHook == old(d.badHook))
    ensures d.now >= old(d.now)
    ensures d.badHook >= old(d.badHook) && (hook.NoHook? ==> d.badHook == old(d.badHook))
    ensures !go <==> hook == PreUpdate(true) && d.badHook > old(d.badHook)
  {
    if hook.NoHook? { return true; }
    sink.StartStep("pre-update");
    var res := d.Hook();
    sink.AddStep("pre-update", res.err, res.output);
    go := res.err.None? || !hook.required;
  }

  // ------------------------------------------------------------- the outcome

  /** How an update ended: the plan it made and the tag table it saw, the wait for health, and its rollback. */
  datatype Ending = Ending(plan: Option<Plan>, resolved: bool, planned: Tags, health: Option<HealthRun>, rollback: Account)

  /** `n` runs of `up` since, the first of them the update's own. */
  ghost predicate Ups(was: World, w: World, n: nat, t: Target, req: Request) {
    && n > 0 && |w.ups| == |was.ups| + n && w.ups[..|was.ups|] == was.ups
    && var u := w.ups[|was.ups|]; u.tag == EnvTag(t, req.tag) && u.services == t.services && !u.force
  }

  /** Nothing to do: no service to recreate, none forced, and the stack is settled. */
  ghost predicate Quiet(p: Plan, t: Target, req: Request) {
    !req.force && p.changed == [] && Settled(p.before, HealthTargets(t, p.before))
  }

  /** One `up` that worked and a stable stretch of health: requested services run what their references name. */
  ghost predicate UpAndHealthy(e: Ending, p: Plan, t: Target, req: Request, was: World, w: World) {
    && e.rollback == NotTried && Agrees(e.planned, w.tags) && Ups(was, w, 1, t, req) && w.ups[|was.ups|].ok
    && RunsTagged(w.compose(EnvTag(t, req.tag)), t.services, w.tags, w.containers)
    && e.health.Some? && e.health.value.failure.None? && Waited(e.health.value, HealthTargets(t, p.before), t)
  }

  /** A cause is what it says: an `up` that failed, or a wait that gave up on the stack for its reason. */
  ghost predicate Caused(cause: Cause, e: Ending, p: Plan, t: Target, ok: bool) {
    match cause
    case UpFailed => !ok && e.health.None?
    case Unhealthy(f) =>
      ok && e.health.Some? && e.health.value.failure == Some(f) && Waited(e.health.value, HealthTargets(t, p.before), t)
  }

  /** An `up` that failed, or after which the stack did not come healthy, and nothing more. */
  ghost predicate LeftAsIs(cause: Cause, e: Ending, p: Plan, t: Target, req: Request, was: World, w: World) {
    !t.rollback && e.rollback == NotTried && Agrees(e.planned, w.tags) && Ups(was, w, 1, t, req) && Caused(cause, e, p, t, w.ups[|was.ups|].ok)
  }

  /** The same followed by a rollback, which the outcome word describes. */
  ghost predicate Reverted(word: State, message: Message, e: Ending, p: Plan, t: Target, req: Request, was: World, w: World) {
    var a := e.rollback;
    && t.rollback && message.RollbackReport? && a.Tried? && Agrees(e.planned, a.was) && Ups(was, w, 2, t, req)
    && Caused(message.cause, e, p, t, w.ups[|was.ups|].ok)
    && Accounts(a, w.compose, t, p.before, message.missing, message.retagFailed, Since(was.bad, w.bad))
    && w.ups[|was.ups| + 1] == a.up && Agrees(a.up.tags, w.tags)
    && (a.up.ok ==> RunsTagged(w.compose(a.up.tag), t.services, w.tags, w.containers))
    && Concluded(word, a, message.retagFailed, HealthTargets(t, p.before), t)
  }

  /** If no listing failed, the job shows the containers there are in the end. */
  ghost predicate ShowsEnd(was: World, w: World, shown: Shown) {
    w.bad.list <= was.bad.list ==> Shows(shown.after, w.containers)
  }

  /** What an outcome word says about the world before and after, given the plan. */
  ghost predicate WordHolds(word: State, message: Message, e: Ending, p: Plan, t: Target, req: Request,
                            was: World, w: World, shown: Shown) {
    match word
    case NoChange => Untouched(was, w) && e.planned == w.tags && shown.after == shown.before && message == UpToDate
    case DryRun => Untouched(was, w) && e.planned == w.tags && shown.after == shown.before && message == DryRunReport(p.changed)
    case Succeeded => UpAndHealthy(e, p, t, req, was, w) && message == Updated(p.changed) && ShowsEnd(was, w, shown)
    case Failed =>
      if message.RollbackDisabled? then LeftAsIs(message.cause, e, p, t, req, was, w) && ShowsEnd(was, w, shown)
      else Untouched(was, w) && shown.after == shown.before && message == HookFailed
    case RolledBack => Reverted(word, message, e, p, t, req, was, w) && ShowsEnd(was, w, shown)
    case RollbackFailed => Reverted(word, message, e, p, t, req, was, w) && ShowsEnd(was, w, shown)
    case _ => false
  }

  /** The waits for health took place: their polls are listings made after the `up` they follow, timed by the daemon's clock. */
  ghost predicate Witnessed(e: Ending, tag: string, was: World, w: World) {
    && (e.health.Some? ==>
          |w.ups| > |was.ups| && OnRecord(e.health.value, w.ups[|was.ups|].listed, was, w) && e.health.value.tag == tag)
    && (e.rollback.Tried? && e.rollback.health.Some? ==> OnRecord(e.rollback.health.value, e.rollback.up.listed, was, w))
  }

  /** The hook is required and failed. */
  ghost predicate HookStops(t: Target, was: World, w: World) {
    t.hook == PreUpdate(true) && w.bad.hook > was.bad.hook
  }

  /** An outcome word and its message tell the truth. */
  ghost predicate Truthful(word: State, message: Message, e: Ending, t: Target, req: Request, was: World, w: World, shown: Shown) {
    match e.plan
    case None => word == State.Failed && EarlyFailure(message, t, req, was, Since(was.bad, w.bad)) && Untouched(was, w)
    case Some(p) =>
      && Fits(p, t, req, was, e.planned, Since(was.bad, w.bad)) && Tells(p, shown) && Began(p, t, req, was, w) && Witnessed(e, EnvTag(t, req.tag), was, w)
      && (word == DryRun <==> req.dryRun)
      && (word == NoChange <==> !req.dryRun && Quiet(p, t, req))
      && (message == HookFailed <==> !req.dryRun && !Quiet(p, t, req) && HookStops(t, was, w))
      && WordHolds(word, message, e, p, t, req, was, w, shown)
  }

  /**
   The steps a job is told of, in order, and how each went: as far as the update got,
   and the steps of its wait and its rollback if it got to them.
   */
  ghost function UpdateNotes(steps: seq<Done>, word: State, message: Message, e: Ending, t: Target, was: World, w: World): seq<Done> {
    if e.plan.None? then PlanNotes(steps, Some(message), e.resolved)
    else
      var planned := PlanNotes(steps, None, e.resolved);
      if word == DryRun || word == NoChange then planned
      else
        var hooked := HookNotes(planned, t, was, w);
        if message == HookFailed || |w.ups| <= |was.ups| then hooked
        else DeployNotes(hooked, w.ups[|was.ups|].ok, e, t, w.looks)
  }

  /** An end, a truthful word for it, and the steps that led there. */
  ghost predicate WholeTruth(word: State, message: Message, e: Ending, t: Target, req: Request, was: World, w: World,
                             shown: Shown, steps: seq<Done>) {
    && Terminal(word) && Truthful(word, message, e, t, req, was, w, shown)
    && shown.steps == UpdateNotes(steps, word, message, e, t, was, w)
  }

  ghost function HookNotes(steps: seq<Done>, t: Target, was: World, w: World): seq<Done> {
    if t.hook.NoHook? then steps else steps + [Done("pre-update", w.bad.hook <= was.bad.hook)]
  }

  /** The steps from the first `up` on. */
  ghost function DeployNotes(steps: seq<Done>, ok: bool, e: Ending, t: Target, looks: seq<Look>): seq<Done> {
    var upped := steps + [Done("up", ok)];
    if e.health.None? then RunNotes(upped, t, e.rollback, looks)
    else if e.health.value.failure.None? then WaitNotes(upped, "health", true, looks)
    else RunNotes(WaitNotes(upped, "health", false, looks), t, e.rollback, looks)
  }

  /** The update pipeline: every path leaves the steps bracketed and ends in a truthful outcome. */
  method Update(d: Daemon, sink: Recorder, t: Target, req: Request)
    returns (state: State, message: Message, ghost e: Ending)
    requires sink.Mode() == Closed && t.healthTimeout > 0
    modifies d, sink
    ensures old(sink.calls) <= sink.calls && sink.Mode() == Closed
    ensures Terminal(state) && Truthful(state, message, e, t, req, old(Now(d)), Now(d), ShownBy(sink.calls))
    ensures ShownBy(sink.calls).steps == UpdateNotes(ShownBy(old(sink.calls)).steps, state, message, e, t, old(Now(d)), Now(d))
  {
    ghost var was := Now(d);
    var early, p;
    early, p, e := Decide(d, sink, t, req);
    if early.Some? { return early.value.0, early.value.1, e; }
    ghost var mid, so := Now(d), e;
    state, message, e := Deploy(d, sink, t, req, p, was, so);
    DeployedIsTruthful(state, message, so, e, p, t, req, was, mid, Now(d), ShownBy(sink.calls), ShownBy(old(sink.calls)).steps);
  }

  /** Everything is in place for the first `up`. */
  ghost predicate Ready(e: Ending, p: Plan, t: Target, req: Request, was: World, w: World) {
    && e == Ending(Some(p), e.resolved, w.tags, None, NotTried)
    && !req.dryRun && !Quiet(p, t, req) && !HookStops(t, was, w)
    && Fits(p, t, req, was, w.tags, Since(was.bad, w.bad)) && Began(p, t, req, was, w)
    && Untouched(was, w) && Later(was, w)
  }

  /** Plan the update and stop if there is reason to. */
  method Decide(d: Daemon, sink: Recorder, t: Target, req: Request)
    returns (early: Option<(State, Message)>, p: Plan, ghost e: Ending)
    requires sink.Mode() == Closed
    modifies d`now, d`images, d`tags, d`containers, d`looks, d`validated, d`badValidate, d`badList, d`badResolve, d`pulls, d`badPull, d`badHook, d`badLookup, sink
    ensures old(sink.calls) <= sink.calls && sink.Mode() == Closed
    ensures early.Some? ==>
              WholeTruth(early.value.0, early.value.1, e, t, req, old(Now(d)), Now(d), ShownBy(sink.calls), ShownBy(old(sink.calls)).steps)
    ensures early.None? ==> Ready(e, p, t, req, old(Now(d)), Now(d)) && Tells(p, ShownBy(sink.calls))
    ensures early.None? ==>
              ShownBy(sink.calls).steps ==
              HookNotes(PlanNotes(ShownBy(old(sink.calls)).steps, None, e.resolved), t, old(Now(d)), Now(d))
  {
    ghost var was := Now(d);
    var stop;
    ghost var resolved;
    stop, p, resolved := Prepare(d, sink, t, req);
    if stop.Some? {
      e := Ending(None, resolved, d.tags, None, NotTried);
      UnplannedIsTruthful(stop.value, e, t, req, was, Now(d), ShownBy(sink.calls), ShownBy(old(sink.calls)).steps);
      return Some((State.Failed, stop.value)), p, e;
    }
    e := Ending(Some(p), resolved, d.tags, None, NotTried);
    early := BeforeUp(d, sink, t, req, p, was);
    if early.Some? {
      StoppedIsTruthful(early.value.0, early.value.1, e, p, t, req, was, Now(d), ShownBy(sink.calls), ShownBy(old(sink.calls)).steps);
    } else {
      PlannedIsReady(e, p, t, req, was, Now(d));
    }
  }

  lemma PlannedIsReady(e: Ending, p: Plan, t: Target, req: Request, was: World, w: World)
    requires e == Ending(Some(p), e.resolved, w.tags, None, NotTried)
    requires !req.dryRun && !Quiet(p, t, req) && !HookStops(t, was, w)
    requires Fits(p, t, req, was, w.tags, Since(was.bad, w.bad)) && Began(p, t, req, was, w)
    requires Untouched(was, w) && Later(was, w)
    ensures Ready(e, p, t, req, was, w)
  {
  }

  /** Failing before there is a plan is the whole truth. */
  lemma UnplannedIsTruthful(message: Message, e: Ending, t: Target, req: Request, was: World, w: World, shown: Shown, steps: seq<Done>)
    requires e.plan.None? && EarlyFailure(message, t, req, was, Since(was.bad, w.bad)) && Untouched(was, w)
    requires shown.steps == PlanNotes(steps, Some(message), e.resolved)
    ensures WholeTruth(State.Failed, message, e, t, req, was, w, shown, steps)
  {
  }

  /** What deploying adds to a plan that fits is the whole truth. */
  lemma DeployedIsTruthful(state: State, message: Message, so: Ending, e: Ending, p: Plan, t: Target, req: Request,
                           was: World, mid: World, w: World, shown: Shown, steps: seq<Done>)
    requires Ready(so, p, t, req, was, mid) && Tells(p, shown) && |w.ups| > |was.ups|
    requires shown.steps == DeployNotes(HookNotes(PlanNotes(steps, None, so.resolved), t, was, mid), w.ups[|was.ups|].ok, e, t, w.looks)
    requires Later(mid, w) && w.pulls == mid.pulls && w.validated == mid.validated && Witnessed(e, EnvTag(t, req.tag), was, w)
    requires w.bad.validate == mid.bad.validate && w.bad.pull == mid.bad.pull && w.bad.hook == mid.bad.hook
    requires e == so.(health := e.health, rollback := e.rollback)
    requires Deployed(state, message, e, p, t, req, was, w, shown)
    ensures WholeTruth(state, message, e, t, req, was, w, shown, steps)
  {
    FitsLater(p, t, req, was, so.planned, Since(was.bad, mid.bad), Since(was.bad, w.bad));
  }

  /** The outcomes reached after the first `up`. */
  ghost predicate Deployed(state: State, message: Message, e: Ending, p: Plan, t: Target, req: Request,
                           was: World, w: World, shown: Shown) {
    && state in {Succeeded, State.Failed, RolledBack, RollbackFailed} && (state == State.Failed ==> message.RollbackDisabled?)
    && message != HookFailed && WordHolds(state, message, e, p, t, req, was, w, shown)
  }

  /** Why nothing is recreated: a dry run, nothing to do, or a required hook that failed. */
  ghost predicate Stops(word: State, message: Message, p: Plan, t: Target, req: Request, was: World, w: World) {
    || (req.dryRun && word == DryRun && message == DryRunReport(p.changed))
    || (!req.dryRun && Quiet(p, t, req) && word == NoChange && message == UpToDate)
    || (!req.dryRun && !Quiet(p, t, req) && HookStops(t, was, w) && word == State.Failed && message == HookFailed)
  }

  /** Reasons to stop before anything is recreated, in order. */
  method BeforeUp(d: Daemon, sink: Recorder, t: Target, req: Request, p: Plan, ghost was: World)
    returns (early: Option<(State, Message)>)
    requires sink.Mode() == Closed && d.badHook == was.bad.hook
    modifies d`now, d`badHook, sink
    ensures old(sink.calls) <= sink.calls && sink.Mode() == Closed
    ensures d.now >= old(d.now) && d.badHook >= old(d.badHook)
    ensures early.Some? ==> Stops(early.value.0, early.value.1, p, t, req, was, Now(d))
    ensures early.None? ==> !req.dryRun && !Quiet(p, t, req) && !HookStops(t, was, Now(d))
    ensures
      var hooked := ShownBy(old(sink.calls)).(steps := HookNotes(ShownBy(old(sink.calls)).steps, t, was, Now(d)));
      ShownBy(sink.calls) ==
      if early.None? then hooked
      else (if early.value.1 == HookFailed then hooked else ShownBy(old(sink.calls))).(after := States(p.before))
  {
    if req.dryRun {
      sink.SetAfter(States(p.before));
      return Some((DryRun, DryRunReport(p.changed)));
    }
    if p.changed == [] && !req.force && Settled(p.before, HealthTargets(t, p.before)) {
      sink.SetAfter(States(p.before));
      return Some((NoChange, UpToDate));
    }
    var go := RunPreUpdate(d, sink, t.hook);
    if go { return None; }
    sink.SetAfter(States(p.before));
    early := Some((State.Failed, HookFailed));
  }

  /** Stopping before the first `up` for its reason is the whole truth. */
  lemma StoppedIsTruthful(word: State, message: Message, e: Ending, p: Plan, t: Target, req: Request, was: World, w: World,
                          shown: Shown, steps: seq<Done>)
    requires shown.steps == var planned := PlanNotes(steps, None, e.resolved);
                            if message == HookFailed then HookNotes(planned, t, was, w) else planned
    requires e == Ending(Some(p), e.resolved, w.tags, None, NotTried)
    requires Fits(p, t, req, was, w.tags, Since(was.bad, w.bad)) && Began(p, t, req, was, w) && Tells(p, shown)
    requires Untouched(was, w) && shown.after == shown.before && Stops(word, message, p, t, req, was, w)
    ensures WholeTruth(word, message, e, t, req, was, w, shown, steps)
  {
  }

  /** From the first `up` to the end. */
  method Deploy(d: Daemon, sink: Recorder, t: Target, req: Request, p: Plan, ghost was: World, ghost so: Ending)
    returns (state: State, message: Message, ghost e: Ending)
    requires sink.Mode() == Closed && t.healthTimeout > 0
    requires Later(was, Now(d)) && was.ups == d.ups && so.planned == d.tags && so.health.None? && so.rollback == NotTried
    modifies d`now, d`images, d`tags, d`containers, d`ups, d`looks, d`badList, d`badResolve, d`badLookup, d`badExists, d`badTag, sink
    ensures old(sink.calls) <= sink.calls && sink.Mode() == Closed
    ensures ShownBy(sink.calls).before == ShownBy(old(sink.calls)).before && ShownBy(sink.calls).changed == ShownBy(old(sink.calls)).changed
    ensures Later(old(Now(d)), Now(d)) && Witnessed(e, EnvTag(t, req.tag), was, Now(d))
    ensures e == so.(health := e.health, rollback := e.rollback)
    ensures Deployed(state, message, e, p, t, req, was, Now(d), ShownBy(sink.calls))
    ensures ShownBy(sink.calls).steps == DeployNotes(ShownBy(old(sink.calls)).steps, d.ups[|was.ups|].ok, e, t, d.looks)
  {
    ghost var from := Now(d);
    var cause;
    ghost var health;
    cause, health := UpAndWait(d, sink, t, req, p);
    e := so.(health := health);
    if cause.None? {
      OnRecordLater(health.value, |from.looks|, |from.looks|, was, from, Now(d), Now(d));
      return Succeeded, Updated(p.changed), e;
    }
    ghost var mid := Now(d);
    ghost var a;
    state, message, a := Rollback.Run(d, sink, t, p.before, HealthTargets(t, p.before), cause.value);
    e := e.(rollback := a);
    RanAfterUp(state, message, e, cause.value, p, t, req, was, from, mid, Now(d), ShownBy(sink.calls));
  }

  /** An update whose own `up` or wait failed, and what came of it. */
  lemma RanAfterUp(state: State, message: Message, e: Ending, cause: Cause, p: Plan, t: Target, req: Request,
                   was: World, from: World, mid: World, w: World, shown: Shown)
    requires Later(was, from) && was.ups == from.ups && Later(from, mid) && Later(mid, w)
    requires Agrees(e.planned, mid.tags) && Ups(from, mid, 1, t, req) && Caused(cause, e, p, t, mid.ups[|from.ups|].ok)
    requires e.health.Some? ==> OnRecord(e.health.value, mid.ups[|from.ups|].listed, from, mid) && e.health.value.tag == EnvTag(t, req.tag)
    requires Ran(state, message, e.rollback, t, p.before, HealthTargets(t, p.before), cause, mid, w)
    requires w.bad.list <= mid.bad.list ==> Shows(shown.after, w.containers)
    ensures Witnessed(e, EnvTag(t, req.tag), was, w) && Deployed(state, message, e, p, t, req, was, w, shown)
  {
    var a := e.rollback;
    if e.health.Some? { OnRecordLater(e.health.value, mid.ups[|from.ups|].listed, mid.ups[|from.ups|].listed, was, from, mid, w); }
    if t.rollback {
      if a.health.Some? { OnRecordLater(a.health.value, a.up.listed, a.up.listed, was, mid, w, w); }
      UpsGrow(was, mid, w, a.up, t, req);
      AccountsWiden(a, a, w.compose, t, p.before, message.missing, message.retagFailed, Since(mid.bad, w.bad), Since(was.bad, w.bad));
    }
  }

  /** A plan still fits when more of the run is counted, as long as no more lookups or resolutions are taken to have worked. */
  lemma FitsLater(p: Plan, t: Target, req: Request, was: World, planned: Tags, bad: Faults, more: Faults)
    requires Fits(p, t, req, was, planned, bad) && more.validate == bad.validate && more.pull == bad.pull && AtLeast(bad, more)
    ensures Fits(p, t, req, was, planned, more)
  {
  }

  lemma UpsGrow(was: World, mid: World, w: World, u: UpRun, t: Target, req: Request)
    requires Ups(was, mid, 1, t, req) && w.ups == mid.ups + [u]
    ensures Ups(was, w, 2, t, req) && w.ups[|was.ups| + 1] == u && w.ups[|was.ups|] == mid.ups[|was.ups|]
  {
  }

  /** The update's own `up`, the health wait, and the last look when both went well. */
  method UpAndWait(d: Daemon, sink: Recorder, t: Target, req: Request, p: Plan)
    returns (cause: Option<Cause>, ghost health: Option<HealthRun>)
    requires sink.Mode() == Closed && t.healthTimeout > 0
    modifies d`now, d`images, d`tags, d`containers, d`ups, d`looks, d`badList, sink
    ensures old(sink.calls) <= sink.calls && sink.Mode() == Closed
    ensures ShownBy(sink.calls).before == ShownBy(old(sink.calls)).before && ShownBy(sink.calls).changed == ShownBy(old(sink.calls)).changed
    ensures Later(old(Now(d)), Now(d)) && Ups(old(Now(d)), Now(d), 1, t, req)
    ensures d.ups[|old(d.ups)|].listed == |old(d.looks)| && Agrees(old(d.tags), d.tags)
    ensures health.Some? ==> OnRecord(health.value, |old(d.looks)|, old(Now(d)), Now(d)) && health.value.tag == EnvTag(t, req.tag)
    ensures (health.Some? <==> d.ups[|old(d.ups)|].ok) && (health.Some? ==> (cause.None? <==> health.value.failure.None?))
    ensures cause.None? ==> LastLook(old(d.badList), d.badList, sink.calls, d.containers)
    ensures
      var upped := ShownBy(old(sink.calls)).steps + [Done("up", d.ups[|old(d.ups)|].ok)];
      ShownBy(sink.calls).steps ==
      if health.None? then upped else WaitNotes(upped, "health", health.value.failure.None?, d.looks)
    ensures
      var e := Ending(Some(p), false, old(d.tags), health, NotTried);
      match cause
      case None => UpAndHealthy(e, p, t, req, old(Now(d)), Now(d))
      case Some(c) => Caused(c, e, p, t, d.ups[|old(d.ups)|].ok)
  {
    ghost var was := Now(d);
    var tag, watched := EnvTag(t, req.tag), HealthTargets(t, p.before);
    health := None;
    var ok := Recreate(d, sink, "up", tag, t.services, false);
    if !ok { return Some(UpFailed), health; }
    ghost var mid := Now(d);
    var failure;
    ghost var run;
    failure, run := AwaitHealth(d, sink, t, tag, watched, "health");
    health := Some(run);
    OnRecordLater(run, |mid.looks|, |mid.looks|, was, mid, Now(d), Now(d));
    if failure.Some? { return Some(Unhealthy(failure.value)), health; }
    RunsTaggedIsStable(d.compose(tag), t.services, d.tags, mid.containers, d.containers);
    cause := None;
  }

  /** The resolved images give the service one that can be tagged. */
  ghost predicate HasReference(desired: map<string, string>, service: string) {
    service in desired && Taggable(desired[service])
  }

  /** After `rolled_back` a restorable container named neither missing nor failed has its image in place. */
  lemma NotMissingIsHeld(message: Message, e: Ending, p: Plan, t: Target, req: Request, was: World, w: World, i: int)
    requires Reverted(RolledBack, message, e, p, t, req, was, w)
    requires 0 <= i < |p.before| && p.before[i].imageID != "" && p.before[i].service !in message.missing
    requires Taggable(p.before[i].image) || HasReference(e.rollback.desired, p.before[i].service)
    ensures e.rollback.marks[i] == Held
  {
    UnnamedIsHeld(p.before, e.rollback.desired, e.rollback.marks, e.rollback.up.tags, i);
  }

  /**
   What `rolled_back` says about the containers that run, exactly: where the service
   still resolves to the reference that was put back, they run the previous image if
   and only if the last container to hold that reference ran the same one.
   */
  lemma RolledBackRunsPreviousIff(message: Message, e: Ending, p: Plan, t: Target, req: Request, was: World, w: World, i: int, j: int)
    requires Reverted(RolledBack, message, e, p, t, req, was, w)
    requires 0 <= i < |p.before| && p.before[i].imageID != "" && p.before[i].service !in message.missing
    requires Taggable(p.before[i].image) || HasReference(e.rollback.desired, p.before[i].service)
    requires Names(w.compose(e.rollback.up.tag), e.rollback.desired, p.before[i])
    requires 0 <= j < |w.containers| && w.containers[j].service == p.before[i].service && InScope(t.services, w.containers[j].service)
    ensures |e.rollback.marks| == |p.before|
    ensures w.containers[j].imageID == p.before[i].imageID <==>
              LastHoldersAgree(p.before, e.rollback.desired, e.rollback.marks, i)
  {
    NotMissingIsHeld(message, e, p, t, req, was, w, i);
    RunsPreviousIff(t, w.compose, p.before, e.rollback, message.missing, message.retagFailed, Since(was.bad, w.bad),
                    w.tags, w.containers, i, j);
  }

  /** So if containers sharing a reference agreed on an image, each runs its previous one, whether or not the file resolved. */
  lemma RolledBackRunsPreviousImages(message: Message, e: Ending, p: Plan, t: Target, req: Request, was: World, w: World, i: int, j: int)
    requires Reverted(RolledBack, message, e, p, t, req, was, w)
    requires SharersAgree(p.before, e.rollback.desired, e.rollback.marks)
    requires 0 <= i < |p.before| && p.before[i].imageID != "" && p.before[i].service !in message.missing
    requires Taggable(p.before[i].image) || HasReference(e.rollback.desired, p.before[i].service)
    requires Names(w.compose(e.rollback.up.tag), e.rollback.desired, p.before[i])
    requires 0 <= j < |w.containers| && w.containers[j].service == p.before[i].service && InScope(t.services, w.containers[j].service)
    ensures w.containers[j].imageID == p.before[i].imageID
  {
    RolledBackRunsPreviousIff(message, e, p, t, req, was, w, i, j);
    NotMissingIsHeld(message, e, p, t, req, was, w, i);
  }

  // The stack of a rollback that restores the wrong image: its service has been moved
  // to another tag, and the compose file does not resolve while it is rolled back.

  const OLD_WEB := Container("web", "web-1", "running", "", "acme/web:1", "old")
  const NEW_WEB := Container("web", "web-1", "running", "", "acme/web:2", "new")
  const WEB_TAGS: Tags := map["acme/web:1" := "old", "acme/web:2" := "new"]
  const WEB := Target([], false, true, NoHook, 1, 0)

  function MovedWeb(tag: string): map<string, string> { map["web" := "acme/web:2"] }

  const BEFORE_WEB := World(MovedWeb, WEB_TAGS, [OLD_WEB], [], [], [], [], 0, NO_FAULTS)
  const FIRST_UP := UpRun("", [], false, WEB_TAGS, 0, false)
  const SECOND_UP := UpRun("", [], true, WEB_TAGS, 0, true)
  const AFTER_WEB := World(MovedWeb, WEB_TAGS, [NEW_WEB], [FIRST_UP, SECOND_UP], [Look("", 0, Some([NEW_WEB]))], [], [], 0, NO_FAULTS.(resolve := 1))
  const STEADY := HealthRun("", [Look("", 0, Some([NEW_WEB]))], Health.Timing(0, Some(0), 0, 0, 0), None)
  const UNRESOLVED := Tried(map["web" := "acme/web:1"], false, WEB_TAGS, {"old", "new"}, [Held], [], SECOND_UP, Some(STEADY))

  const PLAN_WEB := Plan([OLD_WEB], map["web" := "acme/web:2"], ["web"])
  const END_WEB := Ending(Some(PLAN_WEB), false, WEB_TAGS, None, UNRESOLVED)

  /**
   Without the condition on the reference the promise fails: the old reference is in
   place, the recreation runs the new image, and the rollback ends in `rolled_back`
   with nothing named missing.
   */
  lemma UnresolvedRollbackKeepsNewImage()
    ensures Reverted(RolledBack, RollbackReport(UpFailed, [], []), END_WEB, PLAN_WEB, WEB, Request("", false, false), BEFORE_WEB, AFTER_WEB)
    ensures SharersAgree([OLD_WEB], UNRESOLVED.desired, UNRESOLVED.marks) && Restorable(UNRESOLVED.desired, OLD_WEB)
    ensures !Names(MovedWeb(""), UNRESOLVED.desired, OLD_WEB) && NEW_WEB.imageID != OLD_WEB.imageID
  {
    OldWebIsRetagged();
    UnresolvedConcludes();
    RunsNewWeb();
    RevertedFromScratch(RolledBack, [], [], END_WEB, PLAN_WEB, WEB, Request("", false, false), BEFORE_WEB, AFTER_WEB, FIRST_UP);
  }

  /** A first `up` that failed on a fresh daemon, and a rollback that accounts for the rest. */
  lemma RevertedFromScratch(word: State, missing: seq<string>, retagFailed: seq<string>, e: Ending, p: Plan, t: Target,
                            req: Request, was: World, w: World, first: UpRun)
    requires t.rollback && e.health.None? && e.rollback.Tried? && was.ups == [] && was.bad == NO_FAULTS && w.ups == [first, e.rollback.up]
    requires first.tag == EnvTag(t, req.tag) && first.services == t.services && !first.force && !first.ok
    requires Accounts(e.rollback, w.compose, t, p.before, missing, retagFailed, w.bad) && Agrees(e.rollback.up.tags, w.tags)
    requires e.rollback.up.ok ==> RunsTagged(w.compose(e.rollback.up.tag), t.services, w.tags, w.containers)
    requires Concluded(word, e.rollback, retagFailed, HealthTargets(t, p.before), t) && Agrees(e.planned, e.rollback.was)
    ensures Reverted(word, RollbackReport(UpFailed, missing, retagFailed), e, p, t, req, was, w)
  {
    assert w.ups[..0] == was.ups;
    assert Since(was.bad, w.bad) == w.bad;
  }

  lemma RunsNewWeb()
    ensures RunsTagged(AFTER_WEB.compose(""), [], WEB_TAGS, [NEW_WEB])
    ensures AFTER_WEB.compose == MovedWeb
  {
  }

  lemma UnresolvedConcludes()
    ensures Concluded(RolledBack, UNRESOLVED, [], HealthTargets(WEB, [OLD_WEB]), WEB)
  {
    SteadyIsStable();
    HealthTargetsOfWeb();
  }

  lemma OldWebIsRetagged()
    ensures Accounts(UNRESOLVED, MovedWeb, WEB, [OLD_WEB], [], [], NO_FAULTS.(resolve := 1))
    ensures RefOf(UNRESOLVED.desired, OLD_WEB) == "acme/web:1"
  {
    var before := [OLD_WEB];
    TagNotesStep(before, [], [], Held, []);
    assert [] + [Held] == [Held];
    assert ImageRef.TaggedRef("acme/web:1") == "acme/web:1" by { assert "acme/web:1"[0] != ImageRef.DIGEST_PREFIX[0]; }
    assert before[..0] == [] && FromContainers(before) == map["web" := "acme/web:1"];
    NamedOfOne(OLD_WEB, Held, Gone);
    NamedOfOne(OLD_WEB, Held, NotTagged);
  }

  lemma NamedOfOne(c: Container, mark: Mark, m: Mark)
    ensures Named([c], [mark], m) == if mark == m then [c.service] else []
  {
    assert [mark][..0] == [];
  }

  lemma LowerRunning()
    ensures Lower("running") == "running" && Lower("") == ""
  {
    var s := "running";
    assert s[1..] == "unning" && s[1..][1..] == "nning" && s[2..][1..] == "ning" && s[3..][1..] == "ing";
    assert Lower("ng") == "ng";
    assert Lower("ing") == "ing";
    assert Lower("ning") == "ning";
    assert Lower("nning") == "nning";
    assert Lower("unning") == "unning";
  }

  lemma HealthTargetsOfWeb()
    ensures HealthTargets(WEB, [OLD_WEB]) == ["web"]
  {
    LowerRunning();
    assert IsRunning(OLD_WEB);
    RunningOfOne(OLD_WEB);
  }

  lemma RunningOfOne(c: Container)
    ensures RunningServices([c]) == if IsRunning(c) then [c.service] else []
  {
    assert [c][..0] == [];
  }

  lemma SteadyIsStable()
    ensures Waited(STEADY, ["web"], WEB)
  {
    LowerRunning();
    assert LastOf([NEW_WEB], "web") == Some(NEW_WEB);
    assert ServiceSettled([NEW_WEB], "web");
    assert Health.PollSettled(STEADY.polls[0], ["web"]);
    assert Health.SettledFrom(STEADY.polls, ["web"], 0, 0);
  }

  // ------------------------------------------------------------------- check

  datatype Answer = Answer(available: bool, changed: seq<string>)

  /** Check: what an update would change, with the steps discarded. */
  method Check(d: Daemon, t: Target) returns (r: Option<Answer>, ghost p: Plan)
    modifies d
    ensures d.ups == old(d.ups) && Identities(d.containers) == old(Identities(d.containers))
    ensures r.None? <==> d.badValidate > old(d.badValidate) || d.badList > old(d.badList) || d.badPull > old(d.badPull)
    ensures r.Some? ==> r.value == Answer(p.changed != [], p.changed)
    ensures r.Some? ==> Fits(p, t, Request("", false, false), old(Now(d)), d.tags, Since(old(d.Counted()), d.Counted()))
    ensures r.Some? && d.badLookup == old(d.badLookup) ==> (r.value.available <==> !AllCurrent(t, p.desired, d.tags, p.before))
  {
    var ok, before, desired := Peek(d, t);
    p := Plan(before, desired, []);
    if !ok { return None, p; }
    var changed := ChangedServices(d, t, desired, before);
    NoneFailsIffAll(CurrentFor(t, desired, d.tags), before);
    p := Plan(before, desired, changed);
    r := Some(Answer(changed != [], changed));
  }

  /** Everything Check does before it compares images. */
  method Peek(d: Daemon, t: Target) returns (ok: bool, before: seq<Container>, desired: map<string, string>)
    modifies d`now, d`images, d`tags, d`containers, d`looks, d`validated, d`badValidate, d`badList, d`badResolve, d`pulls, d`badPull
    ensures Identities(d.containers) == old(Identities(d.containers)) && d.badResolve >= old(d.badResolve)
    ensures d.badValidate >= old(d.badValidate) && d.badList >= old(d.badList) && d.badPull >= old(d.badPull)
    ensures ok <==> d.badValidate == old(d.badValidate) && d.badList == old(d.badList) && d.badPull == old(d.badPull)
    ensures ok ==> Identities(before) == Identities(d.containers)
    ensures ok ==> desired in {d.compose(EnvTag(t, "")), FromContainers(before)}
    ensures ok && d.badResolve == old(d.badResolve) ==> desired == d.compose(EnvTag(t, ""))
  {
    ok, before, desired := false, [], map[];
    var discard := new Recorder();
    var tag := EnvTag(t, "");
    var res := d.Validate(tag);
    if res.err.Some? { return; }
    before, res := d.Containers(tag);
    if res.err.Some? { return; }
    ghost var resolved;
    desired, resolved := ResolveImages(d, discard, tag, before);
    res := d.Pull(tag, t.services);
    ok := res.err.None?;
  }

  // ----------------------------------------------- the pipeline seen by a job

  /**
   Any cut of the calls an update made, fed to a job that is then finished, shows one
   step for each completed step and at most one that did not complete. `calls` is
   what a recorder that started empty holds after Update.
   */
  lemma UpdateFeedsTheJob(calls: seq<Call>, timed: seq<Timed>, state: State, message: Bytes, now: int)
    requires ModeFrom(Closed, calls) == Closed && Calls(timed) <= calls && Terminal(state)
    ensures AllOver(Finished(ApplyAll(FRESH, timed), state, message, now).steps, Calls(timed))
    ensures |ShownBy(calls).steps| == |Reported(calls)|
    ensures Calls(timed) == calls ==>
              var v := Finished(ApplyAll(FRESH, timed), state, message, now);
              && |v.steps| == |Reported(calls)|
              && v.before == ShownBy(calls).before && v.after == ShownBy(calls).after && v.changed == ShownBy(calls).changed
              && forall i :: 0 <= i < |v.steps| ==> Done(v.steps[i].name, v.steps[i].ok) == ShownBy(calls).steps[i]
  {
    CutTraceSettles(calls, timed, state, message, now);
    ShownAreReported(calls);
    JobShowsTrace(timed);
  }
}
