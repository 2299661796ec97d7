/**
 The Docker daemon and one compose project as the pipeline sees them
 (internal/compose/compose.go): local images, a tag table from reference to
 image ID, containers and a clock. Every operation may fail. Nobody else changes
 tags or recreates containers; container states and health change on their own.
 */
module Docker {
  import opened Wrappers
  import opened Jobs

  datatype Container = Container(service: string, name: string, state: string, health: string,
                                 image: string, imageID: string)

  function LowerChar(c: char): char {
    if 'A' <= c <= 'Z' then (c as int - 'A' as int + 'a' as int) as char else c
  }

  function Lower(s: string): string {
    if s == [] then [] else [LowerChar(s[0])] + Lower(s[1..])
  }

  predicate IsRunning(c: Container) { Lower(c.state) == "running" }

  predicate IsHealthy(c: Container) { Lower(c.health) in {"", "healthy"} }

  predicate IsTerminal(c: Container) { Lower(c.state) in {"exited", "dead", "removing"} }

  /** Letters lose their case, and nothing else changes. */
  lemma LowerAt(s: string, k: nat)
    requires k < |s|
    ensures |Lower(s)| == |s|
    ensures Lower(s)[k] == if 'A' <= s[k] <= 'Z' then (s[k] as int + 32) as char else s[k]
  {
    if k > 0 { LowerAt(s[1..], k - 1); } else if |s| > 1 { LowerAt(s[1..], 0); }
  }

  /** What recreating changes and what time alone does not. */
  function Identity(c: Container): Container { c.(state := "", health := "") }

  function Identities(cs: seq<Container>): seq<Container> {
    seq(|cs|, i requires 0 <= i < |cs| => Identity(cs[i]))
  }

  /** The service images of a compose file, resolved with a value for its tag variable ("" for unset). */
  type Compose = string -> map<string, string>

  type Tags = map<string, string>

  /** The outcome of one docker command. */
  datatype Res = Res(err: Option<string>, output: Bytes)

  /** One `compose up`: its arguments, the tag table it started from, the listings made before it, and whether it succeeded. */
  datatype UpRun = UpRun(tag: string, services: seq<string>, force: bool, tags: Tags, listed: nat, ok: bool)

  predicate InScope(services: seq<string>, service: string) {
    services == [] || service in services
  }

  /**
   The contract of a successful `compose up`: a container of a requested service
   runs the image that the service's resolved reference is tagged to.
   */
  ghost predicate RunsTagged(images: map<string, string>, services: seq<string>, tags: Tags, cs: seq<Container>) {
    forall i :: 0 <= i < |cs| && InScope(services, cs[i].service) && cs[i].service in images ==>
      && cs[i].image == images[cs[i].service]
      && cs[i].image in tags && cs[i].imageID == tags[cs[i].image]
  }

  ghost predicate Agrees(before: Tags, after: Tags) {
    forall ref :: ref in before ==> ref in after && after[ref] == before[ref]
  }

  /** One listing of the containers: its tag, when its answer was there, and the answer if it did not fail. */
  datatype Look = Look(tag: string, at: int, seen: Option<seq<Container>>)

  /** One pull: its tag and the services asked for. */
  datatype PullRun = PullRun(tag: string, services: seq<string>)

  /** Failed commands, by kind. */
  datatype Faults = Faults(validate: int, list: int, resolve: int, pull: int, hook: int, lookup: int, present: int, tag: int)

  const NO_FAULTS := Faults(0, 0, 0, 0, 0, 0, 0, 0)

  class Daemon {
    const compose: Compose
    var images: set<string>
    var tags: Tags
    var containers: seq<Container>
    /** Nanoseconds; never runs backwards. */
    var now: int
    ghost var ups: seq<UpRun>
    ghost var looks: seq<Look>
    ghost var pulls: seq<PullRun>
    /** The tags the compose file was validated with. */
    ghost var validated: seq<string>
    // How often each kind of command failed; looking an image up, asking whether
    // it is there and tagging it count only where they should have worked.
    ghost var badValidate: nat
    ghost var badList: nat
    ghost var badResolve: nat
    ghost var badPull: nat
    ghost var badHook: nat
    ghost var badLookup: nat
    ghost var badExists: nat
    ghost var badTag: nat

    /** The failures so far. */
    ghost function Counted(): Faults
      reads this
    {
      Faults(badValidate, badList, badResolve, badPull, badHook, badLookup, badExists, badTag)
    }

    constructor (compose: Compose, images: set<string>, tags: Tags, containers: seq<Container>, now: int)
      ensures this.compose == compose && this.images == images && this.tags == tags
      ensures this.containers == containers && this.now == now && ups == [] && looks == [] && pulls == [] && validated == []
      ensures Counted() == NO_FAULTS
    {
      this.compose, this.images, this.tags, this.containers, this.now := compose, images, tags, containers, now;
      ups, looks, pulls, validated := [], [], [], [];
      badValidate, badList, badResolve, badPull, badHook, badLookup, badExists, badTag := 0, 0, 0, 0, 0, 0, 0, 0;
    }

    /** time.Now. */
    method Clock() returns (t: int)
      modifies this`now
      ensures old(now) <= t == now
    {
      var passed: int :| passed >= 0;
      now := now + passed;
      t := now;
    }

    /** Block until a tick that is not due before `due`. */
    method AwaitTick(due: int)
      modifies this`now
      ensures now >= old(now) && now >= due
    {
      var t := Clock();
      if now < due { now := due; }
    }

    method Run() returns (r: Res)
      modifies this`now
      ensures now >= old(now)
    {
      var _ := Clock();
      var failed: bool := *;
      var output: Bytes := *;
      r := Res(if failed then Some("command failed") else None, output);
    }

    method Validate(tag: string) returns (r: Res)
      modifies this`now, this`validated, this`badValidate
      ensures now >= old(now) && validated == old(validated) + [tag]
      ensures badValidate == old(badValidate) + if r.err.Some? then 1 else 0
    {
      r := Run();
      validated := validated + [tag];
      if r.err.Some? { badValidate := badValidate + 1; }
    }

    /** The command configured to run before an update. */
    method Hook() returns (r: Res)
      modifies this`now, this`badHook
      ensures now >= old(now)
      ensures badHook == old(badHook) + if r.err.Some? then 1 else 0
    {
      r := Run();
      if r.err.Some? { badHook := badHook + 1; }
    }

    method DesiredImages(tag: string) returns (desired: map<string, string>, r: Res)
      modifies this`now, this`badResolve
      ensures now >= old(now)
      ensures r.err.None? ==> desired == compose(tag)
      ensures badResolve == old(badResolve) + if r.err.Some? then 1 else 0
    {
      r := Run();
      if r.err.Some? { badResolve := badResolve + 1; }
      desired := if r.err.None? then compose(tag) else map[];
    }

    /** List the containers with their current state; on failure the list means nothing. */
    method Containers(tag: string) returns (list: seq<Container>, r: Res)
      modifies this`now, this`containers, this`looks, this`badList
      ensures now >= old(now)
      ensures looks == old(looks) + [Look(tag, now, if r.err.None? then Some(list) else None)]
      ensures Identities(containers) == old(Identities(containers))
      ensures r.err.None? ==> list == containers
      ensures badList == old(badList) + if r.err.Some? then 1 else 0
    {
      r := Run();
      if r.err.Some? { badList := badList + 1; }
      var states: seq<Container> := *;
      if Identities(states) == Identities(containers) {
        containers := states;
      }
      list := containers;
      if r.err.Some? { list := *; }
      looks := looks + [Look(tag, now, if r.err.None? then Some(list) else None)];
    }

    method Pull(tag: string, services: seq<string>) returns (r: Res)
      modifies this`now, this`images, this`tags, this`pulls, this`badPull
      ensures now >= old(now)
      ensures pulls == old(pulls) + [PullRun(tag, services)]
      ensures badPull == old(badPull) + if r.err.Some? then 1 else 0
    {
      r := Run();
      if r.err.Some? { badPull := badPull + 1; }
      pulls := pulls + [PullRun(tag, services)];
      images := *;
      tags := *;
    }

    method ImageExists(id: string) returns (found: bool)
      modifies this`now, this`badExists
      ensures now >= old(now)
      ensures found ==> id in images
      ensures badExists == old(badExists) + if !found && id in images then 1 else 0
    {
      var r := Run();
      found := r.err.None? && id in images;
      if !found && id in images { badExists := badExists + 1; }
    }

    method ImageID(ref: string) returns (id: Option<string>)
      modifies this`now, this`badLookup
      ensures now >= old(now)
      ensures id.Some? ==> ref in tags && id.value == tags[ref]
      ensures badLookup == old(badLookup) + if id.None? && ref in tags then 1 else 0
    {
      var r := Run();
      if r.err.None? && ref in tags { return Some(tags[ref]); }
      if ref in tags { badLookup := badLookup + 1; }
      id := None;
    }

    method Tag(id: string, ref: string) returns (r: Res)
      modifies this`now, this`tags, this`badTag
      ensures now >= old(now)
      ensures r.err.None? ==> id in images && tags == old(tags)[ref := id]
      ensures r.err.Some? ==> tags == old(tags)
      ensures badTag == old(badTag) + if r.err.Some? && id in images then 1 else 0
    {
      r := Run();
      if r.err.Some? && id in images { badTag := badTag + 1; }
      if r.err.None? && id !in images { r := r.(err := Some("no such image")); }
      if r.err.None? { tags := tags[ref := id]; }
    }

    /** `compose up`: may pull what is not tagged yet and may leave anything behind when it fails. */
    method Up(tag: string, services: seq<string>, force: bool) returns (r: Res)
      modifies this`now, this`images, this`tags, this`containers, this`ups
      ensures now >= old(now)
      ensures ups == old(ups) + [UpRun(tag, services, force, old(tags), |looks|, r.err.None?)]
      ensures Agrees(old(tags), tags)
      ensures r.err.None? ==> RunsTagged(compose(tag), services, tags, containers)
    {
      r := Run();
      ghost var before := tags;
      var pulled: Tags := *;
      images := *;
      tags := pulled + tags;
      var after: seq<Container> := *;
      containers := if r.err.None? then Recreated(compose(tag), services, tags, after) else after;
      ups := ups + [UpRun(tag, services, force, before, |looks|, r.err.None?)];
    }
  }

  /** The daemon at one moment. */
  datatype World = World(compose: Compose, tags: Tags, containers: seq<Container>, ups: seq<UpRun>,
                         looks: seq<Look>, pulls: seq<PullRun>, validated: seq<string>, now: int, bad: Faults)

  ghost function Now(d: Daemon): World
    reads d
  {
    World(d.compose, d.tags, d.containers, d.ups, d.looks, d.pulls, d.validated, d.now, d.Counted())
  }

  ghost predicate AtLeast(was: Faults, count: Faults) {
    && count.validate >= was.validate && count.list >= was.list && count.resolve >= was.resolve && count.pull >= was.pull
    && count.hook >= was.hook && count.lookup >= was.lookup && count.present >= was.present && count.tag >= was.tag
  }

  /** The same daemon some time later. */
  ghost predicate Later(was: World, w: World) {
    was.compose == w.compose && was.looks <= w.looks && was.now <= w.now && AtLeast(was.bad, w.bad)
  }

  /** Drop what a successful `up` cannot leave behind. */
  function Recreated(images: map<string, string>, services: seq<string>, tags: Tags, cs: seq<Container>): (r: seq<Container>)
    ensures RunsTagged(images, services, tags, r)
  {
    if cs == [] then []
    else
      var rest := Recreated(images, services, tags, cs[1..]);
      var c := cs[0];
      if InScope(services, c.service) && c.service in images
      then (if images[c.service] in tags then [c.(image := images[c.service], imageID := tags[images[c.service]])] + rest else rest)
      else [c] + rest
  }

  // ---------------------------------------------------------------- readings

  /** The container a service is judged by: the last one listed. */
  function LastOf(cs: seq<Container>, service: string): Option<Container> {
    if cs == [] then None
    else if cs[|cs| - 1].service == service then Some(cs[|cs| - 1])
    else LastOf(cs[..|cs| - 1], service)
  }

  predicate ServiceSettled(cs: seq<Container>, service: string) {
    var c := LastOf(cs, service);
    c.Some? && IsRunning(c.value) && IsHealthy(c.value)
  }

  /** Every watched service runs and is healthy; with nothing to watch, one container does. */
  predicate Settled(cs: seq<Container>, services: seq<string>) {
    if services == [] then exists i :: 0 <= i < |cs| && IsRunning(cs[i]) && IsHealthy(cs[i])
    else forall i :: 0 <= i < |services| ==> ServiceSettled(cs, services[i])
  }

  predicate ServiceCrashed(cs: seq<Container>, service: string) {
    var c := LastOf(cs, service);
    c.None? || IsTerminal(c.value)
  }

  /** The first watched service that is gone or has stopped for good. */
  function Crashed(cs: seq<Container>, services: seq<string>): (r: Option<string>)
    ensures r.Some? ==> exists i :: 0 <= i < |services| && services[i] == r.value && FirstCrash(cs, services, i)
    ensures r.None? ==> forall i :: 0 <= i < |services| ==> !ServiceCrashed(cs, services[i])
  {
    if services == [] then None
    else if ServiceCrashed(cs, services[0]) then assert FirstCrash(cs, services, 0); Some(services[0])
    else
      var rest := Crashed(cs, services[1..]);
      assert rest.Some? ==> exists i :: 0 <= i < |services| && services[i] == rest.value && FirstCrash(cs, services, i) by {
        if rest.Some? {
          var i :| 0 <= i < |services[1..]| && services[1..][i] == rest.value && FirstCrash(cs, services[1..], i);
          assert forall k :: 0 < k <= i ==> services[k] == services[1..][k - 1];
          assert FirstCrash(cs, services, i + 1);
        }
      }
      rest
  }

  ghost predicate FirstCrash(cs: seq<Container>, services: seq<string>, i: int)
    requires 0 <= i < |services|
  {
    ServiceCrashed(cs, services[i]) && forall k :: 0 <= k < i ==> !ServiceCrashed(cs, services[k])
  }

  /** The container a service is judged by is listed, is of that service, and is followed by no other of it. */
  lemma {:induction false} LastOfIff(cs: seq<Container>, service: string, c: Container)
    ensures LastOf(cs, service) == Some(c) <==>
              exists i :: 0 <= i < |cs| && cs[i] == c && c.service == service && forall k :: i < k < |cs| ==> cs[k].service != service
    ensures LastOf(cs, service) == None <==> forall k :: 0 <= k < |cs| ==> cs[k].service != service
  {
    if cs != [] && cs[|cs| - 1].service != service {
      var rest := cs[..|cs| - 1];
      LastOfIff(rest, service, c);
      assert forall k :: 0 <= k < |rest| ==> cs[k] == rest[k];
      if LastOf(cs, service) == Some(c) {
        var i :| 0 <= i < |rest| && rest[i] == c && c.service == service && forall k :: i < k < |rest| ==> rest[k].service != service;
        assert cs[i] == c;
      }
    } else if cs != [] {
      var n := |cs| - 1;
      assert forall i :: 0 <= i < n && cs[i] == c && c.service == service ==> cs[n].service == service && i < n < |cs|;
    }
  }

  /** A service is settled exactly when the last container listed for it runs, with no health check or a healthy one. */
  lemma ServiceSettledIff(cs: seq<Container>, service: string)
    ensures ServiceSettled(cs, service) <==>
              exists i :: 0 <= i < |cs| && cs[i].service == service && Lower(cs[i].state) == "running"
                && (Lower(cs[i].health) == "" || Lower(cs[i].health) == "healthy")
                && forall k :: i < k < |cs| ==> cs[k].service != service
  {
    var last := LastOf(cs, service);
    if last.Some? { LastOfIff(cs, service, last.value); } else { LastOfIff(cs, service, Container("", "", "", "", "", "")); }
    forall i | 0 <= i < |cs| && cs[i].service == service && forall k :: i < k < |cs| ==> cs[k].service != service
      ensures last == Some(cs[i])
    {
      LastOfIff(cs, service, cs[i]);
    }
  }

  /** A stack is settled when every watched service is or, with none to watch, when some container is. */
  lemma SettledIff(cs: seq<Container>, services: seq<string>)
    ensures services == [] ==>
              (Settled(cs, services) <==>
                exists i :: 0 <= i < |cs| && Lower(cs[i].state) == "running"
                  && (Lower(cs[i].health) == "" || Lower(cs[i].health) == "healthy"))
    ensures services != [] ==> (Settled(cs, services) <==> forall s :: s in services ==> ServiceSettled(cs, s))
  {
  }

  /** A service has crashed exactly when it has no container or its last one has stopped for good. */
  lemma ServiceCrashedIff(cs: seq<Container>, service: string)
    ensures ServiceCrashed(cs, service) <==>
              || (forall k :: 0 <= k < |cs| ==> cs[k].service != service)
              || exists i :: 0 <= i < |cs| && cs[i].service == service
                   && (Lower(cs[i].state) == "exited" || Lower(cs[i].state) == "dead" || Lower(cs[i].state) == "removing")
                   && forall k :: i < k < |cs| ==> cs[k].service != service
  {
    var last := LastOf(cs, service);
    if last.Some? { LastOfIff(cs, service, last.value); } else { LastOfIff(cs, service, Container("", "", "", "", "", "")); }
    forall i | 0 <= i < |cs| && cs[i].service == service && forall k :: i < k < |cs| ==> cs[k].service != service
      ensures last == Some(cs[i])
    {
      LastOfIff(cs, service, cs[i]);
    }
  }

  /** A named service is in scope; with none named, all are. */
  lemma InScopeIff(services: seq<string>, service: string)
    ensures InScope(services, service) <==> |services| == 0 || exists i :: 0 <= i < |services| && services[i] == service
  {
  }

  function States(cs: seq<Container>): seq<ServiceState> {
    seq(|cs|, i requires 0 <= i < |cs| =>
      ServiceState(cs[i].service, cs[i].name, cs[i].image, cs[i].imageID, cs[i].state, cs[i].health))
  }

  /** The list a job shows has one entry a container, each with the container's own fields. */
  lemma StatesShow(cs: seq<Container>, i: nat)
    requires i < |cs|
    ensures
      var s := States(cs)[i];
      && |States(cs)| == |cs| && s.service == cs[i].service && s.container == cs[i].name && s.image == cs[i].image
      && s.imageID == cs[i].imageID && s.state == cs[i].state && s.health == cs[i].health
  {
  }

  /** A list of services without what time alone changes. */
  function Unstated(states: seq<ServiceState>): seq<ServiceState> {
    seq(|states|, i requires 0 <= i < |states| => states[i].(state := "", health := ""))
  }

  /** The list shows these containers, whatever state they were in. */
  ghost predicate Shows(states: seq<ServiceState>, cs: seq<Container>) {
    Unstated(states) == Unstated(States(cs))
  }

  lemma ShowsIdentities(states: seq<ServiceState>, a: seq<Container>, b: seq<Container>)
    requires Shows(states, a) && Identities(a) == Identities(b)
    ensures Shows(states, b)
  {
    assert |Identities(a)| == |a| && |Identities(b)| == |b|;
    forall i | 0 <= i < |a| ensures Unstated(States(a))[i] == Unstated(States(b))[i] {
      assert Identities(a)[i] == Identity(a[i]) && Identities(b)[i] == Identity(b[i]);
    }
  }

  function Watched(cs: seq<Container>, services: seq<string>): seq<Container> {
    if services == [] then cs
    else if cs == [] then []
    else (if cs[0].service in services then [cs[0]] else []) + Watched(cs[1..], services)
  }

  /** What a poll shows of two lists is what it shows of the one and then of the other. */
  lemma {:induction false} WatchedConcat(a: seq<Container>, b: seq<Container>, services: seq<string>)
    ensures Watched(a + b, services) == Watched(a, services) + Watched(b, services)
  {
    var both := a + b;
    if a == [] {
      assert both == b;
    } else if services != [] {
      var first := if a[0].service in services then [a[0]] else [];
      var rest, more := Watched(a[1..], services), Watched(b, services);
      assert both[1..] == a[1..] + b && both[0] == a[0];
      WatchedConcat(a[1..], b, services);
      WatchedFirst(both, services, first);
      WatchedFirst(a, services, first);
      Associative(first, rest, more);
    }
  }

  lemma Associative<T>(a: seq<T>, b: seq<T>, c: seq<T>)
    ensures a + (b + c) == a + b + c
  {
  }

  lemma WatchedFirst(cs: seq<Container>, services: seq<string>, first: seq<Container>)
    requires cs != [] && services != [] && first == if cs[0].service in services then [cs[0]] else []
    ensures Watched(cs, services) == first + Watched(cs[1..], services)
  {
  }

  /** Of a single container it shows it if its service is watched or none is named. */
  lemma WatchedOne(c: Container, services: seq<string>)
    ensures Watched([c], services) == if services == [] || c.service in services then [c] else []
  {
    assert [c][1..] == [];
  }
}
