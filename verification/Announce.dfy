/**
 What the scheduler announces over a whole run of the step system in Soak, and
 the link between those steps and the uninterrupted tick of Schedules.
 */
module Announcements {
  import opened Wrappers
  import opened Schedules
  import opened Soak

  /** A busy agent's refusal says nothing about the check. */
  predicate SaysNothing(a: Answer) {
    a.Errored? && (a.status == Some(409) || a.status == Some(503))
  }

  /** The answers that say something about the check. */
  function Verdicts(h: seq<Event>): seq<Answer> {
    if h == [] then []
    else
      var last := h[|h| - 1];
      Verdicts(h[..|h| - 1]) + if last.Heard? && !SaysNothing(last.answer) then [last.answer] else []
  }

  predicate Failing(v: seq<Answer>) {
    v != [] && v[|v| - 1].Errored?
  }

  /** The points at which checks turn from passing to failing and back. */
  function Transitions(v: seq<Answer>): seq<Notice> {
    if v == [] then []
    else
      var before, last := v[..|v| - 1], v[|v| - 1];
      Transitions(before) +
      if last.Errored? == Failing(before) then []
      else if last.Errored? then [CheckFailed(last.cause)] else [CheckRecovered]
  }

  function Checks(n: seq<Notice>): seq<Notice> {
    if n == [] then []
    else
      var last := n[|n| - 1];
      Checks(n[..|n| - 1]) + if last.CheckFailed? || last.CheckRecovered? then [last] else []
  }

  function Offers(n: seq<Notice>): seq<Notice> {
    if n == [] then []
    else
      var last := n[|n| - 1];
      Offers(n[..|n| - 1]) + if last.Available? || last.Withdrawn? then [last] else []
  }

  function Count(n: seq<Notice>, withdrawn: bool): nat {
    if n == [] then 0
    else
      var last := n[|n| - 1];
      Count(n[..|n| - 1], withdrawn) + if (if withdrawn then last.Withdrawn? else last.Available?) then 1 else 0
  }

  /** Every withdrawal comes right after the offer it withdraws. */
  ghost predicate Paired(offers: seq<Notice>) {
    forall i :: 0 <= i < |offers| && offers[i].Withdrawn? ==> i > 0 && offers[i - 1].Available?
  }

  ghost predicate Offering(offers: seq<Notice>) {
    offers != [] && offers[|offers| - 1].Available?
  }

  ghost predicate SpokenFor(t: Track, v: seq<Answer>, loud: bool) {
    if loud then
      && Checks(t.announced) == Transitions(v) && t.broken == Failing(v)
      && Paired(Offers(t.announced)) && (t.pending.Some? ==> Offering(Offers(t.announced)))
    else t.announced == [] && !t.broken
  }

  lemma NoticeSnoc(n: seq<Notice>, x: Notice)
    ensures Checks(n + [x]) == Checks(n) + if x.CheckFailed? || x.CheckRecovered? then [x] else []
    ensures Offers(n + [x]) == Offers(n) + if x.Available? || x.Withdrawn? then [x] else []
  {
    assert (n + [x])[..|n|] == n;
  }

  lemma VerdictSnoc(h: seq<Event>, e: Event)
    ensures Verdicts(h + [e]) == if e.Heard? && !SaysNothing(e.answer) then Verdicts(h) + [e.answer] else Verdicts(h)
  {
    assert (h + [e])[..|h|] == h;
  }

  lemma FlagIsSpoken(t: Track, v: seq<Answer>, loud: bool, a: Answer)
    requires SpokenFor(t, v, loud)
    ensures SpokenFor(Flagged(t, loud, a.Errored?, if a.Errored? then CheckFailed(a.cause) else CheckRecovered), v + [a], loud)
  {
    var notice := if a.Errored? then CheckFailed(a.cause) else CheckRecovered;
    assert (v + [a])[..|v|] == v;
    NoticeSnoc(t.announced, notice);
  }

  lemma MarkIsSpoken(t: Track, v: seq<Answer>, loud: bool, soak: nat, changed: seq<string>, now: int)
    requires SpokenFor(t, v, loud)
    ensures SpokenFor(Marked(t, loud, soak, changed, now), v, loud)
  {
    if t.pending.None? { NoticeSnoc(t.announced, Available(changed, now + soak)); }
  }

  lemma RetractIsSpoken(t: Track, v: seq<Answer>, loud: bool, reason: string)
    requires SpokenFor(t, v, loud)
    ensures SpokenFor(Retracted(t, loud, reason), v, loud)
  {
    NoticeSnoc(t.announced, Withdrawn(reason));
  }

  /** A step adds a verdict only by hearing an answer that is not a refusal. */
  lemma StepVerdicts(s: Setup, w: World, a: Action)
    ensures Verdicts(Step(s, w, a).history) ==
              if a.Answer? && w.pc.Asking? && !SaysNothing(a.answer) then Verdicts(w.history) + [a.answer] else Verdicts(w.history)
  {
    var h := w.history;
    match a
    case Answer(answer) => VerdictSnoc(h, Heard(answer));
    case Settle =>
      if w.pc.Answered? && w.pc.available {
        var e := if w.track.pending.Some? then Confirmed(w.owed) else Sighted(w.now, w.pc.changed, w.owed);
        assert Record(s, w, w.pc.changed).history == h + [e];
        VerdictSnoc(h, e);
      } else if w.pc.Answered? {
        VerdictSnoc(h, Denied(w.pc.message));
      }
    case Start(_) =>
      if w.pc.Starting? { VerdictSnoc(h, AutoStarted(w.now, w.pc.p.since, w.owed, w.pc.sighting, w.pc.mark)); }
    case BeginOther => VerdictSnoc(h, OtherBegan);
    case Complete => VerdictSnoc(h, Completed);
    case Notify => VerdictSnoc(h, Notified);
    case Clear => VerdictSnoc(h, Cleared);
    case _ =>
  }

  lemma StepIsSpoken(s: Setup, w: World, a: Action)
    requires SpokenFor(w.track, Verdicts(w.history), s.loud)
    ensures SpokenFor(Step(s, w, a).track, Verdicts(Step(s, w, a).history), s.loud)
  {
    var v := Verdicts(w.history);
    StepVerdicts(s, w, a);
    if a.Answer? && w.pc.Asking? && !SaysNothing(a.answer) {
      FlagIsSpoken(w.track, v, s.loud, a.answer);
    } else if a.Settle? && w.pc.Answered? && w.pc.available {
      MarkIsSpoken(w.track, v, s.loud, s.soak, w.pc.changed, w.now);
    } else if a.Settle? && w.pc.Answered? {
      RetractIsSpoken(w.track, v, s.loud, w.pc.message);
    }
  }

  /**
   Over every run with an announcer, what was said about the check is exactly
   the transitions of the answers that were not busy refusals, and a withdrawal
   is only ever said right after the offer it withdraws. Without an announcer
   nothing is said and nothing is marked as failing.
   */
  lemma {:induction false} AnnouncementsAreTransitions(s: Setup, now: int, actions: seq<Action>)
    ensures
      var w := Exec(s, Initial(now), actions);
      SpokenFor(w.track, Verdicts(w.history), s.loud)
  {
    if actions != [] {
      var earlier := actions[..|actions| - 1];
      AnnouncementsAreTransitions(s, now, earlier);
      StepIsSpoken(s, Exec(s, Initial(now), earlier), actions[|actions| - 1]);
    }
  }

  // ------------------------------------------------------ all that is announced

  /** What ends a soak: a check that says nothing is available, an update's completion, or its own start. */
  predicate Ends(e: Event) { e.Denied? || e.Notified? || e.Cleared? }

  /** A sighting is on record and nothing has ended its soak. */
  ghost predicate Stands(h: seq<Event>) {
    exists i :: SightedLast(h, i)
  }

  ghost predicate SightedLast(h: seq<Event>, i: int) {
    0 <= i < |h| && h[i].Sighted? && forall x :: i < x < |h| ==> !Ends(h[x]) && !h[x].Sighted?
  }

  /** What is to be announced of a run: each change of the check, each sighting, each denial of a soak that stands. */
  ghost function Said(h: seq<Event>, soak: nat): seq<Notice> {
    if h == [] then []
    else
      var before := h[..|h| - 1];
      Said(before, soak) +
      match h[|h| - 1]
      case Heard(a) =>
        if SaysNothing(a) || a.Errored? == Failing(Verdicts(before)) then []
        else if a.Errored? then [CheckFailed(a.cause)] else [CheckRecovered]
      case Sighted(since, changed, _) => [Available(changed, since + soak)]
      case Denied(message) => if Stands(before) then [Withdrawn(message)] else []
      case _ => []
  }

  /** The pending soak is the sighting that stands. */
  ghost predicate PendingStands(w: World) {
    && (w.track.pending.Some? <==> Stands(w.history))
    && forall i :: w.track.pending.Some? && SightedLast(w.history, i) ==>
         w.track.pending.value == Pending(w.history[i].since, w.history[i].changed)
  }

  lemma StandsSnoc(h: seq<Event>, e: Event)
    ensures Ends(e) ==> !Stands(h + [e])
    ensures e.Sighted? ==> SightedLast(h + [e], |h|)
    ensures !Ends(e) && !e.Sighted? ==> (Stands(h + [e]) <==> Stands(h))
    ensures forall i :: SightedLast(h + [e], i) ==> if e.Sighted? then i == |h| else SightedLast(h, i) && (h + [e])[i] == h[i]
  {
    var more := h + [e];
    assert more[|h|] == e && forall x :: 0 <= x < |h| ==> more[x] == h[x];
    if Stands(h) && !Ends(e) && !e.Sighted? {
      var i :| SightedLast(h, i);
      assert SightedLast(more, i);
    }
    if Stands(more) && !e.Sighted? {
      var i :| SightedLast(more, i);
      assert i < |h| && SightedLast(h, i);
    }
  }

  lemma SaidSnoc(h: seq<Event>, e: Event, soak: nat)
    ensures
      Said(h + [e], soak) == Said(h, soak) +
      match e
      case Heard(a) =>
        if SaysNothing(a) || a.Errored? == Failing(Verdicts(h)) then []
        else if a.Errored? then [CheckFailed(a.cause)] else [CheckRecovered]
      case Sighted(since, changed, _) => [Available(changed, since + soak)]
      case Denied(message) => if Stands(h) then [Withdrawn(message)] else []
      case _ => []
  {
    assert (h + [e])[..|h|] == h;
  }

  /** Everything that was announced, and what is pending, can be read off the history. */
  ghost predicate Telling(s: Setup, w: World) {
    && PendingStands(w)
    && if s.loud then w.track.announced == Said(w.history, s.soak) && w.track.broken == Failing(Verdicts(w.history))
       else w.track.announced == [] && !w.track.broken
  }

  lemma ListenTells(s: Setup, w: World, a: Answer)
    requires Telling(s, w) && w.pc.Asking?
    ensures Telling(s, Listen(s, w, a))
  {
    StandsSnoc(w.history, Heard(a));
    SaidSnoc(w.history, Heard(a), s.soak);
    VerdictSnoc(w.history, Heard(a));
  }

  lemma RecordTells(s: Setup, w: World, changed: seq<string>)
    requires Telling(s, w)
    ensures Telling(s, Record(s, w, changed))
  {
    if w.track.pending.Some? {
      SilentTells(s, w, Confirmed(w.owed), Record(s, w, changed));
    } else {
      SightingTells(s, w, changed, Record(s, w, changed));
    }
  }

  lemma SightingTells(s: Setup, w: World, changed: seq<string>, after: World)
    requires Telling(s, w) && w.track.pending.None? && after.history == w.history + [Sighted(w.now, changed, w.owed)]
    requires after.track == Marked(w.track, s.loud, s.soak, changed, w.now)
    ensures Telling(s, after)
  {
    var e := Sighted(w.now, changed, w.owed);
    StandsSnoc(w.history, e);
    SaidSnoc(w.history, e, s.soak);
    VerdictSnoc(w.history, e);
  }

  /** An event with which nothing is announced, and which ends the soak if the track drops it. */
  lemma SilentTells(s: Setup, w: World, e: Event, after: World)
    requires Telling(s, w) && !e.Heard? && !e.Sighted? && !e.Denied?
    requires after.history == w.history + [e] && after.track == if Ends(e) then Dropped(w.track) else w.track
    ensures Telling(s, after)
  {
    StandsSnoc(w.history, e);
    SaidSnoc(w.history, e, s.soak);
    VerdictSnoc(w.history, e);
  }

  lemma DenialTells(s: Setup, w: World, message: string, after: World)
    requires Telling(s, w)
    requires after.history == w.history + [Denied(message)] && after.track == Retracted(w.track, s.loud, message)
    ensures Telling(s, after)
  {
    StandsSnoc(w.history, Denied(message));
    SaidSnoc(w.history, Denied(message), s.soak);
    VerdictSnoc(w.history, Denied(message));
  }

  lemma StepTells(s: Setup, w: World, a: Action)
    requires Telling(s, w)
    ensures Telling(s, Step(s, w, a))
  {
    var after := Step(s, w, a);
    match a
    case Answer(answer) => if w.pc.Asking? { ListenTells(s, w, answer); }
    case Settle =>
      if w.pc.Answered? {
        if w.pc.available { RecordTells(s, w, w.pc.changed); } else { DenialTells(s, w, w.pc.message, after); }
      }
    case Start(accepted) =>
      if w.pc.Starting? && !w.running && accepted {
        SilentTells(s, w, AutoStarted(w.now, w.pc.p.since, w.owed, w.pc.sighting, w.pc.mark), after);
      }
    case Clear => if w.pc.Clearing? { SilentTells(s, w, Cleared, after); }
    case BeginOther => if !w.running { SilentTells(s, w, OtherBegan, after); }
    case Complete => if w.running { SilentTells(s, w, Completed, after); }
    case Notify => if w.owed > 0 { SilentTells(s, w, Notified, after); }
    case _ =>
  }

  /**
   Over every run with an announcer, what was announced is exactly this: the changes
   of the check between working and failing, every sighting with the time it applies
   at, and every answer that nothing is available while a soak stood.
   */
  lemma {:induction false} AnnouncedIsSaid(s: Setup, now: int, actions: seq<Action>)
    ensures Telling(s, Exec(s, Initial(now), actions))
  {
    if actions != [] {
      AnnouncedIsSaid(s, now, actions[..|actions| - 1]);
      StepTells(s, Exec(s, Initial(now), actions[..|actions| - 1]), actions[|actions| - 1]);
    }
  }

  /** Failed and recovered strictly alternate, starting with failed. */
  lemma {:induction false} TransitionsAlternate(v: seq<Answer>)
    ensures forall i :: 0 <= i < |Transitions(v)| ==> (Transitions(v)[i].CheckFailed? <==> i % 2 == 0)
    ensures forall i :: 0 <= i < |Transitions(v)| ==> (Transitions(v)[i].CheckRecovered? <==> i % 2 == 1)
    ensures |Transitions(v)| % 2 == 1 <==> Failing(v)
  {
    if v != [] { TransitionsAlternate(v[..|v| - 1]); }
  }

  lemma {:induction false} OffersPrefix(n: seq<Notice>, k: nat)
    requires k <= |n|
    ensures Offers(n[..k]) <= Offers(n)
  {
    if k < |n| {
      OffersPrefix(n[..|n| - 1], k);
      assert n[..|n| - 1][..k] == n[..k];
    } else {
      assert n[..k] == n;
    }
  }

  lemma {:induction false} CountOffers(n: seq<Notice>)
    requires Paired(Offers(n))
    ensures Count(n, true) <= Count(n, false)
    ensures Offering(Offers(n)) ==> Count(n, true) < Count(n, false)
  {
    if n != [] {
      var before := n[..|n| - 1];
      OffersPrefix(n, |n| - 1);
      assert forall i :: 0 <= i < |Offers(before)| ==> Offers(before)[i] == Offers(n)[i];
      CountOffers(before);
      if n[|n| - 1].Withdrawn? { assert Offers(n)[|Offers(before)|].Withdrawn?; }
    }
  }

  /** At no point of any run have more offers been withdrawn than were made. */
  lemma WithdrawnNeverExceedsAvailable(s: Setup, now: int, actions: seq<Action>, k: nat)
    requires k <= |Exec(s, Initial(now), actions).track.announced|
    ensures
      var said := Exec(s, Initial(now), actions).track.announced[..k];
      Count(said, true) <= Count(said, false)
  {
    var n := Exec(s, Initial(now), actions).track.announced;
    AnnouncementsAreTransitions(s, now, actions);
    if s.loud {
      OffersPrefix(n, k);
      assert forall i :: 0 <= i < |Offers(n[..k])| ==> Offers(n[..k])[i] == Offers(n)[i];
      CountOffers(n[..k]);
    }
  }

  // --------------------------------------------------------- ticks and steps

  /** The steps of one tick with nothing in between but time. */
  function TickActions(a: Answer, wait: nat, think: nat, accepted: bool): seq<Action> {
    [Wake, Answer(a), Pass(wait), Settle, Pass(think), Decide, Action.Start(accepted), Clear]
  }

  lemma {:induction false} ExecConcat(s: Setup, w: World, a: seq<Action>, b: seq<Action>)
    ensures Exec(s, w, a + b) == Exec(s, Exec(s, w, a), b)
  {
    if b == [] {
      assert a + b == a;
    } else {
      ExecConcat(s, w, a, b[..|b| - 1]);
      assert (a + b)[..|a + b| - 1] == a + b[..|b| - 1];
    }
  }

  lemma ExecCons(s: Setup, w: World, a: Action, rest: seq<Action>)
    ensures Exec(s, w, [a] + rest) == Exec(s, Step(s, w, a), rest)
  {
    ExecConcat(s, w, [a], rest);
    assert [a][..0] == [];
  }

  function Four(s: Setup, w: World, a: Action, b: Action, c: Action, d: Action): World {
    Step(s, Step(s, Step(s, Step(s, w, a), b), c), d)
  }

  lemma FourSteps(s: Setup, w: World, a: Action, b: Action, c: Action, d: Action)
    ensures Exec(s, w, [a, b, c, d]) == Four(s, w, a, b, c, d)
  {
    ExecCons(s, w, a, [b, c, d]);
    ExecCons(s, Step(s, w, a), b, [c, d]);
    ExecCons(s, Step(s, Step(s, w, a), b), c, [d]);
    ExecCons(s, Step(s, Step(s, Step(s, w, a), b), c), d, []);
    assert [a] + [b, c, d] == [a, b, c, d] && [b] + [c, d] == [b, c, d] && [c] + [d] == [c, d] && [d] + [] == [d];
  }

  /** The second half of a tick: time to think, the decision, the start and what it clears. */
  function Half(s: Setup, w: World, think: nat, accepted: bool): World {
    Four(s, w, Pass(think), Decide, Action.Start(accepted), Clear)
  }

  lemma HalfIdle(s: Setup, w: World, think: nat, accepted: bool)
    requires w.pc.Asleep?
    ensures Half(s, w, think, accepted) == w.(now := w.now + think)
  {
  }

  lemma HalfDecides(s: Setup, w: World, think: nat, accepted: bool)
    requires w.pc.Deciding? && !w.running
    ensures
      var after := Half(s, w, think, accepted);
      var go := w.pc.p.ReadyAt(s.soak) <= w.now + think && accepted;
      && after.pc.Asleep? && after.now == w.now + think && after.running == go
      && after.track == if go then Dropped(w.track) else w.track
  {
    var w2 := Step(s, Step(s, w, Pass(think)), Decide);
    assert w2.track == w.track && w2.now == w.now + think;
  }

  lemma TickInHalves(s: Setup, w: World, a: Answer, wait: nat, think: nat, accepted: bool)
    ensures Exec(s, w, TickActions(a, wait, think, accepted)) ==
              Half(s, Four(s, w, Wake, Answer(a), Pass(wait), Settle), think, accepted)
  {
    var first := [Wake, Answer(a), Pass(wait), Settle];
    var second := [Pass(think), Decide, Action.Start(accepted), Clear];
    assert TickActions(a, wait, think, accepted) == first + second;
    ExecConcat(s, w, first, second);
    FourSteps(s, w, Wake, Answer(a), Pass(wait), Settle);
    FourSteps(s, Exec(s, w, first), Pass(think), Decide, Action.Start(accepted), Clear);
  }

  /** A tick nobody interrupts is exactly the tick of Schedules, read at the two instants its clock was read. */
  lemma TickIsItsSteps(s: Setup, w: World, a: Answer, wait: nat, think: nat, accepted: bool)
    requires w.pc.Asleep?
    ensures
      var e := Encounter(w.running, a, w.now + wait, w.now + wait + think, accepted);
      var after := Exec(s, w, TickActions(a, wait, think, accepted));
      && after.pc.Asleep? && after.now == w.now + wait + think
      && after.track == Ticked(w.track, s.loud, s.soak, e).0
      && (Ticked(w.track, s.loud, s.soak, e).1 <==> after.running != w.running)
  {
    TickInHalves(s, w, a, wait, think, accepted);
    var mid := Four(s, w, Wake, Answer(a), Pass(wait), Settle);
    FirstHalf(s, w, a, wait);
    if mid.pc.Deciding? { HalfDecides(s, mid, think, accepted); } else { HalfIdle(s, mid, think, accepted); }
  }

  lemma FirstHalf(s: Setup, w: World, a: Answer, wait: nat)
    requires w.pc.Asleep?
    ensures
      var mid := Four(s, w, Wake, Answer(a), Pass(wait), Settle);
      && mid.now == w.now + wait && mid.running == w.running
      && if w.running || Refused(a) then mid.pc.Asleep? && mid.track == w.track
         else match a
           case Errored(_, cause) => mid.pc.Asleep? && mid.track == Flagged(w.track, s.loud, true, CheckFailed(cause))
           case Told(available, changed, message) =>
             var heard := Flagged(w.track, s.loud, false, CheckRecovered);
             if !available then mid.pc.Asleep? && mid.track == Retracted(heard, s.loud, message)
             else
               && mid.track == Marked(heard, s.loud, s.soak, changed, mid.now)
               && if heard.pending.None? && s.soak > 0 then mid.pc.Asleep?
                  else mid.pc.Deciding? && mid.pc.p == mid.track.pending.value
  {
    var w2 := Step(s, Step(s, w, Wake), Answer(a));
    if w.running || a.Errored? { assert w2.pc.Asleep?; } else { assert w2.pc == Answered(a.available, a.changed, a.message); }
  }

  // ------------------------------------------- what the soak does not promise

  const FOUND := Told(true, [], "")

  /** A first tick that sights an image, and the time it has to soak. */
  function SightAndSoak(soak: nat): seq<Action> {
    [Wake, Answer(FOUND), Settle, Pass(soak)]
  }

  function Sighting(s: Setup, now: int): World {
    World(now + s.soak, Marked(UNTRACKED, s.loud, s.soak, [], now), 1, Asleep, false, 0, [Heard(FOUND), Sighted(now, [], 0)])
  }

  lemma SightIsSighting(s: Setup, now: int)
    requires s.soak > 0
    ensures Exec(s, Initial(now), SightAndSoak(s.soak)) == Sighting(s, now)
  {
    FourSteps(s, Initial(now), Wake, Answer(FOUND), Settle, Pass(s.soak));
    var w2 := Step(s, Step(s, Initial(now), Wake), Answer(FOUND));
    assert w2.history == [Heard(FOUND)] && w2.track == UNTRACKED;
  }

  lemma AfterSoak(s: Setup, now: int, first: seq<Action>, second: seq<Action>)
    requires s.soak > 0
    ensures Exec(s, Initial(now), SightAndSoak(s.soak) + first + second) == Exec(s, Exec(s, Sighting(s, now), first), second)
  {
    SightIsSighting(s, now);
    ExecConcat(s, Initial(now), SightAndSoak(s.soak), first);
    ExecConcat(s, Initial(now), SightAndSoak(s.soak) + first, second);
  }

  /** An update may complete during the soak and the start still happen, if the completion's callback is late. */
  lemma LateCallbackIsMissed(s: Setup, now: int)
    requires s.soak > 0
    ensures
      var run := SightAndSoak(s.soak) + [BeginOther, Complete, Wake, Answer(FOUND)] + [Settle, Decide, Action.Start(true), Clear];
      Exec(s, Initial(now), run).history ==
      [Heard(FOUND), Sighted(now, [], 0), OtherBegan, Completed, Heard(FOUND), Confirmed(1), AutoStarted(now + s.soak, now, 1, 1, 5), Cleared]
  {
    var w := Sighting(s, now);
    AfterSoak(s, now, [BeginOther, Complete, Wake, Answer(FOUND)], [Settle, Decide, Action.Start(true), Clear]);
    FourSteps(s, w, BeginOther, Complete, Wake, Answer(FOUND));
    var mid := Four(s, w, BeginOther, Complete, Wake, Answer(FOUND));
    assert mid == w.(history := [Heard(FOUND), Sighted(now, [], 0), OtherBegan, Completed, Heard(FOUND)], owed := 1,
                     pc := Answered(true, [], ""));
    FourSteps(s, mid, Settle, Decide, Action.Start(true), Clear);
    assert Step(s, mid, Settle).history == mid.history + [Confirmed(1)];
  }

  /** A whole update, callback included, may fit between a tick's mark and its start: the tick keeps the soak it read. */
  lemma CallbackAfterMarkIsMissed(s: Setup, now: int)
    requires s.soak > 0
    ensures
      var run := SightAndSoak(s.soak) + [Wake, Answer(FOUND), Settle, Decide] + [BeginOther, Complete, Notify, Action.Start(true)];
      Exec(s, Initial(now), run).history ==
      [Heard(FOUND), Sighted(now, [], 0), Heard(FOUND), Confirmed(0), OtherBegan, Completed, Notified,
       AutoStarted(now + s.soak, now, 0, 1, 3)]
  {
    var w := Sighting(s, now);
    AfterSoak(s, now, [Wake, Answer(FOUND), Settle, Decide], [BeginOther, Complete, Notify, Action.Start(true)]);
    FourSteps(s, w, Wake, Answer(FOUND), Settle, Decide);
    var mid := w.(history := [Heard(FOUND), Sighted(now, [], 0), Heard(FOUND), Confirmed(0)], pc := Starting(Pending(now, []), 1, 3));
    assert Four(s, w, Wake, Answer(FOUND), Settle, Decide) == mid;
    FourSteps(s, mid, BeginOther, Complete, Notify, Action.Start(true));
    ManualUpdate(s, mid);
  }

  /** An update begun, completed and notified while a start is being made. */
  lemma ManualUpdate(s: Setup, w: World)
    requires w.pc.Starting? && !w.running && w.owed == 0
    ensures Four(s, w, BeginOther, Complete, Notify, Action.Start(true)).history ==
              w.history + [OtherBegan, Completed, Notified, AutoStarted(w.now, w.pc.p.since, w.owed, w.pc.sighting, w.pc.mark)]
  {
    assert Step(s, Step(s, Step(s, w, BeginOther), Complete), Notify) ==
           w.(history := w.history + [OtherBegan, Completed, Notified], track := Dropped(w.track));
  }
}
