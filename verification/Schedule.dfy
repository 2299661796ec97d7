/**
 The soak scheduler (internal/schedule/schedule.go): its maps, one tick, and
 the sleep between two ticks. A tick here runs without interruption; Soak
 interleaves its steps with the rest of the process.
 */
module Schedules {
  import opened Wrappers

  const CONFLICT := 409
  const UNAVAILABLE := 503

  datatype Pending = Pending(since: int, services: seq<string>) {
    function ReadyAt(soak: nat): int {
      since + soak
    }
  }

  datatype Notice =
    | Available(services: seq<string>, appliesAt: int)
    | Withdrawn(reason: string)
    | CheckFailed(cause: string)
    | CheckRecovered

  /** A check fails, perhaps with the agent's status code, or says what it found. */
  datatype Answer =
    | Errored(status: Option<int>, cause: string)
    | Told(available: bool, changed: seq<string>, message: string)

  predicate Refused(a: Answer) {
    a.Errored? && (a.status == Some(CONFLICT) || a.status == Some(UNAVAILABLE))
  }

  /** All the scheduler knows and has said about one target. */
  datatype Track = Track(pending: Option<Pending>, broken: bool, announced: seq<Notice>)

  const UNTRACKED := Track(None, false, [])

  function Flagged(t: Track, loud: bool, failing: bool, notice: Notice): Track {
    if loud && t.broken != failing then t.(broken := failing, announced := t.announced + [notice]) else t
  }

  function Dropped(t: Track): Track {
    t.(pending := None)
  }

  function Retracted(t: Track, loud: bool, reason: string): Track {
    if loud && t.pending.Some? then Dropped(t).(announced := t.announced + [Withdrawn(reason)]) else Dropped(t)
  }

  /** The first sighting is kept, whatever services a later check names. */
  function Marked(t: Track, loud: bool, soak: nat, changed: seq<string>, now: int): Track {
    if t.pending.Some? then t
    else
      var p := Pending(now, changed);
      t.(pending := Some(p), announced := if loud then t.announced + [Available(changed, p.ReadyAt(soak))] else t.announced)
  }

  /** What one tick meets: the store, the agent's answer, two clock readings, and whether a start is accepted. */
  datatype Encounter = Encounter(busy: bool, answer: Answer, marked: int, judged: int, startOK: bool)

  function Ticked(t: Track, loud: bool, soak: nat, e: Encounter): (Track, bool) {
    if e.busy || Refused(e.answer) then (t, false)
    else match e.answer
      case Errored(_, cause) => (Flagged(t, loud, true, CheckFailed(cause)), false)
      case Told(available, changed, message) =>
        var heard := Flagged(t, loud, false, CheckRecovered);
        if !available then (Retracted(heard, loud, message), false)
        else
          var after := Marked(heard, loud, soak, changed, e.marked);
          var soaking := (heard.pending.None? && soak > 0) || e.judged < after.pending.value.ReadyAt(soak);
          if soaking || !e.startOK then (after, false) else (Dropped(after), true)
  }

  // --------------------------------------------------------- what a tick does

  /** While an update runs, or when the agent answers that it is busy, a tick does nothing at all. */
  lemma BusyTickDoesNothing(t: Track, loud: bool, soak: nat, e: Encounter)
    requires e.busy || (e.answer.Errored? && (e.answer.status == Some(409) || e.answer.status == Some(503)))
    ensures Ticked(t, loud, soak, e) == (t, false)
  {
  }

  /** What a tick says about the check itself: that it failed, or works again, at a change and only then. */
  function HealthNotices(t: Track, failing: bool, cause: string): seq<Notice> {
    if failing && !t.broken then [CheckFailed(cause)]
    else if !failing && t.broken then [CheckRecovered]
    else []
  }

  /** Any other failure leaves the soak alone and is announced unless the last check had failed too. */
  lemma FailedTick(t: Track, loud: bool, soak: nat, e: Encounter)
    requires !e.busy && e.answer.Errored? && e.answer.status != Some(409) && e.answer.status != Some(503)
    ensures !Ticked(t, loud, soak, e).1 && Ticked(t, loud, soak, e).0.pending == t.pending
    ensures !loud ==> Ticked(t, loud, soak, e).0 == t
    ensures loud ==> Ticked(t, loud, soak, e).0.broken
    ensures loud ==> Ticked(t, loud, soak, e).0.announced == t.announced + HealthNotices(t, true, e.answer.cause)
  {
  }

  /** An answer that nothing is available drops the soak, starts nothing, and withdraws the offer if one was pending. */
  lemma UnavailableTick(t: Track, loud: bool, soak: nat, e: Encounter)
    requires !e.busy && e.answer.Told? && !e.answer.available
    ensures !Ticked(t, loud, soak, e).1 && Ticked(t, loud, soak, e).0.pending.None?
    ensures !loud ==> Ticked(t, loud, soak, e).0.announced == t.announced
    ensures loud ==> !Ticked(t, loud, soak, e).0.broken
    ensures loud && t.pending.None? ==> Ticked(t, loud, soak, e).0.announced == t.announced + HealthNotices(t, false, "")
    ensures loud && t.pending.Some? ==>
              Ticked(t, loud, soak, e).0.announced == t.announced + HealthNotices(t, false, "") + [Withdrawn(e.answer.message)]
  {
  }

  /** A first sighting is announced with the time it applies at, and starts at once only without a soak. */
  lemma SightingTick(t: Track, loud: bool, soak: nat, e: Encounter)
    requires !e.busy && e.answer.Told? && e.answer.available && t.pending.None?
    ensures Ticked(t, loud, soak, e).1 <==> soak == 0 && e.judged >= e.marked && e.startOK
    ensures Ticked(t, loud, soak, e).0.pending == if Ticked(t, loud, soak, e).1 then None else Some(Pending(e.marked, e.answer.changed))
    ensures !loud ==> Ticked(t, loud, soak, e).0.announced == t.announced
    ensures loud ==> !Ticked(t, loud, soak, e).0.broken
    ensures loud ==>
              Ticked(t, loud, soak, e).0.announced ==
              t.announced + HealthNotices(t, false, "") + [Available(e.answer.changed, e.marked + soak)]
  {
  }

  /** A later one starts the update exactly when the soak since the first is over and the start is accepted, and says nothing new. */
  lemma ConfirmingTick(t: Track, loud: bool, soak: nat, e: Encounter)
    requires !e.busy && e.answer.Told? && e.answer.available && t.pending.Some?
    ensures Ticked(t, loud, soak, e).1 <==> e.judged >= t.pending.value.since + soak && e.startOK
    ensures Ticked(t, loud, soak, e).0.pending == if Ticked(t, loud, soak, e).1 then None else t.pending
    ensures !loud ==> Ticked(t, loud, soak, e).0.announced == t.announced
    ensures loud ==> !Ticked(t, loud, soak, e).0.broken
    ensures loud ==> Ticked(t, loud, soak, e).0.announced == t.announced + HealthNotices(t, false, "")
  {
  }

  class Scheduler {
    const loud: bool
    var pending: map<string, Pending>
    var broken: set<string>
    var nextCheck: map<string, int>
    var lastCheck: map<string, int>
    /** What the announcer was told, by target. */
    var announced: map<string, seq<Notice>>

    function At(target: string): Track
      reads this`pending, this`broken, this`announced
    {
      Track(if target in pending then Some(pending[target]) else None,
            target in broken,
            if target in announced then announced[target] else [])
    }

    /** Nothing about any other target has changed. */
    twostate predicate OnlyAbout(target: string)
      reads this
    {
      && (forall other :: other != target ==> At(other) == old(At(other)))
      && (forall other :: other != target ==>
            && (other in nextCheck <==> other in old(nextCheck)) && (other in nextCheck ==> nextCheck[other] == old(nextCheck)[other])
            && (other in lastCheck <==> other in old(lastCheck)) && (other in lastCheck ==> lastCheck[other] == old(lastCheck)[other]))
    }

    constructor (loud: bool)
      ensures this.loud == loud && forall t :: At(t) == UNTRACKED
    {
      this.loud := loud;
      pending, broken, nextCheck, lastCheck, announced := map[], {}, map[], map[], map[];
    }

    method Announce(target: string, notice: Notice)
      modifies this`announced
      ensures At(target) == old(At(target)).(announced := old(At(target)).announced + [notice])
      ensures OnlyAbout(target)
    {
      announced := announced[target := (if target in announced then announced[target] else []) + [notice]];
    }

    method MarkBroken(target: string, failing: bool) returns (changed: bool)
      modifies this`broken
      ensures At(target) == old(At(target)).(broken := failing) && OnlyAbout(target)
      ensures changed <==> old(At(target)).broken != failing
    {
      var was := target in broken;
      broken := if failing then broken + {target} else broken - {target};
      changed := was != failing;
    }

    method Clear(target: string) returns (existed: bool)
      modifies this`pending
      ensures At(target) == Dropped(old(At(target))) && OnlyAbout(target)
      ensures existed <==> old(At(target)).pending.Some?
    {
      existed := target in pending;
      pending := pending - {target};
    }

    /** The completion callback: a soak somebody else has already applied. */
    method ClearPending(target: string)
      modifies this`pending
      ensures At(target) == Dropped(old(At(target))) && OnlyAbout(target)
    {
      var _ := Clear(target);
    }

    method Mark(target: string, services: seq<string>, now: int) returns (p: Pending, existed: bool)
      modifies this`pending
      ensures existed <==> old(At(target)).pending.Some?
      ensures existed ==> p == old(At(target)).pending.value
      ensures !existed ==> p == Pending(now, services)
      ensures At(target) == old(At(target)).(pending := Some(p)) && OnlyAbout(target)
    {
      if target in pending { return pending[target], true; }
      p, existed := Pending(now, services), false;
      pending := pending[target := p];
    }

    method Apply(target: string, startOK: bool) returns (started: bool)
      modifies this`pending
      ensures started == startOK
      ensures At(target) == (if started then Dropped(old(At(target))) else old(At(target))) && OnlyAbout(target)
    {
      if !startOK { return false; }
      var _ := Clear(target);
      started := true;
    }

    method Failed(target: string, cause: string)
      modifies this`broken, this`announced
      ensures At(target) == Flagged(old(At(target)), loud, true, CheckFailed(cause)) && OnlyAbout(target)
    {
      if loud {
        var changed := MarkBroken(target, true);
        if changed { Announce(target, CheckFailed(cause)); }
      }
    }

    method Recovered(target: string)
      modifies this`broken, this`announced
      ensures At(target) == Flagged(old(At(target)), loud, false, CheckRecovered) && OnlyAbout(target)
    {
      if loud {
        var changed := MarkBroken(target, false);
        if changed { Announce(target, CheckRecovered); }
      }
    }

    method Tick(target: string, soak: nat, e: Encounter) returns (started: bool)
      modifies this`pending, this`broken, this`announced
      ensures (At(target), started) == Ticked(old(At(target)), loud, soak, e) && OnlyAbout(target)
    {
      started := false;
      if e.busy { return; }
      match e.answer {
        case Errored(status, cause) =>
          if status == Some(CONFLICT) || status == Some(UNAVAILABLE) { return; }
          Failed(target, cause);
        case Told(available, changed, message) =>
          Recovered(target);
          if !available {
            var existed := Clear(target);
            if existed && loud { Announce(target, Withdrawn(message)); }
            return;
          }
          var p, existed := Mark(target, changed, e.marked);
          if !existed {
            if loud { Announce(target, Available(changed, p.ReadyAt(soak))); }
            if soak > 0 { return; }
          }
          if e.judged < p.ReadyAt(soak) { return; }
          started := Apply(target, e.startOK);
      }
    }

    method PendingFor(target: string) returns (p: Option<Pending>)
      ensures p == At(target).pending
    {
      p := if target in pending then Some(pending[target]) else None;
    }

    /** One turn of the watch loop, up to the instant it wakes again. */
    method Watch(target: string, soak: nat, interval: nat, r: Round) returns (started: bool, wake: int)
      modifies this
      ensures (At(target), started) == Ticked(old(At(target)), loud, soak, r.met) && OnlyAbout(target)
      ensures wake == Wake(At(target).pending, soak, r)
      ensures target in lastCheck && lastCheck[target] == r.begun
      ensures target in nextCheck && nextCheck[target] == r.ended + interval
    {
      lastCheck := lastCheck[target := r.begun];
      started := Tick(target, soak, r.met);
      nextCheck := nextCheck[target := r.ended + interval];
      var p := PendingFor(target);
      wake := r.fires;
      if p.Some? {
        var d := p.value.ReadyAt(soak) - r.looked;
        if d > 0 && r.looked + d < wake { wake := r.looked + d; }
      }
    }
  }

  // ------------------------------------------------------------- timeliness

  /** One turn of the loop: its clock readings around the tick, and when the ticker next fires. */
  datatype Round = Round(begun: int, met: Encounter, ended: int, looked: int, fires: int)

  function Wake(pending: Option<Pending>, soak: nat, r: Round): int {
    if pending.Some? && r.looked < pending.value.ReadyAt(soak) && pending.value.ReadyAt(soak) < r.fires
    then pending.value.ReadyAt(soak) else r.fires
  }

  /** The loop wakes when a soak ends that had not when it looked, if that is before the ticker fires, and else with the ticker. */
  lemma WakeIs(pending: Option<Pending>, soak: nat, r: Round)
    ensures pending.Some? && r.looked < pending.value.since + soak < r.fires ==> Wake(pending, soak, r) == pending.value.since + soak
    ensures pending.None? || pending.value.since + soak <= r.looked || r.fires <= pending.value.since + soak ==>
              Wake(pending, soak, r) == r.fires
  {
  }

  function AfterRounds(t: Track, loud: bool, soak: nat, rounds: seq<Round>): Track {
    if rounds == [] then t
    else
      var n := |rounds| - 1;
      Ticked(AfterRounds(t, loud, soak, rounds[..n]), loud, soak, rounds[n].met).0
  }

  /** Whether round `i` of a run starts the update. */
  predicate StartsIn(t: Track, loud: bool, soak: nat, rounds: seq<Round>, i: nat)
    requires i < |rounds|
  {
    Ticked(AfterRounds(t, loud, soak, rounds[..i]), loud, soak, rounds[i].met).1
  }

  /** When the loop wakes after round `i`. */
  function WakeAfter(t: Track, loud: bool, soak: nat, rounds: seq<Round>, i: nat): int
    requires i < |rounds|
  {
    Wake(AfterRounds(t, loud, soak, rounds[..i + 1]).pending, soak, rounds[i])
  }

  /** The target is idle and the check says available. */
  predicate Sights(e: Encounter) {
    !e.busy && e.answer.Told? && e.answer.available
  }

  /** And a start would be accepted. */
  predicate Willing(e: Encounter) {
    Sights(e) && e.startOK
  }

  /** A tick that neither withdraws the soak nor starts: busy, refused, failed, too early or not accepted. */
  predicate Passes(e: Encounter, ready: int) {
    e.busy || e.answer.Errored? || (Sights(e) && (!e.startOK || e.judged < ready))
  }

  /**
   A sighting, any rounds in which no answer says otherwise and nothing can start,
   and a round at or after the ready time with nothing in the way.
   */
  ghost predicate Soaking(t: Track, soak: nat, rounds: seq<Round>) {
    && t.pending.None? && soak > 0 && |rounds| >= 2
    && Sights(rounds[0].met)
    && (forall i :: 0 < i < |rounds| - 1 ==> Passes(rounds[i].met, ReadyTime(soak, rounds)))
    && Willing(rounds[|rounds| - 1].met) && ReadyTime(soak, rounds) <= rounds[|rounds| - 1].met.judged
  }

  function ReadyTime(soak: nat, rounds: seq<Round>): int
    requires rounds != []
  {
    rounds[0].met.marked + soak
  }

  lemma {:induction false} SoakIsKept(t: Track, loud: bool, soak: nat, rounds: seq<Round>, n: nat)
    requires Soaking(t, soak, rounds) && 0 < n < |rounds|
    ensures AfterRounds(t, loud, soak, rounds[..n]).pending == Some(Pending(rounds[0].met.marked, rounds[0].met.answer.changed))
    ensures !StartsIn(t, loud, soak, rounds, n - 1)
  {
    assert rounds[..n][..n - 1] == rounds[..n - 1];
    if n > 1 { SoakIsKept(t, loud, soak, rounds, n - 1); }
  }

  /** Before the ready time no round starts anything, and none sleeps past it but by looking too late. */
  lemma RoundWaits(t: Track, loud: bool, soak: nat, rounds: seq<Round>, i: nat)
    requires Soaking(t, soak, rounds) && i < |rounds| - 1
    ensures !StartsIn(t, loud, soak, rounds, i)
    ensures
      var ready := ReadyTime(soak, rounds);
      WakeAfter(t, loud, soak, rounds, i) <= ready <==> rounds[i].looked < ready || rounds[i].fires <= ready
  {
    SoakIsKept(t, loud, soak, rounds, i + 1);
  }

  lemma LastRoundStarts(t: Track, loud: bool, soak: nat, rounds: seq<Round>)
    requires Soaking(t, soak, rounds)
    ensures StartsIn(t, loud, soak, rounds, |rounds| - 1) && AfterRounds(t, loud, soak, rounds).pending.None?
  {
    SoakIsKept(t, loud, soak, rounds, |rounds| - 1);
  }

  /**
   Once an image is sighted, busy, refused and failed checks and refused starts do not
   disturb its soak: the update starts in the first round at or after the ready time
   with nothing in the way, and in no earlier one. No sleep that begins before the
   ready time ends after it, so a wake-up is on time unless the ready time passed
   between a tick's reading and the loop's own, in which case the loop waits for the
   ticker.
   */
  lemma StartIsTimely(t: Track, loud: bool, soak: nat, rounds: seq<Round>)
    requires Soaking(t, soak, rounds)
    ensures
      var n := |rounds| - 1;
      var ready := ReadyTime(soak, rounds);
      && StartsIn(t, loud, soak, rounds, n)
      && (forall i :: 0 <= i < n ==> !StartsIn(t, loud, soak, rounds, i))
      && (forall i :: 0 <= i < n ==>
            (WakeAfter(t, loud, soak, rounds, i) <= ready <==> rounds[i].looked < ready || rounds[i].fires <= ready))
      && AfterRounds(t, loud, soak, rounds).pending.None?
  {
    LastRoundStarts(t, loud, soak, rounds);
    forall i | 0 <= i < |rounds| - 1
      ensures !StartsIn(t, loud, soak, rounds, i)
      ensures WakeAfter(t, loud, soak, rounds, i) <= ReadyTime(soak, rounds) <==>
                rounds[i].looked < ReadyTime(soak, rounds) || rounds[i].fires <= ReadyTime(soak, rounds)
    {
      RoundWaits(t, loud, soak, rounds, i);
    }
  }

  /** If rounds follow their wake-up within `lag`, the start is at most `lag` after the ready time, or after the ticker. */
  lemma StartIsWithinLag(t: Track, loud: bool, soak: nat, rounds: seq<Round>, lag: nat)
    requires Soaking(t, soak, rounds)
    requires rounds[|rounds| - 1].met.judged <= WakeAfter(t, loud, soak, rounds, |rounds| - 2) + lag
    ensures
      var n := |rounds| - 1;
      var ready := ReadyTime(soak, rounds);
      && StartsIn(t, loud, soak, rounds, n)
      && (rounds[n - 1].looked < ready ==> ready <= rounds[n].met.judged <= ready + lag)
      && rounds[n].met.judged <= rounds[n - 1].fires + lag
  {
    LastRoundStarts(t, loud, soak, rounds);
    RoundWaits(t, loud, soak, rounds, |rounds| - 2);
  }

  /**
   A loop that looks just as the soak ends, having judged just before, sleeps
   until the ticker fires: sighted at 0, ready at 10, started at 100.
   */
  lemma LateLookSleepsPastReady()
    ensures
      var found := Told(true, [], "");
      var rounds := [Round(0, Encounter(false, found, 0, 0, true), 0, 0, 9),
                     Round(9, Encounter(false, found, 9, 9, true), 10, 10, 100),
                     Round(100, Encounter(false, found, 100, 100, true), 100, 100, 200)];
      && Soaking(UNTRACKED, 10, rounds) && ReadyTime(10, rounds) == 10
      && WakeAfter(UNTRACKED, false, 10, rounds, 1) == 100 && StartsIn(UNTRACKED, false, 10, rounds, 2)
  {
    var found := Told(true, [], "");
    var rounds := [Round(0, Encounter(false, found, 0, 0, true), 0, 0, 9),
                   Round(9, Encounter(false, found, 9, 9, true), 10, 10, 100),
                   Round(100, Encounter(false, found, 100, 100, true), 100, 100, 200)];
    assert Soaking(UNTRACKED, 10, rounds);
    SoakIsKept(UNTRACKED, false, 10, rounds, 2);
    LastRoundStarts(UNTRACKED, false, 10, rounds);
  }
}
