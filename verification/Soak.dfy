/**
 One target of the scheduler as a step system. Between any two steps of a tick
 (internal/schedule/schedule.go:232-309) somebody else may begin an update,
 the running update may complete, and its completion callback, which the
 manager fires only after the store has let the job go
 (internal/job/manager.go:86-100), may drop the soak.
 */
module Soak {
  import opened Wrappers
  import opened Schedules

  /** Where the watch loop is inside its tick. */
  datatype Pc =
    | Asleep
    | Asking
    | Answered(available: bool, changed: seq<string>, message: string)
    | Deciding(p: Pending, sighting: nat, mark: nat)
    | Starting(p: Pending, sighting: nat, mark: nat)
    | Clearing

  datatype Action =
    | Wake | Answer(answer: Answer) | Settle | Decide | Start(accepted: bool) | Clear // the tick
    | Pass(d: nat) | BeginOther | Complete | Notify // everybody else

  /**
   What happened, in order. `owed` is how many completed updates have not run
   their callback yet; a start names the events of its sighting and its mark.
   */
  datatype Event =
    | Heard(answer: Answer)
    | Sighted(since: int, changed: seq<string>, owed: nat)
    | Denied(message: string)
    | Confirmed(owed: nat)
    | AutoStarted(at: int, since: int, owed: nat, sighting: nat, mark: nat)
    | Cleared
    | OtherBegan
    | Completed
    | Notified

  /** `seen` is the event that recorded the pending sighting. */
  datatype World = World(now: int, track: Track, seen: nat, pc: Pc, running: bool, owed: nat, history: seq<Event>)

  datatype Setup = Setup(loud: bool, soak: nat)

  function Initial(now: int): World {
    World(now, UNTRACKED, 0, Asleep, false, 0, [])
  }

  function Happened(w: World, e: Event): World {
    w.(history := w.history + [e])
  }

  function Listen(s: Setup, w: World, a: Answer): World {
    var heard := Happened(w, Heard(a));
    match a
    case Errored(_, cause) =>
      heard.(pc := Asleep, track := if Refused(a) then w.track else Flagged(w.track, s.loud, true, CheckFailed(cause)))
    case Told(available, changed, message) =>
      heard.(pc := Answered(available, changed, message), track := Flagged(w.track, s.loud, false, CheckRecovered))
  }

  function Record(s: Setup, w: World, changed: seq<string>): World {
    var n := |w.history|;
    var after := w.(track := Marked(w.track, s.loud, s.soak, changed, w.now));
    if w.track.pending.Some? then
      Happened(after, Confirmed(w.owed)).(pc := Deciding(w.track.pending.value, w.seen, n))
    else
      Happened(after, Sighted(w.now, changed, w.owed)).(
        seen := n,
        pc := if s.soak > 0 then Asleep else Deciding(Pending(w.now, changed), n, n))
  }

  function Begun(w: World, accepted: bool): World
    requires w.pc.Starting?
  {
    if w.running || !accepted then w.(pc := Asleep)
    else Happened(w, AutoStarted(w.now, w.pc.p.since, w.owed, w.pc.sighting, w.pc.mark)).(pc := Clearing, running := true)
  }

  /** One step; an action that is not possible changes nothing. */
  function Step(s: Setup, w: World, a: Action): World {
    match a
    case Wake => if w.pc.Asleep? && !w.running then w.(pc := Asking) else w
    case Answer(answer) => if w.pc.Asking? then Listen(s, w, answer) else w
    case Settle =>
      if !w.pc.Answered? then w
      else if w.pc.available then Record(s, w, w.pc.changed)
      else Happened(w, Denied(w.pc.message)).(pc := Asleep, track := Retracted(w.track, s.loud, w.pc.message))
    case Decide =>
      if !w.pc.Deciding? then w
      else if w.now < w.pc.p.ReadyAt(s.soak) then w.(pc := Asleep)
      else w.(pc := Starting(w.pc.p, w.pc.sighting, w.pc.mark))
    case Start(accepted) => if w.pc.Starting? then Begun(w, accepted) else w
    case Clear => if w.pc.Clearing? then Happened(w, Cleared).(pc := Asleep, track := Dropped(w.track)) else w
    case Pass(d) => w.(now := w.now + d)
    case BeginOther => if w.running then w else Happened(w, OtherBegan).(running := true)
    case Complete => if w.running then Happened(w, Completed).(running := false, owed := w.owed + 1) else w
    case Notify =>
      if w.owed == 0 then w else Happened(w, Notified).(owed := w.owed - 1, track := Dropped(w.track))
  }

  function Exec(s: Setup, w: World, actions: seq<Action>): World {
    if actions == [] then w
    else Step(s, Exec(s, w, actions[..|actions| - 1]), actions[|actions| - 1])
  }

  // ---------------------------------------------------- what lies in between

  datatype Kind = Withdrawal | Start | Completion | Notification

  predicate Is(e: Event, kind: Kind) {
    match kind
    case Withdrawal => e.Heard? && e.answer.Told? && !e.answer.available
    case Start => e.AutoStarted?
    case Completion => e.Completed?
    case Notification => e.Notified?
  }

  /** No event strictly between two positions is of this kind. */
  ghost predicate Without(h: seq<Event>, i: nat, j: nat, kind: Kind)
    requires j <= |h|
  {
    forall x :: i < x < j ==> !Is(h[x], kind)
  }

  /**
   Sighting `i` and mark `m` support a start of the soak begun at `since`, as
   far as `end`: the sighting is recorded, the mark is that sighting or a later
   check that found it still pending, no completion was notified between the
   two, and since the sighting no check has said otherwise and no automatic
   start has used it up.
   */
  ghost predicate Backed(h: seq<Event>, since: int, i: nat, m: nat, end: nat)
    requires end <= |h|
  {
    && i <= m < end
    && h[i].Sighted? && h[i].since == since && (m == i || h[m].Confirmed?)
    && Without(h, i, m, Notification)
    && Without(h, i, end, Withdrawal)
    && Without(h, i, end, Kind.Start)
  }

  /** An automatic start is backed by a sighting at least `soak` old. */
  ghost predicate Justified(h: seq<Event>, k: nat, soak: nat)
    requires k < |h| && h[k].AutoStarted?
  {
    && Backed(h, h[k].since, h[k].sighting, h[k].mark, k)
    && h[k].since + soak <= h[k].at
  }

  ghost predicate AllJustified(h: seq<Event>, soak: nat) {
    forall k :: 0 <= k < |h| && h[k].AutoStarted? ==> Justified(h, k, soak)
  }

  /** The pending sighting is on record and still stands. */
  ghost predicate Standing(w: World) {
    w.track.pending.Some? ==>
      && w.seen < |w.history|
      && w.history[w.seen].Sighted? && w.history[w.seen].since == w.track.pending.value.since
      && Without(w.history, w.seen, |w.history|, Notification)
      && ((w.pc.Answered? && !w.pc.available) || Without(w.history, w.seen, |w.history|, Withdrawal))
      && (w.pc.Clearing? || Without(w.history, w.seen, |w.history|, Kind.Start))
  }

  /** A tick about to start holds a sighting that backs it. */
  ghost predicate Poised(w: World, soak: nat) {
    && (w.pc.Deciding? || w.pc.Starting? ==> Backed(w.history, w.pc.p.since, w.pc.sighting, w.pc.mark, |w.history|))
    && (w.pc.Starting? ==> w.pc.p.ReadyAt(soak) <= w.now)
  }

  ghost predicate Sound(w: World, soak: nat) {
    Standing(w) && Poised(w, soak) && AllJustified(w.history, soak)
  }

  // ------------------------------------------------- one more event at the end

  lemma BackedSnoc(h: seq<Event>, e: Event, since: int, i: nat, m: nat, end: nat)
    requires end <= |h| && Backed(h, since, i, m, end)
    ensures Backed(h + [e], since, i, m, end)
    ensures end == |h| && !Is(e, Withdrawal) && !e.AutoStarted? ==> Backed(h + [e], since, i, m, end + 1)
  {
    var more := h + [e];
    assert forall x :: 0 <= x < |h| ==> more[x] == h[x];
    assert Without(more, i, end, Withdrawal);
  }

  lemma JustifiedSnoc(h: seq<Event>, e: Event, soak: nat)
    requires AllJustified(h, soak)
    requires e.AutoStarted? ==> Backed(h, e.since, e.sighting, e.mark, |h|) && e.since + soak <= e.at
    ensures AllJustified(h + [e], soak)
  {
    var more := h + [e];
    forall k | 0 <= k < |more| && more[k].AutoStarted? ensures Justified(more, k, soak) {
      if k < |h| {
        assert more[k] == h[k];
        BackedSnoc(h, e, h[k].since, h[k].sighting, h[k].mark, k);
      } else {
        BackedSnoc(h, e, e.since, e.sighting, e.mark, k);
      }
    }
  }

  /** An event that neither answers, starts nor notifies leaves the sighting and the tick's backing as they were. */
  lemma StandingSnoc(w: World, e: Event, soak: nat, owed: nat)
    requires Sound(w, soak) && !Is(e, Withdrawal) && !e.AutoStarted? && !e.Notified?
    ensures Sound(Happened(w, e).(owed := owed), soak)
  {
    JustifiedSnoc(w.history, e, soak);
    if w.pc.Deciding? || w.pc.Starting? {
      BackedSnoc(w.history, e, w.pc.p.since, w.pc.sighting, w.pc.mark, |w.history|);
    }
  }

  lemma ListenIsSound(s: Setup, w: World, a: Answer)
    requires Sound(w, s.soak) && w.pc.Asking?
    ensures Sound(Listen(s, w, a), s.soak)
  {
    JustifiedSnoc(w.history, Heard(a), s.soak);
  }

  lemma RecordIsSound(s: Setup, w: World, changed: seq<string>)
    requires Sound(w, s.soak) && w.pc.Answered? && w.pc.available
    ensures Sound(Record(s, w, changed), s.soak)
  {
    if w.track.pending.Some? {
      StandingSnoc(w, Confirmed(w.owed), s.soak, w.owed);
    } else {
      JustifiedSnoc(w.history, Sighted(w.now, changed, w.owed), s.soak);
    }
  }

  lemma BegunIsSound(s: Setup, w: World, accepted: bool)
    requires Sound(w, s.soak) && w.pc.Starting?
    ensures Sound(Begun(w, accepted), s.soak)
  {
    var e := AutoStarted(w.now, w.pc.p.since, w.owed, w.pc.sighting, w.pc.mark);
    JustifiedSnoc(w.history, e, s.soak);
  }

  lemma NotifyIsSound(s: Setup, w: World)
    requires Sound(w, s.soak) && w.owed > 0
    ensures Sound(Step(s, w, Notify), s.soak)
  {
    JustifiedSnoc(w.history, Notified, s.soak);
    if w.pc.Deciding? || w.pc.Starting? {
      BackedSnoc(w.history, Notified, w.pc.p.since, w.pc.sighting, w.pc.mark, |w.history|);
    }
  }

  lemma StepIsSound(s: Setup, w: World, a: Action)
    requires Sound(w, s.soak)
    ensures Sound(Step(s, w, a), s.soak)
  {
    match a
    case Answer(answer) => if w.pc.Asking? { ListenIsSound(s, w, answer); }
    case Settle =>
      if w.pc.Answered? && w.pc.available { RecordIsSound(s, w, w.pc.changed); }
      if w.pc.Answered? && !w.pc.available { JustifiedSnoc(w.history, Denied(w.pc.message), s.soak); }
    case Clear => JustifiedSnoc(w.history, Cleared, s.soak);
    case Start(accepted) => if w.pc.Starting? { BegunIsSound(s, w, accepted); }
    case BeginOther => StandingSnoc(w, OtherBegan, s.soak, w.owed);
    case Complete => StandingSnoc(w, Completed, s.soak, w.owed + 1);
    case Notify => if w.owed > 0 { NotifyIsSound(s, w); }
    case _ =>
  }

  /**
   Soak safety. In every run, whatever interleaves with the ticks, every
   automatic start comes at least `soak` after a recorded sighting; from that
   sighting on no check that answered said anything but available, no other
   automatic start came of it, and no completion was notified before the mark
   of the tick that starts.
   */
  lemma {:induction false} StartsAreJustified(s: Setup, now: int, actions: seq<Action>)
    ensures Sound(Exec(s, Initial(now), actions), s.soak)
    ensures AllJustified(Exec(s, Initial(now), actions).history, s.soak)
  {
    if actions != [] {
      StartsAreJustified(s, now, actions[..|actions| - 1]);
      StepIsSound(s, Exec(s, Initial(now), actions[..|actions| - 1]), actions[|actions| - 1]);
    }
  }

  // ------------------------------------------------- the count of callbacks

  function Change(e: Event): int {
    if e.Completed? then 1 else if e.Notified? then -1 else 0
  }

  /** Completions that await their callback before event `n`. */
  function Outstanding(h: seq<Event>, n: nat): int
    requires n <= |h|
  {
    if n == 0 then 0 else Outstanding(h, n - 1) + Change(h[n - 1])
  }

  /** How many events strictly between two positions are of this kind. */
  function Count(h: seq<Event>, i: nat, j: nat, kind: Kind): nat
    requires j <= |h|
  {
    if j <= i + 1 then 0 else Count(h, i, j - 1, kind) + (if Is(h[j - 1], kind) then 1 else 0)
  }

  /** The events that note how many callbacks are owed. */
  predicate Notes(e: Event) { e.Sighted? || e.Confirmed? || e.AutoStarted? }

  ghost predicate Ledger(h: seq<Event>, owed: int) {
    && owed == Outstanding(h, |h|)
    && forall i :: 0 <= i < |h| && Notes(h[i]) ==> h[i].owed == Outstanding(h, i)
  }

  lemma {:induction false} OutstandingSnoc(h: seq<Event>, e: Event, n: nat)
    requires n <= |h|
    ensures Outstanding(h + [e], n) == Outstanding(h, n)
  {
    if n > 0 { OutstandingSnoc(h, e, n - 1); }
  }

  lemma LedgerSnoc(h: seq<Event>, owed: int, e: Event)
    requires Ledger(h, owed) && (Notes(e) ==> e.owed == owed)
    ensures Ledger(h + [e], owed + Change(e))
  {
    var more := h + [e];
    OutstandingSnoc(h, e, |h|);
    forall i | 0 <= i < |more| && Notes(more[i]) ensures more[i].owed == Outstanding(more, i) {
      OutstandingSnoc(h, e, i);
    }
  }

  lemma StepLedger(s: Setup, w: World, a: Action)
    requires Ledger(w.history, w.owed)
    ensures Ledger(Step(s, w, a).history, Step(s, w, a).owed)
  {
    match a
    case Answer(answer) => LedgerSnoc(w.history, w.owed, Heard(answer));
    case Settle =>
      if w.pc.Answered? && w.pc.available {
        LedgerSnoc(w.history, w.owed, if w.track.pending.Some? then Confirmed(w.owed) else Sighted(w.now, w.pc.changed, w.owed));
      } else if w.pc.Answered? {
        LedgerSnoc(w.history, w.owed, Denied(w.pc.message));
      }
    case Start(_) =>
      if w.pc.Starting? {
        LedgerSnoc(w.history, w.owed, AutoStarted(w.now, w.pc.p.since, w.owed, w.pc.sighting, w.pc.mark));
      }
    case BeginOther => LedgerSnoc(w.history, w.owed, OtherBegan);
    case Complete => LedgerSnoc(w.history, w.owed, Completed);
    case Notify => LedgerSnoc(w.history, w.owed, Notified);
    case Clear => LedgerSnoc(w.history, w.owed, Cleared);
    case _ =>
  }

  lemma {:induction false} LedgerHolds(s: Setup, now: int, actions: seq<Action>)
    ensures
      var w := Exec(s, Initial(now), actions);
      Ledger(w.history, w.owed)
  {
    if actions != [] {
      LedgerHolds(s, now, actions[..|actions| - 1]);
      StepLedger(s, Exec(s, Initial(now), actions[..|actions| - 1]), actions[|actions| - 1]);
    }
  }

  /** Completions less callbacks between two positions are what the count of callbacks owed changes by. */
  lemma {:induction false} Balance(h: seq<Event>, i: nat, j: nat)
    requires i < j <= |h|
    ensures Count(h, i, j, Completion) - Count(h, i, j, Notification) == Outstanding(h, j) - Outstanding(h, i + 1)
  {
    if j > i + 1 { Balance(h, i, j - 1); }
  }

  lemma {:induction false} CountsNone(h: seq<Event>, i: nat, j: nat, kind: Kind)
    requires j <= |h|
    ensures Count(h, i, j, kind) == 0 <==> Without(h, i, j, kind)
  {
    if j > i + 1 { CountsNone(h, i, j - 1, kind); }
  }

  /** Between two notes no update completed exactly when the callbacks owed and those run since are no more than were owed. */
  lemma QuietIffSettled(h: seq<Event>, owed: int, i: nat, j: nat)
    requires Ledger(h, owed) && i < j < |h| && Notes(h[i]) && Notes(h[j])
    ensures Without(h, i, j, Completion) <==> h[j].owed + Count(h, i, j, Notification) <= h[i].owed
  {
    Balance(h, i, j);
    CountsNone(h, i, j, Completion);
  }

  /**
   No update completed between the sighting and the start exactly when the
   callbacks still owed at the start and those run since the sighting are
   together no more than were owed at the sighting. Up to the mark of the tick
   that starts no callback has run, so there the callbacks owed alone decide.
   */
  lemma CompletionsAreSeenUnlessOwed(s: Setup, now: int, actions: seq<Action>, k: nat)
    requires k < |Exec(s, Initial(now), actions).history| && Exec(s, Initial(now), actions).history[k].AutoStarted?
    ensures
      var h := Exec(s, Initial(now), actions).history;
      var i, m := h[k].sighting, h[k].mark;
      && i <= m < k && Notes(h[i]) && Notes(h[m])
      && (Without(h, i, k, Completion) <==> h[k].owed + Count(h, i, k, Notification) <= h[i].owed)
      && (Without(h, i, m, Completion) <==> h[m].owed <= h[i].owed)
  {
    var w := Exec(s, Initial(now), actions);
    var h := w.history;
    StartsAreJustified(s, now, actions);
    LedgerHolds(s, now, actions);
    assert Justified(h, k, s.soak);
    var i, m := h[k].sighting, h[k].mark;
    QuietIffSettled(h, w.owed, i, k);
    CountsNone(h, i, m, Notification);
    if i < m { QuietIffSettled(h, w.owed, i, m); }
  }

  // ------------------------------------------------ starts follow their check

  /** The latest answer heard. */
  function LastAnswer(h: seq<Event>): Option<Answer> {
    if h == [] then None
    else if h[|h| - 1].Heard? then Some(h[|h| - 1].answer)
    else LastAnswer(h[..|h| - 1])
  }

  predicate SaidAvailable(a: Option<Answer>) {
    a.Some? && a.value.Told? && a.value.available
  }

  /** What an event rests on: the answer the tick had just heard. */
  ghost predicate Follows(e: Event, a: Option<Answer>) {
    && (e.Sighted? ==> SaidAvailable(a) && a.value.changed == e.changed)
    && (e.Confirmed? || e.AutoStarted? ==> SaidAvailable(a))
    && (e.Denied? ==> a.Some? && a.value.Told? && !a.value.available && a.value.message == e.message)
  }

  ghost predicate AllFollow(h: seq<Event>) {
    forall k :: 0 <= k < |h| ==> FollowsAt(h, k)
  }

  ghost predicate FollowsAt(h: seq<Event>, k: nat)
    requires k < |h|
  {
    Follows(h[k], LastAnswer(h[..k]))
  }

  /** The answer a tick works with is the latest heard. */
  ghost predicate Remembers(w: World) {
    && (w.pc.Answered? ==> LastAnswer(w.history) == Some(Told(w.pc.available, w.pc.changed, w.pc.message)))
    && (w.pc.Deciding? || w.pc.Starting? ==> SaidAvailable(LastAnswer(w.history)))
  }

  lemma FollowsSnoc(h: seq<Event>, e: Event)
    requires AllFollow(h) && Follows(e, LastAnswer(h))
    ensures AllFollow(h + [e])
    ensures LastAnswer(h + [e]) == if e.Heard? then Some(e.answer) else LastAnswer(h)
  {
    var more := h + [e];
    assert more[..|h|] == h;
    forall k | 0 <= k < |more| ensures FollowsAt(more, k) {
      if k < |h| { assert more[..k] == h[..k] && FollowsAt(h, k); }
    }
  }

  /** An event of the tick or of somebody else keeps what the tick heard. */
  lemma EventFollows(w: World, e: Event, after: World)
    requires AllFollow(w.history) && Follows(e, LastAnswer(w.history)) && !e.Heard?
    requires after.history == w.history + [e]
    requires after.pc.Answered? || after.pc.Deciding? || after.pc.Starting? ==>
               (after.pc == w.pc && Remembers(w)) || (!after.pc.Answered? && SaidAvailable(LastAnswer(w.history)))
    ensures AllFollow(after.history) && Remembers(after)
  {
    FollowsSnoc(w.history, e);
  }

  lemma SettleFollows(s: Setup, w: World)
    requires AllFollow(w.history) && Remembers(w) && w.pc.Answered?
    ensures AllFollow(Step(s, w, Settle).history) && Remembers(Step(s, w, Settle))
  {
    var e := if !w.pc.available then Denied(w.pc.message)
             else if w.track.pending.Some? then Confirmed(w.owed)
             else Sighted(w.now, w.pc.changed, w.owed);
    EventFollows(w, e, Step(s, w, Settle));
  }

  lemma BegunFollows(s: Setup, w: World, accepted: bool)
    requires AllFollow(w.history) && Remembers(w) && w.pc.Starting?
    ensures AllFollow(Begun(w, accepted).history) && Remembers(Begun(w, accepted))
  {
    if !w.running && accepted {
      EventFollows(w, AutoStarted(w.now, w.pc.p.since, w.owed, w.pc.sighting, w.pc.mark), Begun(w, accepted));
    }
  }

  lemma StepFollows(s: Setup, w: World, a: Action)
    requires AllFollow(w.history) && Remembers(w)
    ensures AllFollow(Step(s, w, a).history) && Remembers(Step(s, w, a))
  {
    var after := Step(s, w, a);
    match a
    case Answer(answer) => if w.pc.Asking? { FollowsSnoc(w.history, Heard(answer)); }
    case Settle => if w.pc.Answered? { SettleFollows(s, w); }
    case Start(accepted) => if w.pc.Starting? { BegunFollows(s, w, accepted); }
    case Clear => if w.pc.Clearing? { EventFollows(w, Cleared, after); }
    case BeginOther => if !w.running { EventFollows(w, OtherBegan, after); }
    case Complete => if w.running { EventFollows(w, Completed, after); }
    case Notify => if w.owed > 0 { EventFollows(w, Notified, after); }
    case _ =>
  }

  /** In every run the latest answer before a sighting, a mark or an automatic start said available, and before a denial not. */
  lemma {:induction false} EventsFollowAnswers(s: Setup, now: int, actions: seq<Action>)
    ensures AllFollow(Exec(s, Initial(now), actions).history) && Remembers(Exec(s, Initial(now), actions))
  {
    if actions != [] {
      EventsFollowAnswers(s, now, actions[..|actions| - 1]);
      StepFollows(s, Exec(s, Initial(now), actions[..|actions| - 1]), actions[|actions| - 1]);
    }
  }

  // ------------------------------------------------------ one update at a time

  predicate Begins(e: Event) { e.AutoStarted? || e.OtherBegan? }

  /** Since event `i` an update has completed. */
  ghost predicate CompletedSince(h: seq<Event>, i: int, n: int) {
    exists k :: 0 <= k < |h| && i < k < n && h[k].Completed?
  }

  /** Between the beginnings of two updates one has completed. */
  ghost predicate Exclusive(h: seq<Event>) {
    forall i, j :: 0 <= i < j < |h| && Begins(h[i]) && Begins(h[j]) ==> CompletedSince(h, i, j)
  }

  /** While none is running, every update begun has been completed since. */
  ghost predicate Free(h: seq<Event>) {
    forall i :: 0 <= i < |h| && Begins(h[i]) ==> CompletedSince(h, i, |h|)
  }

  lemma ExclusiveSnoc(h: seq<Event>, e: Event)
    requires Exclusive(h) && (Begins(e) ==> Free(h))
    ensures Exclusive(h + [e])
    ensures e.Completed? || (Free(h) && !Begins(e)) ==> Free(h + [e])
  {
    var more := h + [e];
    forall i, j | 0 <= i < j < |more| && Begins(more[i]) && Begins(more[j]) ensures CompletedSince(more, i, j) {
      assert CompletedSince(h, i, j);
      var k :| 0 <= k < |h| && i < k < j && h[k].Completed?;
      assert more[k].Completed?;
    }
    if e.Completed? {
      assert more[|h|].Completed?;
    } else if Free(h) && !Begins(e) {
      forall i | 0 <= i < |more| && Begins(more[i]) ensures CompletedSince(more, i, |more|) {
        assert CompletedSince(h, i, |h|);
        var k :| 0 <= k < |h| && i < k < |h| && h[k].Completed?;
        assert more[k].Completed?;
      }
    }
  }

  lemma StepExclusive(s: Setup, w: World, a: Action)
    requires Exclusive(w.history) && (w.running || Free(w.history))
    ensures
      var after := Step(s, w, a);
      Exclusive(after.history) && (after.running || Free(after.history))
  {
    match a
    case Answer(answer) => ExclusiveSnoc(w.history, Heard(answer));
    case Settle =>
      if w.pc.Answered? && w.pc.available {
        ExclusiveSnoc(w.history, if w.track.pending.Some? then Confirmed(w.owed) else Sighted(w.now, w.pc.changed, w.owed));
      } else if w.pc.Answered? {
        ExclusiveSnoc(w.history, Denied(w.pc.message));
      }
    case Start(_) =>
      if w.pc.Starting? && !w.running {
        ExclusiveSnoc(w.history, AutoStarted(w.now, w.pc.p.since, w.owed, w.pc.sighting, w.pc.mark));
      }
    case Clear => ExclusiveSnoc(w.history, Cleared);
    case BeginOther => if !w.running { ExclusiveSnoc(w.history, OtherBegan); }
    case Complete => ExclusiveSnoc(w.history, Completed);
    case Notify => ExclusiveSnoc(w.history, Notified);
    case _ =>
  }

  /** In every run at most one update of the target runs at a time, whoever began it. */
  lemma {:induction false} UpdatesAreExclusive(s: Setup, now: int, actions: seq<Action>)
    ensures
      var w := Exec(s, Initial(now), actions);
      Exclusive(w.history) && (w.running || Free(w.history))
  {
    if actions != [] {
      UpdatesAreExclusive(s, now, actions[..|actions| - 1]);
      StepExclusive(s, Exec(s, Initial(now), actions[..|actions| - 1]), actions[|actions| - 1]);
    }
  }
}
