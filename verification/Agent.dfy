/**
 The agent's locks and slots (internal/agentd/server.go) beside the API that
 asks it for work (internal/job/manager.go). The two are separate processes:
 the agent finishes an update whoever has stopped waiting for it.
 */
module Agent {
  const MAX_CONCURRENT: nat := 3
  const OK := 200
  const CONFLICT := 409
  const UNAVAILABLE := 503

  class Server {
    var running: set<string>
    var slots: nat

    ghost predicate Valid()
      reads this
    {
      slots <= MAX_CONCURRENT
    }

    constructor ()
      ensures Valid() && running == {} && slots == 0
    {
      running, slots := {}, 0;
    }

    method Acquire(target: string) returns (ok: bool)
      modifies this`running
      ensures ok <==> target !in old(running)
      ensures running == old(running) + {target}
    {
      if target in running { return false; }
      running := running + {target};
      ok := true;
    }

    method Release(target: string)
      modifies this`running
      ensures running == old(running) - {target}
    {
      running := running - {target};
    }

    /** The non-blocking send on the slot channel. */
    method TakeSlot() returns (ok: bool)
      requires Valid()
      modifies this`slots
      ensures Valid() && (ok <==> old(slots) < MAX_CONCURRENT)
      ensures slots == old(slots) + if ok then 1 else 0
    {
      ok := slots < MAX_CONCURRENT;
      if ok { slots := slots + 1; }
    }

    method FreeSlot()
      requires Valid() && slots > 0
      modifies this`slots
      ensures Valid() && slots == old(slots) - 1
    {
      slots := slots - 1;
    }

    /** A handler from its lock to its last deferred release, with nothing in between. */
    method Handle(target: string) returns (status: int)
      requires Valid()
      modifies this
      ensures Valid() && running == old(running) && slots == old(slots)
      ensures status == 409 <==> target in old(running)
      ensures status == 503 <==> target !in old(running) && old(slots) == 3
      ensures status in {200, 409, 503}
    {
      var locked := Acquire(target);
      if !locked { return CONFLICT; }
      var slotted := TakeSlot();
      status := UNAVAILABLE;
      if slotted {
        status := OK;
        FreeSlot();
      }
      Release(target);
    }
  }

  // -------------------------------------------------------- the two processes

  /** A handler serves an update job of the API, or a check. */
  datatype Work = Update(job: nat) | Check

  datatype Stage = Arrived | Locked | Working | Leaving(status: int) | Gone(status: int)

  datatype Handler = Handler(target: string, work: Work, stage: Stage)

  datatype ApiJob = ApiJob(target: string, sent: bool, ended: bool)

  datatype System = System(running: set<string>, slots: nat, handlers: seq<Handler>, live: map<string, nat>, jobs: seq<ApiJob>)

  const START := System({}, 0, [], map[], [])

  datatype Action =
    | Begin(target: string) // the API registers a job, unless one is live
    | Send(job: nat) // the job's request reaches the agent
    | AskCheck(target: string)
    | End(job: nat) // the API hears the result, or gives up at any moment
    | Acquire(i: nat) | TakeSlot(i: nat) | Finish(i: nat) | Release(i: nat)

  function Move(s: System, i: nat, stage: Stage): System
    requires i < |s.handlers|
  {
    s.(handlers := s.handlers[i := s.handlers[i].(stage := stage)])
  }

  predicate IsAt(s: System, i: nat, stage: Stage) {
    i < |s.handlers| && s.handlers[i].stage == stage
  }

  function Locking(s: System, i: nat): System
    requires IsAt(s, i, Arrived)
  {
    if s.handlers[i].target in s.running then Move(s, i, Gone(CONFLICT))
    else Move(s, i, Locked).(running := s.running + {s.handlers[i].target})
  }

  function Slotting(s: System, i: nat): System
    requires IsAt(s, i, Locked)
  {
    if s.slots < MAX_CONCURRENT then Move(s, i, Working).(slots := s.slots + 1) else Move(s, i, Leaving(UNAVAILABLE))
  }

  /** One step; an action that is not possible changes nothing. */
  function Step(s: System, a: Action): System {
    match a
    case Begin(target) =>
      if target in s.live then s
      else s.(live := s.live[target := |s.jobs|], jobs := s.jobs + [ApiJob(target, false, false)])
    case Send(job) =>
      if job >= |s.jobs| || s.jobs[job].sent then s
      else s.(jobs := s.jobs[job := s.jobs[job].(sent := true)],
              handlers := s.handlers + [Handler(s.jobs[job].target, Update(job), Arrived)])
    case AskCheck(target) => s.(handlers := s.handlers + [Handler(target, Check, Arrived)])
    case End(job) =>
      if job >= |s.jobs| || s.jobs[job].ended then s
      else s.(jobs := s.jobs[job := s.jobs[job].(ended := true)], live := s.live - {s.jobs[job].target})
    case Acquire(i) => if IsAt(s, i, Arrived) then Locking(s, i) else s
    case TakeSlot(i) => if IsAt(s, i, Locked) then Slotting(s, i) else s
    case Finish(i) =>
      if IsAt(s, i, Working) && s.slots > 0 then Move(s, i, Leaving(OK)).(slots := s.slots - 1) else s
    case Release(i) =>
      if i < |s.handlers| && s.handlers[i].stage.Leaving?
      then Move(s, i, Gone(s.handlers[i].stage.status)).(running := s.running - {s.handlers[i].target}) else s
  }

  function Exec(s: System, actions: seq<Action>): System {
    if actions == [] then s else Step(Exec(s, actions[..|actions| - 1]), actions[|actions| - 1])
  }

  // ------------------------------------------------------------- invariants

  predicate Holds(h: Handler) {
    h.stage.Locked? || h.stage.Working? || h.stage.Leaving?
  }

  function Holders(handlers: seq<Handler>): set<nat> {
    set i | 0 <= i < |handlers| && Holds(handlers[i])
  }

  function Workers(handlers: seq<Handler>): set<nat> {
    set i | 0 <= i < |handlers| && handlers[i].stage.Working?
  }

  /** The locks held are exactly those of the handlers in flight, one each. */
  ghost predicate LocksMatch(s: System) {
    && s.running == (set i | i in Holders(s.handlers) :: s.handlers[i].target)
    && (forall i, k :: i in Holders(s.handlers) && k in Holders(s.handlers) && i != k ==>
          s.handlers[i].target != s.handlers[k].target)
  }

  /** The slots taken are exactly those of the handlers at work, never more than there are. */
  ghost predicate SlotsMatch(s: System) {
    s.slots == |Workers(s.handlers)| <= MAX_CONCURRENT
  }

  /** The API has one live job per target, and each request belongs to one job. */
  ghost predicate JobsMatch(s: System) {
    && (forall t :: t in s.live ==> s.live[t] < |s.jobs| && s.jobs[s.live[t]].target == t)
    && (forall j :: 0 <= j < |s.jobs| ==>
          (!s.jobs[j].ended <==> s.jobs[j].target in s.live && s.live[s.jobs[j].target] == j))
    && (forall i :: 0 <= i < |s.handlers| && s.handlers[i].work.Update? ==>
          var j := s.handlers[i].work.job; j < |s.jobs| && s.jobs[j].sent && s.jobs[j].target == s.handlers[i].target)
    && (forall i, k :: 0 <= i < k < |s.handlers| && s.handlers[i].work.Update? ==> s.handlers[i].work != s.handlers[k].work)
  }

  ghost predicate Inv(s: System) {
    LocksMatch(s) && SlotsMatch(s) && JobsMatch(s)
  }

  lemma MoveSets(s: System, i: nat, stage: Stage)
    requires i < |s.handlers|
    ensures
      var after := Move(s, i, stage).handlers;
      && Workers(after) == (if stage.Working? then Workers(s.handlers) + {i} else Workers(s.handlers) - {i})
      && Holders(after) == (if Holds(after[i]) then Holders(s.handlers) + {i} else Holders(s.handlers) - {i})
  {
  }

  lemma MoveJobs(s: System, i: nat, stage: Stage)
    requires i < |s.handlers| && JobsMatch(s)
    ensures JobsMatch(Move(s, i, stage))
  {
    var after := Move(s, i, stage).handlers;
    assert forall k :: 0 <= k < |after| ==> after[k].work == s.handlers[k].work && after[k].target == s.handlers[k].target;
  }

  lemma ArriveKeeps(s: System, h: Handler)
    requires LocksMatch(s) && SlotsMatch(s) && h.stage.Arrived?
    ensures
      var after := s.(handlers := s.handlers + [h]);
      LocksMatch(after) && SlotsMatch(after)
  {
    var more := s.handlers + [h];
    assert Holders(more) == Holders(s.handlers) && Workers(more) == Workers(s.handlers);
    assert forall i :: i in Holders(s.handlers) ==> more[i] == s.handlers[i];
  }

  lemma LockTaken(s: System, i: nat)
    requires LocksMatch(s) && IsAt(s, i, Arrived) && s.handlers[i].target !in s.running
    ensures LocksMatch(Locking(s, i))
  {
    var after := Locking(s, i);
    MoveSets(s, i, Locked);
    var held := set k | k in Holders(after.handlers) :: after.handlers[k].target;
    forall t | t in after.running ensures t in held {
      if t == s.handlers[i].target {
        assert i in Holders(after.handlers);
      } else {
        var k :| k in Holders(s.handlers) && s.handlers[k].target == t;
        assert k in Holders(after.handlers) && after.handlers[k].target == t;
      }
    }
    forall k | k in Holders(s.handlers) ensures after.handlers[k] == s.handlers[k] && s.handlers[k].target in s.running {}
  }

  lemma LockRefused(s: System, i: nat)
    requires LocksMatch(s) && IsAt(s, i, Arrived)
    ensures LocksMatch(Move(s, i, Gone(CONFLICT)))
  {
    var after := Move(s, i, Gone(CONFLICT));
    MoveSets(s, i, Gone(CONFLICT));
    assert Holders(after.handlers) == Holders(s.handlers);
    assert forall k :: 0 <= k < |s.handlers| ==> after.handlers[k].target == s.handlers[k].target;
    assert (set k | k in Holders(after.handlers) :: after.handlers[k].target) ==
           (set k | k in Holders(s.handlers) :: s.handlers[k].target);
  }

  lemma LockingKeeps(s: System, i: nat)
    requires Inv(s) && IsAt(s, i, Arrived)
    ensures Inv(Locking(s, i))
  {
    var stage := Locking(s, i).handlers[i].stage;
    MoveSets(s, i, stage);
    MoveJobs(s, i, stage);
    assert i !in Workers(s.handlers);
    if s.handlers[i].target in s.running { LockRefused(s, i); } else { LockTaken(s, i); }
  }

  /** A holder that goes on holding keeps every lock as it is. */
  lemma HoldingKeeps(s: System, i: nat, stage: Stage)
    requires LocksMatch(s) && i < |s.handlers| && Holds(s.handlers[i]) && Holds(s.handlers[i].(stage := stage))
    ensures LocksMatch(Move(s, i, stage))
  {
    var after := Move(s, i, stage);
    MoveSets(s, i, stage);
    assert Holders(after.handlers) == Holders(s.handlers);
    assert forall k :: 0 <= k < |s.handlers| ==> after.handlers[k].target == s.handlers[k].target;
    assert (set k | k in Holders(after.handlers) :: after.handlers[k].target) ==
           (set k | k in Holders(s.handlers) :: s.handlers[k].target);
  }

  lemma LockReleased(s: System, i: nat)
    requires LocksMatch(s) && i < |s.handlers| && s.handlers[i].stage.Leaving?
    ensures LocksMatch(Step(s, Release(i)))
  {
    var after := Step(s, Release(i));
    MoveSets(s, i, after.handlers[i].stage);
    assert i in Holders(s.handlers);
    forall t | t in after.running ensures t in (set k | k in Holders(after.handlers) :: after.handlers[k].target) {
      var k :| k in Holders(s.handlers) && s.handlers[k].target == t;
      assert k in Holders(after.handlers) && after.handlers[k] == s.handlers[k];
    }
  }

  lemma ReleaseKeeps(s: System, i: nat)
    requires Inv(s) && i < |s.handlers| && s.handlers[i].stage.Leaving?
    ensures Inv(Step(s, Release(i)))
  {
    var stage := Gone(s.handlers[i].stage.status);
    LockReleased(s, i);
    MoveSets(s, i, stage);
    MoveJobs(s, i, stage);
    assert i !in Workers(s.handlers);
  }

  lemma SlottingKeeps(s: System, i: nat)
    requires Inv(s) && IsAt(s, i, Locked)
    ensures Inv(Slotting(s, i))
  {
    var stage := Slotting(s, i).handlers[i].stage;
    MoveSets(s, i, stage);
    MoveJobs(s, i, stage);
    HoldingKeeps(s, i, stage);
  }

  lemma FinishKeeps(s: System, i: nat)
    requires Inv(s) && IsAt(s, i, Working)
    ensures Inv(Step(s, Finish(i)))
  {
    assert i in Workers(s.handlers);
    MoveSets(s, i, Leaving(OK));
    MoveJobs(s, i, Leaving(OK));
    HoldingKeeps(s, i, Leaving(OK));
  }

  lemma SendKeeps(s: System, job: nat)
    requires Inv(s) && job < |s.jobs| && !s.jobs[job].sent
    ensures Inv(Step(s, Send(job)))
  {
    ArriveKeeps(s, Handler(s.jobs[job].target, Update(job), Arrived));
    var after := Step(s, Send(job));
    assert forall i :: 0 <= i < |s.handlers| ==> after.handlers[i] == s.handlers[i];
  }

  lemma EndKeeps(s: System, job: nat)
    requires JobsMatch(s) && job < |s.jobs| && !s.jobs[job].ended
    ensures JobsMatch(Step(s, End(job)))
  {
  }

  lemma StepKeeps(s: System, a: Action)
    requires Inv(s)
    ensures Inv(Step(s, a))
  {
    match a
    case Begin(_) =>
    case Send(job) => if job < |s.jobs| && !s.jobs[job].sent { SendKeeps(s, job); }
    case AskCheck(target) => ArriveKeeps(s, Handler(target, Check, Arrived));
    case End(job) => if job < |s.jobs| && !s.jobs[job].ended { EndKeeps(s, job); }
    case Acquire(i) => if IsAt(s, i, Arrived) { LockingKeeps(s, i); }
    case TakeSlot(i) => if IsAt(s, i, Locked) { SlottingKeeps(s, i); }
    case Finish(i) => if IsAt(s, i, Working) { FinishKeeps(s, i); }
    case Release(i) => if i < |s.handlers| && s.handlers[i].stage.Leaving? { ReleaseKeeps(s, i); }
  }

  // -------------------------------------------------------------- main results

  /**
   In every reachable state the locks and slots match the handlers in flight,
   at most one handler works on a target and at most three work at all,
   whatever the API has begun, abandoned and begun again.
   */
  lemma {:induction false} MutualExclusion(actions: seq<Action>)
    ensures Inv(Exec(START, actions))
    ensures
      var hs := Exec(START, actions).handlers;
      && (forall i, k :: 0 <= i < k < |hs| && hs[i].stage.Working? && hs[k].stage.Working? ==> hs[i].target != hs[k].target)
      && |Workers(hs)| <= 3
      && !exists i, j, k, l :: 0 <= i < j < k < l < |hs| && hs[i].stage.Working? && hs[j].stage.Working?
           && hs[k].stage.Working? && hs[l].stage.Working?
  {
    if actions != [] {
      MutualExclusion(actions[..|actions| - 1]);
      StepKeeps(Exec(START, actions[..|actions| - 1]), actions[|actions| - 1]);
    }
    Excludes(Exec(START, actions));
  }

  /** What the invariant says about the handlers at work. */
  lemma Excludes(s: System)
    requires LocksMatch(s) && SlotsMatch(s)
    ensures forall i, k :: 0 <= i < k < |s.handlers| && s.handlers[i].stage.Working? && s.handlers[k].stage.Working? ==>
              s.handlers[i].target != s.handlers[k].target
    ensures |Workers(s.handlers)| <= 3
    ensures !exists i, j, k, l :: 0 <= i < j < k < l < |s.handlers| && s.handlers[i].stage.Working? && s.handlers[j].stage.Working?
              && s.handlers[k].stage.Working? && s.handlers[l].stage.Working?
  {
    forall i, k | 0 <= i < k < |s.handlers| && s.handlers[i].stage.Working? && s.handlers[k].stage.Working?
      ensures s.handlers[i].target != s.handlers[k].target
    {
      assert i in Holders(s.handlers) && k in Holders(s.handlers);
    }
    NoFour(s.handlers);
  }

  lemma NoFour(hs: seq<Handler>)
    requires |Workers(hs)| <= 3
    ensures !exists i, j, k, l :: 0 <= i < j < k < l < |hs| && hs[i].stage.Working? && hs[j].stage.Working?
              && hs[k].stage.Working? && hs[l].stage.Working?
  {
    forall i: nat, j: nat, k: nat, l: nat | i < j < k < l < |hs| && hs[i].stage.Working? && hs[j].stage.Working? && hs[k].stage.Working?
      ensures !hs[l].stage.Working?
    {
      if hs[l].stage.Working? {
        assert {i, j, k, l} <= Workers(hs) && |{i, j, k, l}| == 4;
        SubsetSize({i, j, k, l}, Workers(hs));
      }
    }
  }

  lemma {:induction false} SubsetSize(a: set<nat>, b: set<nat>)
    requires a <= b
    ensures |a| <= |b|
  {
    if a != {} {
      var x :| x in a;
      SubsetSize(a - {x}, b - {x});
    }
  }

  /** Locks and slots are never lost: once every handler is gone, none is held. */
  lemma NothingLeaks(actions: seq<Action>)
    ensures
      var s := Exec(START, actions);
      (forall i :: 0 <= i < |s.handlers| ==> s.handlers[i].stage.Gone?) ==> s.running == {} && s.slots == 0
  {
    var s := Exec(START, actions);
    MutualExclusion(actions);
    if forall i :: 0 <= i < |s.handlers| ==> s.handlers[i].stage.Gone? {
      assert Holders(s.handlers) == {} && Workers(s.handlers) == {};
    }
  }

  /**
   An update the API has stopped waiting for still excludes: the next job for
   that target is accepted by the API and refused by the agent.
   */
  lemma AbandonedUpdateExcludes(actions: seq<Action>, i: nat)
    requires i in Workers(Exec(START, actions).handlers)
    requires Exec(START, actions).handlers[i].target !in Exec(START, actions).live
    ensures
      var s := Exec(START, actions);
      var target, job, n := s.handlers[i].target, |s.jobs|, |s.handlers|;
      var after := Exec(START, actions + [Begin(target), Send(job), Acquire(n)]);
      && after.live == s.live[target := job]
      && after.handlers == s.handlers + [Handler(target, Update(job), Gone(409))]
      && after.running == s.running && after.slots == s.slots
  {
    var s := Exec(START, actions);
    var target, job, n := s.handlers[i].target, |s.jobs|, |s.handlers|;
    MutualExclusion(actions);
    assert i in Holders(s.handlers);
    assert target in s.running;
    ExecThree(actions, Begin(target), Send(job), Acquire(n));
    RefusedAtOnce(s, target, job, n);
  }

  /** A job begun and sent for a target that the agent holds. */
  lemma RefusedAtOnce(s: System, target: string, job: nat, n: nat)
    requires target in s.running && target !in s.live && job == |s.jobs| && n == |s.handlers|
    ensures
      var after := Step(Step(Step(s, Begin(target)), Send(job)), Acquire(n));
      && after.live == s.live[target := job]
      && after.handlers == s.handlers + [Handler(target, Update(job), Gone(409))]
      && after.running == s.running && after.slots == s.slots
  {
    var sent := Step(Step(s, Begin(target)), Send(job));
    assert sent.handlers == s.handlers + [Handler(target, Update(job), Arrived)];
    assert IsAt(sent, n, Arrived);
  }

  /** A handler that holds its lock is turned away exactly when three others are at work, whatever their targets. */
  lemma UnavailableIffFull(actions: seq<Action>, i: nat)
    requires IsAt(Exec(START, actions), i, Locked)
    ensures
      var s := Exec(START, actions);
      && i !in Workers(s.handlers)
      && (Slotting(s, i).handlers[i].stage == Leaving(503) <==> |Workers(s.handlers)| == 3)
      && (Slotting(s, i).handlers[i].stage == Working <==> |Workers(s.handlers)| < 3)
  {
    MutualExclusion(actions);
  }

  /** A handler that arrives is refused exactly when another one is in flight on its target, update or check. */
  lemma RefusedIffHeld(actions: seq<Action>, i: nat)
    requires IsAt(Exec(START, actions), i, Arrived)
    ensures
      var s := Exec(START, actions);
      Locking(s, i).handlers[i].stage == Gone(409) <==>
      exists k :: 0 <= k < |s.handlers| && s.handlers[k].target == s.handlers[i].target &&
        (s.handlers[k].stage == Locked || s.handlers[k].stage == Working || s.handlers[k].stage.Leaving?)
  {
    var s := Exec(START, actions);
    MutualExclusion(actions);
    if s.handlers[i].target in s.running {
      var k :| k in Holders(s.handlers) && s.handlers[k].target == s.handlers[i].target;
    }
    forall k: nat | k < |s.handlers| && s.handlers[k].target == s.handlers[i].target && Holds(s.handlers[k])
      ensures s.handlers[i].target in s.running
    {
      assert k in Holders(s.handlers);
    }
  }

  /** The API no longer waits for this update. */
  predicate Over(s: System, work: Work) {
    work.Update? && work.job < |s.jobs| && s.jobs[work.job].ended
  }

  lemma ExecThree(actions: seq<Action>, a: Action, b: Action, c: Action)
    ensures Exec(START, actions + [a, b, c]) == Step(Step(Step(Exec(START, actions), a), b), c)
  {
    var all := actions + [a, b, c];
    assert all[..|actions| + 2] == actions + [a, b] && (actions + [a, b])[..|actions| + 1] == actions + [a];
    assert (actions + [a])[..|actions|] == actions;
    assert Exec(START, actions + [a]) == Step(Exec(START, actions), a);
    assert Exec(START, actions + [a, b]) == Step(Exec(START, actions + [a]), b);
  }

  /**
   Why an update may meet a conflict: a check holds the lock, or one of the two
   jobs has ended at the API, abandoned or heard before the lock was let go.
   Two live jobs never meet at the agent.
   */
  lemma ConflictIsExplained(actions: seq<Action>, i: nat)
    requires IsAt(Exec(START, actions), i, Arrived) && Exec(START, actions).handlers[i].work.Update?
    ensures
      var s := Exec(START, actions);
      Locking(s, i).handlers[i].stage == Gone(409) <==>
      exists k :: k in Holders(s.handlers) && s.handlers[k].target == s.handlers[i].target &&
        (s.handlers[k].work.Check? || Over(s, s.handlers[k].work) || Over(s, s.handlers[i].work))
  {
    var s := Exec(START, actions);
    MutualExclusion(actions);
    if s.handlers[i].target in s.running {
      var k :| k in Holders(s.handlers) && s.handlers[k].target == s.handlers[i].target;
      assert k != i;
      if s.handlers[k].work.Update? { assert s.handlers[k].work.job != s.handlers[i].work.job; }
    }
  }
}
