/**
 The store of recent jobs (internal/job/job.go) and the manager's bookkeeping
 around one run (internal/job/manager.go). Job ids are fresh by assumption.
 */
module Stores {
  import opened Wrappers
  import opened Jobs

  const HISTORY: nat := 200

  /** Newest first, only `target` if one is named. */
  function Selected(jobs: seq<Job>, target: string): seq<Job> {
    if jobs == [] then []
    else
      var last := jobs[|jobs| - 1];
      (if target == "" || last.target == target then [last] else []) + Selected(jobs[..|jobs| - 1], target)
  }

  /** The first `limit` elements; a limit that is not positive means all. */
  function Take<T>(s: seq<T>, limit: int): seq<T> {
    if 0 < limit < |s| then s[..limit] else s
  }

  /** What a listing shows of a job. */
  function Summary(v: View): View {
    v.(steps := [], before := [], after := [])
  }

  /** Everything but the steps and the containers before and after. */
  lemma SummaryKeeps(v: View)
    ensures
      var s := Summary(v);
      && s.state == v.state && s.message == v.message && s.changed == v.changed && s.progress == v.progress
      && s.logBytes == v.logBytes && s.finishedAt == v.finishedAt && s.steps == [] && s.before == [] && s.after == []
  {
  }

  ghost predicate DistinctIds(jobs: seq<Job>) {
    forall i, k :: 0 <= i < k < |jobs| ==> jobs[i].id != jobs[k].id
  }

  /** `order` and the index hold exactly the jobs of `kept`. */
  ghost predicate Index(kept: seq<Job>, order: seq<string>, index: map<string, Job>) {
    && |order| == |kept|
    && (forall i :: 0 <= i < |kept| ==> order[i] == kept[i].id && order[i] in index && index[order[i]] == kept[i])
    && (forall id :: id in index ==> id in order)
  }

  /** `running` holds exactly the unfinished jobs, under their targets. */
  ghost predicate Live(begun: seq<Job>, running: map<string, Job>)
    reads begun
  {
    && (forall i :: 0 <= i < |begun| && !Terminal(begun[i].state) ==>
          begun[i].target in running && running[begun[i].target] == begun[i])
    && (forall t :: t in running ==> running[t] in begun && running[t].target == t && !Terminal(running[t].state))
  }

  ghost predicate AllValid(begun: seq<Job>)
    reads begun
  {
    forall i :: 0 <= i < |begun| ==> begun[i].Valid()
  }

  lemma IndexSnoc(kept: seq<Job>, order: seq<string>, index: map<string, Job>, job: Job)
    requires Index(kept, order, index) && DistinctIds(kept + [job])
    ensures Index(kept + [job], order + [job.id], index[job.id := job])
  {
    forall i | 0 <= i < |kept| ensures kept[i].id != job.id {
      assert (kept + [job])[i] == kept[i] && (kept + [job])[|kept|] == job;
    }
  }

  lemma IndexDrop(kept: seq<Job>, order: seq<string>, index: map<string, Job>)
    requires Index(kept, order, index) && DistinctIds(kept) && kept != []
    ensures Index(kept[1..], order[1..], index - {order[0]})
  {
    forall id | id in index - {order[0]} ensures id in order[1..] {
      var i :| 0 <= i < |order| && order[i] == id;
      assert order[1..][i - 1] == id;
    }
  }

  lemma DistinctSnoc(begun: seq<Job>, job: Job)
    requires DistinctIds(begun) && forall i :: 0 <= i < |begun| ==> begun[i].id != job.id
    ensures DistinctIds(begun + [job])
  {
  }

  lemma LiveSnoc(begun: seq<Job>, running: map<string, Job>, job: Job)
    requires Live(begun, running) && job.target !in running && !Terminal(job.state)
    ensures Live(begun + [job], running[job.target := job])
  {
    var more := begun + [job];
    assert more[|begun|] == job;
    assert forall i :: 0 <= i < |begun| ==> more[i] == begun[i];
  }

  ghost function Recent(begun: seq<Job>): seq<Job> {
    if |begun| <= HISTORY then begun else begun[|begun| - HISTORY..]
  }

  function Evicted(order: seq<string>, index: map<string, Job>): (seq<string>, map<string, Job>) {
    if |order| <= HISTORY then (order, index) else Evicted(order[1..], index - {order[0]})
  }

  lemma AddIsIndexed(begun: seq<Job>, order: seq<string>, index: map<string, Job>, job: Job)
    requires Index(Recent(begun), order, index) && DistinctIds(begun + [job])
    ensures
      var (o, m) := Evicted(order + [job.id], index[job.id := job]);
      Index(Recent(begun + [job]), o, m)
  {
    var kept, longer := Recent(begun), Recent(begun) + [job];
    assert longer == (begun + [job])[|begun| + 1 - |longer|..];
    SuffixDistinct(begun + [job], |begun| + 1 - |longer|, longer);
    IndexSnoc(kept, order, index, job);
    RecentSnoc(begun, job);
    EvictsOne(order + [job.id], index[job.id := job]);
    if |longer| > HISTORY { IndexDrop(longer, order + [job.id], index[job.id := job]); }
  }

  lemma RecentSnoc(begun: seq<Job>, job: Job)
    ensures
      var longer := Recent(begun) + [job];
      Recent(begun + [job]) == if |longer| > HISTORY then longer[1..] else longer
  {
  }

  lemma EvictsOne(order: seq<string>, index: map<string, Job>)
    requires |order| <= HISTORY + 1
    ensures Evicted(order, index) == if |order| > HISTORY then (order[1..], index - {order[0]}) else (order, index)
  {
  }

  class Store {
    var jobs: map<string, Job>
    var order: seq<string>
    var running: map<string, Job>
    /** Every job ever begun, oldest first. */
    ghost var begun: seq<Job>

    /** The jobs still listed. */
    ghost function Retained(): seq<Job>
      reads this
    {
      Recent(begun)
    }

    /** The listing is in order, and what runs are jobs begun, under their targets. */
    ghost predicate Filed()
      reads this
    {
      && DistinctIds(begun) && Index(Retained(), order, jobs)
      && forall t :: t in running ==> running[t] in begun && running[t].target == t
    }

    /** And what runs is exactly what has not ended. */
    ghost predicate Valid()
      reads this, begun
    {
      Filed() && AllValid(begun) && Live(begun, running)
    }

    constructor ()
      ensures Valid() && begun == [] && running == map[]
    {
      jobs, order, running, begun := map[], [], map[], [];
    }

    method Begin(target: string, id: string) returns (job: Job, busy: bool)
      requires Filed() && forall i :: 0 <= i < |begun| ==> begun[i].id != id
      modifies this
      ensures Filed() && (old(Valid()) ==> Valid())
      ensures busy <==> target in old(running)
      ensures busy ==> job == old(running)[target] && begun == old(begun) && running == old(running) && order == old(order)
      ensures !busy ==> fresh(job) && job.id == id && job.target == target && job.ToView() == FRESH && job.Valid()
      ensures !busy ==> begun == old(begun) + [job] && running == old(running)[target := job]
    {
      if target in running { return running[target], true; }
      busy := false;
      job := new Job(id, target);
      Register(job);
    }

    /** Make a job its target's running one. */
    method Register(job: Job)
      requires Filed() && job.target !in running && !Terminal(job.state) && forall i :: 0 <= i < |begun| ==> begun[i].id != job.id
      modifies this
      ensures Filed() && (old(Valid()) && job.Valid() ==> Valid())
      ensures begun == old(begun) + [job] && running == old(running)[job.target := job]
    {
      DistinctSnoc(begun, job);
      if Live(begun, running) { LiveSnoc(begun, running, job); }
      running := running[job.target := job];
      Enlist(job);
    }

    /** Index a new job and evict the oldest if there are too many. */
    method Enlist(job: Job)
      requires DistinctIds(begun + [job]) && Index(Retained(), order, jobs)
      modifies this`jobs, this`order, this`begun
      ensures begun == old(begun) + [job] && Index(Retained(), order, jobs)
    {
      AddIsIndexed(begun, order, jobs, job);
      jobs := jobs[job.id := job];
      order := order + [job.id];
      begun := begun + [job];
      Evict();
    }

    /** The loop that keeps the listing within its bound. */
    method Evict()
      modifies this`order, this`jobs
      ensures (order, jobs) == Evicted(old(order), old(jobs))
    {
      while |order| > HISTORY
        invariant Evicted(order, jobs) == Evicted(old(order), old(jobs))
      {
        var oldest := order[0];
        order := order[1..];
        jobs := jobs - {oldest};
      }
    }

    /**
     End a job and let its target go. The store stays sound exactly when the job has
     ended: told that it is still running, it forgets a job that is.
     */
    method Complete(job: Job, state: State, message: Bytes, now: int)
      requires Filed() && job in begun
      modifies this`running, job
      ensures job.ToView() == Finished(old(job.ToView()), state, message, now)
      ensures job.closes == old(job.closes) + if Terminal(old(job.state)) then 0 else 1
      ensures Filed() && forall t :: t in running <==> t in old(running) && (t != job.target || old(running)[t] != job)
      ensures forall t :: t in running ==> running[t] == old(running)[t]
      ensures old(Valid()) ==> (job.target in running ==> Terminal(old(job.state)))
      ensures old(Valid()) ==> (Valid() <==> Terminal(old(job.state)) || Terminal(state))
    {
      ghost var ended, valid := Terminal(job.state), Valid();
      job.Finish(state, message, now);
      LetGo(job);
      if valid {
        if ended || Terminal(state) {
          assert AllValid(begun) && Live(begun, running);
        } else {
          Unsound(begun, job);
        }
      }
    }

    /** Forget a job that is its target's running one. */
    method LetGo(job: Job)
      requires DistinctIds(begun) && job in begun && forall t :: t in running ==> running[t] in begun
      modifies this`running
      ensures running == if job.target in old(running) && old(running)[job.target] == job then old(running) - {job.target} else old(running)
    {
      if job.target in running && running[job.target].id == job.id {
        SameIdSameJob(begun, running[job.target], job);
        running := running - {job.target};
      }
    }

    /** The target's live job; a target without one has only jobs that have ended. */
    method Running(target: string) returns (job: Option<Job>)
      requires Valid()
      ensures job.Some? ==> job.value in begun && job.value.target == target && !Terminal(job.value.state)
      ensures job.Some? ==> forall other :: other in begun && other.target == target && !Terminal(other.state) ==> other == job.value
      ensures job.None? ==> forall other :: other in begun && other.target == target ==> Terminal(other.state)
    {
      job := if target in running then Some(running[target]) else None;
      forall other | other in begun && other.target == target && !Terminal(other.state)
        ensures target in running && other == running[target]
      {
        var i :| 0 <= i < |begun| && begun[i] == other;
      }
    }

    method List(target: string, limit: int) returns (views: seq<View>)
      requires Filed()
      ensures
        var chosen := Take(Selected(Retained(), target), limit);
        && |views| == |chosen|
        && forall i :: 0 <= i < |views| ==> views[i] == Summary(chosen[i].ToView())
    {
      var chosen := Choose(target, limit);
      views := [];
      for i := 0 to |chosen|
        invariant |views| == i
        invariant forall k :: 0 <= k < i ==> views[k] == Summary(chosen[k].ToView())
      {
        views := views + [Summary(chosen[i].ToView())];
      }
    }

    method Choose(target: string, limit: int) returns (chosen: seq<Job>)
      requires Filed()
      ensures chosen == Take(Selected(Retained(), target), limit)
    {
      ghost var kept := Retained();
      chosen := [];
      var i := |order|;
      assert kept[..i] == kept;
      while i > 0
        invariant 0 <= i <= |order|
        invariant Selected(kept, target) == chosen + Selected(kept[..i], target)
        invariant limit > 0 ==> |chosen| < limit
      {
        i := i - 1;
        SelectedStep(chosen, kept, i, target);
        if order[i] !in jobs { continue; }
        var job := jobs[order[i]];
        if target != "" && job.target != target { continue; }
        chosen := chosen + [job];
        if limit > 0 && |chosen| >= limit {
          TakeAll(chosen, Selected(kept[..i], target), limit);
          return;
        }
      }
      TakeAll(chosen, [], limit);
    }
  }

  lemma TakeAll(chosen: seq<Job>, rest: seq<Job>, limit: int)
    requires limit > 0 ==> |chosen| == limit || (|chosen| < limit && rest == [])
    requires limit <= 0 ==> rest == []
    ensures Take(chosen + rest, limit) == chosen
  {
  }

  lemma SelectedStep(chosen: seq<Job>, kept: seq<Job>, i: nat, target: string)
    requires i < |kept|
    ensures chosen + Selected(kept[..i + 1], target) ==
              (if target == "" || kept[i].target == target then chosen + [kept[i]] else chosen) + Selected(kept[..i], target)
  {
    assert kept[..i + 1][..i] == kept[..i];
  }

  lemma SuffixDistinct(jobs: seq<Job>, n: nat, suffix: seq<Job>)
    requires n <= |jobs| && DistinctIds(jobs) && suffix == jobs[n..]
    ensures DistinctIds(suffix)
  {
    assert forall i :: 0 <= i < |suffix| ==> suffix[i] == jobs[n + i];
  }

  lemma SameIdSameJob(begun: seq<Job>, a: Job, b: Job)
    requires DistinctIds(begun) && a in begun && b in begun && a.id == b.id
    ensures a == b
  {
    var i :| 0 <= i < |begun| && begun[i] == a;
    var k :| 0 <= k < |begun| && begun[k] == b;
    assert begun[i].id == begun[k].id;
  }

  lemma Unsound(begun: seq<Job>, job: Job)
    requires job in begun && !job.Valid()
    ensures !AllValid(begun)
  {
    var i :| 0 <= i < |begun| && begun[i] == job;
  }

  // ----------------------------------------------------------- the manager

  function Ascii(s: string): Bytes {
    seq(|s|, i requires 0 <= i < |s| => if s[i] < '\U{80}' then (s[i] as int) as byte else 0x3f)
  }

  const LOST := "lost contact with the update agent, the stack may be mid-update: "

  /** What a run of the backend reported: an error means contact was lost. */
  datatype Report = Reported(state: State, message: Bytes) | Lost(cause: Bytes)

  function FinalState(r: Report): State {
    match r case Reported(s, _) => s case Lost(_) => Failed
  }

  /** The end of `run`: complete the job, then hand the snapshot to the completion callback. */
  method EndRun(store: Store, job: Job, r: Report, now: int) returns (notice: (string, View))
    requires store.Filed() && job in store.begun
    modifies store`running, job
    ensures store.Filed() && (old(store.Valid()) ==> (store.Valid() <==> Terminal(old(job.state)) || Terminal(FinalState(r))))
    ensures old(job.state) == Running ==> job.state == FinalState(r) && job.closes == old(job.closes) + 1
    ensures old(job.state) == Running ==>
              job.message == Sanitised(match r
                                       case Reported(_, message) => message
                                       case Lost(cause) =>
                                         Ascii("lost contact with the update agent, the stack may be mid-update: ") + cause, 1000)
    ensures notice == (job.target, job.ToView())
    ensures old(job.state) == Running && old(store.Valid()) ==> job.target !in store.running
    ensures forall t :: t != job.target ==> (t in store.running <==> t in old(store.running))
  {
    var state, message;
    match r {
      case Reported(s, m) =>
        state, message := s, m;
      case Lost(cause) =>
        state, message := Failed, Ascii(LOST) + cause;
    }
    store.Complete(job, state, message, now);
    notice := (job.target, job.ToView());
  }

  /**
   A run reported as running: its job goes on looking live, its channel closed, while
   its target is free and takes another job.
   */
  method ReportRunning(store: Store, a: Job, id: string, message: Bytes, now: int) returns (b: Job, busy: bool)
    requires store.Valid() && a in store.begun && a.state == Running
    requires forall i :: 0 <= i < |store.begun| ==> store.begun[i].id != id
    modifies store, a
    ensures !busy && fresh(b) && b.target == a.target && b.state == Running
    ensures a.state == Running && a.closes == 1
    ensures a.target in store.running && store.running[a.target] == b
  {
    BegunIsValid(store.begun, a);
    var _ := EndRun(store, a, Reported(Running, message), now);
    b, busy := store.Begin(a.target, id);
  }

  lemma BegunIsValid(begun: seq<Job>, job: Job)
    requires job in begun && AllValid(begun)
    ensures job.Valid()
  {
  }

  // ------------------------------------------------------------ the listing

  /** A listing is a subsequence of the retained jobs in reverse: nothing else, nothing twice, nothing skipped. */
  lemma {:induction false} SelectedIsComplete(jobs: seq<Job>, target: string)
    ensures forall job :: job in Selected(jobs, target) <==> job in jobs && (target == "" || job.target == target)
    ensures |Selected(jobs, target)| <= |jobs|
  {
    if jobs != [] {
      var n := |jobs| - 1;
      SelectedIsComplete(jobs[..n], target);
      assert jobs == jobs[..n] + [jobs[n]];
    }
  }

  /** Jobs of other targets never push a target's newest job out of its own listing. */
  lemma {:induction false} NewestComesFirst(jobs: seq<Job>, newer: seq<Job>, job: Job)
    requires job.target != "" && forall i :: 0 <= i < |newer| ==> newer[i].target != job.target
    ensures Selected(jobs + [job] + newer, job.target) == [job] + Selected(jobs, job.target)
  {
    var all := jobs + [job] + newer;
    if newer == [] {
      assert all == jobs + [job];
      assert all[..|all| - 1] == jobs;
    } else {
      NewestComesFirst(jobs, newer[..|newer| - 1], job);
      assert all[..|all| - 1] == jobs + [job] + newer[..|newer| - 1];
    }
  }

  /** What is listed of two runs of jobs is what is listed of the later and then of the earlier. */
  lemma {:induction false} SelectedConcat(a: seq<Job>, b: seq<Job>, target: string)
    ensures Selected(a + b, target) == Selected(b, target) + Selected(a, target)
  {
    var all := a + b;
    if b == [] {
      assert all == a;
    } else {
      var init := b[..|b| - 1];
      assert all[..|all| - 1] == a + init;
      SelectedConcat(a, init, target);
      SelectedLast(all, a + init, target);
      SelectedLast(b, init, target);
    }
  }

  lemma SelectedLast(jobs: seq<Job>, init: seq<Job>, target: string)
    requires jobs != [] && init == jobs[..|jobs| - 1]
    ensures
      var last := jobs[|jobs| - 1];
      Selected(jobs, target) == (if target == "" || last.target == target then [last] else []) + Selected(init, target)
  {
  }

  /** A single job is listed if its target, or none, is asked for. */
  lemma SelectedOne(job: Job, target: string)
    ensures Selected([job], target) == if |target| == 0 || job.target == target then [job] else []
  {
    assert [job][..0] == [];
  }

  /** A listing is cut at a positive limit, and what it lists are the last two hundred jobs begun. */
  lemma ListingBounds(begun: seq<Job>, chosen: seq<Job>, limit: int)
    ensures Take(chosen, limit) <= chosen
    ensures |Take(chosen, limit)| == if limit > 0 && |chosen| > limit then limit else |chosen|
    ensures |Recent(begun)| == if |begun| > 200 then 200 else |begun|
    ensures begun[|begun| - |Recent(begun)|..] == Recent(begun)
  {
  }
}
