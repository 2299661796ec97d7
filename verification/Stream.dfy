/**
 The event stream from the agent to the API: the agent's streamSink
 (internal/agentd/server.go) encodes sink calls, the client's consume
 (internal/agent/client.go) replays them into the job. JSON is a lossless codec.
 */
module Stream {
  import opened Wrappers
  import opened Jobs

  const STEP_START := "step_start"
  const STEP := "step"
  const PROGRESS := "progress"
  const BEFORE := "before"
  const AFTER := "after"
  const CHANGED := "changed"
  const RESULT := "result"

  datatype Event = Event(kind: string, step: Option<Step>, states: seq<ServiceState>,
                         changed: seq<string>, state: State, message: Bytes)

  const BLANK := Event("", None, [], [], Unknown(""), [])

  /** One decoded line, or bytes that do not decode; the stream ends after the last one. */
  datatype Frame = Decoded(event: Event) | Garbled

  datatype Error = EndedBadly | NoResult

  datatype Outcome = Outcome(state: State, message: Bytes, error: Option<Error>)

  // ------------------------------------------------------------- agent side

  function EventOf(call: Call): Event {
    match call
    case StartStep(name) => BLANK.(kind := STEP_START, step := Some(Step(name, "", 0, 0, false, true, "", [])))
    case AddStep(s) => BLANK.(kind := STEP, step := Some(s))
    case SetProgress(states) => BLANK.(kind := PROGRESS, states := states)
    case SetBefore(states) => BLANK.(kind := BEFORE, states := states)
    case SetAfter(states) => BLANK.(kind := AFTER, states := states)
    case SetChanged(services) => BLANK.(kind := CHANGED, changed := services)
  }

  function ResultEvent(state: State, message: Bytes): Event {
    BLANK.(kind := RESULT, state := state, message := message)
  }

  /** Everything the agent sends for one update. */
  function Transcript(calls: seq<Call>, state: State, message: Bytes): seq<Event> {
    seq(|calls|, i requires 0 <= i < |calls| => EventOf(calls[i])) + [ResultEvent(state, message)]
  }

  class StreamSink {
    /** What the peer can read; nothing is added once the connection is gone. */
    var wire: seq<Event>
    var connected: bool

    constructor ()
      ensures wire == [] && connected
    {
      wire, connected := [], true;
    }

    method Emit(e: Event)
      modifies this`wire
      ensures wire == old(wire) + if connected then [e] else []
    {
      if !connected { return; }
      wire := wire + [e];
    }

    method Send(call: Call)
      modifies this`wire
      ensures wire == old(wire) + if connected then [EventOf(call)] else []
    {
      match call
      case StartStep(name) =>
        Emit(BLANK.(kind := STEP_START, step := Some(Step(name, "", 0, 0, false, true, "", []))));
      case AddStep(s) => Emit(BLANK.(kind := STEP, step := Some(s)));
      case SetProgress(states) => Emit(BLANK.(kind := PROGRESS, states := states));
      case SetBefore(states) => Emit(BLANK.(kind := BEFORE, states := states));
      case SetAfter(states) => Emit(BLANK.(kind := AFTER, states := states));
      case SetChanged(services) => Emit(BLANK.(kind := CHANGED, changed := services));
    }

    method Hangup()
      modifies this`connected
      ensures !connected
    {
      connected := false;
    }
  }

  /** The agent sends a whole update, and the peer goes away before call number `lost`, if at all. */
  method Serve(calls: seq<Call>, state: State, message: Bytes, lost: nat) returns (sink: StreamSink)
    ensures fresh(sink) && sink.wire <= Transcript(calls, state, message)
    ensures |sink.wire| == if lost <= |calls| then lost else |calls| + 1
  {
    sink := new StreamSink();
    for i := 0 to |calls|
      invariant fresh(sink)
      invariant sink.wire == Transcript(calls, state, message)[..if lost < i then lost else i]
      invariant sink.connected <==> i <= lost
    {
      if i == lost { sink.Hangup(); }
      sink.Send(calls[i]);
    }
    if |calls| == lost { sink.Hangup(); }
    sink.Emit(ResultEvent(state, message));
  }

  // ------------------------------------------------------------ client side

  /** The sink call an event stands for, if any. */
  function Meaning(e: Event): Option<Call> {
    if e.kind == STEP_START then (if e.step.Some? then Some(StartStep(e.step.value.name)) else None)
    else if e.kind == STEP then (if e.step.Some? then Some(AddStep(e.step.value)) else None)
    else if e.kind == PROGRESS then Some(SetProgress(e.states))
    else if e.kind == BEFORE then Some(SetBefore(e.states))
    else if e.kind == AFTER then Some(SetAfter(e.states))
    else if e.kind == CHANGED then Some(SetChanged(e.changed))
    else None
  }

  /** Number of frames read before the first one that does not decode. */
  function Readable(frames: seq<Frame>): (n: nat)
    ensures n <= |frames|
    ensures forall i :: 0 <= i < n ==> frames[i].Decoded?
    ensures n < |frames| ==> frames[n].Garbled?
  {
    if frames == [] || frames[0].Garbled? then 0 else 1 + Readable(frames[1..])
  }

  /** The calls replayed from decoded events; event `i` is handled at time `clock(i)`. */
  function Replayed(events: seq<Event>, clock: nat -> int): seq<Timed> {
    if events == [] then []
    else
      var n := |events| - 1;
      Replayed(events[..n], clock) + match Meaning(events[n])
                                     case None => []
                                     case Some(call) => [Timed(call, clock(n))]
  }

  function LastResult(events: seq<Event>): Option<(State, Bytes)> {
    if events == [] then None
    else
      var last := events[|events| - 1];
      if last.kind == RESULT then Some((last.state, last.message)) else LastResult(events[..|events| - 1])
  }

  function Events(frames: seq<Frame>): seq<Event>
    requires forall i :: 0 <= i < |frames| ==> frames[i].Decoded?
  {
    seq(|frames|, i requires 0 <= i < |frames| => frames[i].event)
  }

  function Read(frames: seq<Frame>): seq<Event> { Events(frames[..Readable(frames)]) }

  function Verdict(frames: seq<Frame>): Outcome {
    if Readable(frames) < |frames| then Outcome(Failed, [], Some(EndedBadly))
    else match LastResult(Read(frames))
      case None => Outcome(Failed, [], Some(NoResult))
      case Some((state, message)) => Outcome(state, message, None)
  }

  method Consume(frames: seq<Frame>, clock: nat -> int, job: Job) returns (r: Outcome)
    modifies job
    ensures r == Verdict(frames)
    ensures job.ToView() == ApplyAll(old(job.ToView()), Replayed(Read(frames), clock))
    ensures job.closes == old(job.closes)
  {
    var state, message, gotResult := Unknown(""), [], false;
    var i := 0;
    ghost var n := Readable(frames);
    while i < |frames|
      invariant 0 <= i <= n
      invariant job.closes == old(job.closes)
      invariant job.ToView() == ApplyAll(old(job.ToView()), Replayed(Read(frames)[..i], clock))
      invariant LastResult(Read(frames)[..i]) == if gotResult then Some((state, message)) else None
    {
      if frames[i].Garbled? {
        assert Read(frames)[..i] == Read(frames);
        return Outcome(Failed, [], Some(EndedBadly));
      }
      var ev := frames[i].event;
      ReadStep(frames, clock, i, old(job.ToView()));
      if ev.kind == STEP_START {
        if ev.step.Some? { job.Receive(StartStep(ev.step.value.name), clock(i)); }
      } else if ev.kind == STEP {
        if ev.step.Some? { job.Receive(AddStep(ev.step.value), clock(i)); }
      } else if ev.kind == PROGRESS {
        job.Receive(SetProgress(ev.states), clock(i));
      } else if ev.kind == BEFORE {
        job.Receive(SetBefore(ev.states), clock(i));
      } else if ev.kind == AFTER {
        job.Receive(SetAfter(ev.states), clock(i));
      } else if ev.kind == CHANGED {
        job.Receive(SetChanged(ev.changed), clock(i));
      } else if ev.kind == RESULT {
        state, message, gotResult := ev.state, ev.message, true;
      }
      i := i + 1;
    }
    assert Read(frames)[..i] == Read(frames);
    if !gotResult { return Outcome(Failed, [], Some(NoResult)); }
    return Outcome(state, message, None);
  }

  lemma ReadStep(frames: seq<Frame>, clock: nat -> int, i: nat, start: View)
    requires i < Readable(frames)
    ensures
      var e := frames[i].event;
      var done, next := Read(frames)[..i], Read(frames)[..i + 1];
      && LastResult(next) == (if e.kind == RESULT then Some((e.state, e.message)) else LastResult(done))
      && ApplyAll(start, Replayed(next, clock)) ==
           if Meaning(e).Some? then Apply(ApplyAll(start, Replayed(done, clock)), Meaning(e).value, clock(i))
           else ApplyAll(start, Replayed(done, clock))
  {
    var e := frames[i].event;
    var next := Read(frames)[..i + 1];
    assert next[..i] == Read(frames)[..i] && next[i] == e;
    var before := Replayed(next[..i], clock);
    if Meaning(e).Some? {
      var after := Replayed(next, clock);
      assert after == before + [Timed(Meaning(e).value, clock(i))];
      assert after[..|after| - 1] == before;
    } else {
      assert Replayed(next, clock) == before;
    }
  }

  // -------------------------------------------------- remote equals local

  /** The same step up to when it started, which only a step without a report takes from the local clock. */
  predicate SameStep(a: Step, b: Step) {
    if a.running || a.error == DID_NOT_COMPLETE
    then a.(startedAt := b.startedAt, durationMS := b.durationMS) == b
    else a == b
  }

  ghost predicate SameSteps(a: seq<Step>, b: seq<Step>) {
    |a| == |b| && forall i :: 0 <= i < |a| ==> SameStep(a[i], b[i])
  }

  /** Two jobs that differ in clock readings only, and whose open steps are plain placeholders. */
  ghost predicate Same(v: View, w: View) {
    && SameSteps(v.steps, w.steps)
    && (forall i :: 0 <= i < |v.steps| && v.steps[i].running ==> v.steps[i].error == "")
    && v.finishedAt.Some? == w.finishedAt.Some?
    && v.(steps := [], finishedAt := None) == w.(steps := [], finishedAt := None)
  }

  /** What two such jobs have in common. */
  lemma SameMeans(v: View, w: View, i: nat)
    requires Same(v, w)
    ensures v.state == w.state && v.message == w.message && v.changed == w.changed && v.logBytes == w.logBytes
    ensures v.before == w.before && v.after == w.after && v.progress == w.progress && |v.steps| == |w.steps|
    ensures i < |v.steps| ==>
              && v.steps[i].name == w.steps[i].name && v.steps[i].command == w.steps[i].command && v.steps[i].ok == w.steps[i].ok
              && v.steps[i].running == w.steps[i].running && v.steps[i].error == w.steps[i].error && v.steps[i].output == w.steps[i].output
    ensures i < |v.steps| && !v.steps[i].running && v.steps[i].error != "did not complete" ==> v.steps[i] == w.steps[i]
  {
    if i < |v.steps| { assert SameStep(v.steps[i], w.steps[i]); }
  }

  /** A report is of a step that is over. */
  predicate Reports(call: Call) { call.AddStep? ==> !call.step.running }

  lemma SameApply(v: View, w: View, call: Call, t: int, u: int)
    requires Same(v, w) && Reports(call)
    ensures Same(Apply(v, call, t), Apply(w, call, u))
  {
    if call.AddStep? { assert OpenStep(v.steps) == OpenStep(w.steps); }
  }

  lemma SameFinish(v: View, w: View, state: State, message: Bytes, t: int, u: int)
    requires Same(v, w)
    ensures Same(Finished(v, state, message, t), Finished(w, state, message, u))
  {
    assert v.steps == [] || SameStep(v.steps[|v.steps| - 1], w.steps[|w.steps| - 1]);
    assert OpenStep(v.steps) == OpenStep(w.steps);
    if OpenStep(v.steps) {
      var n := |v.steps| - 1;
      assert SameStep(v.steps[n], w.steps[n]);
      SameDied(v.steps[n], w.steps[n], t, u);
      SameLast(v.steps, w.steps, Died(v.steps[n], t), Died(w.steps[n], u));
    }
  }

  lemma SameDied(a: Step, b: Step, t: int, u: int)
    requires SameStep(a, b) && a.running && a.error == ""
    ensures SameStep(Died(a, t), Died(b, u)) && !Died(a, t).running
  {
  }

  lemma SameLast(v: seq<Step>, w: seq<Step>, a: Step, b: Step)
    requires SameSteps(v, w) && v != [] && SameStep(a, b)
    ensures SameSteps(v[..|v| - 1] + [a], w[..|w| - 1] + [b])
  {
  }

  lemma {:induction false} SameRuns(v: View, a: seq<Timed>, b: seq<Timed>)
    requires |a| == |b| && forall i :: 0 <= i < |a| ==> a[i].call == b[i].call && Reports(a[i].call)
    requires Same(v, v)
    ensures Same(ApplyAll(v, a), ApplyAll(v, b))
  {
    if a != [] {
      var n := |a| - 1;
      SameRuns(v, a[..n], b[..n]);
      SameApply(ApplyAll(v, a[..n]), ApplyAll(v, b[..n]), a[n].call, a[n].now, b[n].now);
    }
  }

  /** The calls in a list of events, in order. */
  function CallsIn(events: seq<Event>): seq<Call> {
    if events == [] then []
    else
      var n := |events| - 1;
      CallsIn(events[..n]) + match Meaning(events[n])
                             case None => []
                             case Some(call) => [call]
  }

  lemma {:induction false} ReplayedCalls(events: seq<Event>, clock: nat -> int)
    ensures |Replayed(events, clock)| == |CallsIn(events)|
    ensures forall i :: 0 <= i < |CallsIn(events)| ==> Replayed(events, clock)[i].call == CallsIn(events)[i]
  {
    if events != [] { ReplayedCalls(events[..|events| - 1], clock); }
  }

  /** An event this client has no use for: an unknown kind, or a step event without a step. */
  predicate Noise(e: Event) {
    e.kind != RESULT && Meaning(e).None?
  }

  function WithoutNoise(events: seq<Event>): seq<Event> {
    if events == [] then []
    else
      var n := |events| - 1;
      WithoutNoise(events[..n]) + if Noise(events[n]) then [] else [events[n]]
  }

  lemma {:induction false} NoiseIsIgnored(events: seq<Event>)
    ensures CallsIn(events) == CallsIn(WithoutNoise(events))
    ensures LastResult(events) == LastResult(WithoutNoise(events))
  {
    if events != [] {
      var n := |events| - 1;
      NoiseIsIgnored(events[..n]);
      var quiet := WithoutNoise(events[..n]);
      if !Noise(events[n]) {
        var all := WithoutNoise(events);
        assert all == quiet + [events[n]];
        assert all[..|all| - 1] == quiet;
      } else {
        assert WithoutNoise(events) == quiet;
      }
    }
  }

  lemma {:induction false} EventSnoc(events: seq<Event>, e: Event)
    ensures CallsIn(events + [e]) == match Meaning(e)
                                     case None => CallsIn(events)
                                     case Some(call) => CallsIn(events) + [call]
    ensures LastResult(events + [e]) == if e.kind == RESULT then Some((e.state, e.message)) else LastResult(events)
  {
    var more := events + [e];
    assert more[..|more| - 1] == events && more[|more| - 1] == e;
  }

  /** Encoding loses nothing. */
  lemma MeaningOfEvent(call: Call)
    ensures Meaning(EventOf(call)) == Some(call) && EventOf(call).kind != RESULT
  {
  }

  /** The events carry exactly these calls and no result. */
  ghost predicate Carries(events: seq<Event>, calls: seq<Call>) {
    CallsIn(events) == calls && LastResult(events) == None
  }

  lemma {:induction false} CarriesSnoc(events: seq<Event>, calls: seq<Call>, call: Call)
    requires Carries(events, calls)
    ensures Carries(events + [EventOf(call)], calls + [call])
  {
    MeaningOfEvent(call);
    EventSnoc(events, EventOf(call));
  }

  lemma {:induction false} CallsOfPrefix(calls: seq<Call>, state: State, message: Bytes, n: nat)
    requires n <= |calls|
    ensures Carries(Transcript(calls, state, message)[..n], calls[..n])
  {
    if n > 0 {
      CallsOfPrefix(calls, state, message, n - 1);
      CarriesSnoc(Transcript(calls, state, message)[..n - 1], calls[..n - 1], calls[n - 1]);
      TranscriptGrows(calls, state, message, n - 1);
    }
  }

  lemma TranscriptGrows(calls: seq<Call>, state: State, message: Bytes, n: nat)
    requires n < |calls|
    ensures Transcript(calls, state, message)[..n + 1] == Transcript(calls, state, message)[..n] + [EventOf(calls[n])]
    ensures calls[..n + 1] == calls[..n] + [calls[n]]
  {
  }

  lemma TranscriptIsComplete(calls: seq<Call>, state: State, message: Bytes)
    ensures CallsIn(Transcript(calls, state, message)) == calls
    ensures LastResult(Transcript(calls, state, message)) == Some((state, message))
  {
    var all := Transcript(calls, state, message);
    CallsOfPrefix(calls, state, message, |calls|);
    EventSnoc(all[..|calls|], ResultEvent(state, message));
    assert all == all[..|calls|] + [ResultEvent(state, message)] && calls[..|calls|] == calls;
  }

  /**
   An update through the agent leaves the same job as one run in process: whatever
   noise a newer agent mixes in, the stream carries the same calls, the same
   outcome, and the finished jobs differ in clock readings only.
   */
  lemma RemoteEqualsLocal(frames: seq<Frame>, clock: nat -> int, local: seq<Timed>, state: State, message: Bytes,
                          start: View, t: int, u: int)
    requires forall i :: 0 <= i < |frames| ==> frames[i].Decoded?
    requires WithoutNoise(Read(frames)) == Transcript(LocalCalls(local), state, message)
    requires forall i :: 0 <= i < |local| ==> Reports(local[i].call)
    requires Same(start, start)
    ensures Verdict(frames) == Outcome(state, message, None)
    ensures
      var remote := ApplyAll(start, Replayed(Read(frames), clock));
      && Same(remote, ApplyAll(start, local))
      && Same(Finished(remote, state, message, t), Finished(ApplyAll(start, local), state, message, u))
  {
    var events := Read(frames);
    NoiseIsIgnored(events);
    TranscriptIsComplete(LocalCalls(local), state, message);
    ReplayedCalls(events, clock);
    SameRuns(start, Replayed(events, clock), local);
    SameFinish(ApplyAll(start, Replayed(events, clock)), ApplyAll(start, local), state, message, t, u);
  }

  function LocalCalls(local: seq<Timed>): seq<Call> {
    seq(|local|, i requires 0 <= i < |local| => local[i].call)
  }

  lemma {:induction false} LocalCallsOfReplay(events: seq<Event>, clock: nat -> int)
    ensures LocalCalls(Replayed(events, clock)) == CallsIn(events)
  {
    ReplayedCalls(events, clock);
  }

  /**
   A stream cut before the result, cleanly or in the middle of a line, is a failure
   with an error, and the job has received a prefix of the calls.
   */
  lemma CutStreamFails(frames: seq<Frame>, clock: nat -> int, calls: seq<Call>, state: State, message: Bytes, n: nat)
    requires n <= |calls|
    requires WithoutNoise(Read(frames)) == Transcript(calls, state, message)[..n]
    ensures Verdict(frames).state == Failed && Verdict(frames).error.Some?
    ensures LocalCalls(Replayed(Read(frames), clock)) == calls[..n]
  {
    var events := Read(frames);
    NoiseIsIgnored(events);
    CallsOfPrefix(calls, state, message, n);
    LocalCallsOfReplay(events, clock);
  }

  /** Exactly when the client reports no error: every frame decoded and a result was among them. */
  lemma CleanIffResult(frames: seq<Frame>)
    ensures Verdict(frames).error.None? <==>
              && (forall i :: 0 <= i < |frames| ==> frames[i].Decoded?)
              && exists i :: 0 <= i < |frames| && frames[i].Decoded? && frames[i].event.kind == RESULT
  {
    HasResult(Read(frames));
    var n := Readable(frames);
    if n == |frames| {
      assert forall i :: 0 <= i < |frames| ==> Read(frames)[i] == frames[i].event;
    }
  }

  lemma {:induction false} HasResult(events: seq<Event>)
    ensures LastResult(events).Some? <==> exists i :: 0 <= i < |events| && events[i].kind == RESULT
  {
    if events != [] {
      var n := |events| - 1;
      HasResult(events[..n]);
      forall i | 0 <= i < |events| && events[i].kind == RESULT ensures LastResult(events).Some? {
        if i < n { assert events[..n][i].kind == RESULT; }
      }
    }
  }

  /** The outcome is the last result's: no later one follows it, however many came before. */
  lemma {:induction false} LastResultIff(events: seq<Event>, state: State, message: Bytes)
    ensures LastResult(events) == Some((state, message)) <==>
              exists i :: 0 <= i < |events| && events[i].kind == "result" && events[i].state == state && events[i].message == message
                && forall k :: i < k < |events| ==> events[k].kind != "result"
  {
    if events != [] {
      var n := |events| - 1;
      var init := events[..n];
      LastResultIff(init, state, message);
      assert forall i :: 0 <= i < n ==> events[i] == init[i];
    }
  }

  /** A stream whose every line decodes ends as its last result says; one with a broken line or no result has failed. */
  lemma VerdictIff(frames: seq<Frame>, state: State, message: Bytes)
    ensures Verdict(frames) == Outcome(state, message, None) <==>
              && (forall i :: 0 <= i < |frames| ==> frames[i].Decoded?)
              && exists i :: 0 <= i < |frames| && Ends(frames, i, state, message)
    ensures Verdict(frames).error.Some? ==> Verdict(frames).state == Failed
    ensures Verdict(frames).error == Some(EndedBadly) <==> exists i :: 0 <= i < |frames| && frames[i].Garbled?
  {
    var n := Readable(frames);
    if n == |frames| {
      var events := Read(frames);
      assert forall i :: 0 <= i < |frames| ==> events[i] == frames[i].event;
      LastResultIff(events, state, message);
      if LastResult(events) == Some((state, message)) {
        var i :| 0 <= i < |events| && events[i].kind == "result" && events[i].state == state && events[i].message == message
          && forall k :: i < k < |events| ==> events[k].kind != "result";
        assert Ends(frames, i, state, message);
      }
    }
  }

  /** Frame `i` is a result of this outcome, and no frame after it is one. */
  ghost predicate Ends(frames: seq<Frame>, i: int, state: State, message: Bytes)
    requires 0 <= i < |frames|
  {
    && frames[i].Decoded? && frames[i].event.kind == "result" && frames[i].event.state == state && frames[i].event.message == message
    && forall k :: i < k < |frames| && frames[k].Decoded? ==> frames[k].event.kind != "result"
  }

  /** The words on the wire. */
  lemma WireWords(call: Call, state: State, message: Bytes)
    ensures EventOf(call).kind == match call
                                  case StartStep(_) => "step_start"
                                  case AddStep(_) => "step"
                                  case SetProgress(_) => "progress"
                                  case SetBefore(_) => "before"
                                  case SetAfter(_) => "after"
                                  case SetChanged(_) => "changed"
    ensures ResultEvent(state, message).kind == "result"
  {
  }

  /** An event of any other word means nothing, and neither does a step event without its step. */
  lemma NoiseIff(e: Event)
    ensures Noise(e) <==>
              || e.kind !in {"step_start", "step", "progress", "before", "after", "changed", "result"}
              || (e.kind in {"step_start", "step"} && e.step.None?)
  {
  }
}
