/**
 The order of sink calls (internal/pipeline/pipeline.go `step` and `begin`):
 every step that is started is completed under the same name before the next
 one starts. What a job shows of such a trace, cut anywhere.
 */
module Trace {
  import opened Wrappers
  import opened Jobs

  datatype Mode = Closed | Open(name: string) | Broken

  function Next(m: Mode, call: Call): Mode {
    match call
    case StartStep(name) => if m.Closed? then Open(name) else Broken
    case AddStep(s) => if m == Open(s.name) && !s.running then Closed else Broken
    case _ => m
  }

  function ModeFrom(m: Mode, calls: seq<Call>): Mode {
    if calls == [] then m else Next(ModeFrom(m, calls[..|calls| - 1]), calls[|calls| - 1])
  }

  /** Matching start/add pairs, one at a time, nothing left open. */
  predicate Bracketed(calls: seq<Call>) {
    ModeFrom(Closed, calls) == Closed
  }

  lemma {:induction false} ModeConcat(m: Mode, a: seq<Call>, b: seq<Call>)
    ensures ModeFrom(m, a + b) == ModeFrom(ModeFrom(m, a), b)
  {
    if b == [] {
      assert a + b == a;
    } else {
      assert (a + b)[..|a + b| - 1] == a + b[..|b| - 1];
      ModeConcat(m, a, b[..|b| - 1]);
    }
  }

  lemma BracketedConcat(a: seq<Call>, b: seq<Call>)
    requires Bracketed(a) && Bracketed(b)
    ensures Bracketed(a + b)
  {
    ModeConcat(Closed, a, b);
  }

  lemma {:induction false} BrokenStays(calls: seq<Call>)
    ensures ModeFrom(Broken, calls) == Broken
  {
    if calls != [] { BrokenStays(calls[..|calls| - 1]); }
  }

  /** Cutting a bracketed trace leaves at most one step open and never mixes names. */
  lemma PrefixIsNotBroken(calls: seq<Call>, prefix: seq<Call>)
    requires Bracketed(calls) && prefix <= calls
    ensures ModeFrom(Closed, prefix) != Broken
  {
    var rest := calls[|prefix|..];
    assert calls == prefix + rest;
    ModeConcat(Closed, prefix, rest);
    BrokenStays(rest);
  }

  function Started(calls: seq<Call>): seq<string> {
    if calls == [] then []
    else
      var last := calls[|calls| - 1];
      Started(calls[..|calls| - 1]) + if last.StartStep? then [last.name] else []
  }

  function Reported(calls: seq<Call>): seq<Step> {
    if calls == [] then []
    else
      var last := calls[|calls| - 1];
      Reported(calls[..|calls| - 1]) + if last.AddStep? then [last.step] else []
  }

  function Calls(timed: seq<Timed>): seq<Call> {
    seq(|timed|, i requires 0 <= i < |timed| => timed[i].call)
  }

  /** The job keeps the report unchanged except for the output it cuts. */
  predicate Keeps(kept: Step, report: Step) {
    kept == report.(output := kept.output)
  }

  /** A job's steps are exactly the reports received, plus the open step if there is one. */
  ghost predicate Mirrors(steps: seq<Step>, calls: seq<Call>) {
    var reports := Reported(calls);
    var open := ModeFrom(Closed, calls).Open?;
    && |steps| == |reports| + (if open then 1 else 0)
    && |Started(calls)| == |steps|
    && (forall i :: 0 <= i < |reports| ==> Keeps(steps[i], reports[i]) && !steps[i].running && reports[i].name == Started(calls)[i])
    && (open ==> steps[|reports|].running && steps[|reports|].name == Started(calls)[|reports|]
                 == ModeFrom(Closed, calls).name && steps[|reports|].error == "")
  }

  lemma {:induction false} JobMirrors(timed: seq<Timed>)
    requires ModeFrom(Closed, Calls(timed)) != Broken
    ensures Mirrors(ApplyAll(FRESH, timed).steps, Calls(timed))
  {
    if timed != [] {
      var init, last := timed[..|timed| - 1], timed[|timed| - 1];
      assert Calls(timed)[..|timed| - 1] == Calls(init);
      JobMirrors(init);
      MirrorStep(ApplyAll(FRESH, init), Calls(init), last);
      assert Calls(timed) == Calls(init) + [last.call];
    }
  }

  lemma Snoc(calls: seq<Call>, c: Call)
    ensures ModeFrom(Closed, calls + [c]) == Next(ModeFrom(Closed, calls), c)
    ensures Started(calls + [c]) == Started(calls) + if c.StartStep? then [c.name] else []
    ensures Reported(calls + [c]) == Reported(calls) + if c.AddStep? then [c.step] else []
  {
    assert (calls + [c])[..|calls|] == calls;
  }

  lemma {:induction false} MirrorStep(v: View, calls: seq<Call>, t: Timed)
    requires Mirrors(v.steps, calls)
    requires Next(ModeFrom(Closed, calls), t.call) != Broken
    ensures Mirrors(Apply(v, t.call, t.now).steps, calls + [t.call])
  {
    match t.call
    case StartStep(name) => MirrorStart(v, calls, name, t.now);
    case AddStep(s) => MirrorAdd(v, calls, s, t.now);
    case _ => MirrorOther(v.steps, calls, t.call);
  }

  lemma {:induction false} MirrorOther(steps: seq<Step>, calls: seq<Call>, c: Call)
    requires Mirrors(steps, calls) && !c.StartStep? && !c.AddStep?
    ensures Mirrors(steps, calls + [c])
  {
    Snoc(calls, c);
    assert Reported(calls + [c]) == Reported(calls) && Started(calls + [c]) == Started(calls);
  }

  lemma {:induction false} MirrorStart(v: View, calls: seq<Call>, name: string, now: int)
    requires Mirrors(v.steps, calls) && ModeFrom(Closed, calls).Closed?
    ensures Mirrors(Apply(v, StartStep(name), now).steps, calls + [StartStep(name)])
  {
    Snoc(calls, StartStep(name));
  }

  lemma {:induction false} MirrorAdd(v: View, calls: seq<Call>, s: Step, now: int)
    requires Mirrors(v.steps, calls) && ModeFrom(Closed, calls) == Open(s.name) && !s.running
    ensures Mirrors(Apply(v, AddStep(s), now).steps, calls + [AddStep(s)])
  {
    Snoc(calls, AddStep(s));
    var w := Apply(v, AddStep(s), now).steps;
    assert OpenStep(v.steps);
    assert w == v.steps[..|v.steps| - 1] + [s.(output := Kept(s.output, v.logBytes))];
  }

  /** What a finished job shows: one step for each pair, and the interrupted one marked as such. */
  ghost predicate AllOver(steps: seq<Step>, calls: seq<Call>) {
    var reports := Reported(calls);
    var open := ModeFrom(Closed, calls).Open?;
    && |steps| == |reports| + (if open then 1 else 0)
    && (forall i :: 0 <= i < |steps| ==> !steps[i].running)
    && (forall i :: 0 <= i < |reports| ==> Keeps(steps[i], reports[i]))
    && (open ==> steps[|reports|].name == ModeFrom(Closed, calls).name && steps[|reports|].error == DID_NOT_COMPLETE)
  }

  /**
   A job fed any prefix of a bracketed trace and then finished shows every reported
   step, at most one step that did not complete, and none still running.
   */
  lemma CutTraceSettles(full: seq<Call>, timed: seq<Timed>, state: State, message: Bytes, now: int)
    requires Bracketed(full) && Calls(timed) <= full && Terminal(state)
    ensures AllOver(Finished(ApplyAll(FRESH, timed), state, message, now).steps, Calls(timed))
    ensures Calls(timed) == full ==> |Finished(ApplyAll(FRESH, timed), state, message, now).steps| == |Reported(full)|
  {
    PrefixIsNotBroken(full, Calls(timed));
    JobMirrors(timed);
    StateStaysRunning(timed);
  }

  lemma {:induction false} StateStaysRunning(timed: seq<Timed>)
    ensures ApplyAll(FRESH, timed).state == Running
  {
    if timed != [] { StateStaysRunning(timed[..|timed| - 1]); }
  }

  /**
   The bracket is needed: after two starts in a row the first placeholder stays
   marked running for ever, whatever is reported next and however the job ends.
   */
  lemma UnpairedStartStaysRunning(a: string, b: string, s: Step, t0: int, t1: int, t2: int, state: State, message: Bytes, now: int)
    ensures
      var timed := [Timed(StartStep(a), t0), Timed(StartStep(b), t1), Timed(AddStep(s), t2)];
      && ModeFrom(Closed, Calls(timed)) == Broken
      && Finished(ApplyAll(FRESH, timed), state, message, now).steps[0].running
  {
    var timed := [Timed(StartStep(a), t0), Timed(StartStep(b), t1), Timed(AddStep(s), t2)];
    var two := [Timed(StartStep(a), t0), Timed(StartStep(b), t1)];
    var one := [Timed(StartStep(a), t0)];
    assert timed[..2] == two && two[..1] == one && one[..0] == [];
    assert ApplyAll(FRESH, one) == Apply(FRESH, StartStep(a), t0);
    assert ApplyAll(FRESH, two) == Apply(ApplyAll(FRESH, one), StartStep(b), t1);
    var c := Calls(timed);
    assert c[..2] == [StartStep(a), StartStep(b)] && c[..2][..1] == [StartStep(a)] && c[..2][..1][..0] == [];
    assert ModeFrom(Closed, [StartStep(a)]) == Open(a);
    assert ModeFrom(Closed, c[..2]) == Broken;
  }

  // ------------------------------------------------------------ the recorder

  /** A step that is over, and whether it went well. */
  datatype Done = Done(name: string, ok: bool)

  /** What the latest list of each kind showed, and the steps reported so far. */
  datatype Shown = Shown(before: seq<ServiceState>, after: seq<ServiceState>, changed: seq<string>, steps: seq<Done>)

  function Noted(s: Shown, name: string, ok: bool): Shown {
    s.(steps := s.steps + [Done(name, ok)])
  }

  /** The same lists, and these steps more. */
  ghost predicate Adds(was: Shown, now: Shown, notes: seq<Done>) {
    now == was.(steps := was.steps + notes)
  }

  lemma AddsNothing(s: Shown)
    ensures Adds(s, s, [])
  {
    assert s.steps + [] == s.steps;
  }

  lemma AddsMore(was: Shown, mid: Shown, now: Shown, a: seq<Done>, b: seq<Done>)
    requires Adds(was, mid, a) && Adds(mid, now, b)
    ensures Adds(was, now, a + b)
  {
    assert was.steps + a + b == was.steps + (a + b);
  }

  function ShownBy(calls: seq<Call>): Shown {
    if calls == [] then Shown([], [], [], [])
    else
      var s := ShownBy(calls[..|calls| - 1]);
      match calls[|calls| - 1]
      case SetBefore(states) => s.(before := states)
      case SetAfter(states) => s.(after := states)
      case SetChanged(services) => s.(changed := services)
      case AddStep(step) => Noted(s, step.name, step.ok)
      case _ => s
  }

  /** A job shows the lists its trace shows. */
  lemma {:induction false} JobShowsTrace(timed: seq<Timed>)
    ensures
      var v, s := ApplyAll(FRESH, timed), ShownBy(Calls(timed));
      v.before == s.before && v.after == s.after && v.changed == s.changed
  {
    if timed != [] {
      JobShowsTrace(timed[..|timed| - 1]);
      assert Calls(timed)[..|timed| - 1] == Calls(timed[..|timed| - 1]);
    }
  }

  /** The steps a trace shows are its reports. */
  lemma {:induction false} ShownAreReported(calls: seq<Call>)
    ensures |ShownBy(calls).steps| == |Reported(calls)|
    ensures forall i :: 0 <= i < |Reported(calls)| ==> ShownBy(calls).steps[i] == Done(Reported(calls)[i].name, Reported(calls)[i].ok)
  {
    if calls != [] { ShownAreReported(calls[..|calls| - 1]); }
  }

  /** A sink that keeps the calls it receives. */
  class Recorder {
    var calls: seq<Call>

    constructor ()
      ensures calls == []
    {
      calls := [];
    }

    ghost function Mode(): Mode
      reads this
    {
      ModeFrom(Closed, calls)
    }

    method Record(c: Call)
      modifies this
      ensures calls == old(calls) + [c]
      ensures Mode() == Next(old(Mode()), c)
      ensures ShownBy(calls) == match c
                                case SetBefore(states) => ShownBy(old(calls)).(before := states)
                                case SetAfter(states) => ShownBy(old(calls)).(after := states)
                                case SetChanged(services) => ShownBy(old(calls)).(changed := services)
                                case AddStep(step) => Noted(ShownBy(old(calls)), step.name, step.ok)
                                case _ => ShownBy(old(calls))
    {
      Snoc(calls, c);
      assert (calls + [c])[..|calls|] == calls;
      calls := calls + [c];
    }

    method StartStep(name: string)
      requires Mode() == Closed
      modifies this
      ensures old(calls) <= calls && Mode() == Open(name) && ShownBy(calls) == ShownBy(old(calls))
    {
      Record(Call.StartStep(name));
    }

    /** The completed step; its timing and command line are not modelled. */
    method AddStep(name: string, err: Option<string>, output: Bytes)
      requires Mode() == Open(name)
      modifies this
      ensures old(calls) <= calls && Mode() == Closed && ShownBy(calls) == Noted(ShownBy(old(calls)), name, err.None?)
    {
      var s := Step(name, "", 0, 0, err.None?, false, if err.Some? then err.value else "", output);
      Record(Call.AddStep(s));
    }

    method SetProgress(states: seq<ServiceState>)
      modifies this
      ensures calls == old(calls) + [Call.SetProgress(states)]
      ensures Mode() == old(Mode()) && ShownBy(calls) == ShownBy(old(calls))
    {
      Record(Call.SetProgress(states));
    }

    method SetBefore(states: seq<ServiceState>)
      modifies this
      ensures old(calls) <= calls && Mode() == old(Mode()) && ShownBy(calls) == ShownBy(old(calls)).(before := states)
    {
      Record(Call.SetBefore(states));
    }

    method SetAfter(states: seq<ServiceState>)
      modifies this
      ensures old(calls) <= calls && Mode() == old(Mode()) && ShownBy(calls) == ShownBy(old(calls)).(after := states)
    {
      Record(Call.SetAfter(states));
    }

    method SetChanged(services: seq<string>)
      modifies this
      ensures old(calls) <= calls && Mode() == old(Mode()) && ShownBy(calls) == ShownBy(old(calls)).(changed := services)
    {
      Record(Call.SetChanged(services));
    }
  }
}
