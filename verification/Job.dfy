/**
 One update job (internal/job/job.go): the sink interface as a datatype of
 calls, the job object that receives them, and what its log may grow to.
 Texts that are measured in bytes are byte sequences, read as UTF-8.
 */
module Jobs {
  import opened Wrappers

  newtype byte = x: int | 0 <= x < 256

  type Bytes = seq<byte>

  const MAX_LOG_BYTES: nat := 96 * 1024
  const MAX_MESSAGE_BYTES: nat := 1000

  /** "…" and the truncation marker of the job log, in UTF-8. */
  const ELLIPSIS: Bytes := [0xe2, 0x80, 0xa6]
  const REPLACEMENT: Bytes := [0xef, 0xbf, 0xbd]
  const TRUNCATED: Bytes := [0x0a] + ELLIPSIS
    + [0x5b, 0x6a, 0x6f, 0x62, 0x20, 0x6c, 0x6f, 0x67, 0x20, 0x74, 0x72, 0x75, 0x6e, 0x63, 0x61, 0x74, 0x65, 0x64, 0x5d]
    + ELLIPSIS

  /** Unknown is any other word a peer may send; the code treats it as terminal. */
  datatype State = Running | Succeeded | NoChange | DryRun | Failed | RolledBack | RollbackFailed | Unknown(word: string)

  predicate Terminal(s: State) { s != Running }

  datatype Step = Step(name: string, command: string, startedAt: int, durationMS: int,
                       ok: bool, running: bool, error: string, output: Bytes)

  datatype ServiceState = ServiceState(service: string, container: string, image: string, imageID: string,
                                       state: string, health: string)

  /** The methods of the Sink interface. */
  datatype Call =
    | StartStep(name: string)
    | AddStep(step: Step)
    | SetProgress(progress: seq<ServiceState>)
    | SetBefore(before: seq<ServiceState>)
    | SetAfter(after: seq<ServiceState>)
    | SetChanged(changed: seq<string>)

  // ------------------------------------------------------------------ runes

  predicate Continues(b: byte) { 0x80 <= b < 0xc0 }

  predicate Second(s: Bytes) { |s| > 1 && Continues(s[1]) }

  predicate Third(s: Bytes) { |s| > 2 && Continues(s[1]) && Continues(s[2]) }

  predicate Fourth(s: Bytes) { |s| > 3 && Continues(s[1]) && Continues(s[2]) && Continues(s[3]) }

  /** The length of the rune a text starts with, 0 if its first byte starts none: the table of Go's unicode/utf8. */
  function RuneSize(s: Bytes): (n: nat)
    requires s != []
    ensures n <= |s| && n <= 4 && (s[0] < 0x80 <==> n == 1)
    ensures (n == 2 ==> Second(s)) && (n == 3 ==> Third(s)) && (n == 4 ==> Fourth(s))
  {
    var b := s[0];
    if b < 0x80 then 1
    else if 0xc2 <= b < 0xe0 && Second(s) then 2
    else if 0xe0 <= b < 0xf0 && Third(s) && (b == 0xe0 ==> s[1] >= 0xa0) && (b == 0xed ==> s[1] < 0xa0) then 3
    else if 0xf0 <= b < 0xf5 && Fourth(s) && (b == 0xf0 ==> s[1] >= 0x90) && (b == 0xf4 ==> s[1] < 0x90) then 4
    else 0
  }

  // -------------------------------------------------------------- sanitise

  predicate Control(b: byte) {
    (b < 0x20 && b != 0x0a && b != 0x09) || b == 0x7f
  }

  function CleanByte(b: byte): Bytes {
    if b == 0x0d then [] else if Control(b) then REPLACEMENT else [b]
  }

  /** What is written for the rune, or the byte that is none, at the front of a text. */
  function CleanFirst(s: Bytes): Bytes
    requires s != []
  {
    match RuneSize(s)
    case 0 => REPLACEMENT
    case 1 => CleanByte(s[0])
    case n => s[..n]
  }

  /** How many bytes that takes from the text. */
  function Width(s: Bytes): (n: nat)
    requires s != []
    ensures 0 < n <= |s|
  {
    if RuneSize(s) == 0 then 1 else RuneSize(s)
  }

  function Clean(s: Bytes): Bytes {
    if s == [] then [] else CleanFirst(s) + Clean(s[Width(s)..])
  }

  function Cut(s: Bytes, max: nat): Bytes {
    if max > 0 && |s| > max then s[..max] + ELLIPSIS else s
  }

  function Sanitised(s: Bytes, max: nat): Bytes { Cut(Clean(s), max) }

  method Sanitise(s: Bytes, max: nat) returns (out: Bytes)
    ensures out == Sanitised(s, max)
  {
    if s == [] { return []; }
    out := [];
    var rest := s;
    while rest != []
      invariant Cleaned(s, out, rest)
    {
      var written, n := Rune(rest);
      NextRune(s, out, rest);
      out := out + written;
      rest := rest[n..];
    }
    AllCleaned(s, out);
    if max > 0 && |out| > max {
      out := out[..max] + ELLIPSIS;
    }
  }

  /** What is written and what is still to be read make up the whole. */
  ghost predicate Cleaned(s: Bytes, out: Bytes, rest: Bytes) {
    out + Clean(rest) == Clean(s)
  }

  lemma AllCleaned(s: Bytes, out: Bytes)
    requires Cleaned(s, out, [])
    ensures out == Clean(s)
  {
    assert out + Clean([]) == out;
  }

  /** One turn of the loop: what it writes and how many bytes it takes. */
  method Rune(s: Bytes) returns (written: Bytes, n: nat)
    requires s != []
    ensures written == CleanFirst(s) && n == Width(s)
  {
    n := RuneSize(s);
    if n == 0 { return REPLACEMENT, 1; }
    var r := s[0];
    if r == 0x0a || r == 0x09 {
      written := [r];
    } else if r == 0x0d {
      written := [];
    } else if r < 0x20 || r == 0x7f {
      written := REPLACEMENT;
    } else {
      written := s[..n];
    }
  }

  lemma NextRune(s: Bytes, out: Bytes, rest: Bytes)
    requires rest != [] && Cleaned(s, out, rest)
    ensures Cleaned(s, out + CleanFirst(rest), rest[Width(rest)..])
  {
    Regroup(out, CleanFirst(rest), Clean(rest[Width(rest)..]));
  }

  lemma Regroup(a: Bytes, b: Bytes, c: Bytes)
    ensures a + b + c == a + (b + c)
  {
  }

  /** Whole runes and no control character. */
  predicate Proper(s: Bytes) {
    s == [] || (RuneSize(s) > 0 && !Control(s[0]) && Proper(s[RuneSize(s)..]))
  }

  ghost predicate Plain(s: Bytes) {
    forall i :: 0 <= i < |s| ==> !Control(s[i])
  }

  /** A rune is told by its own bytes. */
  lemma RuneStays(s: Bytes, more: Bytes)
    requires s != [] && RuneSize(s) > 0
    ensures RuneSize(s + more) == RuneSize(s)
  {
    var t := s + more;
    assert forall i :: 0 <= i < |s| ==> t[i] == s[i];
  }

  lemma {:induction false} ProperConcat(a: Bytes, b: Bytes)
    requires Proper(a) && Proper(b)
    ensures Proper(a + b)
  {
    if a == [] {
      assert a + b == b;
    } else {
      RuneStays(a, b);
      ProperConcat(a[RuneSize(a)..], b);
      assert (a + b)[RuneSize(a)..] == a[RuneSize(a)..] + b;
    }
  }

  lemma {:induction false} CleanIsProper(s: Bytes)
    ensures Proper(Clean(s))
  {
    if s != [] {
      FirstIsProper(s);
      CleanIsProper(s[Width(s)..]);
      ProperConcat(CleanFirst(s), Clean(s[Width(s)..]));
    }
  }

  lemma FirstIsProper(s: Bytes)
    requires s != []
    ensures Proper(CleanFirst(s))
  {
    var n := RuneSize(s);
    if n == 0 || (n == 1 && Control(s[0]) && s[0] != 0x0d) {
      ReplacementIsProper();
    } else if n == 1 && s[0] != 0x0d {
      assert [s[0]][1..] == [];
    } else if n > 1 {
      assert RuneSize(s[..n]) == n && s[..n][n..] == [];
    }
  }

  lemma ReplacementIsProper()
    ensures Proper(REPLACEMENT) && Proper(ELLIPSIS)
  {
    assert RuneSize(REPLACEMENT) == 3 && REPLACEMENT[3..] == [];
    assert RuneSize(ELLIPSIS) == 3 && ELLIPSIS[3..] == [];
  }

  lemma {:induction false} ProperIsPlain(s: Bytes)
    requires Proper(s)
    ensures Plain(s)
  {
    if s != [] {
      var n := RuneSize(s);
      ProperIsPlain(s[n..]);
      assert forall i :: n <= i < |s| ==> s[i] == s[n..][i - n];
    }
  }

  /** Cutting a proper text before a byte that starts a rune leaves it proper. */
  lemma {:induction false} CutBetweenRunes(s: Bytes, max: nat)
    requires Proper(s) && max < |s| && !Continues(s[max])
    ensures Proper(s[..max])
  {
    if max > 0 {
      var n := RuneSize(s);
      assert n <= max;
      CutBetweenRunes(s[n..], max - n);
      assert s[..max][n..] == s[n..][..max - n];
      assert s == s[..max] + s[max..];
      assert RuneSize(s[..max]) == n by { assert forall i :: 0 <= i < max ==> s[..max][i] == s[i]; }
    }
  }

  /** The part of a rune that a cut keeps when it goes through one. */
  ghost predicate Stump(s: Bytes) {
    && 1 <= |s| <= 3 && s[0] >= 0xc2
    && (|s| == 2 ==> s[0] >= 0xe0 && Second(s)) && (|s| == 3 ==> s[0] >= 0xf0 && Third(s))
  }

  lemma {:induction false} CutThroughRune(s: Bytes, max: nat) returns (front: Bytes, stump: Bytes)
    requires Proper(s) && max < |s| && Continues(s[max])
    ensures s[..max] == front + stump && Proper(front) && Stump(stump)
  {
    var n := RuneSize(s);
    if max < n {
      front, stump := [], s[..max];
      assert max > 0;
    } else {
      var rest;
      rest, stump := CutThroughRune(s[n..], max - n);
      front := s[..n] + rest;
      assert s[..max] == s[..n] + s[n..][..max - n];
      Regroup(s[..n], rest, stump);
      OneRuneIsProper(s);
      ProperConcat(s[..n], rest);
    }
  }

  lemma OneRuneIsProper(s: Bytes)
    requires s != [] && RuneSize(s) > 0 && !Control(s[0])
    ensures Proper(s[..RuneSize(s)])
  {
    var n := RuneSize(s);
    assert RuneSize(s[..n]) == n && s[..n][n..] == [];
  }

  /** The first rune of a longer text. */
  lemma FirstOfConcat(a: Bytes, b: Bytes)
    requires a != [] && RuneSize(a) > 0 && !Control(a[0])
    ensures CleanFirst(a + b) == a[..RuneSize(a)] && Width(a + b) == RuneSize(a)
    ensures (a + b)[RuneSize(a)..] == a[RuneSize(a)..] + b
  {
    RuneStays(a, b);
    assert (a + b)[..RuneSize(a)] == a[..RuneSize(a)];
    if RuneSize(a) == 1 { assert a[..1] == [a[0]] && a[0] != 0x0d; }
  }

  lemma {:induction false} CleanAfterProper(a: Bytes, b: Bytes)
    requires Proper(a)
    ensures Clean(a + b) == a + Clean(b)
  {
    if a == [] {
      assert a + b == b;
    } else {
      var first, later := a[..RuneSize(a)], a[RuneSize(a)..];
      FirstOfConcat(a, b);
      CleanAfterProper(later, b);
      Regroup(first, later, Clean(b));
      assert first + later == a;
    }
  }

  /** Of ASCII the carriage returns go, tabs, newlines and printable characters stay, and the rest becomes U+FFFD. */
  lemma AsciiIsCleaned(s: Bytes)
    requires s != [] && s[0] < 128
    ensures Clean(s) ==
              (if s[0] == 13 then []
               else if s[0] == 9 || s[0] == 10 || 32 <= s[0] <= 126 then [s[0]]
               else [0xef, 0xbf, 0xbd]) + Clean(s[1..])
  {
  }

  /** Printable text is left as it is, up to the cut. */
  lemma {:induction false} PrintableIsKept(s: Bytes, max: nat)
    requires forall i :: 0 <= i < |s| ==> s[i] == 9 || s[i] == 10 || 32 <= s[i] <= 126
    ensures Clean(s) == s
    ensures Sanitised(s, max) == if max > 0 && |s| > max then s[..max] + [0xe2, 0x80, 0xa6] else s
  {
    if s != [] {
      AsciiIsCleaned(s);
      PrintableIsKept(s[1..], 0);
      assert s == [s[0]] + s[1..];
    }
  }

  lemma ProperIsClean(s: Bytes)
    requires Proper(s)
    ensures Clean(s) == s
  {
    CleanAfterProper(s, []);
    assert s + [] == s;
  }

  /** A stump before the ellipsis is no rune: its first byte is replaced. */
  lemma StumpIsReplaced(stump: Bytes)
    requires Stump(stump)
    ensures REPLACEMENT <= Clean(stump + ELLIPSIS) && |Clean(stump + ELLIPSIS)| > 3
  {
    var t := stump + ELLIPSIS;
    assert t[|stump|] == 0xe2;
    assert RuneSize(t) == 0;
    assert t[1..] != [];
    CleanKeepsEllipsis(t[1..]);
  }

  lemma CleanKeepsEllipsis(t: Bytes)
    requires t != [] && t[0] != 0x0d
    ensures Clean(t) != []
  {
    assert CleanFirst(t) != [];
  }

  /** A second pass leaves a cut text alone exactly when the stump is how U+FFFD begins. */
  lemma StumpDecides(front: Bytes, stump: Bytes)
    requires Proper(front) && Stump(stump)
    ensures
      var cut := front + stump + ELLIPSIS;
      Sanitised(cut, |front + stump|) == cut <==> stump <= REPLACEMENT
  {
    var tail := stump + ELLIPSIS;
    Regroup(front, stump, ELLIPSIS);
    CleanAfterProper(front, tail);
    StumpIsReplaced(stump);
    CutWithin(front, stump, Clean(tail));
  }

  /** What a cut keeps of replaced bytes, compared with what was there. */
  lemma CutWithin(front: Bytes, stump: Bytes, rest: Bytes)
    requires Stump(stump) && REPLACEMENT <= rest && |rest| > 3
    ensures Cut(front + rest, |front + stump|) == front + stump + ELLIPSIS <==> stump <= REPLACEMENT
  {
    var max, n := |front + stump|, |stump|;
    assert (front + rest)[..max] == front + REPLACEMENT[..n];
    var cut, was := front + REPLACEMENT[..n] + ELLIPSIS, front + stump + ELLIPSIS;
    assert cut[|front|..max] == REPLACEMENT[..n] && was[|front|..max] == stump;
  }

  /**
   Whether cleaned text can be cut at `max` without a second pass changing it:
   not inside a rune, or so that what is left of the rune reads as the start of
   U+FFFD.
   */
  predicate CutsClean(t: Bytes, max: nat)
    requires 0 < max
  {
    || |t| <= max || !Continues(t[max])
    || t[max - 1] == REPLACEMENT[0] || (max > 1 && t[max - 2..max] == REPLACEMENT[..2])
  }

  /** Sanitised text holds no control character and keeps to its bound, ellipsis aside. */
  lemma SanitisedIsPlain(s: Bytes, max: nat)
    requires max > 0
    ensures Plain(Sanitised(s, max)) && |Sanitised(s, max)| <= max + |ELLIPSIS|
  {
    CleanIsProper(s);
    ProperIsPlain(Clean(s));
  }

  /** Exactly when sanitising twice is sanitising once: the cut spares the runes. */
  lemma SanitisedIsStableIff(s: Bytes, max: nat)
    requires max > 0
    ensures Sanitised(Sanitised(s, max), max) == Sanitised(s, max) <==> CutsClean(Clean(s), max)
  {
    var t := Clean(s);
    CleanIsProper(s);
    if |t| <= max {
      ProperIsClean(t);
    } else if !Continues(t[max]) {
      CutBetweenRunes(t, max);
      ReplacementIsProper();
      ProperConcat(t[..max], ELLIPSIS);
      ProperIsClean(t[..max] + ELLIPSIS);
      assert (t[..max] + ELLIPSIS)[..max] == t[..max];
    } else {
      var front, stump := CutThroughRune(t, max);
      StumpDecides(front, stump);
      StumpBytes(t, max, front, stump);
    }
  }

  lemma StumpBytes(t: Bytes, max: nat, front: Bytes, stump: Bytes)
    requires 0 < max < |t| && Continues(t[max]) && t[..max] == front + stump && Stump(stump)
    ensures stump <= REPLACEMENT <==> CutsClean(t, max)
  {
    var n := |stump|;
    assert stump == t[..max][max - n..] == t[max - n..max];
    assert forall i :: 0 < i < n ==> Continues(stump[i]);
    assert stump[n - 1] == t[max - 1];
    if n == 1 {
      assert stump == [t[max - 1]];
      if max > 1 { assert t[max - 2..max][1] == t[max - 1]; }
    } else {
      assert stump[n - 2] == t[max - 2] && t[max - 2..max] == [t[max - 2], t[max - 1]];
    }
  }

  /** Four hundred euro signs, cut at a thousand bytes, change in a second pass. */
  lemma EuroSignsAreCutThrough()
    ensures
      var s := seq(1200, i => [0xe2, 0x82, 0xac][i % 3] as byte);
      Clean(s) == s && !CutsClean(s, 1000)
  {
    var s := seq(1200, i => [0xe2, 0x82, 0xac][i % 3] as byte);
    EuroIsProper(s);
    ProperIsClean(s);
    assert s[1000] == 0x82 && s[999] == 0xe2 && s[998..1000][0] == 0xac;
  }

  lemma {:induction false} EuroIsProper(s: Bytes)
    requires |s| % 3 == 0 && forall i :: 0 <= i < |s| ==> s[i] == [0xe2, 0x82, 0xac][i % 3]
    ensures Proper(s)
  {
    if s != [] {
      assert s[1] == 0x82 && s[2] == 0xac && RuneSize(s) == 3;
      EuroIsProper(s[3..]);
    }
  }

  // --------------------------------------------------------- the job's state

  datatype View = View(state: State, message: Bytes, changed: seq<string>,
                       before: seq<ServiceState>, after: seq<ServiceState>,
                       steps: seq<Step>, progress: seq<ServiceState>, logBytes: nat, finishedAt: Option<int>)

  const FRESH := View(Running, [], [], [], [], [], [], 0, None)

  function Placeholder(name: string, now: int): Step {
    Step(name, "", now, 0, false, true, "", [])
  }

  /** The output a job keeps of a step, given what it has logged already. */
  function Kept(output: Bytes, logged: nat): Bytes {
    var clean := Sanitised(output, MAX_LOG_BYTES);
    var room := if logged <= MAX_LOG_BYTES then MAX_LOG_BYTES - logged else 0;
    if |clean| > room then clean[..room] + TRUNCATED else clean
  }

  predicate OpenStep(steps: seq<Step>) {
    steps != [] && steps[|steps| - 1].running
  }

  function Completed(steps: seq<Step>, s: Step): seq<Step> {
    if OpenStep(steps) then steps[..|steps| - 1] + [s] else steps + [s]
  }

  function Apply(v: View, call: Call, now: int): View {
    match call
    case StartStep(name) => v.(steps := v.steps + [Placeholder(name, now)])
    case AddStep(s) =>
      var kept := Kept(s.output, v.logBytes);
      v.(steps := Completed(v.steps, s.(output := kept)), logBytes := v.logBytes + |kept|)
    case SetProgress(states) => v.(progress := states)
    case SetBefore(states) => v.(before := states)
    case SetAfter(states) => v.(after := states)
    case SetChanged(services) => v.(changed := services)
  }

  const DID_NOT_COMPLETE := "did not complete"

  function Died(s: Step, now: int): Step {
    s.(running := false, durationMS := now - s.startedAt,
       error := if s.error == "" then DID_NOT_COMPLETE else s.error)
  }

  /** The steps of a job that ends: one still open is the step that died. */
  function Closed(steps: seq<Step>, now: int): seq<Step> {
    if OpenStep(steps) then steps[..|steps| - 1] + [Died(steps[|steps| - 1], now)] else steps
  }

  function Finished(v: View, state: State, message: Bytes, now: int): View {
    if Terminal(v.state) then v
    else v.(progress := [], state := state, message := Sanitised(message, MAX_MESSAGE_BYTES), finishedAt := Some(now),
            steps := Closed(v.steps, now))
  }

  // ------------------------------------------------------ what the calls show

  /** What a job keeps of an output: all of it, cleaned, while its log has room for it within 96 KiB, else the part that fits and a marker. */
  lemma KeptIs(output: Bytes, logged: nat)
    ensures
      var clean := Sanitised(output, 98304);
      && (logged + |clean| <= 98304 || clean == [] ==> Kept(output, logged) == clean)
      && (logged + |clean| > 98304 >= logged && clean != [] ==> Kept(output, logged) == clean[..98304 - logged] + TRUNCATED)
      && (logged > 98304 && clean != [] ==> Kept(output, logged) == TRUNCATED)
  {
  }

  /** A started step is shown last, running, and its report takes its place: cleaned output, and all else as reported. */
  lemma StepsShow(v: View, name: string, s: Step, began: int, now: int)
    ensures
      var open := Apply(v, StartStep(name), began);
      && open == v.(steps := open.steps) && |open.steps| == |v.steps| + 1 && open.steps[..|v.steps|] == v.steps
      && var last := open.steps[|v.steps|];
         last.name == name && last.running && last.startedAt == began && last.output == [] && last.error == ""
    ensures
      var done := Apply(Apply(v, StartStep(name), began), AddStep(s), now);
      && done == v.(steps := done.steps, logBytes := done.logBytes)
      && done.steps == v.steps + [s.(output := Kept(s.output, v.logBytes))]
      && done.logBytes == v.logBytes + |Kept(s.output, v.logBytes)|
  {
    var open := Apply(v, StartStep(name), began);
    assert open.steps[..|open.steps| - 1] == v.steps;
  }

  /** A report no step is open for is added. */
  lemma UnopenedIsAdded(v: View, s: Step, now: int)
    requires v.steps == [] || !v.steps[|v.steps| - 1].running
    ensures Apply(v, AddStep(s), now).steps == v.steps + [s.(output := Kept(s.output, v.logBytes))]
  {
  }

  /** Each list is the latest one set, and setting one touches no other. */
  lemma ListsShow(v: View, states: seq<ServiceState>, services: seq<string>, now: int)
    ensures Apply(v, SetProgress(states), now) == v.(progress := states)
    ensures Apply(v, SetBefore(states), now) == v.(before := states)
    ensures Apply(v, SetAfter(states), now) == v.(after := states)
    ensures Apply(v, SetChanged(services), now) == v.(changed := services)
  {
  }

  /**
   The end of a job: the first one counts; the state is the one given, the message at
   most a thousand bytes of the cleaned one, the lists stay, and of the steps only one
   left open changes, which is marked with an error unless it has one.
   */
  lemma FinishedIs(v: View, state: State, message: Bytes, now: int)
    ensures v.state != Running ==> Finished(v, state, message, now) == v
    ensures v.state == Running ==>
              var f := Finished(v, state, message, now);
              && f.state == state && f.message == Sanitised(message, 1000) && f.finishedAt == Some(now) && f.progress == []
              && f.changed == v.changed && f.before == v.before && f.after == v.after && f.logBytes == v.logBytes
              && |f.steps| == |v.steps|
              && (forall i :: 0 <= i < |v.steps| && (i < |v.steps| - 1 || !v.steps[i].running) ==> f.steps[i] == v.steps[i])
              && (v.steps != [] && v.steps[|v.steps| - 1].running ==>
                    var was, last := v.steps[|v.steps| - 1], f.steps[|v.steps| - 1];
                    && last.name == was.name && last.command == was.command && last.startedAt == was.startedAt
                    && last.ok == was.ok && last.output == was.output
                    && !last.running && last.durationMS == now - was.startedAt
                    && last.error == if was.error == "" then "did not complete" else was.error)
  {
  }

  class Job {
    const id: string
    const target: string
    var state: State
    var message: Bytes
    var changed: seq<string>
    var before: seq<ServiceState>
    var after: seq<ServiceState>
    var steps: seq<Step>
    var progress: seq<ServiceState>
    var logBytes: nat
    var finishedAt: Option<int>
    /** How often the done channel was closed; Go panics on the second time. */
    var closes: nat

    function ToView(): View
      reads this
    {
      View(state, message, changed, before, after, steps, progress, logBytes, finishedAt)
    }

    ghost predicate Valid()
      reads this
    {
      closes == if Terminal(state) then 1 else 0
    }

    constructor (id: string, target: string)
      ensures this.id == id && this.target == target
      ensures ToView() == FRESH && Valid()
    {
      this.id, this.target := id, target;
      state, message, changed, before, after := Running, [], [], [], [];
      steps, progress, logBytes, finishedAt, closes := [], [], 0, None, 0;
    }

    method StartStep(name: string, now: int)
      modifies this`steps
      ensures ToView() == Apply(old(ToView()), Call.StartStep(name), now)
    {
      steps := steps + [Step(name, "", now, 0, false, true, "", [])];
    }

    method AddStep(step: Step)
      modifies this`steps, this`logBytes
      ensures forall now :: ToView() == Apply(old(ToView()), Call.AddStep(step), now)
    {
      var output := Sanitise(step.output, MAX_LOG_BYTES);
      if logBytes + |output| > MAX_LOG_BYTES {
        var remaining := MAX_LOG_BYTES - logBytes;
        if remaining < 0 {
          remaining := 0;
        }
        if |output| > remaining {
          output := output[..remaining] + TRUNCATED;
        }
      }
      assert output == Kept(step.output, logBytes);
      var s := step.(output := output);
      logBytes := logBytes + |output|;
      var n := |steps|;
      if n > 0 && steps[n - 1].running {
        steps := steps[n - 1 := s];
        assert steps == Completed(old(steps), s);
        return;
      }
      steps := steps + [s];
      assert steps == Completed(old(steps), s);
    }

    method SetProgress(states: seq<ServiceState>)
      modifies this`progress
      ensures progress == states
    {
      progress := states;
    }

    method SetBefore(states: seq<ServiceState>)
      modifies this`before
      ensures before == states
    {
      before := states;
    }

    method SetAfter(states: seq<ServiceState>)
      modifies this`after
      ensures after == states
    {
      after := states;
    }

    method SetChanged(services: seq<string>)
      modifies this`changed
      ensures changed == services
    {
      changed := services;
    }

    /** One call of the sink interface. */
    method Receive(call: Call, now: int)
      modifies this
      ensures ToView() == Apply(old(ToView()), call, now) && closes == old(closes)
    {
      match call
      case StartStep(name) => StartStep(name, now);
      case AddStep(step) => AddStep(step);
      case SetProgress(states) => SetProgress(states);
      case SetBefore(states) => SetBefore(states);
      case SetAfter(states) => SetAfter(states);
      case SetChanged(services) => SetChanged(services);
    }

    /**
     `finish`: the first end counts. An end that leaves the state running closes the
     channel all the same, and the job goes on looking live.
     */
    method Finish(newState: State, newMessage: Bytes, now: int)
      modifies this
      ensures ToView() == Finished(old(ToView()), newState, newMessage, now)
      ensures closes == old(closes) + if Terminal(old(state)) then 0 else 1
      ensures old(Valid()) ==> (Valid() <==> Terminal(old(state)) || Terminal(newState))
    {
      if Terminal(state) { return; }
      progress := [];
      state := newState;
      message := Sanitise(newMessage, MAX_MESSAGE_BYTES);
      finishedAt := Some(now);
      CloseOpenStep(now);
      closes := closes + 1;
    }

    /** The open step of an ending job is marked as one that died. */
    method CloseOpenStep(now: int)
      modifies this`steps
      ensures steps == Closed(old(steps), now)
    {
      var n := |steps|;
      if n > 0 && steps[n - 1].running {
        var s := steps[n - 1].(running := false);
        s := s.(durationMS := now - s.startedAt);
        if s.error == "" {
          s := s.(error := DID_NOT_COMPLETE);
        }
        steps := steps[n - 1 := s];
        assert steps == old(steps)[..n - 1] + [s];
      }
    }
  }

  // ------------------------------------------------------------- whole runs

  /** A sink call and the job's clock when it arrives. */
  datatype Timed = Timed(call: Call, now: int)

  function ApplyAll(v: View, calls: seq<Timed>): View {
    if calls == [] then v
    else Apply(ApplyAll(v, calls[..|calls| - 1]), calls[|calls| - 1].call, calls[|calls| - 1].now)
  }

  function Outputs(steps: seq<Step>): nat {
    if steps == [] then 0 else Outputs(steps[..|steps| - 1]) + |steps[|steps| - 1].output|
  }

  /** The sizes of the cleaned outputs reported, in order. */
  function Sizes(calls: seq<Timed>): seq<nat> {
    if calls == [] then []
    else
      var last := calls[|calls| - 1].call;
      Sizes(calls[..|calls| - 1]) + if last.AddStep? then [|Sanitised(last.step.output, MAX_LOG_BYTES)|] else []
  }

  /** The log after one more output of this size. */
  function Grown(logged: nat, size: nat): nat {
    var room := if logged <= MAX_LOG_BYTES then MAX_LOG_BYTES - logged else 0;
    if size > room then logged + room + |TRUNCATED| else logged + size
  }

  function LogAfter(sizes: seq<nat>): nat {
    if sizes == [] then 0 else Grown(LogAfter(sizes[..|sizes| - 1]), sizes[|sizes| - 1])
  }

  function Sum(sizes: seq<nat>): nat {
    if sizes == [] then 0 else Sum(sizes[..|sizes| - 1]) + sizes[|sizes| - 1]
  }

  lemma KeptGrows(output: Bytes, logged: nat)
    ensures logged + |Kept(output, logged)| == Grown(logged, |Sanitised(output, MAX_LOG_BYTES)|)
  {
  }

  /** The size of a job's log depends on the cleaned sizes alone. */
  lemma {:induction false} LogIsLogAfter(calls: seq<Timed>)
    ensures ApplyAll(FRESH, calls).logBytes == LogAfter(Sizes(calls))
  {
    if calls != [] {
      var init, last := calls[..|calls| - 1], calls[|calls| - 1];
      LogIsLogAfter(init);
      if last.call.AddStep? {
        KeptGrows(last.call.step.output, ApplyAll(FRESH, init).logBytes);
        assert Sizes(calls)[..|Sizes(calls)| - 1] == Sizes(init);
      } else {
        assert Sizes(calls) == Sizes(init);
      }
    }
  }

  lemma {:induction false} SumDecides(sizes: seq<nat>)
    ensures LogAfter(sizes) <= MAX_LOG_BYTES <==> Sum(sizes) <= MAX_LOG_BYTES
    ensures Sum(sizes) <= MAX_LOG_BYTES ==> LogAfter(sizes) == Sum(sizes)
  {
    if sizes != [] { SumDecides(sizes[..|sizes| - 1]); }
  }

  /**
   Exactly when a job's log keeps to its cap: when everything reported fits in it,
   and then nothing is cut.
   */
  lemma LogIsCappedIff(calls: seq<Timed>)
    ensures ApplyAll(FRESH, calls).logBytes <= MAX_LOG_BYTES <==> Sum(Sizes(calls)) <= MAX_LOG_BYTES
    ensures Sum(Sizes(calls)) <= MAX_LOG_BYTES ==> ApplyAll(FRESH, calls).logBytes == Sum(Sizes(calls))
  {
    LogIsLogAfter(calls);
    SumDecides(Sizes(calls));
  }

  /** Every output but the first finds something to cut, and the first fills the log by itself. */
  ghost predicate AllCut(sizes: seq<nat>) {
    sizes != [] && sizes[0] > MAX_LOG_BYTES && forall i :: 0 < i < |sizes| ==> sizes[i] > 0
  }

  lemma {:induction false} MarkersBound(sizes: seq<nat>)
    ensures LogAfter(sizes) <= MAX_LOG_BYTES + |TRUNCATED| * |sizes|
    ensures sizes != [] ==> (LogAfter(sizes) == MAX_LOG_BYTES + |TRUNCATED| * |sizes| <==> AllCut(sizes))
  {
    if sizes != [] {
      var n := |sizes| - 1;
      var init := sizes[..n];
      MarkersBound(init);
      assert |TRUNCATED| * |sizes| == |TRUNCATED| * n + |TRUNCATED|;
      assert AllCut(sizes) <==> if n == 0 then sizes[0] > MAX_LOG_BYTES else AllCut(init) && sizes[n] > 0;
    }
  }

  /** It passes the cap by at most one truncation marker a step, and by that much exactly when every output was cut. */
  lemma LogIsBounded(calls: seq<Timed>)
    ensures
      var sizes, logged := Sizes(calls), ApplyAll(FRESH, calls).logBytes;
      && logged <= MAX_LOG_BYTES + |TRUNCATED| * |sizes|
      && (sizes != [] ==> (logged == MAX_LOG_BYTES + |TRUNCATED| * |sizes| <==> AllCut(sizes)))
  {
    LogIsLogAfter(calls);
    MarkersBound(Sizes(calls));
  }

  ghost predicate PlaceholdersAreEmpty(steps: seq<Step>) {
    forall i :: 0 <= i < |steps| && steps[i].running ==> steps[i].output == []
  }

  /** The log of a job is what its steps hold. */
  lemma {:induction false} LogIsItsOutputs(calls: seq<Timed>)
    requires forall i :: 0 <= i < |calls| && calls[i].call.AddStep? ==> !calls[i].call.step.running
    ensures
      var v := ApplyAll(FRESH, calls);
      PlaceholdersAreEmpty(v.steps) && Outputs(v.steps) == v.logBytes
  {
    if calls != [] {
      var init, last := calls[..|calls| - 1], calls[|calls| - 1];
      LogIsItsOutputs(init);
      OutputsStep(ApplyAll(FRESH, init), last.call, last.now);
    }
  }

  lemma {:induction false} OutputsStep(v: View, call: Call, now: int)
    requires PlaceholdersAreEmpty(v.steps) && Outputs(v.steps) == v.logBytes && (call.AddStep? ==> !call.step.running)
    ensures PlaceholdersAreEmpty(Apply(v, call, now).steps) && Outputs(Apply(v, call, now).steps) == Apply(v, call, now).logBytes
  {
    match call
    case StartStep(name) => OutputsSnoc(v.steps, Placeholder(name, now));
    case AddStep(s) => AddKeepsOutputs(v, s, now);
    case _ =>
  }

  lemma {:induction false} AddKeepsOutputs(v: View, s: Step, now: int)
    requires PlaceholdersAreEmpty(v.steps) && Outputs(v.steps) == v.logBytes && !s.running
    ensures
      var w := Apply(v, AddStep(s), now);
      PlaceholdersAreEmpty(w.steps) && Outputs(w.steps) == w.logBytes
  {
    var w, kept := Apply(v, AddStep(s), now), Kept(s.output, v.logBytes);
    assert w.steps == Completed(v.steps, s.(output := kept)) && w.logBytes == v.logBytes + |kept|;
    OutputsAdd(v.steps, s.(output := kept));
  }

  lemma {:induction false} OutputsAdd(steps: seq<Step>, s: Step)
    requires PlaceholdersAreEmpty(steps) && !s.running
    ensures PlaceholdersAreEmpty(Completed(steps, s)) && Outputs(Completed(steps, s)) == Outputs(steps) + |s.output|
  {
    if OpenStep(steps) { OutputsSnoc(steps[..|steps| - 1], s); } else { OutputsSnoc(steps, s); }
  }

  lemma {:induction false} OutputsSnoc(steps: seq<Step>, s: Step)
    ensures Outputs(steps + [s]) == Outputs(steps) + |s.output|
  {
    assert (steps + [s])[..|steps|] == steps;
  }
}
