/**
 The per-source counter of failed authentications (internal/server/auth.go).
 Times are nanoseconds of a clock that does not run backwards.
 */
module Throttle {
  import opened Wrappers
  import Decimal

  const WINDOW: nat := 60_000_000_000
  const MAX_FAILURES: nat := 20
  const MAX_KEYS: nat := 4096

  datatype Entry = Entry(failures: nat, windowStart: int)

  datatype Kind = Allow | Fail

  datatype Op = Op(kind: Kind, key: string, now: int)

  type Entries = map<string, Entry>

  predicate Expired(e: Entry, now: int) { now - e.windowStart > WINDOW }

  // ------------------------------------------------- what the class computes

  function Swept(m: Entries, now: int): (r: Entries)
    ensures r.Keys <= m.Keys
  {
    map k | k in m && !Expired(m[k], now) :: m[k]
  }

  /** The table is thrown away: a new source arrives and no entry has expired. */
  predicate Resets(m: Entries, key: string, now: int) {
    key !in m && |m| >= MAX_KEYS && |Swept(m, now)| >= MAX_KEYS
  }

  function WithRoom(m: Entries, now: int): Entries {
    if |m| < MAX_KEYS then m
    else if |Swept(m, now)| < MAX_KEYS then Swept(m, now)
    else map[]
  }

  function Touched(m: Entries, key: string, now: int): (r: Entries)
    ensures key in r && !Expired(r[key], now)
  {
    var n := if key in m then m else WithRoom(m, now)[key := Entry(0, now)];
    if Expired(n[key], now) then n[key := Entry(0, now)] else n
  }

  function After(m: Entries, op: Op): Entries {
    var n := Touched(m, op.key, op.now);
    match op.kind
    case Allow => n
    case Fail => n[op.key := n[op.key].(failures := n[op.key].failures + 1)]
  }

  predicate Allowed(m: Entries, key: string, now: int) {
    Touched(m, key, now)[key].failures < MAX_FAILURES
  }

  class AuthThrottle {
    var entries: Entries

    constructor ()
      ensures entries == map[]
    {
      entries := map[];
    }

    method Sweep(now: int)
      modifies this
      ensures entries == Swept(old(entries), now)
    {
      var left := entries.Keys;
      while left != {}
        invariant left <= entries.Keys <= old(entries).Keys
        invariant forall k :: k in entries ==> entries[k] == old(entries)[k]
        invariant forall k :: k in old(entries) && k !in left ==> (k in entries <==> !Expired(old(entries)[k], now))
      {
        var k :| k in left;
        left := left - {k};
        if Expired(entries[k], now) {
          entries := entries - {k};
        }
      }
    }

    method Touch(key: string, now: int)
      modifies this
      ensures entries == Touched(old(entries), key, now)
    {
      if key !in entries {
        if |entries| >= MAX_KEYS {
          Sweep(now);
        }
        if |entries| >= MAX_KEYS {
          entries := map[];
        }
        entries := entries[key := Entry(0, now)];
      }
      if now - entries[key].windowStart > WINDOW {
        entries := entries[key := Entry(0, now)];
      }
    }

    method Allow(key: string, now: int) returns (ok: bool)
      modifies this
      ensures ok == Allowed(old(entries), key, now)
      ensures entries == After(old(entries), Op(Kind.Allow, key, now))
    {
      Touch(key, now);
      ok := entries[key].failures < MAX_FAILURES;
    }

    method Fail(key: string, now: int)
      modifies this
      ensures entries == After(old(entries), Op(Kind.Fail, key, now))
    {
      Touch(key, now);
      entries := entries[key := entries[key].(failures := entries[key].failures + 1)];
    }
  }

  // ------------------------------------------------------------------- runs

  /** The table after a run that started empty. */
  function Run(ops: seq<Op>): Entries {
    if ops == [] then map[] else After(Run(ops[..|ops| - 1]), ops[|ops| - 1])
  }

  ghost predicate Ordered(ops: seq<Op>) {
    forall i, j :: 0 <= i < j < |ops| ==> ops[i].now <= ops[j].now
  }

  /** Failures of `key` recorded at or after `since`. */
  function Failures(ops: seq<Op>, key: string, since: int): nat {
    if ops == [] then 0
    else
      var op := ops[|ops| - 1];
      Failures(ops[..|ops| - 1], key, since) + if op.kind == Fail && op.key == key && op.now >= since then 1 else 0
  }

  lemma {:induction false} FailuresMonotone(ops: seq<Op>, key: string, since: int, earlier: int)
    requires earlier <= since
    ensures Failures(ops, key, since) <= Failures(ops, key, earlier)
  {
    if ops != [] { FailuresMonotone(ops[..|ops| - 1], key, since, earlier); }
  }

  lemma {:induction false} CardinalitySubset<T>(a: set<T>, b: set<T>)
    requires a <= b
    ensures |a| <= |b|
    ensures a != b ==> |a| < |b|
  {
    if a != {} {
      var x :| x in a;
      CardinalitySubset(a - {x}, b - {x});
    }
  }

  /** In every run the table stays bounded and never counts a failure that was not recorded in the entry's window. */
  lemma {:induction false} CountsAreReal(ops: seq<Op>)
    requires Ordered(ops)
    ensures |Run(ops)| <= 4096
    ensures forall k :: k in Run(ops) ==> Run(ops)[k].failures <= Failures(ops, k, Run(ops)[k].windowStart)
    ensures forall k :: k in Run(ops) ==> ops != [] && Run(ops)[k].windowStart <= ops[|ops| - 1].now
  {
    if ops != [] {
      var init, op := ops[..|ops| - 1], ops[|ops| - 1];
      CountsAreReal(init);
      StepBounded(Run(init), op);
      forall k | k in Run(ops) ensures Run(ops)[k].failures <= Failures(ops, k, Run(ops)[k].windowStart) && Run(ops)[k].windowStart <= op.now {
        StepCounts(Run(init), op, k);
      }
    }
  }

  lemma StepBounded(m: Entries, op: Op)
    requires |m| <= MAX_KEYS
    ensures |After(m, op)| <= MAX_KEYS
  {
    var n := Touched(m, op.key, op.now);
    if op.key in m { assert n.Keys == m.Keys; }
    else { assert n.Keys == WithRoom(m, op.now).Keys + {op.key}; }
    assert After(m, op).Keys == n.Keys;
  }

  lemma StepCounts(m: Entries, op: Op, k: string)
    requires k in After(m, op)
    ensures k != op.key ==> k in m && After(m, op)[k] == m[k]
    ensures k == op.key && op.kind == Allow ==> After(m, op)[k] == Entry(0, op.now) || (k in m && After(m, op)[k] == m[k])
    ensures k == op.key && op.kind == Fail ==>
              || After(m, op)[k] == Entry(1, op.now)
              || (k in m && !Expired(m[k], op.now) && After(m, op)[k] == m[k].(failures := m[k].failures + 1))
  {
  }

  /** A refusal is always backed by twenty failures of that very source within the last window. */
  lemma NoWrongLockout(ops: seq<Op>, key: string, now: int)
    requires Ordered(ops + [Op(Allow, key, now)])
    ensures !Allowed(Run(ops), key, now) ==> Failures(ops, key, now - 60_000_000_000) >= 20
  {
    assert Ordered(ops) by {
      forall i, j | 0 <= i < j < |ops| ensures ops[i].now <= ops[j].now {
        assert (ops + [Op(Allow, key, now)])[i] == ops[i] && (ops + [Op(Allow, key, now)])[j] == ops[j];
      }
    }
    CountsAreReal(ops);
    var m := Run(ops);
    if !Allowed(m, key, now) {
      FailuresMonotone(ops, key, m[key].windowStart, now - WINDOW);
    }
  }

  /** Failures of one source, all within a minute of the first. */
  ghost predicate FailsWithin(ops: seq<Op>, key: string) {
    forall i :: 0 <= i < |ops| ==>
      ops[i].kind == Fail && ops[i].key == key && ops[0].now <= ops[i].now <= ops[0].now + 60_000_000_000
  }

  lemma {:induction false} FailsAreCounted(ops: seq<Op>, key: string)
    requires ops != [] && FailsWithin(ops, key)
    ensures Run(ops) == map[key := Entry(|ops|, ops[0].now)]
  {
    var n := |ops| - 1;
    if n == 0 { assert ops[..0] == []; } else { FailsAreCounted(ops[..n], key); }
  }

  /** The twentieth failure within a minute of the first shuts its source out for the rest of that minute, and no earlier one does. */
  lemma TwentyFailuresRefuse(ops: seq<Op>, key: string, now: int)
    requires ops != [] && FailsWithin(ops, key) && ops[0].now <= now
    ensures !Allowed(Run(ops), key, now) <==> |ops| >= 20 && now <= ops[0].now + 60_000_000_000
  {
    FailsAreCounted(ops, key);
  }

  // -------------------------------------------- the independent counter

  /** One source's counter with no other source in sight. */
  function Counter(ops: seq<Op>, key: string): Option<Entry> {
    if ops == [] then None
    else
      var op := ops[|ops| - 1];
      var before := Counter(ops[..|ops| - 1], key);
      if op.key != key then before
      else
        var e := Fresh(before, op.now);
        Some(if op.kind == Fail then e.(failures := e.failures + 1) else e)
  }

  function Fresh(c: Option<Entry>, now: int): Entry {
    if c.Some? && !Expired(c.value, now) then c.value else Entry(0, now)
  }

  predicate CounterAllows(ops: seq<Op>, key: string, now: int) {
    Fresh(Counter(ops, key), now).failures < MAX_FAILURES
  }

  predicate NeverResets(ops: seq<Op>) {
    if ops == [] then true
    else
      var init, op := ops[..|ops| - 1], ops[|ops| - 1];
      NeverResets(init) && !Resets(Run(init), op.key, op.now)
  }

  /** The table holds the counter of `key`, or has dropped it after it expired. */
  ghost predicate Holds(ops: seq<Op>, key: string, now: int) {
    var c := Counter(ops, key);
    if key in Run(ops) then c == Some(Run(ops)[key])
    else c.None? || Expired(c.value, now)
  }

  lemma {:induction false} RunHolds(ops: seq<Op>, key: string, now: int)
    requires Ordered(ops) && NeverResets(ops)
    requires ops == [] || ops[|ops| - 1].now <= now
    ensures Holds(ops, key, now)
  {
    if ops != [] {
      var init, op := ops[..|ops| - 1], ops[|ops| - 1];
      RunHolds(init, key, op.now);
      RunHolds(init, op.key, op.now);
    }
  }

  /** At every point of a run, just after an operation, the table holds every source's own counter. */
  ghost predicate HoldsThroughout(ops: seq<Op>) {
    forall n, key :: 0 < n <= |ops| ==> HoldsAt(ops, n, key)
  }

  ghost predicate HoldsAt(ops: seq<Op>, n: nat, key: string)
    requires 0 < n <= |ops|
  {
    Holds(ops[..n], key, ops[n - 1].now)
  }

  lemma {:induction false} NeverResetsPrefix(ops: seq<Op>, n: nat)
    requires NeverResets(ops) && n <= |ops|
    ensures NeverResets(ops[..n])
  {
    if n < |ops| {
      NeverResetsPrefix(ops[..|ops| - 1], n);
      assert ops[..|ops| - 1][..n] == ops[..n];
    } else {
      assert ops[..n] == ops;
    }
  }

  /** A reset drops the counter of some source whose window is still running. */
  lemma ResetDropsACounter(init: seq<Op>, op: Op) returns (key: string)
    requires Ordered(init + [op]) && NeverResets(init) && Resets(Run(init), op.key, op.now)
    ensures !Holds(init + [op], key, op.now)
  {
    var m, ops := Run(init), init + [op];
    assert ops[..|init|] == init;
    assert Swept(m, op.now) != map[];
    key :| key in Swept(m, op.now);
    assert Ordered(init) by {
      assert forall i :: 0 <= i < |init| ==> ops[i] == init[i];
    }
    assert init != [] ==> ops[|init| - 1].now <= ops[|init|].now;
    RunHolds(init, key, op.now);
    assert key != op.key && key !in Run(ops);
  }

  /**
   Exactly when the table is a set of independent counters: a run never resets it
   if and only if it holds every source's own counter all along.
   */
  lemma {:induction false} CountersHoldIffNeverReset(ops: seq<Op>)
    requires Ordered(ops)
    ensures HoldsThroughout(ops) <==> NeverResets(ops)
  {
    if NeverResets(ops) {
      forall n, key | 0 < n <= |ops| ensures HoldsAt(ops, n, key) {
        NeverResetsPrefix(ops, n);
        RunHolds(ops[..n], key, ops[n - 1].now);
      }
    } else {
      var init, op := ops[..|ops| - 1], ops[|ops| - 1];
      assert init + [op] == ops;
      if NeverResets(init) {
        var key := ResetDropsACounter(init, op);
        assert ops[..|ops|] == ops && !HoldsAt(ops, |ops|, key);
      } else {
        CountersHoldIffNeverReset(init);
        var n, key :| 0 < n <= |init| && !HoldsAt(init, n, key);
        assert init[..n] == ops[..n] && !HoldsAt(ops, n, key);
      }
    }
  }

  /** Sweeping is invisible: without a reset every source gets the verdict of its own counter. */
  lemma VerdictsAreIndependent(ops: seq<Op>, key: string, now: int)
    requires Ordered(ops) && NeverResets(ops) && !Resets(Run(ops), key, now)
    requires ops == [] || ops[|ops| - 1].now <= now
    ensures Allowed(Run(ops), key, now) <==> CounterAllows(ops, key, now)
  {
    RunHolds(ops, key, now);
  }

  function Sources(ops: seq<Op>): set<string> {
    set i | 0 <= i < |ops| :: ops[i].key
  }

  /** Up to the key limit of distinct sources, the table never resets. */
  lemma {:induction false} FewSourcesNeverReset(ops: seq<Op>)
    requires |Sources(ops)| <= MAX_KEYS
    ensures NeverResets(ops) && Run(ops).Keys <= Sources(ops)
  {
    if ops != [] {
      var init, op := ops[..|ops| - 1], ops[|ops| - 1];
      assert Sources(ops) == Sources(init) + {op.key};
      CardinalitySubset(Sources(init), Sources(ops));
      FewSourcesNeverReset(init);
      if op.key !in Run(init) {
        CardinalitySubset(Run(init).Keys, Sources(ops));
      }
    }
  }

  /** One loud source cannot lock another one out, however many sources there are. */
  lemma {:induction false} QuietSourceIsAllowed(ops: seq<Op>, key: string, now: int)
    requires Ordered(ops + [Op(Allow, key, now)])
    requires forall i :: 0 <= i < |ops| ==> ops[i].key == key ==> ops[i].kind == Allow
    ensures Allowed(Run(ops), key, now)
  {
    NoWrongLockout(ops, key, now);
    NoFailures(ops, key, now - WINDOW);
  }

  lemma {:induction false} NoFailures(ops: seq<Op>, key: string, since: int)
    requires forall i :: 0 <= i < |ops| ==> ops[i].key == key ==> ops[i].kind == Allow
    ensures Failures(ops, key, since) == 0
  {
    if ops != [] { NoFailures(ops[..|ops| - 1], key, since); }
  }

  // ----------------------------------- what a reset does to the verdicts

  const VICTIM := "v"

  function Filler(n: nat): string { "k" + Decimal.Print(n) }

  /** `n` further sources arrive at time zero, after the victim. */
  function Crowd(n: nat): seq<Op> {
    if n == 0 then [Op(Allow, VICTIM, 0)] else Crowd(n - 1) + [Op(Allow, Filler(n), 0)]
  }

  lemma FillersDiffer(n: nat, m: nat)
    requires n != m
    ensures Filler(n) != Filler(m) && Filler(n) != VICTIM
  {
    Decimal.ValueOfPrint(n);
    Decimal.ValueOfPrint(m);
    assert Filler(n)[1..] == Decimal.Print(n) && Filler(m)[1..] == Decimal.Print(m);
  }

  lemma NewSource(m: Entries, key: string, now: int)
    requires key !in m && |m| < MAX_KEYS
    ensures After(m, Op(Allow, key, now)) == m[key := Entry(0, now)]
    ensures |After(m, Op(Allow, key, now))| == |m| + 1
  {
  }

  ghost predicate AllUntouched(m: Entries, n: nat) {
    forall k :: k in m ==> m[k] == Entry(0, 0) && (k == VICTIM || exists i: nat :: i <= n && k == Filler(i))
  }

  lemma {:induction false} CrowdFills(n: nat)
    requires n < MAX_KEYS
    ensures |Run(Crowd(n))| == n + 1 && AllUntouched(Run(Crowd(n)), n)
  {
    var ops := Crowd(n);
    if n == 0 {
      assert ops[..0] == [];
      NewSource(map[], VICTIM, 0);
    } else {
      CrowdFills(n - 1);
      assert ops[..|ops| - 1] == Crowd(n - 1);
      CrowdGrows(Run(Crowd(n - 1)), n);
    }
  }

  lemma CrowdGrows(m: Entries, n: nat)
    requires 0 < n == |m| < MAX_KEYS && AllUntouched(m, n - 1)
    ensures
      var r := After(m, Op(Allow, Filler(n), 0));
      |r| == n + 1 && AllUntouched(r, n)
  {
    forall i: nat | i < n ensures Filler(i) != Filler(n) && Filler(n) != VICTIM {
      FillersDiffer(n, i);
    }
    FillersDiffer(n, 0);
    assert Filler(n) !in m;
    NewSource(m, Filler(n), 0);
  }

  lemma {:induction false} CrowdCounter(n: nat)
    ensures Counter(Crowd(n), VICTIM) == Some(Entry(0, 0))
  {
    var ops := Crowd(n);
    if n == 0 {
      assert ops[..0] == [];
    } else {
      CrowdCounter(n - 1);
      assert ops[..|ops| - 1] == Crowd(n - 1);
      FillersDiffer(n, 0);
    }
  }

  function Repeated(op: Op, n: nat): seq<Op> {
    if n == 0 then [] else Repeated(op, n - 1) + [op]
  }

  lemma {:induction false} FailingRun(start: seq<Op>, n: nat)
    requires VICTIM !in Run(start) && |Run(start)| < MAX_KEYS && Counter(start, VICTIM) == Some(Entry(0, 0))
    ensures
      var ops := start + Repeated(Op(Fail, VICTIM, WINDOW), n);
      && Counter(ops, VICTIM) == Some(Entry(n, 0))
      && if n == 0 then Run(ops) == Run(start)
         else VICTIM in Run(ops) && Run(ops)[VICTIM] == Entry(n, WINDOW)
  {
    var op := Op(Fail, VICTIM, WINDOW);
    var ops := start + Repeated(op, n);
    if n == 0 {
      assert ops == start;
    } else {
      FailingRun(start, n - 1);
      var before := start + Repeated(op, n - 1);
      assert ops == before + [op];
      assert ops[..|ops| - 1] == before;
      FailingStep(Run(before), n);
    }
  }

  lemma FailingStep(m: Entries, n: nat)
    requires n > 0
    requires if n == 1 then VICTIM !in m && |m| < MAX_KEYS else VICTIM in m && m[VICTIM] == Entry(n - 1, WINDOW)
    ensures
      var r := After(m, Op(Fail, VICTIM, WINDOW));
      VICTIM in r && r[VICTIM] == Entry(n, WINDOW)
  {
  }

  /**
   Past the key limit the table is not a set of independent counters: the reset
   moves the victim's window, so it is still refused when its own counter,
   undisturbed, would have started over.
   */
  lemma ResetMovesTheWindow()
    ensures
      var ops := Crowd(MAX_KEYS - 1) + [Op(Allow, Filler(MAX_KEYS), WINDOW)] + Repeated(Op(Fail, VICTIM, WINDOW), 20);
      !Allowed(Run(ops), VICTIM, WINDOW + 1) && CounterAllows(ops, VICTIM, WINDOW + 1)
  {
    var start := Crowd(MAX_KEYS - 1) + [Op(Allow, Filler(MAX_KEYS), WINDOW)];
    CrowdCounter(MAX_KEYS - 1);
    CrowdIsReset();
    FillersDiffer(MAX_KEYS, 0);
    FailingRun(start, 20);
  }

  /** One source too many leaves nothing but itself. */
  lemma CrowdIsReset()
    ensures Run(Crowd(MAX_KEYS - 1) + [Op(Allow, Filler(MAX_KEYS), WINDOW)]) == map[Filler(MAX_KEYS) := Entry(0, WINDOW)]
  {
    CrowdFills(MAX_KEYS - 1);
    var crowd := Crowd(MAX_KEYS - 1);
    var start := crowd + [Op(Allow, Filler(MAX_KEYS), WINDOW)];
    assert start[..|start| - 1] == crowd;
    var m := Run(crowd);
    assert Filler(MAX_KEYS) !in m by {
      forall i: nat | i < MAX_KEYS ensures Filler(i) != Filler(MAX_KEYS) && Filler(MAX_KEYS) != VICTIM {
        FillersDiffer(MAX_KEYS, i);
      }
    }
    assert Swept(m, WINDOW) == m;
  }
}
