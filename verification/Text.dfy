/**
 String functions of Go's strings package that the modelled code calls, and
 decimal notation. Characters are code points.
 */
module Text {

  /** Index of the last `c` in `s`, or -1. */
  function LastIndex(s: string, c: char): (i: int)
    ensures -1 <= i < |s|
    ensures i >= 0 ==> s[i] == c
    ensures forall j :: i < j < |s| ==> s[j] != c
  {
    if s == [] then -1
    else if s[|s| - 1] == c then |s| - 1
    else LastIndex(s[..|s| - 1], c)
  }

  /** Index of the first `c` in `s`, or -1. */
  function Index(s: string, c: char): (i: int)
    ensures -1 <= i < |s|
    ensures i >= 0 ==> s[i] == c
    ensures forall j :: 0 <= j < (if i < 0 then |s| else i) ==> s[j] != c
  {
    if s == [] then -1
    else if s[0] == c then 0
    else
      var i := Index(s[1..], c);
      if i < 0 then -1 else i + 1
  }

  /** strings.Split for a one-character separator. */
  function Split(s: string, sep: char): (parts: seq<string>)
    ensures |parts| >= 1
    ensures forall i :: 0 <= i < |parts| ==> sep !in parts[i]
  {
    if s == [] then [[]] else Prepend(s[0], Split(s[1..], sep), sep)
  }

  /** The parts of a text one character longer at the front. */
  function Prepend(c: char, parts: seq<string>, sep: char): (r: seq<string>)
    requires parts != []
    ensures r != []
    ensures (forall i :: 0 <= i < |parts| ==> sep !in parts[i]) ==> forall i :: 0 <= i < |r| ==> sep !in r[i]
  {
    if c == sep then [[]] + parts else [[c] + parts[0]] + parts[1..]
  }

  lemma PrependConcat(c: char, left: seq<string>, right: seq<string>, sep: char)
    requires left != []
    ensures Prepend(c, left + right, sep) == Prepend(c, left, sep) + right
  {
    assert (left + right)[1..] == left[1..] + right;
  }

  /** strings.Join for a one-character separator. */
  function Join(parts: seq<string>, sep: char): string {
    if parts == [] then []
    else if |parts| == 1 then parts[0]
    else parts[0] + [sep] + Join(parts[1..], sep)
  }

  lemma JoinPrepend(c: char, parts: seq<string>, sep: char)
    requires parts != []
    ensures Join([[c] + parts[0]] + parts[1..], sep) == [c] + Join(parts, sep)
  {
    var longer := [[c] + parts[0]] + parts[1..];
    if |parts| > 1 {
      assert longer[1..] == parts[1..];
      assert [c] + parts[0] + [sep] + Join(parts[1..], sep) == [c] + (parts[0] + [sep] + Join(parts[1..], sep));
    }
  }

  lemma {:induction false} JoinSplit(s: string, sep: char)
    ensures Join(Split(s, sep), sep) == s
  {
    if s != [] {
      var rest := Split(s[1..], sep);
      JoinSplit(s[1..], sep);
      if s[0] == sep {
        assert ([[]] + rest)[1..] == rest;
        assert [] + [sep] + s[1..] == s;
      } else {
        JoinPrepend(s[0], rest, sep);
      }
    }
  }

  lemma IndexOfConcat(a: string, b: string, sep: char)
    ensures Index(a + [sep] + b, sep) == if Index(a, sep) < 0 then |a| else Index(a, sep)
  {
    var s := a + [sep] + b;
    var i, j := Index(s, sep), Index(a, sep);
    assert s[|a|] == sep;
    if i < |a| { assert s[i] == a[i]; }
    if 0 <= j { assert s[j] == a[j]; }
  }

  /** Splitting a text cut at a separator splits its two halves. */
  lemma {:induction false} SplitAround(a: string, b: string, sep: char)
    ensures Split(a + [sep] + b, sep) == Split(a, sep) + Split(b, sep)
  {
    var s := a + [sep] + b;
    if a == [] {
      assert s[1..] == b && s[0] == sep;
    } else {
      SplitAround(a[1..], b, sep);
      assert s[1..] == a[1..] + [sep] + b && s[0] == a[0];
      PrependConcat(a[0], Split(a[1..], sep), Split(b, sep), sep);
    }
  }

  lemma {:induction false} SplitWhole(s: string, sep: char)
    requires sep !in s
    ensures Split(s, sep) == [s]
  {
    if s != [] {
      SplitWhole(s[1..], sep);
      assert [s[0]] + s[1..] == s;
    }
  }

  lemma {:induction false} SplitJoin(parts: seq<string>, sep: char)
    requires parts != [] && forall i :: 0 <= i < |parts| ==> sep !in parts[i]
    ensures Split(Join(parts, sep), sep) == parts
  {
    SplitWhole(parts[0], sep);
    if |parts| > 1 {
      var rest := Join(parts[1..], sep);
      SplitJoin(parts[1..], sep);
      SplitAround(parts[0], rest, sep);
      assert [parts[0]] + parts[1..] == parts;
    }
  }

  /** The concatenation of `f` over a list. */
  function FlatMap<T>(f: T -> seq<string>, xs: seq<T>): seq<string> {
    if xs == [] then [] else f(xs[0]) + FlatMap(f, xs[1..])
  }

  lemma Associate(a: seq<string>, b: seq<string>, c: seq<string>)
    ensures (a + b) + c == a + (b + c)
  {
  }

  lemma {:induction false} FlatMapConcat<T>(f: T -> seq<string>, xs: seq<T>, ys: seq<T>)
    ensures FlatMap(f, xs + ys) == FlatMap(f, xs) + FlatMap(f, ys)
  {
    if xs == [] {
      assert xs + ys == ys;
    } else {
      FlatMapConcat(f, xs[1..], ys);
      assert (xs + ys)[0] == xs[0] && (xs + ys)[1..] == xs[1..] + ys;
      Associate(f(xs[0]), FlatMap(f, xs[1..]), FlatMap(f, ys));
    }
  }

  lemma FlatMapSnoc<T>(f: T -> seq<string>, xs: seq<T>, n: nat)
    requires n < |xs|
    ensures FlatMap(f, xs[..n + 1]) == FlatMap(f, xs[..n]) + f(xs[n])
  {
    assert xs[..n + 1] == xs[..n] + [xs[n]];
    FlatMapConcat(f, xs[..n], [xs[n]]);
    assert FlatMap(f, [xs[n]]) == f(xs[n]);
  }

  /** unicode.IsSpace. */
  predicate IsSpace(c: char) {
    c in {'\t', '\n', '\U{b}', '\U{c}', '\r', ' ', '\U{85}', '\U{a0}', '\U{1680}', '\U{2028}', '\U{2029}', '\U{202f}', '\U{205f}', '\U{3000}'}
    || '\U{2000}' <= c <= '\U{200a}'
  }

  function TrimLeft(s: string): (r: string)
    ensures r != [] ==> !IsSpace(r[0])
    ensures |r| <= |s|
  {
    if s != [] && IsSpace(s[0]) then TrimLeft(s[1..]) else s
  }

  function TrimRight(s: string): (r: string)
    ensures r != [] ==> !IsSpace(r[|r| - 1])
    ensures r <= s
  {
    if s != [] && IsSpace(s[|s| - 1]) then TrimRight(s[..|s| - 1]) else s
  }

  /** strings.TrimSpace. */
  function TrimSpace(s: string): string {
    TrimRight(TrimLeft(s))
  }

  ghost predicate Blank(s: string) { forall i :: 0 <= i < |s| ==> IsSpace(s[i]) }

  /** `text` is `core` between blanks, and `core` neither starts nor ends with one. */
  ghost predicate Padded(text: string, core: string) {
    && (core != [] ==> !IsSpace(core[0]) && !IsSpace(core[|core| - 1]))
    && exists n :: 0 <= n <= |text| - |core| && text[n..n + |core|] == core && Blank(text[..n]) && Blank(text[n + |core|..])
  }

  lemma {:induction false} TrimLeftBlank(s: string, n: nat)
    requires n <= |s| && Blank(s[..n]) && (n < |s| ==> !IsSpace(s[n]))
    ensures TrimLeft(s) == s[n..]
  {
    if n > 0 {
      assert s[..n][0] == s[0];
      assert s[1..][..n - 1] == s[..n][1..] && s[1..][n - 1..] == s[n..];
      TrimLeftBlank(s[1..], n - 1);
    }
  }

  lemma {:induction false} TrimRightBlank(s: string, n: nat)
    requires n <= |s| && Blank(s[n..]) && (n > 0 ==> !IsSpace(s[n - 1]))
    ensures TrimRight(s) == s[..n]
  {
    if n < |s| {
      var k := |s| - 1;
      assert s[n..][k - n] == s[k];
      assert s[..k][n..] == s[n..][..k - n] && s[..k][..n] == s[..n];
      TrimRightBlank(s[..k], n);
    }
  }

  /** Trimming removes the blanks at both ends and nothing else. */
  lemma TrimSpaceIs(text: string, core: string)
    requires Padded(text, core)
    ensures TrimSpace(text) == core
  {
    var n :| 0 <= n <= |text| - |core| && text[n..n + |core|] == core && Blank(text[..n]) && Blank(text[n + |core|..]);
    if core == [] {
      BlankParts(text, n);
      TrimLeftBlank(text, |text|);
    } else {
      assert text[n] == text[n..n + |core|][0];
      TrimLeftBlank(text, n);
      TrimRightAt(text, n, core);
    }
  }

  lemma TrimRightAt(text: string, n: nat, core: string)
    requires core != [] && !IsSpace(core[|core| - 1])
    requires n + |core| <= |text| && text[n..n + |core|] == core && Blank(text[n + |core|..])
    ensures TrimRight(text[n..]) == core
  {
    var rest := text[n..];
    assert rest[..|core|] == core && rest[|core|..] == text[n + |core|..];
    assert rest[|core| - 1] == core[|core| - 1];
    TrimRightBlank(rest, |core|);
  }

  lemma BlankParts(text: string, n: nat)
    requires n <= |text| && Blank(text[..n]) && Blank(text[n..])
    ensures Blank(text[..|text|])
  {
    forall i | 0 <= i < |text| ensures IsSpace(text[i]) {
      if i < n { assert text[..n][i] == text[i]; } else { assert text[n..][i - n] == text[i]; }
    }
  }

  /** Lexicographic order, as strings.Compare. */
  function Compare(a: string, b: string): (r: int)
    ensures -1 <= r <= 1
  {
    if a == [] then if b == [] then 0 else -1
    else if b == [] then 1
    else if a[0] < b[0] then -1
    else if a[0] > b[0] then 1
    else Compare(a[1..], b[1..])
  }

  /** `a` is before `b` in a dictionary: the first difference decides, a prefix comes first. */
  ghost predicate LexLess(a: string, b: string) {
    exists k :: DecidesAt(a, b, k)
  }

  ghost predicate DecidesAt(a: string, b: string, k: nat) {
    && k <= |a| && k < |b|
    && a[..k] == b[..k]
    && (k == |a| || a[k] < b[k])
  }

  lemma SameStart(a: string, b: string, k: nat)
    requires DecidesAt(a, b, k) && k > 0
    ensures a[0] == b[0]
  {
    assert a[..k][0] == b[..k][0];
  }

  lemma {:induction false} CompareIsLex(a: string, b: string)
    ensures Compare(a, b) == -1 <==> LexLess(a, b)
    ensures Compare(a, b) == 0 <==> a == b
  {
    if b == [] {
    } else if a == [] {
      assert DecidesAt(a, b, 0);
    } else if a[0] != b[0] {
      if a[0] < b[0] { assert DecidesAt(a, b, 0); }
      forall k: nat | DecidesAt(a, b, k) ensures k == 0 {
        if k > 0 { SameStart(a, b, k); }
      }
    } else {
      CompareIsLex(a[1..], b[1..]);
      forall k: nat | DecidesAt(a, b, k) ensures k > 0 && DecidesAt(a[1..], b[1..], k - 1) {
        assert k > 0;
        assert a[1..][..k - 1] == a[..k][1..] && b[1..][..k - 1] == b[..k][1..];
      }
      forall k: nat | DecidesAt(a[1..], b[1..], k) ensures DecidesAt(a, b, k + 1) {
        assert a[..k + 1] == [a[0]] + a[1..][..k] && b[..k + 1] == [b[0]] + b[1..][..k];
      }
      assert a == [a[0]] + a[1..] && b == [b[0]] + b[1..];
    }
  }

  lemma {:induction false} CompareFlips(a: string, b: string)
    ensures Compare(a, b) == -Compare(b, a)
  {
    if a != [] && b != [] { CompareFlips(a[1..], b[1..]); }
  }

  lemma {:induction false} CompareTransitive(a: string, b: string, c: string)
    requires Compare(a, b) <= 0 && Compare(b, c) <= 0
    ensures Compare(a, c) <= 0
    ensures Compare(a, c) == 0 ==> Compare(a, b) == 0 && Compare(b, c) == 0
  {
    if a != [] && b != [] && c != [] {
      if a[0] == b[0] == c[0] { CompareTransitive(a[1..], b[1..], c[1..]); }
    }
  }
}

/** Decimal notation of natural numbers. */
module Decimal {

  predicate IsDigit(c: char) { '0' <= c <= '9' }

  predicate AllDigits(s: string) { forall i :: 0 <= i < |s| ==> IsDigit(s[i]) }

  /** Digits with no leading zero, except the number zero itself. */
  predicate Canonical(s: string) {
    s != [] && AllDigits(s) && (|s| > 1 ==> s[0] != '0')
  }

  function DigitValue(c: char): (d: nat)
    requires IsDigit(c)
    ensures d < 10
  {
    c as int - '0' as int
  }

  function DigitChar(d: nat): (c: char)
    requires d < 10
    ensures IsDigit(c) && DigitValue(c) == d
  {
    (d + '0' as int) as char
  }

  function Value(s: string): nat
    requires AllDigits(s)
  {
    if s == [] then 0 else 10 * Value(s[..|s| - 1]) + DigitValue(s[|s| - 1])
  }

  function Print(n: nat): string {
    if n < 10 then [DigitChar(n)] else Print(n / 10) + [DigitChar(n % 10)]
  }

  lemma {:induction false} ValueOfPrint(n: nat)
    ensures Canonical(Print(n)) && Value(Print(n)) == n
    ensures n > 0 ==> Print(n)[0] != '0'
  {
    if n >= 10 {
      ValueOfPrint(n / 10);
      assert Print(n)[..|Print(n)| - 1] == Print(n / 10);
    } else {
      assert Print(n)[..0] == [];
    }
  }

  lemma {:induction false} PrintOfValue(s: string)
    requires Canonical(s)
    ensures Print(Value(s)) == s
  {
    var t := s[..|s| - 1];
    if |s| == 1 {
      assert t == [];
    } else {
      PrintOfValue(t);
      PositiveValue(t);
      assert s == t + [s[|s| - 1]];
    }
  }

  lemma {:induction false} PositiveValue(s: string)
    requires s != [] && AllDigits(s) && s[0] != '0'
    ensures Value(s) > 0
  {
    if |s| > 1 { PositiveValue(s[..|s| - 1]); }
  }

  /** 10 to the power `k`. */
  function Pow10(k: nat): (p: nat)
    ensures p > 0
  {
    if k == 0 then 1 else 10 * Pow10(k - 1)
  }

  lemma {:induction false} ValueRange(s: string)
    requires AllDigits(s)
    ensures Value(s) < Pow10(|s|)
    ensures s != [] && s[0] != '0' ==> Pow10(|s| - 1) <= Value(s)
  {
    if s != [] {
      var t := s[..|s| - 1];
      ValueRange(t);
      if t != [] { assert t[0] == s[0]; }
    }
  }

  lemma {:induction false} Pow10Monotone(a: nat, b: nat)
    requires a <= b
    ensures Pow10(a) <= Pow10(b)
  {
    if a < b { Pow10Monotone(a, b - 1); }
  }

  /** Without leading zeros, a number with fewer digits is the smaller one. */
  lemma ShorterIsSmaller(a: string, b: string)
    requires Canonical(a) && Canonical(b) && |a| < |b|
    ensures Value(a) < Value(b)
  {
    ValueRange(a);
    ValueRange(b);
    Pow10Monotone(|a|, |b| - 1);
  }
}
