/**
 Release version comparison (internal/selfupdate/semver.go). The parser and the
 identifier loop are methods proved against the functions `Parsed` and
 `PreOrder`; the order laws are proved about the functions.
 */
module Semver {
  import opened Wrappers
  import Text
  import Decimal

  /** Largest value of Go's int on the 64-bit platforms dup is released for. */
  const MAX_INT: nat := 0x7fff_ffff_ffff_ffff

  datatype Version = Version(major: nat, minor: nat, patch: nat, pre: seq<string>)

  datatype Error = NotSemver | OutOfRange

  // ---------------------------------------------------------------- parsing

  function NumericOf(s: string): Result<nat, Error> {
    if !Decimal.Canonical(s) then Err(NotSemver)
    else if Decimal.Value(s) > MAX_INT then Err(OutOfRange)
    else Ok(Decimal.Value(s))
  }

  predicate IdentChar(c: char) {
    '0' <= c <= '9' || 'a' <= c <= 'z' || 'A' <= c <= 'Z' || c == '-'
  }

  predicate ValidIdentifier(s: string) {
    s != [] && forall i :: 0 <= i < |s| ==> IdentChar(s[i])
  }

  predicate ValidVersion(v: Version) {
    && v.major <= MAX_INT && v.minor <= MAX_INT && v.patch <= MAX_INT
    && AllValid(v.pre)
  }

  function DropVAndBuild(t: string): string {
    var u := if "v" <= t then t[1..] else t;
    var i := Text.Index(u, '+');
    if i >= 0 then u[..i] else u
  }

  /** What is left of a version text without padding, leading `v` and build metadata. */
  function Strip(text: string): string {
    DropVAndBuild(Text.TrimSpace(text))
  }

  function Core(t: string): string {
    var i := Text.Index(t, '-');
    if i >= 0 then t[..i] else t
  }

  function PreIdentifiers(t: string): seq<string> {
    var i := Text.Index(t, '-');
    if i >= 0 then Text.Split(t[i + 1..], '.') else []
  }

  function CoreNumbers(core: string): Result<(nat, nat, nat), Error> {
    var fields := Text.Split(core, '.');
    if |fields| != 3 then Err(NotSemver)
    else match (NumericOf(fields[0]), NumericOf(fields[1]), NumericOf(fields[2]))
      case (Ok(a), Ok(b), Ok(c)) => Ok((a, b, c))
      case (Err(e), _, _) => Err(e)
      case (_, Err(e), _) => Err(e)
      case (_, _, Err(e)) => Err(e)
  }

  predicate AllValid(pre: seq<string>) {
    forall i :: 0 <= i < |pre| ==> ValidIdentifier(pre[i])
  }

  /** The result for a text already stripped. */
  function ParsedBare(t: string): Result<Version, Error> {
    var pre := PreIdentifiers(t);
    if !AllValid(pre) then Err(NotSemver)
    else match CoreNumbers(Core(t))
      case Err(e) => Err(e)
      case Ok((a, b, c)) => Ok(Version(a, b, c, pre))
  }

  function Parsed(text: string): Result<Version, Error> {
    ParsedBare(Strip(text))
  }

  method NumericField(s: string) returns (r: Result<nat, Error>)
    ensures r == NumericOf(s)
  {
    if s == "" || (|s| > 1 && s[0] == '0') {
      return Err(NotSemver);
    }
    for i := 0 to |s|
      invariant forall j :: 0 <= j < i ==> Decimal.IsDigit(s[j])
    {
      if s[i] < '0' || s[i] > '9' {
        return Err(NotSemver);
      }
    }
    // strconv.Atoi of a digit string.
    var n := Decimal.Value(s);
    return if n > MAX_INT then Err(OutOfRange) else Ok(n);
  }

  method ValidIdent(s: string) returns (ok: bool)
    ensures ok <==> forall i :: 0 <= i < |s| ==> IdentChar(s[i])
  {
    for i := 0 to |s|
      invariant forall j :: 0 <= j < i ==> IdentChar(s[j])
    {
      var c := s[i];
      var alnum := ('0' <= c && c <= '9') || ('a' <= c && c <= 'z') || ('A' <= c && c <= 'Z');
      if !alnum && c != '-' {
        return false;
      }
    }
    return true;
  }

  method ParsePre(rest: string) returns (r: Result<seq<string>, Error>)
    ensures r == if AllValid(Text.Split(rest, '.')) then Ok(Text.Split(rest, '.')) else Err(NotSemver)
  {
    if rest == "" {
      Text.SplitWhole(rest, '.');
      assert !ValidIdentifier(Text.Split(rest, '.')[0]);
      return Err(NotSemver);
    }
    var pre := Text.Split(rest, '.');
    for i := 0 to |pre|
      invariant forall j :: 0 <= j < i ==> ValidIdentifier(pre[j])
    {
      var ok := ValidIdent(pre[i]);
      if pre[i] == "" || !ok {
        return Err(NotSemver);
      }
    }
    return Ok(pre);
  }

  method ParseCore(core: string) returns (r: Result<(nat, nat, nat), Error>)
    ensures r == CoreNumbers(core)
  {
    var fields := Text.Split(core, '.');
    if |fields| != 3 {
      return Err(NotSemver);
    }
    var nums: seq<nat> := [];
    for i := 0 to 3
      invariant |nums| == i
      invariant forall j :: 0 <= j < i ==> NumericOf(fields[j]) == Ok(nums[j])
    {
      var n := NumericField(fields[i]);
      if n.Err? {
        return Err(n.error);
      }
      nums := nums + [n.value];
    }
    return Ok((nums[0], nums[1], nums[2]));
  }

  method Parse(text: string) returns (r: Result<Version, Error>)
    ensures r == Parsed(text)
  {
    var v := Text.TrimSpace(text);
    v := if "v" <= v then v[1..] else v;
    var plus := Text.Index(v, '+');
    if plus >= 0 { v := v[..plus]; }
    r := ParseBare(v);
  }

  method ParseBare(v: string) returns (r: Result<Version, Error>)
    ensures r == ParsedBare(v)
  {
    var core, pre := v, [];
    var dash := Text.Index(v, '-');
    if dash >= 0 {
      core := v[..dash];
      var p := ParsePre(v[dash + 1..]);
      if p.Err? { return Err(p.error); }
      pre := p.value;
    }
    assert core == Core(v) && pre == PreIdentifiers(v);
    var nums := ParseCore(core);
    if nums.Err? { return Err(nums.error); }
    return Ok(Version(nums.value.0, nums.value.1, nums.value.2, pre));
  }

  // --------------------------------------------------------------- printing

  function PrintCore(v: Version): string {
    Text.Join([Decimal.Print(v.major), Decimal.Print(v.minor), Decimal.Print(v.patch)], '.')
  }

  function PrintPre(pre: seq<string>): string {
    if pre == [] then "" else "-" + Text.Join(pre, '.')
  }

  function Print(v: Version): string {
    PrintCore(v) + PrintPre(v.pre)
  }

  /**
   A text parses to `v` exactly when `v` is representable and the stripped text
   is the canonical spelling of `v`: the parser neither loses nor invents anything.
   */
  lemma ParsedIffPrinted(text: string, v: Version)
    ensures Parsed(text) == Ok(v) <==> ValidVersion(v) && Strip(text) == Print(v)
  {
    var t := Strip(text);
    if Parsed(text) == Ok(v) {
      CoreIsPrinted(Core(t), v);
      PreIsPrinted(t);
    }
    if ValidVersion(v) && t == Print(v) {
      PrintedCoreParses(v);
      PrintedPreParses(PrintCore(v), v.pre);
    }
  }

  lemma CoreIsPrinted(core: string, v: Version)
    requires CoreNumbers(core) == Ok((v.major, v.minor, v.patch))
    ensures core == PrintCore(v) && v.major <= MAX_INT && v.minor <= MAX_INT && v.patch <= MAX_INT
  {
    var fields := Text.Split(core, '.');
    Text.JoinSplit(core, '.');
    Decimal.PrintOfValue(fields[0]);
    Decimal.PrintOfValue(fields[1]);
    Decimal.PrintOfValue(fields[2]);
    assert fields == [fields[0], fields[1], fields[2]];
  }

  lemma PreIsPrinted(t: string)
    ensures t == Core(t) + PrintPre(PreIdentifiers(t))
  {
    var i := Text.Index(t, '-');
    if i >= 0 {
      var rest := t[i + 1..];
      Text.JoinSplit(rest, '.');
      assert PrintPre(Text.Split(rest, '.')) == "-" + rest;
      CutAt(t, i);
    }
  }

  lemma CutAt(t: string, i: nat)
    requires i < |t|
    ensures t == t[..i] + ([t[i]] + t[i + 1..])
  {
  }

  lemma PrintedCoreParses(v: Version)
    requires ValidVersion(v)
    ensures CoreNumbers(PrintCore(v)) == Ok((v.major, v.minor, v.patch))
    ensures CoreCharacters(PrintCore(v))
  {
    SplitCore(v);
    Decimal.ValueOfPrint(v.major);
    Decimal.ValueOfPrint(v.minor);
    Decimal.ValueOfPrint(v.patch);
  }

  /** The three numbers of a printed core, whatever their size. */
  lemma SplitCore(v: Version)
    ensures Text.Split(PrintCore(v), '.') == [Decimal.Print(v.major), Decimal.Print(v.minor), Decimal.Print(v.patch)]
    ensures CoreCharacters(PrintCore(v))
  {
    Decimal.ValueOfPrint(v.major);
    Decimal.ValueOfPrint(v.minor);
    Decimal.ValueOfPrint(v.patch);
    SplitDigits([Decimal.Print(v.major), Decimal.Print(v.minor), Decimal.Print(v.patch)]);
  }

  lemma SplitDigits(fields: seq<string>)
    requires fields != [] && forall i :: 0 <= i < |fields| ==> Decimal.AllDigits(fields[i])
    ensures Text.Split(Text.Join(fields, '.'), '.') == fields && CoreCharacters(Text.Join(fields, '.'))
  {
    NoSeparator(fields);
    Text.SplitJoin(fields, '.');
    JoinedChars(fields);
  }

  lemma CoreHasNoHyphen(v: Version)
    ensures '-' !in PrintCore(v)
  {
    SplitCore(v);
  }

  ghost predicate CoreCharacters(s: string) {
    forall i :: 0 <= i < |s| ==> Decimal.IsDigit(s[i]) || s[i] == '.'
  }

  lemma NoSeparator(fields: seq<string>)
    requires forall i :: 0 <= i < |fields| ==> forall c :: c in fields[i] ==> IdentChar(c)
    ensures forall i :: 0 <= i < |fields| ==> '.' !in fields[i]
  {
  }

  lemma {:induction false} JoinedChars(fields: seq<string>)
    requires forall i :: 0 <= i < |fields| ==> Decimal.AllDigits(fields[i])
    ensures CoreCharacters(Text.Join(fields, '.'))
  {
    if |fields| > 1 { JoinedChars(fields[1..]); }
  }

  lemma PrintedPreParses(core: string, pre: seq<string>)
    requires '-' !in core && AllValid(pre)
    ensures Core(core + PrintPre(pre)) == core && PreIdentifiers(core + PrintPre(pre)) == pre
  {
    var t := core + PrintPre(pre);
    if pre == [] {
      assert t == core;
    } else {
      var rest := Text.Join(pre, '.');
      assert t == core + ['-'] + rest;
      Text.IndexOfConcat(core, rest, '-');
      assert t[..|core|] == core && t[|core| + 1..] == rest;
      NoSeparator(pre);
      Text.SplitJoin(pre, '.');
    }
  }

  ghost predicate Blank(s: string) { forall i :: 0 <= i < |s| ==> Text.IsSpace(s[i]) }

  /** Padding, one leading `v` and build metadata never change what is parsed. */
  lemma DecorationsAreIgnored(v: Version, left: string, right: string, withV: bool, build: Option<string>)
    requires ValidVersion(v) && Blank(left) && Blank(right)
    ensures Parsed(left + ((if withV then "v" else "") + Print(v)
                           + ((if build.Some? then "+" + build.value else "") + right))) == Ok(v)
  {
    var tail := (if build.Some? then "+" + build.value else "") + right;
    var text := left + ((if withV then "v" else "") + Print(v) + tail);
    PrintShape(v);
    StripDecorated(Print(v), left, right, withV, build);
    ParsedIffPrinted(text, v);
  }

  lemma StripDecorated(p: string, left: string, right: string, withV: bool, build: Option<string>)
    requires Blank(left) && Blank(right) && p != [] && Decimal.IsDigit(p[0]) && '+' !in p
    requires !Text.IsSpace(p[|p| - 1])
    ensures Strip(left + ((if withV then "v" else "") + p
                          + ((if build.Some? then "+" + build.value else "") + right))) == p
  {
    var body := (if withV then "v" else "") + p;
    var tail := (if build.Some? then "+" + build.value else "") + right;
    assert body[0] == if withV then 'v' else p[0];
    assert body[|body| - 1] == p[|p| - 1];
    SkipLeft(left, body + tail);
    if build.Some? {
      var more := build.value + right;
      assert tail == ['+'] + more;
      TrimKeepsBuild(body, more);
      CutBuild(p, withV, Text.TrimRight(body + tail));
    } else {
      assert tail == right;
      DropRight(body, right);
      CutNothing(p, withV);
    }
  }

  lemma TrimKeepsBuild(body: string, more: string)
    ensures body + ['+'] <= Text.TrimRight(body + (['+'] + more))
  {
    assert body + (['+'] + more) == (body + ['+']) + more;
    KeepHead(body + ['+'], more);
  }

  lemma CutBuild(p: string, withV: bool, t: string)
    requires p != [] && Decimal.IsDigit(p[0]) && '+' !in p
    requires (if withV then "v" else "") + p + ['+'] <= t
    ensures DropVAndBuild(t) == p
  {
    assert t[0] == if withV then 'v' else p[0];
    var u := if withV then t[1..] else t;
    var more := u[|p| + 1..];
    assert u == p + ['+'] + more;
    Text.IndexOfConcat(p, more, '+');
    assert u[..|p|] == p;
  }

  lemma CutNothing(p: string, withV: bool)
    requires p != [] && Decimal.IsDigit(p[0]) && '+' !in p
    ensures DropVAndBuild((if withV then "v" else "") + p) == p
  {
    var body := (if withV then "v" else "") + p;
    assert body[0] == if withV then 'v' else p[0];
    assert withV ==> body[1..] == p;
  }

  lemma PrintShape(v: Version)
    requires ValidVersion(v)
    ensures Print(v) != [] && Decimal.IsDigit(Print(v)[0]) && '+' !in Print(v)
    ensures !Text.IsSpace(Print(v)[|Print(v)| - 1])
  {
    PrintEnds(v);
  }

  lemma PrintEnds(v: Version)
    requires AllValid(v.pre)
    ensures Print(v) != [] && Decimal.IsDigit(Print(v)[0]) && '+' !in Print(v)
    ensures !Text.IsSpace(Print(v)[|Print(v)| - 1])
  {
    var core, pre := PrintCore(v), PrintPre(v.pre);
    SplitCore(v);
    CoreEnds(v);
    if v.pre != [] {
      JoinChars(v.pre);
      var rest := Text.Join(v.pre, '.');
      assert pre[|pre| - 1] == rest[|rest| - 1];
    } else {
      assert Print(v) == core;
    }
  }

  lemma CoreEnds(v: Version)
    ensures PrintCore(v) != [] && Decimal.IsDigit(PrintCore(v)[0])
    ensures Decimal.IsDigit(PrintCore(v)[|PrintCore(v)| - 1])
  {
    var a, b, c := Decimal.Print(v.major), Decimal.Print(v.minor), Decimal.Print(v.patch);
    Decimal.ValueOfPrint(v.major);
    Decimal.ValueOfPrint(v.patch);
    JoinOfThree(a, b, c);
  }

  lemma JoinOfThree(a: string, b: string, c: string)
    ensures Text.Join([a, b, c], '.') == a + ['.'] + (b + ['.'] + c)
  {
    assert [a, b, c][1..] == [b, c] && [b, c][1..] == [c];
    assert Text.Join([b, c], '.') == b + ['.'] + c;
  }

  lemma {:induction false} JoinChars(parts: seq<string>)
    requires parts != [] && forall i :: 0 <= i < |parts| ==> ValidIdentifier(parts[i])
    ensures Text.Join(parts, '.') != []
    ensures IdentChar(Text.Join(parts, '.')[|Text.Join(parts, '.')| - 1])
    ensures forall i :: 0 <= i < |Text.Join(parts, '.')| ==> IdentChar(Text.Join(parts, '.')[i]) || Text.Join(parts, '.')[i] == '.'
  {
    if |parts| > 1 {
      assert forall i :: 0 <= i < |parts[1..]| ==> parts[1..][i] == parts[i + 1];
      JoinChars(parts[1..]);
    }
  }

  lemma {:induction false} SkipLeft(left: string, s: string)
    requires Blank(left) && s != [] && !Text.IsSpace(s[0])
    ensures Text.TrimLeft(left + s) == s
  {
    if left != [] {
      assert (left + s)[1..] == left[1..] + s;
      SkipLeft(left[1..], s);
    } else {
      assert left + s == s;
    }
  }

  lemma {:induction false} DropRight(s: string, right: string)
    requires Blank(right) && s != [] && !Text.IsSpace(s[|s| - 1])
    ensures Text.TrimRight(s + right) == s
    decreases |right|
  {
    if right != [] {
      assert (s + right)[..|s + right| - 1] == s + right[..|right| - 1];
      DropRight(s, right[..|right| - 1]);
    } else {
      assert s + right == s;
    }
  }

  lemma {:induction false} KeepHead(s: string, tail: string)
    requires s != [] && !Text.IsSpace(s[|s| - 1])
    ensures s <= Text.TrimRight(s + tail)
    decreases |tail|
  {
    if tail != [] {
      assert (s + tail)[..|s + tail| - 1] == s + tail[..|tail| - 1];
      KeepHead(s, tail[..|tail| - 1]);
    } else {
      assert s + tail == s;
    }
  }

  // --------------------------------------------------------------- ordering

  function CmpInt(a: int, b: int): int {
    if a < b then -1 else if a > b then 1 else 0
  }

  function CompareIdent(a: string, b: string): int {
    match (NumericOf(a), NumericOf(b))
    case (Ok(an), Ok(bn)) => CmpInt(an, bn)
    case (Ok(_), Err(_)) => -1
    case (Err(_), Ok(_)) => 1
    case (Err(_), Err(_)) => Text.Compare(a, b)
  }

  /** First differing identifier decides; a list that runs out first is the smaller. */
  function ListOrder(a: seq<string>, b: seq<string>): int {
    if a == [] || b == [] then CmpInt(|a|, |b|)
    else if CompareIdent(a[0], b[0]) != 0 then CompareIdent(a[0], b[0])
    else ListOrder(a[1..], b[1..])
  }

  function PreOrder(a: seq<string>, b: seq<string>): int {
    if a == [] && b == [] then 0
    else if a == [] then 1
    else if b == [] then -1
    else ListOrder(a, b)
  }

  function Order(v: Version, o: Version): int {
    if v.major != o.major then CmpInt(v.major, o.major)
    else if v.minor != o.minor then CmpInt(v.minor, o.minor)
    else if v.patch != o.patch then CmpInt(v.patch, o.patch)
    else PreOrder(v.pre, o.pre)
  }

  method ComparePre(a: seq<string>, b: seq<string>) returns (c: int)
    ensures c == PreOrder(a, b)
  {
    if a == [] && b == [] { return 0; }
    if a == [] { return 1; }
    if b == [] { return -1; }
    var i := 0;
    while i < |a| && i < |b|
      invariant 0 <= i <= |a| && i <= |b|
      invariant ListOrder(a, b) == ListOrder(a[i..], b[i..])
    {
      c := CompareIdent(a[i], b[i]);
      if c != 0 { return; }
      assert a[i..][1..] == a[i + 1..] && b[i..][1..] == b[i + 1..];
      i := i + 1;
    }
    c := CmpInt(|a|, |b|);
  }

  /** The exported comparison: both texts must parse. */
  method Compare(a: string, b: string) returns (r: Result<int, Error>)
    ensures r == match (Parsed(a), Parsed(b))
                 case (Err(e), _) => Err(e)
                 case (_, Err(e)) => Err(e)
                 case (Ok(va), Ok(vb)) => Ok(Order(va, vb))
  {
    var va := Parse(a);
    if va.Err? { return Err(va.error); }
    var vb := Parse(b);
    if vb.Err? { return Err(vb.error); }
    var v, o := va.value, vb.value;
    var c := CmpInt(v.major, o.major);
    if c != 0 { return Ok(c); }
    c := CmpInt(v.minor, o.minor);
    if c != 0 { return Ok(c); }
    c := CmpInt(v.patch, o.patch);
    if c != 0 { return Ok(c); }
    c := ComparePre(v.pre, o.pre);
    return Ok(c);
  }

  lemma IdentFlips(a: string, b: string)
    ensures CompareIdent(a, b) == -CompareIdent(b, a)
    ensures CompareIdent(a, b) == 0 <==> a == b
  {
    Text.CompareFlips(a, b);
    Text.CompareIsLex(a, b);
    if NumericOf(a).Ok? && NumericOf(b).Ok? {
      Decimal.PrintOfValue(a);
      Decimal.PrintOfValue(b);
    }
  }

  lemma IdentTransitive(a: string, b: string, c: string)
    requires CompareIdent(a, b) <= 0 && CompareIdent(b, c) <= 0
    ensures CompareIdent(a, c) <= 0
    ensures CompareIdent(a, c) == 0 ==> CompareIdent(a, b) == 0 && CompareIdent(b, c) == 0
  {
    if NumericOf(a).Err? && NumericOf(b).Err? && NumericOf(c).Err? {
      Text.CompareTransitive(a, b, c);
    }
  }

  lemma {:induction false} ListFlips(a: seq<string>, b: seq<string>)
    ensures ListOrder(a, b) == -ListOrder(b, a)
    ensures ListOrder(a, b) == 0 <==> a == b
  {
    if a != [] && b != [] {
      IdentFlips(a[0], b[0]);
      ListFlips(a[1..], b[1..]);
      assert a == [a[0]] + a[1..] && b == [b[0]] + b[1..];
    }
  }

  lemma {:induction false} ListTransitive(a: seq<string>, b: seq<string>, c: seq<string>)
    requires ListOrder(a, b) <= 0 && ListOrder(b, c) <= 0
    ensures ListOrder(a, c) <= 0
    ensures ListOrder(a, c) == 0 ==> ListOrder(a, b) == 0 && ListOrder(b, c) == 0
  {
    if a != [] && b != [] && c != [] {
      IdentTransitive(a[0], b[0], c[0]);
      if CompareIdent(a[0], b[0]) == 0 && CompareIdent(b[0], c[0]) == 0 {
        IdentFlips(a[0], b[0]);
        IdentFlips(b[0], c[0]);
        ListTransitive(a[1..], b[1..], c[1..]);
      }
    }
  }

  /** Antisymmetry and totality: swapping the operands negates the result. */
  lemma OrderFlips(v: Version, o: Version)
    ensures Order(v, o) == -Order(o, v) && -1 <= Order(v, o) <= 1
    ensures Order(v, o) == 0 <==> v == o
  {
    ListFlips(v.pre, o.pre);
    ListBounded(v.pre, o.pre);
  }

  lemma {:induction false} ListBounded(a: seq<string>, b: seq<string>)
    ensures -1 <= ListOrder(a, b) <= 1
  {
    if a != [] && b != [] { ListBounded(a[1..], b[1..]); }
  }

  lemma OrderTransitive(u: Version, v: Version, w: Version)
    requires Order(u, v) <= 0 && Order(v, w) <= 0
    ensures Order(u, w) <= 0
    ensures Order(u, w) == 0 ==> u == v == w
  {
    if u.pre != [] && v.pre != [] && w.pre != [] {
      if ListOrder(u.pre, v.pre) <= 0 && ListOrder(v.pre, w.pre) <= 0 {
        ListTransitive(u.pre, v.pre, w.pre);
      }
    }
    OrderFlips(u, v);
    OrderFlips(v, w);
  }

  // ------------------------------ section 11 of Semantic Versioning 2.0.0

  /** Identifier precedence as section 11.4 words it; digits-only identifiers are numbers of any size. */
  ghost predicate IdentBelow(a: string, b: string) {
    if Decimal.AllDigits(a) && Decimal.AllDigits(b) then Decimal.Value(a) < Decimal.Value(b)
    else if Decimal.AllDigits(a) || Decimal.AllDigits(b) then Decimal.AllDigits(a)
    else Text.LexLess(a, b)
  }

  ghost predicate ListDecidesAt(a: seq<string>, b: seq<string>, k: nat) {
    && k <= |a| && k < |b| && a[..k] == b[..k]
    && (k == |a| || IdentBelow(a[k], b[k]))
  }

  /** `v` has lower precedence than `o`, section 11.2 to 11.4. */
  ghost predicate Below(v: Version, o: Version) {
    || v.major < o.major
    || (v.major == o.major && v.minor < o.minor)
    || (v.major == o.major && v.minor == o.minor && v.patch < o.patch)
    || (v.major == o.major && v.minor == o.minor && v.patch == o.patch
        && v.pre != [] && (o.pre == [] || exists k :: ListDecidesAt(v.pre, o.pre, k)))
  }

  /** A digits-only identifier that the code does not read as a number. */
  predicate ReadAsText(s: string) {
    Decimal.AllDigits(s) && NumericOf(s).Err?
  }

  /** What section 9 of the standard allows as an identifier. */
  predicate StandardIdentifier(s: string) {
    ValidIdentifier(s) && (Decimal.AllDigits(s) ==> Decimal.Canonical(s))
  }

  /** Exactly when the code and section 11.4 put two identifiers the same way round. */
  ghost predicate SameReading(a: string, b: string) {
    if ReadAsText(a) && ReadAsText(b) then |a| == |b| || (Text.LexLess(a, b) <==> |a| < |b|)
    else if ReadAsText(a) && !Decimal.AllDigits(b) then Text.LexLess(a, b)
    else if ReadAsText(b) && !Decimal.AllDigits(a) then !Text.LexLess(a, b)
    else true
  }

  lemma IdentMatchesStandard(a: string, b: string)
    requires StandardIdentifier(a) && StandardIdentifier(b)
    ensures (CompareIdent(a, b) == -1 <==> IdentBelow(a, b)) <==> SameReading(a, b)
  {
    Text.CompareIsLex(a, b);
    if Decimal.Canonical(a) && Decimal.Canonical(b) {
      if |a| < |b| { Decimal.ShorterIsSmaller(a, b); }
      else if |b| < |a| { Decimal.ShorterIsSmaller(b, a); }
      else { SameLengthIsLex(a, b); }
    }
  }

  lemma {:induction false} SameLengthIsLex(a: string, b: string)
    requires Decimal.AllDigits(a) && Decimal.AllDigits(b) && |a| == |b|
    ensures Text.LexLess(a, b) <==> Decimal.Value(a) < Decimal.Value(b)
  {
    if a != [] {
      var n := |a| - 1;
      SameLengthIsLex(a[..n], b[..n]);
      SameLengthDiffer(a[..n], b[..n]);
      forall k: nat | Text.DecidesAt(a, b, k)
        ensures if k < n then Text.DecidesAt(a[..n], b[..n], k) else a[..n] == b[..n] && a[n] < b[n]
      {
        if k < n { assert a[..n][..k] == a[..k] && b[..n][..k] == b[..k]; }
      }
      forall k: nat | Text.DecidesAt(a[..n], b[..n], k) ensures Text.DecidesAt(a, b, k) {
        assert a[..n][..k] == a[..k] && b[..n][..k] == b[..k];
      }
      if a[..n] == b[..n] && a[n] < b[n] { assert Text.DecidesAt(a, b, n); }
    }
  }

  lemma {:induction false} SameLengthDiffer(a: string, b: string)
    requires Decimal.AllDigits(a) && Decimal.AllDigits(b) && |a| == |b|
    ensures Decimal.Value(a) == Decimal.Value(b) <==> a == b
  {
    if a != [] {
      var n := |a| - 1;
      SameLengthDiffer(a[..n], b[..n]);
      assert a == a[..n] + [a[n]] && b == b[..n] + [b[n]];
    }
  }

  /** The identifiers section 9 allows, numbers of any size included. */
  ghost predicate AllStandard(pre: seq<string>) {
    forall i :: 0 <= i < |pre| ==> StandardIdentifier(pre[i])
  }

  /** The identifiers at the first position where two lists differ, if both have one there, are read alike. */
  ghost predicate SameReadingAtFirst(a: seq<string>, b: seq<string>) {
    if a == [] || b == [] then true
    else if a[0] == b[0] then SameReadingAtFirst(a[1..], b[1..])
    else SameReading(a[0], b[0])
  }

  /** The same for two versions; it matters only where the pre-release decides. */
  ghost predicate SameReadingOf(v: Version, o: Version) {
    v.major == o.major && v.minor == o.minor && v.patch == o.patch ==> SameReadingAtFirst(v.pre, o.pre)
  }

  /** The order of two standard versions is that of section 11 exactly when the deciding identifiers are read alike. */
  lemma OrderMatchesStandardIff(v: Version, o: Version)
    requires AllStandard(v.pre) && AllStandard(o.pre)
    ensures (Order(v, o) == -1 <==> Below(v, o)) <==> SameReadingOf(v, o)
  {
    ListMatchesIff(v.pre, o.pre);
    if o.pre == [] && v.pre != [] { assert SameReadingAtFirst(v.pre, o.pre); }
  }

  /** Versions of the standard whose numeric identifiers all fit Go's int. */
  ghost predicate Fits(v: Version) {
    AllStandard(v.pre) && forall i :: 0 <= i < |v.pre| ==> !ReadAsText(v.pre[i])
  }

  lemma OrderMatchesStandard(v: Version, o: Version)
    requires Fits(v) && Fits(o)
    ensures Order(v, o) == -1 <==> Below(v, o)
  {
    OrderMatchesStandardIff(v, o);
    NumbersReadAlike(v.pre, o.pre);
  }

  lemma {:induction false} NumbersReadAlike(a: seq<string>, b: seq<string>)
    requires forall i :: 0 <= i < |a| ==> !ReadAsText(a[i])
    requires forall i :: 0 <= i < |b| ==> !ReadAsText(b[i])
    ensures SameReadingAtFirst(a, b)
  {
    if a != [] && b != [] && a[0] == b[0] { NumbersReadAlike(a[1..], b[1..]); }
  }

  lemma {:induction false} ListMatchesIff(a: seq<string>, b: seq<string>)
    requires AllStandard(a) && AllStandard(b)
    ensures (ListOrder(a, b) == -1 <==> exists k :: ListDecidesAt(a, b, k)) <==> SameReadingAtFirst(a, b)
  {
    if b == [] {
    } else if a == [] {
      assert ListDecidesAt(a, b, 0);
    } else {
      IdentFlips(a[0], b[0]);
      if a[0] != b[0] {
        IdentMatchesStandard(a[0], b[0]);
        IdentBounded(a[0], b[0]);
        if IdentBelow(a[0], b[0]) { assert ListDecidesAt(a, b, 0); }
        forall k: nat | ListDecidesAt(a, b, k) ensures k == 0 {
          if k > 0 { SameFirst(a, b, k); }
        }
      } else {
        ListMatchesIff(a[1..], b[1..]);
        DecidesLater(a, b);
      }
    }
  }

  lemma IdentBounded(a: string, b: string)
    ensures -1 <= CompareIdent(a, b) <= 1
  {
  }

  /** With equal first identifiers the rest of the lists decides. */
  lemma DecidesLater(a: seq<string>, b: seq<string>)
    requires a != [] && b != [] && a[0] == b[0]
    ensures (exists k :: ListDecidesAt(a, b, k)) <==> exists k :: ListDecidesAt(a[1..], b[1..], k)
  {
    NotBelowItself(a[0]);
    forall k: nat | ListDecidesAt(a, b, k) ensures k > 0 && ListDecidesAt(a[1..], b[1..], k - 1) {
      assert k > 0;
      assert a[1..][..k - 1] == a[..k][1..] && b[1..][..k - 1] == b[..k][1..];
    }
    forall k: nat | ListDecidesAt(a[1..], b[1..], k) ensures ListDecidesAt(a, b, k + 1) {
      assert a[..k + 1] == [a[0]] + a[1..][..k] && b[..k + 1] == [b[0]] + b[1..][..k];
    }
  }

  lemma NotBelowItself(a: string)
    ensures !IdentBelow(a, a)
  {
  }

  lemma SameFirst(a: seq<string>, b: seq<string>, k: nat)
    requires ListDecidesAt(a, b, k) && k > 0
    ensures a[0] == b[0]
  {
    assert a[..k][0] == b[..k][0];
  }

  /**
   The limit of the previous lemma is real: a numeric identifier too large for Go's
   int sorts above every text identifier that starts with a hyphen.
   */
  lemma OversizedNumberSortsAsText(big: string, text: string)
    requires StandardIdentifier(big) && ReadAsText(big)
    requires ValidIdentifier(text) && text[0] == '-'
    ensures
      var v, o := Version(1, 0, 0, [big]), Version(1, 0, 0, [text]);
      Parsed(Print(v)) == Ok(v) && Parsed(Print(o)) == Ok(o) && Below(v, o) && Order(v, o) == 1
  {
    var v, o := Version(1, 0, 0, [big]), Version(1, 0, 0, [text]);
    OversizedAgainst(big, text);
    PlainPrintParses(v);
    PlainPrintParses(o);
  }

  lemma OversizedAgainst(big: string, text: string)
    requires ReadAsText(big) && big != [] && text != [] && text[0] == '-'
    ensures IdentBelow(big, text) && CompareIdent(big, text) == 1
    ensures ListDecidesAt([big], [text], 0) && ListOrder([big], [text]) == 1
  {
    assert Decimal.IsDigit(big[0]) && !Decimal.IsDigit(text[0]);
  }

  /** Such identifiers exist: the decimal notation of 2^63. */
  lemma OversizedNumbersExist()
    ensures
      var big := Decimal.Print(MAX_INT + 1);
      StandardIdentifier(big) && ReadAsText(big)
  {
    Decimal.ValueOfPrint(MAX_INT + 1);
  }

  lemma PlainPrintParses(v: Version)
    requires ValidVersion(v)
    ensures Parsed(Print(v)) == Ok(v)
  {
    DecorationsAreIgnored(v, "", "", false, None);
    assert "" + ("" + Print(v) + ("" + "")) == Print(v);
  }

  // ------------------------------------------ which texts the standard knows

  function PrintBuild(build: seq<string>): string {
    if build == [] then "" else "+" + Text.Join(build, '.')
  }

  /** A text as sections 2, 9 and 10 of the standard spell a version, with numbers of any size. */
  ghost predicate StandardText(text: string) {
    exists v: Version, build: seq<string> :: Spells(text, v, build)
  }

  ghost predicate Spells(text: string, v: Version, build: seq<string>) {
    AllStandard(v.pre) && AllValid(build) && text == Print(v) + PrintBuild(build)
  }

  /** What follows the first `+`, if there is one, is identifiers separated by dots. */
  predicate BuildOk(text: string) {
    var plus := Text.Index(text, '+');
    plus < 0 || AllValid(Text.Split(text[plus + 1..], '.'))
  }

  /**
   A text the code accepts is one of the standard exactly when its digits-only
   identifiers have no leading zero, it has no padding and no leading `v`, and its
   build metadata is made of identifiers.
   */
  lemma AcceptedIsStandardIff(text: string, v: Version)
    requires Parsed(text) == Ok(v)
    ensures StandardText(text) <==>
              AllStandard(v.pre) && Text.TrimSpace(text) == text && !("v" <= text) && BuildOk(text)
  {
    ParsedIffPrinted(text, v);
    forall w: Version, build: seq<string> | Spells(text, w, build)
      ensures w.pre == v.pre && Text.TrimSpace(text) == text && !("v" <= text) && BuildOk(text)
    {
      StripSpelled(w, build);
      PreOfPrint(v);
      PreOfPrint(w);
      PrintEnds(w);
      if build == [] { SpelledBare(Print(w)); } else { SpelledBuild(Print(w), build); }
    }
    if AllStandard(v.pre) && Text.TrimSpace(text) == text && !("v" <= text) && BuildOk(text) {
      StripPlain(text);
      PlainIsSpelled(text, v);
    }
  }

  lemma SpelledBare(p: string)
    requires p != [] && Decimal.IsDigit(p[0]) && '+' !in p && !Text.IsSpace(p[|p| - 1])
    ensures Text.TrimSpace(p + "") == p + "" && !("v" <= p + "") && BuildOk(p + "")
  {
    assert p + "" == p;
    NothingToTrim(p);
  }

  lemma SpelledBuild(p: string, build: seq<string>)
    requires p != [] && Decimal.IsDigit(p[0]) && '+' !in p && build != [] && AllValid(build)
    ensures Text.TrimSpace(p + PrintBuild(build)) == p + PrintBuild(build)
    ensures !("v" <= p + PrintBuild(build)) && BuildOk(p + PrintBuild(build))
  {
    JoinChars(build);
    NoSeparator(build);
    Text.SplitJoin(build, '.');
    SpelledTail(p + PrintBuild(build), p, Text.Join(build, '.'));
  }

  lemma SpelledTail(text: string, p: string, b: string)
    requires text == p + ("+" + b)
    requires p != [] && Decimal.IsDigit(p[0]) && '+' !in p && b != [] && IdentChar(b[|b| - 1])
    ensures Text.TrimSpace(text) == text && !("v" <= text)
    ensures Text.Index(text, '+') == |p| && text[|p| + 1..] == b
  {
    TailEnds(text, p, b);
    NothingToTrim(text);
    Text.IndexOfConcat(p, b, '+');
  }

  lemma TailEnds(text: string, p: string, b: string)
    requires text == p + ("+" + b) && p != [] && b != []
    ensures text == p + ['+'] + b && text != [] && text[0] == p[0] && text[|text| - 1] == b[|b| - 1]
    ensures text[|p| + 1..] == b
  {
  }

  lemma NothingToTrim(text: string)
    requires text != [] && !Text.IsSpace(text[0]) && !Text.IsSpace(text[|text| - 1])
    ensures Text.TrimSpace(text) == text
  {
  }

  lemma StripPlain(text: string)
    requires Text.TrimSpace(text) == text && !("v" <= text)
    ensures Strip(text) == BeforePlus(text)
  {
  }

  function BeforePlus(text: string): string {
    var plus := Text.Index(text, '+');
    if plus >= 0 then text[..plus] else text
  }

  lemma PlainIsSpelled(text: string, v: Version)
    requires AllStandard(v.pre) && Print(v) == BeforePlus(text) && BuildOk(text)
    ensures StandardText(text)
  {
    var plus := Text.Index(text, '+');
    if plus < 0 {
      WithoutBuild(text, v);
    } else {
      WithBuild(text, v, text[..plus], text[plus + 1..]);
    }
  }

  lemma WithoutBuild(text: string, v: Version)
    requires AllStandard(v.pre) && Print(v) == text
    ensures StandardText(text)
  {
    assert text + PrintBuild([]) == text;
    assert Spells(text, v, []);
  }

  lemma WithBuild(text: string, v: Version, head: string, rest: string)
    requires AllStandard(v.pre) && Print(v) == head && text == head + ("+" + rest) && AllValid(Text.Split(rest, '.'))
    ensures StandardText(text)
  {
    Text.JoinSplit(rest, '.');
    assert Spells(text, v, Text.Split(rest, '.'));
  }

  /** The code accepts a text of the standard exactly when its three numbers fit Go's int. */
  lemma StandardIsAcceptedIff(v: Version, build: seq<string>)
    requires AllStandard(v.pre) && AllValid(build)
    ensures Parsed(Print(v) + PrintBuild(build)).Ok? <==> v.major <= MAX_INT && v.minor <= MAX_INT && v.patch <= MAX_INT
    ensures Parsed(Print(v) + PrintBuild(build)).Ok? ==> Parsed(Print(v) + PrintBuild(build)) == Ok(v)
  {
    var text := Print(v) + PrintBuild(build);
    StripSpelled(v, build);
    ParsedIffPrinted(text, v);
    if Parsed(text).Ok? {
      var w := Parsed(text).value;
      ParsedIffPrinted(text, w);
      CoreOfPrint(v);
      CoreOfPrint(w);
      SameCoreNumbers(v, w);
    }
  }

  lemma StripSpelled(v: Version, build: seq<string>)
    requires AllValid(v.pre)
    ensures Strip(Print(v) + PrintBuild(build)) == Print(v)
  {
    PrintEnds(v);
    if build == [] { StripBare(Print(v)); } else { StripBuild(Print(v), Text.Join(build, '.')); }
  }

  lemma StripBare(p: string)
    requires p != [] && Decimal.IsDigit(p[0]) && '+' !in p && !Text.IsSpace(p[|p| - 1])
    ensures Strip(p + "") == p
  {
    NothingAround(p, "");
    StripDecorated(p, "", "", false, None);
  }

  lemma StripBuild(p: string, build: string)
    requires p != [] && Decimal.IsDigit(p[0]) && '+' !in p && !Text.IsSpace(p[|p| - 1])
    ensures Strip(p + ("+" + build)) == p
  {
    NothingAround(p, "+" + build);
    StripDecorated(p, "", "", false, Some(build));
  }

  lemma NothingAround(p: string, tail: string)
    ensures "" + ("" + p + (tail + "")) == p + tail
  {
    assert "" + p == p && tail + "" == tail;
  }

  lemma CoreOfPrint(v: Version)
    requires AllValid(v.pre)
    ensures Core(Print(v)) == PrintCore(v) && PreIdentifiers(Print(v)) == v.pre
  {
    CoreHasNoHyphen(v);
    PrintedPreParses(PrintCore(v), v.pre);
  }

  lemma PreOfPrint(v: Version)
    requires AllValid(v.pre)
    ensures PreIdentifiers(Print(v)) == v.pre
  {
    CoreOfPrint(v);
  }

  /** Numbers are read back from their print, whatever their size. */
  lemma SameCoreNumbers(v: Version, w: Version)
    requires PrintCore(v) == PrintCore(w)
    ensures v.major == w.major && v.minor == w.minor && v.patch == w.patch
  {
    SplitCore(v);
    SplitCore(w);
    Decimal.ValueOfPrint(v.major);
    Decimal.ValueOfPrint(v.minor);
    Decimal.ValueOfPrint(v.patch);
    Decimal.ValueOfPrint(w.major);
    Decimal.ValueOfPrint(w.minor);
    Decimal.ValueOfPrint(w.patch);
    var a, b := Text.Split(PrintCore(v), '.'), Text.Split(PrintCore(w), '.');
    assert a[0] == b[0] && a[1] == b[1] && a[2] == b[2];
  }

  /** Any other spelling of a number as an identifier is accepted too, against section 9. */
  lemma NonstandardIsAccepted(v: Version)
    requires ValidVersion(v) && !AllStandard(v.pre)
    ensures Parsed(Print(v)) == Ok(v) && !StandardText(Print(v))
  {
    PlainPrintParses(v);
    AcceptedIsStandardIff(Print(v), v);
  }

  /** Such versions exist: 1.0.0-01. */
  lemma LeadingZeroIsAccepted()
    ensures
      var v := Version(1, 0, 0, ["01"]);
      ValidVersion(v) && !AllStandard(v.pre)
  {
    assert !StandardIdentifier(["01"][0]);
  }
}
