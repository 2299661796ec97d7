/**
 The address a request is attributed to (internal/server/access.go). Parsing a
 host text into an address is a parameter; addresses are numbers with a family.
 */
module Access {
  import opened Wrappers
  import Text

  datatype Addr = V4(bits: nat) | V6(bits: nat, zone: string)

  datatype Prefix = Prefix(addr: Addr, length: nat)

  type Parser = string -> Option<Addr>

  function Pow2(k: nat): (p: nat)
    ensures p > 0
  {
    if k == 0 then 1 else 2 * Pow2(k - 1)
  }

  /** How many IPv4 addresses there are. */
  const IPV4: nat := 0x1_0000_0000

  /** An IPv4 address written inside ::ffff:0:0/96. */
  predicate Mapped(a: Addr) {
    a.V6? && a.bits / IPV4 == 0xffff
  }

  /** The same address without a zone, an IPv4 address in its own family. */
  function Normalise(a: Addr): (r: Addr)
    ensures !Mapped(r) && (r.V6? ==> r.zone == "")
    ensures a.V4? ==> r == a
    ensures a.V6? && r.V6? ==> r.bits == a.bits
    ensures a.V6? && r.V4? ==> r.bits < IPV4 && a.bits == 0xffff * IPV4 + r.bits
    ensures r.V4? <==> a.V4? || 0xffff * IPV4 <= a.bits < 0x1_0000 * IPV4
  {
    if Mapped(a) then V4(a.bits % IPV4)
    else if a.V6? then V6(a.bits, "")
    else a
  }

  predicate Contains(p: Prefix, a: Addr) {
    match (p.addr, a)
    case (V4(n), V4(m)) => p.length <= 32 && n / Pow2(32 - p.length) == m / Pow2(32 - p.length)
    case (V6(n, _), V6(m, zone)) => zone == "" && p.length <= 128 && n / Pow2(128 - p.length) == m / Pow2(128 - p.length)
    case _ => false
  }

  /** The prefix lengths one byte apart. */
  lemma Pow2Bytes()
    ensures Pow2(0) == 1 && Pow2(8) == 256 && Pow2(16) == 65536 && Pow2(24) == 16777216 && Pow2(32) == 4294967296
  {
    assert Pow2(4) == 16;
    assert Pow2(8) == 256;
    assert Pow2(12) == 4096;
    assert Pow2(16) == 65536;
    assert Pow2(20) == 1048576;
    assert Pow2(24) == 16777216;
    assert Pow2(28) == 268435456;
  }

  /** Numbers with the same quotient are those of one block, which starts at a multiple of its size. */
  lemma SameBlock(n: nat, m: nat, size: nat)
    requires size > 0
    ensures n / size == m / size <==> n - n % size <= m < n - n % size + size
  {
    var q, r := n / size, m / size;
    assert n == q * size + n % size && m == r * size + m % size;
    if q < r { assert r * size >= (q + 1) * size; }
    if r < q { assert q * size >= (r + 1) * size; }
  }

  /**
   A prefix of `length` bits contains the block of addresses of its family around its
   own: 2 to the power of the bits left, from a multiple of that on.
   */
  lemma ContainsIff(n: nat, length: nat, m: nat, zone: string)
    ensures Contains(Prefix(V4(n), length), V4(m)) <==>
              length <= 32 && var size := Pow2(32 - length); n - n % size <= m < n - n % size + size
    ensures Contains(Prefix(V6(n, zone), length), V6(m, "")) <==>
              length <= 128 && var size := Pow2(128 - length); n - n % size <= m < n - n % size + size
    ensures !Contains(Prefix(V4(n), length), V6(m, zone)) && !Contains(Prefix(V6(n, zone), length), V4(m))
    ensures zone != "" ==> !Contains(Prefix(V6(n, ""), length), V6(m, zone))
  {
    if length <= 32 { SameBlock(n, m, Pow2(32 - length)); }
    if length <= 128 { SameBlock(n, m, Pow2(128 - length)); }
  }

  /** For instance 10.0.0.0/8 is the addresses whose first byte is 10, /32 one address, and /0 all of them. */
  lemma ContainsBytes(first: nat, n: nat, m: nat)
    requires first < 256 && n < 4294967296 && m < 4294967296
    ensures Contains(Prefix(V4(first * 16777216), 8), V4(m)) <==> m / 16777216 == first
    ensures Contains(Prefix(V4(n), 32), V4(m)) <==> m == n
    ensures Contains(Prefix(V4(n), 0), V4(m))
  {
    Pow2Bytes();
  }

  predicate InAny(a: Addr, prefixes: seq<Prefix>) {
    exists i :: 0 <= i < |prefixes| && Contains(prefixes[i], a)
  }

  method InAnyOf(a: Addr, prefixes: seq<Prefix>) returns (found: bool)
    ensures found <==> InAny(a, prefixes)
  {
    for i := 0 to |prefixes|
      invariant forall j :: 0 <= j < i ==> !Contains(prefixes[j], a)
    {
      var p := prefixes[i];
      if p.addr.V4? != a.V4? { continue; }
      if Contains(p, a) { return true; }
    }
    return false;
  }

  // ------------------------------------------------------------- the hops

  /** An element of a header list, without padding; nothing if it is blank. */
  function Part(text: string): seq<string> {
    var part := Text.TrimSpace(text);
    if part != "" then [part] else []
  }

  /** The hops of one header, left to right. */
  function HopsOf(header: string): seq<string> {
    Text.FlatMap(Part, Text.Split(header, ','))
  }

  /** The hops of all headers, in header order. */
  function Hops(headers: seq<string>): seq<string> {
    Text.FlatMap(HopsOf, headers)
  }

  /** A hop that names an address outside the trusted ranges. */
  function Foreign(parse: Parser, trusted: seq<Prefix>, hop: string): Option<Addr> {
    match parse(hop)
    case None => None
    case Some(a) => if InAny(Normalise(a), trusted) then None else Some(Normalise(a))
  }

  /** The rightmost foreign hop. */
  function Rightmost(parse: Parser, trusted: seq<Prefix>, chain: seq<string>): Option<Addr> {
    if chain == [] then None
    else if Foreign(parse, trusted, chain[|chain| - 1]).Some? then Foreign(parse, trusted, chain[|chain| - 1])
    else Rightmost(parse, trusted, chain[..|chain| - 1])
  }

  datatype Request = Request(remote: string, forwarded: seq<string>)

  function Client(parse: Parser, trusted: seq<Prefix>, r: Request): Option<Addr> {
    match parse(r.remote)
    case None => None
    case Some(a) =>
      var peer := Normalise(a);
      if !InAny(peer, trusted) then Some(peer)
      else match Rightmost(parse, trusted, Hops(r.forwarded))
        case Some(hop) => Some(hop)
        case None => Some(peer)
  }

  method ClientIP(parse: Parser, trusted: seq<Prefix>, r: Request) returns (addr: Option<Addr>)
    ensures addr == Client(parse, trusted, r)
  {
    var parsed := parse(r.remote);
    if parsed.None? { return None; }
    var peer := Normalise(parsed.value);
    var isTrusted := InAnyOf(peer, trusted);
    if |trusted| == 0 || !isTrusted { return Some(peer); }
    if |r.forwarded| == 0 { return Some(peer); }

    var chain := Chain(r.forwarded);
    addr := Scan(parse, trusted, chain);
    if addr.None? { return Some(peer); }
  }

  /** Right to left, past hops that do not parse and hops that are trusted. */
  method Scan(parse: Parser, trusted: seq<Prefix>, chain: seq<string>) returns (addr: Option<Addr>)
    ensures addr == Rightmost(parse, trusted, chain)
  {
    var i := |chain|;
    assert chain[..i] == chain;
    while i > 0
      invariant 0 <= i <= |chain|
      invariant Rightmost(parse, trusted, chain) == Rightmost(parse, trusted, chain[..i])
    {
      i := i - 1;
      assert chain[..i + 1][..i] == chain[..i];
      var hop := parse(chain[i]);
      if hop.None? { continue; }
      var a := Normalise(hop.value);
      var skip := InAnyOf(a, trusted);
      if skip { continue; }
      return Some(a);
    }
    addr := None;
  }

  method Chain(headers: seq<string>) returns (chain: seq<string>)
    ensures chain == Hops(headers)
  {
    chain := [];
    for h := 0 to |headers|
      invariant chain == Text.FlatMap(HopsOf, headers[..h])
    {
      var parts := Text.Split(headers[h], ',');
      Text.FlatMapSnoc(HopsOf, headers, h);
      chain := AppendParts(chain, parts);
    }
    assert headers[..|headers|] == headers;
  }

  method AppendParts(before: seq<string>, parts: seq<string>) returns (chain: seq<string>)
    ensures chain == before + Text.FlatMap(Part, parts)
  {
    chain := before;
    for p := 0 to |parts|
      invariant chain == before + Text.FlatMap(Part, parts[..p])
    {
      var part := Text.TrimSpace(parts[p]);
      Text.FlatMapSnoc(Part, parts, p);
      assert Part(parts[p]) == if part != "" then [part] else [];
      if part != "" { chain := chain + [part]; }
    }
    assert parts[..|parts|] == parts;
  }

  // ------------------------------------------------------------ properties

  /** Without a trusted peer no header has a say. */
  lemma UntrustedPeerDecides(parse: Parser, trusted: seq<Prefix>, r: Request, forged: seq<string>)
    requires parse(r.remote).Some? && !InAny(Normalise(parse(r.remote).value), trusted)
    ensures Client(parse, trusted, r.(forwarded := forged)) == Some(Normalise(parse(r.remote).value))
  {
  }

  /** The hops of a header are the parts between its commas without the blanks around them; blank parts are no hops. */
  lemma HopsOfList(texts: seq<string>, hops: seq<string>)
    requires |texts| == |hops| > 0
    requires forall i :: 0 <= i < |texts| ==> ',' !in texts[i] && Text.Padded(texts[i], hops[i])
    ensures HopsOf(Text.Join(texts, ',')) == NotEmpty(hops)
  {
    Text.SplitJoin(texts, ',');
    PartsAre(texts, hops);
  }

  function NotEmpty(hops: seq<string>): seq<string> {
    if hops == [] then [] else (if hops[0] == "" then [] else [hops[0]]) + NotEmpty(hops[1..])
  }

  lemma {:induction false} PartsAre(texts: seq<string>, hops: seq<string>)
    requires |texts| == |hops| && forall i :: 0 <= i < |texts| ==> Text.Padded(texts[i], hops[i])
    ensures Text.FlatMap(Part, texts) == NotEmpty(hops)
  {
    if texts != [] {
      Text.TrimSpaceIs(texts[0], hops[0]);
      PartsAre(texts[1..], hops[1..]);
    }
  }

  /** A hop counts exactly when it parses to an address that, without its zone and unmapped, no trusted prefix contains. */
  lemma ForeignIff(parse: Parser, trusted: seq<Prefix>, hop: string, a: Addr)
    ensures Foreign(parse, trusted, hop) == Some(a) <==>
              && parse(hop).Some? && a == Normalise(parse(hop).value)
              && forall i :: 0 <= i < |trusted| ==> !Contains(trusted[i], a)
  {
  }

  ghost predicate RightmostAt(parse: Parser, trusted: seq<Prefix>, chain: seq<string>, i: int) {
    && 0 <= i < |chain|
    && Foreign(parse, trusted, chain[i]).Some?
    && forall j :: i < j < |chain| ==> Foreign(parse, trusted, chain[j]).None?
  }

  lemma {:induction false} RightmostIs(parse: Parser, trusted: seq<Prefix>, chain: seq<string>)
    ensures forall i :: RightmostAt(parse, trusted, chain, i) ==> Rightmost(parse, trusted, chain) == Foreign(parse, trusted, chain[i])
    ensures Rightmost(parse, trusted, chain).Some? ==> exists i :: RightmostAt(parse, trusted, chain, i)
  {
    if chain != [] {
      var n := |chain| - 1;
      if Foreign(parse, trusted, chain[n]).Some? {
        assert RightmostAt(parse, trusted, chain, n);
      } else {
        var init := chain[..n];
        RightmostIs(parse, trusted, init);
        forall i ensures RightmostAt(parse, trusted, init, i) <==> RightmostAt(parse, trusted, chain, i) {
        }
      }
    }
  }

  /** Behind a trusted peer the client is the rightmost foreign hop, or the peer when there is none. */
  lemma TrustedPeerForwards(parse: Parser, trusted: seq<Prefix>, r: Request)
    requires parse(r.remote).Some? && InAny(Normalise(parse(r.remote).value), trusted)
    ensures forall i :: RightmostAt(parse, trusted, Hops(r.forwarded), i) ==>
              Client(parse, trusted, r) == Foreign(parse, trusted, Hops(r.forwarded)[i])
    ensures (forall i :: !RightmostAt(parse, trusted, Hops(r.forwarded), i)) ==>
              Client(parse, trusted, r) == Some(Normalise(parse(r.remote).value))
  {
    RightmostIs(parse, trusted, Hops(r.forwarded));
  }

  lemma {:induction false} RightmostIgnoresFront(parse: Parser, trusted: seq<Prefix>, front: seq<string>, chain: seq<string>)
    requires Rightmost(parse, trusted, chain).Some?
    ensures Rightmost(parse, trusted, front + chain) == Rightmost(parse, trusted, chain)
  {
    var n := |chain| - 1;
    assert (front + chain)[..|front| + n] == front + chain[..n];
    if Foreign(parse, trusted, chain[n]).None? {
      RightmostIgnoresFront(parse, trusted, front, chain[..n]);
    }
  }

  /**
   What a client claims in front changes nothing once some proxy wrote a foreign hop:
   neither extra headers before it nor extra hops inside the first header.
   */
  lemma {:induction false} FrontIsIgnored(parse: Parser, trusted: seq<Prefix>, r: Request, headers: seq<string>, claim: string)
    requires r.forwarded != [] && Rightmost(parse, trusted, Hops(r.forwarded)).Some?
    ensures Client(parse, trusted, r.(forwarded := headers + r.forwarded)) == Client(parse, trusted, r)
    ensures Client(parse, trusted, r.(forwarded := [claim + [','] + r.forwarded[0]] + r.forwarded[1..]))
            == Client(parse, trusted, r)
  {
    var chain := Hops(r.forwarded);
    Text.FlatMapConcat(HopsOf, headers, r.forwarded);
    RightmostIgnoresFront(parse, trusted, Hops(headers), chain);
    SameRightmost(parse, trusted, r, headers + r.forwarded);
    ClaimInFront(claim, r.forwarded);
    RightmostIgnoresFront(parse, trusted, HopsOf(claim), chain);
    SameRightmost(parse, trusted, r, [claim + [','] + r.forwarded[0]] + r.forwarded[1..]);
  }

  /** Headers matter only through their rightmost foreign hop. */
  lemma {:induction false} SameRightmost(parse: Parser, trusted: seq<Prefix>, r: Request, other: seq<string>)
    requires Rightmost(parse, trusted, Hops(other)) == Rightmost(parse, trusted, Hops(r.forwarded))
    ensures Client(parse, trusted, r.(forwarded := other)) == Client(parse, trusted, r)
  {
  }

  lemma ClaimInFront(claim: string, headers: seq<string>)
    requires headers != []
    ensures Hops([claim + [','] + headers[0]] + headers[1..]) == HopsOf(claim) + Hops(headers)
  {
    Text.SplitAround(claim, headers[0], ',');
    Text.FlatMapConcat(Part, Text.Split(claim, ','), Text.Split(headers[0], ','));
    FlatMapSplitsHead(HopsOf, claim + [','] + headers[0], HopsOf(claim), headers);
  }

  lemma FlatMapSplitsHead(f: string -> seq<string>, head: string, front: seq<string>, headers: seq<string>)
    requires headers != [] && f(head) == front + f(headers[0])
    ensures Text.FlatMap(f, [head] + headers[1..]) == front + Text.FlatMap(f, headers)
  {
    assert ([head] + headers[1..])[1..] == headers[1..];
  }

  /** A trusted address is only ever returned because it is the peer itself. */
  lemma TrustedResultIsPeer(parse: Parser, trusted: seq<Prefix>, r: Request)
    requires Client(parse, trusted, r).Some? && InAny(Client(parse, trusted, r).value, trusted)
    ensures parse(r.remote).Some? && Client(parse, trusted, r) == Some(Normalise(parse(r.remote).value))
  {
    RightmostIs(parse, trusted, Hops(r.forwarded));
  }

  // --------------------------------------------------------- source filter

  predicate Admitted(parse: Parser, trusted: seq<Prefix>, allow: seq<Prefix>, r: Request) {
    allow == [] || (Client(parse, trusted, r).Some? && InAny(Client(parse, trusted, r).value, allow))
  }

  method AllowedSource(parse: Parser, trusted: seq<Prefix>, allow: seq<Prefix>, r: Request)
    returns (addr: Option<Addr>, ok: bool)
    ensures addr == Client(parse, trusted, r) && ok == Admitted(parse, trusted, allow, r)
  {
    addr := ClientIP(parse, trusted, r);
    if |allow| == 0 { return addr, true; }
    if addr.None? { return addr, false; }
    ok := InAnyOf(addr.value, allow);
  }

  /** Admitted is everybody when there is no list, and else who has an address that some entry of it contains. */
  lemma AdmittedIff(parse: Parser, trusted: seq<Prefix>, allow: seq<Prefix>, r: Request)
    ensures Admitted(parse, trusted, allow, r) <==>
              || |allow| == 0
              || (Client(parse, trusted, r).Some? && exists i :: 0 <= i < |allow| && Contains(allow[i], Client(parse, trusted, r).value))
  {
  }

  /** A peer that is neither trusted nor listed cannot talk its way in. */
  lemma OutsiderStaysOut(parse: Parser, trusted: seq<Prefix>, allow: seq<Prefix>, r: Request, forged: seq<string>)
    requires allow != [] && parse(r.remote).Some?
    requires !InAny(Normalise(parse(r.remote).value), trusted) && !InAny(Normalise(parse(r.remote).value), allow)
    ensures !Admitted(parse, trusted, allow, r.(forwarded := forged))
  {
    UntrustedPeerDecides(parse, trusted, r, forged);
  }
}
