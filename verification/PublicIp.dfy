/** The two definitions of a public address: the installer's, on Python's ipaddress,
    and the proxy's, on Go's netip. */
module PublicIp {
  import opened Wrappers
  import opened Text
  import opened ConnectionKey

  type U32 = n: nat | n < 0x1_0000_0000
  type U128 = n: nat | n < 0x1_0000_0000_0000_0000_0000_0000_0000_0000

  datatype Address = V4(v4: U32) | V6(v6: U128, zone: string)

  const TWO_96 := 0x1_0000_0000_0000_0000_0000_0000

  type Octet = n: nat | n < 256
  type Group = n: nat | n < 65536

  function Span4(bits: nat): nat {
    match bits
    case 4 => 0x1000_0000
    case 8 => 0x100_0000
    case 10 => 0x40_0000
    case 12 => 0x10_0000
    case 15 => 0x2_0000
    case 16 => 0x1_0000
    case 24 => 0x100
    case _ => 1
  }

  /** `v` lies in the network a.b.c.d/bits. */
  predicate InNet4(v: U32, a: Octet, b: Octet, c: Octet, d: Octet, bits: nat) {
    var base := ((a * 256 + b) * 256 + c) * 256 + d;
    base <= v < base + Span4(bits)
  }

  function Span6(bits: nat): nat {
    match bits
    case 3 => 0x2000_0000 * TWO_96
    case 7 => 0x200_0000 * TWO_96
    case 8 => 0x100_0000 * TWO_96
    case 10 => 0x40_0000 * TWO_96
    case 16 => 0x1_0000 * TWO_96
    case 20 => 0x1000 * TWO_96
    case 23 => 0x200 * TWO_96
    case 28 => 0x10 * TWO_96
    case 32 => TWO_96
    case 48 => 0x1_0000_0000_0000_0000_0000
    case 64 => 0x1_0000_0000_0000_0000
    case _ => 1
  }

  /** `v` lies in the network a:b:c::d/bits. */
  predicate InNet6(v: U128, a: Group, b: Group, c: Group, d: Group, bits: nat) {
    var base := (a * 65536 + b) * TWO_96 + c * 0x1_0000_0000_0000_0000_0000 + d;
    base <= v < base + Span6(bits)
  }

  const MAPPED := 0xffff_0000_0000

  /** An IPv4-mapped address as the IPv4 address it stands for. */
  function Unmap(a: Address): Address {
    match a
    case V4(_) => a
    case V6(v, _) => if MAPPED <= v < MAPPED + 0x1_0000_0000 then V4(v - MAPPED) else a
  }

  // The list both sides block.

  predicate Blocked4(v: U32) {
    InNet4(v, 0, 0, 0, 0, 8) || InNet4(v, 100, 64, 0, 0, 10) || InNet4(v, 192, 0, 0, 0, 24) ||
    InNet4(v, 192, 0, 2, 0, 24) || InNet4(v, 192, 88, 99, 0, 24) || InNet4(v, 198, 18, 0, 0, 15) ||
    InNet4(v, 198, 51, 100, 0, 24) || InNet4(v, 203, 0, 113, 0, 24) || InNet4(v, 240, 0, 0, 0, 4)
  }

  predicate Blocked6(v: U128) {
    InNet6(v, 0x2001, 0, 0, 0, 23) || InNet6(v, 0x2001, 0xdb8, 0, 0, 32) || InNet6(v, 0x2002, 0, 0, 0, 16)
  }

  predicate InPublicIPv6(v: U128) {
    InNet6(v, 0x2000, 0, 0, 0, 3)
  }

  // Go: the predicates of netip.Addr on an unmapped address.

  predicate IsLoopback(a: Address) {
    match a
    case V4(v) => InNet4(v, 127, 0, 0, 0, 8)
    case V6(v, _) => v == 1
  }

  predicate IsMulticast(a: Address) {
    match a
    case V4(v) => InNet4(v, 224, 0, 0, 0, 4)
    case V6(v, _) => InNet6(v, 0xff00, 0, 0, 0, 8)
  }

  predicate IsLinkLocalUnicast(a: Address) {
    match a
    case V4(v) => InNet4(v, 169, 254, 0, 0, 16)
    case V6(v, _) => InNet6(v, 0xfe80, 0, 0, 0, 10)
  }

  predicate IsPrivate(a: Address) {
    match a
    case V4(v) => InNet4(v, 10, 0, 0, 0, 8) || InNet4(v, 172, 16, 0, 0, 12) || InNet4(v, 192, 168, 0, 0, 16)
    case V6(v, _) => InNet6(v, 0xfc00, 0, 0, 0, 7)
  }

  predicate IsGlobalUnicast(a: Address) {
    a != V4(0) && a != V4(0xffff_ffff) && a != V6(0, "") && !IsLoopback(a) && !IsMulticast(a) && !IsLinkLocalUnicast(a)
  }

  /** Prefix.Contains never holds of an address with a zone. */
  predicate InBlockedRanges(a: Address) {
    match a
    case V4(v) => Blocked4(v)
    case V6(v, zone) => zone == "" && Blocked6(v)
  }

  predicate PublicAddress(address: Address) {
    var a := Unmap(address);
    IsGlobalUnicast(a) && !IsPrivate(a) && !IsLoopback(a) && !IsLinkLocalUnicast(a) &&
    (a.V6? ==> a.zone == "" && InPublicIPv6(a.v6)) && !InBlockedRanges(a)
  }

  // Python: ipaddress by the IANA special-purpose registries.

  predicate PrivatePython4(v: U32) {
    (InNet4(v, 0, 0, 0, 0, 8) || InNet4(v, 10, 0, 0, 0, 8) || InNet4(v, 127, 0, 0, 0, 8) ||
     InNet4(v, 169, 254, 0, 0, 16) || InNet4(v, 172, 16, 0, 0, 12) || InNet4(v, 192, 0, 0, 0, 24) ||
     InNet4(v, 192, 0, 2, 0, 24) || InNet4(v, 192, 168, 0, 0, 16) || InNet4(v, 198, 18, 0, 0, 15) ||
     InNet4(v, 198, 51, 100, 0, 24) || InNet4(v, 203, 0, 113, 0, 24) || InNet4(v, 240, 0, 0, 0, 4)) &&
    !InNet4(v, 192, 0, 0, 9, 32) && !InNet4(v, 192, 0, 0, 10, 32)
  }

  /** The documentation block of RFC 9637, which only newer registries list. */
  predicate InDocumentationBlock(v: U128) {
    InNet6(v, 0x3fff, 0, 0, 0, 20)
  }

  predicate PrivatePython6(v: U128, rfc9637: bool) {
    (v == 0 || v == 1 || MAPPED <= v < MAPPED + 0x1_0000_0000 || InNet6(v, 0x64, 0xff9b, 1, 0, 48) ||
     InNet6(v, 0x100, 0, 0, 0, 64) || InNet6(v, 0x2001, 0, 0, 0, 23) || InNet6(v, 0x2001, 0xdb8, 0, 0, 32) ||
     InNet6(v, 0x2002, 0, 0, 0, 16) || (rfc9637 && InDocumentationBlock(v)) || InNet6(v, 0xfc00, 0, 0, 0, 7) ||
     InNet6(v, 0xfe80, 0, 0, 0, 10)) &&
    !InNet6(v, 0x2001, 1, 0, 1, 128) && !InNet6(v, 0x2001, 1, 0, 2, 128) && !InNet6(v, 0x2001, 3, 0, 0, 32) &&
    !InNet6(v, 0x2001, 4, 0x112, 0, 48) && !InNet6(v, 0x2001, 0x20, 0, 0, 28) && !InNet6(v, 0x2001, 0x30, 0, 0, 28)
  }

  predicate IsGlobal(a: Address, rfc9637: bool) {
    match a
    case V4(v) => !InNet4(v, 100, 64, 0, 0, 10) && !PrivatePython4(v)
    case V6(v, _) => !PrivatePython6(v, rfc9637)
  }

  /** is_public_ip on the parsed address; the zone is Python's scope id. */
  predicate IsPublicIp(address: Address, rfc9637: bool) {
    (address.V6? ==> address.zone == "") &&
    (var a := Unmap(address);
     IsGlobal(a, rfc9637) && !IsMulticast(a) && (a.V6? ==> InPublicIPv6(a.v6)) &&
     !(if a.V4? then Blocked4(a.v4) else Blocked6(a.v6)))
  }

  /** On IPv4 the two definitions are the same. */
  lemma SameOnIPv4(v: U32, rfc9637: bool)
    ensures IsPublicIp(V4(v), rfc9637) <==> PublicAddress(V4(v))
  {
  }

  /** On IPv6 they differ on exactly the documentation block, if Python lists it. */
  lemma SameOnIPv6(v: U128, rfc9637: bool)
    requires Unmap(V6(v, "")).V6?
    ensures IsPublicIp(V6(v, ""), rfc9637) <==> PublicAddress(V6(v, "")) && !(rfc9637 && InDocumentationBlock(v))
  {
  }

  /** Every address the installer accepts the proxy accepts too, with exactly these differences. */
  lemma InstallerRefinesProxy(a: Address, rfc9637: bool)
    ensures IsPublicIp(a, rfc9637) ==> PublicAddress(a)
    ensures PublicAddress(a) && !IsPublicIp(a, rfc9637) <==>
      PublicAddress(a) && a.V6? && (a.zone != "" || (rfc9637 && InDocumentationBlock(a.v6)))
  {
    hide Blocked4, Blocked6, IsGlobal, IsGlobalUnicast, IsPrivate, InPublicIPv6;
    if a.V4? { SameOnIPv4(a.v4, rfc9637); }
    else if Unmap(a).V4? { SameOnIPv4(Unmap(a).v4, rfc9637); }
    else if a.zone == "" { SameOnIPv6(a.v6, rfc9637); }
  }

  // The networks apart from their tables.

  function Pow2(n: nat): (r: nat)
    ensures r > 0
  {
    if n == 0 then 1 else 2 * Pow2(n - 1)
  }

  function Dotted(a: Octet, b: Octet, c: Octet, d: Octet): U32 {
    ((a * 256 + b) * 256 + c) * 256 + d
  }

  lemma Spans4(bits: nat)
    requires bits in {4, 8, 10, 12, 15, 16, 24, 32}
    ensures Span4(bits) == Pow2(32 - bits)
  {
    assert Pow2(8) == 0x100 && Pow2(16) == 0x1_0000 && Pow2(17) == 0x2_0000 && Pow2(20) == 0x10_0000;
    assert Pow2(22) == 0x40_0000 && Pow2(24) == 0x100_0000 && Pow2(28) == 0x1000_0000;
  }

  lemma Multiplies(a: nat, b: nat, c: nat)
    requires a <= b
    ensures a * c <= b * c
  {
  }

  lemma SamePrefix(v: nat, base: nat, span: nat)
    requires span > 0 && base % span == 0
    ensures base <= v < base + span <==> v / span == base / span
  {
    var p, q := v / span, base / span;
    assert v == p * span + v % span && base == q * span;
    if p < q { Multiplies(p + 1, q, span); }
    if p > q { Multiplies(q + 1, p, span); }
  }

  /** An IPv4 address is in a network exactly if it agrees with the base on the first `bits` bits. */
  lemma Net4ByPrefix(v: U32, a: Octet, b: Octet, c: Octet, d: Octet, bits: nat)
    requires bits in {4, 8, 10, 12, 15, 16, 24, 32} && Dotted(a, b, c, d) % Pow2(32 - bits) == 0
    ensures InNet4(v, a, b, c, d, bits) <==> v / Pow2(32 - bits) == Dotted(a, b, c, d) / Pow2(32 - bits)
  {
    Spans4(bits);
    SamePrefix(v, Dotted(a, b, c, d), Pow2(32 - bits));
    hide Pow2, Span4;
  }

  lemma {:induction false} Pow2Adds(m: nat, n: nat)
    ensures Pow2(m + n) == Pow2(m) * Pow2(n)
  {
    if m == 0 {
    } else {
      Pow2Adds(m - 1, n);
      assert 2 * (Pow2(m - 1) * Pow2(n)) == (2 * Pow2(m - 1)) * Pow2(n);
    }
  }

  lemma WordPowers()
    ensures Pow2(16) == 0x1_0000 && Pow2(32) == 0x1_0000_0000
  {
    assert Pow2(4) == 0x10 && Pow2(8) == 0x100 && Pow2(12) == 0x1000 && Pow2(16) == 0x1_0000;
    Pow2Adds(16, 16);
  }

  lemma LargePowers(n: nat)
    ensures Pow2(64) == 0x1_0000_0000_0000_0000 && Pow2(80) == 0x1_0000_0000_0000_0000_0000
    ensures Pow2(96 + n) == Pow2(n) * TWO_96
  {
    hide Pow2;
    WordPowers();
    Pow2Adds(32, 32);
    Pow2Adds(64, 16);
    Pow2Adds(64, 32);
    Pow2Adds(n, 96);
  }

  lemma Spans6(bits: nat)
    requires bits in {3, 7, 8, 10, 16, 20, 23, 28, 32, 48, 64, 128}
    ensures Span6(bits) == Pow2(128 - bits)
  {
    assert Pow2(4) == 0x10 && Pow2(9) == 0x200 && Pow2(12) == 0x1000 && Pow2(16) == 0x1_0000;
    assert Pow2(22) == 0x40_0000 && Pow2(24) == 0x100_0000 && Pow2(25) == 0x200_0000 && Pow2(29) == 0x2000_0000;
    LargePowers(if bits <= 32 then 32 - bits else 0);
  }

  function Base6(a: Group, b: Group, c: Group, d: Group): nat {
    (a * 65536 + b) * TWO_96 + c * 0x1_0000_0000_0000_0000_0000 + d
  }

  /** The same for IPv6. */
  lemma Net6ByPrefix(v: U128, a: Group, b: Group, c: Group, d: Group, bits: nat)
    requires bits in {3, 7, 8, 10, 16, 20, 23, 28, 32, 48, 64, 128} && Base6(a, b, c, d) % Pow2(128 - bits) == 0
    ensures InNet6(v, a, b, c, d, bits) <==> v / Pow2(128 - bits) == Base6(a, b, c, d) / Pow2(128 - bits)
  {
    Spans6(bits);
    SamePrefix(v, Base6(a, b, c, d), Pow2(128 - bits));
    hide Pow2, Span6;
  }

  lemma OneOctet(a: Octet, b: Octet, c: Octet, d: Octet, x: Octet)
    ensures InNet4(Dotted(a, b, c, d), x, 0, 0, 0, 8) <==> a == x
    ensures x % 16 == 0 ==> (InNet4(Dotted(a, b, c, d), x, 0, 0, 0, 4) <==> x <= a < x + 16)
  {
  }

  lemma TwoOctets(a: Octet, b: Octet, c: Octet, d: Octet, x: Octet, y: Octet)
    ensures InNet4(Dotted(a, b, c, d), x, y, 0, 0, 16) <==> a == x && b == y
    ensures y <= 254 ==> (InNet4(Dotted(a, b, c, d), x, y, 0, 0, 15) <==> a == x && y <= b < y + 2)
    ensures y <= 240 ==> (InNet4(Dotted(a, b, c, d), x, y, 0, 0, 12) <==> a == x && y <= b < y + 16)
    ensures y <= 192 ==> (InNet4(Dotted(a, b, c, d), x, y, 0, 0, 10) <==> a == x && y <= b < y + 64)
  {
  }

  lemma SameNumber(p: nat, q: nat, c: Octet, z: Octet)
    ensures p * 256 + c == q * 256 + z <==> p == q && c == z
  {
  }

  lemma ThreeOctets(a: Octet, b: Octet, c: Octet, d: Octet, x: Octet, y: Octet, z: Octet)
    ensures InNet4(Dotted(a, b, c, d), x, y, z, 0, 24) <==> a == x && b == y && c == z
  {
    var p, q := (a * 256 + b) * 256 + c, (x * 256 + y) * 256 + z;
    assert InNet4(Dotted(a, b, c, d), x, y, z, 0, 24) <==> 256 * q <= 256 * p + d < 256 * q + 256;
    SameNumber(a * 256 + b, x * 256 + y, c, z);
    SameNumber(a, x, b, y);
    hide *;
  }

  /** The IPv4 addresses the proxy may reach, octet by octet. */
  predicate Public4(a: Octet, b: Octet, c: Octet, d: Octet) {
    a != 0 && a != 10 && a != 127 && a < 224 && !(a == 100 && 64 <= b < 128) && !(a == 169 && b == 254) &&
    !(a == 172 && 16 <= b < 32) && !(a == 192 && b == 168) && !(a == 192 && b == 0 && (c == 0 || c == 2)) &&
    !(a == 192 && b == 88 && c == 99) && !(a == 198 && 18 <= b < 20) && !(a == 198 && b == 51 && c == 100) &&
    !(a == 203 && b == 0 && c == 113)
  }

  lemma PublicByOctets(a: Octet, b: Octet, c: Octet, d: Octet)
    ensures PublicAddress(V4(Dotted(a, b, c, d))) <==> Public4(a, b, c, d)
  {
    OneOctet(a, b, c, d, 0);
    OneOctet(a, b, c, d, 10);
    OneOctet(a, b, c, d, 127);
    OneOctet(a, b, c, d, 224);
    OneOctet(a, b, c, d, 240);
    TwoOctets(a, b, c, d, 100, 64);
    TwoOctets(a, b, c, d, 169, 254);
    TwoOctets(a, b, c, d, 172, 16);
    TwoOctets(a, b, c, d, 192, 168);
    TwoOctets(a, b, c, d, 198, 18);
    ThreeOctets(a, b, c, d, 192, 0, 0);
    ThreeOctets(a, b, c, d, 192, 0, 2);
    ThreeOctets(a, b, c, d, 192, 88, 99);
    ThreeOctets(a, b, c, d, 198, 51, 100);
    ThreeOctets(a, b, c, d, 203, 0, 113);
    EdgesByOctets(a, b, c, d);
    hide InNet4, Dotted;
  }

  lemma EdgesByOctets(a: Octet, b: Octet, c: Octet, d: Octet)
    ensures Dotted(a, b, c, d) == 0 ==> a == 0
    ensures Dotted(a, b, c, d) == 0xffff_ffff ==> a == 255
  {
  }

  /** For every IPv4 address, by its four octets. */
  lemma PublicIPv4Exactly(v: U32)
    ensures PublicAddress(V4(v)) <==>
      Public4(v / 0x100_0000, v / 0x1_0000 % 256, v / 0x100 % 256, v % 256)
  {
    PublicByOctets(v / 0x100_0000, v / 0x1_0000 % 256, v / 0x100 % 256, v % 256);
    hide PublicAddress, Public4;
    assert Dotted(v / 0x100_0000, v / 0x1_0000 % 256, v / 0x100 % 256, v % 256) == v;
  }

  /** The IPv6 addresses the proxy may reach: 2000::/3 without 2001::/23, 2001:db8::/32 and 2002::/16. */
  predicate Public6(v: U128) {
    0x2000_0000_0000_0000_0000_0000_0000_0000 <= v <= 0x3fff_ffff_ffff_ffff_ffff_ffff_ffff_ffff &&
    !(0x2001_0000_0000_0000_0000_0000_0000_0000 <= v <= 0x2001_01ff_ffff_ffff_ffff_ffff_ffff_ffff) &&
    !(0x2001_0db8_0000_0000_0000_0000_0000_0000 <= v <= 0x2001_0db8_ffff_ffff_ffff_ffff_ffff_ffff) &&
    !(0x2002_0000_0000_0000_0000_0000_0000_0000 <= v <= 0x2002_ffff_ffff_ffff_ffff_ffff_ffff_ffff)
  }

  /** For every IPv6 address: an IPv4-mapped one is judged as its IPv4 address, any other by its value
      and only without a zone. */
  lemma PublicIPv6Exactly(v: U128, zone: string)
    ensures 0xffff_0000_0000 <= v <= 0xffff_ffff_ffff ==>
      (PublicAddress(V6(v, zone)) <==> PublicAddress(V4(v - 0xffff_0000_0000)))
    ensures !(0xffff_0000_0000 <= v <= 0xffff_ffff_ffff) ==> (PublicAddress(V6(v, zone)) <==> zone == "" && Public6(v))
  {
  }

  /** The documentation block that the two sides may differ on is 3fff::/20. */
  lemma DocumentationExactly(v: U128)
    ensures InDocumentationBlock(v) <==>
      0x3fff_0000_0000_0000_0000_0000_0000_0000 <= v <= 0x3fff_0fff_ffff_ffff_ffff_ffff_ffff_ffff
  {
  }

  /** The address libraries on text: Python's parser and printer, Go's parser. */
  datatype Notation = Notation(
    python: string -> Option<Address>,
    shown: Address -> string,
    go: string -> Option<Address>)

  predicate Plain(a: Address) {
    Unmap(a) == a && (a.V6? ==> a.zone == "")
  }

  /** What Python prints, both parsers read back, and it has no surrounding spaces. */
  ghost predicate Faithful(n: Notation) {
    forall a :: Plain(a) ==>
      n.python(n.shown(a)) == Some(a) && n.go(n.shown(a)) == Some(a) && Strip(n.shown(a)) == n.shown(a)
  }

  predicate Acceptable(n: Notation, value: string, rfc9637: bool) {
    n.python(Strip(value)).Some? && IsPublicIp(n.python(Strip(value)).value, rfc9637)
  }

  /** The canonical text of an acceptable entry. */
  function Canonical(n: Notation, value: string): string
    requires n.python(Strip(value)).Some?
  {
    n.shown(Unmap(n.python(Strip(value)).value))
  }

  predicate Distinct(xs: seq<string>) {
    forall i, j :: 0 <= i < j < |xs| ==> xs[i] != xs[j]
  }

  /** Every entry is public and no two are the same address. */
  ghost predicate Normalizes(n: Notation, values: seq<string>, result: seq<string>, rfc9637: bool) {
    |result| == |values| && Distinct(result) &&
    forall i :: 0 <= i < |values| ==> Acceptable(n, values[i], rfc9637) && result[i] == Canonical(n, values[i])
  }

  method NormalizeAddresses(n: Notation, values: seq<string>, rfc9637: bool) returns (r: Result<seq<string>>)
    ensures r.Ok? ==> Normalizes(n, values, r.value, rfc9637)
    ensures r.Ok? <==> exists result :: Normalizes(n, values, result, rfc9637)
  {
    var normalized := [];
    for i := 0 to |values|
      invariant Normalizes(n, values[..i], normalized, rfc9637)
    {
      if !Acceptable(n, values[i], rfc9637) { return Err; }
      var canonical := Canonical(n, values[i]);
      if canonical in normalized {
        var k :| 0 <= k < |normalized| && normalized[k] == canonical;
        assert values[..i][k] == values[k];
        return Err;
      }
      ghost var before := normalized;
      normalized := normalized + [canonical];
      assert forall k :: 0 <= k < i ==> values[..i + 1][k] == values[..i][k];
    }
    assert values[..|values|] == values;
    return Ok(normalized);
  }

  lemma PublicIsPlain(a: Address, rfc9637: bool)
    requires IsPublicIp(a, rfc9637)
    ensures Plain(Unmap(a)) && IsPublicIp(Unmap(a), rfc9637)
  {
  }

  /** Normalised addresses are stored, and normalise to themselves when read back. */
  lemma NormalizedAgain(n: Notation, values: seq<string>, result: seq<string>, rfc9637: bool)
    requires Faithful(n) && Normalizes(n, values, result, rfc9637)
    ensures Normalizes(n, result, result, rfc9637)
  {
    hide IsPublicIp, Strip, Unmap;
    forall i | 0 <= i < |result| ensures Acceptable(n, result[i], rfc9637) && result[i] == Canonical(n, result[i]) {
      PublicIsPlain(n.python(Strip(values[i])).value, rfc9637);
    }
  }

  /** The repeatable --self-address flag. */
  class SelfAddressFlags {
    var addresses: seq<Address>

    constructor ()
      ensures addresses == []
    {
      addresses := [];
    }

    method Set(n: Notation, value: string) returns (ok: bool)
      modifies this
      ensures ok <==> n.go(value).Some? && (n.go(value).value.V6? ==> n.go(value).value.zone == "") &&
                      PublicAddress(n.go(value).value)
      ensures addresses == if ok then old(addresses) + [Unmap(n.go(value).value)] else old(addresses)
    {
      var address := n.go(value);
      if address.None? || (address.value.V6? && address.value.zone != "") || !PublicAddress(address.value) {
        return false;
      }
      addresses := addresses + [Unmap(address.value)];
      return true;
    }
  }

  /** Every stored address is a valid --self-address, and the proxy keeps exactly the
      addresses the operator wrote. */
  method PassToProxy(n: Notation, values: seq<string>, result: seq<string>, rfc9637: bool)
    returns (flags: SelfAddressFlags, ok: bool)
    requires Faithful(n) && Normalizes(n, values, result, rfc9637)
    ensures ok && |flags.addresses| == |values|
    ensures forall i :: 0 <= i < |values| ==> flags.addresses[i] == Unmap(n.python(Strip(values[i])).value)
  {
    flags := new SelfAddressFlags();
    for i := 0 to |result|
      invariant fresh(flags) && |flags.addresses| == i
      invariant forall k :: 0 <= k < i ==> flags.addresses[k] == Unmap(n.python(Strip(values[k])).value)
    {
      PublicIsPlain(n.python(Strip(values[i])).value, rfc9637);
      InstallerRefinesProxy(Unmap(n.python(Strip(values[i])).value), rfc9637);
      ok := flags.Set(n, result[i]);
      assert ok;
    }
    ok := true;
  }
}
