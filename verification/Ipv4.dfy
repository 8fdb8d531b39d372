/** IPv4 addresses as Python's `ipaddress` prints, parses and enumerates them. */
module Ipv4 {
  import opened Wrappers
  import opened Text

  const SPACE: nat := 0x1_0000_0000

  type Address = n: nat | n < SPACE witness 0

  // ---------------------------------------------------------- dotted quads

  function Octet(a: Address, i: nat): (o: nat)
    requires i < 4
    ensures o < 256
  {
    match i
    case 0 => a / 0x100_0000
    case 1 => a / 0x1_0000 % 256
    case 2 => a / 0x100 % 256
    case _ => a % 256
  }

  /** `str(address)` */
  function Print(a: Address): string {
    Decimal(Octet(a, 0)) + "." + Decimal(Octet(a, 1)) + "." + Decimal(Octet(a, 2)) + "." + Decimal(Octet(a, 3))
  }

  function UpToDot(s: string): (n: nat)
    ensures n <= |s|
  {
    if s == "" || s[0] == '.' then 0 else 1 + UpToDot(s[1..])
  }

  /** `s.split(".")` */
  function Fields(s: string): seq<string>
    decreases |s|
  {
    var n := UpToDot(s);
    if n == |s| then [s] else [s[..n]] + Fields(s[n + 1..])
  }

  /** A decimal octet, without leading zeros. */
  predicate IsOctet(s: string) {
    && 1 <= |s| <= 3 && (forall i :: 0 <= i < |s| ==> '0' <= s[i] <= '9')
    && (s[0] == '0' ==> s == "0") && Value(s) < 256
  }

  function Parse(s: string): Option<Address> {
    var f := Fields(s);
    if |f| == 4 && IsOctet(f[0]) && IsOctet(f[1]) && IsOctet(f[2]) && IsOctet(f[3])
    then Some(Value(f[0]) * 0x100_0000 + Value(f[1]) * 0x1_0000 + Value(f[2]) * 0x100 + Value(f[3]))
    else None
  }

  predicate Dotless(s: string) {
    forall i :: 0 <= i < |s| ==> s[i] != '.'
  }

  lemma {:induction false} UpToFirstDot(f: string, rest: string)
    requires Dotless(f)
    ensures UpToDot(f) == |f| && UpToDot(f + "." + rest) == |f|
  {
    if f == "" {
      assert (f + "." + rest)[0] == '.';
    } else {
      UpToFirstDot(f[1..], rest);
      assert (f + "." + rest)[1..] == f[1..] + "." + rest;
    }
  }

  lemma FieldThenRest(f: string, rest: string)
    requires Dotless(f)
    ensures Fields(f + "." + rest) == [f] + Fields(rest) && Fields(f) == [f]
  {
    UpToFirstDot(f, rest);
    var s := f + "." + rest;
    assert s[..|f|] == f && s[|f| + 1..] == rest;
  }

  lemma OctetPrints(n: nat)
    requires n < 256
    ensures IsOctet(Decimal(n)) && Dotless(Decimal(n)) && Value(Decimal(n)) == n
  {
    ValueOfDecimal(n);
  }

  lemma FourFields(a: string, b: string, c: string, d: string)
    requires Dotless(a) && Dotless(b) && Dotless(c) && Dotless(d)
    ensures Fields(a + "." + b + "." + c + "." + d) == [a, b, c, d]
  {
    hide Fields, Dotless;
    FieldThenRest(c, d);
    FieldThenRest(b, c + "." + d);
    FieldThenRest(a, b + "." + c + "." + d);
    FieldThenRest(d, "");
    assert a + "." + b + "." + c + "." + d == a + "." + (b + "." + c + "." + d);
    assert b + "." + c + "." + d == b + "." + (c + "." + d);
  }

  lemma OctetsRebuild(a: Address)
    ensures Octet(a, 0) * 0x100_0000 + Octet(a, 1) * 0x1_0000 + Octet(a, 2) * 0x100 + Octet(a, 3) == a
  {
    var x := a / 0x100;
    var y := x / 0x100;
    assert a / 0x1_0000 == y && a / 0x100_0000 == y / 0x100;
  }

  /** A printed address reads back as itself. */
  lemma ParsePrint(a: Address)
    ensures Parse(Print(a)) == Some(a)
  {
    hide Fields, IsOctet, Dotless, Octet;
    OctetPrints(Octet(a, 0));
    OctetPrints(Octet(a, 1));
    OctetPrints(Octet(a, 2));
    OctetPrints(Octet(a, 3));
    FourFields(Decimal(Octet(a, 0)), Decimal(Octet(a, 1)), Decimal(Octet(a, 2)), Decimal(Octet(a, 3)));
    OctetsRebuild(a);
  }

  // ---------------------------------------------------------- fallback names

  /** `s.replace(x, y)` for single characters. */
  function Swap(s: string, x: char, y: char): (r: string)
    ensures |r| == |s| && forall i :: 0 <= i < |s| ==> r[i] == if s[i] == x then y else s[i]
  {
    if s == "" then "" else [if s[0] == x then y else s[0]] + Swap(s[1..], x, y)
  }

  /** `ip.replace(".", "-")` */
  function FallbackName(ip: string): string {
    Swap(ip, '.', '-')
  }

  /** Putting the dots back recovers any text that had no dash of its own. */
  lemma DotsBack(s: string)
    requires '-' !in s
    ensures Swap(FallbackName(s), '-', '.') == s
  {
  }

  lemma PrintHasNoDash(a: Address)
    ensures '-' !in Print(a) && |Print(a)| <= 15
  {
    hide Octet, Value, Decimal;
    ValueOfDecimal(Octet(a, 0));
    ValueOfDecimal(Octet(a, 1));
    ValueOfDecimal(Octet(a, 2));
    ValueOfDecimal(Octet(a, 3));
  }

  /** Different addresses have different fallback names. */
  lemma FallbackNamesDiffer(a: Address, b: Address)
    ensures FallbackName(Print(a)) == FallbackName(Print(b)) <==> a == b
  {
    PrintHasNoDash(a);
    PrintHasNoDash(b);
    DotsBack(Print(a));
    DotsBack(Print(b));
    ParsePrint(a);
    ParsePrint(b);
  }

  // ---------------------------------------------------------------- subnets

  type Prefix = p: nat | p <= 32 witness 0

  function Pow2(n: nat): (r: nat)
    ensures r > 0
  {
    if n == 0 then 1 else 2 * Pow2(n - 1)
  }

  lemma {:induction false} Pow2Adds(m: nat, n: nat)
    ensures Pow2(m) * Pow2(n) == Pow2(m + n)
    decreases m
  {
    if m > 0 {
      Pow2Adds(m - 1, n);
      Associates(2, Pow2(m - 1), Pow2(n));
    }
  }

  lemma Associates(x: int, y: int, z: int)
    ensures x * y * z == x * (y * z)
  {
  }

  lemma Pow2Of32()
    ensures Pow2(32) == SPACE
  {
    assert Pow2(4) == 16 by { assert Pow2(2) == 4; }
    Pow2Adds(4, 4);
    Pow2Adds(8, 8);
    Pow2Adds(16, 16);
  }

  /** Addresses in a subnet of prefix `p`. */
  function Size(p: Prefix): (n: nat)
    ensures n > 0
  {
    Pow2(32 - p)
  }

  // Division facts, kept away from the rest because the solver is slow on them.

  lemma DivMod(x: nat, k: nat)
    requires k > 0
    ensures x == x / k * k + x % k && x / k * k <= x && x % k < k
  {
  }

  lemma Strictly(x: int, y: int, k: nat)
    requires x < y
    ensures x * k + k <= y * k
  {
    assert y * k == x * k + (y - x) * k;
    assert (y - x) * k == k + (y - x - 1) * k;
    assert (y - x - 1) * k >= 0;
  }

  lemma SameQuotient(x: nat, q: nat, k: nat)
    requires k > 0 && q * k <= x < q * k + k
    ensures x / k == q && x % k == x - q * k
  {
    DivMod(x, k);
    if x / k < q { Strictly(x / k, q, k); }
    if x / k > q { Strictly(q, x / k, k); }
  }

  /** The multiple of `k` at or below `x`. */
  function Floor(x: nat, k: nat): (n: nat)
    requires k > 0
    ensures n <= x
  {
    DivMod(x, k);
    x / k * k
  }

  /** `strict=False` masks the host bits away. */
  function Network(a: Address, p: Prefix): Address {
    hide Floor;
    Floor(a, Size(p))
  }

  lemma FloorFits(a: nat, k: nat, count: nat)
    requires k > 0 && a < k * count
    ensures Floor(a, k) == a / k * k && Floor(a, k) + k <= k * count
  {
    DivMod(a, k);
    Quotients(a, a / k, k, count);
  }

  lemma NetworkFits(a: Address, p: Prefix)
    ensures Network(a, p) + Size(p) <= SPACE
    ensures Network(a, p) == a / Size(p) * Size(p)
  {
    hide Floor;
    Pow2Adds(32 - p, p);
    Pow2Of32();
    FloorFits(a, Size(p), Pow2(p));
  }

  lemma Quotients(a: nat, q: nat, k: nat, count: nat)
    requires q * k <= a < k * count
    ensures q * k + k <= k * count
  {
    if q < count { Strictly(q, count, k); }
    else if q > count { Strictly(count, q, k); }
  }

  function Range(lo: nat, hi: nat): (r: seq<Address>)
    requires hi <= SPACE
    ensures |r| == if lo <= hi then hi - lo else 0
    ensures forall i :: 0 <= i < |r| ==> r[i] == lo + i
    decreases hi - lo
  {
    if lo >= hi then [] else [lo] + Range(lo + 1, hi)
  }

  /** `list(ip_network(..., strict=False).hosts())`: without the network and broadcast addresses, except
      that a /31 has both its addresses (section 2.1 of RFC 3021) and a /32 its only one. */
  function Hosts(a: Address, p: Prefix): seq<Address> {
    NetworkFits(a, p);
    var n := Network(a, p);
    if p <= 30 then Range(n + 1, n + Size(p) - 1) else Range(n, n + Size(p))
  }

  /** How many hosts a subnet has. */
  lemma HostCount(a: Address, p: Prefix)
    ensures |Hosts(a, p)| == if p <= 30 then Size(p) - 2 else if p == 31 then 2 else 1
  {
    hide Network;
    NetworkFits(a, p);
    if p <= 30 { assert Pow2(32 - p) == 2 * Pow2(31 - p) && Pow2(31 - p) == 2 * Pow2(30 - p); }
  }

  lemma InRange(lo: nat, hi: nat, x: Address)
    requires hi <= SPACE
    ensures x in Range(lo, hi) <==> lo <= x < hi
  {
    if lo <= x < hi { assert Range(lo, hi)[x - lo] == x; }
  }

  /** The hosts are exactly the addresses that share the subnet's leading bits, bar the two reserved ones. */
  lemma HostsExactly(a: Address, p: Prefix, x: Address)
    ensures x in Hosts(a, p) <==>
      && x / Size(p) == a / Size(p)
      && (p <= 30 ==> x % Size(p) != 0 && x % Size(p) != Size(p) - 1)
  {
    hide Size, Range;
    NetworkFits(a, p);
    var k, q := Size(p), a / Size(p);
    var n := Network(a, p);
    hide Network;
    InRange(n + 1, n + k - 1, x);
    InRange(n, n + k, x);
    DivMod(x, k);
    if n <= x < n + k { SameQuotient(x, q, k); }
  }

  /** Any address of a subnet denotes the same subnet. */
  lemma HostBitsIgnored(a: Address, b: Address, p: Prefix)
    requires a / Size(p) == b / Size(p)
    ensures Hosts(a, p) == Hosts(b, p)
  {
    hide Range, Size;
    hide Network;
    NetworkFits(a, p);
    NetworkFits(b, p);
  }

  /** The addresses are listed once each. */
  lemma HostsDistinct(a: Address, p: Prefix, i: nat, j: nat)
    requires i < |Hosts(a, p)| && j < |Hosts(a, p)| && i != j
    ensures Hosts(a, p)[i] != Hosts(a, p)[j]
  {
    hide Network, Size;
    NetworkFits(a, p);
  }

  /** They are listed in increasing order. */
  lemma HostsAscend(a: Address, p: Prefix, i: nat, j: nat)
    requires i < j < |Hosts(a, p)|
    ensures Hosts(a, p)[i] < Hosts(a, p)[j]
  {
    hide Network, Size;
    NetworkFits(a, p);
  }
}
