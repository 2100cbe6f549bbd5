// IPv4 networks as the ipaddress library sees them: parsing with strict=True,
// canonical text, prefix arithmetic (RFC 4632, section 3.1) and subnet containment.
module Networks {
  import opened Common
  import opened Text

  datatype Network = Network(address: nat, prefix: nat)

  const ADDRESSES: nat := 0x1_0000_0000

  function Pow2(n: nat): (p: nat)
    ensures p > 0
  {
    if n == 0 then 1 else 2 * Pow2(n - 1)
  }

  // How many addresses share a prefix.
  function Size(prefix: nat): (size: nat)
    ensures size > 0
  {
    if prefix > 32 then 1 else Pow2(32 - prefix)
  }

  // A prefix of at most 32 bits with no host bits set.
  predicate WellFormed(net: Network) {
    && net.prefix <= 32
    && net.address % Size(net.prefix) == 0
    && net.address + Size(net.prefix) <= ADDRESSES
  }

  function Last(net: Network): nat {
    net.address + Size(net.prefix) - 1
  }

  // An address belongs to a network when their leading prefix bits agree.
  predicate Contains(net: Network, ip: nat) {
    ip / Size(net.prefix) == net.address / Size(net.prefix)
  }

  // subnet_of compares the first and the last address.
  predicate SubnetOf(inner: Network, outer: Network) {
    outer.address <= inner.address && Last(inner) <= Last(outer)
  }

  lemma QuotientRange(ip: nat, quotient: nat, size: nat)
    requires size > 0
    ensures ip / size == quotient <==> size * quotient <= ip < size * quotient + size
  {
    var q := ip / size;
    assert ip == size * q + ip % size;
    if q < quotient {
      assert size * (q + 1) <= size * quotient;
    } else if q > quotient {
      assert size * (quotient + 1) <= size * q;
    }
  }

  lemma ContainsIsRange(net: Network, ip: nat)
    requires WellFormed(net)
    ensures Contains(net, ip) <==> net.address <= ip <= Last(net)
  {
    hide Pow2, Size;
    var size := Size(net.prefix);
    assert net.address == size * (net.address / size);
    QuotientRange(ip, net.address / size, size);
  }

  // Comparing ends is the same as comparing address sets.
  lemma SubnetIsInclusion(inner: Network, outer: Network)
    requires WellFormed(inner) && WellFormed(outer)
    ensures SubnetOf(inner, outer) <==> forall ip: nat :: Contains(inner, ip) ==> Contains(outer, ip)
  {
    forall ip: nat
      ensures Contains(inner, ip) <==> inner.address <= ip <= Last(inner)
      ensures Contains(outer, ip) <==> outer.address <= ip <= Last(outer)
    {
      ContainsIsRange(inner, ip);
      ContainsIsRange(outer, ip);
    }
    if forall ip: nat :: Contains(inner, ip) ==> Contains(outer, ip) {
      assert Contains(inner, inner.address) && Contains(inner, Last(inner));
    }
  }

  /****** Text ******/

  function Quad(address: nat): seq<string> {
    [Decimal(address / 0x100_0000), Decimal(address / 0x1_0000 % 0x100),
     Decimal(address / 0x100 % 0x100), Decimal(address % 0x100)]
  }

  // The canonical text: str(network).
  function Print(net: Network): string {
    Join(Quad(net.address), '.') + "/" + Decimal(net.prefix)
  }

  function ParseOctet(s: string): Option<nat> {
    var n := ParseDecimal(s);
    if n.Some? && |s| <= 3 && n.value <= 255 then n else None
  }

  function ParseAddress(s: string): Option<nat> {
    var parts := Split(s, '.');
    if |parts| != 4 then None
    else
      var a, b, c, d := ParseOctet(parts[0]), ParseOctet(parts[1]), ParseOctet(parts[2]), ParseOctet(parts[3]);
      if a.None? || b.None? || c.None? || d.None? then None
      else Some(((a.value * 0x100 + b.value) * 0x100 + c.value) * 0x100 + d.value)
  }

  // The longest prefix of at most n bits whose netmask this is.
  function MaskLength(mask: nat, n: nat): (prefix: Option<nat>)
    ensures prefix.Some? ==> prefix.value <= n && mask + Size(prefix.value) == ADDRESSES
  {
    if mask + Size(n) == ADDRESSES then Some(n)
    else if n == 0 then None
    else MaskLength(mask, n - 1)
  }

  // A netmask, or else a hostmask, in the notation of addresses.
  function ParseMask(s: string): Option<nat> {
    var mask := ParseAddress(s);
    if mask.None? then None
    else if MaskLength(mask.value, 32).Some? then MaskLength(mask.value, 32)
    else if mask.value < ADDRESSES then MaskLength(ADDRESSES - 1 - mask.value, 32)
    else None
  }

  // A prefix length may carry leading zeros; an address without one is a host.
  function ParsePrefix(parts: seq<string>): Option<nat>
    requires |parts| > 0
  {
    if |parts| == 1 then Some(32)
    else if |parts| > 2 then None
    else if parts[1] == "" || (exists c | c in parts[1] :: !IsDigit(c)) then ParseMask(parts[1])
    else Some(Value(parts[1]))
  }

  // ip_network(text, strict=True), restricted to IPv4.
  function Parse(text: string): (net: Option<Network>)
    ensures net.Some? ==> WellFormed(net.value)
  {
    var parts := Split(text, '/');
    var address, prefix := ParseAddress(parts[0]), ParsePrefix(parts);
    if address.None? || prefix.None? || prefix.value > 32 || address.value % Size(prefix.value) != 0 then None
    else
      EndsInside(address.value, prefix.value);
      Some(Network(address.value, prefix.value))
  }

  lemma Pow2Splits(a: nat, b: nat)
    ensures Pow2(a + b) == Pow2(a) * Pow2(b)
  {
    if a > 0 {
      Pow2Splits(a - 1, b);
      assert Pow2(a + b) == 2 * (Pow2(a - 1) * Pow2(b)) == (2 * Pow2(a - 1)) * Pow2(b);
    }
  }

  lemma Pow2Of32()
    ensures Pow2(32) == ADDRESSES
  {
    assert Pow2(4) == 16;
    Pow2Splits(4, 4);
    Pow2Splits(8, 8);
    Pow2Splits(16, 16);
  }

  lemma FactorBelow(size: nat, a: nat, b: nat)
    requires size * a < size * b
    ensures a < b
  {
  }

  // A multiple of a block size below a larger multiple leaves room for a block.
  lemma BlockFits(address: nat, size: nat, count: nat)
    requires size > 0 && address % size == 0 && address < size * count
    ensures address + size <= size * count
  {
    var quotient := address / size;
    assert address == size * quotient;
    FactorBelow(size, quotient, count);
    FactorMore(size, quotient, count);
  }

  lemma {:induction false} FactorMore(size: nat, a: nat, b: nat)
    requires a < b
    ensures size * a + size <= size * b
    decreases b
  {
    assert size * b == size * (b - 1) + size;
    if a < b - 1 { FactorMore(size, a, b - 1); }
  }

  // A block that starts on its own boundary below 2^32 ends below it too.
  lemma EndsInside(address: nat, prefix: nat)
    requires prefix <= 32 && address < ADDRESSES && address % Size(prefix) == 0
    ensures address + Size(prefix) <= ADDRESSES
  {
    Pow2Of32();
    Pow2Splits(32 - prefix, prefix);
    BlockFits(address, Size(prefix), Pow2(prefix));
  }

  lemma DecimalOctet(n: nat)
    requires n <= 255
    ensures ParseOctet(Decimal(n)) == Some(n)
    ensures '.' !in Decimal(n) && '/' !in Decimal(n)
  {
    ParseOfDecimal(n);
    assert |Decimal(n / 10 / 10)| == 1;
  }

  lemma QuadValue(address: nat)
    ensures ((address / 0x100_0000 * 0x100 + address / 0x1_0000 % 0x100) * 0x100 + address / 0x100 % 0x100) * 0x100
            + address % 0x100 == address
  {
    assert address / 0x100_0000 == address / 0x1_0000 / 0x100;
    assert address / 0x1_0000 == address / 0x100 / 0x100;
  }

  lemma JoinAvoids(parts: seq<string>, separator: char, c: char)
    requires |parts| > 0 && c != separator && forall p | p in parts :: c !in p
    ensures c !in Join(parts, separator)
  {
  }

  lemma QuadRoundTrip(address: nat)
    requires address < ADDRESSES
    ensures ParseAddress(Join(Quad(address), '.')) == Some(address)
    ensures '/' !in Join(Quad(address), '.')
  {
    DecimalOctet(address / 0x100_0000);
    DecimalOctet(address / 0x1_0000 % 0x100);
    DecimalOctet(address / 0x100 % 0x100);
    DecimalOctet(address % 0x100);
    SplitJoin(Quad(address), '.');
    JoinAvoids(Quad(address), '.', '/');
    QuadValue(address);
  }

  // Printing a network and parsing it back is the identity.
  lemma PrintParse(net: Network)
    requires WellFormed(net)
    ensures Parse(Print(net)) == Some(net)
  {
    var quad, length := Join(Quad(net.address), '.'), Decimal(net.prefix);
    QuadRoundTrip(net.address);
    assert Print(net) == quad + ['/'] + length;
    assert '/' !in length;
    SplitFirst(quad, length, '/');
    SplitPlain(length, '/');
    ValueOfDecimal(net.prefix);
  }

  /****** Masks ******/

  function NetmaskText(prefix: nat): string
    requires prefix <= 32
  {
    EndsInside(0, prefix);
    Join(Quad(ADDRESSES - Size(prefix)), '.')
  }

  function HostmaskText(prefix: nat): string {
    Join(Quad(Size(prefix) - 1), '.')
  }

  lemma {:induction false} SizesFall(short: nat, long: nat)
    requires short < long <= 32
    ensures Size(long) < Size(short) && Size(short) % 2 == 0
    decreases long
  {
    assert Size(long - 1) == 2 * Size(long);
    if short < long - 1 { SizesFall(short, long - 1); }
  }

  lemma {:induction false} MaskLengthIs(prefix: nat, n: nat)
    requires prefix <= n <= 32 && Size(prefix) <= ADDRESSES
    ensures MaskLength(ADDRESSES - Size(prefix), n) == Some(prefix)
  {
    if prefix < n {
      SizesFall(prefix, n);
      MaskLengthIs(prefix, n - 1);
    }
  }

  // A hostmask is odd, and as a netmask it could only be the one of a host.
  lemma {:induction false} HostmaskIsNoNetmask(prefix: nat, n: nat)
    requires 0 < prefix < 32 && n <= 32
    ensures MaskLength(Size(prefix) - 1, n).None?
  {
    SizesFall(0, prefix);
    SizesFall(prefix, 32);
    Pow2Of32();
    if n < 32 { SizesFall(n, 32); }
    if n > 0 { HostmaskIsNoNetmask(prefix, n - 1); }
  }

  lemma MaskAddress(mask: nat)
    requires mask < ADDRESSES
    ensures ParseAddress(Join(Quad(mask), '.')) == Some(mask)
    ensures var s := Join(Quad(mask), '.'); '/' !in s && '.' in s
  {
    QuadRoundTrip(mask);
    assert Join(Quad(mask), '.') == Quad(mask)[0] + ['.'] + Join(Quad(mask)[1..], '.');
  }

  lemma MaskParses(net: Network, mask: string)
    requires WellFormed(net) && '/' !in mask && '.' in mask && ParseMask(mask) == Some(net.prefix)
    ensures Parse(Join(Quad(net.address), '.') + "/" + mask) == Some(net)
  {
    hide ParseMask, Size;
    var quad := Join(Quad(net.address), '.');
    QuadRoundTrip(net.address);
    SplitFirst(quad, mask, '/');
    SplitPlain(mask, '/');
    assert !IsDigit('.');
  }

  lemma NetmaskParses(prefix: nat)
    requires prefix <= 32
    ensures var s := NetmaskText(prefix); ParseMask(s) == Some(prefix) && '/' !in s && '.' in s
  {
    hide ParseAddress, Quad, Join, Size, MaskLength;
    EndsInside(0, prefix);
    var mask := ADDRESSES - Size(prefix);
    MaskLengthIs(prefix, 32);
    MaskAddress(mask);
  }

  lemma HostmaskParses(prefix: nat)
    requires 0 < prefix < 32
    ensures var s := HostmaskText(prefix); ParseMask(s) == Some(prefix) && '/' !in s && '.' in s
  {
    hide ParseAddress, Quad, Join, Size, MaskLength;
    EndsInside(0, prefix);
    var mask := Size(prefix) - 1;
    MaskLengthIs(prefix, 32);
    HostmaskIsNoNetmask(prefix, 32);
    MaskAddress(mask);
  }

  // Written with its netmask, or short of the two ends with its hostmask, a network is
  // the same network.
  lemma MasksReadBack(net: Network)
    requires WellFormed(net)
    ensures Parse(Join(Quad(net.address), '.') + "/" + NetmaskText(net.prefix)) == Some(net)
    ensures 0 < net.prefix < 32 ==> Parse(Join(Quad(net.address), '.') + "/" + HostmaskText(net.prefix)) == Some(net)
  {
    hide Parse, ParseMask, NetmaskText, HostmaskText, Quad, Join, Size;
    NetmaskParses(net.prefix);
    MaskParses(net, NetmaskText(net.prefix));
    if 0 < net.prefix < 32 {
      HostmaskParses(net.prefix);
      MaskParses(net, HostmaskText(net.prefix));
    }
  }

  // At the two ends a hostmask is read as the netmask of the other end.
  lemma EndsAreSwapped()
    ensures ParseMask(HostmaskText(0)) == Some(32) && ParseMask(HostmaskText(32)) == Some(0)
  {
    Pow2Of32();
    MaskLengthIs(32, 32);
    MaskLengthIs(0, 32);
    MaskAddress(ADDRESSES - 1);
    MaskAddress(0);
  }
}
