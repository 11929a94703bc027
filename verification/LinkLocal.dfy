/**
 Subnets of 169.254.0.0/16, the link-local range of section 2.1 of RFC 3927.  The arithmetic of blocks is done for any
 pool of 2^w addresses and blocks of any exponent, and then applied to prefixes /17 to /30.
 */
module LinkLocal {
  import opened Wrappers

  type u8 = x: nat | x < 0x100
  type u16 = x: nat | x < 0x1_0000
  type u32 = x: nat | x < 0x1_0000_0000

  // ---------------------------------------------------------------- blocks

  function Pow2(n: nat): (p: nat)
    ensures p > 0
  {
    if n == 0 then 1 else 2 * Pow2(n - 1)
  }

  lemma {:induction false} Pow2Add(a: nat, b: nat)
    ensures Pow2(a + b) == Pow2(a) * Pow2(b)
  {
    if a == 0 {
    } else {
      Pow2Add(a - 1, b);
      assert Pow2(a + b) == 2 * Pow2((a - 1) + b);
    }
  }

  lemma {:induction false} Pow2Grows(a: nat, b: nat)
    requires a <= b
    ensures Pow2(a) <= Pow2(b)
  {
    if a == b {
    } else {
      Pow2Grows(a, b - 1);
    }
  }

  /** The addresses `[index * 2^e, (index + 1) * 2^e)`. */
  predicate InBlock(x: nat, index: nat, e: nat) {
    index * Pow2(e) <= x < (index + 1) * Pow2(e)
  }

  /** The index of the block of 2^e addresses that an address is in. */
  function IndexOf(x: nat, e: nat): nat {
    Quotient(x, Pow2(e))
  }

  function Quotient(x: nat, d: nat): nat
    requires d > 0
  {
    x / d
  }

  lemma TimesIsMonotone(a: nat, b: nat, d: nat)
    ensures a <= b ==> a * d <= b * d
  {
  }

  lemma QuotientIs(x: nat, d: nat, q: nat)
    requires d > 0
    ensures q * d <= x < (q + 1) * d <==> x / d == q
  {
    var r := x / d;
    assert x == r * d + x % d;
    TimesIsMonotone(q + 1, r, d);
    TimesIsMonotone(r + 1, q, d);
  }

  lemma InBlockIff(x: nat, index: nat, e: nat)
    ensures InBlock(x, index, e) <==> IndexOf(x, e) == index
  {
    QuotientIs(x, Pow2(e), index);
  }

  lemma TimesCommutes(a: nat, b: nat)
    ensures a * b == b * a
  {
  }

  lemma TimesAssociates(a: nat, b: nat, p: nat)
    ensures a * (b * p) == p * (a * b)
  {
  }

  lemma DivideTwice(x: nat, a: nat, b: nat)
    requires a > 0 && b > 0 && a * b > 0
    ensures (x / a) / b == x / (a * b)
  {
    var q := x / a;
    var p := q / b;
    QuotientIs(x, a, q);
    QuotientIs(q, b, p);
    TimesIsMonotone(b * p, q, a);
    TimesIsMonotone(q + 1, b * (p + 1), a);
    TimesAssociates(a, b, p);
    TimesAssociates(a, b, p + 1);
    QuotientIs(x, a * b, p);
  }

  /** An address of a small block lies in the large block whose index is the quotient, and in no other. */
  lemma InLargerBlock(x: nat, small: nat, e: nat, large: nat, f: nat)
    requires e <= f && InBlock(x, small, e)
    ensures InBlock(x, large, f) <==> IndexOf(small, f - e) == large
  {
    Pow2Add(e, f - e);
    DivideTwice(x, Pow2(e), Pow2(f - e));
    InBlockIff(x, small, e);
    InBlockIff(x, large, f);
  }

  lemma FirstOfBlock(index: nat, e: nat) returns (x: nat)
    ensures x == index * Pow2(e) && InBlock(x, index, e)
  {
    x := index * Pow2(e);
    TimesIsMonotone(index, index + 1, Pow2(e));
    assert (index + 1) * Pow2(e) == index * Pow2(e) + Pow2(e);
  }

  /** Blocks form a laminar family: the smaller one is inside the larger one or disjoint from it. */
  lemma BlocksAreLaminar(small: nat, e: nat, large: nat, f: nat)
    requires e <= f
    ensures (forall x: nat :: InBlock(x, small, e) ==> InBlock(x, large, f)) <==> IndexOf(small, f - e) == large
    ensures (forall x: nat :: InBlock(x, small, e) ==> !InBlock(x, large, f)) <==> IndexOf(small, f - e) != large
  {
    forall x: nat | InBlock(x, small, e)
      ensures InBlock(x, large, f) <==> IndexOf(small, f - e) == large
    {
      InLargerBlock(x, small, e, large, f);
    }
    var first := FirstOfBlock(small, e);
  }

  lemma PoolOfBlocks(n: nat, d: nat, index: nat, x: nat)
    requires d > 0
    ensures n * d / d == n
    ensures index < n <==> (index + 1) * d <= n * d
    ensures x < n * d <==> x / d < n
  {
    QuotientIs(n * d, d, n);
    QuotientIs(x, d, x / d);
    TimesIsMonotone(index + 1, n, d);
    TimesIsMonotone(n + 1, index + 1, d);
    TimesIsMonotone(x / d + 1, n, d);
    TimesIsMonotone(n, x / d, d);
  }

  /** In a pool of 2^w addresses the accepted blocks are those that lie in it, and each address has exactly one. */
  lemma BlocksTileThePool(w: nat, e: nat, index: nat, x: nat)
    requires e <= w
    ensures index < IndexOf(Pow2(w), e) <==> (index + 1) * Pow2(e) <= Pow2(w)
    ensures x < Pow2(w) <==> IndexOf(x, e) < IndexOf(Pow2(w), e)
    ensures IndexOf(Pow2(w), e) * Pow2(e) == Pow2(w)
    ensures InBlock(x, index, e) <==> index == IndexOf(x, e)
  {
    Pow2Add(w - e, e);
    PoolOfBlocks(Pow2(w - e), Pow2(e), index, x);
    InBlockIff(x, index, e);
  }

  // ---------------------------------------------------------------- subnets

  datatype LinkLocalSubnet = LinkLocalSubnet(subnetIndex: u16, networkLength: u8, ipAmount: u32)

  datatype LinkLocalSubnetError =
    NotLinkLocal | NetworkLengthDoesNotFit | SubnetIndexDoesNotFit | IpIndexDoesNotFit | UnexpectedOverflow

  datatype Ipv4Addr = Ipv4Addr(octet1: u8, octet2: u8, octet3: u8, octet4: u8) {
    predicate IsLinkLocal() {
      octet1 == LINK_LOCAL_OCTET_1 && octet2 == LINK_LOCAL_OCTET_2
    }
  }

  type PrefixLength = x: nat | x <= 32

  /** An address with its network length, which is at most 32. */
  datatype Ipv4Inet = Ipv4Inet(address: Ipv4Addr, networkLength: PrefixLength)

  const LINK_LOCAL_OCTET_1: u8 := 169
  const LINK_LOCAL_OCTET_2: u8 := 254
  const LINK_LOCAL_IP_AMOUNT: u32 := 65536

  lemma Constants()
    ensures Pow2(2) == 4 && Pow2(3) == 8 && Pow2(4) == 16 && Pow2(5) == 32 && Pow2(6) == 64
    ensures Pow2(15) == 32768 && Pow2(16) == LINK_LOCAL_IP_AMOUNT
  {
    assert Pow2(4) == 16;
    assert Pow2(8) == 256;
    assert Pow2(12) == 4096;
    assert Pow2(15) == 32768;
  }

  function IpAmount(networkLength: u8): (r: u32)
    requires 17 <= networkLength <= 30
    ensures r == Pow2(32 - networkLength) && 4 <= r <= 32768
  {
    Constants();
    Pow2Grows(2, 32 - networkLength);
    Pow2Grows(32 - networkLength, 15);
    Pow2(32 - networkLength)
  }

  /** `validate_network_length_and_subnet_index`. */
  function Validate(networkLength: u8, subnetIndex: u16): Option<LinkLocalSubnetError> {
    if networkLength > 30 || networkLength < 17 then Some(NetworkLengthDoesNotFit)
    else if LINK_LOCAL_IP_AMOUNT / IpAmount(networkLength) <= subnetIndex then Some(SubnetIndexDoesNotFit)
    else None
  }

  function New(subnetIndex: u16, networkLength: u8): Result<LinkLocalSubnet, LinkLocalSubnetError> {
    var error := Validate(networkLength, subnetIndex);
    if error.Some? then Err(error.value)
    else Ok(LinkLocalSubnet(subnetIndex, networkLength, IpAmount(networkLength)))
  }

  /** What holds of every subnet that can be had: its block is one of those that tile the pool. */
  predicate Valid(s: LinkLocalSubnet) {
    New(s.subnetIndex, s.networkLength) == Ok(s)
  }

  function Exponent(s: LinkLocalSubnet): nat
    requires Valid(s)
  {
    32 - s.networkLength
  }

  /** Accepted are exactly the blocks of sizes 4 to 32768 that lie in the range. */
  lemma NewAcceptsExactly(subnetIndex: u16, networkLength: u8)
    ensures New(subnetIndex, networkLength).Ok?
            <==> 17 <= networkLength <= 30 && (subnetIndex + 1) * Pow2(32 - networkLength) <= LINK_LOCAL_IP_AMOUNT
    ensures New(subnetIndex, networkLength) == Err(NetworkLengthDoesNotFit) <==> !(17 <= networkLength <= 30)
    ensures New(subnetIndex, networkLength).Ok? || New(subnetIndex, networkLength) == Err(SubnetIndexDoesNotFit)
            || New(subnetIndex, networkLength) == Err(NetworkLengthDoesNotFit)
  {
    Constants();
    if 17 <= networkLength <= 30 {
      BlocksTileThePool(16, 32 - networkLength, subnetIndex, 0);
    }
  }

  lemma Bounds(s: LinkLocalSubnet)
    requires Valid(s)
    ensures s.ipAmount == Pow2(Exponent(s)) && 4 <= s.ipAmount
    ensures s.ipAmount * s.subnetIndex + s.ipAmount <= LINK_LOCAL_IP_AMOUNT
  {
    NewAcceptsExactly(s.subnetIndex, s.networkLength);
    OneMore(s.subnetIndex, s.ipAmount);
  }

  lemma OneMore(n: nat, d: nat)
    ensures (n + 1) * d == d * n + d
  {
  }

  function ToU8(x: u32): Result<u8, LinkLocalSubnetError> {
    if x < 0x100 then Ok(x) else Err(UnexpectedOverflow)
  }

  /** `get_ip_imp`. */
  function GetIpImp(s: LinkLocalSubnet, x: u32): Result<Ipv4Inet, LinkLocalSubnetError> {
    var octet3 := ToU8(x / 256);
    var octet4 := ToU8(x % 256);
    if octet3.Err? then Err(octet3.error)
    else if octet4.Err? then Err(octet4.error)
    else if s.networkLength > 32 then Err(UnexpectedOverflow)
    else Ok(Ipv4Inet(Ipv4Addr(LINK_LOCAL_OCTET_1, LINK_LOCAL_OCTET_2, octet3.value, octet4.value), s.networkLength))
  }

  function GetIp(s: LinkLocalSubnet, ipIndex: u32): Result<Ipv4Inet, LinkLocalSubnetError>
    requires Valid(s)
  {
    if ipIndex >= s.ipAmount then Err(IpIndexDoesNotFit)
    else
      Bounds(s);
      GetIpImp(s, s.ipAmount * s.subnetIndex + ipIndex)
  }

  function HostIpAmount(s: LinkLocalSubnet): u32
    requires Valid(s)
  {
    Bounds(s);
    s.ipAmount - 2
  }

  function GetHostIp(s: LinkLocalSubnet, ipIndex: u32): Result<Ipv4Inet, LinkLocalSubnetError>
    requires Valid(s)
  {
    if ipIndex >= HostIpAmount(s) then Err(IpIndexDoesNotFit)
    else
      Bounds(s);
      GetIpImp(s, s.ipAmount * s.subnetIndex + ipIndex + 1)
  }

  // ---------------------------------------------------------------- addresses

  /** The position of an address in the range. */
  function Number(inet: Ipv4Inet): nat {
    256 * inet.address.octet3 + inet.address.octet4
  }

  /** The address at a position. */
  function Address(x: u16, networkLength: PrefixLength): Ipv4Inet {
    Ipv4Inet(Ipv4Addr(LINK_LOCAL_OCTET_1, LINK_LOCAL_OCTET_2, x / 256, x % 256), networkLength)
  }

  lemma NumberOfAddress(x: u16, networkLength: PrefixLength)
    ensures Number(Address(x, networkLength)) == x && Address(x, networkLength).address.IsLinkLocal()
  {
  }

  /** Index in, address out: an index that fits always has an address, and the position follows the index. */
  lemma GetIpIsAddress(s: LinkLocalSubnet, ipIndex: u32)
    requires Valid(s)
    ensures ipIndex < s.ipAmount ==>
              && s.ipAmount * s.subnetIndex + ipIndex < LINK_LOCAL_IP_AMOUNT
              && GetIp(s, ipIndex) == Ok(Address(s.ipAmount * s.subnetIndex + ipIndex, s.networkLength))
    ensures ipIndex >= s.ipAmount ==> GetIp(s, ipIndex) == Err(IpIndexDoesNotFit)
  {
    Bounds(s);
  }

  /** Host addresses are the addresses one further on, without the first and the last. */
  lemma GetHostIpIsNextIp(s: LinkLocalSubnet, ipIndex: u32)
    requires Valid(s)
    ensures ipIndex + 2 < s.ipAmount ==> GetHostIp(s, ipIndex) == GetIp(s, ipIndex + 1)
    ensures ipIndex + 2 >= s.ipAmount ==> GetHostIp(s, ipIndex) == Err(IpIndexDoesNotFit)
    ensures GetIp(s, ipIndex) != Err(UnexpectedOverflow) && GetHostIp(s, ipIndex) != Err(UnexpectedOverflow)
  {
    Bounds(s);
    GetIpIsAddress(s, ipIndex);
  }

  /** The subnet hands out the address at this position. */
  ghost predicate Covers(s: LinkLocalSubnet, x: nat)
    requires Valid(s)
  {
    exists i: u32 :: GetIp(s, i).Ok? && Number(GetIp(s, i).value) == x
  }

  lemma BlockOfSubnet(s: LinkLocalSubnet, x: nat)
    requires Valid(s)
    ensures var base := s.ipAmount * s.subnetIndex;
            InBlock(x, s.subnetIndex, Exponent(s)) <==> base <= x < base + s.ipAmount
  {
    Bounds(s);
    OneMore(s.subnetIndex, s.ipAmount);
    TimesCommutes(s.ipAmount, s.subnetIndex);
  }

  lemma IpInBlock(s: LinkLocalSubnet, i: u32)
    requires Valid(s)
    ensures GetIp(s, i).Ok? ==> InBlock(Number(GetIp(s, i).value), s.subnetIndex, Exponent(s))
  {
    Bounds(s);
    GetIpIsAddress(s, i);
    if i < s.ipAmount {
      var base := s.ipAmount * s.subnetIndex;
      NumberOfAddress(base + i, s.networkLength);
      BlockOfSubnet(s, base + i);
    }
  }

  lemma CoversIff(s: LinkLocalSubnet, x: nat)
    requires Valid(s)
    ensures Covers(s, x) <==> InBlock(x, s.subnetIndex, Exponent(s))
  {
    if InBlock(x, s.subnetIndex, Exponent(s)) {
      var base := s.ipAmount * s.subnetIndex;
      Bounds(s);
      BlockOfSubnet(s, x);
      GetIpIsAddress(s, x - base);
      NumberOfAddress(x, s.networkLength);
    }
    if Covers(s, x) {
      var i: u32 :| GetIp(s, i).Ok? && Number(GetIp(s, i).value) == x;
      IpInBlock(s, i);
    }
  }

  lemma CoveredByShorter(s: LinkLocalSubnet, t: LinkLocalSubnet, x: nat)
    requires Valid(s) && Valid(t) && s.networkLength <= t.networkLength && Covers(t, x)
    ensures Covers(s, x) <==> IndexOf(t.subnetIndex, t.networkLength - s.networkLength) == s.subnetIndex
  {
    CoversIff(t, x);
    CoversIff(s, x);
    InLargerBlock(x, t.subnetIndex, Exponent(t), s.subnetIndex, Exponent(s));
  }

  lemma CoversSomething(s: LinkLocalSubnet) returns (x: nat)
    requires Valid(s)
    ensures Covers(s, x)
  {
    x := FirstOfBlock(s.subnetIndex, Exponent(s));
    CoversIff(s, x);
  }

  /** Subnets are laminar, and a division of their indices decides which case it is. */
  lemma SubnetsAreLaminar(s: LinkLocalSubnet, t: LinkLocalSubnet)
    requires Valid(s) && Valid(t) && s.networkLength <= t.networkLength
    ensures (forall x: nat :: Covers(t, x) ==> Covers(s, x))
            <==> IndexOf(t.subnetIndex, t.networkLength - s.networkLength) == s.subnetIndex
    ensures (forall x: nat :: Covers(t, x) ==> !Covers(s, x))
            <==> IndexOf(t.subnetIndex, t.networkLength - s.networkLength) != s.subnetIndex
  {
    forall x: nat | Covers(t, x)
      ensures Covers(s, x) <==> IndexOf(t.subnetIndex, t.networkLength - s.networkLength) == s.subnetIndex
    {
      CoveredByShorter(s, t, x);
    }
    var first := CoversSomething(t);
  }

  // ---------------------------------------------------------------- whole subnets

  /** The addresses from one position on. */
  function Range(base: nat, n: nat, networkLength: PrefixLength): seq<Ipv4Inet>
    requires base + n <= LINK_LOCAL_IP_AMOUNT
  {
    seq(n, i requires 0 <= i < n => Address(base + i, networkLength))
  }

  /** The addresses of the subnet in order. */
  function Ips(s: LinkLocalSubnet): seq<Ipv4Inet>
    requires Valid(s)
  {
    Bounds(s);
    Range(s.ipAmount * s.subnetIndex, s.ipAmount, s.networkLength)
  }

  lemma IpsAreOrdered(s: LinkLocalSubnet, i: u32)
    requires Valid(s)
    ensures |Ips(s)| == s.ipAmount >= 4
    ensures i < s.ipAmount ==> GetIp(s, i) == Ok(Ips(s)[i])
  {
    Bounds(s);
    GetIpIsAddress(s, i);
  }

  /** `get_ips`. */
  method GetIps(s: LinkLocalSubnet) returns (r: Result<seq<Ipv4Inet>, LinkLocalSubnetError>)
    requires Valid(s)
    ensures r == Ok(Ips(s))
  {
    var ips: seq<Ipv4Inet> := [];
    IpsAreOrdered(s, 0);
    for i := 0 to s.ipAmount
      invariant ips == Ips(s)[..i]
    {
      IpsAreOrdered(s, i);
      var ip := GetIp(s, i);
      match ip {
        case Err(error) => return Err(error);
        case Ok(inet) => ips := ips + [inet];
      }
    }
    assert Ips(s)[..s.ipAmount] == Ips(s);
    r := Ok(ips);
  }

  /** `get_host_ips`: all addresses but the first and the last. */
  method GetHostIps(s: LinkLocalSubnet) returns (r: Result<seq<Ipv4Inet>, LinkLocalSubnetError>)
    requires Valid(s)
    ensures |Ips(s)| >= 2 && r == Ok(Ips(s)[1..|Ips(s)| - 1])
  {
    IpsAreOrdered(s, 0);
    var ips: seq<Ipv4Inet> := [];
    for i := 0 to HostIpAmount(s)
      invariant ips == Ips(s)[1..i + 1]
    {
      GetHostIpIsNextIp(s, i);
      IpsAreOrdered(s, i + 1);
      var ip := GetHostIp(s, i);
      match ip {
        case Err(error) => return Err(error);
        case Ok(inet) => ips := ips + [inet];
      }
    }
    r := Ok(ips);
  }

  /** The addresses of the first `count` subnets of a length, one subnet after the other. */
  function Pool(networkLength: u8, count: nat): seq<Ipv4Inet>
    requires 17 <= networkLength <= 30 && count * IpAmount(networkLength) <= LINK_LOCAL_IP_AMOUNT
  {
    if count == 0 then []
    else
      OneMoreSubnet(networkLength, count);
      Pool(networkLength, count - 1) + Ips(New(count - 1, networkLength).value)
  }

  lemma OneMoreSubnet(networkLength: u8, count: nat)
    requires 17 <= networkLength <= 30 && 0 < count && count * IpAmount(networkLength) <= LINK_LOCAL_IP_AMOUNT
    ensures (count - 1) * IpAmount(networkLength) + IpAmount(networkLength) == count * IpAmount(networkLength)
    ensures count - 1 < 0x1_0000 && New(count - 1, networkLength).Ok?
    ensures var s := New(count - 1, networkLength).value;
            Valid(s) && s.ipAmount == IpAmount(networkLength) && s.subnetIndex == count - 1
  {
    TimesIsMonotone(1, IpAmount(networkLength), count);
    assert (count - 1) * IpAmount(networkLength) + IpAmount(networkLength) == count * IpAmount(networkLength);
    NewAcceptsExactly(count - 1, networkLength);
  }

  lemma IpsFrom(s: LinkLocalSubnet, base: nat)
    requires Valid(s) && s.ipAmount * s.subnetIndex == base
    ensures base + s.ipAmount <= LINK_LOCAL_IP_AMOUNT && Ips(s) == Range(base, s.ipAmount, s.networkLength)
  {
    Bounds(s);
  }

  lemma RangeContinues(n: nat, m: nat, networkLength: PrefixLength)
    requires n + m <= LINK_LOCAL_IP_AMOUNT
    ensures Range(0, n, networkLength) + Range(n, m, networkLength) == Range(0, n + m, networkLength)
  {
  }

  lemma {:induction false} PoolIsRange(networkLength: u8, count: nat)
    requires 17 <= networkLength <= 30 && count * IpAmount(networkLength) <= LINK_LOCAL_IP_AMOUNT
    ensures Pool(networkLength, count) == Range(0, count * IpAmount(networkLength), networkLength)
  {
    if count == 0 {
    } else {
      OneMoreSubnet(networkLength, count);
      PoolIsRange(networkLength, count - 1);
      var s := New(count - 1, networkLength).value;
      var before := (count - 1) * IpAmount(networkLength);
      TimesCommutes(s.ipAmount, s.subnetIndex);
      IpsFrom(s, before);
      RangeContinues(before, s.ipAmount, networkLength);
    }
  }

  /** Exact tiling: all accepted subnets of a length together are the whole range, each address once, in order. */
  lemma SubnetsTileTheRange(networkLength: u8)
    requires 17 <= networkLength <= 30
    ensures var count := LINK_LOCAL_IP_AMOUNT / IpAmount(networkLength);
            && (forall i: u16 :: New(i, networkLength).Ok? <==> i < count)
            && count * IpAmount(networkLength) == LINK_LOCAL_IP_AMOUNT
            && Pool(networkLength, count) == Range(0, LINK_LOCAL_IP_AMOUNT, networkLength)
  {
    Constants();
    var e := 32 - networkLength;
    var count := LINK_LOCAL_IP_AMOUNT / IpAmount(networkLength);
    BlocksTileThePool(16, e, 0, 0);
    PoolIsRange(networkLength, count);
  }

  // ---------------------------------------------------------------- from address to subnet

  /** A conversion returns, or its unsigned arithmetic fails: a division by zero, or a difference below zero. */
  datatype Conversion = Returned(result: Result<LinkLocalSubnet, LinkLocalSubnetError>) | ArithmeticFails

  /** `div_ceil`. */
  function CeilingOf(n: nat, d: nat): (q: nat)
    requires d > 0
    ensures q * d >= n && (q > 0 ==> (q - 1) * d < n)
  {
    var q := n / d;
    assert n == q * d + n % d;
    if n % d == 0 then q
    else
      OneMore(q, d);
      q + 1
  }

  /** `from_inet` as it is: the divisor is the network length itself. */
  function FromInet(inet: Ipv4Inet): Conversion {
    if !inet.address.IsLinkLocal() then Returned(Err(NotLinkLocal))
    else
      var length, a, b := inet.networkLength, inet.address.octet3, inet.address.octet4;
      if length == 0 || 256 * a < b % length then ArithmeticFails
      else
        var index := CeilingOf(256 * a - b % length, length);
        if index >= 0x1_0000 then ArithmeticFails else Returned(New(index, length))
  }

  /** The arithmetic fails exactly for length zero and when octet 3 is zero and octet 4 is no multiple of the length. */
  lemma FromInetFailsIff(inet: Ipv4Inet)
    ensures FromInet(inet).ArithmeticFails?
            <==> inet.address.IsLinkLocal()
                 && (inet.networkLength == 0
                     || (inet.address.octet3 == 0 && inet.address.octet4 % inet.networkLength != 0))
    ensures FromInet(inet) == Returned(Err(NotLinkLocal))
            <==> !(inet.address.octet1 == 169 && inet.address.octet2 == 254)
  {
    var length: int, a: int, b: int := inet.networkLength, inet.address.octet3, inet.address.octet4;
    if length > 0 && 256 * a - b % length >= 0 {
      CeilingIsSmall(256 * a - b % length, length);
    }
  }

  lemma CeilingIsSmall(n: nat, d: nat)
    requires d > 0
    ensures CeilingOf(n, d) <= n
  {
    var q := CeilingOf(n, d);
    if q > 0 {
      TimesIsMonotone(1, d, q - 1);
    }
  }

  /** The intended quotient, by the size of the block, inverts `get_ip` for every subnet and every index. */
  lemma BlockQuotientInverts(s: LinkLocalSubnet, i: u32)
    requires Valid(s) && i < s.ipAmount
    ensures GetIp(s, i).Ok?
    ensures var inet := GetIp(s, i).value; var index := IndexOf(Number(inet), 32 - inet.networkLength);
            index < 0x1_0000 && New(index, inet.networkLength) == Ok(s)
  {
    GetIpIsAddress(s, i);
    IpInBlock(s, i);
    InBlockIff(Number(GetIp(s, i).value), s.subnetIndex, Exponent(s));
  }

  /** The octet pairs of /27 addresses for which dividing by 27 happens to give what dividing by 32 gives. */
  predicate Coincides(a: u8, b: u8) {
    match a
    case 1 => 40 <= b <= 53 || 64 <= b <= 66 || 81 <= b <= 93
    case 2 => b == 80 || 96 <= b <= 106 || 108 <= b <= 127
    case 3 => 128 <= b <= 134 || 147 <= b <= 159 || 162 <= b <= 173 || 189 <= b <= 191
    case 4 => 160 <= b <= 161 || 187 <= b <= 188 || 192 <= b <= 213 || 216 <= b <= 223
    case 5 => 227 <= b <= 242 || 254 <= b
    case _ => false
  }

  /**
   * Where `from_inet` gives the right index: in the first 256 addresses, for multiples of the length that lie in block
   * zero; and for the listed addresses of prefix /27.
   */
  predicate FormulaIsRight(length: PrefixLength, a: u8, b: u8)
    requires 17 <= length <= 30
  {
    || (a == 0 && b % length == 0 && b < IpAmount(length))
    || (length == 27 && Coincides(a, b))
  }

  lemma WideBlocks(length: nat, size: nat, a: u8, b: u8, q: nat)
    requires 17 <= length <= 26 && size >= 64
    requires q * length >= 256 * a - b % length && q * size <= 256 * a + b
    ensures a == 0
  {
    TimesIsMonotone(length, 26, q);
    TimesIsMonotone(64, size, q);
    assert q * 26 >= 256 * a - 25;
    assert q * 64 <= 256 * a + 255;
  }

  lemma NarrowBlocks(length: nat, size: nat, a: u8, b: u8, q: nat)
    requires length >= 28 && 0 < size <= 16
    requires (q > 0 ==> (q - 1) * length < 256 * a) && 256 * a + b < (q + 1) * size
    ensures a == 0
  {
    if q > 0 {
      TimesIsMonotone(28, length, q - 1);
    }
    TimesIsMonotone(size, 16, q + 1);
    assert 256 * a < (q + 1) * 16;
  }

  lemma BlocksOf32(a: u8, b: u8)
    requires a > 0
    ensures CeilingOf(256 * a - b % 27, 27) == (256 * a + b) / 32 <==> 40 * a <= b % 27 + 27 * (b / 32) <= 40 * a + 26
  {
    var q := CeilingOf(256 * a - b % 27, 27);
    assert (256 * a + b) / 32 == 8 * a + b / 32;
  }

  lemma CoincidesIff(a: u8, b: u8)
    requires a > 0
    ensures Coincides(a, b) <==> 40 * a <= b % 27 + 27 * (b / 32) <= 40 * a + 26
  {
    var u, v := b / 27, b / 32;
    assert b % 27 == b - 27 * u;
    CoincidesByQuotients(a, b, u, v);
  }

  lemma CoincidesByQuotients(a: u8, b: u8, u: nat, v: nat)
    requires a > 0 && 27 * u <= b < 27 * u + 27 && 32 * v <= b < 32 * v + 32
    ensures Coincides(a, b) <==> 40 * a <= b + 27 * v - 27 * u <= 40 * a + 26
  {
    if v == 0 {
    } else if v == 1 {
    } else if v == 2 {
    } else if v == 3 {
    } else if v == 4 {
    } else if v == 5 {
    }
  }

  lemma SizesOfBlocks(length: PrefixLength)
    requires 17 <= length <= 30
    ensures length <= 26 ==> IpAmount(length) >= 64
    ensures length == 27 ==> IpAmount(length) == 32
    ensures length >= 28 ==> IpAmount(length) <= 16
  {
    Constants();
    if length <= 26 {
      Pow2Grows(6, 32 - length);
    } else if length >= 28 {
      Pow2Grows(32 - length, 4);
    }
  }

  /** Where the difference does not fail, the quotient by the length is the quotient by the size only as stated. */
  lemma QuotientsAgreeIff(length: PrefixLength, a: u8, b: u8, n: nat)
    requires 17 <= length <= 30 && n == 256 * a - b % length
    ensures CeilingOf(n, length) == Quotient(256 * a + b, IpAmount(length)) <==> FormulaIsRight(length, a, b)
  {
    var size, x, q := IpAmount(length), 256 * a + b, CeilingOf(n, length);
    SizesOfBlocks(length);
    QuotientIs(x, size, q);
    if a == 0 {
      assert q == 0;
    } else if length == 27 {
      BlocksOf32(a, b);
      CoincidesIff(a, b);
    } else if q == x / size {
      if length <= 26 {
        WideBlocks(length, size, a, b, q);
      } else {
        NarrowBlocks(length, size, a, b, q);
      }
    }
  }

  /** `from_inet` inverts `get_ip` exactly on the addresses where the formula happens to be right. */
  lemma FromInetInvertsIff(s: LinkLocalSubnet, i: u32)
    requires Valid(s) && i < s.ipAmount
    ensures GetIp(s, i).Ok?
    ensures var inet := GetIp(s, i).value;
            FromInet(inet) == Returned(Ok(s))
            <==> FormulaIsRight(s.networkLength, inet.address.octet3, inet.address.octet4)
  {
    GetIpIsAddress(s, i);
    var inet := GetIp(s, i).value;
    var length: int, a: int, b: int := inet.networkLength, inet.address.octet3, inet.address.octet4;
    IpInBlock(s, i);
    InBlockIff(Number(inet), s.subnetIndex, Exponent(s));
    if 256 * a - b % length >= 0 {
      QuotientsAgreeIff(length, a, b, 256 * a - b % length);
    }
  }

  /** The address 169.254.1.1/30 lies in block 64, and `from_inet` says 9. */
  lemma OffByTheDivisor()
    ensures var inet := Ipv4Inet(Ipv4Addr(169, 254, 1, 1), 30);
            FromInet(inet) == Returned(New(9, 30)) && Number(inet) == 257 && IndexOf(257, 2) == 64
  {
    Constants();
    assert 1 % 30 == 1 && CeilingOf(255, 30) == 9;
  }

  /** Every /30 address whose octet 3 is not zero is accepted, but never with the index of its own block. */
  lemma ThirtyIsAccepted(inet: Ipv4Inet)
    requires inet.address.IsLinkLocal() && inet.networkLength == 30 && inet.address.octet3 > 0
    ensures FromInet(inet).Returned? && FromInet(inet).result.Ok?
    ensures FromInet(inet).result.value.subnetIndex != IndexOf(Number(inet), 2)
  {
    Constants();
    var a, b: int := inet.address.octet3, inet.address.octet4;
    NewAcceptsExactly(CeilingOf(256 * a - b % 30, 30), 30);
    QuotientsAgreeIff(30, a, b, 256 * a - b % 30);
  }
}
