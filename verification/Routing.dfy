/** The bits of a byte and what masking with a prefix leaves of them. */
module Bits {

  /** Bit j of a byte, the most significant first. */
  predicate Bit(b: bv8, j: nat)
    requires j < 8
  {
    match j
    case 0 => b & 0x80 != 0
    case 1 => b & 0x40 != 0
    case 2 => b & 0x20 != 0
    case 3 => b & 0x10 != 0
    case 4 => b & 0x08 != 0
    case 5 => b & 0x04 != 0
    case 6 => b & 0x02 != 0
    case _ => b & 0x01 != 0
  }

  /** The byte m has its first q bits set and no others. */
  predicate IsTop(m: bv8, q: nat)
    requires q <= 8
  {
    match q
    case 0 => m == 0x00
    case 1 => m == 0x80
    case 2 => m == 0xC0
    case 3 => m == 0xE0
    case 4 => m == 0xF0
    case 5 => m == 0xF8
    case 6 => m == 0xFC
    case 7 => m == 0xFE
    case _ => m == 0xFF
  }

  predicate BitsAgree(a: bv8, b: bv8, q: nat)
    requires q <= 8
  {
    forall j: nat | j < q :: Bit(a, j) == Bit(b, j)
  }

  /** The same without a quantifier. */
  predicate Unrolled(a: bv8, b: bv8, q: nat)
    requires q <= 8
  {
    && (q > 0 ==> (a & 0x80 != 0 <==> b & 0x80 != 0)) && (q > 1 ==> (a & 0x40 != 0 <==> b & 0x40 != 0))
    && (q > 2 ==> (a & 0x20 != 0 <==> b & 0x20 != 0)) && (q > 3 ==> (a & 0x10 != 0 <==> b & 0x10 != 0))
    && (q > 4 ==> (a & 0x08 != 0 <==> b & 0x08 != 0)) && (q > 5 ==> (a & 0x04 != 0 <==> b & 0x04 != 0))
    && (q > 6 ==> (a & 0x02 != 0 <==> b & 0x02 != 0)) && (q > 7 ==> (a & 0x01 != 0 <==> b & 0x01 != 0))
  }

  lemma Roll(a: bv8, b: bv8, q: nat, j: nat)
    requires j < q <= 8 && Unrolled(a, b, q)
    ensures Bit(a, j) == Bit(b, j)
  {
  }

  lemma Unroll(a: bv8, b: bv8, q: nat)
    requires q <= 8 && BitsAgree(a, b, q)
    ensures Unrolled(a, b, q)
  {
    assert q > 0 ==> Bit(a, 0) == Bit(b, 0);
    assert q > 1 ==> Bit(a, 1) == Bit(b, 1);
    assert q > 2 ==> Bit(a, 2) == Bit(b, 2);
    assert q > 3 ==> Bit(a, 3) == Bit(b, 3);
    assert q > 4 ==> Bit(a, 4) == Bit(b, 4);
    assert q > 5 ==> Bit(a, 5) == Bit(b, 5);
    assert q > 6 ==> Bit(a, 6) == Bit(b, 6);
    assert q > 7 ==> Bit(a, 7) == Bit(b, 7);
  }

  lemma UnrolledMasks(a: bv8, b: bv8, m: bv8, q: nat)
    requires q <= 8 && IsTop(m, q)
    ensures a & m == b & m <==> Unrolled(a, b, q)
  {
  }

  /** Two bytes are equal under such a mask exactly if their first q bits agree. */
  lemma MaskedAgrees(a: bv8, b: bv8, m: bv8, q: nat)
    requires q <= 8 && IsTop(m, q)
    ensures a & m == b & m <==> BitsAgree(a, b, q)
  {
    UnrolledMasks(a, b, m, q);
    if BitsAgree(a, b, q) { Unroll(a, b, q); }
    if Unrolled(a, b, q) {
      forall j: nat | j < q ensures Bit(a, j) == Bit(b, j) { Roll(a, b, q, j); }
    }
  }

  lemma EightBits(a: bv8, b: bv8)
    ensures BitsAgree(a, b, 8) <==> a == b
  {
    MaskedAgrees(a, b, 0xFF, 8);
  }
}

/** Route selection (`routing_linux.go`) over a parsed routing table. */
module Routing {
  import opened Wrappers
  import opened Bits

  /** An address as Go holds it: 4 or 16 bytes, or none at all for nil. */
  type IP = seq<bv8>

  /** `net.IPNet`. */
  datatype Net = Net(ip: IP, mask: seq<bv8>)

  datatype Route = Route(
    src: Option<Net>,
    dst: Option<Net>,
    gateway: IP,
    prefSrc: IP,
    inputIface: nat,
    outputIface: nat,
    priority: nat)

  datatype Iface = Iface(index: nat, mac: seq<bv8>, v4: IP, v6: IP)

  /** `IP.To4`: nil unless the address is an IPv4 one, plain or mapped. */
  function To4(ip: IP): IP {
    if |ip| == 4 then ip
    else if |ip| == 16 && (forall i | 0 <= i < 10 :: ip[i] == 0) && ip[10] == 255 && ip[11] == 255 then ip[12..]
    else []
  }

  predicate Is16(ip: IP) {
    |ip| == 4 || |ip| == 16
  }

  /** `networkNumberAndMask`: both empty if address and mask do not fit. */
  function NumberAndMask(n: Net): (r: (IP, seq<bv8>))
    ensures |r.0| == |r.1|
  {
    var ip := if To4(n.ip) != [] then To4(n.ip) else n.ip;
    if !Is16(ip) then ([], [])
    else if |n.mask| == |ip| then (ip, n.mask)
    else if |n.mask| == 16 then (ip, n.mask[12..])
    else ([], [])
  }

  /** `IPNet.Contains`. */
  predicate Contains(n: Net, ip: IP) {
    var (number, mask) := NumberAndMask(n);
    var x := if To4(ip) != [] then To4(ip) else ip;
    |x| == |number| && forall i | 0 <= i < |x| :: number[i] & mask[i] == x[i] & mask[i]
  }

  /** The tests `route` makes of one route. */
  predicate Matches(rt: Route, input: nat, src: IP, dst: IP) {
    && (rt.inputIface == 0 || rt.inputIface == input)
    && (rt.src.Some? ==> Contains(rt.src.value, src))
    && (rt.dst.Some? ==> Contains(rt.dst.value, dst))
  }

  // ---------- what a route fits, bit by bit ----------

  /** The first twelve bytes of an IPv4 address in its 16-byte form (section 2.5.5.2 of RFC 4291). */
  const MAPPED: IP := [0, 0, 0, 0, 0, 0, 0, 0, 0, 0, 255, 255]

  /** Bit k of an address. */
  predicate AddressBit(ip: IP, k: nat)
    requires k < 8 * |ip|
  {
    Bit(ip[k / 8], k % 8)
  }

  /** How many of the first p bits fall into byte i. */
  function BitsInByte(p: nat, i: nat): (q: nat)
    ensures q <= 8
  {
    if p <= 8 * i then 0 else if p >= 8 * i + 8 then 8 else p - 8 * i
  }

  /** The mask is `net.CIDRMask(p, 8 * |mask|)`. */
  predicate IsPrefixMask(mask: seq<bv8>, p: nat) {
    forall i: nat | i < |mask| :: IsTop(mask[i], BitsInByte(p, i))
  }

  predicate PrefixesAgree(a: IP, b: IP, p: nat)
    requires |a| == |b| && p <= 8 * |a|
  {
    forall k: nat | k < p :: AddressBit(a, k) == AddressBit(b, k)
  }

  /** Address x, an IPv4 one in either form or another one, has the first p bits of ip and is of its family. */
  predicate InPrefix(ip: IP, p: nat, x: IP)
    requires p <= 8 * |ip|
  {
    if |ip| == 4 then
      (|x| == 4 && PrefixesAgree(ip, x, p)) || (|x| == 16 && x[..12] == MAPPED && PrefixesAgree(ip, x[12..], p))
    else
      |x| == |ip| == 16 && x[..12] != MAPPED && PrefixesAgree(ip, x, p)
  }

  lemma Position(i: nat, j: nat)
    requires j < 8
    ensures (8 * i + j) / 8 == i && (8 * i + j) % 8 == j
  {
  }

  lemma PrefixesByByte(a: IP, b: IP, p: nat)
    requires |a| == |b| && p <= 8 * |a|
    ensures PrefixesAgree(a, b, p) <==> forall i: nat | i < |a| :: BitsAgree(a[i], b[i], BitsInByte(p, i))
  {
    if PrefixesAgree(a, b, p) {
      forall i: nat, j: nat | i < |a| && j < BitsInByte(p, i) ensures Bit(a[i], j) == Bit(b[i], j) {
        Position(i, j);
        assert AddressBit(a, 8 * i + j) == AddressBit(b, 8 * i + j);
      }
    }
    if forall i: nat | i < |a| :: BitsAgree(a[i], b[i], BitsInByte(p, i)) {
      forall k: nat | k < p ensures AddressBit(a, k) == AddressBit(b, k) {
        assert BitsAgree(a[k / 8], b[k / 8], BitsInByte(p, k / 8)) && k % 8 < BitsInByte(p, k / 8);
      }
    }
  }

  lemma MaskedPrefixesAgree(a: IP, b: IP, mask: seq<bv8>, p: nat)
    requires |a| == |b| == |mask| && p <= 8 * |a| && IsPrefixMask(mask, p)
    ensures (forall i: nat | i < |a| :: a[i] & mask[i] == b[i] & mask[i]) <==> PrefixesAgree(a, b, p)
  {
    PrefixesByByte(a, b, p);
    forall i: nat | i < |a| ensures a[i] & mask[i] == b[i] & mask[i] <==> BitsAgree(a[i], b[i], BitsInByte(p, i)) {
      assert IsTop(mask[i], BitsInByte(p, i));
      MaskedAgrees(a[i], b[i], mask[i], BitsInByte(p, i));
    }
  }

  lemma MappedIsFour(x: IP)
    ensures To4(x) != [] <==> |x| == 4 || (|x| == 16 && x[..12] == MAPPED)
    ensures |x| == 4 ==> To4(x) == x
    ensures |x| == 16 && x[..12] == MAPPED ==> To4(x) == x[12..]
  {
    if |x| == 16 {
      assert forall i | 0 <= i < 12 :: x[..12][i] == x[i];
      assert x[..12] == MAPPED <==> forall i | 0 <= i < 12 :: x[i] == MAPPED[i];
    }
  }

  /** A destination or source net as `New` reads it: an address with the mask of a prefix length. */
  predicate IsPrefix(n: Net, p: nat) {
    (|n.ip| == 4 || (|n.ip| == 16 && n.ip[..12] != MAPPED)) && p <= 8 * |n.ip| && |n.mask| == |n.ip| && IsPrefixMask(n.mask, p)
  }

  /** Such a net contains exactly the addresses of its family that share its first p bits. */
  lemma ContainsIff(n: Net, p: nat, x: IP)
    requires IsPrefix(n, p)
    ensures Contains(n, x) <==> InPrefix(n.ip, p, x)
  {
    MappedIsFour(x);
    MappedIsFour(n.ip);
    var y := if To4(x) != [] then To4(x) else x;
    if |y| == |n.ip| { MaskedPrefixesAgree(n.ip, y, n.mask, p); }
  }

  /** A 16-byte mask on an IPv4 net, in either form, counts by its last four bytes. */
  lemma LongMask(four: IP, mask: seq<bv8>, x: IP)
    requires |four| == 4 && |mask| == 16
    ensures Contains(Net(four, mask), x) <==> Contains(Net(four, mask[12..]), x)
    ensures Contains(Net(MAPPED + four, mask), x) <==> Contains(Net(four, mask[12..]), x)
  {
    MappedIsFour(MAPPED + four);
    assert (MAPPED + four)[..12] == MAPPED && (MAPPED + four)[12..] == four;
  }

  /** The default route of IPv4 contains every IPv4 destination, in both forms, and nothing else. */
  lemma DefaultRoute(n: Net, x: IP)
    requires |n.ip| == 4 && IsPrefix(n, 0)
    ensures Contains(n, x) <==> |x| == 4 || (|x| == 16 && x[..12] == MAPPED)
  {
    ContainsIff(n, 0, x);
  }

  lemma AllBits(a: IP, b: IP)
    requires |a| == |b|
    ensures PrefixesAgree(a, b, 8 * |a|) <==> a == b
  {
    PrefixesByByte(a, b, 8 * |a|);
    forall i: nat | i < |a| ensures BitsAgree(a[i], b[i], BitsInByte(8 * |a|, i)) <==> a[i] == b[i] {
      EightBits(a[i], b[i]);
    }
  }

  /** A host route contains its address, in both forms, and nothing else. */
  lemma HostRoute(n: Net, x: IP)
    requires |n.ip| == 4 && IsPrefix(n, 32)
    ensures Contains(n, x) <==> x == n.ip || x == MAPPED + n.ip
  {
    ContainsIff(n, 32, x);
    if |x| == 4 { AllBits(n.ip, x); }
    if |x| == 16 {
      AllBits(n.ip, x[12..]);
      assert x == x[..12] + x[12..];
      assert (MAPPED + n.ip)[..12] == MAPPED && (MAPPED + n.ip)[12..] == n.ip;
    }
  }

  /** The nets of a route are prefixes of addresses. */
  ghost predicate PrefixRoute(rt: Route) {
    && (rt.src.Some? ==> exists p :: IsPrefix(rt.src.value, p))
    && (rt.dst.Some? ==> exists p :: IsPrefix(rt.dst.value, p))
  }

  ghost predicate InNet(n: Net, x: IP) {
    exists p :: IsPrefix(n, p) && InPrefix(n.ip, p, x)
  }

  /**
   * The route is for this input interface or for any; the source shares the bits of its source net if it has
   * one, and the destination those of its destination net if it has one.
   */
  ghost predicate Fits(rt: Route, input: nat, src: IP, dst: IP) {
    && rt.inputIface in {0, input}
    && (rt.src == None || InNet(rt.src.value, src))
    && (rt.dst == None || InNet(rt.dst.value, dst))
  }

  lemma MatchesIffFits(rt: Route, input: nat, src: IP, dst: IP)
    requires PrefixRoute(rt)
    ensures Matches(rt, input, src, dst) <==> Fits(rt, input, src, dst)
  {
    if rt.src.Some? {
      forall p | IsPrefix(rt.src.value, p) ensures Contains(rt.src.value, src) <==> InPrefix(rt.src.value.ip, p, src) {
        ContainsIff(rt.src.value, p, src);
      }
    }
    if rt.dst.Some? {
      forall p | IsPrefix(rt.dst.value, p) ensures Contains(rt.dst.value, dst) <==> InPrefix(rt.dst.value.ip, p, dst) {
        ContainsIff(rt.dst.value, p, dst);
      }
    }
  }

  ghost predicate PrefixTable(rs: seq<Route>) {
    forall rt | rt in rs :: PrefixRoute(rt)
  }

  /** A fitting route of the table that no fitting route undercuts. */
  ghost predicate BestFit(rs: seq<Route>, rt: Route, input: nat, src: IP, dst: IP) {
    rt in rs && Fits(rt, input, src, dst) && forall other | other in rs && Fits(other, input, src, dst) :: rt.priority <= other.priority
  }

  lemma PrefixTableFits(rs: seq<Route>, src: IP, dst: IP)
    ensures PrefixTable(rs) ==> forall rt, input | rt in rs :: Matches(rt, input, src, dst) <==> Fits(rt, input, src, dst)
  {
    forall rt, input | PrefixTable(rs) && rt in rs ensures Matches(rt, input, src, dst) <==> Fits(rt, input, src, dst) {
      MatchesIffFits(rt, input, src, dst);
    }
  }

  /** A route with only a destination net is chosen by the first bits of the destination, whatever the source. */
  lemma DestinationRoute(rt: Route, n: Net, p: nat, input: nat, src: IP, dst: IP)
    requires rt.src == None && rt.dst == Some(n) && rt.inputIface == 0 && IsPrefix(n, p)
    ensures Matches(rt, input, src, dst) <==> InPrefix(n.ip, p, dst)
  {
    ContainsIff(n, p, dst);
  }

  /** A route with only a source net is chosen by the first bits of the source, whatever the destination. */
  lemma SourceRoute(rt: Route, n: Net, p: nat, input: nat, src: IP, dst: IP)
    requires rt.src == Some(n) && rt.dst == None && rt.inputIface == 0 && IsPrefix(n, p)
    ensures Matches(rt, input, src, dst) <==> InPrefix(n.ip, p, src)
  {
    ContainsIff(n, p, src);
  }

  // ---------- tables ----------

  ghost predicate SortedByPriority(rs: seq<Route>) {
    forall i, j | 0 <= i < j < |rs| :: rs[i].priority <= rs[j].priority
  }

  /** A route of the table that fits and that no fitting route undercuts. */
  ghost predicate IsBest(rs: seq<Route>, rt: Route, input: nat, src: IP, dst: IP) {
    && rt in rs && Matches(rt, input, src, dst)
    && forall other | other in rs && Matches(other, input, src, dst) :: rt.priority <= other.priority
  }

  /** What a netlink dump holds, once parsed. */
  datatype Family = Inet | Inet6 | OtherFamily
  datatype Message = Done | NewRoute(family: Family, route: Route) | Ignored

  /** The routes of one family up to the end mark. */
  function RoutesOf(msgs: seq<Message>, family: Family): seq<Route> {
    if msgs == [] || msgs[0].Done? then []
    else (if msgs[0].NewRoute? && msgs[0].family == family then [msgs[0].route] else []) + RoutesOf(msgs[1..], family)
  }

  /** Message i is a route of the family, and no end mark comes before it. */
  ghost predicate Contributes(msgs: seq<Message>, i: nat, family: Family, rt: Route) {
    i < |msgs| && msgs[i] == NewRoute(family, rt) && forall j | 0 <= j < i :: msgs[j] != Done
  }

  /** A table is read from exactly the route messages of its family before the end mark. */
  lemma {:induction false} RoutesAreMessages(msgs: seq<Message>, family: Family, rt: Route)
    ensures rt in RoutesOf(msgs, family) <==> exists i: nat :: Contributes(msgs, i, family, rt)
  {
    if msgs != [] && msgs[0] != Done {
      var rest := msgs[1..];
      RoutesAreMessages(rest, family, rt);
      if rt in RoutesOf(rest, family) {
        var i: nat :| Contributes(rest, i, family, rt);
        assert forall j | 0 < j < i + 1 :: msgs[j] == rest[j - 1];
        assert Contributes(msgs, i + 1, family, rt);
      }
      if msgs[0] == NewRoute(family, rt) { assert Contributes(msgs, 0, family, rt); }
      if i: nat :| Contributes(msgs, i, family, rt) {
        if i > 0 {
          assert forall j | 0 <= j < i - 1 :: rest[j] == msgs[j + 1];
          assert Contributes(rest, i - 1, family, rt);
        }
      }
    }
  }

  /** The first loop of `New`: the routes of both families in the order of the dump. */
  method Collect(msgs: seq<Message>) returns (v4: seq<Route>, v6: seq<Route>)
    ensures v4 == RoutesOf(msgs, Inet) && v6 == RoutesOf(msgs, Inet6)
  {
    v4, v6 := [], [];
    var i := 0;
    while i < |msgs| && !msgs[i].Done?
      invariant i <= |msgs|
      invariant RoutesOf(msgs, Inet) == v4 + RoutesOf(msgs[i..], Inet)
      invariant RoutesOf(msgs, Inet6) == v6 + RoutesOf(msgs[i..], Inet6)
    {
      match msgs[i] {
        case NewRoute(family, route) =>
          if family == Inet {
            v4 := v4 + [route];
          } else if family == Inet6 {
            v6 := v6 + [route];
          }
        case _ =>
      }
      i := i + 1;
    }
  }

  lemma InsertedIsSorted(front: seq<Route>, rt: Route, back: seq<Route>)
    requires SortedByPriority(front) && SortedByPriority(back)
    requires forall i | 0 <= i < |front| :: front[i].priority <= rt.priority
    requires forall i | 0 <= i < |back| :: rt.priority <= back[i].priority
    ensures SortedByPriority(front + [rt] + back)
    ensures multiset(front + [rt] + back) == multiset(front + back) + multiset{rt}
  {
    var all := front + [rt] + back;
    forall i, j | 0 <= i < j < |all| ensures all[i].priority <= all[j].priority {
      assert i < |front| ==> all[i] == front[i] && all[i].priority <= rt.priority;
      assert j > |front| ==> all[j] == back[j - |front| - 1];
      assert i > |front| ==> all[i] == back[i - |front| - 1];
    }
  }

  /** A route put into a sorted table. */
  method Insert(sorted: seq<Route>, rt: Route) returns (all: seq<Route>)
    requires SortedByPriority(sorted)
    ensures SortedByPriority(all)
    ensures multiset(all) == multiset(sorted) + multiset{rt}
  {
    var n := |sorted|;
    while n > 0 && sorted[n - 1].priority > rt.priority
      invariant 0 <= n <= |sorted|
      invariant n < |sorted| ==> rt.priority < sorted[n].priority
    {
      n := n - 1;
    }
    InsertedIsSorted(sorted[..n], rt, sorted[n..]);
    assert sorted[..n] + sorted[n..] == sorted;
    all := sorted[..n] + [rt] + sorted[n..];
  }

  /** Stands for `sort.Sort` on a `routeSlice`. */
  method Sort(rs: seq<Route>) returns (sorted: seq<Route>)
    ensures SortedByPriority(sorted)
    ensures multiset(sorted) == multiset(rs)
  {
    sorted := [];
    for i := 0 to |rs|
      invariant SortedByPriority(sorted)
      invariant multiset(sorted) == multiset(rs[..i])
    {
      sorted := Insert(sorted, rs[i]);
      assert rs[..i + 1] == rs[..i] + [rs[i]];
    }
    assert rs[..|rs|] == rs;
  }

  lemma SameMembers(a: seq<Route>, b: seq<Route>)
    requires multiset(a) == multiset(b)
    ensures forall rt :: rt in a <==> rt in b
  {
    forall rt ensures rt in a <==> rt in b {
      assert rt in a <==> rt in multiset(a);
      assert rt in b <==> rt in multiset(b);
    }
  }

  /** The answer of `RouteWithSrc`: the interface is there only if it had to be looked up. */
  datatype Answer = Invalid | NoRoute | Answer(iface: Option<Iface>, gateway: IP, prefSrc: IP)

  /** One more than the position of the first interface with the given address; 0 if none or not asked for. */
  ghost predicate IsInputIndex(ifaces: seq<Iface>, input: Option<seq<bv8>>, index: nat) {
    && index <= |ifaces|
    && match input
       case None => index == 0
       case Some(mac) =>
         && (index > 0 ==> ifaces[index - 1].mac == mac)
         && forall i | 0 <= i < (if index == 0 then |ifaces| else index - 1) :: ifaces[i].mac != mac
  }

  /**
   * The interface index of a route is the kernel's, and `route` compares it with a list position. For the
   * interface at that position the two agree on every route exactly if it carries that very index.
   */
  lemma PositionIsKernelIndexIff(ifaces: seq<Iface>, index: nat)
    requires 0 < index <= |ifaces|
    ensures (forall rt, src, dst :: Matches(rt, index, src, dst) <==> Matches(rt, ifaces[index - 1].index, src, dst))
            <==> ifaces[index - 1].index == index
  {
    var rt := Route(None, None, [], [], index, 0, 0);
    assert Matches(rt, index, [], []);
    assert Matches(rt, ifaces[index - 1].index, [], []) ==> ifaces[index - 1].index == index;
  }

  /** Behind a gap in the kernel's numbering a route for the input interface is skipped and one for another is taken. */
  lemma InputIsMistaken(index: nat)
    requires IsInputIndex([Iface(1, [0], [], []), Iface(3, [7], [], [])], Some([7]), index)
    ensures var rt := Route(None, None, [], [], 3, 0, 0);
            !Matches(rt, index, [], []) && Matches(rt.(inputIface := 2), index, [], [])
  {
    var ifaces := [Iface(1, [0], [], []), Iface(3, [7], [], [])];
    assert ifaces[0].mac != [7] && ifaces[1].mac == [7];
  }

  class Router {
    const ifaces: seq<Iface>
    const v4: seq<Route>
    const v6: seq<Route>

    /** The tables hold the routes of the dump up to its end mark, in the order of their priorities. */
    constructor (ifaces: seq<Iface>, msgs: seq<Message>)
      ensures Valid() && this.ifaces == ifaces
      ensures multiset(v4) == multiset(RoutesOf(msgs, Inet)) && multiset(v6) == multiset(RoutesOf(msgs, Inet6))
      ensures forall rt :: rt in v4 <==> exists i: nat :: Contributes(msgs, i, Inet, rt)
      ensures forall rt :: rt in v6 <==> exists i: nat :: Contributes(msgs, i, Inet6, rt)
    {
      var read4, read6 := Collect(msgs);
      var sorted4 := Sort(read4);
      var sorted6 := Sort(read6);
      SameMembers(sorted4, read4);
      SameMembers(sorted6, read6);
      forall rt ensures rt in read4 <==> exists i: nat :: Contributes(msgs, i, Inet, rt) { RoutesAreMessages(msgs, Inet, rt); }
      forall rt ensures rt in read6 <==> exists i: nat :: Contributes(msgs, i, Inet6, rt) { RoutesAreMessages(msgs, Inet6, rt); }
      this.ifaces, v4, v6 := ifaces, sorted4, sorted6;
    }

    ghost predicate Valid() {
      SortedByPriority(v4) && SortedByPriority(v6)
    }

    method InputIndex(input: Option<seq<bv8>>) returns (index: nat)
      ensures IsInputIndex(ifaces, input, index)
    {
      if input.Some? {
        for i := 0 to |ifaces|
          invariant forall j | 0 <= j < i :: ifaces[j].mac != input.value
        {
          if input.value == ifaces[i].mac {
            return i + 1;
          }
        }
      }
      index := 0;
    }

    /** The first fitting route of the sorted table is a best one, and there is none only if none fits. */
    method Select(routes: seq<Route>, input: nat, src: IP, dst: IP) returns (r: Option<Route>)
      requires SortedByPriority(routes)
      ensures r.Some? ==> IsBest(routes, r.value, input, src, dst)
      ensures r.None? <==> forall rt | rt in routes :: !Matches(rt, input, src, dst)
      ensures PrefixTable(routes) ==> (r.None? <==> forall rt | rt in routes :: !Fits(rt, input, src, dst))
      ensures PrefixTable(routes) && r.Some? ==> BestFit(routes, r.value, input, src, dst)
    {
      PrefixTableFits(routes, src, dst);
      for i := 0 to |routes|
        invariant forall j | 0 <= j < i :: !Matches(routes[j], input, src, dst)
      {
        var rt := routes[i];
        if rt.inputIface != 0 && rt.inputIface != input {
          continue;
        }
        if rt.src.Some? && !Contains(rt.src.value, src) {
          continue;
        }
        if rt.dst.Some? && !Contains(rt.dst.value, dst) {
          continue;
        }
        return Some(rt);
      }
      r := None;
    }

    /** The answer names an interface with the route's index and its address, or there is no such interface. */
    ghost predicate IsFallback(a: Answer, out: nat, four: bool)
      requires a.Answer?
    {
      match a.iface
      case Some(f) => f in ifaces && f.index == out && a.prefSrc == if four then f.v4 else f.v6
      case None => a.prefSrc == [] && forall f | f in ifaces :: f.index != out
    }

    /** `RouteWithSrc`: a best route of the family of `dst`; its source address, or one of its interface. */
    method RouteWithSrc(input: Option<seq<bv8>>, src: IP, dst: IP) returns (a: Answer, ghost index: nat, ghost best: Option<Route>)
      requires Valid()
      ensures a.Invalid? <==> !Is16(dst)
      ensures Is16(dst) ==> IsInputIndex(ifaces, input, index)
      ensures Is16(dst) ==>
                var table := if To4(dst) != [] then v4 else v6;
                && (a.NoRoute? <==> best.None?)
                && (best.None? <==> forall rt | rt in table :: !Matches(rt, index, src, dst))
                && (best.Some? ==>
                      && IsBest(table, best.value, index, src, dst)
                      && a.gateway == best.value.gateway
                      && (best.value.prefSrc != [] ==> a.iface.None? && a.prefSrc == best.value.prefSrc)
                      && (best.value.prefSrc == [] ==> IsFallback(a, best.value.outputIface, To4(dst) != [])))
      ensures var four := |dst| == 4 || (|dst| == 16 && dst[..12] == MAPPED);
              var table := if four then v4 else v6;
              && (Is16(dst) && PrefixTable(table) ==>
                    && (a.NoRoute? <==> forall rt | rt in table :: !Fits(rt, index, src, dst))
                    && (best.Some? ==> BestFit(table, best.value, index, src, dst)))
              && (a.Answer? && a.iface.Some? ==> a.prefSrc == if four then a.iface.value.v4 else a.iface.value.v6)
    {
      MappedIsFour(dst);
      PrefixTableFits(if To4(dst) != [] then v4 else v6, src, dst);
      index, best := 0, None;
      if !Is16(dst) {
        return Invalid, index, best;
      }
      var i := InputIndex(input);
      index := i;
      var table := if To4(dst) != [] then v4 else v6;
      var rt := Select(table, i, src, dst);
      best := rt;
      if rt.None? {
        return NoRoute, index, best;
      }
      if rt.value.prefSrc != [] {
        return Answer(None, rt.value.gateway, rt.value.prefSrc), index, best;
      }
      for n := 0 to |ifaces|
        invariant forall j | 0 <= j < n :: ifaces[j].index != rt.value.outputIface
      {
        if ifaces[n].index == rt.value.outputIface {
          a := Answer(Some(ifaces[n]), rt.value.gateway, if To4(dst) != [] then ifaces[n].v4 else ifaces[n].v6);
          return;
        }
      }
      a := Answer(None, rt.value.gateway, []);
    }
  }

  /** Which permutation the sort produced does not matter: best routes are those of the table as read, and all have one priority. */
  lemma SortOrderIsIrrelevant(list: seq<Route>, sorted: seq<Route>, rt: Route, other: Route, input: nat, src: IP, dst: IP)
    requires multiset(sorted) == multiset(list)
    requires IsBest(sorted, rt, input, src, dst)
    ensures IsBest(list, rt, input, src, dst)
    ensures IsBest(list, other, input, src, dst) ==> other.priority == rt.priority
  {
    SameMembers(list, sorted);
  }
}
