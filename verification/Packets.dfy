/** DHCP packets: the option list, used as a map, and the request that is built from an offer. */
module Packets {
  import opened Wrappers
  import opened Messages

  type Byte = b: int | 0 <= b < 256

  /** One option; `length` is the byte that goes on the wire, not the length of `data`. */
  datatype Opt = Opt(kind: Byte, data: seq<Byte>, length: Byte)

  // option codes of RFC 2132
  const HOSTNAME: Byte := 12
  const REQUESTED_IP: Byte := 50
  const LEASE_TIME: Byte := 51
  const MESSAGE_TYPE: Byte := 53
  const T1: Byte := 58
  const T2: Byte := 59

  /** `DHCPOption` as the code fills it in: the length is cut to a byte (Go: `uint8(len(data))`). */
  function MakeOpt(kind: Byte, data: seq<Byte>): Opt {
    Opt(kind, data, |data| % 256)
  }

  // ---------- the option list as a map ----------

  /** The first option of a kind. */
  function Lookup(opts: seq<Opt>, kind: Byte): Option<Opt> {
    if opts == [] then None
    else if opts[0].kind == kind then Some(opts[0])
    else Lookup(opts[1..], kind)
  }

  /** The options after one is set: the first of its kind is overwritten, or one is appended. */
  function WithOption(opts: seq<Opt>, kind: Byte, data: seq<Byte>): seq<Opt> {
    if opts == [] then [MakeOpt(kind, data)]
    else if opts[0].kind == kind then [MakeOpt(kind, data)] + opts[1..]
    else [opts[0]] + WithOption(opts[1..], kind, data)
  }

  function Count(opts: seq<Opt>, kind: Byte): nat {
    if opts == [] then 0
    else (if opts[0].kind == kind then 1 else 0) + Count(opts[1..], kind)
  }

  /** The options of all other kinds, in their order. */
  function Others(opts: seq<Opt>, kind: Byte): seq<Opt> {
    if opts == [] then []
    else (if opts[0].kind == kind then [] else [opts[0]]) + Others(opts[1..], kind)
  }

  ghost predicate UniqueKinds(opts: seq<Opt>) {
    forall k: Byte :: Count(opts, k) <= 1
  }

  lemma {:induction false} LookupAppend(a: seq<Opt>, b: seq<Opt>, k: Byte)
    ensures Lookup(a + b, k) == if Lookup(a, k).Some? then Lookup(a, k) else Lookup(b, k)
  {
    if a == [] {
      assert a + b == b;
    } else {
      assert (a + b)[1..] == a[1..] + b;
      LookupAppend(a[1..], b, k);
    }
  }

  lemma {:induction false} CountAppend(a: seq<Opt>, b: seq<Opt>, k: Byte)
    ensures Count(a + b, k) == Count(a, k) + Count(b, k)
  {
    if a == [] {
      assert a + b == b;
    } else {
      assert (a + b)[1..] == a[1..] + b;
      CountAppend(a[1..], b, k);
    }
  }

  lemma {:induction false} LookupIffCount(opts: seq<Opt>, k: Byte)
    ensures Lookup(opts, k).Some? <==> Count(opts, k) > 0
    ensures Lookup(opts, k).Some? ==> Lookup(opts, k).value.kind == k
  {
    if opts != [] { LookupIffCount(opts[1..], k); }
  }

  /** Setting an option is the update of a map whose lookup is the first match. */
  lemma {:induction false} SetThenGet(opts: seq<Opt>, kind: Byte, data: seq<Byte>, k: Byte)
    ensures Lookup(WithOption(opts, kind, data), k) == if k == kind then Some(MakeOpt(kind, data)) else Lookup(opts, k)
  {
    if opts != [] && opts[0].kind != kind { SetThenGet(opts[1..], kind, data, k); }
  }

  /** Setting an option leaves every other one, and their order, alone; it adds one only if there was none of its kind. */
  lemma {:induction false} SetKeepsOthers(opts: seq<Opt>, kind: Byte, data: seq<Byte>)
    ensures Others(WithOption(opts, kind, data), kind) == Others(opts, kind)
    ensures forall k: Byte :: Count(WithOption(opts, kind, data), k) ==
              if k == kind && Count(opts, k) == 0 then 1 else Count(opts, k)
  {
    if opts != [] && opts[0].kind != kind { SetKeepsOthers(opts[1..], kind, data); }
  }

  /** If kinds occurred at most once, they still do. */
  lemma SetKeepsKindsUnique(opts: seq<Opt>, kind: Byte, data: seq<Byte>)
    requires UniqueKinds(opts)
    ensures UniqueKinds(WithOption(opts, kind, data))
  {
    SetKeepsOthers(opts, kind, data);
  }

  /** The data is stored as it is; the length byte tells its length exactly when it is shorter than 256 bytes. */
  lemma StoredLength(opts: seq<Opt>, kind: Byte, data: seq<Byte>)
    ensures Lookup(WithOption(opts, kind, data), kind).Some?
    ensures var o := Lookup(WithOption(opts, kind, data), kind).value;
            o.kind == kind && o.data == data && (o.length == |data| <==> |data| < 256)
  {
    SetThenGet(opts, kind, data, kind);
  }

  /** The list after setting option opts[i] is opts with that one position replaced, if i is the first of its kind. */
  lemma {:induction false} WithOptionAt(opts: seq<Opt>, kind: Byte, data: seq<Byte>, i: nat)
    requires i <= |opts| && forall j | 0 <= j < i :: opts[j].kind != kind
    requires i < |opts| ==> opts[i].kind == kind
    ensures WithOption(opts, kind, data) == if i < |opts| then opts[i := MakeOpt(kind, data)] else opts + [MakeOpt(kind, data)]
    ensures Lookup(opts, kind) == if i < |opts| then Some(opts[i]) else None
  {
    if i > 0 { WithOptionAt(opts[1..], kind, data, i - 1); }
  }

  // ---------- the request built from an offer ----------

  /** `net.IP.To4`: four bytes, or the last four of a mapped address, or nil (here the empty sequence). */
  function To4(ip: seq<Byte>): seq<Byte> {
    if |ip| == 4 then ip
    else if |ip| == 16 && (forall i | 0 <= i < 10 :: ip[i] == 0) && ip[10] == 255 && ip[11] == 255 then ip[12..]
    else []
  }

  /** The options `NewPackage` copies from its caller, with fresh length bytes. */
  function Copied(extra: seq<Opt>): seq<Opt> {
    if extra == [] then [] else [MakeOpt(extra[0].kind, extra[0].data)] + Copied(extra[1..])
  }

  function PackageOptions(msgType: MsgType, extra: seq<Opt>): seq<Opt> {
    [Opt(MESSAGE_TYPE, [msgType], 1)] + Copied(extra)
  }

  function RequestOptions(msgType: MsgType, extra: seq<Opt>, hostname: seq<Byte>, your: seq<Byte>): seq<Opt> {
    var base := PackageOptions(msgType, extra);
    var named := if hostname != [] then WithOption(base, HOSTNAME, hostname) else base;
    if msgType == REQUEST then named + [Opt(REQUESTED_IP, To4(your), 4)] else named
  }

  lemma {:induction false} CopiedKinds(extra: seq<Opt>, k: Byte)
    ensures Count(Copied(extra), k) == Count(extra, k)
    ensures Lookup(Copied(extra), k) ==
              if Lookup(extra, k).Some? then Some(MakeOpt(k, Lookup(extra, k).value.data)) else None
    ensures |Copied(extra)| == |extra|
  {
    if extra != [] { CopiedKinds(extra[1..], k); }
  }

  /** Each option is copied to its place, with the length of its own data. */
  lemma {:induction false} CopiedAt(extra: seq<Opt>, i: nat)
    requires i < |extra|
    ensures |Copied(extra)| == |extra|
    ensures Copied(extra)[i] == Opt(extra[i].kind, extra[i].data, |extra[i].data| % 256)
  {
    CopiedKinds(extra, 0);
    if i > 0 { CopiedAt(extra[1..], i - 1); }
  }

  lemma PackageKinds(msgType: MsgType, extra: seq<Opt>, k: Byte)
    ensures Count(PackageOptions(msgType, extra), k) == (if k == MESSAGE_TYPE then 1 else 0) + Count(extra, k)
    ensures Lookup(PackageOptions(msgType, extra), k) ==
              if k == MESSAGE_TYPE then Some(Opt(MESSAGE_TYPE, [msgType], 1))
              else if Lookup(extra, k).Some? then Some(MakeOpt(k, Lookup(extra, k).value.data)) else None
  {
    var first := [Opt(MESSAGE_TYPE, [msgType], 1)];
    CopiedKinds(extra, k);
    CountAppend(first, Copied(extra), k);
    LookupAppend(first, Copied(extra), k);
  }

  /**
   * How often each kind of option occurs in a request with any extra options: the message type once more
   * than in the extra ones and always first, the requested address once more, the hostname at most once
   * more and only if there was none.
   */
  lemma RequestKinds(extra: seq<Opt>, hostname: seq<Byte>, your: seq<Byte>)
    ensures var opts := RequestOptions(REQUEST, extra, hostname, your);
            && opts[0] == Opt(MESSAGE_TYPE, [REQUEST], 1)
            && Count(opts, MESSAGE_TYPE) == 1 + Count(extra, MESSAGE_TYPE)
            && Count(opts, REQUESTED_IP) == 1 + Count(extra, REQUESTED_IP)
            && Count(opts, HOSTNAME) == (if hostname != [] && Count(extra, HOSTNAME) == 0 then 1 else Count(extra, HOSTNAME))
            && (forall k: Byte | k != MESSAGE_TYPE && k != REQUESTED_IP && k != HOSTNAME :: Count(opts, k) == Count(extra, k))
  {
    var base := PackageOptions(REQUEST, extra);
    var named := if hostname != [] then WithOption(base, HOSTNAME, hostname) else base;
    SetKeepsOthers(base, HOSTNAME, hostname);
    forall k: Byte
      ensures Count(base, k) == (if k == MESSAGE_TYPE then 1 else 0) + Count(extra, k)
      ensures Count(RequestOptions(REQUEST, extra, hostname, your), k) == Count(named, k) + if k == REQUESTED_IP then 1 else 0
    {
      PackageKinds(REQUEST, extra, k);
      CountAppend(named, [Opt(REQUESTED_IP, To4(your), 4)], k);
    }
  }

  /**
   * What a server reads from a request, by first match: its message type is always REQUEST, its hostname
   * that of the client if there is one, and its requested address the offered one exactly when the extra
   * options hold no requested address that says otherwise.
   */
  lemma RequestLookup(extra: seq<Opt>, hostname: seq<Byte>, your: seq<Byte>)
    ensures var opts := RequestOptions(REQUEST, extra, hostname, your);
            && Lookup(opts, MESSAGE_TYPE) == Some(Opt(MESSAGE_TYPE, [REQUEST], 1))
            && (hostname != [] ==> Lookup(opts, HOSTNAME) == Some(MakeOpt(HOSTNAME, hostname)))
            && Lookup(opts, REQUESTED_IP).Some?
            && (Lookup(opts, REQUESTED_IP).value.data == To4(your) <==>
                  Lookup(extra, REQUESTED_IP).None? || Lookup(extra, REQUESTED_IP).value.data == To4(your))
  {
    var base := PackageOptions(REQUEST, extra);
    var named := if hostname != [] then WithOption(base, HOSTNAME, hostname) else base;
    var last := [Opt(REQUESTED_IP, To4(your), 4)];
    forall k: Byte | k == MESSAGE_TYPE || k == HOSTNAME || k == REQUESTED_IP
      ensures Lookup(RequestOptions(REQUEST, extra, hostname, your), k) == if Lookup(named, k).Some? then Lookup(named, k) else Lookup(last, k)
      ensures Lookup(named, k) == if hostname != [] && k == HOSTNAME then Some(MakeOpt(HOSTNAME, hostname)) else Lookup(base, k)
    {
      PackageKinds(REQUEST, extra, k);
      SetThenGet(base, HOSTNAME, hostname, k);
      LookupAppend(named, last, k);
    }
    PackageKinds(REQUEST, extra, MESSAGE_TYPE);
    PackageKinds(REQUEST, extra, REQUESTED_IP);
  }

  /** The first twelve bytes of an IPv4 address in its 16-byte form (section 2.5.5.2 of RFC 4291). */
  const MAPPED: seq<Byte> := [0, 0, 0, 0, 0, 0, 0, 0, 0, 0, 255, 255]

  /**
   * The options end with a requested address (code 50): the four bytes of an IPv4 address in either form, and
   * no bytes, but still a length of four, for everything else.
   */
  ghost predicate AsksFor(opts: seq<Opt>, your: seq<Byte>) {
    && opts != []
    && var last := opts[|opts| - 1];
       && last.kind == 50 && last.length == 4
       && (|your| == 4 ==> last.data == your)
       && (|your| == 16 && your[..12] == MAPPED ==> last.data == your[12..])
       && (|your| != 4 && !(|your| == 16 && your[..12] == MAPPED) ==> last.data == [])
  }

  /** Whatever the extra options, a request asks for the offered address byte by byte. */
  lemma RequestAsksForOffer(extra: seq<Opt>, hostname: seq<Byte>, your: seq<Byte>)
    ensures AsksFor(RequestOptions(REQUEST, extra, hostname, your), your)
  {
    if |your| == 16 {
      assert forall i | 0 <= i < 12 :: your[..12][i] == your[i];
      assert your[..12] == MAPPED <==> forall i | 0 <= i < 12 :: your[i] == MAPPED[i];
    }
  }

  /**
   * A request with no extra options, as `GetLease` and `Renew` build it: one message type, first; one
   * requested address, last; at most one hostname; and nothing else.
   */
  lemma PlainRequest(hostname: seq<Byte>, your: seq<Byte>)
    ensures var opts := RequestOptions(REQUEST, [], hostname, your);
            && UniqueKinds(opts)
            && |opts| == (if hostname == [] then 2 else 3)
            && opts[0] == Opt(53, [3], 1)
            && opts[|opts| - 1] == Opt(50, To4(your), 4) && AsksFor(opts, your)
            && (hostname != [] ==> opts[1] == Opt(12, hostname, |hostname| % 256))
  {
    RequestKinds([], hostname, your);
    RequestAsksForOffer([], hostname, your);
    assert PackageOptions(REQUEST, []) == [Opt(MESSAGE_TYPE, [REQUEST], 1)];
    WithOptionAt(PackageOptions(REQUEST, []), HOSTNAME, hostname, 1);
  }

  /** The requested-address option is well formed on the wire exactly when the offer is for an IPv4 address. */
  lemma RequestedAddressWellFormed(hostname: seq<Byte>, your: seq<Byte>)
    ensures var opts := RequestOptions(REQUEST, [], hostname, your);
            opts[|opts| - 1].length == |opts[|opts| - 1].data| <==> |your| == 4 || (|your| == 16 && your[..12] == MAPPED)
  {
    RequestAsksForOffer([], hostname, your);
  }

  /** How often `request` retyped the offer does not show in anything but its message type. */
  function Retyped(opts: seq<Opt>, times: nat): seq<Opt> {
    if times == 0 then opts else WithOption(Retyped(opts, times - 1), MESSAGE_TYPE, [REQUEST])
  }

  lemma {:induction false} RetypedKeepsOthers(opts: seq<Opt>, times: nat)
    ensures Others(Retyped(opts, times), MESSAGE_TYPE) == Others(opts, MESSAGE_TYPE)
    ensures forall k: Byte | k != MESSAGE_TYPE :: Lookup(Retyped(opts, times), k) == Lookup(opts, k)
    ensures times > 0 ==> Lookup(Retyped(opts, times), MESSAGE_TYPE) == Some(MakeOpt(MESSAGE_TYPE, [REQUEST]))
  {
    if times > 0 {
      var before := Retyped(opts, times - 1);
      RetypedKeepsOthers(opts, times - 1);
      SetKeepsOthers(before, MESSAGE_TYPE, [REQUEST]);
      forall k: Byte ensures Lookup(Retyped(opts, times), k) == if k == MESSAGE_TYPE then Some(MakeOpt(k, [REQUEST])) else Lookup(before, k) {
        SetThenGet(before, MESSAGE_TYPE, [REQUEST], k);
      }
    }
  }
}

/** Packets and leases as the objects the program changes in place. */
module PacketObjects {
  import opened Wrappers
  import opened Messages
  import opened Packets

  /** The header fields of a packet that the client fills in or copies. */
  datatype Header = Header(xid: Xid, chaddr: seq<Byte>, relay: seq<Byte>, client: seq<Byte>, your: seq<Byte>)

  lemma {:induction false} CopiedSnoc(extra: seq<Opt>, e: Opt)
    ensures Copied(extra + [e]) == Copied(extra) + [MakeOpt(e.kind, e.data)]
  {
    if extra != [] {
      assert (extra + [e])[1..] == extra[1..] + [e];
      CopiedSnoc(extra[1..], e);
    }
  }

  class Packet {
    var header: Header
    var options: seq<Opt>

    /** `NewPackage`: a zero xid is replaced by a generated one, `spare`. */
    constructor (msgType: MsgType, xid: Xid, spare: Xid, chaddr: seq<Byte>, extra: seq<Opt>)
      ensures header == Header(if xid == 0 then spare else xid, chaddr, [], [], [])
      ensures options == PackageOptions(msgType, extra)
    {
      header := Header(if xid == 0 then spare else xid, chaddr, [], [], []);
      options := [];
      new;
      options := options + [Opt(MESSAGE_TYPE, [msgType], 1)];
      for i := 0 to |extra|
        invariant header == Header(if xid == 0 then spare else xid, chaddr, [], [], [])
        invariant options == PackageOptions(msgType, extra[..i])
      {
        CopiedSnoc(extra[..i], extra[i]);
        assert extra[..i + 1] == extra[..i] + [extra[i]];
        options := options + [Opt(extra[i].kind, extra[i].data, |extra[i].data| % 256)];
      }
      assert extra[..|extra|] == extra;
    }

    method FindOption(kind: Byte) returns (pos: int)
      ensures -1 <= pos < |options|
      ensures pos >= 0 ==> options[pos].kind == kind && forall j | 0 <= j < pos :: options[j].kind != kind
      ensures pos == -1 ==> forall j | 0 <= j < |options| :: options[j].kind != kind
    {
      for i := 0 to |options|
        invariant forall j | 0 <= j < i :: options[j].kind != kind
      {
        if options[i].kind == kind {
          return i;
        }
      }
      pos := -1;
    }

    method GetOption(kind: Byte) returns (o: Option<Opt>)
      ensures o == Lookup(options, kind)
    {
      assert options[0..] == options;
      for i := 0 to |options|
        invariant Lookup(options[i..], kind) == Lookup(options, kind)
      {
        assert options[i..][1..] == options[i + 1..];
        if options[i].kind == kind {
          return Some(options[i]);
        }
      }
      o := None;
    }

    method SetOption(kind: Byte, data: seq<Byte>)
      modifies this`options
      ensures options == WithOption(old(options), kind, data)
    {
      var pos := FindOption(kind);
      WithOptionAt(options, kind, data, if pos >= 0 then pos else |options|);
      if pos >= 0 {
        options := options[pos := options[pos].(data := data, length := |data| % 256)];
      } else {
        options := options + [Opt(kind, data, |data| % 256)];
      }
    }

    method SetMsgType(msgType: MsgType)
      modifies this`options
      ensures options == WithOption(old(options), MESSAGE_TYPE, [msgType])
    {
      SetOption(MESSAGE_TYPE, [msgType]);
    }

    /** The message type; None is the panic of reading the first byte of an empty option. */
    method GetMsgType() returns (t: Option<MsgType>)
      ensures t == match Lookup(options, MESSAGE_TYPE)
                   case None => Some(UNSPECIFIED)
                   case Some(o) => if o.data == [] then None else Some(o.data[0])
    {
      var o := GetOption(MESSAGE_TYPE);
      if o.None? {
        return Some(UNSPECIFIED);
      }
      t := if o.value.data == [] then None else Some(o.value.data[0]);
    }
  }

  /** The header `GetRequest` gives a request for an offer. */
  function RequestHeader(offer: Header, msgType: MsgType, spare: Xid): Header {
    Header(if offer.xid == 0 then spare else offer.xid, offer.chaddr, offer.relay,
           if msgType == REQUEST then [] else offer.your, [])
  }

  /** `GetRequest` of a lease whose packet is `offer`. */
  method GetRequest(offer: Packet, hostname: seq<Byte>, msgType: MsgType, spare: Xid, extra: seq<Opt>) returns (request: Packet)
    ensures fresh(request)
    ensures request.header == RequestHeader(offer.header, msgType, spare)
    ensures request.options == RequestOptions(msgType, extra, hostname, offer.header.your)
    ensures request.options[0] == Opt(53, [msgType], 1)
    ensures msgType == REQUEST ==> AsksFor(request.options, offer.header.your) && request.header.client == []
    ensures msgType != REQUEST ==> request.header.client == offer.header.your
    ensures request.header.chaddr == offer.header.chaddr && request.header.relay == offer.header.relay && request.header.your == []
    ensures request.header.xid == if offer.header.xid == 0 then spare else offer.header.xid
  {
    RequestAsksForOffer(extra, hostname, offer.header.your);
    request := new Packet(msgType, offer.header.xid, spare, offer.header.chaddr, extra);
    request.header := request.header.(relay := offer.header.relay);
    if hostname != [] {
      request.SetOption(HOSTNAME, hostname);
    }
    if msgType != REQUEST {
      request.header := request.header.(client := offer.header.your);
    } else {
      request.options := request.options + [Opt(REQUESTED_IP, To4(offer.header.your), 4)];
    }
  }

  /**
   * The packets the request loop of `GetLease` builds for one offer in |spares| tries: every try sends the
   * same request, although each retypes the offer; only an offer with xid 0 draws a new xid each time.
   */
  method RequestLoop(offer: Packet, hostname: seq<Byte>, spares: seq<Xid>) returns (sent: seq<Packet>)
    modifies offer`options
    ensures |sent| == |spares|
    ensures offer.options == Retyped(old(offer.options), |spares|)
    ensures forall i | 0 <= i < |sent| ::
              && sent[i].options == RequestOptions(REQUEST, [], hostname, offer.header.your)
              && sent[i].header == RequestHeader(offer.header, REQUEST, spares[i])
    ensures forall i | 0 <= i < |sent| && offer.header.xid != 0 ::
              sent[i].header == Header(offer.header.xid, offer.header.chaddr, offer.header.relay, [], [])
    ensures forall i | 0 <= i < |sent| :: AsksFor(sent[i].options, offer.header.your)
  {
    sent := [];
    for i := 0 to |spares|
      invariant |sent| == i && offer !in sent
      invariant offer.options == Retyped(old(offer.options), i)
      invariant forall j | 0 <= j < i ::
                  && sent[j].options == RequestOptions(REQUEST, [], hostname, offer.header.your)
                  && sent[j].header == RequestHeader(offer.header, REQUEST, spares[j])
    {
      var request := GetRequest(offer, hostname, REQUEST, spares[i], []);
      offer.SetMsgType(REQUEST);
      sent := sent + [request];
    }
    RequestAsksForOffer([], hostname, offer.header.your);
  }
}

/** Expiry, rebinding and renewal times of a lease (section 4.4.5 of RFC 2131), in nanoseconds. */
module LeaseTimes {
  import opened Wrappers
  import opened Packets

  const SECOND: int := 1_000_000_000

  type Uint32 = x: int | 0 <= x < 0x1_0000_0000

  /** An int64 product as the machine computes it. */
  function Wrap64(x: int): int {
    (x + 0x8000_0000_0000_0000) % 0x1_0000_0000_0000_0000 - 0x8000_0000_0000_0000
  }

  function Duration(seconds: Uint32): int {
    Wrap64(seconds * SECOND)
  }

  /** `binary.BigEndian.Uint32`; None is the panic on fewer than four bytes. */
  function BigEndian(data: seq<Byte>): Option<Uint32> {
    if |data| < 4 then None
    else Some(((data[0] as int * 256 + data[1] as int) * 256 + data[2] as int) * 256 + data[3] as int)
  }

  /** The time an option of a kind adds to the timestamp, if the lease has that option. */
  datatype Span = Absent | Panic | Seconds(s: Uint32)

  function SpanOf(opts: seq<Opt>, kind: Byte): Span {
    match Lookup(opts, kind)
    case None => Absent
    case Some(o) => if BigEndian(o.data).None? then Panic else Seconds(BigEndian(o.data).value)
  }

  function Later(timestamp: int, span: Span): Option<int> {
    match span
    case Absent => Some(timestamp)
    case Panic => None
    case Seconds(s) => Some(timestamp + Duration(s))
  }

  /** Seven eighths of a lease time in uint32 arithmetic. */
  function SevenEighths(l: Uint32): Uint32 {
    (l * 7) % 0x1_0000_0000 / 8
  }

  function Half(l: Uint32): Uint32 {
    l / 2
  }

  function ExpireTime(timestamp: int, opts: seq<Opt>): Option<int> {
    Later(timestamp, SpanOf(opts, LEASE_TIME))
  }

  function RebindTime(timestamp: int, opts: seq<Opt>): Option<int> {
    match SpanOf(opts, T2)
    case Absent =>
      (match SpanOf(opts, LEASE_TIME)
       case Seconds(l) => Later(timestamp, Seconds(SevenEighths(l)))
       case other => Later(timestamp, other))
    case given => Later(timestamp, given)
  }

  function RenewalTime(timestamp: int, opts: seq<Opt>): Option<int> {
    match SpanOf(opts, T1)
    case Absent =>
      (match SpanOf(opts, LEASE_TIME)
       case Seconds(l) => Later(timestamp, Seconds(Half(l)))
       case other => Later(timestamp, other))
    case given => Later(timestamp, given)
  }

  /** The largest lease time, in seconds, whose product with 7 fits 32 bits: a bit over 19 years. */
  const LONGEST: Uint32 := 613566756

  /** No number of seconds of 32 bits overflows a duration of 64. */
  lemma DurationIsExact(s: Uint32)
    ensures Duration(s) == s * 1_000_000_000
  {
  }

  /** Rebinding falls on seven eighths of the lease, rounded down, exactly up to the longest lease time. */
  lemma SevenEighthsExact(l: Uint32)
    ensures SevenEighths(l) == l * 7 / 8 <==> l <= 613566756
  {
    var q := l * 7 / 0x1_0000_0000;
    assert l * 7 == q * 0x1_0000_0000 + (l * 7) % 0x1_0000_0000;
    assert SevenEighths(l) == l * 7 / 8 - q * 0x2000_0000;
  }

  /** Up to that length renewal comes before rebinding, and beyond it always after. */
  lemma RenewalBeforeRebind(l: Uint32)
    ensures Half(l) <= SevenEighths(l) <==> l <= LONGEST
  {
    var q := l * 7 / 0x1_0000_0000;
    assert 0 <= q <= 6;
    assert (l * 7) % 0x1_0000_0000 == l * 7 - q * 0x1_0000_0000;
  }

  ghost predicate OnlyLeaseTime(opts: seq<Opt>, l: Uint32) {
    SpanOf(opts, LEASE_TIME) == Seconds(l) && SpanOf(opts, T1).Absent? && SpanOf(opts, T2).Absent?
  }

  /**
   * A lease with a lease time and neither T1 nor T2: expiry at L seconds, renewal at half of it; rebinding
   * never after expiry, at seven eighths and not before renewal exactly when L is at most LONGEST.
   */
  lemma TimesOfPlainLease(timestamp: int, opts: seq<Opt>, l: Uint32)
    requires OnlyLeaseTime(opts, l)
    ensures var e, b, r := ExpireTime(timestamp, opts), RebindTime(timestamp, opts), RenewalTime(timestamp, opts);
            && e.Some? && b.Some? && r.Some?
            && e.value == timestamp + l * SECOND
            && r.value == timestamp + l / 2 * SECOND
            && timestamp <= r.value <= e.value && timestamp <= b.value <= e.value
            && (b.value == timestamp + l * 7 / 8 * SECOND <==> l <= LONGEST)
            && (r.value <= b.value <==> l <= LONGEST)
  {
    DurationIsExact(l);
    DurationIsExact(Half(l));
    DurationIsExact(SevenEighths(l));
    SevenEighthsExact(l);
    RenewalBeforeRebind(l);
    assert SevenEighths(l) <= l * 7 / 8 <= l;
  }

  /** The times are those of the options `SetOption` wrote: big-endian data is read back as the number. */
  function BigEndianBytes(l: Uint32): seq<Byte> {
    [l / 0x100_0000, l / 0x1_0000 % 256, l / 256 % 256, l % 256]
  }

  lemma BigEndianRoundTrip(l: Uint32)
    ensures BigEndian(BigEndianBytes(l)) == Some(l)
  {
  }

  /** A lease time that is set is the one that is read, whatever was in the option before. */
  lemma SetLeaseTime(opts: seq<Opt>, l: Uint32)
    ensures SpanOf(WithOption(opts, LEASE_TIME, BigEndianBytes(l)), LEASE_TIME) == Seconds(l)
    ensures SpanOf(WithOption(opts, LEASE_TIME, BigEndianBytes(l)), T1) == SpanOf(opts, T1)
    ensures SpanOf(WithOption(opts, LEASE_TIME, BigEndianBytes(l)), T2) == SpanOf(opts, T2)
  {
    SetThenGet(opts, LEASE_TIME, BigEndianBytes(l), LEASE_TIME);
    SetThenGet(opts, LEASE_TIME, BigEndianBytes(l), T1);
    SetThenGet(opts, LEASE_TIME, BigEndianBytes(l), T2);
    BigEndianRoundTrip(l);
  }

  /** T2 and T1, where a lease carries them, fix rebinding and renewal whatever the lease time; neither touches the others. */
  lemma SetT1AndT2(timestamp: int, opts: seq<Opt>, t1: Uint32, t2: Uint32)
    ensures var o := WithOption(WithOption(opts, T1, BigEndianBytes(t1)), T2, BigEndianBytes(t2));
            && RenewalTime(timestamp, o) == Some(timestamp + t1 * SECOND)
            && RebindTime(timestamp, o) == Some(timestamp + t2 * SECOND)
            && ExpireTime(timestamp, o) == ExpireTime(timestamp, opts)
  {
    var one := WithOption(opts, T1, BigEndianBytes(t1));
    BigEndianRoundTrip(t1);
    BigEndianRoundTrip(t2);
    forall k: Byte
      ensures Lookup(one, k) == if k == T1 then Some(MakeOpt(T1, BigEndianBytes(t1))) else Lookup(opts, k)
      ensures Lookup(WithOption(one, T2, BigEndianBytes(t2)), k) == if k == T2 then Some(MakeOpt(T2, BigEndianBytes(t2))) else Lookup(one, k)
    {
      SetThenGet(opts, T1, BigEndianBytes(t1), k);
      SetThenGet(one, T2, BigEndianBytes(t2), k);
    }
    DurationIsExact(t1);
    DurationIsExact(t2);
  }

  /** The four bytes of a number of seconds, most significant first; what follows them is ignored. */
  lemma BigEndianIsPositional(data: seq<Byte>)
    requires |data| >= 4
    ensures BigEndian(data) == Some(data[0] as int * 16777216 + data[1] as int * 65536 + data[2] as int * 256 + data[3] as int)
  {
  }

  /** The seconds that the first option of a kind carries. */
  ghost predicate Carries(opts: seq<Opt>, kind: Byte, seconds: int) {
    && Lookup(opts, kind).Some?
    && var d := Lookup(opts, kind).value.data;
       |d| >= 4 && seconds == d[0] as int * 16777216 + d[1] as int * 65536 + d[2] as int * 256 + d[3] as int
  }

  lemma CarriedSpan(opts: seq<Opt>, kind: Byte, s: Uint32)
    requires Carries(opts, kind, s)
    ensures SpanOf(opts, kind) == Seconds(s)
  {
    BigEndianIsPositional(Lookup(opts, kind).value.data);
  }

  /** With a lease time (code 51) and T2 (59) only, renewal is at half the lease and rebinding at T2. */
  lemma TimesWithT2(timestamp: int, opts: seq<Opt>, l: Uint32, t: Uint32)
    requires Carries(opts, 51, l) && Carries(opts, 59, t) && Lookup(opts, 58).None?
    ensures ExpireTime(timestamp, opts) == Some(timestamp + l * 1_000_000_000)
    ensures RenewalTime(timestamp, opts) == Some(timestamp + l / 2 * 1_000_000_000)
    ensures RebindTime(timestamp, opts) == Some(timestamp + t * 1_000_000_000)
  {
    CarriedSpan(opts, 51, l);
    CarriedSpan(opts, 59, t);
    DurationIsExact(l);
    DurationIsExact(l / 2);
    DurationIsExact(t);
  }

  /** With a lease time and T1 (code 58) only, renewal is at T1, and rebinding as for a plain lease. */
  lemma TimesWithT1(timestamp: int, opts: seq<Opt>, l: Uint32, t: Uint32)
    requires Carries(opts, 51, l) && Carries(opts, 58, t) && Lookup(opts, 59).None?
    ensures ExpireTime(timestamp, opts) == Some(timestamp + l * 1_000_000_000)
    ensures RenewalTime(timestamp, opts) == Some(timestamp + t * 1_000_000_000)
    ensures RebindTime(timestamp, opts) == Some(timestamp + l * 7 / 8 * 1_000_000_000) <==> l <= LONGEST
  {
    CarriedSpan(opts, 51, l);
    CarriedSpan(opts, 58, t);
    DurationIsExact(l);
    DurationIsExact(t);
    DurationIsExact(SevenEighths(l));
    SevenEighthsExact(l);
  }

  /** A time that no option tells is the timestamp of the lease itself. */
  lemma TimesOfNothing(timestamp: int, opts: seq<Opt>)
    requires Lookup(opts, 51).None?
    ensures ExpireTime(timestamp, opts) == Some(timestamp)
    ensures Lookup(opts, 58).None? ==> RenewalTime(timestamp, opts) == Some(timestamp)
    ensures Lookup(opts, 59).None? ==> RebindTime(timestamp, opts) == Some(timestamp)
  {
  }

  predicate TooShort(opts: seq<Opt>, kind: Byte) {
    Lookup(opts, kind).Some? && |Lookup(opts, kind).value.data| < 4
  }

  /** The getters panic exactly when the option they end up reading has fewer than four bytes. */
  lemma GettersPanicIff(timestamp: int, opts: seq<Opt>)
    ensures ExpireTime(timestamp, opts).None? <==> TooShort(opts, LEASE_TIME)
    ensures RebindTime(timestamp, opts).None? <==> TooShort(opts, if Lookup(opts, T2).Some? then T2 else LEASE_TIME)
    ensures RenewalTime(timestamp, opts).None? <==> TooShort(opts, if Lookup(opts, T1).Some? then T1 else LEASE_TIME)
  {
  }
}
