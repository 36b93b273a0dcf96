/** DHCP message types, transaction ids and the protocol state of one lease object. */
module Messages {
  import opened Wrappers

  /** A transaction id (Go: uint32). */
  type Xid = x: int | 0 <= x < 0x1_0000_0000

  /** The value of the message type option, a single byte (section 9.6 of RFC 2132). */
  type MsgType = t: int | 0 <= t < 256

  const UNSPECIFIED: MsgType := 0
  const DISCOVER: MsgType := 1
  const OFFER: MsgType := 2
  const REQUEST: MsgType := 3
  const ACK: MsgType := 5
  const NAK: MsgType := 6
  const INFORM: MsgType := 8

  /**
   * The part of a received packet that the transaction engine looks at. A packet whose message type option
   * is empty has no type, and asking for it panics.
   */
  datatype Reply = Reply(xid: Xid, msgType: Option<MsgType>)

  /** `Lease.CheckResponseType`: may a lease of type `sent` take a reply of type `got`? */
  predicate Answers(sent: MsgType, got: MsgType) {
    || (sent == DISCOVER && got == OFFER)
    || (sent == REQUEST && (got == ACK || got == NAK))
    || (sent == INFORM && (got == ACK || got == NAK))
  }

  /** In the codes of section 9.6 of RFC 2132: an OFFER answers a DISCOVER, an ACK or NAK a REQUEST or INFORM. */
  lemma AnswersByCode(sent: MsgType, got: MsgType)
    ensures Answers(sent, got) <==> (sent == 1 && got == 2) || ((sent == 3 || sent == 8) && (got == 5 || got == 6))
  {
  }
}

/** A lease object as the protocol sees it: its current message type, its error and its `Done` channel. */
module Leases {
  import opened Wrappers
  import opened Messages

  /**
   * `msgType` and `error` are the fields of the Go object. `closed` and `tokens` are the state of the
   * channel `Done` (capacity 1). `role`, `accepted` and `signals` record history: the type the lease
   * was created with, the reply it took, and how often `Clean` sent on `Done`.
   */
  datatype Lease = Lease(
    xid: Xid,
    role: MsgType,
    msgType: MsgType,
    error: bool,
    accepted: Option<MsgType>,
    closed: bool,
    tokens: nat,
    signals: nat)

  function NewLease(role: MsgType, xid: Xid): Lease {
    Lease(xid, role, role, false, None, false, 0, 0)
  }

  /** The lease after a reply, or the panic it ends in: reading an empty type, or closing `Done` twice. */
  datatype Received = Taken(lease: Lease) | NoType | ClosedTwice

  /** The body of `processDHCPReponse` once the lease is found. */
  function Receive(l: Lease, r: Reply): Received {
    match r.msgType
    case None => NoType
    case Some(t) =>
      if !Answers(l.msgType, t) then Taken(l)
      else if l.closed then ClosedTwice
      else Taken(l.(xid := r.xid, msgType := t, error := l.error || t == NAK, accepted := Some(t), closed := true))
  }

  /** `e.Lease.Done <- true` in `Clean`, when the channel is open and empty. */
  function Signal(l: Lease): Lease {
    l.(tokens := l.tokens + 1, signals := l.signals + 1)
  }

  /** The receive on `Done`: takes the buffered value if there is one. */
  function TakeToken(l: Lease): Lease {
    l.(tokens := if l.tokens > 0 then l.tokens - 1 else 0)
  }

  /**
   * What holds of every lease that is in the store: either no reply was taken and the lease still has
   * the type it was sent with and an open channel, or exactly one fitting reply was taken and closed it.
   */
  predicate StoredOk(l: Lease) {
    && (l.role == DISCOVER || l.role == REQUEST)
    && l.tokens == 0 && l.signals == 0
    && match l.accepted
       case None => l.msgType == l.role && !l.closed && !l.error
       case Some(t) => Answers(l.role, t) && l.msgType == t && l.closed && (l.error <==> t == NAK)
  }

  /** How far the exchange of a lease has come: the type of the reply it took, or else the type it was sent with. */
  function Progress(l: Lease): MsgType {
    match l.accepted
    case None => l.role
    case Some(t) => t
  }

  /** A stored lease never closes its channel twice: after one accepted reply every other is ignored. */
  lemma StoredTakesOneReply(l: Lease, r: Reply)
    requires StoredOk(l) && r.xid == l.xid
    ensures Receive(l, r).NoType? <==> r.msgType.None?
    ensures r.msgType.Some? ==> Receive(l, r).Taken? && StoredOk(Receive(l, r).lease)
    ensures r.msgType.Some? && l.accepted.Some? ==> Receive(l, r) == Taken(l)
    ensures r.msgType.Some? && Receive(l, r) != Taken(l) ==>
              l.accepted.None? && Receive(l, r).lease.accepted == r.msgType
  {
  }
}

/** What the operations of the lease store do to its map, for any kind of lease handle. */
module StoreSpec {
  import opened Messages

  datatype Item<+L> = Item(lease: L, expire: int, status: MsgType)

  function Stored<L>(s: map<Xid, Item<L>>, xid: Xid, lease: L, status: MsgType, now: int, ttl: nat): map<Xid, Item<L>> {
    s[xid := Item(lease, now + ttl, status)]
  }

  function Removed<L>(s: map<Xid, Item<L>>, xid: Xid): map<Xid, Item<L>> {
    s - {xid}
  }

  function Touched<L>(s: map<Xid, Item<L>>, xid: Xid, now: int, ttl: nat): map<Xid, Item<L>> {
    if xid in s then s[xid := s[xid].(expire := now + ttl)] else s
  }

  /** Keys strictly past their expiry (Go: `v.Expire.Before(now)`). */
  function Outdated<L>(s: map<Xid, Item<L>>, now: int): set<Xid> {
    set k | k in s && s[k].expire < now
  }
}
