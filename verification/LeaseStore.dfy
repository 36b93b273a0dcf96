/** The lease store and the leases in it as objects, with the handling of a received packet. */
module LeaseStore {
  import opened Wrappers
  import opened Messages
  import opened StoreSpec
  import Leases

  class LeaseObject {
    var xid: Xid
    var msgType: MsgType
    var error: bool
    var closed: bool
    var tokens: nat
    ghost var role: MsgType
    ghost var accepted: Option<MsgType>
    ghost var signals: nat

    ghost function Value(): Leases.Lease
      reads this
    {
      Leases.Lease(xid, role, msgType, error, accepted, closed, tokens, signals)
    }

    constructor (role: MsgType, xid: Xid)
      ensures Value() == Leases.NewLease(role, xid)
    {
      this.xid, this.msgType, error, closed, tokens := xid, role, false, false, 0;
      this.role, accepted, signals := role, None, 0;
    }

    predicate CheckResponseType(got: MsgType)
      reads this
    {
      Answers(msgType, got)
    }

    /** `Done <- true` on an open, empty channel. */
    method Signal()
      requires !closed && tokens == 0
      modifies this
      ensures Value() == Leases.Signal(old(Value()))
    {
      tokens := tokens + 1;
      signals := signals + 1;
    }
  }

  /** How a received packet ends: no such lease, refused, taken, or in one of two panics. */
  datatype ReplyResult = Unexpected | Rejected | Accepted | NoType | ClosedTwice

  /** How `Clean` ends: normally, in the panic of a send on a closed channel, or stuck on a full one. */
  datatype CleanResult = Cleaned | SentOnClosed | Stuck

  class Store {
    var store: map<Xid, Item<LeaseObject>>
    const ttl: nat

    constructor (ttl: nat)
      ensures store == map[] && this.ttl == ttl
      ensures Valid() && Sound()
    {
      store := map[];
      this.ttl := ttl;
    }

    ghost function Held(): set<LeaseObject>
      reads this
    {
      set k | k in store :: store[k].lease
    }

    /** Every entry is keyed by the xid of its lease. */
    ghost predicate Valid()
      reads this, Held()
    {
      forall k | k in store :: store[k].lease in Held() && store[k].lease.xid == k
    }

    /** Every stored lease is in a sound protocol state. */
    ghost predicate Sound()
      reads this, Held()
    {
      forall k | k in store :: store[k].lease in Held() && Leases.StoredOk(store[k].lease.Value())
    }

    /** Only a nil lease is refused. */
    method Set(lease: LeaseObject?, now: int) returns (ok: bool)
      requires Valid()
      modifies this`store
      ensures ok <==> lease != null
      ensures store == if lease == null then old(store) else Stored(old(store), lease.xid, lease, lease.msgType, now, ttl)
      ensures lease != null ==> lease.xid in store && store[lease.xid] == Item(lease, now + ttl, lease.msgType)
      ensures forall k | lease == null || k != lease.xid :: (k in store <==> k in old(store)) && (k in store ==> store[k] == old(store)[k])
      ensures Valid()
      ensures old(Sound()) && (lease != null ==> Leases.StoredOk(lease.Value())) ==> Sound()
    {
      ok := lease != null;
      if lease != null {
        store := store[lease.xid := Item(lease, now + ttl, lease.msgType)];
        assert forall k | k in store && k != lease.xid :: k in old(store) && store[k] == old(store)[k];
      }
    }

    method Get(xid: Xid) returns (lease: LeaseObject?, ok: bool)
      ensures ok <==> xid in store
      ensures lease == if ok then store[xid].lease else null
    {
      if xid in store {
        lease, ok := store[xid].lease, true;
      } else {
        lease, ok := null, false;
      }
    }

    method Remove(xid: Xid) returns (ok: bool)
      requires Valid()
      modifies this`store
      ensures ok <==> xid in old(store)
      ensures store == Removed(old(store), xid)
      ensures forall k :: k in store <==> k in old(store) && k != xid
      ensures forall k | k in store :: store[k] == old(store)[k]
      ensures Valid() && (old(Sound()) ==> Sound())
    {
      ok := xid in store;
      if ok {
        store := store - {xid};
      } else {
        assert store == Removed(store, xid);
      }
    }

    method Touch(xid: Xid, now: int) returns (ok: bool)
      requires Valid()
      modifies this`store
      ensures ok <==> xid in old(store)
      ensures store == Touched(old(store), xid, now, ttl)
      ensures store.Keys == old(store).Keys
      ensures forall k | k in store :: store[k] == if k == xid then old(store)[k].(expire := now + ttl) else old(store)[k]
      ensures Valid() && (old(Sound()) ==> Sound())
    {
      ok := xid in store;
      if ok {
        store := store[xid := store[xid].(expire := now + ttl)];
        assert forall k | k in store :: k in old(store) && store[k].lease == old(store)[k].lease;
      }
    }

    /** In a sound store: is there a lease under this xid whose exchange has come as far as `status`? */
    method HasStatus(xid: Xid, status: MsgType) returns (r: bool)
      ensures r <==> xid in store && store[xid].lease.msgType == status
      ensures Sound() ==> (r <==> xid in store && Leases.Progress(store[xid].lease.Value()) == status)
    {
      r := xid in store && store[xid].lease.msgType == status;
    }

    /** `outdated`: every key strictly past its expiry, each once, in the arbitrary order of the map. */
    method FindOutdated(now: int) returns (keys: seq<Xid>)
      ensures forall k :: k in keys <==> k in Outdated(store, now)
      ensures forall i, j | 0 <= i < j < |keys| :: keys[i] != keys[j]
    {
      keys := [];
      var rest := store.Keys;
      while rest != {}
        invariant rest <= store.Keys
        invariant forall k :: k in keys <==> k in Outdated(store, now) && k !in rest
        invariant forall i, j | 0 <= i < j < |keys| :: keys[i] != keys[j]
        decreases rest
      {
        var k :| k in rest;
        if store[k].expire < now {
          keys := keys + [k];
        }
        rest := rest - {k};
      }
    }

    /** The lease of key k was signalled and its entry deleted. */
    twostate predicate Swept(k: Xid)
      reads *
    {
      && k !in store
      && (k in old(store) ==>
            && var l := old(store[k].lease);
               !old(l.closed) && old(l.tokens == 0) && l.Value() == old(Leases.Signal(l.Value())))
    }

    /** The entry of key k, if there is one, and its lease are as they were. */
    twostate predicate Kept(k: Xid)
      reads *
    {
      && (k in store <==> k in old(store))
      && (k in store ==> store[k] == old(store[k]) && old(store[k].lease).Value() == old(store[k].lease.Value()))
    }

    /** What is left of the store after some keys are gone is as sound as it was. */
    twostate lemma RestKept(gone: seq<Xid>)
      requires old(Valid())
      requires forall k | k in gone :: k !in store
      requires forall k | k !in gone :: Kept(k)
      ensures Valid() && (old(Sound()) ==> Sound())
    {
      forall k | k in store
        ensures store[k].lease.xid == k && (old(Sound()) ==> Leases.StoredOk(store[k].lease.Value()))
      {
        assert Kept(k);
      }
    }

    /**
     * The second critical section of `Clean`: sweeps the keys one by one, and stops at the first whose
     * channel does not take the signal. `done` is how many keys it got through.
     */
    method Sweep(keys: seq<Xid>) returns (r: CleanResult, done: nat)
      requires Valid()
      requires forall i, j | 0 <= i < j < |keys| :: keys[i] != keys[j]
      modifies this`store, Held()
      ensures Valid()
      ensures done <= |keys| && (r.Cleaned? <==> done == |keys|)
      ensures forall i | 0 <= i < done :: Swept(keys[i])
      ensures forall k | k !in keys[..done] :: Kept(k)
      ensures !r.Cleaned? ==>
                && keys[done] in old(store)
                && (r.SentOnClosed? <==> old(store[keys[done]].lease.closed))
                && (r.Stuck? ==> old(store[keys[done]].lease.tokens) > 0)
      ensures old(Sound()) ==> Sound()
    {
      done := 0;
      while done < |keys|
        invariant done <= |keys|
        invariant forall i | 0 <= i < done :: Swept(keys[i])
        invariant forall k | k !in keys[..done] :: Kept(k)
        invariant forall k | k in store :: k !in keys[..done]
      {
        var key := keys[done];
        assert key !in keys[..done];
        assert Kept(key);
        if key in store {
          var lease := store[key].lease;
          if lease.closed || lease.tokens > 0 {
            r := if lease.closed then SentOnClosed else Stuck;
            RestKept(keys[..done]);
            return;
          }
          lease.Signal();
          store := store - {key};
        }
        assert keys[..done + 1] == keys[..done] + [key];
        done := done + 1;
      }
      RestKept(keys[..done]);
      r := Cleaned;
    }

    /**
     * `Clean` when nothing runs between its two sections. It succeeds exactly when no lease past its
     * expiry took a reply (or holds a signal), and then keeps exactly the entries not strictly past it.
     */
    method Clean(now: int) returns (r: CleanResult)
      requires Valid()
      modifies this`store, Held()
      ensures Valid() && (old(Sound()) ==> Sound())
      ensures r.Cleaned? <==> forall k | k in old(store) && old(store)[k].expire < now ::
                                !old(store[k].lease.closed) && old(store[k].lease.tokens == 0)
      ensures r.Cleaned? ==> store == old(store) - Outdated(old(store), now)
      ensures r.Cleaned? ==> forall k | k in Outdated(old(store), now) :: Swept(k)
      ensures forall k | k !in Outdated(old(store), now) :: Kept(k)
      ensures old(Sound()) ==>
                && !r.Stuck?
                && (r.SentOnClosed? <==> exists k :: k in Outdated(old(store), now) && old(store[k].lease.accepted).Some?)
    {
      var keys := FindOutdated(now);
      var done;
      r, done := Sweep(keys);
      forall k | k !in Outdated(old(store), now) ensures Kept(k) {
        assert k !in keys;
        assert k !in keys[..done];
      }
      if r.Cleaned? {
        assert keys[..done] == keys;
        forall k ensures k in store <==> k in old(store) && k !in Outdated(old(store), now) {
          if k in Outdated(old(store), now) {
            assert k in keys && Swept(k);
          } else {
            assert Kept(k);
          }
        }
        forall k | k in old(store) && old(store)[k].expire < now
          ensures !old(store[k].lease.closed) && old(store[k].lease.tokens == 0)
        {
          assert k in keys && Swept(k);
        }
      } else {
        assert keys[done] in keys && keys[done] in Outdated(old(store), now);
      }
    }

    /**
     * `processDHCPReponse`: exactly the lease stored under the xid of the reply may change, as `Receive`
     * says. A sound store stays sound and never closes a channel twice; an empty message type panics.
     */
    method ProcessReply(reply: Reply) returns (r: ReplyResult)
      requires Valid()
      modifies Held()
      ensures store == old(store) && Valid()
      ensures r.Unexpected? <==> reply.xid !in store
      ensures forall l | l in Held() && (reply.xid in store ==> l != store[reply.xid].lease) :: l.Value() == old(l.Value())
      ensures reply.xid in store ==>
                var l := store[reply.xid].lease;
                var result := Leases.Receive(old(l.Value()), reply);
                && (r.NoType? <==> result.NoType?)
                && (r.ClosedTwice? <==> result.ClosedTwice?)
                && l.Value() == (if result.Taken? then result.lease else old(l.Value()))
                && (r.Rejected? <==> reply.msgType.Some? && !Answers(old(l.msgType), reply.msgType.value))
      ensures old(Sound()) ==> Sound() && !r.ClosedTwice?
    {
      var lease, ok := Get(reply.xid);
      if !ok {
        return Unexpected;
      }
      if reply.msgType.None? {
        return NoType;
      }
      var msgType := reply.msgType.value;
      if !lease.CheckResponseType(msgType) {
        return Rejected;
      }
      if lease.closed {
        assert !Leases.StoredOk(lease.Value());
        return ClosedTwice;
      }
      if msgType == NAK {
        lease.error := true;
      }
      lease.xid, lease.msgType, lease.closed := reply.xid, msgType, true;
      lease.accepted := reply.msgType;
      r := Accepted;
    }
  }
}
