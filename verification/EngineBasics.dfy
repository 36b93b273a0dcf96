/** What holds in every run of the engine, whatever replies, failures and delays occur. */
module EngineBasics {
  import opened Wrappers
  import opened Messages
  import opened Leases
  import opened StoreSpec
  import opened Engine

  ghost predicate SlotBasic(s: Slot) {
    && (s.write.Unset? ==> s.lease == NewLease(s.lease.role, s.lease.xid) && (s.lease.role == DISCOVER || s.lease.role == REQUEST))
    && s.lease.signals <= 1
    && s.lease.tokens <= s.lease.signals
    && (s.lease.closed <==> s.lease.accepted.Some?)
    && (s.lease.accepted.Some? ==>
          && (s.lease.accepted.value == OFFER || s.lease.accepted.value == ACK || s.lease.accepted.value == NAK)
          && (s.lease.msgType == s.lease.accepted.value || s.lease.msgType == REQUEST))
  }

  ghost predicate EntryBasic(st: State, k: Xid)
    requires Wf(st) && k in st.store
  {
    var s := st.heap[st.store[k].lease];
    s.lease.xid == k && StoredOk(s.lease) && !s.write.Unset?
  }

  ghost predicate Unstored(st: State, l: LeaseId) {
    forall k | k in st.store :: st.store[k].lease != l
  }

  /** Lease l was in the store and no longer is. */
  ghost predicate Withdrawn(st: State, l: LeaseId) {
    l < |st.heap| && !st.heap[l].write.Unset? && Unstored(st, l)
  }

  /**
   * Entries are keyed by the xid of their lease and hold leases in a sound protocol state, a lease that
   * became an offer is out of the store, and the receiver holds a lease with the xid of its reply.
   */
  ghost predicate Basic(st: State) {
    && Wf(st)
    && (forall k | k in st.store :: EntryBasic(st, k))
    && (forall i | 0 <= i < |st.heap| :: SlotBasic(st.heap[i]))
    && (forall c | 0 <= c < |st.calls| && st.calls[c].offer.Some? :: Withdrawn(st, st.calls[c].offer.value))
    && (st.receiver.Holding? ==>
          st.heap[st.receiver.lease].lease.xid == st.receiver.reply.xid && !st.heap[st.receiver.lease].write.Unset?)
  }

  lemma StartTryBasic(st: State, c: CallId, role: MsgType, xid: Xid, key: Xid, began: nat, origin: Option<LeaseId>)
    requires Basic(st) && c < |st.calls|
    requires role == DISCOVER || role == REQUEST
    ensures Basic(StartTry(st, c, role, xid, key, began, origin))
  {
    var st' := StartTry(st, c, role, xid, key, began, origin);
    forall k | k in st'.store ensures EntryBasic(st', k) { assert EntryBasic(st, k); }
    forall d | 0 <= d < |st'.calls| && st'.calls[d].offer.Some? ensures Withdrawn(st', st'.calls[d].offer.value) {
      assert Withdrawn(st, st.calls[d].offer.value);
    }
  }

  lemma PutBasic(cfg: Config, st: State, l: LeaseId)
    requires Basic(st) && l < |st.heap| && st.heap[l].write.Unset?
    ensures Basic(AfterPut(cfg, st, l))
  {
    var st' := AfterPut(cfg, st, l);
    assert SlotBasic(st.heap[l]);
    forall k | k in st'.store ensures EntryBasic(st', k) {
      if k != st.heap[l].lease.xid { assert EntryBasic(st, k); }
    }
    forall d | 0 <= d < |st'.calls| && st'.calls[d].offer.Some? ensures Withdrawn(st', st'.calls[d].offer.value) {
      assert Withdrawn(st, st.calls[d].offer.value);
    }
  }

  /** Replacing a slot keeps the invariant if the new slot fits every entry that refers to it. */
  lemma WithSlotBasic(st: State, l: LeaseId, s: Slot)
    requires Basic(st) && l < |st.heap|
    requires SlotBasic(s) && s.lease.xid == st.heap[l].lease.xid && (s.write.Unset? ==> st.heap[l].write.Unset?)
    requires Unstored(st, l) || (StoredOk(st.heap[l].lease) ==> StoredOk(s.lease))
    ensures Basic(WithSlot(st, l, s))
  {
    var st' := WithSlot(st, l, s);
    forall k | k in st'.store ensures EntryBasic(st', k) {
      assert EntryBasic(st, k);
    }
  }

  /** Taking entries out of the store keeps the invariant. */
  lemma ShrinkBasic(st: State, store: map<Xid, Item<LeaseId>>)
    requires Basic(st)
    requires forall k | k in store :: k in st.store && store[k] == st.store[k]
    ensures Basic(st.(store := store))
  {
    var st' := st.(store := store);
    forall k | k in st'.store ensures EntryBasic(st', k) {
      assert EntryBasic(st, k);
    }
    forall c | 0 <= c < |st'.calls| && st'.calls[c].offer.Some? ensures Withdrawn(st', st'.calls[c].offer.value) {
      assert Withdrawn(st, st.calls[c].offer.value);
    }
  }

  lemma WithCallBasic(st: State, c: CallId, call: Call)
    requires Basic(st) && c < |st.calls| && CallWf(call, |st.heap|)
    requires call.offer.Some? ==> Withdrawn(st, call.offer.value)
    ensures Basic(WithCall(st, c, call))
  {
    var st' := WithCall(st, c, call);
    forall k | k in st'.store ensures EntryBasic(st', k) {
      assert EntryBasic(st, k);
    }
    forall d | 0 <= d < |st'.calls| && st'.calls[d].offer.Some? ensures Withdrawn(st', st'.calls[d].offer.value) {
      if d != c { assert Withdrawn(st, st.calls[d].offer.value); }
    }
  }

  /** Removing the entry under the xid of a lease takes that lease out of the store. */
  lemma RemovedIsUnstored(st: State, l: LeaseId)
    requires Basic(st) && l < |st.heap|
    ensures Unstored(st.(store := Removed(st.store, st.heap[l].lease.xid)), l)
  {
    forall k | k in st.store && st.store[k].lease == l ensures k == st.heap[l].lease.xid {
      assert EntryBasic(st, k);
    }
  }

  lemma DeliverBasic(st: State, c: CallId)
    requires Basic(st) && c < |st.calls| && st.calls[c].phase.Waiting?
    requires st.heap[st.calls[c].attempt.value.lease].write.Written?
    ensures Basic(AfterDeliver(st, c))
  {
    var l := st.calls[c].attempt.value.lease;
    var s := st.heap[l];
    var slot := s.(lease := TakeToken(s.lease));
    WithSlotBasic(st, l, slot);
    var st1 := WithSlot(st, l, slot);
    var st2 := st1.(store := Removed(st.store, s.lease.xid));
    RemovedIsUnstored(st1, l);
    ShrinkBasic(st1, st2.store);
    var call := Obtain(st.calls[c], l, !s.lease.error, st.now);
    assert call.offer.Some? ==> Withdrawn(st2, call.offer.value) by {
      if st.calls[c].offer.Some? { assert Withdrawn(st, st.calls[c].offer.value); }
    }
    WithCallBasic(st2, c, call);
  }

  lemma WakeBasic(st: State, c: CallId)
    requires Basic(st) && c < |st.calls| && st.calls[c].phase.Asleep?
    ensures Basic(AfterWake(st, c))
  {
    var call := st.calls[c];
    var k := call.attempt.value.key;
    if k in st.store && Expected(call, st.heap[st.store[k].lease].lease.msgType) {
      var l := st.store[k].lease;
      var st1 := st.(store := Removed(st.store, st.heap[l].lease.xid));
      RemovedIsUnstored(st, l);
      ShrinkBasic(st, st1.store);
      var call' := Obtain(call, l, !st.heap[l].lease.error, st.now);
      assert call'.offer.Some? ==> Withdrawn(st1, call'.offer.value) by {
        if call.offer.Some? { assert Unstored(st, call.offer.value); }
      }
      WithCallBasic(st1, c, call');
    } else if k in st.store || call.kind != GetLease {
      WithCallBasic(st, c, call.(attempt := if call.offer.Some? then call.attempt else None,
                                 phase := Ready(st.now), failures := call.failures + 1));
    }
  }

  lemma SweepBasic(st: State)
    requires Basic(st) && st.cleaner.Snapshotted? && st.crash.None?
    ensures Basic(AfterSweep(st))
  {
    var st' := AfterSweep(st);
    if st'.crash.None? {
      forall k | k in st'.store ensures EntryBasic(st', k) {
        assert EntryBasic(st, k);
        var i := st.store[k].lease;
        assert k !in Doomed(st);
        forall d | d in Doomed(st) ensures st.store[d].lease != i { assert EntryBasic(st, d); }
        assert st'.heap[i] == st.heap[i];
      }
      forall i | 0 <= i < |st'.heap| ensures SlotBasic(st'.heap[i]) && st'.heap[i].lease.xid == st.heap[i].lease.xid {
        assert SlotBasic(st.heap[i]);
        if k :| k in Doomed(st) && st.store[k].lease == i { assert EntryBasic(st, k); }
      }
      forall c | 0 <= c < |st'.calls| && st'.calls[c].offer.Some? ensures Withdrawn(st', st'.calls[c].offer.value) {
        assert Withdrawn(st, st.calls[c].offer.value);
      }
    }
  }

  lemma ApplyBasic(st: State)
    requires Basic(st) && st.receiver.Holding?
    ensures Basic(AfterApply(st))
  {
    var l := st.receiver.lease;
    var s := st.heap[l];
    match Receive(s.lease, st.receiver.reply)
    case NoType =>
    case ClosedTwice =>
    case Taken(lease) =>
      if StoredOk(s.lease) { StoredTakesOneReply(s.lease, st.receiver.reply); }
      assert SlotBasic(s);
      WithSlotBasic(st, l, s.(lease := lease));
      var st1 := WithSlot(st, l, s.(lease := lease));
      forall k | k in st1.store ensures EntryBasic(st1.(receiver := Idle), k) { assert EntryBasic(st1, k); }
  }

  lemma SendBasic(st: State, l: LeaseId, s: Slot, gate: Gate)
    requires Basic(st) && l < |st.heap| && s.lease == st.heap[l].lease && !s.write.Unset? && (gate == Writer(l) || gate == Free)
    ensures Basic(WithSlot(st, l, s).(gate := gate))
  {
    assert SlotBasic(st.heap[l]);
    WithSlotBasic(st, l, s);
    var st1 := WithSlot(st, l, s);
    forall k | k in st1.store ensures EntryBasic(st1.(gate := gate), k) { assert EntryBasic(st1, k); }
  }

  lemma SendErrorBasic(st: State, l: LeaseId)
    requires Basic(st) && l < |st.heap|
    ensures Basic(AfterSendError(st, l))
  {
    var s := st.heap[l];
    assert SlotBasic(s);
    WithSlotBasic(st, l, s.(failed := true));
    ShrinkBasic(WithSlot(st, l, s.(failed := true)), AfterSendError(st, l).store);
  }

  lemma BeginRequestBasic(st: State, c: CallId, began: nat)
    requires Basic(st) && c < |st.calls| && st.calls[c].offer.Some?
    ensures Basic(AfterBeginRequest(st, c, began))
  {
    var o := st.calls[c].offer.value;
    var s := st.heap[o];
    assert SlotBasic(s);
    WithSlotBasic(st, o, s.(lease := s.lease.(msgType := REQUEST)));
    StartTryBasic(WithSlot(st, o, s.(lease := s.lease.(msgType := REQUEST))), c, REQUEST,
                  s.lease.xid, s.lease.xid, began, Some(o));
  }

  /** The steps of the goroutine that sends a packet. */
  predicate SendStep(step: Step) {
    step.LockSend? || step.WriteSend? || step.AbortSend? || step.SendError?
  }

  /** A step that touches neither heap, store nor the identity of offers keeps the invariant. */
  lemma FrameBasic(st: State, st': State)
    requires Basic(st) && Wf(st')
    requires st'.heap == st.heap && st'.store == st.store
    requires forall c | 0 <= c < |st'.calls| && st'.calls[c].offer.Some? :: c < |st.calls| && st'.calls[c].offer == st.calls[c].offer
    requires st'.receiver.Holding? ==> st.heap[st'.receiver.lease].lease.xid == st'.receiver.reply.xid && !st.heap[st'.receiver.lease].write.Unset?
    ensures Basic(st')
  {
    forall k | k in st'.store ensures EntryBasic(st', k) { assert EntryBasic(st, k); }
    forall c | 0 <= c < |st'.calls| && st'.calls[c].offer.Some? ensures Withdrawn(st', st'.calls[c].offer.value) {
      assert Withdrawn(st, st.calls[c].offer.value);
    }
  }

  lemma BasicStep(cfg: Config, st: State, step: Step)
    requires Basic(st) && Enabled(cfg, st, step)
    ensures Basic(Next(cfg, st, step))
  {
    match step
    case Begin(c, xid, spare, began) =>
      var actual := if xid == 0 then spare else xid;
      StartTryBasic(st, c, DISCOVER, actual, xid, began, None);
      StartTryBasic(st, c, REQUEST, actual, actual, began, None);
    case BeginRequest(c, began) => BeginRequestBasic(st, c, began);
    case Put(l) => PutBasic(cfg, st, l);
    case LockSend(l) => SendBasic(st, l, st.heap[l].(write := Writing), Writer(l));
    case WriteSend(l) => SendBasic(st, l, st.heap[l].(write := Written), Free);
    case AbortSend(l) => SendBasic(st, l, st.heap[l].(write := Aborted), Free);
    case SendError(l) => SendErrorBasic(st, l);
    case Apply => ApplyBasic(st);
    case Deliver(c) => DeliverBasic(st, c);
    case Wake(c) => WakeBasic(st, c);
    case Sweep => SweepBasic(st);
    case Lookup(reply) =>
      if reply.xid in st.store { assert EntryBasic(st, reply.xid); }
      FrameBasic(st, Next(cfg, st, step));
    case _ => FrameBasic(st, Next(cfg, st, step));
  }

  lemma {:induction false} BasicRun(cfg: Config, run: Run, n: nat)
    requires run.Valid(cfg) && n <= |run.steps|
    ensures Basic(run.states[n])
  {
    if n > 0 {
      BasicRun(cfg, run, n - 1);
      assert run.Linked(cfg, n - 1);
      BasicStep(cfg, run.states[n - 1], run.steps[n - 1]);
    }
  }

  /**
   * Every stored lease, at every point of every run: its key is its xid; without an accepted reply it has
   * its sent type and an open channel; with one it has the type of that reply, a closed channel, and an
   * error iff the reply was a NAK.
   */
  lemma StoredLeases(cfg: Config, run: Run, n: nat, k: Xid)
    requires run.Valid(cfg) && n <= |run.steps| && k in run.states[n].store
    ensures var st := run.states[n];
            && st.store[k].lease < |st.heap|
            && var l := st.heap[st.store[k].lease].lease;
               l.xid == k && StoredOk(l)
  {
    BasicRun(cfg, run, n);
    assert EntryBasic(run.states[n], k);
  }

  /** In every run `Clean` signals a lease at most once, and its send never blocks the cleaner. */
  lemma CleanNeverBlocks(cfg: Config, run: Run, n: nat)
    requires run.Valid(cfg) && n <= |run.steps|
    ensures var st := run.states[n];
            && Wf(st)
            && (forall i | 0 <= i < |st.heap| :: st.heap[i].lease.signals <= 1)
            && (st.crash.None? && st.cleaner.Snapshotted? ==> Enabled(cfg, st, Sweep))
  {
    BasicRun(cfg, run, n);
    var st := run.states[n];
    forall i | 0 <= i < |st.heap| ensures st.heap[i].lease.signals <= 1 { assert SlotBasic(st.heap[i]); }
    forall k | k in Doomed(st) ensures SweepRuns(st, k) { assert EntryBasic(st, k); }
  }

  /**
   * In every run the second section of `Clean` panics exactly when a key of its snapshot now holds a
   * lease that took a reply nobody collected.
   */
  lemma SweepPanicsIff(cfg: Config, run: Run, n: nat)
    requires run.Valid(cfg) && n < |run.steps| && run.steps[n] == Sweep
    ensures var st := run.states[n];
            && Wf(st)
            && (run.states[n + 1].crash == Some(SendOnClosed) <==>
                exists k | k in Doomed(st) :: st.heap[st.store[k].lease].lease.accepted.Some?)
  {
    BasicRun(cfg, run, n);
    assert run.Linked(cfg, n);
    var st := run.states[n];
    forall k | k in Doomed(st)
      ensures st.heap[st.store[k].lease].lease.closed <==> st.heap[st.store[k].lease].lease.accepted.Some?
    {
      assert SlotBasic(st.heap[st.store[k].lease]);
    }
  }

  /**
   * In every run a second close of `Done` happens exactly when the receiver, holding a lease that already
   * took its offer, finds it retyped to REQUEST by `request` and applies an ACK or NAK; such a lease is
   * never one that is still in the store.
   */
  lemma DoubleCloseIff(cfg: Config, run: Run, n: nat)
    requires run.Valid(cfg) && n < |run.steps| && run.steps[n] == Apply
    ensures var st := run.states[n];
            && st.receiver.Holding? && st.receiver.lease < |st.heap|
            && var l := st.heap[st.receiver.lease].lease;
               && (run.states[n + 1].crash == Some(DoubleClose) <==>
                   && l.accepted.Some? && l.msgType == REQUEST
                   && (st.receiver.reply.msgType == Some(ACK) || st.receiver.reply.msgType == Some(NAK)))
               && (run.states[n + 1].crash == Some(DoubleClose) ==> Unstored(st, st.receiver.lease))
  {
    BasicRun(cfg, run, n);
    assert run.Linked(cfg, n);
    var st := run.states[n];
    assert SlotBasic(st.heap[st.receiver.lease]);
    forall k | k in st.store && st.store[k].lease == st.receiver.lease
      ensures run.states[n + 1].crash != Some(DoubleClose)
    {
      assert EntryBasic(st, k);
      StoredTakesOneReply(st.heap[st.receiver.lease].lease, st.receiver.reply);
    }
  }
}
