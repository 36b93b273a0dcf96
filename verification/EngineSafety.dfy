/** What holds in every run that meets the conditions on xids and on the storing of a try. */
module EngineSafety {
  import opened Wrappers
  import opened Messages
  import opened Leases
  import opened StoreSpec
  import opened Engine
  import opened EngineBasics

  // ---------- the conditions ----------

  /** The xid a running call occupies: that of its current try, or that of the offer it goes on with. */
  function Key(st: State, c: CallId): Option<Xid>
    requires Wf(st) && c < |st.calls|
  {
    var call := st.calls[c];
    if call.phase.Finished? then None
    else if call.attempt.Some? then Some(call.attempt.value.key)
    else if call.offer.Some? then Some(st.heap[call.offer.value].lease.xid)
    else None
  }

  /** A drawn xid is not zero, not in the store and not occupied by another call. */
  ghost predicate XidFresh(st: State, step: Step)
    requires Wf(st)
  {
    step.Begin? ==>
      step.xid != 0 && step.xid !in st.store && forall d | 0 <= d < |st.calls| :: Key(st, d) != Some(step.xid)
  }

  /** `request` does not retype an offer between the receiver's lookup of that lease and its use of the reply. */
  ghost predicate NotWhileHeld(st: State, step: Step) {
    step.BeginRequest? && step.c < |st.calls| && st.receiver.Holding? ==> st.calls[step.c].offer != Some(st.receiver.lease)
  }

  /** `wait` does not give up on a try before its goroutine has put the lease into the store. */
  ghost predicate StoredFirst(st: State, step: Step)
    requires Wf(st)
  {
    step.Timeout? && step.c < |st.calls| && st.calls[step.c].attempt.Some? ==>
      !st.heap[st.calls[step.c].attempt.value.lease].write.Unset?
  }

  /** No try outlives its entry: from a `Set` until the call's next `Set` or its return at most ttl passes. */
  ghost predicate Prompt(st: State) {
    forall c | 0 <= c < |st.calls| && st.calls[c].attempt.Some? && st.calls[c].attempt.value.key in st.store ::
      st.now <= st.store[st.calls[c].attempt.value.key].expire
  }

  /** No accepted reply is left in the store past its expiry. */
  ghost predicate Collected(st: State)
    requires Wf(st)
  {
    forall k | k in st.store :: st.heap[st.store[k].lease].lease.closed ==> st.now <= st.store[k].expire
  }

  /** A packet for a stored lease has a message type, if only the one that stands for none. */
  ghost predicate Typed(st: State, step: Step) {
    step.Lookup? && step.reply.xid in st.store ==> step.reply.msgType.Some?
  }

  /** The conditions under which the engine is safe. */
  datatype Condition =
    | FreshXids
    | StoredBeforeTimeout
    | SendsSucceed
    | PromptTries
    | NoRetypeWhileHeld
    | CollectedReplies
    | TypedReplies

  /** A step meets every condition that is not waived. */
  ghost predicate Meets(st: State, step: Step, st': State, waived: set<Condition>)
    requires Wf(st) && Wf(st')
  {
    && (FreshXids !in waived ==> XidFresh(st, step))
    && (StoredBeforeTimeout !in waived ==> StoredFirst(st, step))
    && (SendsSucceed !in waived ==> !step.SendError?)
    && (PromptTries !in waived ==> Prompt(st'))
    && (NoRetypeWhileHeld !in waived ==> NotWhileHeld(st, step))
    && (CollectedReplies !in waived ==> Collected(st'))
    && (TypedReplies !in waived ==> Typed(st, step))
  }

  ghost predicate AdmissibleBut(cfg: Config, run: Run, waived: set<Condition>) {
    && run.Valid(cfg)
    && (forall n {:trigger run.Linked(cfg, n)} | 0 <= n < |run.steps| ::
          run.Linked(cfg, n) && Meets(run.states[n], run.steps[n], run.states[n + 1], waived))
  }

  lemma WaiveMore(cfg: Config, run: Run, waived: set<Condition>, more: set<Condition>)
    requires AdmissibleBut(cfg, run, waived) && waived <= more
    ensures AdmissibleBut(cfg, run, more)
  {
    forall n | 0 <= n < |run.steps|
      ensures run.Linked(cfg, n) && Meets(run.states[n], run.steps[n], run.states[n + 1], more)
    {
      assert run.Linked(cfg, n);
    }
  }

  /** A run in which every step meets all the conditions. */
  ghost predicate Admissible(cfg: Config, run: Run) {
    AdmissibleBut(cfg, run, {})
  }

  /** A run that meets the first four conditions. */
  ghost predicate Disciplined(cfg: Config, run: Run) {
    AdmissibleBut(cfg, run, {NoRetypeWhileHeld, CollectedReplies, TypedReplies})
  }

  /** A run that meets the first two: it may panic in any way. */
  ghost predicate Orderly(cfg: Config, run: Run) {
    AdmissibleBut(cfg, run, {SendsSucceed, PromptTries, NoRetypeWhileHeld, CollectedReplies, TypedReplies})
  }

  /** The sweep that is about to run signals the lease that call c waits for. */
  ghost predicate SignalsWaiting(st: State, c: CallId)
    requires Wf(st)
  {
    && c < |st.calls| && st.calls[c].phase.Waiting?
    && exists k | k in Doomed(st) :: st.store[k].lease == st.calls[c].attempt.value.lease
  }

  /** An orderly run in which `Clean` never signals a lease while call c waits for it. */
  ghost predicate Spared(cfg: Config, run: Run, c: CallId) {
    && Orderly(cfg, run)
    && (forall n {:trigger run.Linked(cfg, n)} | 0 <= n < |run.steps| ::
          run.Linked(cfg, n) && (run.steps[n].Sweep? ==> !SignalsWaiting(run.states[n], c)))
  }

  /** Every wait and every pause under way is within its time, and no call queues in `Block` for longer than `queue`. */
  ghost predicate OnTime(cfg: Config, queue: nat, st: State) {
    forall c | 0 <= c < |st.calls| ::
      match st.calls[c].phase
      case Ready(readyAt) => st.now <= readyAt
      case Waiting => st.calls[c].attempt.Some? && st.now <= st.calls[c].attempt.value.began + cfg.timeout
      case Queued => st.calls[c].attempt.Some? && st.now <= st.calls[c].attempt.value.began + cfg.timeout + queue
      case Asleep(since) => st.now <= since + cfg.retry
      case Finished(_) => true
  }

  /** A run on a perfect clock. */
  ghost predicate Punctual(cfg: Config, queue: nat, run: Run) {
    forall n | 0 <= n < |run.states| :: OnTime(cfg, queue, run.states[n])
  }

  // ---------- the invariant ----------

  /** An offer whose type was set to REQUEST when the client went on with it. */
  predicate Retyped(l: Lease) {
    l.role == DISCOVER && l.msgType == REQUEST
  }

  /**
   * A lease took a reply that fits what it was sent as; only a DISCOVER that was signalled unanswered may
   * be retyped without an offer, and then take an ACK or NAK.
   */
  ghost predicate LeaseSafe(l: Lease) {
    && (l.role == DISCOVER || l.role == REQUEST)
    && match l.accepted
       case None => !l.error && (l.msgType == l.role || (Retyped(l) && l.signals > 0))
       case Some(t) =>
         && (Answers(l.role, t) || (l.role == DISCOVER && l.signals > 0 && (t == ACK || t == NAK)))
         && (l.error <==> t == NAK)
         && (l.msgType == t || Retyped(l))
  }

  /** A DISCOVER that is nobody's offer yet. */
  ghost predicate NotYetOffer(l: Lease) {
    !Retyped(l) && (l.accepted == None || l.accepted == Some(OFFER))
  }

  /** Slot o is what call c goes on with: its DISCOVER, offered or signalled. */
  ghost predicate IsOffer(st: State, o: LeaseId, c: CallId) {
    && o < |st.heap| && st.heap[o].owner == c && st.heap[o].lease.role == DISCOVER
    && (st.heap[o].lease.accepted == Some(OFFER) || st.heap[o].lease.signals > 0)
  }

  ghost predicate SlotSafe(st: State, i: LeaseId)
    requires i < |st.heap|
  {
    var s := st.heap[i];
    && LeaseSafe(s.lease)
    && (s.origin.Some? ==>
          && s.lease.role == REQUEST
          && s.origin.value < i
          && IsOffer(st, s.origin.value, s.owner)
          && st.heap[s.origin.value].lease.xid == s.lease.xid)
  }

  /** If the xid of a call's current try is in the store at all, the lease of that try is there, once it is stored. */
  ghost predicate AttemptSafe(st: State, c: CallId)
    requires Wf(st) && c < |st.calls| && st.calls[c].attempt.Some?
  {
    var call := st.calls[c];
    var a := call.attempt.value;
    var s := st.heap[a.lease];
    && !call.phase.Finished?
    && (call.phase.Ready? ==> call.offer.Some?)
    && (if s.write.Unset? then call.phase.Waiting? else a.key in st.store ==> st.store[a.key].lease == a.lease)
    && s.owner == c && s.origin == call.offer && s.lease.xid == a.key
    && s.lease.role == (if call.Discovering() then DISCOVER else REQUEST)
    && (call.Discovering() ==> NotYetOffer(s.lease))
  }

  /** A lease that is still to be stored is the one its call waits for. */
  ghost predicate UnsetSafe(st: State, i: LeaseId)
    requires i < |st.heap|
  {
    st.heap[i].write.Unset? ==>
      && st.heap[i].owner < |st.calls|
      && var call := st.calls[st.heap[i].owner];
         call.phase.Waiting? && call.attempt.Some? && call.attempt.value.lease == i
  }

  /** A lease put on the result channel of call c. */
  ghost predicate ResultSafe(st: State, c: CallId, l: LeaseId)
    requires c < |st.calls| && l < |st.heap|
  {
    var s := st.heap[l];
    && s.owner == c
    && s.lease.role == REQUEST
    && (s.lease.accepted.Some? || s.lease.signals > 0)
    && s.origin == st.calls[c].offer
    && (st.calls[c].kind == GetLease ==> s.origin.Some?)
  }

  ghost predicate CallSafe(st: State, c: CallId)
    requires Wf(st) && c < |st.calls|
  {
    var call := st.calls[c];
    && (call.attempt.Some? ==> AttemptSafe(st, c))
    && (call.offer.Some? ==> call.kind == GetLease && IsOffer(st, call.offer.value, c))
    && (call.phase.Finished? && call.phase.result.Some? ==> ResultSafe(st, c, call.phase.result.value))
  }

  ghost predicate KeysDistinct(st: State)
    requires Wf(st)
  {
    forall c, d | 0 <= c < d < |st.calls| && Key(st, c).Some? :: Key(st, c) != Key(st, d)
  }

  ghost predicate Inv(st: State) {
    && Basic(st)
    && (forall i | 0 <= i < |st.heap| :: SlotSafe(st, i) && UnsetSafe(st, i))
    && (forall c | 0 <= c < |st.calls| :: CallSafe(st, c))
    && KeysDistinct(st)
  }

  // ---------- frames ----------

  /** A later heap: no slot is lost, owner, role, origin, xid and any accepted reply stay, and signals are not taken back. */
  ghost predicate HeapGrows(h: seq<Slot>, h': seq<Slot>) {
    && |h| <= |h'|
    && forall i | 0 <= i < |h| ::
         && h'[i].owner == h[i].owner && h'[i].origin == h[i].origin
         && h'[i].lease.role == h[i].lease.role && h'[i].lease.xid == h[i].lease.xid
         && (h'[i].write.Unset? ==> h[i].write.Unset?)
         && h[i].lease.signals <= h'[i].lease.signals
         && (h[i].lease.accepted.Some? ==> h'[i].lease.accepted == h[i].lease.accepted)
  }

  /** The call itself does not change, and its store entry at most goes away. */
  ghost predicate CallKeeps(st: State, st': State, c: CallId)
    requires Wf(st) && Wf(st') && c < |st.calls| && c < |st'.calls|
  {
    && st'.calls[c] == st.calls[c].(cancelled := st'.calls[c].cancelled)
    && (st.calls[c].attempt.Some? && st.calls[c].attempt.value.lease < |st'.heap| ==>
          var l := st.calls[c].attempt.value.lease;
          && (st.heap[l].write.Unset? ==> st'.heap[l].write.Unset?)
          && (st.calls[c].Discovering() && NotYetOffer(st.heap[l].lease) ==> NotYetOffer(st'.heap[l].lease)))
    && (forall k | Key(st, c) == Some(k) && k in st'.store :: k in st.store && st'.store[k] == st.store[k])
  }

  lemma CallFrame(st: State, st': State, c: CallId)
    requires Wf(st) && Wf(st') && c < |st.calls| && c < |st'.calls|
    requires HeapGrows(st.heap, st'.heap) && CallKeeps(st, st', c) && CallSafe(st, c)
    ensures CallSafe(st', c) && Key(st', c) == Key(st, c)
  {
    var call := st.calls[c];
    if call.attempt.Some? {
      assert AttemptSafe(st, c);
      assert Key(st, c) == Some(call.attempt.value.key);
    }
    if call.phase.Finished? && call.phase.result.Some? {
      assert ResultSafe(st, c, call.phase.result.value);
    }
  }

  lemma SlotFrame(st: State, st': State, i: LeaseId)
    requires i < |st.heap| && HeapGrows(st.heap, st'.heap)
    requires SlotSafe(st, i) && LeaseSafe(st'.heap[i].lease)
    ensures SlotSafe(st', i)
  {
  }

  /** A step that makes no lease and no call keeps the invariant if it treats the one call it changes, c, well. */
  lemma FrameInv(st: State, st': State, c: CallId)
    requires Inv(st) && Basic(st')
    requires |st'.heap| == |st.heap| && HeapGrows(st.heap, st'.heap) && |st'.calls| == |st.calls|
    requires forall i | 0 <= i < |st'.heap| :: LeaseSafe(st'.heap[i].lease)
    requires forall d | 0 <= d < |st.calls| && d != c :: CallKeeps(st, st', d)
    requires c < |st.calls| ==>
               && CallSafe(st', c)
               && (Key(st', c) == Key(st, c) || Key(st', c).None?)
               && (st.calls[c].attempt.Some? ==> !st'.heap[st.calls[c].attempt.value.lease].write.Unset?)
    ensures Inv(st')
  {
    forall i | 0 <= i < |st'.heap| ensures SlotSafe(st', i) && UnsetSafe(st', i) {
      assert SlotSafe(st, i) && UnsetSafe(st, i);
      SlotFrame(st, st', i);
      var d := st.heap[i].owner;
      if st'.heap[i].write.Unset? && d != c { assert CallKeeps(st, st', d); }
    }
    forall d | 0 <= d < |st'.calls| && d != c ensures CallSafe(st', d) && Key(st', d) == Key(st, d) {
      CallFrame(st, st', d);
    }
  }

  // ---------- the steps ----------

  /** Steps that leave store, heap and all calls alone, apart from the cancellation of a call. */
  lemma QuietStep(st: State, st': State)
    requires Inv(st) && Basic(st')
    requires st'.store == st.store && st'.heap == st.heap && |st'.calls| == |st.calls|
    requires forall c | 0 <= c < |st.calls| :: st'.calls[c] == st.calls[c].(cancelled := st'.calls[c].cancelled)
    ensures Inv(st')
  {
    forall i | 0 <= i < |st'.heap| ensures LeaseSafe(st'.heap[i].lease) { assert SlotSafe(st, i); }
    forall d | 0 <= d < |st.calls| ensures CallKeeps(st, st', d) { }
    FrameInv(st, st', |st.calls|);
  }

  /** Steps of one call that keep its try and its key and move only its phase. */
  lemma PhaseStep(st: State, st': State, c: CallId)
    requires Inv(st) && Basic(st')
    requires st'.store == st.store && st'.heap == st.heap
    requires |st'.calls| == |st.calls| && c < |st.calls|
    requires forall d | 0 <= d < |st.calls| && d != c :: st'.calls[d] == st.calls[d]
    requires st.calls[c].Active() && !st.heap[st.calls[c].attempt.value.lease].write.Unset?
    requires st'.calls[c].kind == st.calls[c].kind && st'.calls[c].offer == st.calls[c].offer
    requires || (st'.calls[c].attempt == st.calls[c].attempt && (st'.calls[c].Active() || (st'.calls[c].phase.Ready? && st.calls[c].offer.Some?)))
             || (st'.calls[c].attempt.None? && st'.calls[c].phase == Finished(None))
             || (st'.calls[c].attempt.None? && st'.calls[c].phase.Ready? && st.calls[c].offer.None?)
    ensures Inv(st')
  {
    forall i | 0 <= i < |st'.heap| ensures LeaseSafe(st'.heap[i].lease) { assert SlotSafe(st, i); }
    forall d | 0 <= d < |st.calls| && d != c ensures CallKeeps(st, st', d) { }
    assert CallSafe(st, c);
    FrameInv(st, st', c);
  }

  lemma StartTryInv(st: State, c: CallId, role: MsgType, xid: Xid, began: nat, origin: Option<LeaseId>)
    requires Inv(st) && c < |st.calls| && st.calls[c].phase.Ready?
    requires origin == st.calls[c].offer
    requires role == if st.calls[c].Discovering() then DISCOVER else REQUEST
    requires origin.Some? ==> Key(st, c) == Some(xid) && st.heap[origin.value].lease.xid == xid
    requires origin.None? ==> forall d | 0 <= d < |st.calls| :: Key(st, d) != Some(xid)
    ensures Inv(StartTry(st, c, role, xid, xid, began, origin))
  {
    var st' := StartTry(st, c, role, xid, xid, began, origin);
    StartTryBasic(st, c, role, xid, xid, began, origin);
    assert CallSafe(st, c);
    forall i | 0 <= i < |st'.heap| ensures SlotSafe(st', i) && UnsetSafe(st', i) {
      if i < |st.heap| {
        assert SlotSafe(st, i) && UnsetSafe(st, i);
        SlotFrame(st, st', i);
      }
    }
    assert AttemptSafe(st', c);
    forall d | 0 <= d < |st'.calls| && d != c
      ensures CallSafe(st', d) && Key(st', d) == Key(st, d) && Key(st, d) != Some(xid)
    {
      assert CallKeeps(st, st', d);
      CallFrame(st, st', d);
    }
    assert Key(st', c) == Some(xid);
  }

  /** The goroutine of call c stores its lease. */
  lemma PutInv(cfg: Config, st: State, l: LeaseId)
    requires Inv(st) && l < |st.heap| && st.heap[l].write.Unset?
    ensures Inv(AfterPut(cfg, st, l))
  {
    var st' := AfterPut(cfg, st, l);
    PutBasic(cfg, st, l);
    assert SlotSafe(st, l) && UnsetSafe(st, l);
    var c := st.heap[l].owner;
    assert CallSafe(st, c) && AttemptSafe(st, c) && AttemptSafe(st', c);
    forall i | 0 <= i < |st'.heap| ensures LeaseSafe(st'.heap[i].lease) { assert SlotSafe(st, i); }
    forall d | 0 <= d < |st.calls| && d != c ensures CallKeeps(st, st', d) {
      assert CallSafe(st, d) && Key(st, c) == Some(st.heap[l].lease.xid) && Key(st, d) != Key(st, c);
    }
    FrameInv(st, st', c);
  }

  /** `request` retypes the offer, which is no other call's lease. */
  lemma RetypeInv(st: State, c: CallId)
    requires Inv(st) && c < |st.calls| && st.calls[c].offer.Some?
    ensures var o := st.calls[c].offer.value;
            Inv(WithSlot(st, o, st.heap[o].(lease := st.heap[o].lease.(msgType := REQUEST))))
  {
    var o := st.calls[c].offer.value;
    var s := st.heap[o];
    var slot := s.(lease := s.lease.(msgType := REQUEST));
    var st' := WithSlot(st, o, slot);
    assert CallSafe(st, c) && SlotSafe(st, o) && SlotBasic(s);
    WithSlotBasic(st, o, slot);
    forall i | 0 <= i < |st'.heap| ensures LeaseSafe(st'.heap[i].lease) { assert SlotSafe(st, i); }
    forall d | 0 <= d < |st.calls| ensures CallKeeps(st, st', d) {
      assert CallSafe(st, d);
    }
    FrameInv(st, st', |st.calls|);
  }

  lemma BeginRequestInv(cfg: Config, st: State, c: CallId, began: nat)
    requires Inv(st) && Enabled(cfg, st, BeginRequest(c, began))
    ensures Inv(AfterBeginRequest(st, c, began))
  {
    var o := st.calls[c].offer.value;
    RetypeInv(st, c);
    var st1 := WithSlot(st, o, st.heap[o].(lease := st.heap[o].lease.(msgType := REQUEST)));
    assert CallSafe(st1, c);
    if st.calls[c].attempt.Some? {
      var a := st.calls[c].attempt.value;
      assert AttemptSafe(st, c) && SlotSafe(st, a.lease);
    }
    StartTryInv(st1, c, REQUEST, st.heap[o].lease.xid, began, Some(o));
  }

  lemma ApplyInv(st: State)
    requires Inv(st) && st.receiver.Holding?
    ensures Inv(AfterApply(st))
  {
    var l := st.receiver.lease;
    var st' := AfterApply(st);
    ApplyBasic(st);
    assert SlotSafe(st, l) && SlotBasic(st.heap[l]);
    forall i | 0 <= i < |st'.heap| ensures LeaseSafe(st'.heap[i].lease) { assert SlotSafe(st, i); }
    forall d | 0 <= d < |st.calls| ensures CallKeeps(st, st', d) { assert CallSafe(st, d); }
    FrameInv(st, st', |st.calls|);
  }

  /** The call takes the lease of its own try and its store entry. */
  lemma ObtainInv(st: State, st': State, c: CallId)
    requires Inv(st) && c < |st.calls| && st.calls[c].Active()
    requires var l := st.calls[c].attempt.value.lease;
             && !st.heap[l].write.Unset?
             && (st.heap[l].lease.accepted.Some? || st.heap[l].lease.signals > 0)
             && st' == WithCall(WithSlot(st, l, st.heap[l].(lease := TakeToken(st.heap[l].lease)))
                                .(store := Removed(st.store, st.heap[l].lease.xid)),
                                c, Obtain(st.calls[c], l, !st.heap[l].lease.error, st.now))
    requires Basic(st')
    ensures Inv(st')
  {
    var a := st.calls[c].attempt.value;
    assert CallSafe(st, c) && AttemptSafe(st, c) && SlotSafe(st, a.lease);
    forall i | 0 <= i < |st'.heap| ensures LeaseSafe(st'.heap[i].lease) { assert SlotSafe(st, i); }
    forall d | 0 <= d < |st.calls| && d != c ensures CallKeeps(st, st', d) {
      assert Key(st, c) == Some(a.key) && Key(st, d) != Some(a.key);
    }
    FrameInv(st, st', c);
  }

  lemma DeliverInv(cfg: Config, st: State, c: CallId)
    requires Inv(st) && Enabled(cfg, st, Deliver(c))
    ensures Inv(AfterDeliver(st, c))
  {
    DeliverBasic(st, c);
    assert SlotBasic(st.heap[st.calls[c].attempt.value.lease]);
    ObtainInv(st, AfterDeliver(st, c), c);
  }

  lemma WakeInv(cfg: Config, st: State, c: CallId)
    requires Inv(st) && Enabled(cfg, st, Wake(c))
    ensures Inv(AfterWake(st, c))
  {
    WakeBasic(st, c);
    var call := st.calls[c];
    var a := call.attempt.value;
    var st' := AfterWake(st, c);
    assert CallSafe(st, c) && AttemptSafe(st, c) && SlotSafe(st, a.lease);
    if a.key in st.store && Expected(call, st.heap[a.lease].lease.msgType) {
      assert EntryBasic(st, a.key);
      assert TakeToken(st.heap[a.lease].lease) == st.heap[a.lease].lease;
      assert st.heap[a.lease := st.heap[a.lease]] == st.heap;
      ObtainInv(st, st', c);
    } else {
      PhaseStep(st, st', c);
    }
  }

  lemma SweepInv(st: State)
    requires Inv(st) && st.cleaner.Snapshotted? && st.crash.None?
    ensures Inv(AfterSweep(st))
  {
    var st' := AfterSweep(st);
    SweepBasic(st);
    forall i | 0 <= i < |st'.heap| ensures LeaseSafe(st'.heap[i].lease) { assert SlotSafe(st, i); }
    forall d | 0 <= d < |st.calls| ensures CallKeeps(st, st', d) { }
    FrameInv(st, st', |st.calls|);
  }

  /** Steps of the sender: its lease and the calls stay, an entry may go. */
  lemma SendInv(st: State, st': State)
    requires Inv(st) && Basic(st') && |st'.heap| == |st.heap| && st'.calls == st.calls
    requires forall i | 0 <= i < |st.heap| ::
               && st'.heap[i] == st.heap[i].(write := st'.heap[i].write, failed := st'.heap[i].failed)
               && (st'.heap[i].write.Unset? <==> st.heap[i].write.Unset?)
    requires forall k | k in st'.store :: k in st.store && st'.store[k] == st.store[k]
    ensures Inv(st')
  {
    forall i | 0 <= i < |st'.heap| ensures LeaseSafe(st'.heap[i].lease) { assert SlotSafe(st, i); }
    forall d | 0 <= d < |st.calls| ensures CallKeeps(st, st', d) { }
    FrameInv(st, st', |st.calls|);
  }

  lemma OpenInv(cfg: Config, st: State, step: Step)
    requires Inv(st) && step.Open? && Enabled(cfg, st, step)
    ensures Inv(Next(cfg, st, step))
  {
    var st' := Next(cfg, st, step);
    FrameBasic(st, st');
    forall i | 0 <= i < |st'.heap| ensures SlotSafe(st', i) && UnsetSafe(st', i) {
      assert SlotSafe(st, i) && UnsetSafe(st, i);
      SlotFrame(st, st', i);
    }
    forall d | 0 <= d < |st.calls| ensures CallSafe(st', d) && Key(st', d) == Key(st, d) {
      assert CallKeeps(st, st', d);
      CallFrame(st, st', d);
    }
  }

  /** Steps that move a call from waiting to sleeping, or end it. */
  lemma PhaseInv(cfg: Config, st: State, step: Step)
    requires Inv(st) && Enabled(cfg, st, step) && StoredFirst(st, step)
    requires step.Timeout? || step.Block? || step.GiveUp?
    ensures Inv(Next(cfg, st, step))
  {
    BasicStep(cfg, st, step);
    assert CallSafe(st, step.c) && AttemptSafe(st, step.c);
    PhaseStep(st, Next(cfg, st, step), step.c);
  }

  /** The steps of a call. */
  predicate CallStep(step: Step) {
    || step.Open? || step.Begin? || step.BeginRequest? || step.Deliver? || step.Timeout? || step.Block?
    || step.Wake? || step.GiveUp?
  }

  lemma CallStepInv(cfg: Config, st: State, step: Step)
    requires Inv(st) && Enabled(cfg, st, step) && CallStep(step)
    requires XidFresh(st, step) && StoredFirst(st, step)
    ensures Inv(Next(cfg, st, step))
  {
    if step.Open? {
      OpenInv(cfg, st, step);
    } else if step.Begin? {
      assert CallSafe(st, step.c);
      StartTryInv(st, step.c, if st.calls[step.c].kind == GetLease then DISCOVER else REQUEST, step.xid, step.began, None);
    } else if step.BeginRequest? {
      BeginRequestInv(cfg, st, step.c, step.began);
    } else if step.Deliver? {
      DeliverInv(cfg, st, step.c);
    } else if step.Wake? {
      WakeInv(cfg, st, step.c);
    } else {
      PhaseInv(cfg, st, step);
    }
  }

  /** The steps of the sender, the receiver, the cleaner and the clock. */
  lemma OtherStepInv(cfg: Config, st: State, step: Step)
    requires Inv(st) && Enabled(cfg, st, step) && !CallStep(step)
    ensures Inv(Next(cfg, st, step))
  {
    BasicStep(cfg, st, step);
    if step.Put? {
      PutInv(cfg, st, step.l);
    } else if step.Apply? {
      ApplyInv(st);
    } else if step.Sweep? {
      SweepInv(st);
    } else if SendStep(step) {
      SendInv(st, Next(cfg, st, step));
    } else {
      QuietStep(st, Next(cfg, st, step));
    }
  }

  lemma {:induction false} InvRun(cfg: Config, run: Run, n: nat)
    requires Orderly(cfg, run) && n <= |run.steps|
    ensures Inv(run.states[n])
  {
    if n > 0 {
      InvRun(cfg, run, n - 1);
      assert run.Linked(cfg, n - 1);
      var st, step := run.states[n - 1], run.steps[n - 1];
      if CallStep(step) { CallStepInv(cfg, st, step); } else { OtherStepInv(cfg, st, step); }
    }
  }
}
