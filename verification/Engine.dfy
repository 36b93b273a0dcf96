/**
 * The transaction engine of the DHCP client as a labelled step system.
 *
 * Any number of `GetLease` and `Renew` calls run at once over one lease store, one receiver goroutine,
 * one cleaner goroutine and one send gate (`outmux`). Every label below is one atomic action of one
 * goroutine; the run-time panics of the code are explicit `Crash` states.
 */
module Engine {
  import opened Wrappers
  import opened Messages
  import opened Leases
  import opened StoreSpec

  type LeaseId = nat
  type CallId = nat

  /** `ttl` of the store, per-try `timeout` and `retry` pause of the client. */
  datatype Config = Config(ttl: nat, timeout: nat, retry: nat)

  /**
   * Progress of the goroutine that sends the packet of a lease: the lease is made but not yet in the
   * store, it is stored, it is inside the critical section of the connection, it has left it.
   */
  datatype Write = Unset | Pending | Writing | Written | Aborted

  /** A lease object on the heap, with the call that made it and, for a request, the offer it answers. */
  datatype Slot = Slot(lease: Lease, owner: CallId, origin: Option<LeaseId>, write: Write, failed: bool)

  datatype Kind = GetLease | Renew

  /** One try: the lease it waits for, the xid the caller remembers, and when its timer began. */
  datatype Attempt = Attempt(lease: LeaseId, key: Xid, began: nat)

  datatype Phase =
    | Ready(readyAt: nat)        // about to start the next try
    | Waiting                    // in `wait`
    | Queued                     // timed out, in `Block`, queued for the gate
    | Asleep(since: nat)         // in `sleep`, holding the gate
    | Finished(result: Option<LeaseId>)

  /**
   * `offer` is the Go variable `lease` after the discover loop. `attempt` is the current try; it stays
   * set between two tries of the request loop, because both use the same xid. `sends` and
   * `failures` count tries and retries.
   */
  datatype Call = Call(
    kind: Kind,
    start: nat,
    deadline: nat,
    cancelled: bool,
    offer: Option<LeaseId>,
    attempt: Option<Attempt>,
    phase: Phase,
    sends: nat,
    failures: nat)
  {
    predicate Discovering() { kind == GetLease && offer.None? }
    predicate Active() { phase.Waiting? || phase.Queued? || phase.Asleep? }
  }

  /** The receiver holds the lock of a lease between the lookup of a reply and its application. */
  datatype Receiver = Idle | Holding(lease: LeaseId, reply: Reply)

  /** `Clean` between its two critical sections. */
  datatype Cleaner = Resting | Snapshotted(keys: set<Xid>)

  datatype Gate = Free | Writer(lease: LeaseId) | Blocker(call: CallId)

  datatype Crash =
    | NilLease       // `error` dereferences the result of a failed lookup
    | NilPacket      // a caller reads the packet of a lease that only carries a send error
    | EmptyType      // `GetMsgType` reads the first byte of an empty option
    | DoubleClose    // `close(lease.Done)` on a closed channel
    | SendOnClosed   // `Clean` sends on a closed channel

  datatype State = State(
    now: nat,
    store: map<Xid, Item<LeaseId>>,
    heap: seq<Slot>,
    calls: seq<Call>,
    receiver: Receiver,
    cleaner: Cleaner,
    gate: Gate,
    crash: Option<Crash>)

  const INIT := State(0, map[], [], [], Idle, Resting, Free, None)

  datatype Step =
    | Tick(to: nat)
    | Open(kind: Kind, deadline: nat)
    | Cancel(c: CallId)
    | Begin(c: CallId, xid: Xid, spare: Xid, began: nat)
    | BeginRequest(c: CallId, began: nat)
    | Put(l: LeaseId)
    | LockSend(l: LeaseId)
    | WriteSend(l: LeaseId)
    | AbortSend(l: LeaseId)
    | SendError(l: LeaseId)
    | Lookup(reply: Reply)
    | Apply
    | Deliver(c: CallId)
    | DeliverError(c: CallId)
    | Timeout(c: CallId)
    | Block(c: CallId)
    | Wake(c: CallId)
    | GiveUp(c: CallId)
    | Unblock
    | TakeSnapshot
    | Sweep

  // ---------- well-formed references ----------

  predicate CallWf(call: Call, size: nat) {
    && (call.Active() ==> call.attempt.Some?)
    && (call.attempt.Some? ==> call.attempt.value.lease < size)
    && (call.offer.Some? ==> call.offer.value < size)
    && (call.phase.Finished? && call.phase.result.Some? ==> call.phase.result.value < size)
  }

  predicate StoreWf(store: map<Xid, Item<LeaseId>>, size: nat) {
    forall k | k in store :: store[k].lease < size
  }

  predicate Wf(st: State) {
    && StoreWf(st.store, |st.heap|)
    && (forall c | 0 <= c < |st.calls| :: CallWf(st.calls[c], |st.heap|))
    && (st.receiver.Holding? ==> st.receiver.lease < |st.heap|)
    && (st.gate.Writer? ==> st.gate.lease < |st.heap|)
    && (st.gate.Blocker? ==> st.gate.call < |st.calls|)
  }

  // ---------- guards ----------

  predicate CtxDone(st: State, call: Call) {
    call.cancelled || st.now >= call.deadline
  }

  /** The message types for which `error` and `Renew` take a lease out of the store after the pause. */
  predicate Expected(call: Call, t: MsgType) {
    if call.Discovering() then t == OFFER else t == ACK || t == NAK
  }

  /** Keys of the snapshot that are still in the store when the second section of `Clean` runs. */
  function Doomed(st: State): set<Xid> {
    if st.cleaner.Snapshotted? then set k | k in st.cleaner.keys && k in st.store else {}
  }

  /** `Done <- true` does not block: the channel is empty, or closed (and then the send panics). */
  predicate SweepRuns(st: State, k: Xid)
    requires Wf(st) && k in st.store
  {
    var l := st.heap[st.store[k].lease].lease;
    l.tokens == 0 || l.closed
  }

  predicate Enabled(cfg: Config, st: State, step: Step)
    requires Wf(st)
  {
    && st.crash.None?
    && match step
       case Tick(to) => st.now <= to
       case Open(_, deadline) => st.now <= deadline
       case Cancel(c) => c < |st.calls|
       case Begin(c, xid, spare, began) =>
         && c < |st.calls| && st.calls[c].phase.Ready?
         && (st.calls[c].Discovering() || st.calls[c].kind == Renew)
         && spare != 0
         && st.calls[c].phase.readyAt <= began <= st.now
       case BeginRequest(c, began) =>
         && c < |st.calls| && st.calls[c].phase.Ready?
         && st.calls[c].kind == GetLease && st.calls[c].offer.Some?
         && st.calls[c].phase.readyAt <= began <= st.now
       case Put(l) => l < |st.heap| && st.heap[l].write.Unset?
       case LockSend(l) => l < |st.heap| && st.heap[l].write.Pending? && st.gate.Free?
       case WriteSend(l) => l < |st.heap| && st.heap[l].write.Writing? && st.gate == Writer(l)
       case AbortSend(l) => l < |st.heap| && st.heap[l].write.Writing? && st.gate == Writer(l)
       case SendError(l) => l < |st.heap| && !st.heap[l].write.Unset? && !st.heap[l].failed
       case Lookup(_) => st.receiver.Idle?
       case Apply => st.receiver.Holding?
       case Deliver(c) =>
         && c < |st.calls| && st.calls[c].phase.Waiting?
         && var s := st.heap[st.calls[c].attempt.value.lease];
            s.write.Written? && !s.failed && (s.lease.closed || s.lease.tokens > 0)
       case DeliverError(c) =>
         && c < |st.calls| && st.calls[c].phase.Waiting?
         && st.heap[st.calls[c].attempt.value.lease].failed
       case Timeout(c) =>
         && c < |st.calls| && st.calls[c].phase.Waiting?
         && (CtxDone(st, st.calls[c]) || st.now >= st.calls[c].attempt.value.began + cfg.timeout)
       case Block(c) => c < |st.calls| && st.calls[c].phase.Queued? && st.gate.Free?
       case Wake(c) =>
         && c < |st.calls| && st.calls[c].phase.Asleep?
         && st.now >= st.calls[c].phase.since + cfg.retry
         && !(var k := st.calls[c].attempt.value.key;
              k in st.store && st.receiver.Holding? && st.receiver.lease == st.store[k].lease)
       case GiveUp(c) => c < |st.calls| && st.calls[c].phase.Asleep? && CtxDone(st, st.calls[c])
       case Unblock => st.gate.Blocker? && (!st.calls[st.gate.call].phase.Asleep? || CtxDone(st, st.calls[st.gate.call]))
       case TakeSnapshot => st.cleaner.Resting?
       case Sweep =>
         && st.cleaner.Snapshotted?
         && (forall k | k in Doomed(st) :: SweepRuns(st, k))
  }

  // ---------- effects ----------

  function Crashed(st: State, why: Crash): State {
    st.(crash := Some(why))
  }

  function WithCall(st: State, c: CallId, call: Call): (st': State)
    requires Wf(st) && c < |st.calls| && CallWf(call, |st.heap|)
    ensures Wf(st')
  {
    st.(calls := st.calls[c := call])
  }

  function WithSlot(st: State, l: LeaseId, s: Slot): (st': State)
    requires Wf(st) && l < |st.heap|
    ensures Wf(st')
  {
    st.(heap := st.heap[l := s])
  }

  function Finish(call: Call, result: Option<LeaseId>): Call {
    call.(attempt := None, phase := Finished(result))
  }

  /** `GetLease` and `Renew` have the lease they waited for: go on to the request, or put it on the channel. */
  function Obtain(call: Call, l: LeaseId, ok: bool, now: nat): Call {
    if call.Discovering() && ok then
      call.(offer := Some(l), attempt := None, phase := Ready(now))
    else
      Finish(call, Some(l))
  }

  /** Start of a try: a new lease of the given role and xid, for a goroutine that will store and send it. */
  function StartTry(st: State, c: CallId, role: MsgType, xid: Xid, key: Xid, began: nat, origin: Option<LeaseId>): (st': State)
    requires Wf(st) && c < |st.calls|
    ensures Wf(st')
  {
    var l := |st.heap|;
    var call := st.calls[c];
    st.(heap := st.heap + [Slot(NewLease(role, xid), c, origin, Unset, false)],
        calls := st.calls[c := call.(attempt := Some(Attempt(l, key, began)), phase := Waiting,
                                     sends := call.sends + 1)])
  }

  /** `store.Set` of the goroutine that is about to send lease l. */
  function AfterPut(cfg: Config, st: State, l: LeaseId): (st': State)
    requires Wf(st) && l < |st.heap|
    ensures Wf(st')
  {
    var s := st.heap[l];
    WithSlot(st, l, s.(write := Pending)).(store := Stored(st.store, s.lease.xid, l, s.lease.msgType, st.now, cfg.ttl))
  }

  /** `GetLease` keeps the xid it drew although `NewPackage` replaces a zero; `Renew` reads the packet's. */
  function AfterBegin(st: State, c: CallId, xid: Xid, spare: Xid, began: nat): (st': State)
    requires Wf(st) && c < |st.calls|
    ensures Wf(st')
  {
    var actual := if xid == 0 then spare else xid;
    if st.calls[c].kind == GetLease then
      StartTry(st, c, DISCOVER, actual, xid, began, None)
    else
      StartTry(st, c, REQUEST, actual, actual, began, None)
  }

  /** `request` builds a new lease from the offer and rewrites the message type of the offer. */
  function AfterBeginRequest(st: State, c: CallId, began: nat): (st': State)
    requires Wf(st) && c < |st.calls| && st.calls[c].offer.Some?
    ensures Wf(st')
  {
    var o := st.calls[c].offer.value;
    var s := st.heap[o];
    var st1 := WithSlot(st, o, s.(lease := s.lease.(msgType := REQUEST)));
    StartTry(st1, c, REQUEST, s.lease.xid, s.lease.xid, began, Some(o))
  }

  function AfterSendError(st: State, l: LeaseId): (st': State)
    requires Wf(st) && l < |st.heap|
    ensures Wf(st')
  {
    var s := st.heap[l];
    var st1 := WithSlot(st, l, s.(failed := true));
    if s.lease.role == DISCOVER then st1.(store := Removed(st.store, s.lease.xid)) else st1
  }

  function AfterApply(st: State): (st': State)
    requires Wf(st) && st.receiver.Holding?
    ensures Wf(st')
  {
    var l := st.receiver.lease;
    var s := st.heap[l];
    match Receive(s.lease, st.receiver.reply)
    case NoType => Crashed(st, EmptyType)
    case ClosedTwice => Crashed(st, DoubleClose)
    case Taken(lease) => WithSlot(st, l, s.(lease := lease)).(receiver := Idle)
  }

  function AfterDeliver(st: State, c: CallId): (st': State)
    requires Wf(st) && c < |st.calls| && st.calls[c].phase.Waiting?
    ensures Wf(st')
  {
    var l := st.calls[c].attempt.value.lease;
    var s := st.heap[l];
    WithCall(WithSlot(st, l, s.(lease := TakeToken(s.lease))).(store := Removed(st.store, s.lease.xid)),
             c, Obtain(st.calls[c], l, !s.lease.error, st.now))
  }

  /** The lookup after the pause: take a late answer, or try again. */
  function AfterWake(st: State, c: CallId): (st': State)
    requires Wf(st) && c < |st.calls| && st.calls[c].phase.Asleep?
    ensures Wf(st')
  {
    var call := st.calls[c];
    var k := call.attempt.value.key;
    if k in st.store && Expected(call, st.heap[st.store[k].lease].lease.msgType) then
      var l := st.store[k].lease;
      WithCall(st.(store := Removed(st.store, st.heap[l].lease.xid)),
               c, Obtain(call, l, !st.heap[l].lease.error, st.now))
    else if k !in st.store && call.kind == GetLease then
      Crashed(st, NilLease)
    else
      WithCall(st, c, call.(attempt := if call.offer.Some? then call.attempt else None,
                            phase := Ready(st.now), failures := call.failures + 1))
  }

  /** A slot after the second section of `Clean`: signalled if its entry is swept. */
  function SweptSlot(st: State, i: LeaseId): Slot
    requires i < |st.heap|
  {
    if exists k | k in Doomed(st) :: st.store[k].lease == i
    then st.heap[i].(lease := Signal(st.heap[i].lease))
    else st.heap[i]
  }

  /** The second section of `Clean`: signal and delete every key of the snapshot that is still there. */
  function AfterSweep(st: State): (st': State)
    requires Wf(st)
    ensures Wf(st')
  {
    if exists k | k in Doomed(st) :: st.heap[st.store[k].lease].lease.closed then
      Crashed(st, SendOnClosed)
    else
      st.(heap := seq(|st.heap|, i requires 0 <= i < |st.heap| => SweptSlot(st, i)),
          store := st.store - Doomed(st),
          cleaner := Resting)
  }

  function Next(cfg: Config, st: State, step: Step): (st': State)
    requires Wf(st) && Enabled(cfg, st, step)
    ensures Wf(st')
  {
    match step
    case Tick(to) => st.(now := to)
    case Open(kind, deadline) =>
      st.(calls := st.calls + [Call(kind, st.now, deadline, false, None, None, Ready(st.now), 0, 0)])
    case Cancel(c) => WithCall(st, c, st.calls[c].(cancelled := true))
    case Begin(c, xid, spare, began) => AfterBegin(st, c, xid, spare, began)
    case BeginRequest(c, began) => AfterBeginRequest(st, c, began)
    case Put(l) => AfterPut(cfg, st, l)
    case LockSend(l) => WithSlot(st, l, st.heap[l].(write := Writing)).(gate := Writer(l))
    case WriteSend(l) => WithSlot(st, l, st.heap[l].(write := Written)).(gate := Free)
    case AbortSend(l) => WithSlot(st, l, st.heap[l].(write := Aborted)).(gate := Free)
    case SendError(l) => AfterSendError(st, l)
    case Lookup(reply) =>
      if reply.xid in st.store then st.(receiver := Holding(st.store[reply.xid].lease, reply)) else st
    case Apply => AfterApply(st)
    case Deliver(c) => AfterDeliver(st, c)
    case DeliverError(c) => Crashed(st, NilPacket)
    case Timeout(c) => WithCall(st, c, st.calls[c].(phase := Queued))
    case Block(c) => WithCall(st, c, st.calls[c].(phase := Asleep(st.now))).(gate := Blocker(c))
    case Wake(c) => AfterWake(st, c)
    case GiveUp(c) => WithCall(st, c, Finish(st.calls[c], None))
    case Unblock => st.(gate := Free)
    case TakeSnapshot => st.(cleaner := Snapshotted(Outdated(st.store, st.now)))
    case Sweep => AfterSweep(st)
  }

  // ---------- runs ----------

  /** A run: the steps taken and the states before, between and after them. */
  datatype Run = Run(steps: seq<Step>, states: seq<State>) {
    ghost predicate Linked(cfg: Config, n: nat)
      requires |states| == |steps| + 1 && n < |steps|
    {
      Wf(states[n]) && Enabled(cfg, states[n], steps[n]) && states[n + 1] == Next(cfg, states[n], steps[n])
    }

    /** The states start at INIT and each follows from the one before by the step between them. */
    ghost predicate Valid(cfg: Config) {
      && |states| == |steps| + 1
      && states[0] == INIT
      && (forall n {:trigger Linked(cfg, n)} | 0 <= n < |steps| :: Linked(cfg, n))
    }
  }
}
