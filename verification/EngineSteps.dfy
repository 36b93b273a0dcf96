/** What single steps do in every run: when waits, pauses and calls end, and what leaves the store with them. */
module EngineSteps {
  import opened Wrappers
  import opened Messages
  import opened Engine
  import opened EngineBasics

  // ---------- which call a step moves ----------

  /** The call a step is taken by, if it is the step of a call. */
  function Mover(step: Step): Option<CallId> {
    match step
    case Cancel(c) => Some(c)
    case Begin(c, _, _, _) => Some(c)
    case BeginRequest(c, _) => Some(c)
    case Deliver(c) => Some(c)
    case Timeout(c) => Some(c)
    case Block(c) => Some(c)
    case Wake(c) => Some(c)
    case GiveUp(c) => Some(c)
    case _ => None
  }

  lemma MovesAloneTry(cfg: Config, st: State, step: Step, c: CallId)
    requires Wf(st) && Enabled(cfg, st, step) && c < |st.calls| && Mover(step) != Some(c)
    requires step.Begin? || step.BeginRequest? || step.Deliver? || step.Wake?
    ensures c < |Next(cfg, st, step).calls| && Next(cfg, st, step).calls[c] == st.calls[c]
  {
  }

  /** A call changes only by its own steps. */
  lemma MovesAlone(cfg: Config, st: State, step: Step, c: CallId)
    requires Wf(st) && Enabled(cfg, st, step) && c < |st.calls| && Mover(step) != Some(c)
    ensures c < |Next(cfg, st, step).calls| && Next(cfg, st, step).calls[c] == st.calls[c]
  {
    if step.Begin? || step.BeginRequest? || step.Deliver? || step.Wake? {
      MovesAloneTry(cfg, st, step, c);
    } else if step.Sweep? {
      assert AfterSweep(st).calls == st.calls;
    }
  }

  lemma KeepsIdentityTry(cfg: Config, st: State, step: Step, c: CallId)
    requires Wf(st) && Enabled(cfg, st, step) && c < |st.calls|
    requires step.Begin? || step.BeginRequest? || step.Deliver? || step.Wake?
    ensures c < |Next(cfg, st, step).calls|
    ensures var call, call' := st.calls[c], Next(cfg, st, step).calls[c];
            call'.kind == call.kind && call'.start == call.start && call'.deadline == call.deadline && call'.cancelled == call.cancelled
  {
  }

  /** Kind, start and deadline of a call stay, and only `Cancel` cancels it. */
  lemma KeepsIdentity(cfg: Config, st: State, step: Step, c: CallId)
    requires Wf(st) && Enabled(cfg, st, step) && c < |st.calls|
    ensures c < |Next(cfg, st, step).calls|
    ensures var call, call' := st.calls[c], Next(cfg, st, step).calls[c];
            && call'.kind == call.kind && call'.start == call.start && call'.deadline == call.deadline
            && call'.cancelled == (call.cancelled || step == Cancel(c))
  {
    if step.Begin? || step.BeginRequest? || step.Deliver? || step.Wake? {
      KeepsIdentityTry(cfg, st, step, c);
    } else if step.Sweep? {
      assert AfterSweep(st).calls == st.calls;
    }
  }

  lemma NewCall(cfg: Config, st: State, step: Step, c: CallId)
    requires Wf(st) && Enabled(cfg, st, step) && |st.calls| <= c < |Next(cfg, st, step).calls|
    ensures step.Open? && c == |st.calls|
    ensures var call := Next(cfg, st, step).calls[c];
            step == Open(call.kind, call.deadline) && call.start == st.now && !call.cancelled && call.sends == 0 && !call.phase.Finished?
  {
  }

  /** A call was opened at its start, with its kind and deadline, and is cancelled exactly if a `Cancel` came since. */
  lemma {:induction false} OpenedAt(cfg: Config, run: Run, n: nat, c: CallId) returns (i: nat)
    requires run.Valid(cfg) && n <= |run.steps| && c < |run.states[n].calls|
    ensures i < n && run.steps[i] == Open(run.states[n].calls[c].kind, run.states[n].calls[c].deadline)
    ensures c == |run.states[i].calls| && run.states[i].now == run.states[n].calls[c].start
    ensures run.states[n].calls[c].cancelled <==> exists j :: i < j < n && run.steps[j] == Cancel(c)
  {
    i := n - 1;
    assert run.Linked(cfg, i);
    if c < |run.states[n - 1].calls| {
      i := OpenedAt(cfg, run, n - 1, c);
      KeepsIdentity(cfg, run.states[n - 1], run.steps[n - 1], c);
    } else {
      NewCall(cfg, run.states[n - 1], run.steps[n - 1], c);
    }
  }

  // ---------- how waits, pauses and calls end ----------

  /** The caller's context has ended: it was cancelled, or its deadline is reached. */
  predicate Ended(st: State, c: CallId)
    requires c < |st.calls|
  {
    st.calls[c].cancelled || st.now >= st.calls[c].deadline
  }

  ghost predicate IsNil(st: State, c: CallId) {
    c < |st.calls| && st.calls[c].phase == Finished(None)
  }

  lemma NilEndStep(cfg: Config, st: State, step: Step, c: CallId)
    requires Wf(st) && Enabled(cfg, st, step) && IsNil(Next(cfg, st, step), c) && !IsNil(st, c)
    ensures c < |st.calls| && step == GiveUp(c) && st.calls[c].phase.Asleep?
    ensures st.calls[c].cancelled || st.now >= st.calls[c].deadline
  {
    if c >= |st.calls| {
      NewCall(cfg, st, step, c);
    } else if Mover(step) != Some(c) {
      MovesAlone(cfg, st, step, c);
    }
  }

  /** In every run a call ends with nil only in a pause, and only when it is cancelled or past its deadline. */
  lemma NilNeedsEndedContext(cfg: Config, run: Run, n: nat, c: CallId)
    requires run.Valid(cfg) && n < |run.steps| && IsNil(run.states[n + 1], c) && !IsNil(run.states[n], c)
    ensures var st := run.states[n];
            c < |st.calls| && st.calls[c].phase.Asleep? && (st.calls[c].cancelled || st.now >= st.calls[c].deadline)
  {
    assert run.Linked(cfg, n);
    NilEndStep(cfg, run.states[n], run.steps[n], c);
  }

  /** A step that is possible in st leads to st'. */
  ghost predicate CanStep(cfg: Config, st: State, st': State)
    requires Wf(st)
  {
    exists step :: Enabled(cfg, st, step) && st' == Next(cfg, st, step)
  }

  /** At every point of a run that has not panicked, a sleeping call can end with nil next exactly if its context has ended. */
  lemma CanEndWithNilIff(cfg: Config, run: Run, n: nat, c: CallId)
    requires run.Valid(cfg) && n <= |run.steps| && run.states[n].crash.None?
    requires c < |run.states[n].calls| && run.states[n].calls[c].phase.Asleep?
    ensures Wf(run.states[n])
    ensures (exists st' :: CanStep(cfg, run.states[n], st') && IsNil(st', c))
            <==> run.states[n].calls[c].cancelled || run.states[n].now >= run.states[n].calls[c].deadline
  {
    BasicRun(cfg, run, n);
    var st := run.states[n];
    if Ended(st, c) {
      assert Enabled(cfg, st, GiveUp(c));
      assert CanStep(cfg, st, Next(cfg, st, GiveUp(c))) && IsNil(Next(cfg, st, GiveUp(c)), c);
    }
    if st' :| CanStep(cfg, st, st') && IsNil(st', c) {
      var step :| Enabled(cfg, st, step) && st' == Next(cfg, st, step);
      NilEndStep(cfg, st, step, c);
    }
  }

  lemma QueuesByTimeout(cfg: Config, st: State, step: Step, c: CallId)
    requires Wf(st) && Enabled(cfg, st, step) && c < |st.calls| && st.calls[c].phase.Waiting?
    requires c < |Next(cfg, st, step).calls| && Next(cfg, st, step).calls[c].phase.Queued?
    ensures step == Timeout(c)
  {
    if Mover(step) != Some(c) { MovesAlone(cfg, st, step, c); }
  }

  /** `wait` can give up next exactly if the timeout of the try has passed or the context has ended. */
  lemma CanTimeOutIff(cfg: Config, run: Run, n: nat, c: CallId)
    requires run.Valid(cfg) && n <= |run.steps| && run.states[n].crash.None?
    requires c < |run.states[n].calls| && run.states[n].calls[c].phase.Waiting?
    ensures Wf(run.states[n]) && run.states[n].calls[c].attempt.Some?
    ensures (exists st' :: CanStep(cfg, run.states[n], st') && c < |st'.calls| && st'.calls[c].phase.Queued?)
            <==>
            || run.states[n].calls[c].cancelled || run.states[n].now >= run.states[n].calls[c].deadline
            || run.states[n].now >= run.states[n].calls[c].attempt.value.began + cfg.timeout
  {
    BasicRun(cfg, run, n);
    var st := run.states[n];
    if Enabled(cfg, st, Timeout(c)) {
      assert CanStep(cfg, st, Next(cfg, st, Timeout(c)));
    }
    if st' :| CanStep(cfg, st, st') && c < |st'.calls| && st'.calls[c].phase.Queued? {
      var step :| Enabled(cfg, st, step) && st' == Next(cfg, st, step);
      QueuesByTimeout(cfg, st, step, c);
    }
  }

  /** Call c goes on after its pause: it takes a late answer, starts over, or fails in its lookup. */
  lemma PauseLasts(cfg: Config, run: Run, n: nat, c: CallId)
    requires run.Valid(cfg) && n < |run.steps| && run.steps[n] == Wake(c)
    ensures var st := run.states[n];
            && Wf(st) && c < |st.calls| && st.calls[c].phase.Asleep?
            && st.now >= st.calls[c].phase.since + cfg.retry
            && var k := st.calls[c].attempt.value.key;
               (k in st.store ==> !(st.receiver.Holding? && st.receiver.lease == st.store[k].lease))
  {
    assert run.Linked(cfg, n);
  }

  /** A sleeping call can look up its xid exactly when its pause is over and the receiver does not hold that lease. */
  lemma CanWakeIff(cfg: Config, st: State, c: CallId)
    requires Wf(st) && st.crash.None? && c < |st.calls| && st.calls[c].phase.Asleep?
    ensures var k := st.calls[c].attempt.value.key;
            Enabled(cfg, st, Wake(c)) <==>
              && st.now >= st.calls[c].phase.since + cfg.retry
              && !(st.receiver.Holding? && k in st.store && st.store[k].lease == st.receiver.lease)
  {
  }

  // ---------- packets ----------

  lemma WrittenTry(cfg: Config, st: State, step: Step, l: LeaseId)
    requires Wf(st) && Enabled(cfg, st, step) && (step.Begin? || step.BeginRequest?)
    requires l < |Next(cfg, st, step).heap| && Next(cfg, st, step).heap[l].write.Written?
    ensures l < |st.heap| && st.heap[l].write.Written?
  {
  }

  lemma WrittenStep(cfg: Config, st: State, step: Step, l: LeaseId)
    requires Wf(st) && Enabled(cfg, st, step) && step != WriteSend(l)
    requires l < |Next(cfg, st, step).heap| && Next(cfg, st, step).heap[l].write.Written?
    ensures l < |st.heap| && st.heap[l].write.Written?
  {
    if step.Sweep? {
      assert AfterSweep(st).heap[l].write == st.heap[l].write;
    } else if step.Begin? || step.BeginRequest? {
      WrittenTry(cfg, st, step, l);
    }
  }

  lemma {:induction false} WrittenBy(cfg: Config, run: Run, n: nat, l: LeaseId) returns (j: nat)
    requires run.Valid(cfg) && n <= |run.steps| && l < |run.states[n].heap| && run.states[n].heap[l].write.Written?
    ensures j < n && run.steps[j] == WriteSend(l)
  {
    j := n - 1;
    assert run.Linked(cfg, j);
    if run.steps[j] != WriteSend(l) {
      WrittenStep(cfg, run.states[j], run.steps[j], l);
      j := WrittenBy(cfg, run, j, l);
    }
  }

  /** How far the goroutine of a lease has come. */
  function Rank(w: Write): nat {
    match w
    case Unset => 0
    case Pending => 1
    case Writing => 2
    case _ => 3
  }

  ghost predicate GoroutineGoesOn(h: seq<Slot>, h': seq<Slot>) {
    && |h| <= |h'|
    && forall i | 0 <= i < |h| :: Rank(h[i].write) <= Rank(h'[i].write) && (h[i].failed ==> h'[i].failed)
  }

  lemma GoesOnSweep(st: State)
    requires Wf(st)
    ensures GoroutineGoesOn(st.heap, AfterSweep(st).heap)
  {
  }

  lemma GoesOnSend(cfg: Config, st: State, step: Step)
    requires Wf(st) && Enabled(cfg, st, step) && (SendStep(step) || step.Put?)
    ensures GoroutineGoesOn(st.heap, Next(cfg, st, step).heap)
  {
  }

  lemma GoesOnTry(cfg: Config, st: State, step: Step)
    requires Wf(st) && Enabled(cfg, st, step) && (step.Begin? || step.BeginRequest?)
    ensures GoroutineGoesOn(st.heap, Next(cfg, st, step).heap)
  {
  }

  lemma GoesOnStep(cfg: Config, st: State, step: Step)
    requires Wf(st) && Enabled(cfg, st, step)
    ensures GoroutineGoesOn(st.heap, Next(cfg, st, step).heap)
  {
    if step.Sweep? {
      GoesOnSweep(st);
    } else if SendStep(step) || step.Put? {
      GoesOnSend(cfg, st, step);
    } else if step.Begin? || step.BeginRequest? {
      GoesOnTry(cfg, st, step);
    }
  }

  lemma {:induction false} GoesOnRun(cfg: Config, run: Run, m: nat, n: nat)
    requires run.Valid(cfg) && m <= n <= |run.steps|
    ensures GoroutineGoesOn(run.states[m].heap, run.states[n].heap)
  {
    if m < n {
      GoesOnRun(cfg, run, m, n - 1);
      assert run.Linked(cfg, n - 1);
      GoesOnStep(cfg, run.states[n - 1], run.steps[n - 1]);
    }
  }

  /** The steps of the goroutine of lease l. */
  predicate IsGoroutineStep(step: Step, l: LeaseId) {
    step == Put(l) || step == LockSend(l) || step == WriteSend(l) || step == AbortSend(l) || step == SendError(l)
  }

  lemma GoroutineStep(cfg: Config, st: State, step: Step, l: LeaseId)
    requires Wf(st) && Enabled(cfg, st, step) && IsGoroutineStep(step, l)
    ensures l < |st.heap| == |Next(cfg, st, step).heap|
    ensures if step.SendError? then !st.heap[l].failed && Next(cfg, st, step).heap[l].failed
            else Rank(st.heap[l].write) < Rank(Next(cfg, st, step).heap[l].write)
  {
  }

  /** A repeated step would find its lease as it was before. */
  lemma SameStepRank(cfg: Config, run: Run, i: nat, j: nat, l: LeaseId)
    requires run.Valid(cfg) && i < |run.steps| && j < |run.steps| && run.steps[i] == run.steps[j] && IsGoroutineStep(run.steps[i], l)
    ensures l < |run.states[i].heap| && l < |run.states[j].heap|
    ensures !run.steps[i].SendError? ==> Rank(run.states[i].heap[l].write) == Rank(run.states[j].heap[l].write)
    ensures run.steps[i].SendError? ==> !run.states[j].heap[l].failed
  {
    assert run.Linked(cfg, i) && run.Linked(cfg, j);
  }

  /** Each step of the goroutine of a lease happens at most once: one `Set`, one packet or failed write, one send error. */
  lemma OncePerLease(cfg: Config, run: Run, i: nat, j: nat, l: LeaseId)
    requires run.Valid(cfg) && i < j < |run.steps| && IsGoroutineStep(run.steps[i], l)
    ensures run.steps[j] != run.steps[i]
  {
    assert run.Linked(cfg, i) && run.Linked(cfg, j);
    GoroutineStep(cfg, run.states[i], run.steps[i], l);
    GoesOnRun(cfg, run, i + 1, j);
    if run.steps[j] == run.steps[i] { SameStepRank(cfg, run, i, j, l); }
  }

  /** `wait` hands over only a lease whose packet was written without a send error, and that was answered or signalled. */
  lemma DeliveredWasWritten(cfg: Config, run: Run, n: nat, c: CallId) returns (j: nat)
    requires run.Valid(cfg) && n < |run.steps| && run.steps[n] == Deliver(c)
    ensures c < |run.states[n].calls| && run.states[n].calls[c].attempt.Some?
    ensures var l := run.states[n].calls[c].attempt.value.lease;
            && j < n && run.steps[j] == WriteSend(l) && l < |run.states[n].heap|
            && (run.states[n].heap[l].lease.accepted.Some? || run.states[n].heap[l].lease.signals > 0)
            && (forall i | 0 <= i < n :: run.steps[i] != SendError(l))
  {
    assert run.Linked(cfg, n);
    BasicRun(cfg, run, n);
    var l := run.states[n].calls[c].attempt.value.lease;
    assert SlotBasic(run.states[n].heap[l]);
    j := WrittenBy(cfg, run, n, l);
    forall i | 0 <= i < n ensures run.steps[i] != SendError(l) {
      if run.steps[i] == SendError(l) {
        assert run.Linked(cfg, i);
        GoroutineStep(cfg, run.states[i], run.steps[i], l);
        GoesOnRun(cfg, run, i + 1, n);
      }
    }
  }

  // ---------- what leaves the store ----------

  ghost predicate Returned(st: State, c: CallId, l: LeaseId) {
    c < |st.calls| && st.calls[c].phase == Finished(Some(l))
  }

  lemma OthersFinishNothing(cfg: Config, st: State, step: Step, c: CallId, l: LeaseId)
    requires Wf(st) && Enabled(cfg, st, step) && !step.Deliver? && !step.Wake?
    requires Returned(Next(cfg, st, step), c, l)
    ensures Returned(st, c, l)
  {
    if step.Sweep? { assert AfterSweep(st).calls == st.calls; }
  }

  lemma FinishingStep(cfg: Config, st: State, step: Step, c: CallId, l: LeaseId)
    requires Basic(st) && Enabled(cfg, st, step) && Returned(Next(cfg, st, step), c, l) && !Returned(st, c, l)
    ensures c < |st.calls|
    ensures || (step == Deliver(c) && st.calls[c].attempt.value.lease == l)
            || (step == Wake(c) && l < |st.heap| && st.heap[l].lease.accepted.Some?)
    ensures l < |st.heap| && Next(cfg, st, step).heap[l].lease.accepted == st.heap[l].lease.accepted
  {
    if step.Wake? {
      var k := st.calls[step.c].attempt.value.key;
      if k in st.store { assert EntryBasic(st, k); }
    } else if !step.Deliver? {
      OthersFinishNothing(cfg, st, step, c, l);
    }
  }

  lemma WithdrawnStaysTry(cfg: Config, st: State, step: Step, l: LeaseId)
    requires Wf(st) && Enabled(cfg, st, step) && Withdrawn(st, l) && (step.Begin? || step.BeginRequest? || step.Put?)
    ensures Withdrawn(Next(cfg, st, step), l)
  {
  }

  lemma WithdrawnStaysSweep(st: State, l: LeaseId)
    requires Wf(st) && Withdrawn(st, l)
    ensures Withdrawn(AfterSweep(st), l)
  {
  }

  /** A lease that was taken out of the store never gets back. */
  lemma WithdrawnStays(cfg: Config, st: State, step: Step, l: LeaseId)
    requires Wf(st) && Enabled(cfg, st, step) && Withdrawn(st, l)
    ensures Withdrawn(Next(cfg, st, step), l)
  {
    if step.Begin? || step.BeginRequest? || step.Put? {
      WithdrawnStaysTry(cfg, st, step, l);
    } else if step.Sweep? {
      WithdrawnStaysSweep(st, l);
    }
  }

  /** The lease that `wait` hands over leaves the store. */
  lemma DeliverWithdraws(cfg: Config, st: State, c: CallId)
    requires Basic(st) && Enabled(cfg, st, Deliver(c))
    ensures var l := st.calls[c].attempt.value.lease;
            Withdrawn(AfterDeliver(st, c), l) && st.heap[l].lease.xid !in AfterDeliver(st, c).store
  {
    RemovedIsUnstored(st, st.calls[c].attempt.value.lease);
  }

  /** The lease that the lookup after the pause takes leaves the store. */
  lemma WakeWithdraws(cfg: Config, st: State, c: CallId, l: LeaseId)
    requires Basic(st) && Enabled(cfg, st, Wake(c)) && Returned(AfterWake(st, c), c, l)
    ensures Withdrawn(AfterWake(st, c), l)
  {
    var k := st.calls[c].attempt.value.key;
    assert EntryBasic(st, k);
    RemovedIsUnstored(st, l);
  }

  /** In every run a lease that a call returned is in no entry of the store, from the moment it is returned on. */
  lemma {:induction false} ResultLeftStore(cfg: Config, run: Run, n: nat, c: CallId, l: LeaseId)
    requires run.Valid(cfg) && n <= |run.steps| && Returned(run.states[n], c, l)
    ensures Withdrawn(run.states[n], l)
    ensures forall k | k in run.states[n].store :: run.states[n].store[k].lease != l
  {
    assert run.Linked(cfg, n - 1);
    BasicRun(cfg, run, n - 1);
    var st, step := run.states[n - 1], run.steps[n - 1];
    if Returned(st, c, l) {
      ResultLeftStore(cfg, run, n - 1, c, l);
      WithdrawnStays(cfg, st, step, l);
    } else {
      FinishingStep(cfg, st, step, c, l);
      if step.Deliver? { DeliverWithdraws(cfg, st, c); } else { WakeWithdraws(cfg, st, c, l); }
    }
  }

  /** After `wait` has handed over a lease, offer or final answer, its xid is not in the store. */
  lemma DeliveredLeavesStore(cfg: Config, run: Run, n: nat, c: CallId)
    requires run.Valid(cfg) && n < |run.steps| && run.steps[n] == Deliver(c)
    ensures var st := run.states[n];
            && c < |st.calls| && st.calls[c].attempt.Some? && st.calls[c].attempt.value.lease < |st.heap|
            && st.heap[st.calls[c].attempt.value.lease].lease.xid !in run.states[n + 1].store
  {
    assert run.Linked(cfg, n);
    BasicRun(cfg, run, n);
    DeliverWithdraws(cfg, run.states[n], c);
  }

  // ---------- how entries come and go ----------

  /** An entry appears or is replaced only when its lease is stored under its own xid, with a whole ttl to live. */
  lemma EntryComesByPut(cfg: Config, run: Run, n: nat, k: Xid)
    requires run.Valid(cfg) && n < |run.steps| && k in run.states[n + 1].store
    requires k !in run.states[n].store || run.states[n].store[k] != run.states[n + 1].store[k]
    ensures var st, item := run.states[n], run.states[n + 1].store[k];
            && run.steps[n] == Put(item.lease)
            && item.lease < |st.heap| && st.heap[item.lease].lease.xid == k && item.expire == st.now + cfg.ttl
  {
    assert run.Linked(cfg, n);
  }

  /** Why an entry goes: its call takes the answer, the cleaner had noted it, or its DISCOVER could not be sent. */
  ghost predicate GoesBy(st: State, step: Step, k: Xid)
    requires Wf(st)
  {
    match step
    case Deliver(c) => c < |st.calls| && st.calls[c].attempt.Some? && st.heap[st.calls[c].attempt.value.lease].lease.xid == k
    case Wake(c) => c < |st.calls| && st.calls[c].attempt.Some? && st.calls[c].attempt.value.key == k
    case Sweep => st.cleaner.Snapshotted? && k in st.cleaner.keys
    case SendError(l) => l < |st.heap| && st.heap[l].lease.role == DISCOVER && st.heap[l].lease.xid == k
    case _ => false
  }

  lemma EntryGoesBy(cfg: Config, run: Run, n: nat, k: Xid)
    requires run.Valid(cfg) && n < |run.steps| && k in run.states[n].store && k !in run.states[n + 1].store
    ensures Wf(run.states[n]) && GoesBy(run.states[n], run.steps[n], k)
  {
    assert run.Linked(cfg, n);
    BasicRun(cfg, run, n);
    assert EntryBasic(run.states[n], k);
    if run.steps[n].Wake? {
      var a := run.states[n].calls[run.steps[n].c].attempt.value;
      if a.key in run.states[n].store { assert EntryBasic(run.states[n], a.key); }
    }
  }

  /** A send error takes its DISCOVER out of the store, and leaves a REQUEST there. */
  lemma SendErrorInStore(cfg: Config, run: Run, n: nat, l: LeaseId)
    requires run.Valid(cfg) && n < |run.steps| && run.steps[n] == SendError(l)
    ensures var st := run.states[n];
            && l < |st.heap|
            && (forall k :: k in run.states[n + 1].store <==>
                  k in st.store && !(st.heap[l].lease.role == DISCOVER && k == st.heap[l].lease.xid))
  {
    assert run.Linked(cfg, n);
  }

  /** Time passes only by `Tick`, to the time it names. */
  lemma ClockStep(cfg: Config, run: Run, n: nat)
    requires run.Valid(cfg) && n < |run.steps|
    ensures run.states[n + 1].now == if run.steps[n].Tick? then run.steps[n].to else run.states[n].now
    ensures run.states[n].now <= run.states[n + 1].now
  {
    assert run.Linked(cfg, n);
  }
}
