/** Which panics the conditions exclude. */
module EnginePanics {
  import opened Wrappers
  import opened Messages
  import opened Engine
  import opened EngineBasics
  import opened EngineSafety

  // ---------- nil dereferences ----------

  /** The entry of a try stays in the store from its `Set` on. */
  ghost predicate EntryKept(st: State, c: CallId)
    requires Wf(st) && c < |st.calls|
  {
    var call := st.calls[c];
    call.attempt.Some? && !st.heap[call.attempt.value.lease].write.Unset? ==> call.attempt.value.key in st.store
  }

  /** A noted key is still in the store and past its expiry. */
  ghost predicate SnapshotOutdated(st: State) {
    st.cleaner.Snapshotted? ==> forall k | k in st.cleaner.keys :: k in st.store && st.store[k].expire < st.now
  }

  predicate NilCrash(crash: Option<Crash>) {
    crash == Some(NilLease) || crash == Some(NilPacket)
  }

  ghost predicate NoneFailed(heap: seq<Slot>) {
    forall i | 0 <= i < |heap| :: !heap[i].failed
  }

  ghost predicate Kept(st: State)
    requires Wf(st)
  {
    && !NilCrash(st.crash)
    && Prompt(st)
    && SnapshotOutdated(st)
    && NoneFailed(st.heap)
    && (forall c | 0 <= c < |st.calls| :: EntryKept(st, c))
  }

  /** The keys that calls occupy are not outdated, so the cleaner leaves them alone. */
  lemma TriesAreNotSwept(st: State, c: CallId)
    requires Inv(st) && Prompt(st) && SnapshotOutdated(st) && c < |st.calls| && st.calls[c].attempt.Some?
    ensures st.calls[c].attempt.value.key !in Doomed(st)
    ensures !SignalsWaiting(st, c)
  {
    assert CallSafe(st, c) && AttemptSafe(st, c);
    forall k | k in Doomed(st) ensures st.store[k].lease != st.calls[c].attempt.value.lease { assert EntryBasic(st, k); }
  }

  lemma SnapshotStep(cfg: Config, st: State, step: Step)
    requires Inv(st) && Kept(st) && Enabled(cfg, st, step) && !step.SendError?
    ensures SnapshotOutdated(Next(cfg, st, step))
  {
    match step
    case Put(l) =>
      assert UnsetSafe(st, l) && CallSafe(st, st.heap[l].owner) && AttemptSafe(st, st.heap[l].owner);
    case Deliver(c) =>
      assert CallSafe(st, c) && AttemptSafe(st, c) && EntryKept(st, c);
    case Wake(c) =>
      assert CallSafe(st, c) && AttemptSafe(st, c) && EntryKept(st, c) && EntryBasic(st, st.calls[c].attempt.value.key);
    case _ =>
  }

  /** Taking an answer removes the entry of that call only. */
  lemma EntryTaken(cfg: Config, st: State, step: Step, c: CallId)
    requires Inv(st) && Kept(st) && Enabled(cfg, st, step) && (step.Deliver? || step.Wake?) && c < |st.calls|
    ensures EntryKept(Next(cfg, st, step), c)
  {
    var b := step.c;
    assert CallSafe(st, b) && AttemptSafe(st, b) && CallSafe(st, c) && EntryKept(st, c) && EntryKept(st, b);
    assert Key(st, b) == Some(st.calls[b].attempt.value.key);
    if step.Wake? { assert EntryBasic(st, st.calls[b].attempt.value.key); }
    if c != b { assert Key(st, c) != Key(st, b); }
  }

  lemma EntrySpared(st: State, c: CallId)
    requires Inv(st) && Kept(st) && c < |AfterSweep(st).calls|
    ensures EntryKept(AfterSweep(st), c)
  {
    assert EntryKept(st, c);
    if st.calls[c].attempt.Some? { TriesAreNotSwept(st, c); }
  }

  lemma EntryPut(cfg: Config, st: State, l: LeaseId, c: CallId)
    requires Inv(st) && Kept(st) && l < |st.heap| && st.heap[l].write.Unset? && c < |st.calls|
    ensures EntryKept(AfterPut(cfg, st, l), c)
  {
    assert CallSafe(st, c) && EntryKept(st, c);
  }

  lemma EntryTried(cfg: Config, st: State, step: Step, c: CallId)
    requires Inv(st) && Kept(st) && Enabled(cfg, st, step) && (step.Begin? || step.BeginRequest?)
    requires c < |st.calls|
    ensures c < |Next(cfg, st, step).calls| && EntryKept(Next(cfg, st, step), c)
  {
    assert CallSafe(st, c) && EntryKept(st, c);
  }

  lemma EntrySent(cfg: Config, st: State, step: Step, c: CallId)
    requires Inv(st) && Kept(st) && Enabled(cfg, st, step) && SendStep(step) && !step.SendError? && c < |st.calls|
    ensures c < |Next(cfg, st, step).calls| && EntryKept(Next(cfg, st, step), c)
  {
    assert EntryKept(st, c);
  }

  lemma EntryQuiet(cfg: Config, st: State, step: Step, c: CallId)
    requires Inv(st) && Kept(st) && Enabled(cfg, st, step) && c < |Next(cfg, st, step).calls|
    requires !step.SendError? && !step.Deliver? && !step.Wake? && !step.Sweep? && !step.Put?
    requires !step.Begin? && !step.BeginRequest? && !SendStep(step)
    ensures EntryKept(Next(cfg, st, step), c)
  {
    if c < |st.calls| { assert CallSafe(st, c) && EntryKept(st, c); }
  }

  lemma EntriesStep(cfg: Config, st: State, step: Step, c: CallId)
    requires Inv(st) && Kept(st) && Enabled(cfg, st, step) && !step.SendError? && c < |Next(cfg, st, step).calls|
    ensures EntryKept(Next(cfg, st, step), c)
  {
    if step.Deliver? || step.Wake? {
      EntryTaken(cfg, st, step, c);
    } else if step.Sweep? {
      EntrySpared(st, c);
    } else if step.Put? {
      EntryPut(cfg, st, step.l, c);
    } else if step.Begin? || step.BeginRequest? {
      EntryTried(cfg, st, step, c);
    } else if SendStep(step) {
      EntrySent(cfg, st, step, c);
    } else {
      EntryQuiet(cfg, st, step, c);
    }
  }

  lemma NoneFailedSweep(st: State)
    requires Wf(st) && NoneFailed(st.heap)
    ensures NoneFailed(AfterSweep(st).heap)
  {
  }

  lemma NoneFailedStep(cfg: Config, st: State, step: Step)
    requires Wf(st) && Enabled(cfg, st, step) && NoneFailed(st.heap) && !step.SendError?
    ensures NoneFailed(Next(cfg, st, step).heap)
  {
    if step.Sweep? { NoneFailedSweep(st); }
  }

  lemma NoNilWake(st: State, c: CallId)
    requires Inv(st) && c < |st.calls| && st.calls[c].phase.Asleep? && EntryKept(st, c) && !NilCrash(st.crash)
    ensures !NilCrash(AfterWake(st, c).crash)
  {
    assert CallSafe(st, c) && AttemptSafe(st, c);
  }

  lemma NoNilStep(cfg: Config, st: State, step: Step)
    requires Wf(st) && Enabled(cfg, st, step) && NoneFailed(st.heap) && !step.Wake?
    ensures !NilCrash(Next(cfg, st, step).crash)
  {
  }

  lemma KeptStep(cfg: Config, st: State, step: Step, st': State)
    requires Inv(st) && Kept(st) && Enabled(cfg, st, step) && !step.SendError?
    requires st' == Next(cfg, st, step) && Prompt(st')
    ensures Kept(st')
  {
    SnapshotStep(cfg, st, step);
    NoneFailedStep(cfg, st, step);
    if step.Wake? {
      assert EntryKept(st, step.c);
      NoNilWake(st, step.c);
    } else {
      NoNilStep(cfg, st, step);
    }
    forall c | 0 <= c < |st'.calls| ensures EntryKept(st', c) { EntriesStep(cfg, st, step, c); }
  }

  lemma DisciplinedIsOrderly(cfg: Config, run: Run)
    requires Disciplined(cfg, run)
    ensures Orderly(cfg, run)
  {
    WaiveMore(cfg, run, {NoRetypeWhileHeld, CollectedReplies, TypedReplies},
              {SendsSucceed, PromptTries, NoRetypeWhileHeld, CollectedReplies, TypedReplies});
  }

  lemma DisciplinedStep(cfg: Config, run: Run, n: nat)
    requires Disciplined(cfg, run) && n < |run.steps|
    ensures run.Linked(cfg, n) && !run.steps[n].SendError? && Prompt(run.states[n + 1])
  {
    assert run.Linked(cfg, n);
  }

  lemma {:induction false} KeptRun(cfg: Config, run: Run, n: nat)
    requires Disciplined(cfg, run) && n <= |run.steps|
    ensures Wf(run.states[n]) && Kept(run.states[n])
  {
    if n > 0 {
      KeptRun(cfg, run, n - 1);
      DisciplinedIsOrderly(cfg, run);
      InvRun(cfg, run, n - 1);
      DisciplinedStep(cfg, run, n - 1);
      KeptStep(cfg, run.states[n - 1], run.steps[n - 1], run.states[n]);
    }
  }

  /** If no try outlives its entry and no send fails, `Clean` never signals a lease whose call still waits for it. */
  lemma DisciplinedIsSpared(cfg: Config, run: Run, c: CallId)
    requires Disciplined(cfg, run)
    ensures Spared(cfg, run, c)
  {
    DisciplinedIsOrderly(cfg, run);
    forall n | 0 <= n < |run.steps| ensures run.Linked(cfg, n) && !SignalsWaiting(run.states[n], c) {
      assert run.Linked(cfg, n);
      InvRun(cfg, run, n);
      KeptRun(cfg, run, n);
      var st := run.states[n];
      if c < |st.calls| && st.calls[c].attempt.Some? { TriesAreNotSwept(st, c); }
    }
  }

  // ---------- the other panics ----------

  /** The receiver holds a typed reply, and not for an offer that was retyped. */
  ghost predicate ReceiverSafe(st: State)
    requires Wf(st)
  {
    st.receiver.Holding? ==> !Retyped(st.heap[st.receiver.lease].lease) && st.receiver.reply.msgType.Some?
  }

  ghost predicate Calm(st: State)
    requires Wf(st)
  {
    st.crash.None? && ReceiverSafe(st) && Collected(st)
  }

  /** A typed reply for a lease that was not retyped never closes `Done` twice. */
  lemma CalmApply(cfg: Config, st: State)
    requires Inv(st) && Calm(st) && Enabled(cfg, st, Apply)
    ensures AfterApply(st).crash.None? && ReceiverSafe(AfterApply(st))
  {
    assert SlotSafe(st, st.receiver.lease) && SlotBasic(st.heap[st.receiver.lease]);
  }

  /** The keys of a snapshot are past their expiry, so none of them holds an uncollected reply. */
  lemma CalmSweep(cfg: Config, st: State)
    requires Inv(st) && Calm(st) && SnapshotOutdated(st) && Enabled(cfg, st, Sweep)
    ensures AfterSweep(st).crash.None? && ReceiverSafe(AfterSweep(st))
  {
    forall k | k in Doomed(st) ensures !st.heap[st.store[k].lease].lease.closed { }
  }

  lemma CalmLookup(cfg: Config, st: State, reply: Reply)
    requires Inv(st) && Calm(st) && Enabled(cfg, st, Lookup(reply)) && Typed(st, Lookup(reply))
    ensures Next(cfg, st, Lookup(reply)).crash.None? && ReceiverSafe(Next(cfg, st, Lookup(reply)))
  {
    if reply.xid in st.store { assert EntryBasic(st, reply.xid); }
  }

  /** Retyping spares the lease the receiver holds. */
  lemma CalmTry(cfg: Config, st: State, step: Step)
    requires Inv(st) && Calm(st) && Enabled(cfg, st, step) && (step.Begin? || step.BeginRequest?) && NotWhileHeld(st, step)
    ensures Next(cfg, st, step).crash.None? && ReceiverSafe(Next(cfg, st, step))
  {
  }

  lemma CalmSend(cfg: Config, st: State, step: Step)
    requires Inv(st) && Calm(st) && Enabled(cfg, st, step) && SendStep(step)
    ensures Next(cfg, st, step).crash.None? && ReceiverSafe(Next(cfg, st, step))
  {
  }

  lemma CalmQuiet(cfg: Config, st: State, step: Step)
    requires Inv(st) && Calm(st) && Enabled(cfg, st, step) && !NilCrash(Next(cfg, st, step).crash)
    requires !step.Apply? && !step.Sweep? && !step.Lookup? && !step.Begin? && !step.BeginRequest? && !SendStep(step)
    ensures Next(cfg, st, step).crash.None? && ReceiverSafe(Next(cfg, st, step))
  {
  }

  lemma CalmStep(cfg: Config, st: State, step: Step)
    requires Inv(st) && Calm(st) && SnapshotOutdated(st) && Enabled(cfg, st, step)
    requires !NilCrash(Next(cfg, st, step).crash) && Meets(st, step, Next(cfg, st, step), {})
    ensures Calm(Next(cfg, st, step))
  {
    if step.Apply? {
      CalmApply(cfg, st);
    } else if step.Sweep? {
      CalmSweep(cfg, st);
    } else if step.Lookup? {
      CalmLookup(cfg, st, step.reply);
    } else if step.Begin? || step.BeginRequest? {
      CalmTry(cfg, st, step);
    } else if SendStep(step) {
      CalmSend(cfg, st, step);
    } else {
      CalmQuiet(cfg, st, step);
    }
  }

  lemma {:induction false} CalmRun(cfg: Config, run: Run, n: nat)
    requires Admissible(cfg, run) && n <= |run.steps|
    ensures Wf(run.states[n]) && Calm(run.states[n])
  {
    if n > 0 {
      WaiveMore(cfg, run, {}, {NoRetypeWhileHeld, CollectedReplies, TypedReplies});
      DisciplinedIsOrderly(cfg, run);
      InvRun(cfg, run, n - 1);
      KeptRun(cfg, run, n - 1);
      KeptRun(cfg, run, n);
      CalmRun(cfg, run, n - 1);
      assert run.Linked(cfg, n - 1);
      CalmStep(cfg, run.states[n - 1], run.steps[n - 1]);
    }
  }
}
