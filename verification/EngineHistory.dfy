/** What the past of a run tells about its leases: who answered them, and which signals passed for an answer. */
module EngineHistory {
  import opened Wrappers
  import opened Messages
  import opened Engine
  import opened EngineBasics
  import opened EngineSafety

  // ---------- accepted replies ----------

  /** Step j of a run applies a reply of type t to lease l, which had taken no reply before. */
  ghost predicate AcceptsAt(run: Run, j: nat, l: LeaseId, t: MsgType) {
    && j < |run.steps| && j < |run.states| && run.steps[j] == Apply
    && var st := run.states[j];
       && l < |st.heap|
       && st.receiver == Holding(l, Reply(st.heap[l].lease.xid, Some(t)))
       && st.heap[l].lease.accepted.None?
       && Answers(st.heap[l].lease.msgType, t)
  }

  lemma HeapGrowsSweep(st: State)
    requires Wf(st)
    ensures HeapGrows(st.heap, AfterSweep(st).heap)
  {
  }

  lemma HeapGrowsApply(st: State)
    requires Basic(st) && st.receiver.Holding?
    ensures HeapGrows(st.heap, AfterApply(st).heap)
  {
    assert SlotBasic(st.heap[st.receiver.lease]);
  }

  lemma HeapGrowsTry(cfg: Config, st: State, step: Step)
    requires Wf(st) && Enabled(cfg, st, step) && (step.Begin? || step.BeginRequest? || step.Put?)
    ensures HeapGrows(st.heap, Next(cfg, st, step).heap)
  {
  }

  lemma HeapGrowsQuiet(cfg: Config, st: State, step: Step)
    requires Wf(st) && Enabled(cfg, st, step) && !step.Sweep? && !step.Apply?
    ensures HeapGrows(st.heap, Next(cfg, st, step).heap)
  {
    if step.Begin? || step.BeginRequest? || step.Put? { HeapGrowsTry(cfg, st, step); }
  }

  lemma HeapGrowsStep(cfg: Config, st: State, step: Step)
    requires Basic(st) && Enabled(cfg, st, step)
    ensures HeapGrows(st.heap, Next(cfg, st, step).heap)
  {
    match step
    case Apply => HeapGrowsApply(st);
    case Sweep => HeapGrowsSweep(st);
    case _ => HeapGrowsQuiet(cfg, st, step);
  }

  lemma HeapGrowsOn(a: seq<Slot>, b: seq<Slot>, c: seq<Slot>)
    requires HeapGrows(a, b) && HeapGrows(b, c)
    ensures HeapGrows(a, c)
  {
  }

  lemma {:induction false} HeapGrowsRun(cfg: Config, run: Run, m: nat, n: nat)
    requires run.Valid(cfg) && m <= n <= |run.steps|
    ensures HeapGrows(run.states[m].heap, run.states[n].heap)
  {
    if m < n {
      HeapGrowsRun(cfg, run, m, n - 1);
      BasicRun(cfg, run, n - 1);
      assert run.Linked(cfg, n - 1);
      HeapGrowsStep(cfg, run.states[n - 1], run.steps[n - 1]);
      HeapGrowsOn(run.states[m].heap, run.states[n - 1].heap, run.states[n].heap);
    }
  }

  lemma SweepAcceptsNothing(st: State, l: LeaseId)
    requires Wf(st) && l < |AfterSweep(st).heap|
    ensures l < |st.heap| && AfterSweep(st).heap[l].lease.accepted == st.heap[l].lease.accepted
  {
  }

  lemma QuietAcceptsNothing(cfg: Config, st: State, step: Step, l: LeaseId)
    requires Wf(st) && Enabled(cfg, st, step) && !step.Sweep? && !step.Apply?
    requires l < |Next(cfg, st, step).heap|
    ensures Next(cfg, st, step).heap[l].lease.accepted == if l < |st.heap| then st.heap[l].lease.accepted else None
  {
  }

  /** Only applying a reply makes a lease accept one. */
  lemma AcceptStep(cfg: Config, st: State, step: Step, l: LeaseId)
    requires Basic(st) && Enabled(cfg, st, step)
    requires l < |Next(cfg, st, step).heap| && Next(cfg, st, step).heap[l].lease.accepted.Some?
    requires l < |st.heap| ==> st.heap[l].lease.accepted.None?
    ensures l < |st.heap| && step == Apply
    ensures var t := Next(cfg, st, step).heap[l].lease.accepted.value;
            st.receiver == Holding(l, Reply(st.heap[l].lease.xid, Some(t))) && Answers(st.heap[l].lease.msgType, t)
  {
    match step
    case Apply =>
    case Sweep => SweepAcceptsNothing(st, l);
    case _ => QuietAcceptsNothing(cfg, st, step, l);
  }

  /** An accepted reply goes back to an earlier step that applied it. */
  lemma {:induction false} AcceptedBy(cfg: Config, run: Run, n: nat, l: LeaseId, t: MsgType) returns (j: nat)
    requires run.Valid(cfg) && n <= |run.steps|
    requires l < |run.states[n].heap| && run.states[n].heap[l].lease.accepted == Some(t)
    ensures j < n && AcceptsAt(run, j, l, t)
  {
    j := n - 1;
    BasicRun(cfg, run, j);
    assert run.Linked(cfg, j);
    if l < |run.states[j].heap| && run.states[j].heap[l].lease.accepted.Some? {
      HeapGrowsStep(cfg, run.states[j], run.steps[j]);
      j := AcceptedBy(cfg, run, j, l, t);
    } else {
      AcceptStep(cfg, run.states[j], run.steps[j], l);
    }
  }

  // ---------- signals ----------

  ghost predicate WaitsFor(st: State, c: CallId, l: LeaseId) {
    c < |st.calls| && st.calls[c].phase.Waiting? && st.calls[c].attempt.Some? && st.calls[c].attempt.value.lease == l
  }

  /** Step s is the sweep of a snapshot that holds the key of lease l, while call c waits for l. */
  ghost predicate SignalsAt(run: Run, s: nat, c: CallId, l: LeaseId) {
    && s < |run.steps| && s < |run.states| && run.steps[s] == Sweep
    && Wf(run.states[s]) && SignalsWaiting(run.states[s], c) && WaitsFor(run.states[s], c, l)
  }

  /** The receiver holds lease l and a reply that l, as it stands, takes. */
  ghost predicate HoldsAnswer(st: State, l: LeaseId) {
    && st.receiver.Holding? && st.receiver.lease == l && l < |st.heap|
    && st.receiver.reply.msgType.Some? && Answers(st.heap[l].lease.msgType, st.receiver.reply.msgType.value)
  }

  ghost predicate AppliesBetween(run: Run, s: nat, n: nat) {
    exists j :: s < j < n && j < |run.steps| && run.steps[j] == Apply
  }

  lemma SweepSignals(st: State, l: LeaseId)
    requires Wf(st) && l < |AfterSweep(st).heap|
    ensures l < |st.heap|
    ensures AfterSweep(st).heap[l].lease.signals > st.heap[l].lease.signals ==> exists k | k in Doomed(st) :: st.store[k].lease == l
  {
  }

  lemma OthersSignalNothing(cfg: Config, st: State, step: Step, l: LeaseId)
    requires Wf(st) && Enabled(cfg, st, step) && !step.Sweep? && l < |Next(cfg, st, step).heap|
    ensures Next(cfg, st, step).heap[l].lease.signals == if l < |st.heap| then st.heap[l].lease.signals else 0
  {
  }

  /** A signal goes back to a sweep that found the lease in the store under a key of its snapshot. */
  lemma {:induction false} SignalledBy(cfg: Config, run: Run, n: nat, l: LeaseId) returns (s: nat)
    requires run.Valid(cfg) && n <= |run.steps|
    requires l < |run.states[n].heap| && run.states[n].heap[l].lease.signals > 0
    ensures s < n && run.steps[s] == Sweep && Wf(run.states[s]) && l < |run.states[s].heap|
    ensures exists k | k in Doomed(run.states[s]) :: run.states[s].store[k].lease == l
  {
    s := n - 1;
    assert run.Linked(cfg, s);
    var st := run.states[s];
    if l < |st.heap| && st.heap[l].lease.signals > 0 {
      s := SignalledBy(cfg, run, s, l);
    } else if run.steps[s].Sweep? {
      SweepSignals(st, l);
    } else {
      OthersSignalNothing(cfg, st, run.steps[s], l);
    }
  }

  /** A call that waits for a lease made before this step waited for it already. */
  lemma WaitedBefore(cfg: Config, st: State, step: Step, c: CallId, l: LeaseId)
    requires Wf(st) && Enabled(cfg, st, step) && l < |st.heap| && WaitsFor(Next(cfg, st, step), c, l)
    ensures WaitsFor(st, c, l)
  {
    if step.Sweep? { assert Next(cfg, st, step).calls == st.calls; }
  }

  lemma {:induction false} WaitedSince(cfg: Config, run: Run, m: nat, n: nat, c: CallId, l: LeaseId)
    requires run.Valid(cfg) && m <= n <= |run.steps| && l < |run.states[m].heap| && WaitsFor(run.states[n], c, l)
    ensures WaitsFor(run.states[m], c, l)
  {
    if m < n {
      assert run.Linked(cfg, n - 1);
      HeapGrowsRun(cfg, run, m, n - 1);
      WaitedBefore(cfg, run.states[n - 1], run.steps[n - 1], c, l);
      WaitedSince(cfg, run, m, n - 1, c, l);
    }
  }

  /** The lease of a try was made by the call that tries. */
  ghost predicate Owned(st: State) {
    forall c | 0 <= c < |st.calls| && st.calls[c].attempt.Some? ::
      st.calls[c].attempt.value.lease < |st.heap| && st.heap[st.calls[c].attempt.value.lease].owner == c
  }

  /** The try of a call is an old one or that of a lease just made for it. */
  ghost predicate TryIsOldOrNew(st: State, st': State, c: CallId)
    requires c < |st'.calls| && st'.calls[c].attempt.Some?
  {
    var l := st'.calls[c].attempt.value.lease;
    || (c < |st.calls| && st.calls[c].attempt.Some? && st.calls[c].attempt.value.lease == l)
    || (l == |st.heap| < |st'.heap| && st'.heap[l].owner == c)
  }

  lemma TriedBefore(cfg: Config, st: State, step: Step, c: CallId)
    requires Wf(st) && Enabled(cfg, st, step) && (step.Begin? || step.BeginRequest? || step.Deliver? || step.Wake?)
    requires c < |Next(cfg, st, step).calls| && Next(cfg, st, step).calls[c].attempt.Some?
    ensures TryIsOldOrNew(st, Next(cfg, st, step), c)
  {
  }

  lemma AttemptBefore(cfg: Config, st: State, step: Step, c: CallId)
    requires Wf(st) && Enabled(cfg, st, step)
    requires c < |Next(cfg, st, step).calls| && Next(cfg, st, step).calls[c].attempt.Some?
    ensures TryIsOldOrNew(st, Next(cfg, st, step), c)
  {
    if step.Begin? || step.BeginRequest? || step.Deliver? || step.Wake? {
      TriedBefore(cfg, st, step, c);
    } else if step.Sweep? {
      assert Next(cfg, st, step).calls == st.calls;
    }
  }

  lemma OwnedStep(cfg: Config, st: State, step: Step, st': State)
    requires Basic(st) && Enabled(cfg, st, step) && st' == Next(cfg, st, step) && Owned(st)
    ensures Owned(st')
  {
    HeapGrowsStep(cfg, st, step);
    forall c | 0 <= c < |st'.calls| && st'.calls[c].attempt.Some?
      ensures st'.calls[c].attempt.value.lease < |st'.heap| && st'.heap[st'.calls[c].attempt.value.lease].owner == c
    {
      AttemptBefore(cfg, st, step, c);
    }
  }

  lemma {:induction false} OwnedRun(cfg: Config, run: Run, n: nat)
    requires run.Valid(cfg) && n <= |run.steps|
    ensures Owned(run.states[n])
  {
    if n > 0 {
      OwnedRun(cfg, run, n - 1);
      BasicRun(cfg, run, n - 1);
      assert run.Linked(cfg, n - 1);
      OwnedStep(cfg, run.states[n - 1], run.steps[n - 1], run.states[n]);
    }
  }

  /** Lease l was taken out of the store and is nobody's offer. */
  ghost predicate Adrift(st: State, l: LeaseId) {
    Withdrawn(st, l) && forall d | 0 <= d < |st.calls| :: st.calls[d].offer != Some(l)
  }

  ghost predicate Held(st: State, l: LeaseId) {
    st.receiver.Holding? && st.receiver.lease == l
  }

  /** Lease l is as adrift as before, took nothing and was not retyped, and no new lookup found it. */
  ghost predicate StaysAdrift(st: State, st': State, l: LeaseId) {
    && Adrift(st', l) && l < |st.heap|
    && st'.heap[l].lease.msgType == st.heap[l].lease.msgType
    && st'.heap[l].lease.accepted == st.heap[l].lease.accepted
    && (if Held(st, l) then st'.receiver == st.receiver else !Held(st', l))
  }

  lemma AdriftTry(cfg: Config, st: State, step: Step, l: LeaseId)
    requires Basic(st) && Enabled(cfg, st, step) && (step.Begin? || step.BeginRequest? || step.Put?) && Adrift(st, l)
    ensures StaysAdrift(st, Next(cfg, st, step), l)
  {
  }

  lemma AdriftDelivered(cfg: Config, st: State, d: CallId, l: LeaseId)
    requires Basic(st) && Enabled(cfg, st, Deliver(d)) && Adrift(st, l) && st.calls[d].attempt.value.lease != l
    ensures StaysAdrift(st, AfterDeliver(st, d), l)
  {
  }

  lemma AdriftWoken(cfg: Config, st: State, d: CallId, l: LeaseId)
    requires Basic(st) && Enabled(cfg, st, Wake(d)) && Adrift(st, l)
    ensures StaysAdrift(st, AfterWake(st, d), l)
  {
  }

  lemma AdriftSend(cfg: Config, st: State, step: Step, l: LeaseId)
    requires Basic(st) && Enabled(cfg, st, step) && SendStep(step) && Adrift(st, l)
    ensures StaysAdrift(st, Next(cfg, st, step), l)
  {
  }

  lemma AdriftQuiet(cfg: Config, st: State, step: Step, l: LeaseId)
    requires Basic(st) && Enabled(cfg, st, step) && Adrift(st, l)
    requires !step.Begin? && !step.BeginRequest? && !step.Put? && !step.Deliver? && !step.Wake? && !step.Apply? && !step.Sweep?
    requires !SendStep(step)
    ensures StaysAdrift(st, Next(cfg, st, step), l)
  {
  }

  lemma AdriftSweep(st: State, l: LeaseId)
    requires Basic(st) && Adrift(st, l)
    ensures StaysAdrift(st, AfterSweep(st), l)
  {
  }

  /** While its call waits for it, a lease adrift stays adrift, and only the receiver that holds it can change it. */
  lemma AdriftStep(cfg: Config, st: State, step: Step, c: CallId, l: LeaseId)
    requires Basic(st) && Owned(st) && Enabled(cfg, st, step) && step != Apply
    requires Adrift(st, l) && WaitsFor(st, c, l) && WaitsFor(Next(cfg, st, step), c, l)
    ensures StaysAdrift(st, Next(cfg, st, step), l)
  {
    if step.Begin? || step.BeginRequest? || step.Put? {
      AdriftTry(cfg, st, step, l);
    } else if step.Deliver? {
      assert step.c != c && st.calls[step.c].attempt.value.lease != l;
      AdriftDelivered(cfg, st, step.c, l);
    } else if step.Wake? {
      AdriftWoken(cfg, st, step.c, l);
    } else if step.Sweep? {
      AdriftSweep(st, l);
    } else if SendStep(step) {
      AdriftSend(cfg, st, step, l);
    } else {
      AdriftQuiet(cfg, st, step, l);
    }
  }

  lemma AdriftApply(st: State, l: LeaseId)
    requires Basic(st) && st.crash.None? && Adrift(st, l) && st.receiver.Holding? && st.heap[l].lease.accepted.None?
    requires AfterApply(st).crash.None?
    ensures var st' := AfterApply(st);
            && Adrift(st', l) && !Held(st', l)
            && (st'.heap[l].lease.accepted.Some? <==> HoldsAnswer(st, l))
  {
    assert SlotBasic(st.heap[l]);
  }

  /** An accepted reply stays whatever is applied. */
  lemma AdriftAnswered(st: State, l: LeaseId)
    requires Basic(st) && st.crash.None? && Adrift(st, l) && st.receiver.Holding? && st.heap[l].lease.accepted.Some?
    requires AfterApply(st).crash.None?
    ensures var st' := AfterApply(st);
            Adrift(st', l) && !Held(st', l) && st'.heap[l].lease.accepted.Some?
  {
    assert SlotBasic(st.heap[l]);
  }

  /** What has become of a lease at m that was signalled at s, while its call waits for it. */
  ghost predicate Tracked(run: Run, s: nat, m: nat, l: LeaseId)
    requires s < m < |run.states|
  {
    var st0, st := run.states[s], run.states[m];
    && l < |st0.heap| && Adrift(st, l)
    && (if AppliesBetween(run, s, m) then
          !Held(st, l) && (st.heap[l].lease.accepted.Some? <==> HoldsAnswer(st0, l))
        else
          && st.heap[l].lease.accepted.None?
          && st.heap[l].lease.msgType == st0.heap[l].lease.msgType
          && (if Held(st0, l) then st.receiver == st0.receiver else !Held(st, l)))
  }

  lemma TrackedFirst(cfg: Config, run: Run, s: nat, c: CallId, l: LeaseId)
    requires run.Valid(cfg) && SignalsAt(run, s, c, l) && run.states[s + 1].crash.None?
    ensures Tracked(run, s, s + 1, l)
  {
    assert run.Linked(cfg, s);
    BasicRun(cfg, run, s);
    var st, st' := run.states[s], run.states[s + 1];
    var k :| k in Doomed(st) && st.store[k].lease == l;
    assert EntryBasic(st, k) && SlotBasic(st.heap[l]);
    forall d | 0 <= d < |st.calls| ensures st.calls[d].offer != Some(l) {
      if st.calls[d].offer.Some? { assert Withdrawn(st, st.calls[d].offer.value); }
    }
    forall j | j in st'.store ensures st'.store[j].lease != l { assert EntryBasic(st, j); }
  }

  lemma AppliesSnoc(run: Run, s: nat, m: nat)
    requires s < m < |run.steps|
    ensures AppliesBetween(run, s, m + 1) <==> AppliesBetween(run, s, m) || run.steps[m] == Apply
  {
    if AppliesBetween(run, s, m) {
      var j :| s < j < m && j < |run.steps| && run.steps[j] == Apply;
      assert s < j < m + 1;
    }
  }

  lemma TrackedNext(cfg: Config, run: Run, s: nat, m: nat, c: CallId, l: LeaseId)
    requires run.Valid(cfg) && s < m < |run.steps| && Tracked(run, s, m, l)
    requires WaitsFor(run.states[m], c, l) && WaitsFor(run.states[m + 1], c, l) && run.states[m + 1].crash.None?
    ensures Tracked(run, s, m + 1, l)
  {
    assert run.Linked(cfg, m);
    BasicRun(cfg, run, m);
    OwnedRun(cfg, run, m);
    AppliesSnoc(run, s, m);
    var st, step := run.states[m], run.steps[m];
    if step == Apply {
      if st.heap[l].lease.accepted.None? {
        AdriftApply(st, l);
      } else {
        AdriftAnswered(st, l);
      }
    } else {
      AdriftStep(cfg, st, step, c, l);
    }
  }

  lemma NoCrashBefore(cfg: Config, run: Run, m: nat, n: nat)
    requires run.Valid(cfg) && m <= n < |run.steps|
    ensures run.states[m].crash.None?
  {
    assert run.Linked(cfg, m);
  }

  lemma {:induction false} TrackedAt(cfg: Config, run: Run, s: nat, m: nat, n: nat, c: CallId, l: LeaseId)
    requires run.Valid(cfg) && s < m <= n < |run.steps| && SignalsAt(run, s, c, l) && WaitsFor(run.states[n], c, l)
    ensures Tracked(run, s, m, l)
    decreases m
  {
    NoCrashBefore(cfg, run, m, n);
    if m == s + 1 {
      TrackedFirst(cfg, run, s, c, l);
    } else {
      TrackedAt(cfg, run, s, m - 1, n, c, l);
      HeapGrowsRun(cfg, run, s, m - 1);
      HeapGrowsRun(cfg, run, s, m);
      WaitedSince(cfg, run, m - 1, n, c, l);
      WaitedSince(cfg, run, m, n, c, l);
      TrackedNext(cfg, run, s, m - 1, c, l);
    }
  }

  /**
   * A sweep before step n found the key of lease l in its snapshot and signalled l while call c waited for
   * it, and no answer that the receiver held for l at that moment was applied before step n.
   */
  ghost predicate SignalledUnanswered(run: Run, n: nat, c: CallId, l: LeaseId) {
    && n < |run.states|
    && exists s: nat :: s < n && SignalsAt(run, s, c, l) && !(HoldsAnswer(run.states[s], l) && AppliesBetween(run, s, n))
  }

  /**
   * In every run `wait` hands over a lease that took no reply exactly when some sweep had that lease's key
   * in its snapshot and found it in the store while the call waited, and the receiver did not hold an
   * answer to it at that moment that it applied before the call woke up.
   */
  lemma DeliveredUnansweredIff(cfg: Config, run: Run, n: nat, c: CallId)
    requires run.Valid(cfg) && n < |run.steps| && run.steps[n] == Deliver(c)
    ensures var st := run.states[n];
            && c < |st.calls| && st.calls[c].attempt.Some?
            && var l := st.calls[c].attempt.value.lease;
               && l < |st.heap|
               && (st.heap[l].lease.accepted.None? <==> SignalledUnanswered(run, n, c, l))
  {
    assert run.Linked(cfg, n);
    BasicRun(cfg, run, n);
    var st := run.states[n];
    var l := st.calls[c].attempt.value.lease;
    assert SlotBasic(st.heap[l]);
    if st.heap[l].lease.accepted.None? {
      var s := SignalledBy(cfg, run, n, l);
      WaitedSince(cfg, run, s, n, c, l);
      assert SignalsAt(run, s, c, l);
      TrackedAt(cfg, run, s, n, n, c, l);
    }
    forall s: nat | s < n && SignalsAt(run, s, c, l) && !(HoldsAnswer(run.states[s], l) && AppliesBetween(run, s, n))
      ensures st.heap[l].lease.accepted.None?
    {
      TrackedAt(cfg, run, s, n, n, c, l);
    }
  }
}
