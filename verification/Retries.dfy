/** How often one call sends, and how often it answers its caller. */
module Retries {
  import opened Engine

  // ---------- what is counted ----------

  /** How often call c starts a try. */
  function Starts(steps: seq<Step>, c: CallId): nat {
    if steps == [] then 0
    else
      var last := steps[|steps| - 1];
      Starts(steps[..|steps| - 1], c) + if (last.Begin? || last.BeginRequest?) && last.c == c then 1 else 0
  }

  lemma StartsNext(steps: seq<Step>, n: nat, c: CallId)
    requires n < |steps|
    ensures Starts(steps[..n + 1], c) ==
              Starts(steps[..n], c) + if (steps[n].Begin? || steps[n].BeginRequest?) && steps[n].c == c then 1 else 0
  {
    assert steps[..n + 1][..n] == steps[..n];
  }

  lemma SendsTry(cfg: Config, st: State, step: Step, c: CallId)
    requires Wf(st) && Enabled(cfg, st, step) && c < |st.calls| && (step.Begin? || step.BeginRequest?)
    ensures c < |Next(cfg, st, step).calls|
    ensures Next(cfg, st, step).calls[c].sends == st.calls[c].sends + if step.c == c then 1 else 0
  {
  }

  lemma SendsStep(cfg: Config, st: State, step: Step, c: CallId)
    requires Wf(st) && Enabled(cfg, st, step) && c < |st.calls|
    ensures c < |Next(cfg, st, step).calls|
    ensures Next(cfg, st, step).calls[c].sends ==
              st.calls[c].sends + if (step.Begin? || step.BeginRequest?) && step.c == c then 1 else 0
  {
    if step.Begin? || step.BeginRequest? {
      SendsTry(cfg, st, step, c);
    } else if step.Sweep? {
      assert AfterSweep(st).calls == st.calls;
    }
  }

  lemma NewCallSendsNothing(cfg: Config, st: State, step: Step, c: CallId)
    requires Wf(st) && Enabled(cfg, st, step) && c >= |st.calls|
    ensures c < |Next(cfg, st, step).calls| ==> Next(cfg, st, step).calls[c].sends == 0
    ensures (step.Begin? || step.BeginRequest?) ==> step.c != c
  {
  }

  /** The field `sends` of a call is the number of tries it started. */
  lemma {:induction false} SendsAreStarts(cfg: Config, run: Run, n: nat, c: CallId)
    requires run.Valid(cfg) && n <= |run.steps|
    ensures Starts(run.steps[..n], c) == if c < |run.states[n].calls| then run.states[n].calls[c].sends else 0
  {
    if n > 0 {
      SendsAreStarts(cfg, run, n - 1, c);
      StartsNext(run.steps, n - 1, c);
      assert run.Linked(cfg, n - 1);
      if c < |run.states[n - 1].calls| {
        SendsStep(cfg, run.states[n - 1], run.steps[n - 1], c);
      } else {
        NewCallSendsNothing(cfg, run.states[n - 1], run.steps[n - 1], c);
      }
    }
  }

  /** How many packets for leases of call c are written in the first n steps. */
  function Packets(run: Run, n: nat, c: CallId): nat
    requires n <= |run.steps| && n <= |run.states|
  {
    if n == 0 then 0
    else
      var step, heap := run.steps[n - 1], run.states[n - 1].heap;
      Packets(run, n - 1, c) + if step.WriteSend? && step.l < |heap| && heap[step.l].owner == c then 1 else 0
  }

  predicate Counts(s: Slot, c: CallId, written: bool) {
    s.owner == c && (written ==> s.write.Written?)
  }

  /** How many leases of call c there are, or how many of them were written. */
  function Slots(heap: seq<Slot>, c: CallId, written: bool): nat {
    if heap == [] then 0
    else Slots(heap[..|heap| - 1], c, written) + if Counts(heap[|heap| - 1], c, written) then 1 else 0
  }

  lemma {:induction false} SlotsSame(h: seq<Slot>, h': seq<Slot>, c: CallId, written: bool)
    requires |h| == |h'| && forall i | 0 <= i < |h| :: Counts(h[i], c, written) == Counts(h'[i], c, written)
    ensures Slots(h, c, written) == Slots(h', c, written)
  {
    if h != [] {
      SlotsSame(h[..|h| - 1], h'[..|h| - 1], c, written);
    }
  }

  lemma {:induction false} SlotsOneMore(h: seq<Slot>, h': seq<Slot>, l: LeaseId, c: CallId)
    requires |h| == |h'| && l < |h| && !Counts(h[l], c, true) && Counts(h'[l], c, true)
    requires forall i | 0 <= i < |h| && i != l :: Counts(h[i], c, true) == Counts(h'[i], c, true)
    ensures Slots(h', c, true) == Slots(h, c, true) + 1
  {
    var n := |h| - 1;
    if l == n {
      SlotsSame(h[..n], h'[..n], c, true);
    } else {
      SlotsOneMore(h[..n], h'[..n], l, c);
    }
  }

  lemma {:induction false} WrittenAreSlots(h: seq<Slot>, c: CallId)
    ensures Slots(h, c, true) <= Slots(h, c, false)
  {
    if h != [] { WrittenAreSlots(h[..|h| - 1], c); }
  }

  lemma SlotsTry(cfg: Config, st: State, step: Step, c: CallId)
    requires Wf(st) && Enabled(cfg, st, step) && (step.Begin? || step.BeginRequest?)
    ensures var h := Next(cfg, st, step).heap;
            && Slots(h, c, true) == Slots(st.heap, c, true)
            && Slots(h, c, false) == Slots(st.heap, c, false) + if step.c == c then 1 else 0
  {
    var h := Next(cfg, st, step).heap;
    SlotsSame(st.heap, h[..|h| - 1], c, true);
    SlotsSame(st.heap, h[..|h| - 1], c, false);
  }

  lemma SlotsSweep(st: State, c: CallId, written: bool)
    requires Wf(st)
    ensures Slots(AfterSweep(st).heap, c, written) == Slots(st.heap, c, written)
  {
    SlotsSame(st.heap, AfterSweep(st).heap, c, written);
  }

  lemma SlotsWrite(cfg: Config, st: State, l: LeaseId, c: CallId)
    requires Wf(st) && Enabled(cfg, st, WriteSend(l))
    ensures var h := Next(cfg, st, WriteSend(l)).heap;
            && Slots(h, c, true) == Slots(st.heap, c, true) + (if st.heap[l].owner == c then 1 else 0)
            && Slots(h, c, false) == Slots(st.heap, c, false)
  {
    var h := Next(cfg, st, WriteSend(l)).heap;
    SlotsSame(st.heap, h, c, false);
    if st.heap[l].owner == c { SlotsOneMore(st.heap, h, l, c); } else { SlotsSame(st.heap, h, c, true); }
  }

  lemma SlotsQuiet(cfg: Config, st: State, step: Step, c: CallId, written: bool)
    requires Wf(st) && Enabled(cfg, st, step) && !step.Begin? && !step.BeginRequest? && !step.Sweep? && !step.WriteSend?
    ensures Slots(Next(cfg, st, step).heap, c, written) == Slots(st.heap, c, written)
  {
    SlotsSame(st.heap, Next(cfg, st, step).heap, c, written);
  }

  lemma SlotsStep(cfg: Config, st: State, step: Step, st': State, c: CallId)
    requires Wf(st) && Enabled(cfg, st, step) && st' == Next(cfg, st, step)
    ensures Slots(st'.heap, c, true) ==
              Slots(st.heap, c, true) + if step.WriteSend? && step.l < |st.heap| && st.heap[step.l].owner == c then 1 else 0
    ensures Slots(st'.heap, c, false) ==
              Slots(st.heap, c, false) + if (step.Begin? || step.BeginRequest?) && step.c == c then 1 else 0
  {
    if step.Begin? || step.BeginRequest? {
      SlotsTry(cfg, st, step, c);
    } else if step.Sweep? {
      SlotsSweep(st, c, true);
      SlotsSweep(st, c, false);
    } else if step.WriteSend? {
      SlotsWrite(cfg, st, step.l, c);
    } else {
      SlotsQuiet(cfg, st, step, c, true);
      SlotsQuiet(cfg, st, step, c, false);
    }
  }

  lemma {:induction false} LeasesAreStarts(cfg: Config, run: Run, n: nat, c: CallId)
    requires run.Valid(cfg) && n <= |run.steps|
    ensures Slots(run.states[n].heap, c, false) == Starts(run.steps[..n], c)
  {
    if n > 0 {
      LeasesAreStarts(cfg, run, n - 1, c);
      StartsNext(run.steps, n - 1, c);
      assert run.Linked(cfg, n - 1);
      SlotsStep(cfg, run.states[n - 1], run.steps[n - 1], run.states[n], c);
    }
  }

  lemma {:induction false} WrittenArePackets(cfg: Config, run: Run, n: nat, c: CallId)
    requires run.Valid(cfg) && n <= |run.steps|
    ensures Slots(run.states[n].heap, c, true) == Packets(run, n, c)
  {
    if n > 0 {
      WrittenArePackets(cfg, run, n - 1, c);
      assert run.Linked(cfg, n - 1);
      SlotsStep(cfg, run.states[n - 1], run.steps[n - 1], run.states[n], c);
    }
  }

  /** A call writes at most one packet for each try it starts. */
  lemma OnePacketPerTry(cfg: Config, run: Run, n: nat, c: CallId)
    requires run.Valid(cfg) && n <= |run.steps|
    ensures Packets(run, n, c) <= Starts(run.steps[..n], c)
  {
    LeasesAreStarts(cfg, run, n, c);
    WrittenArePackets(cfg, run, n, c);
    WrittenAreSlots(run.states[n].heap, c);
  }

  // ---------- the pace ----------

  /** On an idealised clock the pause of a retry ends with another try only while the call's context is live. */
  ghost predicate Ideal(cfg: Config, run: Run) {
    && run.Valid(cfg)
    && (forall n {:trigger run.Linked(cfg, n)} | 0 <= n < |run.steps| ::
          && run.Linked(cfg, n)
          && (run.steps[n].Wake? ==> !CtxDone(run.states[n], run.states[n].calls[run.steps[n].c])))
  }

  function Period(cfg: Config): nat {
    cfg.timeout + cfg.retry
  }

  /** Every retry so far took a whole timeout and a whole pause. */
  ghost predicate Paced(cfg: Config, st: State, call: Call) {
    var base := call.start + call.failures * Period(cfg);
    && call.start <= call.deadline && call.start <= st.now
    && base <= call.deadline
    && match call.phase
       case Ready(readyAt) => base <= readyAt <= st.now
       case Waiting => call.attempt.Some? && base <= call.attempt.value.began <= st.now
       case Queued => CtxDone(st, call) || base + cfg.timeout <= st.now
       case Asleep(since) => since <= st.now && (CtxDone(st, call) || base + cfg.timeout <= since)
       case Finished(_) => true
  }

  /** One send per retry, one for the accepted offer, one for the try that is under way or was the last. */
  ghost predicate Counted(call: Call) {
    && call.sends <= call.failures + (if call.offer.Some? then 1 else 0) + (if call.phase.Ready? then 0 else 1)
    && (call.kind == Renew ==> call.offer.None?)
  }

  lemma CountedTry(cfg: Config, st: State, step: Step, c: CallId)
    requires Wf(st) && Enabled(cfg, st, step) && (step.Begin? || step.BeginRequest?)
    requires c < |st.calls| && Counted(st.calls[c])
    ensures c < |Next(cfg, st, step).calls| && Counted(Next(cfg, st, step).calls[c])
  {
  }

  lemma CountedEnd(cfg: Config, st: State, step: Step, c: CallId)
    requires Wf(st) && Enabled(cfg, st, step) && (step.Deliver? || step.Wake?)
    requires c < |st.calls| && Counted(st.calls[c])
    ensures c < |Next(cfg, st, step).calls| && Counted(Next(cfg, st, step).calls[c])
  {
  }

  lemma CountedCall(cfg: Config, st: State, step: Step, c: CallId)
    requires Wf(st) && Enabled(cfg, st, step) && !step.Sweep?
    requires c < |st.calls| && Counted(st.calls[c])
    ensures c < |Next(cfg, st, step).calls| && Counted(Next(cfg, st, step).calls[c])
  {
    match step
    case Begin(_, _, _, _) => CountedTry(cfg, st, step, c);
    case BeginRequest(_, _) => CountedTry(cfg, st, step, c);
    case Deliver(_) => CountedEnd(cfg, st, step, c);
    case Wake(_) => CountedEnd(cfg, st, step, c);
    case _ =>
  }

  lemma CountedStep(cfg: Config, st: State, step: Step)
    requires Wf(st) && Enabled(cfg, st, step)
    requires forall c | 0 <= c < |st.calls| :: Counted(st.calls[c])
    ensures forall c | 0 <= c < |Next(cfg, st, step).calls| :: Counted(Next(cfg, st, step).calls[c])
  {
    var st' := Next(cfg, st, step);
    forall c | 0 <= c < |st'.calls| ensures Counted(st'.calls[c]) {
      if c < |st.calls| {
        assert Counted(st.calls[c]);
        if step.Sweep? { assert st'.calls == st.calls; } else { CountedCall(cfg, st, step, c); }
      }
    }
  }

  lemma {:induction false} CountedRun(cfg: Config, run: Run, n: nat)
    requires run.Valid(cfg) && n <= |run.steps|
    ensures forall c | 0 <= c < |run.states[n].calls| :: Counted(run.states[n].calls[c])
  {
    if n > 0 {
      CountedRun(cfg, run, n - 1);
      assert run.Linked(cfg, n - 1);
      CountedStep(cfg, run.states[n - 1], run.steps[n - 1]);
    }
  }

  lemma OneMore(f: nat, p: nat)
    ensures (f + 1) * p == f * p + p
  {
  }

  /** What a step may do to a call, as far as its pace is concerned. */
  ghost predicate Moves(cfg: Config, st: State, st': State, call: Call, call': Call) {
    && st.now <= st'.now
    && call'.start == call.start && call'.deadline == call.deadline && (call.cancelled ==> call'.cancelled)
    && (if call'.phase == call.phase then
          call'.failures == call.failures && call'.attempt == call.attempt
        else
          st'.now == st.now &&
          match call'.phase
          case Ready(readyAt) =>
            && readyAt == st.now
            && (|| (call.phase.Waiting? && call'.failures == call.failures)
                || (&& call.phase.Asleep? && call.phase.since + cfg.retry <= st.now && !CtxDone(st, call)
                    && call.failures <= call'.failures <= call.failures + 1))
          case Waiting =>
            && call'.failures == call.failures && call'.attempt.Some? && call.phase.Ready?
            && call.phase.readyAt <= call'.attempt.value.began <= st.now
          case Queued =>
            && call'.failures == call.failures && call.phase.Waiting? && call.attempt.Some?
            && (CtxDone(st, call) || call.attempt.value.began + cfg.timeout <= st.now)
          case Asleep(since) =>
            call'.failures == call.failures && call.phase.Queued? && since == st.now
          case Finished(_) => call'.failures == call.failures)
  }

  lemma PacedMove(cfg: Config, st: State, st': State, call: Call, call': Call)
    requires Paced(cfg, st, call) && Moves(cfg, st, st', call, call')
    ensures Paced(cfg, st', call')
  {
    OneMore(call.failures, Period(cfg));
  }

  lemma TryMoves(cfg: Config, st: State, step: Step, c: CallId)
    requires Wf(st) && Enabled(cfg, st, step) && c < |st.calls| && (step.Begin? || step.BeginRequest?)
    ensures var st' := Next(cfg, st, step); c < |st'.calls| && Moves(cfg, st, st', st.calls[c], st'.calls[c])
  {
  }

  lemma DeliverMoves(cfg: Config, st: State, d: CallId, c: CallId)
    requires Wf(st) && Enabled(cfg, st, Deliver(d)) && c < |st.calls|
    ensures var st' := AfterDeliver(st, d); c < |st'.calls| && Moves(cfg, st, st', st.calls[c], st'.calls[c])
  {
  }

  lemma WakeMoves(cfg: Config, st: State, d: CallId, c: CallId)
    requires Wf(st) && Enabled(cfg, st, Wake(d)) && c < |st.calls| && !CtxDone(st, st.calls[d])
    ensures var st' := AfterWake(st, d); c < |st'.calls| && Moves(cfg, st, st', st.calls[c], st'.calls[c])
  {
  }

  lemma StepMoves(cfg: Config, st: State, step: Step, c: CallId)
    requires Wf(st) && Enabled(cfg, st, step) && c < |st.calls|
    requires step.Wake? ==> !CtxDone(st, st.calls[step.c])
    ensures var st' := Next(cfg, st, step); c < |st'.calls| && Moves(cfg, st, st', st.calls[c], st'.calls[c])
  {
    match step
    case Sweep => assert Next(cfg, st, step).calls == st.calls;
    case Wake(d) => WakeMoves(cfg, st, d, c);
    case Deliver(d) => DeliverMoves(cfg, st, d, c);
    case Begin(_, _, _, _) => TryMoves(cfg, st, step, c);
    case BeginRequest(_, _) => TryMoves(cfg, st, step, c);
    case _ =>
  }

  lemma PacedStep(cfg: Config, st: State, step: Step)
    requires Wf(st) && Enabled(cfg, st, step)
    requires step.Wake? ==> !CtxDone(st, st.calls[step.c])
    requires forall c | 0 <= c < |st.calls| :: Paced(cfg, st, st.calls[c])
    ensures var st' := Next(cfg, st, step); forall c | 0 <= c < |st'.calls| :: Paced(cfg, st', st'.calls[c])
  {
    var st' := Next(cfg, st, step);
    forall c | 0 <= c < |st'.calls| ensures Paced(cfg, st', st'.calls[c]) {
      if c < |st.calls| {
        StepMoves(cfg, st, step, c);
        PacedMove(cfg, st, st', st.calls[c], st'.calls[c]);
      }
    }
  }

  lemma {:induction false} PacedRun(cfg: Config, run: Run, n: nat)
    requires Ideal(cfg, run) && n <= |run.steps|
    ensures forall c | 0 <= c < |run.states[n].calls| :: Paced(cfg, run.states[n], run.states[n].calls[c])
  {
    if n > 0 {
      PacedRun(cfg, run, n - 1);
      assert run.Linked(cfg, n - 1);
      PacedStep(cfg, run.states[n - 1], run.steps[n - 1]);
    }
  }

  lemma AtMostQuotient(f: nat, p: nat, d: nat)
    requires p > 0 && f * p <= d
    ensures f <= d / p
  {
    var q := d / p;
    assert d < (q + 1) * p by { assert d == q * p + d % p; OneMore(q, p); }
    assert f >= q + 1 ==> f * p >= (q + 1) * p;
  }

  /**
   * With deadline D after its start, a `GetLease` call starts at most floor(D / (timeout + retry)) + 2
   * tries over both loops, and a `Renew` call at most floor(D / (timeout + retry)) + 1; and it writes at most
   * one packet for each.
   */
  lemma BoundedSends(cfg: Config, run: Run, n: nat, c: CallId)
    requires Ideal(cfg, run) && Period(cfg) > 0 && n <= |run.steps|
    requires c < |run.states[n].calls|
    ensures var call := run.states[n].calls[c];
            && call.start <= call.deadline
            && Packets(run, n, c) <= Starts(run.steps[..n], c)
            && Starts(run.steps[..n], c) <= (call.deadline - call.start) / Period(cfg) + (if call.kind == GetLease then 2 else 1)
  {
    OnePacketPerTry(cfg, run, n, c);
    SendsAreStarts(cfg, run, n, c);
    CountedRun(cfg, run, n);
    PacedRun(cfg, run, n);
    var call := run.states[n].calls[c];
    assert Paced(cfg, run.states[n], call) && Counted(call);
    AtMostQuotient(call.failures, Period(cfg), call.deadline - call.start);
  }

  // ---------- one result ----------

  /** Step j ends call c: it puts the result on the channel of the call. */
  ghost predicate Ends(run: Run, j: nat, c: CallId) {
    && j + 1 < |run.states|
    && c < |run.states[j].calls| && !run.states[j].calls[c].phase.Finished?
    && c < |run.states[j + 1].calls| && run.states[j + 1].calls[c].phase.Finished?
  }

  lemma FinishedStaysUnderTry(cfg: Config, st: State, step: Step, c: CallId)
    requires Wf(st) && Enabled(cfg, st, step) && (step.Begin? || step.BeginRequest? || step.Deliver? || step.Wake?)
    requires c < |st.calls| && st.calls[c].phase.Finished?
    ensures c < |Next(cfg, st, step).calls| && Next(cfg, st, step).calls[c] == st.calls[c]
  {
  }

  lemma FinishedStays(cfg: Config, st: State, step: Step, c: CallId)
    requires Wf(st) && Enabled(cfg, st, step) && c < |st.calls| && st.calls[c].phase.Finished?
    ensures c < |Next(cfg, st, step).calls| && Next(cfg, st, step).calls[c].phase == st.calls[c].phase
  {
    if step.Sweep? {
      assert AfterSweep(st).calls == st.calls;
    } else if step.Begin? || step.BeginRequest? || step.Deliver? || step.Wake? {
      FinishedStaysUnderTry(cfg, st, step, c);
    }
  }

  /** A finished call keeps its result, whatever else happens in the run. */
  lemma {:induction false} ResultIsFinal(cfg: Config, run: Run, m: nat, n: nat, c: CallId)
    requires run.Valid(cfg) && m <= n <= |run.steps|
    requires c < |run.states[m].calls| && run.states[m].calls[c].phase.Finished?
    ensures c < |run.states[n].calls| && run.states[n].calls[c].phase == run.states[m].calls[c].phase
  {
    if m < n {
      ResultIsFinal(cfg, run, m, n - 1, c);
      assert run.Linked(cfg, n - 1);
      FinishedStays(cfg, run.states[n - 1], run.steps[n - 1], c);
    }
  }

  lemma OpensUnfinished(cfg: Config, st: State, step: Step, c: CallId)
    requires Wf(st) && Enabled(cfg, st, step)
    requires |st.calls| <= c < |Next(cfg, st, step).calls|
    ensures !Next(cfg, st, step).calls[c].phase.Finished?
  {
  }

  lemma {:induction false} EndedBy(cfg: Config, run: Run, n: nat, c: CallId) returns (j: nat)
    requires run.Valid(cfg) && n <= |run.steps|
    requires c < |run.states[n].calls| && run.states[n].calls[c].phase.Finished?
    ensures j < n && Ends(run, j, c)
  {
    j := n - 1;
    assert run.Linked(cfg, j);
    if c >= |run.states[j].calls| {
      OpensUnfinished(cfg, run.states[j], run.steps[j], c);
    } else if run.states[j].calls[c].phase.Finished? {
      j := EndedBy(cfg, run, j, c);
    }
  }

  /** In every run exactly one step ends a finished call, and the result it puts on the channel stays the result. */
  lemma OneValue(cfg: Config, run: Run, n: nat, c: CallId) returns (j: nat)
    requires run.Valid(cfg) && n <= |run.steps|
    requires c < |run.states[n].calls| && run.states[n].calls[c].phase.Finished?
    ensures j < n && Ends(run, j, c) && run.states[j + 1].calls[c].phase == run.states[n].calls[c].phase
    ensures forall i: nat | i < |run.steps| && Ends(run, i, c) :: i == j
  {
    j := EndedBy(cfg, run, n, c);
    ResultIsFinal(cfg, run, j + 1, n, c);
    forall i: nat | i < |run.steps| && Ends(run, i, c) ensures i == j {
      if i < j { ResultIsFinal(cfg, run, i + 1, j, c); }
      if j < i { ResultIsFinal(cfg, run, j + 1, i, c); }
    }
  }
}

/** The send gate: `outmux`, taken by writers for one packet and by `Block` until the pause or the context ends. */
module SendGate {
  import opened Engine

  /** The gate names the one writer in its critical section, and any call that is asleep with a live context. */
  ghost predicate Exclusive(st: State) {
    && (forall l | 0 <= l < |st.heap| :: st.heap[l].write.Writing? <==> st.gate == Writer(l))
    && (forall c | 0 <= c < |st.calls| && st.calls[c].phase.Asleep? :: st.gate == Blocker(c) || CtxDone(st, st.calls[c]))
  }

  predicate PhaseChange(step: Step) {
    step.Deliver? || step.DeliverError? || step.Timeout? || step.Block? || step.Wake? || step.GiveUp? || step.Cancel? || step.Open?
  }

  lemma ExclusiveSweep(st: State)
    requires Wf(st) && Exclusive(st)
    ensures Exclusive(AfterSweep(st))
  {
  }

  /** Steps of the calls. */
  lemma ExclusiveCallStep(cfg: Config, st: State, step: Step)
    requires Wf(st) && Enabled(cfg, st, step) && Exclusive(st) && PhaseChange(step)
    ensures Exclusive(Next(cfg, st, step))
  {
  }

  /** Steps that start or store a try. */
  lemma ExclusiveTryStep(cfg: Config, st: State, step: Step)
    requires Wf(st) && Enabled(cfg, st, step) && Exclusive(st) && (step.Begin? || step.BeginRequest? || step.Put?)
    ensures Exclusive(Next(cfg, st, step))
  {
  }

  /** All other steps but the sweep. */
  lemma ExclusiveOtherStep(cfg: Config, st: State, step: Step)
    requires Wf(st) && Enabled(cfg, st, step) && Exclusive(st) && !PhaseChange(step)
    requires !step.Begin? && !step.BeginRequest? && !step.Put? && !step.Sweep?
    ensures Exclusive(Next(cfg, st, step))
  {
  }

  lemma {:induction false} ExclusiveRun(cfg: Config, run: Run, n: nat)
    requires run.Valid(cfg) && n <= |run.steps|
    ensures Exclusive(run.states[n])
  {
    if n > 0 {
      ExclusiveRun(cfg, run, n - 1);
      assert run.Linked(cfg, n - 1);
      var st, step := run.states[n - 1], run.steps[n - 1];
      if step.Sweep? {
        ExclusiveSweep(st);
      } else if PhaseChange(step) {
        ExclusiveCallStep(cfg, st, step);
      } else if step.Begin? || step.BeginRequest? || step.Put? {
        ExclusiveTryStep(cfg, st, step);
      } else {
        ExclusiveOtherStep(cfg, st, step);
      }
    }
  }

  /** Call c is asleep and its context is live. */
  ghost predicate SleepsOn(st: State, c: CallId) {
    c < |st.calls| && st.calls[c].phase.Asleep? && !CtxDone(st, st.calls[c])
  }

  /** At most one goroutine is inside the gate: one writer, or one call that sleeps while its context is live. */
  lemma AtMostOneHolder(cfg: Config, run: Run, n: nat)
    requires run.Valid(cfg) && n <= |run.steps|
    ensures var st := run.states[n];
            && (forall l, m | 0 <= l < |st.heap| && 0 <= m < |st.heap| && st.heap[l].write.Writing? && st.heap[m].write.Writing? :: l == m)
            && (forall c: CallId, d: CallId | SleepsOn(st, c) && SleepsOn(st, d) :: c == d)
            && (forall l, c: CallId | 0 <= l < |st.heap| && st.heap[l].write.Writing? :: !SleepsOn(st, c))
  {
    ExclusiveRun(cfg, run, n);
  }

  ghost predicate Pausing(st: State, c: CallId) {
    c < |st.calls| && st.calls[c].phase.Asleep? && st.gate == Blocker(c)
  }

  /** What ends a pause of call c: its caller goes on, or its context ends and the gate is released. */
  ghost predicate EndsPause(st: State, step: Step, c: CallId) {
    || step == Wake(c)
    || step == GiveUp(c)
    || (step == Unblock && c < |st.calls| && CtxDone(st, st.calls[c]))
  }

  /** No other step opens the gate or wakes the call. */
  lemma PauseStep(cfg: Config, st: State, step: Step, c: CallId)
    requires Wf(st) && Enabled(cfg, st, step)
    requires step == Block(c) || (Pausing(st, c) && !EndsPause(st, step, c))
    ensures Pausing(Next(cfg, st, step), c)
  {
  }

  /** A pause that no step up to j has ended is still going on there, with the gate shut. */
  lemma {:induction false} PauseHolds(cfg: Config, run: Run, i: nat, j: nat, c: CallId)
    requires run.Valid(cfg) && i < j <= |run.steps| && run.steps[i] == Block(c)
    requires forall m | i < m < j :: !EndsPause(run.states[m], run.steps[m], c)
    ensures Pausing(run.states[j], c)
  {
    if i < j - 1 { PauseHolds(cfg, run, i, j - 1, c); }
    assert run.Linked(cfg, j - 1);
    PauseStep(cfg, run.states[j - 1], run.steps[j - 1], c);
  }

  /**
   * A packet of any call is written after the `Block` of a retry only if meanwhile that retry has ended its
   * pause or given up, or the gate was released because its context had ended.
   */
  lemma NoWriteDuringPause(cfg: Config, run: Run, i: nat, j: nat, c: CallId, l: LeaseId)
    requires run.Valid(cfg) && i < j < |run.steps|
    requires run.steps[i] == Block(c) && run.steps[j] == WriteSend(l)
    ensures exists m :: i < m < j && EndsPause(run.states[m], run.steps[m], c)
  {
    assert run.Linked(cfg, j);
    assert !Pausing(run.states[j], c);
    if forall m | i < m < j :: !EndsPause(run.states[m], run.steps[m], c) {
      PauseHolds(cfg, run, i, j, c);
    }
  }

  lemma PauseEnds(cfg: Config, st: State, step: Step, c: CallId)
    requires Wf(st) && Enabled(cfg, st, step) && EndsPause(st, step, c) && SleepsOn(st, c)
    ensures var st' := Next(cfg, st, step); st'.crash.Some? || !SleepsOn(st', c)
  {
  }

  /** While a call sleeps and its context is live, no packet of any call is written. */
  lemma LivePauseIsSilent(cfg: Config, run: Run, i: nat, j: nat, c: CallId)
    requires run.Valid(cfg) && i < j <= |run.steps| && run.steps[i] == Block(c)
    requires forall m | i < m < j :: SleepsOn(run.states[m], c)
    ensures forall m | i <= m < j :: !run.steps[m].WriteSend?
  {
    forall m | i < m < j ensures !run.steps[m].WriteSend? {
      if run.steps[m].WriteSend? {
        NoWriteDuringPause(cfg, run, i, m, c, run.steps[m].l);
        var k :| i < k < m && EndsPause(run.states[k], run.steps[k], c);
        assert run.Linked(cfg, k) && run.Linked(cfg, k + 1);
        PauseEnds(cfg, run.states[k], run.steps[k], c);
      }
    }
  }

  /** The run can go on with exactly these steps. */
  ghost predicate CanContinue(cfg: Config, run: Run, more: seq<Step>) {
    exists run': Run :: run'.Valid(cfg) && run'.steps == run.steps + more && run.states <= run'.states
  }

  lemma AddStep(cfg: Config, run: Run, step: Step) returns (run': Run)
    requires run.Valid(cfg)
    requires var st := run.states[|run.steps|]; Wf(st) && Enabled(cfg, st, step)
    ensures run'.Valid(cfg) && run'.steps == run.steps + [step]
    ensures run'.states == run.states + [Next(cfg, run.states[|run.steps|], step)]
  {
    run' := Run(run.steps + [step], run.states + [Next(cfg, run.states[|run.steps|], step)]);
    forall n | 0 <= n < |run'.steps| ensures run'.Linked(cfg, n) {
      if n < |run.steps| { assert run.Linked(cfg, n); }
    }
  }

  lemma GateOpens(cfg: Config, run: Run, c: CallId, l: LeaseId)
    requires run.Valid(cfg)
    requires var st := run.states[|run.steps|];
             && Wf(st) && st.crash.None? && Pausing(st, c) && l < |st.heap| && st.heap[l].write.Pending?
             && CtxDone(st, st.calls[c])
    ensures CanContinue(cfg, run, [Unblock, LockSend(l), WriteSend(l)])
  {
    var run1 := AddStep(cfg, run, Unblock);
    var run2 := AddStep(cfg, run1, LockSend(l));
    var run3 := AddStep(cfg, run2, WriteSend(l));
    assert run3.steps == run.steps + [Unblock, LockSend(l), WriteSend(l)];
  }

  /**
   * From a point of a run at which a call sleeps in the gate and a writer is ready, the writer can get in and
   * write at once, while the call still sleeps, exactly if the context of the call has ended.
   */
  lemma GateOpensIff(cfg: Config, run: Run, c: CallId, l: LeaseId)
    requires run.Valid(cfg)
    requires var st := run.states[|run.steps|];
             Wf(st) && st.crash.None? && Pausing(st, c) && l < |st.heap| && st.heap[l].write.Pending?
    ensures var st := run.states[|run.steps|];
            CanContinue(cfg, run, [Unblock, LockSend(l), WriteSend(l)]) <==> CtxDone(st, st.calls[c])
  {
    var st, more := run.states[|run.steps|], [Unblock, LockSend(l), WriteSend(l)];
    if CtxDone(st, st.calls[c]) { GateOpens(cfg, run, c, l); }
    if CanContinue(cfg, run, more) {
      var run': Run :| run'.Valid(cfg) && run'.steps == run.steps + more && run.states <= run'.states;
      assert run'.Linked(cfg, |run.steps|);
      assert run'.steps[|run.steps|] == Unblock;
    }
  }
}
