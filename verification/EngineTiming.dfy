/** For which configurations the client is right on a perfect clock. */
module EngineTiming {
  import opened Wrappers
  import opened Engine
  import opened EngineBasics
  import opened EngineSafety
  import opened EnginePanics
  import opened EngineSteps
  import opened EngineTheorems
  import opened EngineRuns
  import opened EngineStaleSnapshots

  /** The current try of call c: how old it is, and how long its entry lives. */
  ghost predicate TryTimely(cfg: Config, queue: nat, st: State, c: CallId)
    requires Wf(st) && c < |st.calls| && st.calls[c].attempt.Some?
  {
    var call, a := st.calls[c], st.calls[c].attempt.value;
    && a.began <= st.now
    && (a.key in st.store ==>
          a.began + cfg.ttl <= st.store[a.key].expire + (if st.heap[a.lease].write.Unset? then Round(cfg, queue) else 0))
    && (call.phase.Asleep? ==> call.phase.since <= a.began + cfg.timeout + queue)
    && (call.phase.Ready? ==> call.phase.readyAt <= a.began + Round(cfg, queue))
  }

  /** Between the offer and the first request the store has no entry under their xid. */
  ghost predicate Timely(cfg: Config, queue: nat, st: State, c: CallId)
    requires Wf(st) && c < |st.calls|
  {
    if st.calls[c].attempt.Some? then TryTimely(cfg, queue, st, c)
    else forall k | Key(st, c) == Some(k) :: k !in st.store
  }

  ghost predicate AllTimely(cfg: Config, queue: nat, st: State) {
    Wf(st) && forall c | 0 <= c < |st.calls| :: Timely(cfg, queue, st, c)
  }

  // ---------- the steps ----------

  lemma TimelyBegin(cfg: Config, queue: nat, st: State, step: Step, c: CallId)
    requires Inv(st) && step.Begin? && Enabled(cfg, st, step) && XidFresh(st, step)
    requires c < |st.calls| && Timely(cfg, queue, st, c)
    ensures c < |Next(cfg, st, step).calls| && Timely(cfg, queue, Next(cfg, st, step), c)
  {
    assert CallSafe(st, c);
  }

  /** The entry of the old try still lives ttl minus one round from the start of the new one. */
  lemma TimelyBeginRequest(cfg: Config, queue: nat, st: State, b: CallId, began: nat, c: CallId)
    requires Inv(st) && Enabled(cfg, st, BeginRequest(b, began)) && OnTime(cfg, queue, st)
    requires c < |st.calls| && Timely(cfg, queue, st, c)
    ensures Timely(cfg, queue, AfterBeginRequest(st, b, began), c)
  {
    assert CallSafe(st, c);
    if st.calls[c].attempt.Some? { assert AttemptSafe(st, c) && SlotSafe(st, st.calls[c].attempt.value.lease); }
  }

  lemma TimelyPut(cfg: Config, queue: nat, st: State, l: LeaseId, c: CallId)
    requires Inv(st) && Enabled(cfg, st, Put(l)) && c < |st.calls| && Timely(cfg, queue, st, c)
    ensures Timely(cfg, queue, AfterPut(cfg, st, l), c)
  {
    var b := st.heap[l].owner;
    assert UnsetSafe(st, l) && CallSafe(st, b) && AttemptSafe(st, b) && CallSafe(st, c);
    assert Key(st, b) == Some(st.heap[l].lease.xid);
    if c != b { assert Key(st, c) != Key(st, b); }
  }

  lemma TimelyDeliver(cfg: Config, queue: nat, st: State, b: CallId, c: CallId)
    requires Inv(st) && Enabled(cfg, st, Deliver(b)) && c < |st.calls| && Timely(cfg, queue, st, c)
    ensures Timely(cfg, queue, AfterDeliver(st, b), c)
  {
    assert CallSafe(st, c) && CallSafe(st, b);
  }

  /** The lookup after its pause: the entry is taken, or the call goes on in time. */
  lemma TimelyOwnWake(cfg: Config, queue: nat, st: State, c: CallId)
    requires Inv(st) && Enabled(cfg, st, Wake(c)) && OnTime(cfg, queue, st) && Timely(cfg, queue, st, c)
    ensures Timely(cfg, queue, AfterWake(st, c), c)
  {
    assert CallSafe(st, c) && AttemptSafe(st, c);
    var k := st.calls[c].attempt.value.key;
    if k in st.store { assert EntryBasic(st, k); }
  }

  lemma TimelyWake(cfg: Config, queue: nat, st: State, b: CallId, c: CallId)
    requires Inv(st) && Enabled(cfg, st, Wake(b)) && OnTime(cfg, queue, st) && c < |st.calls| && Timely(cfg, queue, st, c)
    ensures Timely(cfg, queue, AfterWake(st, b), c)
  {
    if c == b { TimelyOwnWake(cfg, queue, st, c); }
  }

  lemma TimelySweep(cfg: Config, queue: nat, st: State, c: CallId)
    requires Inv(st) && c < |st.calls| && Timely(cfg, queue, st, c)
    ensures c < |AfterSweep(st).calls| && Timely(cfg, queue, AfterSweep(st), c)
  {
  }

  /** Steps that open, cancel, end or move a call without touching store and heap. */
  predicate Moves(step: Step) {
    step.Open? || step.Cancel? || step.Timeout? || step.Block? || step.GiveUp?
  }

  lemma TimelyMove(cfg: Config, queue: nat, st: State, step: Step, c: CallId)
    requires Inv(st) && Enabled(cfg, st, step) && Moves(step) && OnTime(cfg, queue, st)
    requires c < |Next(cfg, st, step).calls| && (c < |st.calls| ==> Timely(cfg, queue, st, c))
    ensures Timely(cfg, queue, Next(cfg, st, step), c)
  {
    var st' := Next(cfg, st, step);
    assert st'.store == st.store && st'.heap == st.heap;
    if c < |st.calls| { assert CallSafe(st, c) && (Key(st', c) == Key(st, c) || Key(st', c).None?); }
  }

  /** An applied reply keeps the xid of its lease. */
  lemma TimelyApply(cfg: Config, queue: nat, st: State, c: CallId)
    requires Inv(st) && st.receiver.Holding? && c < |st.calls| && Timely(cfg, queue, st, c)
    ensures Timely(cfg, queue, AfterApply(st), c)
  {
    assert Key(AfterApply(st), c) == Key(st, c);
  }

  /** Steps of the clock, the sender, the lookup and the snapshot. */
  lemma TimelyQuiet(cfg: Config, queue: nat, st: State, step: Step, c: CallId)
    requires Wf(st) && Enabled(cfg, st, step) && !Moves(step) && !step.Apply?
    requires !step.Begin? && !step.BeginRequest? && !step.Put? && !step.Deliver? && !step.Wake? && !step.Sweep?
    requires c < |st.calls| && Timely(cfg, queue, st, c)
    ensures c < |Next(cfg, st, step).calls| && Timely(cfg, queue, Next(cfg, st, step), c)
  {
    assert Key(Next(cfg, st, step), c) == Key(st, c);
  }

  lemma TimelyOther(cfg: Config, queue: nat, st: State, step: Step, c: CallId)
    requires Inv(st) && Enabled(cfg, st, step) && !Moves(step) && XidFresh(st, step) && OnTime(cfg, queue, st)
    requires c < |st.calls| && Timely(cfg, queue, st, c)
    ensures c < |Next(cfg, st, step).calls| && Timely(cfg, queue, Next(cfg, st, step), c)
  {
    match step
    case Begin(_, _, _, _) => TimelyBegin(cfg, queue, st, step, c);
    case BeginRequest(b, began) => TimelyBeginRequest(cfg, queue, st, b, began, c);
    case Put(l) => TimelyPut(cfg, queue, st, l, c);
    case Deliver(b) => TimelyDeliver(cfg, queue, st, b, c);
    case Wake(b) => TimelyWake(cfg, queue, st, b, c);
    case Apply => TimelyApply(cfg, queue, st, c);
    case Sweep => TimelySweep(cfg, queue, st, c);
    case _ => TimelyQuiet(cfg, queue, st, step, c);
  }

  lemma SameCalls(cfg: Config, st: State, step: Step)
    requires Wf(st) && Enabled(cfg, st, step) && !Moves(step)
    ensures |Next(cfg, st, step).calls| == |st.calls|
  {
    if step.Sweep? { assert AfterSweep(st).calls == st.calls; }
  }

  lemma TimelyStep(cfg: Config, queue: nat, st: State, step: Step, c: CallId)
    requires Inv(st) && Enabled(cfg, st, step) && XidFresh(st, step) && OnTime(cfg, queue, st) && AllTimely(cfg, queue, st)
    requires c < |Next(cfg, st, step).calls|
    ensures Timely(cfg, queue, Next(cfg, st, step), c)
  {
    if Moves(step) {
      TimelyMove(cfg, queue, st, step, c);
    } else {
      SameCalls(cfg, st, step);
      TimelyOther(cfg, queue, st, step, c);
    }
  }

  lemma {:induction false} TimelyRun(cfg: Config, queue: nat, run: Run, n: nat)
    requires Orderly(cfg, run) && Punctual(cfg, queue, run) && n <= |run.steps|
    ensures AllTimely(cfg, queue, run.states[n])
  {
    if n > 0 {
      TimelyRun(cfg, queue, run, n - 1);
      InvRun(cfg, run, n - 1);
      assert run.Linked(cfg, n - 1);
      var st, step := run.states[n - 1], run.steps[n - 1];
      forall c | 0 <= c < |run.states[n].calls| ensures Timely(cfg, queue, run.states[n], c) {
        TimelyStep(cfg, queue, st, step, c);
      }
    }
  }

  // ---------- short configurations ----------

  /** An entry outlives two tries: the one it was stored for, and the wait for storing the next. */
  predicate Short(cfg: Config, queue: nat) {
    2 * cfg.timeout + cfg.retry + queue <= cfg.ttl
  }

  lemma TimelyIsPrompt(cfg: Config, queue: nat, st: State)
    requires Short(cfg, queue) && Inv(st) && AllTimely(cfg, queue, st) && OnTime(cfg, queue, st)
    ensures Prompt(st)
  {
    forall c | 0 <= c < |st.calls| && st.calls[c].attempt.Some? && st.calls[c].attempt.value.key in st.store
      ensures st.now <= st.store[st.calls[c].attempt.value.key].expire
    {
      assert Timely(cfg, queue, st, c) && CallSafe(st, c) && AttemptSafe(st, c);
    }
  }

  lemma OrderlyBut(cfg: Config, run: Run, waived: set<Condition>)
    requires AdmissibleBut(cfg, run, waived) && FreshXids !in waived && StoredBeforeTimeout !in waived
    ensures Orderly(cfg, run)
  {
    var orderly := {SendsSucceed, PromptTries, NoRetypeWhileHeld, CollectedReplies, TypedReplies};
    forall w | w in waived ensures w in orderly {
      assert w != FreshXids && w != StoredBeforeTimeout;
    }
    WaiveMore(cfg, run, waived, orderly);
  }

  /** On a perfect clock every try of a short configuration is prompt, whatever other conditions are waived. */
  lemma PromptForFree(cfg: Config, queue: nat, run: Run, waived: set<Condition>)
    requires AdmissibleBut(cfg, run, waived + {PromptTries}) && Punctual(cfg, queue, run) && Short(cfg, queue)
    requires FreshXids !in waived && StoredBeforeTimeout !in waived
    ensures AdmissibleBut(cfg, run, waived)
  {
    OrderlyBut(cfg, run, waived + {PromptTries});
    forall n | 0 <= n < |run.steps|
      ensures run.Linked(cfg, n) && Meets(run.states[n], run.steps[n], run.states[n + 1], waived)
    {
      assert run.Linked(cfg, n);
      TimelyRun(cfg, queue, run, n + 1);
      InvRun(cfg, run, n + 1);
      TimelyIsPrompt(cfg, queue, run.states[n + 1]);
    }
  }

  // ---------- the exact condition ----------

  /** A run on a perfect clock in which xids are fresh, leases are stored in time and sends succeed. */
  ghost predicate Regular(cfg: Config, queue: nat, run: Run) {
    && AdmissibleBut(cfg, run, {PromptTries, NoRetypeWhileHeld, CollectedReplies, TypedReplies})
    && Punctual(cfg, queue, run)
  }

  lemma RegularIsDisciplined(cfg: Config, queue: nat, run: Run)
    requires Regular(cfg, queue, run) && Short(cfg, queue)
    ensures Disciplined(cfg, run)
  {
    var waived := {NoRetypeWhileHeld, CollectedReplies, TypedReplies};
    assert waived + {PromptTries} == {PromptTries, NoRetypeWhileHeld, CollectedReplies, TypedReplies};
    PromptForFree(cfg, queue, run, waived);
  }

  ghost predicate AnswersRight(run: Run) {
    forall n: nat, c: CallId, l: LeaseId | n < |run.states| && Returned(run.states[n], c, l) :: IsAnswer(run.states[n], c, l)
  }

  lemma DisciplinedAnswersRight(cfg: Config, run: Run)
    requires Disciplined(cfg, run)
    ensures AnswersRight(run)
  {
    forall n: nat, c: CallId, l: LeaseId | n < |run.states| && Returned(run.states[n], c, l)
      ensures IsAnswer(run.states[n], c, l)
    {
      DisciplinedIsSpared(cfg, run, c);
      if run.states[n].calls[c].kind == GetLease {
        GetLeaseResult(cfg, run, n, c, l);
      } else {
        RenewResult(cfg, run, n, c, l);
      }
    }
  }

  /**
   * With no call queueing in `Block` for longer than `queue`, every result of every regular run is an answer
   * exactly if twice the timeout, the pause and the queueing together do not exceed ttl.
   */
  lemma ResultsAreRightIff(cfg: Config, queue: nat)
    ensures (forall run: Run | Regular(cfg, queue, run) :: AnswersRight(run)) <==> 2 * cfg.timeout + cfg.retry + queue <= cfg.ttl
  {
    if Short(cfg, queue) {
      forall run: Run | Regular(cfg, queue, run) ensures AnswersRight(run) {
        RegularIsDisciplined(cfg, queue, run);
        DisciplinedAnswersRight(cfg, run);
      }
    } else {
      var run := StaleSnapshot(cfg, queue);
      WaiveMore(cfg, run, {PromptTries}, {PromptTries, NoRetypeWhileHeld, CollectedReplies, TypedReplies});
      assert Regular(cfg, queue, run) && !AnswersRight(run) by { assert !IsAnswer(run.states[|run.states| - 1], 0, 2); }
    }
  }

  /** The same condition decides whether some regular run uses a lookup that failed. */
  lemma LookupsAreSafeIff(cfg: Config, queue: nat)
    ensures (forall run: Run | Regular(cfg, queue, run) :: !Panics(run, NilLease)) <==> 2 * cfg.timeout + cfg.retry + queue <= cfg.ttl
  {
    if Short(cfg, queue) {
      forall run: Run | Regular(cfg, queue, run) ensures !Panics(run, NilLease) {
        RegularIsDisciplined(cfg, queue, run);
        NoNilDereference(cfg, run, |run.steps|);
      }
    } else {
      var run := SlowTry(cfg, queue);
      WaiveMore(cfg, run, {PromptTries}, {PromptTries, NoRetypeWhileHeld, CollectedReplies, TypedReplies});
      assert Regular(cfg, queue, run) && Panics(run, NilLease);
    }
  }

  /**
   * With the defaults of the command line, in any unit of time, every result is an answer as long as no call
   * queues in `Block` for more than 35 seconds: ttl is 60 s, the timeout 5 s and the pause 15 s.
   */
  lemma DefaultsAreRight(second: nat, queue: nat, run: Run)
    requires queue <= 35 * second && Regular(Config(60 * second, 5 * second, 15 * second), queue, run)
    ensures AnswersRight(run)
  {
    var cfg := Config(60 * second, 5 * second, 15 * second);
    RegularIsDisciplined(cfg, queue, run);
    DisciplinedAnswersRight(cfg, run);
  }
}
