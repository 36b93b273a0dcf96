/** What a call gets, as long as `Clean` never signals a lease while that call waits for it. */
module EngineAnswers {
  import opened Wrappers
  import opened Messages
  import opened Engine
  import opened EngineBasics
  import opened EngineSafety
  import opened EngineHistory

  ghost predicate OfferAccepted(heap: seq<Slot>, o: Option<LeaseId>) {
    o.Some? ==> o.value < |heap| && heap[o.value].lease.accepted == Some(OFFER)
  }

  /** While call c waits its lease is not signalled; it goes on with an accepted offer and finished with an accepted reply. */
  ghost predicate CallAnswered(st: State, c: CallId)
    requires Wf(st) && c < |st.calls|
  {
    var call := st.calls[c];
    && (call.phase.Waiting? ==> st.heap[call.attempt.value.lease].lease.signals == 0)
    && OfferAccepted(st.heap, call.offer)
    && (call.phase.Finished? && call.phase.result.Some? ==> st.heap[call.phase.result.value].lease.accepted.Some?)
  }

  ghost predicate Answered(st: State, c: CallId)
    requires Wf(st)
  {
    && (c < |st.calls| ==> CallAnswered(st, c))
    && (forall i | 0 <= i < |st.heap| && st.heap[i].owner == c :: OfferAccepted(st.heap, st.heap[i].origin))
  }

  lemma AnsweredDeliver(cfg: Config, st: State, b: CallId, c: CallId)
    requires Inv(st) && Enabled(cfg, st, Deliver(b)) && c < |st.calls| && CallAnswered(st, c)
    ensures CallAnswered(AfterDeliver(st, b), c)
  {
    assert CallSafe(st, b) && AttemptSafe(st, b);
    var l := st.calls[b].attempt.value.lease;
    assert SlotBasic(st.heap[l]) && SlotSafe(st, l);
  }

  lemma AnsweredWake(cfg: Config, st: State, b: CallId, c: CallId)
    requires Inv(st) && Enabled(cfg, st, Wake(b)) && c < |st.calls| && CallAnswered(st, c)
    ensures CallAnswered(AfterWake(st, b), c)
  {
    var k := st.calls[b].attempt.value.key;
    if k in st.store { assert EntryBasic(st, k); }
  }

  lemma AnsweredSweep(st: State, c: CallId)
    requires Inv(st) && c < |st.calls| && !SignalsWaiting(st, c) && CallAnswered(st, c)
    ensures CallAnswered(AfterSweep(st), c)
  {
    HeapGrowsSweep(st);
  }

  lemma AnsweredTry(cfg: Config, st: State, step: Step, c: CallId)
    requires Inv(st) && Enabled(cfg, st, step) && (step.Begin? || step.BeginRequest?)
    requires c < |st.calls| && CallAnswered(st, c)
    ensures c < |Next(cfg, st, step).calls| && CallAnswered(Next(cfg, st, step), c)
  {
    HeapGrowsTry(cfg, st, step);
  }

  lemma AnsweredSend(cfg: Config, st: State, step: Step, c: CallId)
    requires Inv(st) && Enabled(cfg, st, step) && SendStep(step) && c < |st.calls| && CallAnswered(st, c)
    ensures c < |Next(cfg, st, step).calls| && CallAnswered(Next(cfg, st, step), c)
  {
  }

  lemma AnsweredQuiet(cfg: Config, st: State, step: Step, c: CallId)
    requires Inv(st) && Enabled(cfg, st, step)
    requires !step.Begin? && !step.BeginRequest? && !step.Deliver? && !step.Wake? && !step.Sweep? && !SendStep(step)
    requires c < |Next(cfg, st, step).calls| && (c < |st.calls| ==> CallAnswered(st, c))
    ensures CallAnswered(Next(cfg, st, step), c)
  {
    HeapGrowsStep(cfg, st, step);
    var st' := Next(cfg, st, step);
    if st'.calls[c].phase.Waiting? {
      OthersSignalNothing(cfg, st, step, st'.calls[c].attempt.value.lease);
    }
  }

  lemma AnsweredCallStep(cfg: Config, st: State, step: Step, c: CallId)
    requires Inv(st) && Answered(st, c) && Enabled(cfg, st, step) && c < |Next(cfg, st, step).calls|
    requires step.Sweep? ==> !SignalsWaiting(st, c)
    ensures CallAnswered(Next(cfg, st, step), c)
  {
    if step.Deliver? {
      AnsweredDeliver(cfg, st, step.c, c);
    } else if step.Wake? {
      AnsweredWake(cfg, st, step.c, c);
    } else if step.Sweep? {
      assert AfterSweep(st).calls == st.calls;
      AnsweredSweep(st, c);
    } else if step.Begin? || step.BeginRequest? {
      AnsweredTry(cfg, st, step, c);
    } else if SendStep(step) {
      AnsweredSend(cfg, st, step, c);
    } else {
      AnsweredQuiet(cfg, st, step, c);
    }
  }

  /** A request is made from the offer its call goes on with. */
  lemma NewSlot(cfg: Config, st: State, step: Step)
    requires Wf(st) && Enabled(cfg, st, step) && (step.Begin? || step.BeginRequest?)
    ensures var heap := Next(cfg, st, step).heap;
            && |heap| == |st.heap| + 1 && heap[|st.heap|].owner == step.c
            && (heap[|st.heap|].origin.None? || heap[|st.heap|].origin == st.calls[step.c].offer)
  {
  }

  lemma NoNewSlot(cfg: Config, st: State, step: Step)
    requires Wf(st) && Enabled(cfg, st, step) && !step.Begin? && !step.BeginRequest?
    ensures |Next(cfg, st, step).heap| == |st.heap|
  {
    if step.Sweep? { assert |AfterSweep(st).heap| == |st.heap|; }
  }

  lemma OriginAccepted(st: State, heap: seq<Slot>, c: CallId, i: LeaseId)
    requires Inv(st) && Answered(st, c) && HeapGrows(st.heap, heap)
    requires i < |heap| && heap[i].owner == c
    requires i >= |st.heap| ==> c < |st.calls| && (heap[i].origin.None? || heap[i].origin == st.calls[c].offer)
    ensures OfferAccepted(heap, heap[i].origin)
  {
    if i < |st.heap| { assert OfferAccepted(st.heap, st.heap[i].origin); }
  }

  lemma AnsweredSlotStep(cfg: Config, st: State, step: Step, c: CallId, i: LeaseId)
    requires Inv(st) && Answered(st, c) && Enabled(cfg, st, step)
    requires i < |Next(cfg, st, step).heap| && Next(cfg, st, step).heap[i].owner == c
    ensures OfferAccepted(Next(cfg, st, step).heap, Next(cfg, st, step).heap[i].origin)
  {
    HeapGrowsStep(cfg, st, step);
    if step.Begin? || step.BeginRequest? { NewSlot(cfg, st, step); } else { NoNewSlot(cfg, st, step); }
    OriginAccepted(st, Next(cfg, st, step).heap, c, i);
  }

  lemma {:induction false} AnsweredRun(cfg: Config, run: Run, n: nat, c: CallId)
    requires Spared(cfg, run, c) && n <= |run.steps|
    ensures Wf(run.states[n]) && Answered(run.states[n], c)
  {
    if n > 0 {
      AnsweredRun(cfg, run, n - 1, c);
      InvRun(cfg, run, n - 1);
      assert run.Linked(cfg, n - 1);
      var st, st', step := run.states[n - 1], run.states[n], run.steps[n - 1];
      if c < |st'.calls| { AnsweredCallStep(cfg, st, step, c); }
      forall i | 0 <= i < |st'.heap| && st'.heap[i].owner == c ensures OfferAccepted(st'.heap, st'.heap[i].origin) {
        AnsweredSlotStep(cfg, st, step, c, i);
      }
    }
  }
}
