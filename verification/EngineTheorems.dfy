/** The results of `GetLease`, `Renew` and the HTTP layer over whole runs of the engine. */
module EngineTheorems {
  import opened Wrappers
  import opened Messages
  import opened Engine
  import opened EngineBasics
  import opened EngineSafety
  import opened EngineHistory
  import opened EngineSteps
  import opened EngineAnswers
  import opened EnginePanics

  // ---------- panics ----------

  /** A run that meets all seven conditions never panics. */
  lemma NoCrash(cfg: Config, run: Run, n: nat)
    requires Admissible(cfg, run) && n <= |run.steps|
    ensures run.states[n].crash.None?
  {
    CalmRun(cfg, run, n);
  }

  /** A disciplined run never uses a lookup that failed and never reads a packet that is not there. */
  lemma NoNilDereference(cfg: Config, run: Run, n: nat)
    requires Disciplined(cfg, run) && n <= |run.steps|
    ensures run.states[n].crash != Some(NilLease) && run.states[n].crash != Some(NilPacket)
  {
    KeptRun(cfg, run, n);
  }

  // ---------- results ----------

  /** A lease is a proper answer to call c: made by c, an ACK without error or a NAK with one. */
  ghost predicate IsAnswer(st: State, c: CallId, l: LeaseId) {
    && l < |st.heap| && st.heap[l].owner == c
    && var lease := st.heap[l].lease;
       && lease.role == REQUEST
       && (lease.msgType == ACK || lease.msgType == NAK)
       && lease.accepted == Some(lease.msgType)
       && (lease.error <==> lease.msgType == NAK)
  }

  /** A DISCOVER of call c that took an OFFER. */
  ghost predicate IsAcceptedOffer(st: State, c: CallId, o: LeaseId) {
    && o < |st.heap| && st.heap[o].owner == c
    && st.heap[o].lease.role == DISCOVER && st.heap[o].lease.accepted == Some(OFFER)
  }

  lemma ReturnedLease(st: State, c: CallId, l: LeaseId)
    requires Inv(st) && Returned(st, c, l)
    ensures l < |st.heap| && ResultSafe(st, c, l)
    ensures IsAnswer(st, c, l) <==> st.heap[l].lease.accepted.Some?
    ensures st.heap[l].lease.accepted.None? ==> st.heap[l].lease.msgType == REQUEST && !st.heap[l].lease.error
    ensures st.calls[c].kind == GetLease ==> st.calls[c].offer.Some? && SlotSafe(st, l)
  {
    assert CallSafe(st, c) && ResultSafe(st, c, l) && SlotSafe(st, l);
  }

  /** When a request takes its answer, the offer it goes back to was accepted before. */
  lemma OfferBeforeAnswer(cfg: Config, run: Run, j: nat, c: CallId, o: LeaseId, l: LeaseId, t: MsgType) returns (i: nat)
    requires Spared(cfg, run, c) && AcceptsAt(run, j, l, t)
    requires run.states[j].heap[l].origin == Some(o) && run.states[j].heap[l].owner == c
    ensures i < j && AcceptsAt(run, i, o, OFFER)
  {
    AnsweredRun(cfg, run, j, c);
    i := AcceptedBy(cfg, run, j, o, OFFER);
  }

  /**
   * A non-nil result of `GetLease` is an ACK without error or a NAK with one, made by this very call; it
   * has the xid of a DISCOVER of this call, and an OFFER for that DISCOVER was applied before the ACK or
   * NAK was.
   */
  lemma GetLeaseResult(cfg: Config, run: Run, n: nat, c: CallId, l: LeaseId)
    requires Spared(cfg, run, c) && n <= |run.steps|
    requires Returned(run.states[n], c, l) && run.states[n].calls[c].kind == GetLease
    ensures var st := run.states[n];
            && IsAnswer(st, c, l)
            && (forall k | k in st.store :: st.store[k].lease != l)
            && st.calls[c].offer.Some?
            && var o := st.calls[c].offer.value;
               && IsAcceptedOffer(st, c, o)
               && st.heap[o].lease.xid == st.heap[l].lease.xid
               && exists i: nat, j: nat :: i < j < n && AcceptsAt(run, i, o, OFFER) && AcceptsAt(run, j, l, st.heap[l].lease.msgType)
  {
    InvRun(cfg, run, n);
    AnsweredRun(cfg, run, n, c);
    var st := run.states[n];
    ReturnedLease(st, c, l);
    ResultLeftStore(cfg, run, n, c, l);
    var o, t := st.calls[c].offer.value, st.heap[l].lease.msgType;
    var j := AcceptedBy(cfg, run, n, l, t);
    HeapGrowsRun(cfg, run, j, n);
    var i := OfferBeforeAnswer(cfg, run, j, c, o, l, t);
  }

  /** A non-nil result of `Renew` is an answer that was applied to a REQUEST of this call. */
  lemma RenewResult(cfg: Config, run: Run, n: nat, c: CallId, l: LeaseId)
    requires Spared(cfg, run, c) && n <= |run.steps|
    requires Returned(run.states[n], c, l) && run.states[n].calls[c].kind == Renew
    ensures IsAnswer(run.states[n], c, l)
    ensures forall k | k in run.states[n].store :: run.states[n].store[k].lease != l
    ensures exists j: nat :: j < n && AcceptsAt(run, j, l, run.states[n].heap[l].lease.msgType)
  {
    InvRun(cfg, run, n);
    AnsweredRun(cfg, run, n, c);
    ReturnedLease(run.states[n], c, l);
    ResultLeftStore(cfg, run, n, c, l);
    var j := AcceptedBy(cfg, run, n, l, run.states[n].heap[l].lease.msgType);
  }

  /** Running calls occupy different xids, and no two calls return the same lease. */
  lemma CallsAreSeparate(cfg: Config, run: Run, n: nat, c: CallId, d: CallId)
    requires Orderly(cfg, run) && n <= |run.steps|
    requires c < |run.states[n].calls| && d < |run.states[n].calls| && c != d
    ensures var st := run.states[n];
            && Wf(st)
            && (Key(st, c).Some? ==> Key(st, c) != Key(st, d))
            && (forall l | Returned(st, c, l) :: !Returned(st, d, l))
  {
    InvRun(cfg, run, n);
    var st := run.states[n];
    forall l | Returned(st, c, l) ensures !Returned(st, d, l) {
      ReturnedLease(st, c, l);
      if Returned(st, d, l) { ReturnedLease(st, d, l); }
    }
  }

  // ---------- the pause ----------

  /** What the lookup after the pause does for call c, given the entry of its try. */
  ghost predicate TakesLateAnswer(st: State, st': State, c: CallId)
    requires c < |st.calls| && c < |st'.calls| && st.calls[c].attempt.Some?
  {
    var call, call', a := st.calls[c], st'.calls[c], st.calls[c].attempt.value;
    && a.key !in st'.store
    && call'.failures == call.failures
    && (if call.Discovering() then call'.offer == Some(a.lease) && call'.phase.Ready?
        else call'.phase == Finished(Some(a.lease)))
  }

  lemma WakeTakes(cfg: Config, st: State, c: CallId)
    requires Inv(st) && Kept(st) && Enabled(cfg, st, Wake(c))
    ensures var st' := AfterWake(st, c);
            var a := st.calls[c].attempt.value;
            && |st'.calls| == |st.calls|
            && a.key in st.store && st.store[a.key].lease == a.lease
            && (if st.heap[a.lease].lease.accepted.Some? then TakesLateAnswer(st, st', c)
                else && st'.store == st.store && st'.calls[c].phase.Ready?
                     && st'.calls[c].failures == st.calls[c].failures + 1)
  {
    var a := st.calls[c].attempt.value;
    assert CallSafe(st, c) && AttemptSafe(st, c) && EntryKept(st, c) && EntryBasic(st, a.key) && SlotSafe(st, a.lease);
  }

  /**
   * The lookup after the pause always finds the entry of the call's own try. A reply accepted meanwhile is
   * taken and its entry removed; without one the call starts over and the entry stays.
   */
  lemma WakeFindsEntry(cfg: Config, run: Run, n: nat, c: CallId)
    requires Disciplined(cfg, run) && n < |run.steps| && run.steps[n] == Wake(c)
    ensures var st, st' := run.states[n], run.states[n + 1];
            && c < |st.calls| && |st'.calls| == |st.calls| && st.calls[c].attempt.Some?
            && var a := st.calls[c].attempt.value;
               && a.key in st.store && st.store[a.key].lease == a.lease && a.lease < |st.heap|
               && (if st.heap[a.lease].lease.accepted.Some? then TakesLateAnswer(st, st', c)
                   else && st'.store == st.store && st'.calls[c].phase.Ready?
                        && st'.calls[c].failures == st.calls[c].failures + 1)
  {
    DisciplinedIsOrderly(cfg, run);
    InvRun(cfg, run, n);
    KeptRun(cfg, run, n);
    assert run.Linked(cfg, n);
    WakeTakes(cfg, run.states[n], c);
  }

  // ---------- the HTTP status of a finished call ----------

  /** What `response` is handed: nil, a lease that only carries a send error, or a lease with a packet. */
  datatype Outcome = Nothing | SendFailed | Answered(error: bool, msgType: MsgType)

  /** The status code `response` writes. */
  function StatusCode(o: Outcome): int {
    match o
    case Nothing => 408
    case SendFailed => 400
    case Answered(error, t) => if !error then 200 else if t == NAK then 406 else 400
  }

  /** Which answer of a call leads to which status. */
  lemma StatusOfOutcome(o: Outcome)
    ensures StatusCode(o) == 200 <==> o.Answered? && !o.error
    ensures StatusCode(o) == 406 <==> o.Answered? && o.error && o.msgType == NAK
    ensures StatusCode(o) == 400 <==> o == SendFailed || (o.Answered? && o.error && o.msgType != NAK)
    ensures StatusCode(o) == 408 <==> o == Nothing
  {
  }

  function OutcomeOf(st: State, result: Option<LeaseId>): Outcome
    requires result.Some? ==> result.value < |st.heap|
  {
    match result
    case None => Nothing
    case Some(l) => Answered(st.heap[l].lease.error, st.heap[l].lease.msgType)
  }

  /** The status of a finished call: 200 iff ACK, 406 iff NAK, 408 iff nil, and nothing else. */
  lemma StatusOfResult(cfg: Config, run: Run, n: nat, c: CallId)
    requires Spared(cfg, run, c) && n <= |run.steps|
    requires c < |run.states[n].calls| && run.states[n].calls[c].phase.Finished?
    ensures var st := run.states[n];
            var r := st.calls[c].phase.result;
            && (r.Some? ==> r.value < |st.heap|)
            && var code := StatusCode(OutcomeOf(st, r));
               && (code == 408 <==> r.None?)
               && (code == 200 <==> r.Some? && st.heap[r.value].lease.msgType == ACK)
               && (code == 406 <==> r.Some? && st.heap[r.value].lease.msgType == NAK)
               && (code == 200 || code == 406 || code == 408)
  {
    InvRun(cfg, run, n);
    AnsweredRun(cfg, run, n, c);
    var st := run.states[n];
    if st.calls[c].phase.result.Some? { ReturnedLease(st, c, st.calls[c].phase.result.value); }
  }

  // ---------- when a result is no answer ----------

  lemma FinishedUnansweredIff(cfg: Config, run: Run, n: nat, c: CallId, l: LeaseId)
    requires run.Valid(cfg) && n < |run.steps|
    requires Returned(run.states[n + 1], c, l) && !Returned(run.states[n], c, l)
    ensures var st' := run.states[n + 1];
            && l < |st'.heap|
            && (st'.heap[l].lease.accepted.None? <==> run.steps[n] == Deliver(c) && SignalledUnanswered(run, n, c, l))
  {
    BasicRun(cfg, run, n);
    assert run.Linked(cfg, n);
    FinishingStep(cfg, run.states[n], run.steps[n], c, l);
    if run.steps[n] == Deliver(c) { DeliveredUnansweredIff(cfg, run, n, c); }
  }

  /**
   * In an orderly run the lease with which a call finishes is an answer unless `wait` handed it over on a
   * signal of `Clean` for which no answer stood in; such a lease still is the REQUEST that was sent, and
   * the status is 200.
   */
  lemma ResultIsAnswerIff(cfg: Config, run: Run, n: nat, c: CallId, l: LeaseId)
    requires Orderly(cfg, run) && n < |run.steps|
    requires Returned(run.states[n + 1], c, l) && !Returned(run.states[n], c, l)
    ensures var st' := run.states[n + 1];
            && l < |st'.heap|
            && (IsAnswer(st', c, l) <==> !(run.steps[n] == Deliver(c) && SignalledUnanswered(run, n, c, l)))
            && (!IsAnswer(st', c, l) ==>
                  st'.heap[l].lease.accepted.None? && st'.heap[l].lease.msgType == REQUEST
                  && StatusCode(OutcomeOf(st', Some(l))) == 200)
  {
    InvRun(cfg, run, n + 1);
    ReturnedLease(run.states[n + 1], c, l);
    FinishedUnansweredIff(cfg, run, n, c, l);
  }
}
