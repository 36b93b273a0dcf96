/**
 * Runs on a perfect clock for any configuration whose second try can still be unstored when the entry of the
 * first has expired: `Clean` notes the old entry, and signals and deletes the new one under the same xid.
 */
module EngineStaleSnapshots {
  import opened Wrappers
  import opened Messages
  import opened Leases
  import opened StoreSpec
  import opened Engine
  import opened EngineSafety
  import opened EngineSteps
  import opened EngineTheorems
  import opened EngineRuns

  /** The longest time from the start of a try to that of the next. */
  function Round(cfg: Config, queue: nat): nat {
    cfg.timeout + queue + cfg.retry
  }

  /** When the wait for the second request ends. */
  function Latest(cfg: Config, queue: nat): nat {
    Round(cfg, queue) + cfg.timeout
  }

  /** A run on a perfect clock that meets all conditions but `PromptTries`. */
  ghost predicate OnTimeTo(cfg: Config, queue: nat, run: Run, st: State) {
    Leads(cfg, run, {PromptTries}, st) && Punctual(cfg, queue, run)
  }

  lemma Go(cfg: Config, queue: nat, run: Run, step: Step, st': State) returns (run': Run)
    requires run.states != [] && OnTimeTo(cfg, queue, run, Last(run))
    requires Fits(cfg, Last(run), step, st', {PromptTries}) && OnTime(cfg, queue, st')
    ensures OnTimeTo(cfg, queue, run', st')
  {
    run' := Extend(cfg, run, step, st', {PromptTries});
  }

  /** The goroutine of a stored lease writes its packet. */
  lemma GoSend(cfg: Config, queue: nat, run: Run, l: LeaseId) returns (run': Run)
    requires run.states != [] && OnTimeTo(cfg, queue, run, Last(run))
    requires var st := Last(run);
             && Wf(st) && l < |st.heap| && st.heap[l].write.Pending? && st.gate.Free? && st.crash.None?
             && OnTime(cfg, queue, st) && Collected(st)
    ensures var st := Last(run);
            OnTimeTo(cfg, queue, run', st.(heap := st.heap[l := st.heap[l].(write := Written)]))
  {
    var st := Last(run);
    var st1 := st.(heap := st.heap[l := st.heap[l].(write := Writing)], gate := Writer(l));
    run' := Go(cfg, queue, run, LockSend(l), st1);
    var st2 := st.(heap := st.heap[l := st.heap[l].(write := Written)]);
    assert st1.heap[l := st2.heap[l]] == st2.heap;
    run' := Go(cfg, queue, run', WriteSend(l), st2);
  }

  // ---------- the discover loop ----------

  const DISCOVER7 := NewLease(DISCOVER, 7)
  const OFFER7 := DISCOVER7.(msgType := OFFER, accepted := Some(OFFER), closed := true)

  /** The call of the runs; its context outlives them. */
  function Caller(cfg: Config, queue: nat, offer: Option<LeaseId>, attempt: Option<Attempt>, phase: Phase, sends: nat, failures: nat): Call {
    Call(GetLease, 0, Latest(cfg, queue) + cfg.retry + queue + 1, false, offer, attempt, phase, sends, failures)
  }

  function Discovery(cfg: Config, queue: nat, lease: Lease, write: Write): State {
    State(0, map[7 := Item(0, cfg.ttl, DISCOVER)], [Slot(lease, 0, None, write, false)],
          [Caller(cfg, queue, None, Some(Attempt(0, 7, 0)), Waiting, 1, 0)], Idle, Resting, Free, None)
  }

  lemma Discovered(cfg: Config, queue: nat) returns (run: Run)
    ensures OnTimeTo(cfg, queue, run, Discovery(cfg, queue, DISCOVER7, Unset).(store := map[]))
  {
    run := Start(cfg, {PromptTries});
    var call := Caller(cfg, queue, None, None, Ready(0), 0, 0);
    run := Go(cfg, queue, run, Open(GetLease, call.deadline), INIT.(calls := [call]));
    run := Go(cfg, queue, run, Begin(0, 7, 7, 0), Discovery(cfg, queue, DISCOVER7, Unset).(store := map[]));
  }

  lemma DiscoverSent(cfg: Config, queue: nat) returns (run: Run)
    ensures OnTimeTo(cfg, queue, run, Discovery(cfg, queue, DISCOVER7, Written))
  {
    run := Discovered(cfg, queue);
    run := Go(cfg, queue, run, Put(0), Discovery(cfg, queue, DISCOVER7, Pending));
    run := GoSend(cfg, queue, run, 0);
  }

  lemma Offered(cfg: Config, queue: nat) returns (run: Run)
    ensures OnTimeTo(cfg, queue, run, Discovery(cfg, queue, OFFER7, Written))
  {
    run := DiscoverSent(cfg, queue);
    var reply := Reply(7, Some(OFFER));
    run := Go(cfg, queue, run, Lookup(reply), Discovery(cfg, queue, DISCOVER7, Written).(receiver := Holding(0, reply)));
    run := Go(cfg, queue, run, Apply, Discovery(cfg, queue, OFFER7, Written));
  }

  // ---------- the first request ----------

  const REQUEST7 := NewLease(REQUEST, 7)
  const RETYPED_SLOT := Slot(OFFER7.(msgType := REQUEST), 0, None, Written, false)

  function RequestSlot(lease: Lease, write: Write): Slot {
    Slot(lease, 0, Some(0), write, false)
  }

  /** The first request of the call, made and stored at 0. */
  function First(cfg: Config, queue: nat, now: nat, write: Write, phase: Phase, gate: Gate): State {
    State(now, map[7 := Item(1, cfg.ttl, REQUEST)], [RETYPED_SLOT, RequestSlot(REQUEST7, write)],
          [Caller(cfg, queue, Some(0), Some(Attempt(1, 7, 0)), phase, 2, 0)], Idle, Resting, gate, None)
  }

  lemma OfferTaken(cfg: Config, queue: nat) returns (run: Run)
    ensures OnTimeTo(cfg, queue, run, State(0, map[], [Slot(OFFER7, 0, None, Written, false)],
                                            [Caller(cfg, queue, Some(0), None, Ready(0), 1, 0)], Idle, Resting, Free, None))
  {
    run := Offered(cfg, queue);
    run := Go(cfg, queue, run, Deliver(0), State(0, map[], [Slot(OFFER7, 0, None, Written, false)],
                                                 [Caller(cfg, queue, Some(0), None, Ready(0), 1, 0)], Idle, Resting, Free, None));
  }

  lemma FirstStored(cfg: Config, queue: nat) returns (run: Run)
    ensures OnTimeTo(cfg, queue, run, First(cfg, queue, 0, Pending, Waiting, Free))
  {
    run := OfferTaken(cfg, queue);
    run := Go(cfg, queue, run, BeginRequest(0, 0), First(cfg, queue, 0, Unset, Waiting, Free).(store := map[]));
    run := Go(cfg, queue, run, Put(1), First(cfg, queue, 0, Pending, Waiting, Free));
  }

  lemma FirstSent(cfg: Config, queue: nat) returns (run: Run)
    ensures OnTimeTo(cfg, queue, run, First(cfg, queue, 0, Written, Waiting, Free))
  {
    run := FirstStored(cfg, queue);
    run := GoSend(cfg, queue, run, 1);
  }

  lemma FirstTimedOut(cfg: Config, queue: nat) returns (run: Run)
    ensures OnTimeTo(cfg, queue, run, First(cfg, queue, cfg.timeout, Written, Queued, Free))
  {
    run := FirstSent(cfg, queue);
    run := Go(cfg, queue, run, Tick(cfg.timeout), First(cfg, queue, cfg.timeout, Written, Waiting, Free));
    run := Go(cfg, queue, run, Timeout(0), First(cfg, queue, cfg.timeout, Written, Queued, Free));
  }

  lemma FirstAsleep(cfg: Config, queue: nat) returns (run: Run)
    ensures var since := cfg.timeout + queue;
            OnTimeTo(cfg, queue, run, First(cfg, queue, since, Written, Asleep(since), Blocker(0)))
  {
    var since := cfg.timeout + queue;
    run := FirstTimedOut(cfg, queue);
    run := Go(cfg, queue, run, Tick(since), First(cfg, queue, since, Written, Queued, Free));
    run := Go(cfg, queue, run, Block(0), First(cfg, queue, since, Written, Asleep(since), Blocker(0)));
  }

  // ---------- the second request ----------

  /** The second request of the call, not yet stored. */
  function Second(cfg: Config, queue: nat, now: nat, gate: Gate): State {
    State(now, map[7 := Item(1, cfg.ttl, REQUEST)],
          [RETYPED_SLOT, RequestSlot(REQUEST7, Written), RequestSlot(REQUEST7, Unset)],
          [Caller(cfg, queue, Some(0), Some(Attempt(2, 7, Round(cfg, queue))), Waiting, 3, 1)], Idle, Resting, gate, None)
  }

  lemma FirstRested(cfg: Config, queue: nat) returns (run: Run)
    ensures OnTimeTo(cfg, queue, run, First(cfg, queue, Round(cfg, queue), Written, Asleep(cfg.timeout + queue), Blocker(0)))
  {
    run := FirstAsleep(cfg, queue);
    var now := Round(cfg, queue);
    run := Go(cfg, queue, run, Tick(now), First(cfg, queue, now, Written, Asleep(cfg.timeout + queue), Blocker(0)));
  }

  lemma FirstRetried(cfg: Config, queue: nat) returns (run: Run)
    ensures OnTimeTo(cfg, queue, run, First(cfg, queue, Round(cfg, queue), Written, Waiting, Blocker(0))
                                      .(calls := [Caller(cfg, queue, Some(0), Some(Attempt(1, 7, 0)), Ready(Round(cfg, queue)), 2, 1)]))
  {
    run := FirstRested(cfg, queue);
    var now := Round(cfg, queue);
    run := Go(cfg, queue, run, Wake(0), First(cfg, queue, now, Written, Waiting, Blocker(0))
                                        .(calls := [Caller(cfg, queue, Some(0), Some(Attempt(1, 7, 0)), Ready(now), 2, 1)]));
  }

  lemma SecondBegun(cfg: Config, queue: nat) returns (run: Run)
    ensures OnTimeTo(cfg, queue, run, Second(cfg, queue, Round(cfg, queue), Free))
  {
    run := FirstRetried(cfg, queue);
    var now := Round(cfg, queue);
    run := Go(cfg, queue, run, BeginRequest(0, now), Second(cfg, queue, now, Blocker(0)));
    run := Go(cfg, queue, run, Unblock, Second(cfg, queue, now, Free));
  }

  /** The entry of the first request expires before the second is stored, and is noted. */
  lemma FirstNoted(cfg: Config, queue: nat) returns (run: Run)
    requires Latest(cfg, queue) > cfg.ttl
    ensures OnTimeTo(cfg, queue, run, Second(cfg, queue, Latest(cfg, queue), Free).(cleaner := Snapshotted({7})))
  {
    run := SecondBegun(cfg, queue);
    var st := Second(cfg, queue, Latest(cfg, queue), Free);
    run := Go(cfg, queue, run, Tick(st.now), st);
    assert Outdated(st.store, st.now) == {7};
    run := Go(cfg, queue, run, TakeSnapshot, st.(cleaner := Snapshotted({7})));
  }

  /** The second request, stored while the snapshot holds its xid. */
  function Stale(cfg: Config, queue: nat, lease: Lease, write: Write, phase: Phase): State {
    var now := Latest(cfg, queue);
    State(now, map[7 := Item(2, now + cfg.ttl, REQUEST)],
          [RETYPED_SLOT, RequestSlot(REQUEST7, Written), RequestSlot(lease, write)],
          [Caller(cfg, queue, Some(0), Some(Attempt(2, 7, Round(cfg, queue))), phase, 3, 1)],
          Idle, Snapshotted({7}), Free, None)
  }

  lemma SecondStored(cfg: Config, queue: nat) returns (run: Run)
    requires Latest(cfg, queue) > cfg.ttl
    ensures OnTimeTo(cfg, queue, run, Stale(cfg, queue, REQUEST7, Pending, Waiting))
  {
    run := FirstNoted(cfg, queue);
    run := Go(cfg, queue, run, Put(2), Stale(cfg, queue, REQUEST7, Pending, Waiting));
  }

  /** The state after the sweep that deletes the second request. */
  function Deleted(cfg: Config, queue: nat, lease: Lease, write: Write, phase: Phase): State {
    Stale(cfg, queue, lease, write, phase).(store := map[], cleaner := Resting)
  }

  lemma SweepsSecond(cfg: Config, queue: nat, write: Write, phase: Phase)
    requires !phase.Finished? || phase.result.None?
    ensures var st := Stale(cfg, queue, REQUEST7, write, phase);
            Wf(st) && Enabled(cfg, st, Sweep) && AfterSweep(st) == Deleted(cfg, queue, Signal(REQUEST7), write, phase)
  {
    var st := Stale(cfg, queue, REQUEST7, write, phase);
    assert Doomed(st) == {7};
    assert 7 in Doomed(st) && st.store[7].lease == 2;
    assert AfterSweep(st).store == map[];
  }

  lemma SecondSwept(cfg: Config, queue: nat) returns (run: Run)
    requires Latest(cfg, queue) > cfg.ttl
    ensures OnTimeTo(cfg, queue, run, Deleted(cfg, queue, Signal(REQUEST7), Written, Waiting))
  {
    run := SecondStored(cfg, queue);
    run := GoSend(cfg, queue, run, 2);
    assert Last(run).heap == Stale(cfg, queue, REQUEST7, Written, Waiting).heap;
    SweepsSecond(cfg, queue, Written, Waiting);
    run := Go(cfg, queue, run, Sweep, Deleted(cfg, queue, Signal(REQUEST7), Written, Waiting));
  }

  /**
   * A new REQUEST is signalled for the key of the old one, and the caller gets it back unanswered, with
   * status 200.
   */
  lemma StaleSnapshot(cfg: Config, queue: nat) returns (run: Run)
    requires 2 * cfg.timeout + cfg.retry + queue > cfg.ttl
    ensures AdmissibleBut(cfg, run, {PromptTries}) && Punctual(cfg, queue, run)
    ensures var st := Last(run);
            && Returned(st, 0, 2) && |st.heap| == 3
            && st.heap[2].lease.accepted.None? && !IsAnswer(st, 0, 2)
            && StatusCode(OutcomeOf(st, Some(2))) == 200
  {
    run := SecondSwept(cfg, queue);
    var st := Deleted(cfg, queue, TakeToken(Signal(REQUEST7)), Written, Waiting);
    assert Removed(st.store, 7) == st.store;
    run := Go(cfg, queue, run, Deliver(0), st.(calls := [Finish(st.calls[0], Some(2))]));
  }

  lemma SecondSweptLate(cfg: Config, queue: nat) returns (run: Run)
    requires Latest(cfg, queue) > cfg.ttl
    ensures OnTimeTo(cfg, queue, run, Deleted(cfg, queue, Signal(REQUEST7), Pending, Queued))
  {
    run := SecondStored(cfg, queue);
    run := Go(cfg, queue, run, Timeout(0), Stale(cfg, queue, REQUEST7, Pending, Queued));
    SweepsSecond(cfg, queue, Pending, Queued);
    run := Go(cfg, queue, run, Sweep, Deleted(cfg, queue, Signal(REQUEST7), Pending, Queued));
  }

  /** The new entry is deleted before the pause after it, and the lookup at its end dereferences nil. */
  lemma SlowTry(cfg: Config, queue: nat) returns (run: Run)
    requires 2 * cfg.timeout + cfg.retry + queue > cfg.ttl
    ensures AdmissibleBut(cfg, run, {PromptTries}) && Punctual(cfg, queue, run) && Panics(run, NilLease)
  {
    run := SecondSweptLate(cfg, queue);
    var now := Latest(cfg, queue);
    var st := Deleted(cfg, queue, Signal(REQUEST7), Pending, Asleep(now)).(gate := Blocker(0));
    run := Go(cfg, queue, run, Block(0), st);
    run := Go(cfg, queue, run, Tick(now + cfg.retry), st.(now := now + cfg.retry));
    run := Go(cfg, queue, run, Wake(0), Crashed(st.(now := now + cfg.retry), NilLease));
  }
}
