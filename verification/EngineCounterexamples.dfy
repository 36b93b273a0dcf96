/** Each condition is needed: waive one, and some run panics, or returns a wrong result. */
module EngineCounterexamples {
  import opened Wrappers
  import opened Messages
  import opened Leases
  import opened StoreSpec
  import opened Engine
  import opened EngineSafety
  import opened EngineSteps
  import opened EngineTheorems
  import opened EngineRuns
  import opened EngineStaleSnapshots

  const CFG := Config(10, 2, 3)

  // ---------- the runs share one call, one DISCOVER with xid 7 and the configuration above ----------

  function Fresh(now: nat): Call {
    Call(GetLease, 0, 100, false, None, None, Ready(now), 0, 0)
  }

  function Trying(key: Xid, phase: Phase): Call {
    Call(GetLease, 0, 100, false, None, Some(Attempt(0, key, 0)), phase, 1, 0)
  }

  function OneLease(lease: Lease, write: Write): seq<Slot> {
    [Slot(lease, 0, None, write, false)]
  }

  const ENTRY7: map<Xid, Item<LeaseId>> := map[7 := Item(0, 10, DISCOVER)]

  function Stored7(now: nat, lease: Lease, write: Write, phase: Phase, gate: Gate): State {
    State(now, ENTRY7, OneLease(lease, write), [Trying(7, phase)], Idle, Resting, gate, None)
  }

  /** The call waits for a DISCOVER that is not yet in the store. */
  function Unstored7(now: nat, key: Xid, phase: Phase, gate: Gate): State {
    Stored7(now, DISCOVER7, Unset, phase, gate).(store := map[], calls := [Trying(key, phase)])
  }

  lemma Drawn(xid: Xid, waived: set<Condition>) returns (run: Run)
    requires xid == 7 || (xid == 0 && FreshXids in waived)
    ensures Leads(CFG, run, waived, Unstored7(0, xid, Waiting, Free))
  {
    run := Start(CFG, waived);
    run := Extend(CFG, run, Open(GetLease, 100), INIT.(calls := [Fresh(0)]), waived);
    run := Extend(CFG, run, Begin(0, xid, 7, 0), Unstored7(0, xid, Waiting, Free), waived);
  }

  /** The DISCOVER is in the store and not yet sent. */
  lemma Begun(waived: set<Condition>) returns (run: Run)
    ensures Leads(CFG, run, waived, Stored7(0, DISCOVER7, Pending, Waiting, Free))
  {
    run := Drawn(7, waived);
    run := Extend(CFG, run, Put(0), Stored7(0, DISCOVER7, Pending, Waiting, Free), waived);
  }

  lemma Sent(waived: set<Condition>) returns (run: Run)
    ensures Leads(CFG, run, waived, Stored7(0, DISCOVER7, Written, Waiting, Free))
  {
    run := Begun(waived);
    run := Extend(CFG, run, LockSend(0), Stored7(0, DISCOVER7, Writing, Waiting, Writer(0)), waived);
    run := Extend(CFG, run, WriteSend(0), Stored7(0, DISCOVER7, Written, Waiting, Free), waived);
  }

  lemma TimedOut(run0: Run, st0: State, key: Xid, waived: set<Condition>) returns (run: Run)
    requires Leads(CFG, run0, waived, st0)
    requires st0.now == 0 && st0.calls == [Trying(key, Waiting)] && |st0.heap| == 1 && (st0.store == map[] || st0.store == ENTRY7)
    requires st0.receiver.Idle? && st0.cleaner.Resting? && st0.gate.Free? && st0.crash.None?
    requires StoredBeforeTimeout in waived || !st0.heap[0].write.Unset?
    ensures AdmissibleBut(CFG, run, waived)
    ensures Last(run) == st0.(now := 2, calls := [Trying(key, Queued)])
  {
    var st := st0.(now := 2);
    run := Extend(CFG, run0, Tick(2), st, waived);
    run := Extend(CFG, run, Timeout(0), st.(calls := [Trying(key, Queued)]), waived);
  }

  /** The try timed out at 2 and its pause ends at 5. */
  lemma Paused(run0: Run, st0: State, key: Xid, waived: set<Condition>) returns (run: Run)
    requires Leads(CFG, run0, waived, st0)
    requires st0.now == 0 && st0.calls == [Trying(key, Waiting)] && |st0.heap| == 1 && (st0.store == map[] || st0.store == ENTRY7)
    requires st0.receiver.Idle? && st0.cleaner.Resting? && st0.gate.Free? && st0.crash.None?
    requires StoredBeforeTimeout in waived || !st0.heap[0].write.Unset?
    ensures AdmissibleBut(CFG, run, waived)
    ensures Last(run) == st0.(now := 5, calls := [Trying(key, Asleep(2))], gate := Blocker(0))
  {
    run := TimedOut(run0, st0, key, waived);
    var st := st0.(now := 2, calls := [Trying(key, Asleep(2))], gate := Blocker(0));
    run := Extend(CFG, run, Block(0), st, waived);
    run := Extend(CFG, run, Tick(5), st.(now := 5), waived);
  }

  /** The call starts over at 5 and leaves its first try behind. */
  const ABANDONED := Stored7(5, DISCOVER7, Written, Waiting, Blocker(0)).(calls := [Fresh(5).(sends := 1, failures := 1)])

  lemma Abandoned(waived: set<Condition>) returns (run: Run)
    ensures Leads(CFG, run, waived, ABANDONED)
  {
    run := Sent(waived);
    run := Paused(run, Stored7(0, DISCOVER7, Written, Waiting, Free), 7, waived);
    run := Extend(CFG, run, Wake(0), ABANDONED, waived);
  }

  lemma AnsweredLate(waived: set<Condition>) returns (run: Run)
    ensures Leads(CFG, run, waived, ABANDONED.(heap := OneLease(OFFER7, Written)))
  {
    run := Abandoned(waived);
    run := Extend(CFG, run, Lookup(Reply(7, Some(OFFER))), ABANDONED.(receiver := Holding(0, Reply(7, Some(OFFER)))), waived);
    run := Extend(CFG, run, Apply, ABANDONED.(heap := OneLease(OFFER7, Written)), waived);
  }

  /** Nobody collects that offer before it expires. */
  const LEFTOVER := ABANDONED.(now := 11, heap := OneLease(OFFER7, Written))

  lemma LeftInStore(w: set<Condition>) returns (run: Run)
    requires CollectedReplies in w
    ensures Leads(CFG, run, w, LEFTOVER)
  {
    run := AnsweredLate(w);
    run := Extend(CFG, run, Tick(11), LEFTOVER, w);
  }

  /** An offer that arrives after the retry has been decided stays in the store, closed, until `Clean` meets it. */
  lemma LateOffer() returns (run: Run)
    ensures AdmissibleBut(CFG, run, {CollectedReplies}) && Panics(run, SendOnClosed)
  {
    var w := {CollectedReplies};
    run := LeftInStore(w);
    assert Outdated(LEFTOVER.store, 11) == {7};
    var st := LEFTOVER.(cleaner := Snapshotted({7}));
    run := Extend(CFG, run, TakeSnapshot, st, w);
    assert 7 in Doomed(st);
    run := Extend(CFG, run, Sweep, Crashed(st, SendOnClosed), w);
  }

  /** After a send error the caller reads the packet of a lease that has none. */
  lemma FailedSend() returns (run: Run)
    ensures AdmissibleBut(CFG, run, {SendsSucceed}) && Panics(run, NilPacket)
  {
    var w := {SendsSucceed};
    run := Begun(w);
    var st := Stored7(0, DISCOVER7, Pending, Waiting, Free).(store := map[], heap := [Slot(DISCOVER7, 0, None, Pending, true)]);
    run := Extend(CFG, run, SendError(0), st, w);
    run := Extend(CFG, run, DeliverError(0), Crashed(st, NilPacket), w);
  }

  lemma Offered(w: set<Condition>) returns (run: Run)
    ensures Leads(CFG, run, w, Stored7(0, OFFER7, Written, Waiting, Free))
  {
    run := Sent(w);
    var st := Stored7(0, DISCOVER7, Written, Waiting, Free);
    run := Extend(CFG, run, Lookup(Reply(7, Some(OFFER))), st.(receiver := Holding(0, Reply(7, Some(OFFER)))), w);
    run := Extend(CFG, run, Apply, Stored7(0, OFFER7, Written, Waiting, Free), w);
  }

  /** The call has taken the offer, and an ACK with the same xid was looked up before. */
  const AHEAD := State(0, map[], OneLease(OFFER7, Written), [Fresh(0).(offer := Some(0), sends := 1)],
                       Holding(0, Reply(7, Some(ACK))), Resting, Free, None)

  lemma AckAhead(w: set<Condition>) returns (run: Run)
    ensures Leads(CFG, run, w, AHEAD)
  {
    run := Offered(w);
    var st := Stored7(0, OFFER7, Written, Waiting, Free).(receiver := Holding(0, Reply(7, Some(ACK))));
    run := Extend(CFG, run, Lookup(Reply(7, Some(ACK))), st, w);
    run := Extend(CFG, run, Deliver(0), AHEAD, w);
  }

  /** An early ACK is looked up before the offer is retyped and applied after: `Done` is closed twice. */
  lemma RetypedWhileHeld() returns (run: Run)
    ensures AdmissibleBut(CFG, run, {NoRetypeWhileHeld}) && Panics(run, DoubleClose)
  {
    var w := {NoRetypeWhileHeld};
    run := AckAhead(w);
    var st := AHEAD.(heap := OneLease(OFFER7.(msgType := REQUEST), Written) + [Slot(NewLease(REQUEST, 7), 0, Some(0), Unset, false)],
              calls := [Fresh(0).(offer := Some(0), attempt := Some(Attempt(1, 7, 0)), phase := Waiting, sends := 2)]);
    run := Extend(CFG, run, BeginRequest(0, 0), st, w);
    run := Extend(CFG, run, Apply, Crashed(st, DoubleClose), w);
  }

  lemma ZeroDrawn(w: set<Condition>) returns (run: Run)
    requires FreshXids in w
    ensures AdmissibleBut(CFG, run, w)
    ensures Last(run) == Stored7(0, DISCOVER7, Pending, Waiting, Free).(calls := [Trying(0, Waiting)])
  {
    run := Drawn(0, w);
    run := Extend(CFG, run, Put(0), Stored7(0, DISCOVER7, Pending, Waiting, Free).(calls := [Trying(0, Waiting)]), w);
  }

  /** The call remembers a drawn 0, the packet carries another xid, and the lookup of 0 fails. */
  lemma ZeroXid() returns (run: Run)
    ensures AdmissibleBut(CFG, run, {FreshXids}) && Panics(run, NilLease)
  {
    var w := {FreshXids};
    run := ZeroDrawn(w);
    run := Paused(run, Stored7(0, DISCOVER7, Pending, Waiting, Free).(calls := [Trying(0, Waiting)]), 0, w);
    var st := Stored7(5, DISCOVER7, Pending, Waiting, Blocker(0)).(calls := [Trying(0, Asleep(2))]);
    run := Extend(CFG, run, Wake(0), Crashed(st, NilLease), w);
  }

  /** The caller gives up before its goroutine has stored the lease, and the lookup after the pause finds nothing. */
  lemma TimeoutBeforeSet() returns (run: Run)
    ensures AdmissibleBut(CFG, run, {StoredBeforeTimeout}) && Panics(run, NilLease)
  {
    var w := {StoredBeforeTimeout};
    run := Drawn(7, w);
    run := Paused(run, Unstored7(0, 7, Waiting, Free), 7, w);
    run := Extend(CFG, run, Wake(0), Crashed(Unstored7(5, 7, Asleep(2), Blocker(0)), NilLease), w);
  }

  /** A packet for the stored lease has an empty message type option. */
  lemma UntypedReply() returns (run: Run)
    ensures AdmissibleBut(CFG, run, {TypedReplies}) && Panics(run, EmptyType)
  {
    var w := {TypedReplies};
    run := Sent(w);
    var st := Stored7(0, DISCOVER7, Written, Waiting, Free).(receiver := Holding(0, Reply(7, None)));
    run := Extend(CFG, run, Lookup(Reply(7, None)), st, w);
    run := Extend(CFG, run, Apply, Crashed(st, EmptyType), w);
  }

  /** For each condition there is a run that meets all the others and panics. */
  lemma EveryConditionIsNeeded(waived: Condition)
    ensures exists cfg: Config, run: Run, why: Crash :: AdmissibleBut(cfg, run, {waived}) && Panics(run, why)
  {
    match waived
    case FreshXids => var run := ZeroXid();
    case StoredBeforeTimeout => var run := TimeoutBeforeSet();
    case SendsSucceed => var run := FailedSend();
    case PromptTries => var run := SlowTry(CFG, 4);
    case NoRetypeWhileHeld => var run := RetypedWhileHeld();
    case CollectedReplies => var run := LateOffer();
    case TypedReplies => var run := UntypedReply();
  }

  // ---------- wrong results, with one or two `Renew` calls on xid 7 ----------

  const ACK7 := REQUEST7.(msgType := ACK, accepted := Some(ACK), closed := true)

  function Renewing(l: LeaseId, phase: Phase): Call {
    Call(Renew, 0, 100, false, None, Some(Attempt(l, 7, 0)), phase, 1, 0)
  }

  const IDLE_RENEW := Call(Renew, 0, 100, false, None, None, Ready(0), 0, 0)

  function Renew7(now: nat, store: map<Xid, Item<LeaseId>>, lease: Lease, write: Write, gate: Gate): State {
    State(now, store, OneLease(lease, write), [Renewing(0, Waiting)], Idle, Resting, gate, None)
  }

  const RENEW_ENTRY: map<Xid, Item<LeaseId>> := map[7 := Item(0, 10, REQUEST)]

  lemma RenewStored(w: set<Condition>) returns (run: Run)
    ensures Leads(CFG, run, w, Renew7(0, RENEW_ENTRY, REQUEST7, Pending, Free))
  {
    run := Start(CFG, w);
    run := Extend(CFG, run, Open(Renew, 100), INIT.(calls := [IDLE_RENEW]), w);
    run := Extend(CFG, run, Begin(0, 7, 1, 0), Renew7(0, map[], REQUEST7, Unset, Free), w);
    run := Extend(CFG, run, Put(0), Renew7(0, RENEW_ENTRY, REQUEST7, Pending, Free), w);
  }

  lemma RenewSent(w: set<Condition>) returns (run: Run)
    ensures Leads(CFG, run, w, Renew7(0, RENEW_ENTRY, REQUEST7, Written, Free))
  {
    run := RenewStored(w);
    run := Extend(CFG, run, LockSend(0), Renew7(0, RENEW_ENTRY, REQUEST7, Writing, Writer(0)), w);
    run := Extend(CFG, run, WriteSend(0), Renew7(0, RENEW_ENTRY, REQUEST7, Written, Free), w);
  }

  const RENEW_NOTED := Renew7(11, RENEW_ENTRY, REQUEST7, Written, Free).(cleaner := Snapshotted({7}))
  const RENEW_SWEPT := Renew7(11, map[], Signal(REQUEST7), Written, Free)

  lemma RenewNoted(w: set<Condition>) returns (run: Run)
    requires PromptTries in w
    ensures Leads(CFG, run, w, RENEW_NOTED)
  {
    run := RenewSent(w);
    var st := Renew7(11, RENEW_ENTRY, REQUEST7, Written, Free);
    run := Extend(CFG, run, Tick(11), st, w);
    assert Outdated(st.store, 11) == {7};
    run := Extend(CFG, run, TakeSnapshot, RENEW_NOTED, w);
  }

  lemma RenewSweep()
    ensures Wf(RENEW_NOTED) && Enabled(CFG, RENEW_NOTED, Sweep) && AfterSweep(RENEW_NOTED) == RENEW_SWEPT
  {
    assert Doomed(RENEW_NOTED) == {7};
    assert 7 in Doomed(RENEW_NOTED) && RENEW_NOTED.store[7].lease == 0;
    assert AfterSweep(RENEW_NOTED).store == map[];
  }

  /**
   * A REQUEST that outlives ttl is swept, and the signal of `Clean` passes for an answer: the caller gets
   * back its own unanswered REQUEST, and the HTTP status is 200.
   */
  lemma SweptRequestIsReturned() returns (run: Run)
    ensures AdmissibleBut(CFG, run, {PromptTries})
    ensures var st := Last(run);
            && Returned(st, 0, 0) && |st.heap| == 1
            && st.heap[0].lease.accepted.None? && !IsAnswer(st, 0, 0)
            && StatusCode(OutcomeOf(st, Some(0))) == 200
  {
    var w := {PromptTries};
    run := RenewNoted(w);
    RenewSweep();
    run := Extend(CFG, run, Sweep, RENEW_SWEPT, w);
    var st := Renew7(11, map[], TakeToken(Signal(REQUEST7)), Written, Free)
              .(calls := [Finish(Renewing(0, Waiting), Some(0))]);
    assert st.store == Removed(RENEW_SWEPT.store, 7);
    run := Extend(CFG, run, Deliver(0), st, w);
  }

  /** Two calls wait on xid 7; the entry is that of the second. */
  function Two7(now: nat, lease: Lease, first: Phase, gate: Gate): State {
    State(now, map[7 := Item(1, 10, REQUEST)],
          [Slot(REQUEST7, 0, None, Pending, false), Slot(lease, 1, None, Pending, false)],
          [Renewing(0, first), Renewing(1, Waiting)], Idle, Resting, gate, None)
  }

  lemma TwoOpened(w: set<Condition>) returns (run: Run)
    ensures Leads(CFG, run, w, INIT.(calls := [IDLE_RENEW, IDLE_RENEW]))
  {
    run := Start(CFG, w);
    run := Extend(CFG, run, Open(Renew, 100), INIT.(calls := [IDLE_RENEW]), w);
    run := Extend(CFG, run, Open(Renew, 100), INIT.(calls := [IDLE_RENEW, IDLE_RENEW]), w);
  }

  lemma FirstOfTwo(w: set<Condition>) returns (run: Run)
    ensures AdmissibleBut(CFG, run, w)
    ensures Last(run) == Renew7(0, map[], REQUEST7, Unset, Free).(calls := [Renewing(0, Waiting), IDLE_RENEW])
  {
    run := TwoOpened(w);
    run := Extend(CFG, run, Begin(0, 7, 1, 0), Renew7(0, map[], REQUEST7, Unset, Free).(calls := [Renewing(0, Waiting), IDLE_RENEW]), w);
  }

  lemma FirstStored(w: set<Condition>) returns (run: Run)
    ensures AdmissibleBut(CFG, run, w)
    ensures Last(run) == Renew7(0, RENEW_ENTRY, REQUEST7, Pending, Free).(calls := [Renewing(0, Waiting), IDLE_RENEW])
  {
    run := FirstOfTwo(w);
    run := Extend(CFG, run, Put(0), Renew7(0, RENEW_ENTRY, REQUEST7, Pending, Free).(calls := [Renewing(0, Waiting), IDLE_RENEW]), w);
  }

  lemma SameXidTwice(w: set<Condition>) returns (run: Run)
    requires FreshXids in w
    ensures Leads(CFG, run, w, Two7(0, REQUEST7, Waiting, Free))
  {
    run := FirstStored(w);
    var st := Renew7(0, RENEW_ENTRY, REQUEST7, Pending, Free);
    st := st.(heap := st.heap + [Slot(REQUEST7, 1, None, Unset, false)], calls := [Renewing(0, Waiting), Renewing(1, Waiting)]);
    run := Extend(CFG, run, Begin(1, 7, 1, 0), st, w);
    run := Extend(CFG, run, Put(1), Two7(0, REQUEST7, Waiting, Free), w);
  }

  lemma SecondAnswered(w: set<Condition>) returns (run: Run)
    requires FreshXids in w
    ensures Leads(CFG, run, w, Two7(0, ACK7, Waiting, Free))
  {
    run := SameXidTwice(w);
    var st := Two7(0, REQUEST7, Waiting, Free);
    run := Extend(CFG, run, Lookup(Reply(7, Some(ACK))), st.(receiver := Holding(1, Reply(7, Some(ACK)))), w);
    run := Extend(CFG, run, Apply, Two7(0, ACK7, Waiting, Free), w);
  }

  lemma FirstLate(w: set<Condition>) returns (run: Run)
    requires FreshXids in w
    ensures Leads(CFG, run, w, Two7(2, ACK7, Waiting, Free))
  {
    run := SecondAnswered(w);
    run := Extend(CFG, run, Tick(2), Two7(2, ACK7, Waiting, Free), w);
  }

  lemma FirstPaused(w: set<Condition>) returns (run: Run)
    requires FreshXids in w
    ensures Leads(CFG, run, w, Two7(2, ACK7, Asleep(2), Blocker(0)))
  {
    run := FirstLate(w);
    run := Extend(CFG, run, Timeout(0), Two7(2, ACK7, Queued, Free), w);
    run := Extend(CFG, run, Block(0), Two7(2, ACK7, Asleep(2), Blocker(0)), w);
  }

  /** Two calls that draw the same xid: the first gets the answer to the second. */
  lemma StolenAnswer() returns (run: Run)
    ensures AdmissibleBut(CFG, run, {FreshXids})
    ensures var st := Last(run);
            Returned(st, 0, 1) && |st.heap| == 2 && st.heap[1].owner == 1 && !IsAnswer(st, 0, 1)
  {
    var w := {FreshXids};
    run := FirstPaused(w);
    var st := Two7(5, ACK7, Asleep(2), Blocker(0));
    run := Extend(CFG, run, Tick(5), st, w);
    var st' := st.(store := map[], calls := [Finish(Renewing(0, Asleep(2)), Some(1)), Renewing(1, Waiting)]);
    assert st'.store == Removed(st.store, 7);
    run := Extend(CFG, run, Wake(0), st', w);
  }

  // ---------- a wait that gives up before its goroutine has stored the lease ----------

  /** Call 0 gave up on a lease that is still to be stored; call 1 is about to draw the same xid. */
  const LEFT := State(5, map[], OneLease(REQUEST7, Unset), [IDLE_RENEW.(phase := Ready(5), sends := 1, failures := 1), IDLE_RENEW],
                      Idle, Resting, Blocker(0), None)

  lemma LeftWake(run0: Run, w: set<Condition>) returns (run: Run)
    requires AdmissibleBut(CFG, run0, w)
    requires Last(run0) ==
             Renew7(2, map[], REQUEST7, Unset, Blocker(0)).(calls := [Renewing(0, Asleep(2)), IDLE_RENEW])
    ensures Leads(CFG, run, w, LEFT)
  {
    var st := Renew7(5, map[], REQUEST7, Unset, Blocker(0)).(calls := [Renewing(0, Asleep(2)), IDLE_RENEW]);
    run := Extend(CFG, run0, Tick(5), st, w);
    run := Extend(CFG, run, Wake(0), LEFT, w);
  }

  lemma LeftUnstored(w: set<Condition>) returns (run: Run)
    requires StoredBeforeTimeout in w
    ensures Leads(CFG, run, w, LEFT)
  {
    run := FirstOfTwo(w);
    var st := Renew7(2, map[], REQUEST7, Unset, Free).(calls := [Renewing(0, Waiting), IDLE_RENEW]);
    run := Extend(CFG, run, Tick(2), st, w);
    st := st.(calls := [Renewing(0, Queued), IDLE_RENEW]);
    run := Extend(CFG, run, Timeout(0), st, w);
    st := st.(calls := [Renewing(0, Asleep(2)), IDLE_RENEW], gate := Blocker(0));
    run := Extend(CFG, run, Block(0), st, w);
    run := LeftWake(run, w);
  }

  /** The forgotten goroutine of call 0 stores its lease over that of call 1. */
  function Overwritten(now: nat, lease: Lease, phase: Phase, gate: Gate): State {
    LEFT.(now := now, store := map[7 := Item(0, 15, REQUEST)],
          heap := [Slot(lease, 0, None, Pending, false), Slot(REQUEST7, 1, None, Pending, false)],
          calls := [LEFT.calls[0], IDLE_RENEW.(attempt := Some(Attempt(1, 7, 5)), phase := phase, sends := 1)],
          gate := gate)
  }

  /** Both calls have a lease with xid 7 and neither is stored. */
  function BothUnset(): State {
    Overwritten(5, REQUEST7, Waiting, Blocker(0))
    .(store := map[], heap := [Slot(REQUEST7, 0, None, Unset, false), Slot(REQUEST7, 1, None, Unset, false)])
  }

  lemma DrawnAgain(w: set<Condition>) returns (run: Run)
    requires StoredBeforeTimeout in w
    ensures Leads(CFG, run, w, BothUnset())
  {
    run := LeftUnstored(w);
    run := Extend(CFG, run, Begin(1, 7, 1, 5), BothUnset(), w);
  }

  lemma LateOverwrite(w: set<Condition>) returns (run: Run)
    requires StoredBeforeTimeout in w
    ensures Leads(CFG, run, w, Overwritten(5, REQUEST7, Waiting, Blocker(0)))
  {
    run := DrawnAgain(w);
    var st := BothUnset().(store := map[7 := Item(1, 15, REQUEST)],
                           heap := [Slot(REQUEST7, 0, None, Unset, false), Slot(REQUEST7, 1, None, Pending, false)]);
    run := Extend(CFG, run, Put(1), st, w);
    run := Extend(CFG, run, Put(0), Overwritten(5, REQUEST7, Waiting, Blocker(0)), w);
  }

  lemma OverwriteHeld(w: set<Condition>) returns (run: Run)
    requires StoredBeforeTimeout in w
    ensures Leads(CFG, run, w, Overwritten(5, ACK7, Waiting, Blocker(0)))
  {
    run := LateOverwrite(w);
    var st := Overwritten(5, REQUEST7, Waiting, Blocker(0));
    run := Extend(CFG, run, Lookup(Reply(7, Some(ACK))), st.(receiver := Holding(0, Reply(7, Some(ACK)))), w);
    run := Extend(CFG, run, Apply, Overwritten(5, ACK7, Waiting, Blocker(0)), w);
  }

  lemma OverwriteAnswered(w: set<Condition>) returns (run: Run)
    requires StoredBeforeTimeout in w
    ensures Leads(CFG, run, w, Overwritten(7, ACK7, Waiting, Free))
  {
    run := OverwriteHeld(w);
    run := Extend(CFG, run, Unblock, Overwritten(5, ACK7, Waiting, Free), w);
    run := Extend(CFG, run, Tick(7), Overwritten(7, ACK7, Waiting, Free), w);
  }

  lemma SecondPaused(w: set<Condition>) returns (run: Run)
    requires StoredBeforeTimeout in w
    ensures Leads(CFG, run, w, Overwritten(7, ACK7, Asleep(7), Blocker(1)))
  {
    run := OverwriteAnswered(w);
    run := Extend(CFG, run, Timeout(1), Overwritten(7, ACK7, Queued, Free), w);
    run := Extend(CFG, run, Block(1), Overwritten(7, ACK7, Asleep(7), Blocker(1)), w);
  }

  /** The second call times out, looks up its xid and returns the lease of the first. */
  lemma LateStore() returns (run: Run)
    ensures AdmissibleBut(CFG, run, {StoredBeforeTimeout})
    ensures var st := Last(run);
            Returned(st, 1, 0) && |st.heap| == 2 && st.heap[0].owner == 0 && !IsAnswer(st, 1, 0)
  {
    var w := {StoredBeforeTimeout};
    run := SecondPaused(w);
    var st := Overwritten(10, ACK7, Asleep(7), Blocker(1));
    run := Extend(CFG, run, Tick(10), st, w);
    var st' := st.(store := map[], calls := [st.calls[0], Finish(st.calls[1], Some(0))]);
    assert st'.store == Removed(st.store, 7);
    run := Extend(CFG, run, Wake(1), st', w);
  }

  /**
   * Fresh xids, storing before the timeout and prompt tries are each needed for right results: without one,
   * in a run that meets all other conditions, some call returns what is no answer to it.
   */
  lemma EveryResultConditionIsNeeded(waived: Condition)
    requires waived == FreshXids || waived == StoredBeforeTimeout || waived == PromptTries
    ensures exists run: Run, c: CallId, l: LeaseId ::
              && AdmissibleBut(CFG, run, {waived})
              && Returned(Last(run), c, l) && !IsAnswer(Last(run), c, l)
  {
    match waived
    case FreshXids => var run := StolenAnswer();
    case StoredBeforeTimeout => var run := LateStore();
    case PromptTries => var run := SweptRequestIsReturned();
  }

  // ---------- a write during a pause ----------

  const OPENED := Stored7(2, DISCOVER7, Pending, Asleep(2), Free).(calls := [Trying(7, Asleep(2)).(cancelled := true)])

  lemma CancelledPause() returns (run: Run)
    ensures Admissible(CFG, run)
    ensures Last(run) == OPENED.(gate := Blocker(0))
  {
    run := Begun({});
    run := TimedOut(run, Stored7(0, DISCOVER7, Pending, Waiting, Free), 7, {});
    var st := Stored7(2, DISCOVER7, Pending, Asleep(2), Blocker(0));
    run := Extend(CFG, run, Block(0), st, {});
    run := Extend(CFG, run, Cancel(0), OPENED.(gate := Blocker(0)), {});
  }

  lemma PauseOpened() returns (run: Run)
    ensures Admissible(CFG, run) && Last(run) == OPENED
  {
    run := CancelledPause();
    run := Extend(CFG, run, Unblock, OPENED, {});
  }

  /** Once its context has ended, a pause does not keep packets back, even in a run that meets every condition. */
  lemma WriteWhileAsleep() returns (run: Run)
    ensures Admissible(CFG, run) && run.steps != [] && run.steps[|run.steps| - 1] == WriteSend(0)
    ensures var st := Last(run); |st.calls| == 1 && st.calls[0].phase.Asleep?
  {
    run := PauseOpened();
    var st := OPENED;
    run := Extend(CFG, run, LockSend(0), st.(heap := OneLease(DISCOVER7, Writing), gate := Writer(0)), {});
    run := Extend(CFG, run, WriteSend(0), st.(heap := OneLease(DISCOVER7, Written)), {});
  }
}
