/** The lease store as a history of timed events: how transactions stay apart, and how long entries live. */
module Table {
  import opened Wrappers
  import opened Messages
  import opened Leases
  import opened StoreSpec

  datatype Event =
    | Set(xid: Xid, role: MsgType)   // `Set` of a new DISCOVER or REQUEST
    | Answer(reply: Reply)           // `processDHCPReponse`
    | Remove(xid: Xid)
    | Touch(xid: Xid)
    | Snapshot                       // first section of `Clean`
    | Sweep                          // its second section

  datatype Timed = Timed(at: nat, event: Event)

  /** The entries, the keys `Clean` noted in its first section, and whether the program still runs. */
  datatype Table = Table(entries: map<Xid, Item<Lease>>, keys: set<Xid>, running: bool)

  const EMPTY := Table(map[], {}, true)

  predicate WellTyped(e: Timed) {
    e.event.Set? ==> e.event.role == DISCOVER || e.event.role == REQUEST
  }

  ghost predicate AllWellTyped(es: seq<Timed>) {
    forall i | 0 <= i < |es| :: WellTyped(es[i])
  }

  function Doomed(t: Table): set<Xid> {
    set k | k in t.keys && k in t.entries
  }

  function AfterAnswer(t: Table, r: Reply): Table {
    if r.xid !in t.entries then t
    else match Receive(t.entries[r.xid].lease, r)
         case NoType => t.(running := false)
         case ClosedTwice => t.(running := false)
         case Taken(l) => t.(entries := t.entries[r.xid := t.entries[r.xid].(lease := l)])
  }

  function AfterSweep(t: Table): Table {
    if exists k | k in Doomed(t) :: t.entries[k].lease.closed then t.(running := false)
    else Table(t.entries - Doomed(t), {}, true)
  }

  function Step(ttl: nat, t: Table, e: Timed): Table {
    if !t.running then t
    else match e.event
         case Set(xid, role) => t.(entries := Stored(t.entries, xid, NewLease(role, xid), role, e.at, ttl))
         case Answer(r) => AfterAnswer(t, r)
         case Remove(xid) => t.(entries := Removed(t.entries, xid))
         case Touch(xid) => t.(entries := Touched(t.entries, xid, e.at, ttl))
         case Snapshot => t.(keys := Outdated(t.entries, e.at))
         case Sweep => AfterSweep(t)
  }

  /** The table after a history that began with an empty store. */
  function After(ttl: nat, es: seq<Timed>): Table {
    if es == [] then EMPTY else Step(ttl, After(ttl, es[..|es| - 1]), es[|es| - 1])
  }

  // ---------- soundness of the entries ----------

  ghost predicate EntriesSound(t: Table) {
    forall k | k in t.entries :: StoredOk(t.entries[k].lease) && t.entries[k].lease.xid == k
  }

  lemma SoundStep(ttl: nat, t: Table, e: Timed)
    requires EntriesSound(t) && WellTyped(e)
    ensures EntriesSound(Step(ttl, t, e))
  {
    if e.event.Answer? && e.event.reply.xid in t.entries {
      StoredTakesOneReply(t.entries[e.event.reply.xid].lease, e.event.reply);
    }
  }

  lemma {:induction false} SoundAfter(ttl: nat, es: seq<Timed>)
    requires AllWellTyped(es)
    ensures EntriesSound(After(ttl, es))
  {
    if es != [] {
      SoundAfter(ttl, es[..|es| - 1]);
      SoundStep(ttl, After(ttl, es[..|es| - 1]), es[|es| - 1]);
    }
  }

  lemma AfterSnoc(ttl: nat, es: seq<Timed>, e: Timed)
    ensures After(ttl, es + [e]) == Step(ttl, After(ttl, es), e)
  {
    assert (es + [e])[..|es|] == es;
  }

  /**
   * A running history of new DISCOVERs and REQUESTs is stopped by exactly two events: a reply without a type
   * to a stored lease, and a sweep that finds under a noted key a lease that took a reply.
   */
  lemma StopsIff(ttl: nat, es: seq<Timed>, e: Timed)
    requires AllWellTyped(es) && After(ttl, es).running
    ensures var t := After(ttl, es);
            !After(ttl, es + [e]).running <==>
              || (e.event.Answer? && e.event.reply.xid in t.entries && e.event.reply.msgType.None?)
              || (e.event.Sweep? && exists k | k in Doomed(t) :: t.entries[k].lease.accepted.Some?)
  {
    AfterSnoc(ttl, es, e);
    SoundAfter(ttl, es);
    var t := After(ttl, es);
    if e.event.Answer? && e.event.reply.xid in t.entries {
      StoredTakesOneReply(t.entries[e.event.reply.xid].lease, e.event.reply);
    }
  }

  /**
   * The first fitting reply to a stored DISCOVER or REQUEST is recorded in the entry of its xid: type, error for a
   * NAK, and a closed `Done`; role, expiry and all other entries stay. Later replies change nothing.
   */
  lemma AnswerIsRecorded(ttl: nat, es: seq<Timed>, x: Xid, got: MsgType, at: nat)
    requires AllWellTyped(es) && After(ttl, es).running && x in After(ttl, es).entries
    ensures var t, t' := After(ttl, es), After(ttl, es + [Timed(at, Answer(Reply(x, Some(got))))]);
            var item := t.entries[x];
            if item.lease.accepted.None? && Answers(item.lease.role, got) then
              && t'.running && t'.keys == t.keys && t'.entries.Keys == t.entries.Keys
              && t'.entries[x] == Item(Lease(x, item.lease.role, got, got == NAK, Some(got), true, 0, 0), item.expire, item.status)
              && (forall k | k in t.entries && k != x :: t'.entries[k] == t.entries[k])
            else t' == t
  {
    SoundAfter(ttl, es);
    AfterSnoc(ttl, es, Timed(at, Answer(Reply(x, Some(got)))));
    var t := After(ttl, es);
    assert StoredOk(t.entries[x].lease);
    assert t.entries[x := t.entries[x]] == t.entries;
  }

  /** Every entry but that of x is as before. */
  ghost predicate OnlyAt(t: Table, t': Table, x: Xid) {
    && t'.keys == t.keys
    && (forall k | k != x :: k in t'.entries <==> k in t.entries)
    && (forall k | k != x && k in t.entries :: t'.entries[k] == t.entries[k])
  }

  /** What `Set`, `Remove` and `Touch` do to the entry of their xid, at any point of a running history; all others stay. */
  lemma StoreEvents(ttl: nat, es: seq<Timed>, x: Xid, role: MsgType, at: nat)
    requires After(ttl, es).running
    ensures var t := After(ttl, es);
            var set', gone, touched := After(ttl, es + [Timed(at, Set(x, role))]), After(ttl, es + [Timed(at, Remove(x))]),
                                       After(ttl, es + [Timed(at, Touch(x))]);
            && x in set'.entries && set'.entries[x] == Item(NewLease(role, x), at + ttl, role)
            && x !in gone.entries
            && (x in touched.entries <==> x in t.entries)
            && (x in t.entries ==> touched.entries[x] == t.entries[x].(expire := at + ttl))
            && OnlyAt(t, set', x) && OnlyAt(t, gone, x) && OnlyAt(t, touched, x)
  {
    AfterSnoc(ttl, es, Timed(at, Set(x, role)));
    AfterSnoc(ttl, es, Timed(at, Remove(x)));
    AfterSnoc(ttl, es, Timed(at, Touch(x)));
  }

  // ---------- non-interference ----------

  /** The xid an event is about; the two sections of `Clean` are about none. */
  function Bears(e: Event): Option<Xid> {
    match e
    case Set(xid, _) => Some(xid)
    case Answer(r) => Some(r.xid)
    case Remove(xid) => Some(xid)
    case Touch(xid) => Some(xid)
    case _ => None
  }

  /** An event changes nothing but the entry of the xid it bears. */
  lemma StepIsLocal(ttl: nat, t: Table, e: Timed)
    requires Bears(e.event).Some?
    ensures OnlyAt(t, Step(ttl, t, e), Bears(e.event).value)
  {
  }

  ghost predicate OnlySame(t: Table, u: Table, x: Xid) {
    && t.running == u.running
    && (x in t.entries <==> x in u.entries)
    && (x in t.entries ==> t.entries[x] == u.entries[x])
  }

  /** What an event does to the entry it bears depends on that entry alone. */
  lemma StepReadsOwnEntry(ttl: nat, t: Table, u: Table, e: Timed)
    requires Bears(e.event).Some? && OnlySame(t, u, Bears(e.event).value)
    ensures OnlySame(Step(ttl, t, e), Step(ttl, u, e), Bears(e.event).value)
  {
  }

  lemma SameTable(a: Table, b: Table, td: Table, te: Table, x: Xid, y: Xid)
    requires x != y && td.keys == te.keys && a.running == b.running
    requires OnlyAt(td, a, y) && OnlyAt(te, b, x)
    requires OnlySame(te, a, y) && OnlySame(td, b, x)
    requires forall k | k != x && k != y :: (k in td.entries <==> k in te.entries) && (k in td.entries ==> td.entries[k] == te.entries[k])
    ensures a == b
  {
    forall k ensures k in a.entries <==> k in b.entries {
      if k != x && k != y { assert k in td.entries <==> k in te.entries; }
    }
    assert a.entries == b.entries;
  }

  /** Events of different transactions commute: in both orders they stop the program or leave the same table. */
  lemma DifferentXidsCommute(ttl: nat, t: Table, d: Timed, e: Timed)
    requires Bears(d.event).Some? && Bears(e.event).Some? && Bears(d.event) != Bears(e.event)
    ensures Step(ttl, Step(ttl, t, d), e).running == Step(ttl, Step(ttl, t, e), d).running
    ensures Step(ttl, Step(ttl, t, d), e).running ==> Step(ttl, Step(ttl, t, d), e) == Step(ttl, Step(ttl, t, e), d)
  {
    var td, te := Step(ttl, t, d), Step(ttl, t, e);
    StepIsLocal(ttl, t, d);
    StepIsLocal(ttl, t, e);
    if td.running { StepReadsOwnEntry(ttl, t, td, e); }
    if te.running { StepReadsOwnEntry(ttl, t, te, d); }
    if td.running && te.running {
      StepIsLocal(ttl, td, e);
      StepIsLocal(ttl, te, d);
      SameTable(Step(ttl, td, e), Step(ttl, te, d), td, te, Bears(d.event).value, Bears(e.event).value);
    }
  }

  /** What a table says about one xid. */
  datatype View = View(entry: Option<Item<Lease>>, noted: bool)

  function At(t: Table, x: Xid): View {
    View(if x in t.entries then Some(t.entries[x]) else None, x in t.keys)
  }

  /** The events of a history that bear xid x, and the sections of `Clean`. */
  function Only(es: seq<Timed>, x: Xid): seq<Timed> {
    if es == [] then []
    else
      var front, last := Only(es[..|es| - 1], x), es[|es| - 1];
      if Bears(last.event).None? || Bears(last.event) == Some(x) then front + [last] else front
  }

  lemma ReplayStep(ttl: nat, t: Table, u: Table, e: Timed, x: Xid)
    requires t.running && u.running && At(t, x) == At(u, x) && u.entries.Keys <= {x}
    requires Bears(e.event).None? || Bears(e.event) == Some(x)
    requires Step(ttl, t, e).running
    ensures Step(ttl, u, e).running
    ensures At(Step(ttl, t, e), x) == At(Step(ttl, u, e), x)
    ensures Step(ttl, u, e).entries.Keys <= {x}
  {
    assert x in t.entries <==> x in u.entries;
    assert x in t.keys <==> x in u.keys;
    if e.event.Sweep? {
      assert x in Doomed(t) <==> x in Doomed(u);
      assert Doomed(u) <= {x};
    }
  }

  /** While the whole program runs, what it says about x is what the replay of x alone says. */
  lemma {:induction false} Replay(ttl: nat, es: seq<Timed>, x: Xid)
    requires After(ttl, es).running
    ensures After(ttl, Only(es, x)).running
    ensures At(After(ttl, es), x) == At(After(ttl, Only(es, x)), x)
    ensures After(ttl, Only(es, x)).entries.Keys <= {x}
  {
    if es != [] {
      var front, e := es[..|es| - 1], es[|es| - 1];
      Replay(ttl, front, x);
      var t, u := After(ttl, front), After(ttl, Only(front, x));
      if Bears(e.event).None? || Bears(e.event) == Some(x) {
        AfterSnoc(ttl, Only(front, x), e);
        ReplayStep(ttl, t, u, e, x);
      } else {
        assert At(Step(ttl, t, e), x) == At(t, x);
      }
    }
  }

  /** A history that has stopped was stopped by some transaction, which stops when replayed alone. */
  lemma {:induction false} Culprit(ttl: nat, es: seq<Timed>) returns (x: Xid)
    requires !After(ttl, es).running
    ensures !After(ttl, Only(es, x)).running
  {
    var front, e := es[..|es| - 1], es[|es| - 1];
    if !After(ttl, front).running {
      x := Culprit(ttl, front);
      AfterSnoc(ttl, Only(front, x), e);
    } else {
      var t := After(ttl, front);
      if e.event.Answer? {
        x := e.event.reply.xid;
      } else {
        x :| x in Doomed(t) && t.entries[x].lease.closed;
      }
      Replay(ttl, front, x);
      AfterSnoc(ttl, Only(front, x), e);
      var u := After(ttl, Only(front, x));
      assert At(t, x) == At(u, x);
      if e.event.Sweep? { assert x in Doomed(u); }
    }
  }

  /** A whole history keeps running exactly when the replay of every single transaction does. */
  lemma RunsIffEveryTransactionRuns(ttl: nat, es: seq<Timed>)
    ensures After(ttl, es).running <==> forall x :: After(ttl, Only(es, x)).running
  {
    if After(ttl, es).running {
      forall x ensures After(ttl, Only(es, x)).running { Replay(ttl, es, x); }
    } else {
      var x := Culprit(ttl, es);
    }
  }

  // ---------- how long entries live ----------

  /** Times never run backwards. */
  ghost predicate Ordered(es: seq<Timed>) {
    forall i, j | 0 <= i < j < |es| :: es[i].at <= es[j].at
  }

  /** When the last snapshot was taken, and when that of the last completed `Clean` was (0 at the start). */
  datatype Cleaning = Cleaning(noted: nat, cleaned: nat)

  function Cleanings(es: seq<Timed>): Cleaning {
    if es == [] then Cleaning(0, 0)
    else
      var c, e := Cleanings(es[..|es| - 1]), es[|es| - 1];
      match e.event
      case Snapshot => c.(noted := e.at)
      case Sweep => c.(cleaned := c.noted)
      case _ => c
  }

  /** An event that gives the entry of x a new expiry: `Set` under x, or `Touch` of x. */
  predicate Refreshes(e: Event, x: Xid) {
    e == Touch(x) || (e.Set? && e.xid == x)
  }

  /** The time of the last `Set` or `Touch` of x. */
  function LastRefresh(es: seq<Timed>, x: Xid): nat {
    if es == [] then 0
    else
      var e := es[|es| - 1];
      if Refreshes(e.event, x) then e.at else LastRefresh(es[..|es| - 1], x)
  }

  lemma {:induction false} ExpireIsRefreshPlusTtl(ttl: nat, es: seq<Timed>, x: Xid)
    requires After(ttl, es).running && x in After(ttl, es).entries
    ensures After(ttl, es).entries[x].expire == LastRefresh(es, x) + ttl
  {
    var front, e := es[..|es| - 1], es[|es| - 1];
    if x in After(ttl, front).entries { ExpireIsRefreshPlusTtl(ttl, front, x); }
  }

  /** No entry outlived the last completed `Clean`, and the snapshot noted every entry that expired before it. */
  lemma {:induction false} CleanedUp(ttl: nat, es: seq<Timed>)
    requires Ordered(es) && After(ttl, es).running
    ensures var t, c := After(ttl, es), Cleanings(es);
            && c.cleaned <= c.noted
            && (es != [] ==> c.noted <= es[|es| - 1].at)
            && (forall k | k in t.entries :: t.entries[k].expire >= c.cleaned)
            && (forall k | k in t.entries && k !in t.keys :: t.entries[k].expire >= c.noted)
  {
    if es != [] {
      var front, e := es[..|es| - 1], es[|es| - 1];
      CleanedUp(ttl, front);
      var t, c := After(ttl, front), Cleanings(front);
      assert c.noted <= e.at;
      assert e.event.Sweep? ==> forall k | k in t.entries && k !in Doomed(t) :: k !in t.keys;
    }
  }

  /**
   * While every `Clean` is finished at most ttl/2 + delta after the snapshot of the one before, no entry is
   * found in the store later than ttl + ttl/2 + delta after its last `Set` or `Touch`.
   */
  lemma EntriesDoNotLinger(ttl: nat, delta: nat, es: seq<Timed>, now: nat, x: Xid)
    requires Ordered(es) && After(ttl, es).running && x in After(ttl, es).entries
    requires now <= Cleanings(es).cleaned + ttl / 2 + delta
    ensures now <= LastRefresh(es, x) + ttl + ttl / 2 + delta
  {
    CleanedUp(ttl, es);
    ExpireIsRefreshPlusTtl(ttl, es, x);
  }

  /** A `Clean` that nothing interrupts keeps exactly the entries that are not strictly past their expiry. */
  lemma UninterruptedClean(ttl: nat, es: seq<Timed>, at: nat, later: nat)
    requires After(ttl, es + [Timed(at, Snapshot)] + [Timed(later, Sweep)]).running
    ensures var t, t' := After(ttl, es), After(ttl, es + [Timed(at, Snapshot)] + [Timed(later, Sweep)]);
            && (forall k :: k in t'.entries <==> k in t.entries && t.entries[k].expire >= at)
            && (forall k | k in t'.entries :: t'.entries[k] == t.entries[k])
  {
    AfterSnoc(ttl, es, Timed(at, Snapshot));
    AfterSnoc(ttl, es + [Timed(at, Snapshot)], Timed(later, Sweep));
  }

  /** Whatever runs between the two sections, `Clean` deletes only keys that were past their expiry at its snapshot. */
  lemma {:induction false} SweptWasOutdated(ttl: nat, es: seq<Timed>, x: Xid) returns (i: nat)
    requires After(ttl, es).running && x in After(ttl, es).keys
    ensures i < |es| && es[i].event.Snapshot?
    ensures x in Outdated(After(ttl, es[..i]).entries, es[i].at)
    ensures forall j | i < j < |es| :: !es[j].event.Snapshot?
  {
    var front, e := es[..|es| - 1], es[|es| - 1];
    if e.event.Snapshot? {
      i := |es| - 1;
    } else {
      i := SweptWasOutdated(ttl, front, x);
      assert es[..i] == front[..i];
    }
  }

  /** Some event after position i gives the entry of x a new expiry. */
  ghost predicate RefreshedSince(es: seq<Timed>, i: nat, x: Xid) {
    exists j :: i < j < |es| && Refreshes(es[j].event, x)
  }

  lemma RefreshedSnoc(es: seq<Timed>, i: nat, x: Xid)
    requires i < |es| - 1
    ensures RefreshedSince(es, i, x) <==> RefreshedSince(es[..|es| - 1], i, x) || Refreshes(es[|es| - 1].event, x)
  {
    var front := es[..|es| - 1];
    if RefreshedSince(front, i, x) {
      var j :| i < j < |front| && Refreshes(front[j].event, x);
      assert es[j] == front[j];
    }
    if RefreshedSince(es, i, x) {
      var j :| i < j < |es| && Refreshes(es[j].event, x);
      assert j < |front| ==> front[j] == es[j];
    }
  }

  /** A key that is still noted and was not refreshed since its snapshot has the expiry it had there. */
  lemma {:induction false} OldExpireStays(ttl: nat, es: seq<Timed>, i: nat, x: Xid)
    requires After(ttl, es).running && x in After(ttl, es).entries
    requires i < |es| && es[i].event.Snapshot? && x in Outdated(After(ttl, es[..i]).entries, es[i].at)
    requires !RefreshedSince(es, i, x)
    ensures After(ttl, es).entries[x].expire < es[i].at
  {
    var front := es[..|es| - 1];
    if i == |es| - 1 {
      assert es[..i] == front;
    } else {
      RefreshedSnoc(es, i, x);
      assert front[..i] == es[..i] && front[i] == es[i];
      OldExpireStays(ttl, front, i, x);
    }
  }

  /**
   * Whatever runs between the two sections, the second deletes the entry of a noted key, and the entry is
   * still alive exactly if it was stored anew or touched since the snapshot and that is at most ttl ago.
   */
  lemma RefreshBetweenSectionsIsLost(ttl: nat, es: seq<Timed>, x: Xid, now: nat) returns (i: nat)
    requires Ordered(es + [Timed(now, Sweep)]) && After(ttl, es + [Timed(now, Sweep)]).running
    requires x in Doomed(After(ttl, es))
    ensures i < |es| && es[i].event.Snapshot? && forall j | i < j < |es| :: !es[j].event.Snapshot?
    ensures x !in After(ttl, es + [Timed(now, Sweep)]).entries
    ensures After(ttl, es).entries[x].expire >= now <==> RefreshedSince(es, i, x) && LastRefresh(es, x) + ttl >= now
  {
    var all := es + [Timed(now, Sweep)];
    AfterSnoc(ttl, es, Timed(now, Sweep));
    i := SweptWasOutdated(ttl, es, x);
    ExpireIsRefreshPlusTtl(ttl, es, x);
    assert all[i] == es[i] && es[i].at <= all[|es|].at;
    if !RefreshedSince(es, i, x) { OldExpireStays(ttl, es, i, x); }
  }

  /** A new REQUEST that is stored between the sections under an expired xid is deleted ten ticks before its time. */
  lemma NewEntryIsDeleted()
    ensures var es := [Timed(0, Set(7, REQUEST)), Timed(11, Snapshot), Timed(12, Set(7, REQUEST))];
            var t, t' := After(10, es), After(10, es + [Timed(12, Sweep)]);
            && t.running && t'.running
            && 7 in t.entries && t.entries[7].expire == 22 && t.entries[7].lease == NewLease(REQUEST, 7)
            && t'.entries == map[]
  {
    var e0, e1, e2 := Timed(0, Set(7, REQUEST)), Timed(11, Snapshot), Timed(12, Set(7, REQUEST));
    assert After(10, []) == EMPTY;
    AfterSnoc(10, [], e0);
    assert [] + [e0] == [e0];
    AfterSnoc(10, [e0], e1);
    assert [e0] + [e1] == [e0, e1];
    AfterSnoc(10, [e0, e1], e2);
    assert [e0, e1] + [e2] == [e0, e1, e2];
    AfterSnoc(10, [e0, e1, e2], Timed(12, Sweep));
    var t := After(10, [e0, e1, e2]);
    assert t.keys == {7} && Doomed(t) == {7};
    assert t.entries - {7} == map[];
  }
}
