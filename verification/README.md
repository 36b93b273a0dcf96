# A model of the rest2dhcp relay client

rest2dhcp answers REST requests by acting as a DHCP relay. Its core is a client that runs many
`GetLease` and `Renew` calls at once over one expiring store of transactions keyed by xid, one receiver,
one cleaner and one send gate. This project models that core in Dafny and proves what it guarantees,
under which conditions, and that each of these conditions is needed. Beside it stand the smaller parts
with laws of their own: packet options and requests, lease times, source ports, JSON patches, route
selection and the relay address.

## The engine

`Engine.dfy` is a labelled step system. A state holds the clock, the store, the heap of lease objects
(type, error, state of the `Done` channel), the calls with their phases, the receiver between its lookup
of a lease and its use of the reply, the cleaner between its two critical sections, and the owner of
`outmux`. Every step is one atomic action of one goroutine; received packets, send failures, delays and
cancellations are arbitrary. The panics of the code are explicit: dereferencing a failed lookup, reading
the packet of a lease that carries only a send error, reading an empty message type, closing `Done` twice, and
sending on a closed `Done`.

- `EngineBasics.dfy`: what holds in every run, whatever happens: the state of every stored lease, when
  exactly the cleaner panics, when exactly a channel is closed twice, and that the cleaner never blocks.
- `EngineSafety.dfy`: the seven conditions the client relies on, and an invariant of all runs that meet the
  first two (orderly runs).
- `EngineHistory.dfy`: what the past of a run tells about a lease: which step applied its reply, and, in
  every run, when exactly a lease is handed to its caller without any reply.
- `EngineSteps.dfy`: in every run, when exactly a wait, a pause and a call can end, what leaves the store then, how
  entries come and go, and that a call is moved by its own steps only.
- `EngineAnswers.dfy`, `EnginePanics.dfy`: what holds beyond that while the cleaner spares the calls that
  wait, under the first four conditions (disciplined runs), and under all seven.
- `EngineTheorems.dfy`: the results of `GetLease` and `Renew` with the replies that led to them, when exactly a
  result is no answer, late answers, separation of calls, the HTTP status, and freedom from panics.
- `EngineRuns.dfy`, `EngineCounterexamples.dfy`: for each condition a run that meets all the others and panics,
  and runs that return wrong results.
- `EngineStaleSnapshots.dfy`, `EngineTiming.dfy`: on a perfect clock, exactly which configurations of ttl, timeout
  and pause give right results.
- `Retries.dfy`: the bound on the tries and packets of one call, the one value on its channel, and the send gate.

The conditions are: (1) xids are drawn non-zero and fresh; (2) a try's lease is stored before its caller
times out; (3) no send fails; (4) no try outlives its store entry (which includes the time queued in
`Block` and the pause); (5) an offer is not
retyped while the receiver holds it; (6) no accepted reply is left in the store past its expiry; (7) no packet
for a stored lease has an empty message type option.

Which result needs which: separation of calls needs (1) and (2). The results of a call and their status need
besides only that the cleaner never signals a lease while this call waits for it, whatever else goes wrong,
panics included; (3) and (4) together imply that. That lookups do not fail needs (1) to (4), and freedom from
panics needs all seven. Without any condition, a lease is handed over unanswered exactly when a sweep found
its key in its snapshot while the call waited, unless the receiver then held an answer that it applied before
the call woke up.

Condition (4) can be read off the configuration. Let every wait and every pause end on time and no call queue in
`Block` for longer than some time q. If 2 * timeout + retry + q <= ttl, then (1) and (2) imply (4); and in the
runs that meet (1) to (3), all results are answers, and no lookup fails, exactly under that inequality. The
command line's defaults (5 s, 15 s, and a ttl of 60 s) meet it for q up to 35 s.

`LeaseStore.dfy` is the store as a class with the operations of `dhcp/store.go` and the handling of a
reply, proved against the same functions on values (`Leases`, `StoreSpec`) that the engine's steps use.
`Table.dfy` treats the store as a history of timed events: transactions do not interfere, and entries do
not linger.

## What is false of the code

- An offer that comes in after the retry was decided stays in the store with a closed channel, and
  `Clean` panics on it (`EngineCounterexamples.LateOffer`); `EngineBasics.SweepPanicsIff` says exactly when.
- The signal of `Clean` passes for an answer: a REQUEST that outlives ttl while its caller waits is returned
  unanswered with status 200 (`EngineCounterexamples.SweptRequestIsReturned`). On a perfect clock the same happens
  to a brand new REQUEST for every configuration with 2 * timeout + retry > ttl, such as timeout 4, pause 3 and ttl
  10: the snapshot notes the old entry, the retry stores a new one under the same xid, and that one is
  signalled (`EngineStaleSnapshots.StaleSnapshot`). `EngineTiming.ResultsAreRightIff` gives the exact condition on the
  configuration, `EngineTheorems.ResultIsAnswerIff` that on a run.
- `Clean` deletes entries that are not expired: the entry under a noted key is still alive exactly if it was stored
  anew or touched since the snapshot, at most ttl ago (`Table.RefreshBetweenSectionsIsLost`; an input is in
  `Table.NewEntryIsDeleted`).
- A route for an input interface is chosen by the position of that interface in the list and not by its kernel
  index, with which it is compared; the two agree exactly if the interface at position n carries index n
  (`Routing.PositionIsKernelIndexIff`; an input is in `Routing.InputIsMistaken`).
- A packet with the xid of a stored lease and an empty message type option panics the receiver
  (`EngineCounterexamples.UntypedReply`, `Table.StopsIff`).
- A pause does not keep packets back once its context has ended: `outmux` is released before the sleeper
  goes on (`EngineCounterexamples.WriteWhileAsleep`, `SendGate.GateOpensIff`).
- Rebinding falls on seven eighths of the lease, and not before renewal, only for lease times up to
  613566756 seconds (`LeaseTimes.TimesOfPlainLease`).
- A label key that contains "~0" or "~1" is written under another key, because "~" is not escaped as
  section 3 of RFC 6901 asks (`Pointers.EscapeRoundTrip`, `Patches.PathResolves`).
- Under section 4.3 of RFC 6902 a patch that sets a key the object does not have fails
  (`Patches.StrictPatchNeedsKeys`); the code relies on `replace` creating members.
- Once an IPv6 relay address is remembered, later addresses from the ingress list, and later IPv6 ones,
  do not replace it (`Relay.AlwaysCurrentIff`); the second branch compares with the wrong variable.
- For an offer that is not an IPv4 address the requested-address option claims four bytes and has none
  (`Packets.RequestedAddressWellFormed`).

## Model

| member | source | states |
|---|---|---|
| Messages.AnswersByCode | dhcp/lease.go:121-135 | which reply fits which message, by the codes of the standard |
| Leases.StoredTakesOneReply | dhcp/client.go:156-186 | a stored lease takes at most one reply, and ignores duplicates, late and ill-ordered ones |
| EngineBasics.StoredLeases | dhcp/client.go:156-186 | at every point of every run an entry's key is its lease's xid; without an accepted reply the lease has its sent type and an open `Done`, with one the type of that reply, a closed `Done`, and an error iff it was a NAK |
| EngineBasics.CleanNeverBlocks | dhcp/store.go:181-202 | in every run a lease is signalled at most once and the send of `Clean` never blocks |
| EngineBasics.SweepPanicsIff | dhcp/store.go:188-199 | the cleaner panics exactly when a key of its snapshot now holds a lease with an uncollected reply |
| EngineBasics.DoubleCloseIff | dhcp/client.go:435-445 | `Done` is closed twice exactly when an ACK or NAK looked up earlier is applied to an offer that was retyped meanwhile, and never for a stored lease |
| EngineSafety.InvRun | dhcp/client.go:220-353 | the invariant over store, leases, calls and keys holds throughout every orderly run, whatever sends, sweeps, replies and delays do |
| EngineTheorems.NoNilDereference | dhcp/client.go:194-242 | a disciplined run never uses a failed lookup and never reads a packet that is not there |
| EngineTheorems.NoCrash | dhcp/client.go:156-213 | a run that meets all seven conditions never panics |
| EngineHistory.AcceptedBy | dhcp/client.go:156-186 | in every run an accepted reply goes back to an earlier step that applied a fitting reply with the lease's xid |
| EngineHistory.DeliveredUnansweredIff | dhcp/store.go:181-202 | in every run a lease is handed to its caller without a reply exactly when a sweep found its key in its snapshot while the call waited, unless the receiver then held an answer that it applied before the call woke up |
| EngineSteps.NilNeedsEndedContext | dhcp/client.go:188-192 | in every run a call ends with nil only in a pause, and only if it is cancelled or its deadline is reached |
| EngineSteps.CanEndWithNilIff | dhcp/client.go:513-528 | at every point of a run that has not panicked a sleeping call can end with nil next exactly if it is cancelled or its deadline is reached |
| EngineSteps.CanTimeOutIff | dhcp/client.go:504-511 | a waiting call can give up next exactly if the timeout of its try or its context has run out |
| EngineSteps.PauseLasts | dhcp/client.go:519-528 | the lookup after a pause comes only after the whole pause, and not while the receiver holds the lease of its entry |
| EngineSteps.CanWakeIff | dhcp/client.go:190-196 | from then on it is possible, and only then |
| EngineSteps.DeliveredWasWritten | dhcp/client.go:415-425 | `wait` hands over only a lease whose packet was written before, without a send error, and that was answered or signalled |
| EngineSteps.OncePerLease | dhcp/client.go:412-429 | the goroutine of a lease stores, writes or gives up, and reports a send error, each at most once |
| EngineSteps.OpenedAt | dhcp/client.go:220-231 | start, kind and deadline of a call are those of the step that opened it, and it is cancelled exactly if a cancellation came since |
| EngineSteps.MovesAlone | dhcp/client.go:220-353 | a call changes only by its own steps |
| EngineSteps.ResultLeftStore | dhcp/client.go:264-272 | in every run a lease that a call returned is in no entry of the store from then on |
| EngineSteps.DeliveredLeavesStore | dhcp/client.go:240-244 | after `wait` has handed over a lease, offer or answer, its xid is not in the store |
| EngineSteps.EntryComesByPut | dhcp/store.go:62-78 | an entry appears or changes only when its lease is stored under its own xid, with ttl to live |
| EngineSteps.EntryGoesBy | dhcp/store.go:121-199 | an entry goes only when its call takes the answer, when the cleaner had noted it, or when its DISCOVER could not be sent |
| EngineSteps.SendErrorInStore | dhcp/client.go:415-418 | a send error removes the entry of a DISCOVER and leaves that of a REQUEST |
| EngineAnswers.AnsweredRun | dhcp/client.go:397-463 | while the cleaner spares what a call waits for, the call goes on with accepted offers only and finishes with accepted replies only |
| EnginePanics.DisciplinedIsSpared | dhcp/store.go:163-200 | if no send fails and no try outlives its entry, the cleaner signals no lease that a call waits for |
| EngineTheorems.GetLeaseResult | dhcp/client.go:220-288 | in every orderly run in which the cleaner signals no lease this call waits for, a non-nil result is an ACK without error or a NAK with one, made by this call, with the xid of this call's DISCOVER, whose OFFER was applied before the ACK or NAK was; and it is not in the store any more |
| EngineTheorems.RenewResult | dhcp/client.go:295-353 | under the same condition a non-nil result of `Renew` is an answer applied to a REQUEST of this call, and is not in the store any more |
| EngineTheorems.CallsAreSeparate | dhcp/client.go:220-353 | in every orderly run running calls occupy different xids and no two calls return the same lease |
| EngineTheorems.WakeFindsEntry | dhcp/client.go:188-213 | in every disciplined run the lookup after a pause finds the entry of the call's own try; a reply accepted meanwhile is taken and removed, otherwise the call tries again and the entry stays |
| EngineTheorems.StatusOfOutcome | service/server.go:416-434 | 200 exactly without an error, 406 exactly for a NAK, 400 for any other error, 408 exactly for nil |
| EngineTheorems.StatusOfResult | service/server.go:416-434 | under the condition of the results: 200 iff the result is an ACK, 406 iff a NAK, 408 iff nil, and no other status |
| EngineTheorems.ResultIsAnswerIff | dhcp/client.go:415-425 | in every orderly run the lease a call finishes with is an answer to it, except exactly when `wait` handed it over on a signal of `Clean` for which no answer stood in; then it is the REQUEST as sent and the status is 200 |
| EngineTiming.PromptForFree | dhcp/client.go:220-288 | on a perfect clock with 2 * timeout + retry + q <= ttl no try outlives its entry, whatever sends, replies and sweeps do |
| EngineTiming.ResultsAreRightIff | dhcp/client.go:220-353 | with fresh xids, leases stored in time, no send errors, a perfect clock and queueing of at most q: all results are answers exactly if 2 * timeout + retry + q <= ttl |
| EngineTiming.LookupsAreSafeIff | dhcp/client.go:188-213 | under the same terms no failed lookup is used exactly if that holds |
| EngineTiming.DefaultsAreRight | cmd/root.go:154-155 | with the default timeout and pause and the ttl of 60 seconds all results are answers as long as no call queues for more than 35 seconds |
| EngineCounterexamples.LateOffer | dhcp/store.go:191-199 | a run that meets all other conditions, in which an offer is left uncollected and `Clean` sends on its closed channel |
| EngineStaleSnapshots.SlowTry | dhcp/client.go:194-197 | for every configuration with 2 * timeout + retry + q > ttl: a run with every wait and pause on time whose retry is swept away, and whose lookup after the pause is dereferenced although it failed |
| EngineCounterexamples.TimeoutBeforeSet | dhcp/client.go:397-413 | a run in which the caller times out before its lease is stored, with the same end |
| EngineCounterexamples.FailedSend | dhcp/client.go:240-242 | a run in which a send error makes the caller read a packet that is not there |
| EngineCounterexamples.RetypedWhileHeld | dhcp/client.go:435-445 | a run in which an early ACK closes `Done` a second time |
| EngineCounterexamples.ZeroXid | dhcp/lease.go:61-64 | a run in which the caller keeps xid 0 while the packet gets another |
| EngineCounterexamples.UntypedReply | dhcp/lease.go:143-150 | a run in which a packet with an empty message type panics the receiver |
| EngineCounterexamples.EveryConditionIsNeeded | dhcp/client.go:156-288 | each of the seven conditions is needed: without it, and with all others, some run panics |
| EngineCounterexamples.SweptRequestIsReturned | dhcp/store.go:194-196 | a run in which the signal of `Clean` passes for an answer and an unanswered REQUEST is returned with status 200 |
| EngineStaleSnapshots.StaleSnapshot | dhcp/store.go:181-199 | for every such configuration: a run with every wait and pause on time, in which a new REQUEST is signalled for the key of the old one and returned unanswered with status 200 |
| EngineCounterexamples.StolenAnswer | dhcp/client.go:188-213 | a run in which two calls draw the same xid and one returns the answer to the other |
| EngineCounterexamples.LateStore | dhcp/client.go:435-445 | a run in which a lease stored after its caller gave up replaces that of another call, which returns it |
| EngineCounterexamples.EveryResultConditionIsNeeded | dhcp/client.go:188-353 | fresh xids, storing before the timeout and prompt tries are each needed for right results |
| EngineCounterexamples.WriteWhileAsleep | dhcp/dual.go:254-265 | a run that meets all seven conditions and writes a packet while a cancelled call is still in its pause |
| Retries.BoundedSends | dhcp/client.go:227-287 | with deadline D a `GetLease` call starts at most floor(D / (timeout + retry)) + 2 tries over both loops, a `Renew` call at most one less, and no more packets than tries are written |
| Retries.SendsAreStarts | dhcp/client.go:227-263 | the send counter of a call is the number of tries it has started |
| Retries.OnePacketPerTry | dhcp/client.go:412-424 | in every run a call writes at most one packet for each try |
| Retries.ResultIsFinal | dhcp/client.go:253-284 | in every run a finished call keeps its result |
| Retries.OneValue | dhcp/client.go:253-284 | in every run exactly one step ends a finished call, and the result it puts on the channel is the one that stays |
| SendGate.AtMostOneHolder | dhcp/dual.go:162-163 | at every point at most one writer, or one sleeper whose context is live, is inside `outmux` |
| SendGate.NoWriteDuringPause | dhcp/dual.go:254-265 | a packet of any call is written after a retry's `Block` only if that retry has meanwhile ended its pause or given up, or the gate was released because its context had ended |
| SendGate.LivePauseIsSilent | dhcp/dual.go:254-265 | from a retry's `Block` on, as long as it sleeps with a live context, no packet of any call is written |
| SendGate.GateOpensIff | dhcp/dual.go:257-262 | from any point of a run at which a call sleeps in the gate, a ready writer can get in and write at once exactly if the context of that call has ended |
| LeaseStore.LeaseObject.constructor | dhcp/lease.go:51-58 | a new lease has its sent type, no error and an open, empty channel |
| LeaseStore.Store.constructor | dhcp/store.go:52-59 | a new store is empty |
| LeaseStore.Store.Set | dhcp/store.go:62-78 | stores the lease under its xid with a fresh expiry; only nil is refused |
| LeaseStore.Store.Get | dhcp/store.go:81-95 | finds the lease of an xid, or nothing |
| LeaseStore.Store.Remove | dhcp/store.go:121-132 | removes exactly the entry of the xid and says whether there was one |
| LeaseStore.Store.Touch | dhcp/store.go:135-147 | renews the expiry of the entry and nothing else |
| LeaseStore.Store.HasStatus | dhcp/store.go:150-161 | in a sound store: true exactly if there is an entry whose exchange has come as far as that status, the type of the reply it took or else the type it was sent with |
| LeaseStore.Store.FindOutdated | dhcp/store.go:163-178 | the keys strictly past their expiry, each once |
| LeaseStore.Store.Sweep | dhcp/store.go:188-199 | signals and deletes key by key, stops at the first channel that is closed or full, and touches nothing else |
| LeaseStore.Store.Clean | dhcp/store.go:181-202 | succeeds exactly when no outdated lease is closed or signalled, and then keeps exactly the entries not strictly past expiry; in a sound store it panics iff an outdated lease took a reply |
| LeaseStore.Store.ProcessReply | dhcp/client.go:156-186 | changes only the lease under the reply's xid, as the protocol allows, and panics on an empty type; a sound store stays sound and closes no channel twice |
| Table.DifferentXidsCommute | dhcp/store.go:62-147 | store events of different xids commute: in both orders they stop the program, or leave the same table |
| Table.StoreEvents | dhcp/store.go:62-147 | at any point of a history, what `Set`, `Remove` and `Touch` do to the entry of their xid, and that they leave all others |
| Table.AnswerIsRecorded | dhcp/client.go:156-186 | the first fitting reply is recorded in the entry of its xid, with its type, its error and a closed `Done`, and any other reply changes nothing |
| Table.StopsIff | dhcp/store.go:188-199 | a history of new DISCOVERs and REQUESTs is stopped exactly by a reply without a type to a stored lease, or a sweep that finds a reply under a noted key |
| Table.Replay | dhcp/store.go:62-202 | while the program runs, the state of one xid is that of replaying its own events and the cleaner's |
| Table.RunsIffEveryTransactionRuns | dhcp/store.go:181-202 | a history stays free of panics exactly when the replay of every single transaction does |
| Table.ExpireIsRefreshPlusTtl | dhcp/store.go:68-72 | an entry expires ttl after its last `Set` or `Touch` |
| Table.EntriesDoNotLinger | dhcp/store.go:205-223 | with cleaning at most ttl/2 + delta apart no entry is found later than ttl + ttl/2 + delta after its last `Set` or `Touch` |
| Table.UninterruptedClean | dhcp/store.go:181-202 | an uninterrupted `Clean` keeps exactly the entries not strictly past expiry |
| Table.SweptWasOutdated | dhcp/store.go:163-200 | an interrupted `Clean` deletes only keys that were outdated at its snapshot |
| Table.RefreshBetweenSectionsIsLost | dhcp/store.go:182-198 | whatever runs between snapshot and deletion, a noted entry is deleted, and it was still alive exactly if it was stored anew or touched since the snapshot, at most ttl ago |
| Table.NewEntryIsDeleted | dhcp/store.go:182-198 | a history in which a new REQUEST is deleted ten ticks before its expiry |
| Packets.SetThenGet | dhcp/lease.go:153-183 | setting an option is a map update under first-match lookup |
| Packets.SetKeepsOthers | dhcp/lease.go:169-183 | other options and their order stay, and an option is added only if there was none of its kind |
| Packets.SetKeepsKindsUnique | dhcp/lease.go:169-183 | kinds that occurred at most once still do |
| Packets.StoredLength | dhcp/lease.go:173-181 | the data is stored as given, and the length byte is its length exactly below 256 bytes |
| Packets.RequestKinds | dhcp/lease.go:332-349 | how often each kind of option occurs in a request with any extra options, and that the message type comes first |
| Packets.RequestLookup | dhcp/lease.go:332-349 | a request reads as REQUEST with the client's hostname, and asks for the offered address exactly when no extra option says otherwise |
| Packets.PlainRequest | dhcp/lease.go:332-349 | without extra options: one message type first, at most one hostname, one requested address last, nothing else |
| Packets.RequestAsksForOffer | dhcp/lease.go:344-348 | whatever the extra options, the last option is 50 with the four bytes of the offered IPv4 address, plain or mapped, and without data for any other |
| Packets.CopiedAt | dhcp/lease.go:81-87 | each extra option is copied to its place with its data and a length of its own |
| Packets.RequestedAddressWellFormed | dhcp/lease.go:344-348 | the requested address has its four bytes exactly for an IPv4 offer |
| Packets.RetypedKeepsOthers | dhcp/client.go:440-443 | retyping the offer on every try changes nothing but its message type |
| PacketObjects.Packet.constructor | dhcp/lease.go:61-91 | a package has the message type first and then the given options; xid 0 is replaced |
| PacketObjects.Packet.FindOption | dhcp/lease.go:185-194 | the position of the first option of a kind, or -1 if there is none |
| PacketObjects.Packet.GetOption | dhcp/lease.go:153-166 | the first option of a kind |
| PacketObjects.Packet.SetOption | dhcp/lease.go:169-183 | overwrites the first option of a kind in place or appends one |
| PacketObjects.Packet.SetMsgType | dhcp/lease.go:138-140 | sets the message type option |
| PacketObjects.Packet.GetMsgType | dhcp/lease.go:143-150 | the message type, 0 without the option, and a panic on an empty one |
| PacketObjects.GetRequest | dhcp/lease.go:332-355 | a request with the xid, hardware address and relay address of the offer, the options above, and the offered address in the option or else in the client field |
| PacketObjects.RequestLoop | dhcp/client.go:258-276 | every try for one offer sends the same request, although each retypes the offer |
| LeaseTimes.DurationIsExact | dhcp/lease.go:203-203 | seconds to nanoseconds never overflows int64 |
| LeaseTimes.SevenEighthsExact | dhcp/lease.go:222-222 | the uint32 product gives floor(7L/8) exactly for L up to 613566756 |
| LeaseTimes.RenewalBeforeRebind | dhcp/lease.go:211-248 | renewal is not after rebinding exactly for L up to 613566756 |
| LeaseTimes.TimesOfPlainLease | dhcp/lease.go:197-248 | expiry, renewal at half the lease, and the order of all three times of a lease with only a lease time, for every length (section 4.4.5 of RFC 2131) |
| LeaseTimes.TimesWithT2 | dhcp/lease.go:197-248 | with a lease time and T2 only: expiry, renewal at half the lease, rebinding at T2 |
| LeaseTimes.TimesWithT1 | dhcp/lease.go:197-248 | with a lease time and T1 only: expiry, renewal at T1, rebinding at seven eighths exactly for L up to 613566756 |
| LeaseTimes.BigEndianIsPositional | dhcp/lease.go:203-203 | the first four bytes of an option, most significant first |
| LeaseTimes.SetT1AndT2 | dhcp/lease.go:211-248 | T1 and T2, where present, fix renewal and rebinding whatever the lease time |
| LeaseTimes.GettersPanicIff | dhcp/lease.go:197-248 | a getter panics exactly when the option it reads has fewer than four bytes |
| LeaseTimes.SetLeaseTime | dhcp/lease.go:197-208 | a lease time that was set is the one that is read |
| Ports.Connection.GetPort | dhcp/dual.go:239-251 | with rotation on the ports go 1, 2, ..., 60001, 1, ..., without it the port is always 68 |
| Ports.PortsOfWindow | dhcp/dual.go:239-251 | any 60001 consecutive calls return each of the ports 1 to 60001 exactly once |
| Ports.PortsRepeat | dhcp/dual.go:244-248 | two calls get the same port exactly when their distance is a multiple of 60001 |
| Pointers.EscapeRoundTrip | kubernetes/patch.go:95-99 | a path names its key exactly when the key contains neither "~0" nor "~1" (section 4 of RFC 6901) |
| Pointers.EscapeHasNoSlash | kubernetes/patch.go:97-97 | an escaped key is a single reference token |
| Pointers.EscapeIsInjective | kubernetes/patch.go:97-97 | keys that do not look escaped never share a path |
| Patches.PathResolves | kubernetes/patch.go:55-55 | the path of a key designates that member of that map, and only for such keys |
| Patches.Builder.SetLabel | kubernetes/patch.go:83-102 | appends the container /metadata/labels if needed and the value under that path, and marks the labels |
| Patches.Builder.SetAnnotation | kubernetes/patch.go:104-125 | the same for /metadata/annotations |
| Patches.Builder.RemoveLabel | kubernetes/patch.go:54-56 | appends the removal of the label |
| Patches.Builder.RemoveAnnotation | kubernetes/patch.go:64-66 | appends the removal of the annotation |
| Patches.Builder.Build | kubernetes/patch.go:49-66 | any sequence of calls on a new builder leaves the patch that the lemmas below speak of |
| Patches.PatchIsSequentialUpdate | kubernetes/patch.go:49-125 | for any requests, applying that patch equals the map updates one after the other, each on the key its path stands for, and changes nothing else; it fails exactly when an absent key is removed; those keys are the given ones exactly if none looks escaped |
| Patches.SetsNeverFail | kubernetes/patch.go:83-125 | a patch that only sets keys never fails |
| Patches.ContainerAddedOnce | kubernetes/patch.go:86-91 | the container of a map is added once if the map was empty and a key is set, never otherwise, and before every use |
| Patches.StrictPatchNeedsKeys | kubernetes/patch.go:95-99 | where `replace` needs an existing member the patch applies exactly when the object had every key its paths stand for |
| Routing.Collect | routing/routing_linux.go:168-189 | the routes of both families in the order of the dump, up to its end mark |
| Routing.RoutesAreMessages | routing/routing_linux.go:168-189 | a table is read from exactly the route messages of its family before the end mark |
| Routing.Sort | routing/routing_linux.go:213-214 | a permutation of the routes, sorted by priority |
| Routing.Router.constructor | routing/routing_linux.go:168-214 | the tables hold the routes of their family, sorted by priority |
| Routing.Router.InputIndex | routing/routing_linux.go:127-136 | one more than the position of the first interface with the given address, or 0 |
| Routing.Router.Select | routing/routing_linux.go:137-150 | the first fitting route of the sorted table has the smallest priority of all fitting ones; none is returned iff none fits, also where fitting is read off the bits of the addresses |
| Routing.Router.RouteWithSrc | routing/routing_linux.go:94-124 | a best route of the family of the destination for the one-based list position of the interface with the input address, by the bits of source and destination, with its own source address or the one of that family of its interface |
| Routing.MatchesIffFits | routing/routing_linux.go:137-146 | for nets that are prefixes, a route is chosen exactly if its interface agrees, the source shares the bits of its source net and the destination those of its destination net |
| Routing.DestinationRoute | routing/routing_linux.go:144-146 | a route with only a destination net is chosen by the first bits of the destination, whatever the source |
| Routing.SourceRoute | routing/routing_linux.go:141-143 | a route with only a source net is chosen by the first bits of the source, whatever the destination |
| Routing.DefaultRoute | routing/routing_linux.go:144-146 | a prefix of length 0 contains exactly the IPv4 destinations, plain and mapped |
| Routing.HostRoute | routing/routing_linux.go:144-146 | a prefix of length 32 contains exactly its address, plain and mapped |
| Routing.LongMask | routing/routing_linux.go:144-146 | a 16-byte mask on an IPv4 net counts by its last four bytes |
| Routing.PositionIsKernelIndexIff | routing/routing_linux.go:129-139 | choosing by that position is choosing by the kernel's index of that interface exactly if the two are equal |
| Routing.InputIsMistaken | routing/routing_linux.go:129-139 | two interfaces for which a route of the input interface is skipped and one of another is taken |
| Routing.SortOrderIsIrrelevant | routing/routing_linux.go:213-214 | whatever permutation the sort produces, the route found is a best one of the table as read |
| Relay.Resolver.GetRelayIP | dhcp/resolver.go:140-195 | succeeds with the load balancer's address, or else with the one usable address of the ingress list; fails unless exactly one is usable and parses, and then returns `last` |
| Relay.AddressIsTheOnlyOne | dhcp/resolver.go:158-195 | what is found is the load balancer's address or one that an ingress entry names, and without the former the number of usable addresses decides |
| Relay.Resolver.Resolve | dhcp/resolver.go:140-195 | the answers to any sequence of lookups |
| Relay.AlwaysCurrentIff | dhcp/resolver.go:149-188 | `last` is always the most recent success exactly when no success is stuck behind an IPv6 address |
| Relay.IPv4IsAlwaysCurrent | dhcp/resolver.go:149-188 | for IPv4 addresses `last` is always the most recent success |

## Left out

- EngineTheorems.GetLeaseResult: assumes the first two conditions and that the cleaner spares the waiting call, each of which is shown to be needed; deadlock freedom and progress are not claimed, because the locks of store and lease are taken in both orders.
- EngineTheorems.NoCrash: assumes all seven conditions, each of which is shown to be needed.
- Retries.BoundedSends: assumes an idealised clock, on which a pause that ends together with the caller's context does not start another try; the code chooses either way.
- Table.EntriesDoNotLinger: speaks of histories in which no panic occurred.
- Routing.MatchesIffFits: assumes nets of IPv4 or proper IPv6 addresses with prefix masks, as a netlink dump gives them; mapped addresses with 16-byte masks are left to `Routing.LongMask`.
- PacketObjects.RequestLoop: the packets of the loop only; when it ends is the business of the engine.
- Routing.Sort: an insertion sort stands for the library's sort; any permutation serves (`Routing.SortOrderIsIrrelevant`).
- `GetLease` and `Renew` are goroutines and appear as phases of a call in the step system, not as methods with loops; in the engine a lookup that finds the lease locked is a step that is not yet enabled.
- `Renew` defers the unlock of the lease it looks up after a pause, inside its loop, so the lease of an abandoned try stays locked until the call returns, and a late reply to it blocks the receiver, and with it the store, till then; the engine releases it at once.
- In the engine a call takes its answer and removes the entry in one step, and retyping the offer and making the request are one step.
- `Table` applies a reply in one event; the gap between lookup and use is in the engine.
- `Release`, which uses neither store nor retries.
- Sockets, packet encoding and the goroutines of `Receive` and `Send`: packets arrive and fail arbitrarily.
- The resolver's calls to the API server, parsing and DNS, and the netlink dump: their results are parameters.
- `getHardwareAddr`, the cached local address, the choice of connection, the HTTP routes and the command line: only shallow claims.
- The life cycle of background processes: nothing beyond the order of three events.
- `Patch.Set`, `Patch.Remove` and `Add` with arbitrary paths, and the text of a patch as JSON.
