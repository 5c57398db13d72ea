# A verified model of the Go IM SDK's concurrent core

This project models, in Dafny, the parts of the long-connection IM client SDK in which state is
shared: the per-connection queue pull scheduler over its byte budgets, the client lifecycle
protocol with its callback delivery, the shared DNS resolver and the endpoint walk, the charge
for received batches, and the rewriter of MSync envelopes. It proves what these parts promise
over every input and every interleaving.

`dafny verify dfyconfig.toml` checks everything.

## How it is built

Each section that the source runs under a mutex is a function on the guarded state, and a method
of a class with the source's fields is proved to compute that function (`ConnectionRun`,
`DnsResolver`, `Client`, `ByteBudget`, `BatchReservation`, `DeferredRing`, `EndpointRound`,
`Walker`). A concurrent part is then a step system whose steps are these sections, taken by any
number of callers in any order; its main theorems quantify over every finite sequence of steps
from the initial state. Loops over bytes (`ReadVarintAt`, `ScanEnvelopeLoop`, `UpsertLoop`,
`DecompressEnvelopePayload`, ...) are methods proved against recursive definitions about which
the round trips and the locality are proved.

| files | what they model |
|---|---|
| `Common`, `MapSums` | shared definitions, sums over finite maps |
| `ByteBudget` | the weighted semaphore, and `Acquire` with any number of waiters |
| `DeferredRing`, `QueueScheduler`, `QueueRun` | the deferred ring, the scheduler's sections, the scheduler as an object |
| `QueueSystem`, `QueueProperties`, `QueueNotices`, `QueuePending`, `QueueRequests`, `QueueBudgets` | one run under any interleaving, its guarantees, when a NOTICE is pending and when it can be lost, what its pulls ask for, and any number of runs sharing the process budget |
| `BatchReservations`, `BatchLedger`, `RetainedWeight`, `WeightFields`, `BatchIntake` | reservations for received batches, the charge for one batch and what it counts, and a batch from reader to worker |
| `Lifecycle`, `Client`, `LifecycleSystem`, `LifecycleProperties`, `LifecycleProgress`, `Callbacks` | Login, reconnect, Logout, Close, monitor, finalizer, terminal slot and dispatcher |
| `DnsCache`, `DnsProperties`, `DnsGuarantees` | the shared resolver, its invariant and its guarantees |
| `EndpointRound`, `EndpointWalk`, `EndpointDials` | the circular round and the endpoints that login and reconnect dial |
| `Wire`, `WireExact`, `Envelope`, `EnvelopeRewrite`, `ProvisionAction`, `VersionAcceptance` | protobuf wire format, envelope scan, decompression, provision version |

## What is assumed of the surroundings

- Clock readings, network results, error codes and cancellation are inputs of steps, chosen freely.
- A batch may arrive unsolicited. Only the two theorems about the request channel
  (`SolicitedBatchesAlwaysSchedule`, `SolicitedNoticesAlwaysSchedule`) assume that a batch answers
  a pull in flight. `NoNoticeLost` assumes less, that batches are harmless, and
  `BatchLosesNoticeExactlyWhen` shows that it cannot assume less than that.
- `doomed` marks the moment between a section that ends in an error and the `fail` call that
  reports it; a run is live while it is neither doomed nor failed.
- A generation that a caller passes to the resolver as known was issued by that resolver.
- zlib (RFC 1950) is an arbitrary function from bytes to a stream.
- A resolved endpoint list, the effective endpoint and a redirect target are not empty; strings in the weight formula count by length, and
  structure sizes are those of a 64-bit platform.
- Generations, epochs, notice clocks and session numbers do not wrap around.

Where the repository's own README.md contradicts itself on DNS (line 10 rules out any use of
cached results, line 76 allows stale ones for thirty minutes), the model follows the code, which
serves stale results after a transient failure.

## Model

| member | source | states |
|---|---|---|
| `ByteBudgets.ByteBudget.ValidateAcquire` | sdk/byte_budget.go:152-176 | a request is valid exactly when usage is within the limit and the request is positive and at most the limit |
| `ByteBudgets.ByteBudget.TryAcquire` | sdk/byte_budget.go:138-150 | granted, full or an ownership error, each exactly when; usage changes only when granted, and the 64-bit arithmetic cannot wrap |
| `ByteBudgets.ByteBudget.Release` | sdk/byte_budget.go:96-118 | accepted exactly when the amount is in use; a refused release changes nothing and an accepted one closes the wait channel |
| `ByteBudgets.SemStepKeepsInv` | sdk/byte_budget.go:50-118 | every step of any caller keeps: usage equals what is held, and a waiter parked on the open channel does not fit |
| `ByteBudgets.SemaphoreSafety` | sdk/byte_budget.go:50-118 | over every run: usage is the sum of holdings within the limit, releases of holdings are accepted, a parked waiter that fits wakes and is granted, nobody is parked for good once nothing is held |
| `DeferredRings.DeferredRing.Push` | sdk/queue.go:71-79 | appends to the FIFO the circular buffer stands for; fails exactly when full, changing nothing |
| `DeferredRings.DeferredRing.Pop` | sdk/queue.go:81-90 | removes the oldest entry of that FIFO, or reports empty |
| `QueueScheduler.QueueWeightCoversIdentity` | sdk/queue.go:106-111 | the charge is the identity's bytes and a fixed 1 KiB in whole KiB, and never an ownership error in either queue budget |
| `QueueScheduler.RingHasRoom` | sdk/queue.go:12-18 | since every weight is at least 1 KiB, the ring always has a slot for a queue not in it, so `Push` never fails |
| `QueueScheduler.NoticeKeepsInv` | sdk/queue.go:207-293 | a NOTICE keeps flags, ring, counter, cap and budget exact, and what it takes from the process budget fits there |
| `QueueScheduler.FirstNoticeKeepsInv` | sdk/queue.go:264-293 | a first NOTICE that cannot be scheduled is rolled back to exactly the state before it |
| `QueueScheduler.FailedNoticeLeavesNoTraceExactlyWhen` | sdk/queue.go:207-293 | a NOTICE that fails the run leaves no trace, except exactly when it is a repeated one for an idle queue that finds the request channel full |
| `QueueScheduler.FinishKeepsInv` | sdk/queue.go:553-587 | finishing a batch, with promotion of the oldest deferred queue, keeps the whole scheduler invariant |
| `QueueScheduler.FinalizedIsEmpty` | sdk/queue.go:589-610 | finalization forgets everything and leaves the connection budget at zero |
| `QueueScheduler.RequestIsNeverDiscarded` | sdk/queue.go:325-358 | in a sound state a requested pull of a run that is not cancelled begins and is then in flight or, when it could not be sent, over; a token without a request changes nothing |
| `QueueRun.ConnectionRun.ReserveQueueLocked` | sdk/queue.go:147-162 | takes a weight from both budgets or from neither |
| `QueueRun.ConnectionRun.EnqueuePullLocked` | sdk/queue.go:164-176 | at most one pull is ever requested: a token is added exactly when the queue is active with no stage under way, and the error is reported exactly when the channel is full |
| `QueueRun.ConnectionRun.ActivateOrDeferLocked` | sdk/queue.go:178-189 | a queue becomes active exactly while fewer than 256 are, and otherwise goes to the end of the ring |
| `QueueRun.ConnectionRun.PromoteDeferredLocked` | sdk/queue.go:191-205 | the loop over the ring promotes its oldest deferred entry and nobody else |
| `QueueRun.ConnectionRun.StartQueueLocked` | sdk/queue.go:207-293 | a NOTICE on the ring, map, counter and both budgets has exactly the effect for which no-trace rollback and conservation are proved |
| `QueueRun.ConnectionRun.ExecutePull` | sdk/queue.go:325-369 | the worker's whole turn keeps the scheduler invariant and fails the run exactly when a pull began and could not be sent |
| `QueueRun.ConnectionRun.FinishBatchLocked` | sdk/queue.go:553-587 | a finished batch continues, serves and clears a pending NOTICE, or idles the queue and hands its place to the oldest deferred one, on ring, map and counter; the effect is fixed by the theorems on cursor, pending flag, idling and order |
| `QueueRun.ConnectionRun.CountTracked` | sdk/queue.go:592-595 | the loop adds up exactly the tracked weights |
| `QueueRun.ConnectionRun.FinalizeQueues` | sdk/queue.go:589-610 | returns exactly the run's share to both budgets, and neither release is refused |
| `QueueSystem.StepKeepsInv` | sdk/queue.go:164-587 | every step of reader, pull workers and batch workers keeps the scheduler and stage invariants |
| `QueueProperties.NoActiveQueueStranded` | sdk/queue.go:325-369 | over every run: at most one pull stage per queue and none unless active; while live exactly one; a requested pull has its token and its worker begins it |
| `QueueProperties.RingAndCounterAreExact` | sdk/queue.go:178-205 | over every run: the ring holds each deferred queue once, the counter is the number of active queues (at most 256), nobody waits while a place is free, usage is the sum of weights |
| `QueueProperties.DeferredOrderIsKept` | sdk/queue.go:191-205 | over every run: queues become active strictly in the order deferred, and nobody overtakes |
| `QueueProperties.SolicitedBatchesAlwaysSchedule` | sdk/queue.go:566-586 | with solicited batches the 256-slot channel never overflows when a batch finishes |
| `QueueProperties.SolicitedNoticesAlwaysSchedule` | sdk/queue.go:207-293 | with solicited batches a NOTICE fails the run exactly when its identity is oversized or what it adds exceeds what is left of the connection's or the process's budget |
| `QueueProperties.OrdinaryNoticeIsTaken` | sdk/queue.go:92-111 | an identity within 4096 bytes per part and 16384 in all, with room in both budgets and the channel, never fails the run and its queue is then active or deferred |
| `QueueNotices.NoNoticeLost` | sdk/queue.go:559-581 | over every run whose accepted batches are harmless, that is, find a NOTICE pending or come after a pull that began since the latest one: a queue of a live run is idle only if a pull of it began after its latest NOTICE |
| `QueueNotices.TimelyBatchesAreHarmless` | sdk/queue.go:420-430 | two flags at arrival are enough: a run whose accepted batches find a pull in flight or a NOTICE pending is harmless |
| `QueueNotices.SolicitedIsTimely` | sdk/queue.go:420-430 | a server that answers only pulls in flight is a special case |
| `QueueNotices.BatchLosesNoticeExactlyWhen` | sdk/queue.go:420-430 | the converse, in any run and with any steps between arrival and completion: a batch leaves its queue idle without a pull since its latest NOTICE if and only if it ends the queue, was not harmless when it came, and no NOTICE came while it was processed |
| `QueueNotices.UnsolicitedBatchLosesNotice` | sdk/queue.go:420-430 | such a batch exists for every valid identity: a concrete run, which also leaves a stale token |
| `QueuePending.PendingExactlyWhenOutstanding` | sdk/queue.go:567-581 | over every live run, on its steps: a NOTICE is pending exactly when one came while the queue was active, after its activation and after its last completed batch |
| `QueuePending.SecondLastBatchIdles` | sdk/queue.go:566-581 | in any run, once a batch was completed and no further NOTICE comes, the next completed last batch leaves the queue idle, whatever happens in between: no queue pulls for ever |
| `QueueProperties.CursorNeverReset` | sdk/queue.go:560-565 | a non-zero cursor never returns to zero while the queue is tracked |
| `QueueRequests.PullsAskForTheLatest` | sdk/queue.go:332-340 | over every live run: exactly the notified queues are tracked, a pull asks at the address of the latest NOTICE from the last non-zero cursor, and the charge is that of the heaviest NOTICE |
| `QueueBudgets.QueueBudgetIsConserved` | sdk/queue.go:147-162 | over any number of runs sharing the process budget: process usage is the runs' shares plus returns in transit, each share the sum of its queue weights, no release is refused, and everything comes back |
| `BatchReservations.TryReserveBatchScoped` | sdk/resource_budgets.go:54-67 | charges both budgets or neither; which budget refused, and an ownership error exactly for an inadmissible weight |
| `BatchReservations.BatchReservation.Release` | sdk/resource_budgets.go:76-91 | only the first call gives anything back, and it gives back both charges |
| `BatchReservations.BatchChargesAreConserved` | sdk/queue.go:457-490 | over every interleaving of producers, channel, workers and drain: both budgets hold exactly the outstanding reservations, and every release still due will be accepted |
| `BatchLedger.ReleasedExactlyOnce` | sdk/resource_budgets.go:54-91 | counted on the budgets themselves, over every interleaving: each reservation is charged once, and once it has left on whatever path it was given back exactly once to each budget that was charged |
| `BatchLedger.DrainedStaysDrained` | sdk/connection.go:1087-1100 | once nobody produces and the channel is empty it stays empty, and usage is what the workers still hold |
| `BatchIntake.HandleBatch` | sdk/queue.go:407-490 | the reader's whole path: a batch is ignored, rejected or accepted exactly when; an accepted one is processing with its weight charged to both budgets, a rejected one leaves its queue in no stage and both budgets as they were |
| `BatchIntake.Admit` | sdk/queue.go:438-489 | a batch is charged exactly when its weight is within 8 MiB, fits both budgets and its job gets into the channel |
| `BatchIntake.ProcessBatchJob` | sdk/queue.go:510-587 | the worker's whole path: dropped, panicked, cut short or finished, the reservation is released once and both budgets get back exactly its weight; the queue moves on only when finished |
| `Common.CheckedAdd` | internal/protocol/model.go:309-314 | the exact sum, or failure exactly on 64-bit overflow |
| `RetainedWeight.CheckedMul` | internal/protocol/model.go:316-321 | the exact product, or failure exactly on 64-bit overflow |
| `RetainedWeight.CheckedRoundUp` | internal/protocol/model.go:323-332 | the exact multiple above, or failure exactly on 64-bit overflow |
| `RetainedWeight.Estimator.Allocation` | internal/protocol/model.go:266-283 | adds one allocation's cost, or fails exactly when the running total would not fit |
| `RetainedWeight.Estimator.MessageMeta` | internal/protocol/model.go:215-249 | adds exactly the formula's cost of a message entry |
| `RetainedWeight.SyncRetainedWeight` | internal/protocol/model.go:178-260 | the unbounded-integer formula, or the limit error exactly when that exceeds 8 MiB |
| `RetainedWeight.WeightIsAdmissible` | internal/protocol/model.go:166-260 | a positive multiple of 4096, at least twice all counted bytes, and never an ownership error in either batch budget |
| `WeightFields.MetaLengthsAreCharged` | internal/protocol/model.go:213-249 | changing payload, attributes, environment or a list capacity of a message entry moves the batch's total by exactly the difference of the charges |
| `WeightFields.MetaIdentitiesAreCharged` | internal/protocol/model.go:221-226 | likewise for each of the eight parts of the two identities of a message entry |
| `WeightFields.MetaListsAreCharged` | internal/protocol/model.go:230-245 | likewise for each key, each value and each directed user of a message entry |
| `WeightFields.StatusIsCharged` | internal/protocol/model.go:186-201 | likewise for the status: its reason, the capacity of its redirects and each host |
| `WeightFields.QueueIsCharged` | internal/protocol/model.go:202-209 | likewise for each part of the queue's identity |
| `WeightFields.MetasCapacityIsCharged` | internal/protocol/model.go:210-212 | likewise for the capacity of the list of message entries |
| `WeightFields.BlankBatchCosts` | internal/protocol/model.go:178-212 | with all lengths and capacities zero the total is that of the structures present, which with the rows above fixes the total of every batch |
| `WeightFields.ChargeIsExact` | internal/protocol/model.go:266-283 | an allocation is charged its size in whole blocks of 128 bytes and 16 bytes more, nothing for size 0 |
| `WeightFields.WeightFollowsTotal` | internal/protocol/model.go:251-259 | the weight is twice the total, in whole pages |
| `Clients.Client.BeginConnect` | sdk/connection.go:80-104 | a new, open ownership channel is granted exactly when the client is open and every channel ever handed out is closed |
| `Clients.Client.EndConnect` | sdk/connection.go:106-115 | the panic is met exactly with a channel that is closed already; the owner's channel is closed, which releases every waiter, and all channels are closed afterwards |
| `Clients.Client.StartSession` | sdk/client.go:415-424 | a new session's scope is the only one ever handed out that is not cancelled |
| `Clients.Client.CancelSession` | sdk/client.go:428-434 | afterwards every scope ever handed out is cancelled |
| `Clients.Client.ScopesMatchGenerations` | sdk/client.go:436-438 | a kept scope is uncancelled exactly when its session number is current, so a reconnect's two checks agree |
| `Clients.Client.Login` | sdk/connection.go:120-201 | the whole call: it succeeds exactly when the client was open, free, logged out and owed no terminal callback, the network answered and Close did not race it; ownership is given back and no half-logged-in state is left on any path |
| `Clients.Client.TryReconnect` | sdk/connection.go:831-940 | the whole attempt, with Close or a Logout racing its dial: it installs a run exactly when its session was and stayed current, a run found for a cancelled scope never gets in, and ownership is given back on every path |
| `Clients.Client.Logout` | sdk/connection.go:1144-1227 | the whole call within one turn: an owner ends the session and every scope, a waiter behind a reconnect leaves the client logged out although the reconnect still owns it, a waiter behind an initial login leaves that alone |
| `Clients.Client.ClaimTerminal` | sdk/client.go:530-551 | claims the slot and, only then, drops every queued best-effort callback |
| `Clients.Client.EmitAt` | sdk/client.go:560-602 | queues a callback exactly when the client is open, no bundle is pending, the epoch is current and there is room |
| `LifecycleSystem.StepKeepsInv` | sdk/connection.go:80-1261 | every step of every call keeps ownership, state coupling, attendance, accounting of runs and the finalizer's order |
| `LifecycleProperties.OwnershipIsExclusive` | sdk/connection.go:80-115 | in every reachable state exactly the recorded owner is between taking and giving back ownership, and `endConnect` never panics |
| `LifecycleProperties.LoggedInRunIsNewest` | sdk/queue.go:532-536 | in every reachable LoggedIn state the worker's generation guard passes the installed run and no other |
| `LifecycleProperties.StatesStayCoupled` | sdk/connection.go:132-199 | login and connection state correspond, a run is installed exactly in LoggedIn and Reconnecting, and the applied provision data is that run's |
| `LifecycleProperties.NoStateIsAbandoned` | sdk/connection.go:1144-1184 | in every reachable state a call in progress takes it onwards; a cancelled reconnect has a Logout that owns the lifecycle or holds exactly its generation |
| `LifecycleProperties.CanceledReconnectIsFreed` | sdk/connection.go:1102-1137 | from every such state that one Logout, by at most two of its own steps and none of anyone else, brings the client to Logout |
| `LifecycleProperties.DetachIsPrecise` | sdk/connection.go:1106-1137 | a detach acts only on the newest session, after its cancellation and with its run's pumps gone; otherwise it changes nothing |
| `LifecycleProperties.InstallsAreCurrent` | sdk/connection.go:912-923 | a run is installed only by the owner, with the newest generation, into a live session |
| `LifecycleProperties.EndedSessionsStayEnded` | sdk/connection.go:175-194 | once a session has ended it is never current again and every later installation belongs to a later session |
| `LifecycleProperties.CloseIsAbsorbing` | sdk/connection.go:1031-1056 | after Close: Logout for good, no run, no provision data, no new owner, no new bundle |
| `LifecycleProperties.CodecClosesLast` | sdk/connection.go:1065-1085 | the codec is destroyed only when no lifecycle call is owner and no run's pumps are at work, and that stays so (batch workers and `Send` aside) |
| `LifecycleProgress.LoginRunsThrough` | sdk/connection.go:120-201 | from every reachable state that admits it, a login whose dial succeeds gets through by its own steps alone: new run, new session, its monitor, ownership given back |
| `LifecycleProgress.ReconnectRunsThrough` | sdk/connection.go:802-944 | from every reachable state, a reconnect whose session is current and that nobody holds up installs its run into the same session by its own steps alone |
| `LifecycleProgress.LogoutRunsThrough` | sdk/connection.go:1193-1227 | from every reachable state without owner, a Logout ends whatever session there is and takes its run along to shut it down |
| `LifecycleProgress.MonitorDecides` | sdk/connection.go:735-752 | a terminal error of the installed run ends the session and publishes its bundle, any other one of a live session starts to reconnect; a replaced run is left alone |
| `LifecycleProgress.FinalizerWaitsOnlyForOwner` | sdk/connection.go:1065-1085 | after Close the codec is destroyed in two steps when there is no owner, and otherwise waits for exactly that owner |
| `Callbacks.BeatKeepsInv` | sdk/client.go:476-633 | every step of publishers, emitters and dispatcher keeps the delivery invariant |
| `Callbacks.TerminalDeliveryIsExact` | sdk/client.go:476-551 | over every run: bundles published are those invoked, in order and once each, then the one in hand, then the slot; after the dispatcher's exit nothing is left |
| `Callbacks.NoBundleAfterExit` | sdk/client.go:605-633 | nothing is published or invoked after the dispatcher has exited |
| `Callbacks.TerminalFindsSlotFree` | sdk/connection.go:982-1014 | a pending bundle implies Logout without a run, so a terminal transition finds the slot free and publishes its bundle when anyone listens |
| `Callbacks.RecordsExactlyWhenConcerned` | sdk/connection.go:982-1014 | a terminal error ends the session exactly when its run is still installed and, for a reconnect, its session still current; otherwise nothing changes |
| `Callbacks.NoBundleSleptThrough` | sdk/client.go:496-501 | while a bundle is pending a waiting dispatcher has a wake-up sent or about to be sent |
| `Callbacks.NothingStaleAfterBundle` | sdk/client.go:560-602 | no best-effort callback of an older epoch is invoked after a bundle |
| `Callbacks.QueuedCallbackIsInvoked` | sdk/client.go:574-583 | the oldest queued callback is invoked if its epoch is still current when checked, and dropped otherwise |
| `DnsCache.RefreshCooldown` | sdk/dns.go:568-580 | the loop computes min(5 s doubled per further failure, 120 s) |
| `DnsCache.DnsResolver.FindVictim` | sdk/dns.go:520-527 | the scan from the back finds the least recent entry without a load |
| `DnsCache.DnsResolver.InsertLocked` | sdk/dns.go:518-539 | the evicting loop terminates and computes the insertion |
| `DnsCache.DnsResolver.ResolveLocked` | sdk/dns.go:398-440 | the section with its evicting loop computes the lookup, whose answer is fixed by what happened to its key in `DnsGuarantees.LookupIsExact` |
| `DnsCache.DnsResolver.SettleLocked` | sdk/dns.go:481-516 | the end of a load refreshes its entry under a new generation, or counts a failure and starts its cooldown; a superseded load changes nothing |
| `DnsProperties.VictimIsLeastRecent` | sdk/dns.go:520-531 | everything less recent than the victim is busy; no victim only when everything is |
| `DnsProperties.OverflowExactlyWhenAllBusy` | sdk/dns.go:428-434 | a lookup goes past the cache exactly when the cache is full of running loads |
| `DnsProperties.HitIsJustified` | sdk/dns.go:401-427 | a direct answer is the last successful load: fresh and newer than known, or stale within its limit after a transient failure of the latest load |
| `DnsProperties.RefusalIsJustified` | sdk/dns.go:415-427 | a refusal reports the latest load's error during its cooldown, and only when no stale value may be served |
| `DnsProperties.LandingIsJustified` | sdk/dns.go:489-516 | how every load ends for its waiters, including exactly when a stale value is served |
| `DnsProperties.DnsStepKeepsInv` | sdk/dns.go:390-516 | every step of lookups, loads and waiters keeps the resolver's invariant |
| `DnsProperties.CacheStaysSound` | sdk/dns.go:476-545 | over every run: list and map name the same keys within capacity, one running load per key, no landing is ever superseded, at most eight loads outside |
| `DnsGuarantees.EvictsLeastRecentlyUsed` | sdk/dns.go:518-545 | over every run: a full cache evicts exactly one entry, the idle one whose last lookup is longest ago |
| `DnsGuarantees.ResultsRefineLastSuccess` | sdk/dns.go:398-516 | over every run: a cached value is the last successful load of an entry of its key (loads past the full cache are never cached), the failure count is exactly the failures since the entry was made or last loaded, its cooldown starts at the last of them, and every non-stale answer is newer than what its caller knew |
| `DnsGuarantees.AnswersComeFromOwnKey` | sdk/dns.go:385-474 | over every run: whichever way a caller is answered, the endpoints are those of a successful load of its own key |
| `DnsGuarantees.LookupIsExact` | sdk/dns.go:398-440 | over every run, on its log: a fresh value newer than known is served, else the running load is joined, else during a cooldown the stale value or the failure is given, else a load starts; a new key goes past the cache exactly when it is full of running loads |
| `DnsGuarantees.LoadedValueIsServed` | sdk/dns.go:449-502 | every waiter of a successful load, cached or not, gets what it brought under a new generation, and lookups within the fresh limit then hit it |
| `DnsGuarantees.FailedLoadAnswers` | sdk/dns.go:503-513 | every waiter of a failed load gets the held value marked stale exactly when the failure is transient and that value within its limit, and nothing otherwise |
| `DnsGuarantees.OverflowGetsSlot` | sdk/dns.go:449-456 | a caller sent past the full cache gets a slot exactly while fewer than eight are taken, and waits for a load of its own key |
| `EndpointRounds.NewRound` | sdk/endpoint_pool.go:20-30 | any start, negative or too large, begins at the start modulo the number of candidates |
| `EndpointRounds.EndpointRound.NextEndpoint` | sdk/endpoint_pool.go:32-41 | hands out the head of the round's order and keeps its tail; empty placeholder when exhausted |
| `EndpointRounds.RoundVisitsEachOnce` | sdk/endpoint_pool.go:10-41 | a round hands out every index exactly once, in circular order |
| `EndpointRounds.UsedEndpointComesLast` | sdk/connection.go:241-246 | the endpoint just used is the last one the next round tries |
| `EndpointWalk.ConnectLoginCandidates` | sdk/connection.go:205-232 | a login reports the first candidate that answers, the first error that is not the endpoint's own, or the last error when candidates or time run out |
| `EndpointWalk.JustifiedIsUnique` | sdk/connection.go:205-232 | the dials justify one outcome only, so the report is determined |
| `EndpointWalk.Walker.Try` | sdk/connection.go:848-911 | one attempt keeps the walk and dials at most one endpoint, never the placeholder; which one, and what follows, is fixed by `EndpointDials` |
| `EndpointWalk.WalkEndpoints` | sdk/connection.go:802-944 | the loop of attempts makes exactly the dials of the walk, none of them the placeholder |
| `EndpointWalk.WalkIsSound` | sdk/connection.go:782-911 | over any attempts: the placeholder is never dialed, and DNS is asked again only after every candidate of the round was dialed exactly once, in circular order |
| `EndpointDials.LostEndpointTriesEveryHost` | sdk/connection.go:794-909 | after an endpoint's own error, while such errors go on, dial n is host (cursor + n) modulo their number, for all hosts, and then DNS is asked |
| `EndpointDials.FirstDial` | sdk/connection.go:782-798 | the first dial is the target of a redirect, the host at the cursor after an endpoint's own error, and the effective endpoint after any other loss |
| `EndpointDials.NextDial` | sdk/connection.go:848-911 | after any attempts: an endpoint's own error is followed by the next untried host of the round or the first host of a new DNS answer, another error by the effective endpoint, success or a terminal error by nothing |
| `EndpointDials.RefreshDials` | sdk/connection.go:848-884 | an attempt that asks DNS dials the first host of the answer, and without one dials nothing and asks again unless the error is terminal |
| `EndpointDials.NothingAfterTheEnd` | sdk/connection.go:886-940 | after success or a terminal error no attempt dials anything |
| `Wire.Uint64RoundTrip` | internal/protocol/nativecodec/envelope.go:280-307 | reading undoes writing for every 64-bit value, whatever follows |
| `Wire.ReadFits` | internal/protocol/nativecodec/envelope.go:280-297 | whatever is accepted fits the groups it came from, so the shifted 64-bit accumulation cannot overflow |
| `WireExact.VarintIsExact` | internal/protocol/nativecodec/envelope.go:280-297 | exactly which bytes are a varint, longer encodings than necessary included, and its value by base-128 digits |
| `WireExact.FixedFieldIsStable` | internal/protocol/nativecodec/envelope.go:173-200 | fields of fixed width read back |
| `WireExact.BodyIsExact` | internal/protocol/nativecodec/provision_action.go:95-122 | exactly when there are bytes enough for a field of each type, and which bytes a length-delimited one holds |
| `WireExact.OtherWireTypesAreRefused` | internal/protocol/nativecodec/provision_action.go:95-122 | no other wire type is read |
| `Wire.ReadVarintAt` | internal/protocol/nativecodec/envelope.go:280-297 | the shifting loop computes the recursive decoding, with truncation and overflow as errors |
| `Wire.AppendVarint` | internal/protocol/nativecodec/envelope.go:303-307 | the appending loop writes the base-128 encoding |
| `Wire.ReadFieldIsLocal` | internal/protocol/nativecodec/provision_action.go:95-122 | a field reads the same whatever follows it |
| `Wire.ReadFieldsIsExact` | internal/protocol/nativecodec/envelope.go:147-227 | a readable message is the concatenation of its fields' own bytes |
| `Wire.ConcatReadsBack` | internal/protocol/nativecodec/envelope.go:147-227 | concatenated fields read back as exactly those fields |
| `Envelope.ScanEnvelopeLoop` | internal/protocol/nativecodec/envelope.go:147-227 | the scanning loop computes the recursive scan, check by check |
| `Envelope.ScanIsExact` | internal/protocol/nativecodec/envelope.go:147-227 | the scan accepts exactly the frames whose fields are readable and form an envelope, and describes the two fields it looks for |
| `EnvelopeRewrite.RebuiltSizeIsExact` | internal/protocol/nativecodec/envelope.go:229-255 | the precomputed size is the rebuilt frame's length, or the limit error exactly beyond 16 MiB |
| `EnvelopeRewrite.Rebuild` | internal/protocol/nativecodec/envelope.go:62-84 | the five spliced pieces are the field list with marker and payload replaced, in either order of the two |
| `EnvelopeRewrite.DecompressEnvelopePayload` | internal/protocol/nativecodec/envelope.go:25-85 | the whole rewrite equals its definition on fields, with every error |
| `EnvelopeRewrite.DecompressionPreservesMeaning` | internal/protocol/nativecodec/envelope.go:25-85 | the output rescans, has marker 0 and the inflated payload, keeps every other field's bytes and order, fits a frame, and is a fixed point; uncompressed frames are unchanged |
| `EnvelopeRewrite.DecompressionAcceptsExactly` | internal/protocol/nativecodec/envelope.go:25-85 | exactly which frames are accepted |
| `EnvelopeRewrite.AdmissionForetellsRewrite` | internal/protocol/nativecodec/envelope.go:87-118 | the admission class, taken before decoding, tells what the rewrite will do |
| `EnvelopeRewrite.AdmissionIsExact` | internal/protocol/nativecodec/envelope.go:87-118 | exactly which frame gets which class, by marker, payload and size |
| `ProvisionAction.UpsertLoop` | internal/protocol/nativecodec/provision_action.go:47-87 | the loop over offsets computes the recursive upsert, with every error; what that does with every message is `VersionAcceptance.UpsertDecides` |
| `ProvisionAction.UpsertIsLocal` | internal/protocol/nativecodec/provision_action.go:47-87 | only the first version field changes, or one is added at the end |
| `ProvisionAction.UpsertSetsOnce` | internal/protocol/nativecodec/provision_action.go:47-87 | the first version field then holds the version and a second upsert does nothing |
| `ProvisionAction.WithProvisionActionVersion` | internal/protocol/nativecodec/provision_action.go:15-41 | the splice of the payload equals its definition on fields, with the size limit |
| `ProvisionAction.VersionIsSetOnceAndLocally` | internal/protocol/nativecodec/provision_action.go:15-41 | on success the version is set, every other byte of payload and envelope keeps content and order, and a second application returns its input |
| `VersionAcceptance.UpsertDecides` | internal/protocol/nativecodec/provision_action.go:47-87 | every message: appended when it has no version, else the first one kept, replaced or refused for its type, and what cannot be read before it refused |
| `VersionAcceptance.MessageSplits` | internal/protocol/nativecodec/provision_action.go:47-87 | every message is of the form the previous row decides |
| `VersionAcceptance.UpsertAcceptsExactly` | internal/protocol/nativecodec/provision_action.go:47-87 | a readable message is accepted exactly when its first version field, if any, is a string, changed exactly when it has none or another version, and extended by the version when it has none |
| `VersionAcceptance.VersionAcceptsExactly` | internal/protocol/nativecodec/provision_action.go:15-41 | exactly which frames are accepted |
| `VersionAcceptance.UnversionedFrameIsVersioned` | internal/protocol/nativecodec/provision_action.go:15-41 | the ordinary frame comes back with the version behind its payload and every other field as it was, or with the limit error exactly when that does not fit |

## Left out

- The cgo codec adapters and the native archive, WebSocket pumps, dialing, heartbeats, timers: foreign code or I/O, present only as freely chosen steps.
- zlib, JSON, URL and DNS document parsing: opaque libraries and input validation.
- REST operations, command line, logging, telemetry, message mapping and JSON snapshots: plumbing and field mapping.
- The send acknowledgement table and message ID allocation: single-function facts.
- Message handlers, retries and dead letters inside a batch: they decide only when a batch finishes.
- `setStates` and `acceptProvision`: no production path calls them.
- Token expiry and its warning timer, `lastErr`, REST base and back-off counters: fields that no modelled decision depends on; what a session applies is tracked as the run its provision data came from.
- The blank checks of user ID and token at the head of Login: the model starts from a non-empty user.
- LifecycleProperties.CodecClosesLast: speaks of lifecycle calls and of the pumps of runs; batch workers, which decode message bodies and which no finalizer waits for (sdk/queue.go:627), `Send`, and the wait for pending DNS loads are not part of it.
- Clients.Client.Login: as a method, like TryReconnect and Logout, it meets only the interference given by its race parameter, between two of its sections; arbitrary interleaving is the subject of the step system, whose steps are the same sections.
- QueueRun.ConnectionRun.ExecutePull: the send time that the response watchdog reads is left out (a watchdog timeout is one more way for a run to fail), and no other section runs between its own two; the step system interleaves them.
- QueueRun.ConnectionRun.StartQueueLocked: string sharing between a repeated NOTICE and the map key is not visible on values.
- BatchReservations.TryReserveBatchScoped: nil budgets, which the source reports as an invariant error, cannot be expressed.
- ProvisionAction.UpsertIsLocal: says nothing of version fields after the first, which the source leaves unread.
