# AALP admission and coalescing, verified

AALP (agent-api-lane-protocol) admits requests to upstream providers through one ticket lane per provider,
coalesces queue requests that share a key into one physical call, and gives a concurrency slot back only when the
call behind it is known to have stopped or its lease has lapsed. This project models that engine in Dafny and proves
what holds in every run: any number of requests, any interleaving of handlers, heartbeats, upstream workers and late
callbacks, and any clock that does not go backwards.

`dafny verify dfyconfig.toml` checks everything.

## How it is laid out

| file | models |
|---|---|
| `LaneModel.dfy`, `LaneTheorems.dfy`, `LaneSharing.dfy` | one monitor section of `aalp/lane.py` at a time, on values; whole runs of sections; what one caller's section leaves to the others |
| `Lanes.dfy` | the `Lane` object with its fields and loops, each method proved against the value-level section; `Acquire` is the whole call, including what other threads do during each wait |
| `Splice.dfy`, `Queues.dfy` | JSON trees, `_deep_set`, body assembly, the `QueueGeneration` object |
| `Handoff.dfy` | the worker/caller hand-off inside `forward` |
| `Coalescing.dfy`, `SlotTable.dfy` | the two sections under `_queue_lock`, on values and on the slot objects, and the leader's steps on its slot object |
| `Gateway.dfy` | the gateway as one transition system: every handler's program counter, what it submitted, each request's call record, the lanes and the slot table |
| `GatewayLanes.dfy`, `GatewaySlots.dfy` | its inductive invariant, one lemma per action |
| `GatewayTheorems.dfy` | what follows for every run |
| `GatewayBodies.dfy` | what goes upstream is what was submitted |
| `GatewayJoining.dfy` | who shares one physical call |
| `GatewayDeadlines.dfy` | who is let in, and what a deadline that has come prevents |
| `GatewayOutcomes.dfy` | what results mean |
| `GatewayProgress.dfy` | every handler and worker comes to its end |
| `GatewayConservation.dfy` | no slot and no place in a queue is lost |
| `GatewayHeartbeats.dfy`, `GatewayLimits.dfy` | what heartbeats guarantee, and where the promises end |
| `FileLocks.dfy`, `FileLanes.dfy` | the cross-process lane: all processes on values; one process's `FileLock`, `FileLease`, `FileLane` objects, each of whose steps is an event of that world, while the others interfere |
| `Framing.dfy`, `Audit.dfy` | length-prefixed frames and the rotated audit log |

A lane section takes several readings of one clock. `now`, `mid` and `later` in an operation are those readings, and
nothing is assumed about them but their order. Random tickets, tokens and handles are numbered in order of issue,
which makes them fresh and comparable by age.

In the gateway each lock section, each lane call and each later reading of the clock that decides something is a step
of its own; what a thread does alone in between is part of the step next to it. Maintenance mode, timeouts, the
decoding of bodies, the length of a block, the credential, the upstream's answer and the outcome of `close()` are
inputs or choices of the environment, including that reading them raises.

## Where the program and its prose differ

The code is followed in each case.

* The repository's `README.md:3-5`, `aalp/lane.py:4-5` and `interface/v1/contract.json:62-63` promise strictly
  first-come admission. The test in the acquire loop lets any of the first `available` waiters go first. Every run
  is strictly ordered exactly when the capacity is one (`StrictFifoIffCapacityOne`). For any capacity, entitlement
  is stable and a waiter that has been overtaken cannot time out.
* A lapsed lease is never revived, as judged by the first clock reading of a section. The new expiry is computed
  from a later reading, so a heartbeat or a re-entry can succeed for a lease that lapses between the two
  (`RenewedAcrossLapse` says exactly when).
* `interface/v1/contract.json:71` promises that no upstream request is started beyond a provider's ceiling and that a
  caller's local timeout never by itself frees a slot. While a handler waits, with heartbeats in time, its call owns a
  live lease, so calls still waited for stay within the ceiling (`OnlyAbandonedCallsExceed`). Quarantine ends after
  one lease time whether or not the call has stopped, so abandoned calls are not bounded at all
  (`OpenCallsUnbounded` builds the run, all heartbeats in time); among all unconfirmed calls, those with a fresh lease
  are (`UpstreamCallsBounded`).
* `forward` promises that the late callback is called exactly once. It is, exactly when the worker binds a result;
  an exception that none of its handlers catches leaves `result` unbound and nothing is delivered
  (`DeliveredExactlyOnce`).
* A handler can leave by an exception that `handle`, `handle_queue` and `_run_leader` do not expect: from reading the
  maintenance flag or a timeout (`float()` on an override or an environment variable), from decoding the body
  (recursion depth) or encoding the block (lone surrogates), from an empty flow id, from a `member_block`,
  `member_join` or `count_template` that `str.join` or `str.format` rejects, between admission and the start of the
  worker (the credential being the main case, the recursion depth of `json.dumps` another), or from a wait longer than
  `threading.TIMEOUT_MAX`, which `join` and `wait` refuse with OverflowError. Up to the audit entry these are all
  (`EscapesOnlyBy`). The last leaves a caller's upstream call running with nobody to hear of its end, so its slot is
  not given back even if the close is confirmed. A leader that escapes leaves its joiners only their own total timeout
  (`Publication`) and its lease to the time limit (`EscapeReleasesNothing`).
* The frame limit of twice `max_request_bytes` admits every body within the request limit exactly when the envelope
  fits into about two thirds of that limit (`LimitAdmitsAllBodies`); a limit of one byte leaves it no room.

## Model

| member | source | states |
|---|---|---|
| LaneModel.ApplyKeepsValid | aalp/lane.py:59-168 | every section keeps: at most `capacity` leases, tickets in the queue distinct and in arrival order, every ticket ever issued either waiting, admitted or timed out and only one of these, every token leased until one lease time after its last renewal unless released |
| LaneTheorems.RunsStayValid | aalp/lane.py:59-168 | the same after any run of sections by any callers |
| LaneTheorems.TurnsAreDecided | aalp/lane.py:102-124 | every turn admits its caller exactly if it is entitled, times it out exactly if it is not and its deadline has come, and leaves it waiting exactly if it has not |
| LaneTheorems.EntitlementIsStable | aalp/lane.py:100-128 | an entitled waiter is admitted by its own next turn and stays entitled through anyone else's section |
| LaneTheorems.OvertakenIsEntitled | aalp/lane.py:100-122 | whenever a younger ticket is admitted past a waiter, that waiter is entitled |
| LaneTheorems.EntitledUntilAdmitted | aalp/lane.py:100-128 | once entitled, a waiter is entitled or admitted at the end of every run, and never expelled by the timeout |
| LaneTheorems.OvertakenNeverTimesOut | aalp/lane.py:100-128 | a waiter overtaken at any point of a run has not timed out at its end |
| LaneTheorems.CapacityOneRunsAreFifo | aalp/lane.py:100-128 | with capacity one, admissions of every run are in arrival order and everyone still waiting arrived later, timeouts, expiries and renewals included |
| LaneTheorems.OrderCanBreak | aalp/lane.py:108-122 | for every capacity of two or more, a run in which a younger caller is admitted first |
| LaneTheorems.StrictFifoIffCapacityOne | aalp/lane.py:100-128 | all runs are strictly first come, first served if and only if the capacity is one |
| LaneTheorems.NeverReclaimedEarly | aalp/lane.py:59-67 | in every run an unreleased lease is in the table, with the right expiry, until one lease time after its last grant or renewal |
| LaneTheorems.GoneStaysGone | aalp/lane.py:130-157 | once a token has lapsed or been released, every later heartbeat, release or re-entry in any run is refused and it is never leased again |
| LaneTheorems.GoneIsRefused | aalp/lane.py:130-157 | such a call does no more to the lane than the sweep that opens its section, so no other lease is affected |
| LaneTheorems.RenewedAcrossLapse | aalp/lane.py:91-139 | after any run, the next heartbeat or re-entry succeeds for a lease already lapsed by its second reading if and only if its holder sends it for an unreleased lease whose last renewal lies one lease time before a point between the two readings; the lease then runs from the second reading |
| LaneTheorems.RenewedAcrossLapseExample | aalp/lane.py:91-139 | at every capacity a run from the empty lane whose next heartbeat, or re-entry, does this |
| LaneTheorems.LazyExpiryIsUnobservable | aalp/lane.py:59-168 | in every run every reply, status counts included, equals that of a reference lane that never sweeps and where a lease exists at an instant exactly while its expiry is to come |
| LaneTheorems.IdleSinceLastChange | aalp/lane.py:59-168 | the last activity of a run is a reading of its last section that granted, renewed, released or dropped a lease, or its start if there was none |
| LaneSharing.EnterEffect | aalp/lane.py:69-128 | entering touches nobody else's token or ticket and ends in a fresh token for this holder, a timeout, or this ticket waiting |
| LaneSharing.PollEffect | aalp/lane.py:102-128 | one more turn touches only the caller's own ticket, with the same three endings |
| LaneSharing.TokenEffect | aalp/lane.py:130-168 | heartbeat, release and status leave the queue alone and touch at most the named lease, which keeps its holder |
| Lanes.Lane.constructor | aalp/lane.py:41-57 | an empty valid lane |
| Lanes.Lane.Sweep | aalp/lane.py:59-67 | the deletion loop leaves exactly the leases whose expiry is to come |
| Lanes.Lane.Find | aalp/lane.py:104-107 | the scan returns the first position of the ticket |
| Lanes.Lane.Forget | aalp/lane.py:125-127 | the `finally` filter |
| Lanes.Lane.TakeTurn | aalp/lane.py:103-128 | one pass of the acquire loop equals the value-level turn, filter and pop together removing one waiter at most |
| Lanes.Lane.Reenter | aalp/lane.py:92-98 | the re-entry branch of acquire, state and reply |
| Lanes.Lane.Heartbeat | aalp/lane.py:130-139 | state and reply of a heartbeat |
| Lanes.Lane.Release | aalp/lane.py:141-157 | state and reply of a release |
| Lanes.Lane.Status | aalp/lane.py:159-168 | state, counts, the last activity after every section, and the idle time since then |
| Lanes.Lane.Await | aalp/lane.py:100-128 | the waiting loop, with arbitrary sections of other threads during each wait, is a run of sections that ends in a lease for this holder, a timeout past the deadline, or this ticket still waiting; exactly one turn follows each wait, and it is still waiting only when every given wait was used |
| Lanes.Lane.Acquire | aalp/lane.py:69-128 | the whole call: when it raises ValueError, that a lease it returns is fresh and expires one lease time later, that a caller that timed out was never entitled at any moment of its wait and holds nothing, and the sections run, one turn after each wait until a turn decides |
| Splice.SetThenGet | aalp/queue.py:160-171 | reading `content_path` after a successful set gives the value |
| Splice.SetThenSet | aalp/queue.py:160-171 | a second set overwrites the first |
| Splice.GetThenSet | aalp/queue.py:160-171 | setting what is there already changes nothing |
| Splice.SetSucceedsIffSettable | aalp/queue.py:164-171 | a set succeeds if and only if all containers but the last can be read and the last is a dictionary given a hashable key or a list given an index in range, negative ones counted from the end |
| Splice.SetFrame | aalp/queue.py:160-171 | every location not at or under the path, indices normalised, reads as before, and containers above keep their kind, length and keys |
| Splice.LandsWhereItPoints | aalp/queue.py:160-171 | on the raw path value: a set succeeds if and only if its subscripts name, one by one, a place in the tree (a string a dictionary's entry of that name, an integer a list's position, negative ones from the end); the place is then the only one, has one step for each subscript, holds the value afterwards, and nothing beside it changes |
| Splice.DeepSet | aalp/queue.py:160-171 | the traversal loop computes the recursive set and lands where the raw path points; where it raises the tree is as before |
| Queues.RebuildIsIdempotent | aalp/queue.py:121-157 | assembling a generation again, on the payload the first assembly changed, gives the same body |
| Queues.BuildsExactlyIf | aalp/queue.py:135-157 | assembly yields a body if and only if the leader's envelope is complete, every member has a block, the parts can be joined and the count formatted, and `content_path` points into the envelope; it raises what is not caught if and only if joining or formatting does, and is rejected otherwise |
| Queues.BodyCarriesTheTrain | aalp/queue.py:142-157 | an assembled body holds the train at the place the raw `content_path` points to and is the leader's envelope everywhere beside it |
| Queues.JoinLength | aalp/queue.py:154-155 | the joined text has room for the blocks and separators and nothing else |
| Queues.JoinKeepsEveryBlock | aalp/queue.py:154-155 | each block stands verbatim at its own offset, followed by a separator |
| Queues.EveryBlockOnceInOrder | aalp/queue.py:142-157 | the train of a body holds each member's own block once, in append order, then a separator and the formatted count, and ends there |
| Queues.QueueGeneration.Append | aalp/queue.py:82-87 | appends exactly while OPEN, otherwise raises and changes nothing |
| Queues.QueueGeneration.Seal | aalp/queue.py:89-96 | OPEN to READY, otherwise raises and changes nothing |
| Queues.QueueGeneration.MarkInFlight | aalp/queue.py:98-108 | OPEN or READY to IN_FLIGHT, otherwise raises |
| Queues.QueueGeneration.MarkDone | aalp/queue.py:110-115 | IN_FLIGHT to DONE, otherwise raises |
| Queues.QueueGeneration.BuildPhysicalBody | aalp/queue.py:121-157 | the collecting loop yields the specified body or error and leaves the members as specified |
| Handoff.DeliveredExactlyOnce | aalp/forwarder.py:121-185 | in every finished interleaving the worker's pair reaches the caller once, by return or by callback and not both, unless the worker died of an uncaught exception, and then never; a caller that gave up returned an unconfirmed close |
| Handoff.DeliveriesAreTrue | aalp/forwarder.py:121-185 | in every interleaving every pair delivered, by return or callback, has SUCCESS exactly if a response was read, with the content read; COMPRESSION_TIMEOUT exactly if the exchange or the reading timed out, UPSTREAM_ERROR exactly if the exchange failed, INVALID_RESPONSE exactly if the reading failed, each with its own text; and a confirmed close exactly if `close()` succeeded; a caller that gave up has COMPRESSION_TIMEOUT, unconfirmed |
| Handoff.RunsFinish | aalp/forwarder.py:121-185 | no interleaving deadlocks, and none has more than five moves |
| Handoff.DiesIffUnexpected | aalp/forwarder.py:123-158 | the result stays unbound exactly when an uncaught exception ended the exchange |
| Handoff.OutcomeCell.Deposit | aalp/forwarder.py:156-162 | the worker's lock section on the shared box and flag |
| Handoff.OutcomeCell.Collect | aalp/forwarder.py:174-185 | the caller's lock section and what it returns |
| Coalescing.CoalesceKeepsTable | aalp/gateway.py:602-633 | the join section never raises and keeps: open exactly if registered under its own key, bytes counted exactly, every proper prefix of the members below the limit |
| Coalescing.JoinsIffOpen | aalp/gateway.py:606-633 | a member joins the slot open under its key, of which there is at most one, at the next place; without one it opens its own; either way the slot is open afterwards exactly if its members are below the limit together, and no other slot changes |
| Coalescing.CloseKeepsTable | aalp/gateway.py:445-451 | closing a slot keeps the table and never removes a later slot that reused its key |
| Coalescing.AssemblyFreezes | aalp/queue.py:121-157 | assembly leaves identities, sizes, byte count and the body itself as they were |
| SlotTable.QueueSlot.FinishLeader | aalp/gateway.py:419-440 | from any state a failure left, DONE, result written and event set, with no transition raising |
| SlotTable.OpenSlots.Submit | aalp/gateway.py:602-633 | the join section on the slot objects does to the table and to each object what the value-level section says, and returns the object open under the caller's key, or a new one to lead if there is none |
| SlotTable.OpenSlots.Close | aalp/gateway.py:445-451 | `_close_open_slot` on the objects, likewise, with no object but its own changed |
| SlotTable.OpenSlots.Assemble | aalp/gateway.py:506-508 | the leader's assembly on the objects: the specified body or error, the table still valid, one slot's members changed as specified |
| SlotTable.OpenSlots.MarkInFlight | aalp/gateway.py:513-513 | the transition never raises after the slot was closed, and changes one slot's state |
| SlotTable.OpenSlots.Finish | aalp/gateway.py:432-440 | finishing a closed slot appends exactly one result, sets the event and keeps the table valid |
| GatewayLanes.NextKeepsLanes | aalp/gateway.py:229-391 | every step of every thread, entering a lane after the queue deadline included, keeps the lane side of the invariant: who owns which token and ticket, distinct per request, and who may still release |
| GatewaySlots.NextKeepsSlots | aalp/gateway.py:419-639 | every step keeps the coalescing side: members as their requests submitted them (up to the splice in the leader's payload), under the provider and queue key of each of them, generation states, what was sent and published, and where the leader is |
| GatewayTheorems.Reached | aalp/gateway.py:229-639 | both hold in every reachable state |
| GatewayTheorems.UpstreamCallsBounded | aalp/gateway.py:313-391 | in every run each provider's unconfirmed calls with a fresh lease own distinct live leases, so there are at most `concurrency_limit` of them |
| GatewayTheorems.HeartbeatRenews | aalp/gateway.py:333-342 | a heartbeat that finds its lease alive makes it fresh for a whole lease time and touches no other; one that is late leaves it gone |
| GatewayHeartbeats.OnlyAbandonedCallsExceed | aalp/gateway.py:333-391 | in every run in which no heartbeat comes a lease time after the one before, each call still waited for owns a live lease, so there are at most `concurrency_limit` of them, and any other unconfirmed call is one whose caller was told so or could not wait at all |
| GatewayTheorems.ReleaseDiscipline | aalp/gateway.py:297-391 | in every run at most one release per token is attempted, and only when no call was started or that call's own worker closed its connection with success in the run |
| GatewayConservation.NothingLeaks | aalp/gateway.py:350-391 | in every run each lease belongs to exactly one request that still needs it, or whose call is not confirmed closed, or whose handler escaped, and each waiter to exactly one blocked request; a confirmed close, however late, gives the slot back |
| GatewayConservation.QuiescentLaneIsIdle | aalp/gateway.py:297-391 | once a provider's requests have returned and their calls are confirmed closed, its lane is empty and reports itself idle |
| GatewayTheorems.EveryMemberOnce | aalp/gateway.py:602-633 | in every run each accepted member sits in one generation at one place, with the payload its request submitted (but for the leader's "shared") and the length measured for it, each place belongs to the request put there, and every member, leader included, has the provider and the queue key of its generation |
| GatewayTheorems.RunFollows | aalp/gateway.py:445-519 | members are only ever added and keep identity, size and payload (but for the leader's "shared"); once a generation leaves OPEN its members and its body are fixed for the rest of the run, and what was sent or published is never withdrawn |
| GatewayTheorems.OneBodyPerGeneration | aalp/gateway.py:498-516 | in every run a generation sends at most one body, the assembly of its full final member list as recorded and as submitted, and only its leader starts a call |
| GatewayBodies.AcceptedCount | aalp/gateway.py:606-633 | a generation has as many members as requests were accepted into it |
| GatewayBodies.SentAsSubmitted | aalp/gateway.py:506-516 | in every run the body sent carries, at the place the raw content path points to, as submitted by a leader of the same provider and queue key, the block each accepted request itself submitted, once, at its own place, then the number of accepted requests, and beside the path the envelope that leader submitted |
| GatewayTheorems.OpenIffRegistered | aalp/gateway.py:602-633 | in every run a slot is open if and only if it is the one registered under its key, which is the provider and queue key of everybody in it; no `append`, `seal` or `mark_*` has raised; the byte total is the sum of the lengths measured for what its members submitted, and all but the last of them stay below the limit |
| GatewayJoining.OpenWhileAccepting | aalp/gateway.py:445-451 | in every run a slot is open if and only if its leader has not closed it and the lengths measured for what its members submitted are below the limit together |
| GatewayJoining.SharesWheneverItCan | aalp/gateway.py:606-633 | in every run a request that reaches the table joins the accepting slot whose leader has its provider and queue key, at the next place, and opens none; it opens one of its own only if there is no such slot |
| GatewayDeadlines.DoorIsExact | aalp/gateway.py:238-271 | a request goes on exactly if the flag is clear, both timeouts can be read, its total deadline is to come and its provider is active (or its body is usable); each of the other answers and escapes at the door is given exactly for its own reason, and the deadlines count from the first reading |
| GatewayDeadlines.LateIsNeverCalled | aalp/gateway.py:297-303 | whenever in a run a total deadline comes before the handler has checked it, every continuation leaves the request without an upstream call and its generation without a body sent, and if it was granted a slot and returned, with TOTAL_TIMEOUT and the slot given back |
| GatewayDeadlines.LateForTheLane | aalp/gateway.py:280-285 | a request that finds its queue deadline come before it enters the lane never gets a ticket, a slot or a call, and answers QUEUE_TIMEOUT |
| GatewayDeadlines.WaitsForWhatIsLeft | aalp/lane.py:89-89 | the deadline of the wait is the queue deadline plus exactly the time between the gateway's reading and the lane's, whatever runs in between |
| GatewayDeadlines.WaitsEndInTime | aalp/lane.py:102-124 | a turn taken at or after the deadline of the wait never leaves the caller waiting, and an earlier one never turns it away |
| GatewayProgress.EveryThreadEnds | aalp/gateway.py:229-544 | in every run a handler takes at most sixteen steps besides its further turns at the lane, a worker can go on until it has ended, whatever became of its caller, and heartbeats can be sent throughout the call |
| GatewayOutcomes.SuccessWasRead | aalp/forwarder.py:137-149 | in every run SUCCESS is answered only with the content that the worker of this request, or of its leader, read from a response in that run |
| GatewayOutcomes.ResultsAreTruthful | aalp/gateway.py:229-391 | in every run a handler that returned, other than a joiner, answers with what `forward` returned if it started a call, which is how the exchange went or that no response came in time, else with a reason that was there: maintenance for a flag that was set (and then nothing else), a timeout whose own deadline had come, unavailability for an inactive provider, a malformed body, a generation that cannot be assembled, or a call that was refused |
| GatewayOutcomes.Publication | aalp/gateway.py:419-544 | a returned leader left DONE, the event set and one result, which is what `forward` gave it or its reason for not calling; a returned joiner has that result of a returned leader, or its own timeout after its own deadline, and only the timeout if the leader escaped |
| GatewayOutcomes.PublishedIsHeard | aalp/gateway.py:532-544 | once a generation's event is set, a joiner that still waits can, in every continuation of the run, return nothing but the published result, however late it looks |
| GatewayTheorems.RunKeepsTerms | aalp/gateway.py:521-544 | in every run a request keeps its submission, its deadlines, its place in a generation and its token; joining extends nothing |
| GatewayTheorems.NobodyIsStuck | aalp/gateway.py:229-544 | in every run each handler that has not returned or escaped can take its next step, a joiner at the latest at its total deadline |
| GatewayLimits.OpenCallsUnbounded | aalp/gateway.py:383-391 | for every limit and every number n, a run, all heartbeats in time, with n calls of one provider open at once, all given up by their callers and none with a live lease |
| GatewayLimits.EscapesOnlyBy | aalp/gateway.py:229-639 | in every run an escaped handler left for one of the listed reasons, with no release attempted, and with what it then held: a token only while assembling, about to call or waiting for its call, and a call only in the last case; no lane section, generation transition or wake-up is among the reasons |
| GatewayLimits.EscapeReleasesNothing | aalp/gateway.py:343-384 | however a run goes on, an escaped handler stays as it is, its token is never released, and the lease stands until it lapses |
| FileLocks.SlotsAreExclusive | aalp/file_lane.py:259-269 | in every run of probes, releases and crashes each slot has at most one live lease, the lock table is what the live leases hold, and there are at most `capacity` of them |
| FileLocks.CrashFreesItsOwn | aalp/filelock_compat.py:23-27 | a crash frees the crashed process's slots and no others |
| FileLocks.ReleaseFreesItsSlot | aalp/filelock_compat.py:144-169 | a release frees the lease's own slot and no other |
| FileLocks.SecondReleaseIsHarmless | aalp/file_lane.py:204-206 | after a release, releasing again at any later point of a run changes nothing, whoever has the slot by then |
| FileLocks.OthersKeepMine | aalp/filelock_compat.py:107-169 | any run of the other processes leaves one process's slots its own, under the same handles, and gives it none |
| FileLanes.RotationIsComplete | aalp/file_lane.py:260-262 | from any start a round visits each slot exactly once |
| FileLanes.QuietRound | aalp/file_lane.py:259-269 | without interference a round ends with no lease if and only if every slot is taken, and otherwise with the first free one in rotated order |
| FileLanes.Os.Exclusive | aalp/file_lane.py:259-269 | at every moment of the real probing loop the live leases of all processes hold distinct slots, at most `capacity` of them |
| FileLanes.FileLock.Acquire | aalp/filelock_compat.py:107-142 | one attempt is one probe: busy exactly when someone has the file, leaving nothing held; a second call on a held lock is a success without effect |
| FileLanes.FileLock.Release | aalp/filelock_compat.py:144-169 | the release event of the lock's own lease, once: its file becomes free and no other |
| FileLanes.FileLease.Release | aalp/file_lane.py:204-206 | the same through the lease |
| FileLanes.FileLane.TrySlotsOnce | aalp/file_lane.py:259-269 | the lease is for the first slot found free in rotated order; none means that the probes of this round, as events, tried every slot and met every one taken, and nothing more is held; without interference none if and only if all are taken |
| FileLanes.FileLane.Acquire | aalp/file_lane.py:271-294 | the probes made, as recorded in the history of events with the lock table each met, are those of its rounds; every round but a last successful one tried every slot in rotated order and met every one taken; at most ceil(timeout / poll interval) + 1 rounds, sleeps of one interval and some jitter that only the deadline cuts short, nothing held and the deadline passed on timeout; without interference it gets a lease if and only if a slot is free, in its first round |
| Framing.PrefixIsBigEndian | aalp/ingress.py:164-176 | the four bytes of a prefix are the length in network byte order and no others are |
| Framing.RoundTrip | aalp/ingress.py:164-176 | what was written is read back and the rest left unread if and only if the payload is within the limit; an oversized frame is refused before its body is read |
| Framing.TruncationIsNoticed | aalp/ingress.py:145-171 | a stream cut anywhere in a frame never yields a payload |
| Framing.OnlyFramesParse | aalp/ingress.py:164-176 | a payload read is always that of a frame as written, followed by what is left |
| Framing.Socket.RecvExact | aalp/ingress.py:145-161 | exactly the next n bytes however they are chunked, or an error when the peer closes first |
| Framing.Socket.ReadFrame | aalp/ingress.py:164-171 | the frame reader equals the parser for every chunking |
| Framing.Socket.WriteFrame | aalp/ingress.py:174-176 | prefix and payload, or an error and nothing sent when the length does not fit four bytes |
| Framing.LimitAdmitsAllBodies | aalp/ingress.py:183-188 | with a given envelope the frame reader takes in every request whose body is within the request limit, leaving what follows unread, if and only if the envelope fits the room that is left |
| Framing.RoomForEnvelope | aalp/ingress.py:218-219 | the exact room the doubled limit leaves for the envelope around the largest body |
| Audit.KeepsASuffix | aalp/audit.py:65-76 | after any appends backup then live log is a contiguous suffix of the history; a file is within the limit or a single line, and the live log begins with the first line that did not fit the backup any more; all is in the live log, and there is no backup, while the history fits the limit, and more than the limit is kept once anything is dropped |
| Audit.AuditLog.Write | aalp/audit.py:65-76 | one append on the files, rotating exactly when the line would exceed the limit of an existing log; the files stay what appending the whole history leaves |
| Audit.AuditLog.FilesKeep | aalp/audit.py:65-76 | at any time the two files on disk keep a bounded contiguous suffix of everything appended |
| Audit.AuditLog.ReadEntries | aalp/audit.py:79-84 | what is read is a suffix of everything appended, with the last line always in it, no larger than the limit or the longest line, and all of it while it fits the limit |

## Left out

- Splice.DeepSet: works on a value and returns the new tree, so it does not capture aliasing between parts of a payload, or between payloads, that Python's assignment in place would share; what assembly leaves behind in the leader's own payload is modelled.
- Queues.QueueGeneration.BuildPhysicalBody: yields the JSON tree; `json.dumps` and the encoding are library code, and `str.format` is an arbitrary partial function of the template and the count.
- Lanes.Lane.Acquire: the wait length of at most a quarter second and who is notified are not modelled; any sections of others may run during a wait, and the list of rounds bounds how often the caller wakes, so that it may end still waiting.
- Lanes.Lane.constructor: takes a positive capacity and lease time as a precondition where the program raises ValueError; likewise the constructor of FileLanes.FileLane, whose capacity is that of its world.
- FileLanes.FileLane.TrySlotsOnce: slots are numbers, not paths; creating the lock directory and failures of opening a lock file are not modelled.
- FileLanes.FileLock.Release: a lock object that is dropped without a release and collected, which closes its handle, is not modelled; a crash is.
- Audit.AuditLog.Write: one limit per log, as all callers use the default; appends do not overlap, because the size check and the rename are not locked; a partial write and a failing write are not modelled.
- GatewayLimits.EscapesOnlyBy: ends before the audit entry, so a handler that a failing audit write ends after everything else counts as returned.
- Liveness under a fair scheduler: `NobodyIsStuck` and `RunsFinish` exclude deadlock, not starvation.
- Dispatch order across generations by creation time: a leader takes its ticket after leaving the queue lock, so only ticket order is guaranteed.
- The length of a block is an arbitrary partial function of the payload, undefined where encoding raises; the UTF-8 encoding itself is library code.
- Timeouts are real numbers or unreadable; an override that is NaN or infinite is not modelled, nor are exceptions raised into a thread from outside, such as an exhausted memory, nor a lease time so long that the heartbeat thread's own wait overflows.
- Readings of the clock are ordered by the steps they belong to: a reading that another thread takes while a lane section of this thread runs is placed before or after that section.
- Sockets, TLS, `http.client`, thread creation and the operating system's lock calls: steps with an arbitrary outcome.
- JSON text, base64 and UTF-8: library code; payloads are trees and blocks are strings.
- Method, path, headers and the body of a plain forward: passed through unread; what a call carries is modelled for queue requests.
- `probe`, header filtering and connection building in `aalp/forwarder.py`: one-branch lookups; their failures are the refusals and escapes of the model.
- Credential storage, migration, the provider registry, maintenance files and service start-up: inputs of the model.
- Discovery endpoints other than the lane status they read, path routing and outcome-to-status tables.
- Ingress authentication, the secret and descriptor files and the accept loop.
