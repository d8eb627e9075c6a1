# Ring Paxos, libpaxos2's learner, and CityHash: a verified model

This project models the parts of the repository where correctness is hard, in Dafny, and proves what they are for.

**Ring Paxos** (`ring_paxos`). A multicaster (the leader) runs phase 1 and phase 2 over a ring of acceptors; consensus is
on command keys, the commands themselves are sent separately as mappings; learners rebuild a totally ordered log.

* `RingTypes`, `Ballots`, `AcceptorSpec`, `LeaderRecord`, `LeaderSpec`, `DequeSpec`, `DeliverySpec` say on values what each
  handler does: same branches, same constants, and `None` where an assertion of the program would stop it.
* `RingAcceptors`, `Multicasters`, `DeliveryQueues`, `Deques`, `MemoryPools` are the imperative versions: classes over
  circular arrays, changed in place by loops, each method proved against its specification. The acceptor's class has the
  fixed command slots, the allocated buffers and the pointers to them (`AcceptorStore`).
* `AcceptorLaws`, `LeaderLaws`, `DeliveryLaws` and, for libpaxos2, `LearnerLaws` say what the handlers amount to, without
  using them: across several handlers, over trips round the ring, and over whole message sequences.
* `Agreement*` puts acceptors and any number of leaders into one step system with a network that loses, repeats and reorders
  messages, and proves agreement. `TotalOrder*` does the same for the one fixed leader the program is configured with; there
  the network may even hand any message to any node. The results are total order, conservation of client values, safe reuse
  of acceptor slots and exact abort conditions.
* `RingRoute`, `Announcements`, `Recovery` and `ProgressLimits` put the same system on its ring, where a message meets acceptor after
  acceptor and comes back to the leader from the last one. There every reachable state can still finish everything that was
  submitted (assign, close, deliver) exactly when the preexecution window has two instances and the quorum is on the ring.
  `LateMessages` gives runs in which a late or repeated message stops a node.

**libpaxos2's learner** (`LearnerSpec`, `LearnerRuns`, `LpLearners`): quorum detection and in-order delivery over a ring
buffer. **UDP batching** (`Framing`). **CityHash** (`Words`, `CityMixers`, `CityHash`), in arithmetic on natural numbers below
2^32 and 2^64, with `Bits` for the bit operations. `CityVectors32`, `CityVectors64` and `CityVectors128` prove the hash values
that the library publishes in `city-test.cc` for at least one input of every length band; `CityInputs` has the inputs (the
bytes that `setup()` there makes, `city-test.cc:45-57`), `CityValues` evaluates the operations on given words.

## How the code was read

* `acceptor_helpers.c:86` copies `sizeof(msg)`, the size of a pointer. The model copies the message header, which is the intent.
* `acceptor_helpers.c:249-251` (edge A8) frees a buffer and keeps the pointer. The class keeps this: a later free of that
  pointer is the outcome `Fault`. The contracts say exactly when it happens, `AcceptorMemory.DoubleFree` shows the shortest
  way there, and `AcceptorMemory.ServeRun` that no run with one leader gets there. Every allocation has a new address, so a stale pointer never becomes valid again.
* `delivery_queue.c:395-396` (edge A3) stores the chosen key without marking it final. Kept as written; `AcceptanceThenMap`
  gives its exact effect.
* `acceptor_helpers_mcaster.c:139` adds `p1_ready_count` to itself. Kept as written; the window bounds hold all the same.
* `acceptor_helpers_mcaster.c:398-403` and `:323-340` break agreement when there are several leaders (`ForgottenReport`,
  `StaleRange`). The many-leader system has both as coded (`CodedStep`) and with a guard that the leader could check: phase 1
  of an instance without a command ends only on an empty report, and a range answer only ends phase 1 of records that still
  have its ballot. `AgreementGuards` proves that a step, and a whole run, keeps the invariant exactly when the guards hold, and
  that agreement needs both (`AgreementIff`). The single-leader system has the code unchanged, and there both are shown harmless.
* `acceptor_helpers_mcaster.c:405-408` speaks of an instance that goes from phase 2 back to phase 1, but no code does that. The
  many-leader system has it as an extra step (`RestartPhase1`), so that the branches for an assigned command are reached.
* `network_udp.c:85-90` says that a corrupted packet is dropped; the messages before the corruption were delivered already.
* Assertions that late or repeated messages can reach (`acceptor_helpers_mcaster.c:313` and `:336`, `mcaster_storage.c:94`,
  `stable_storage_1.c:73`) stop the node: the step has no next state. `LateMessages` has a run to each of the four.
* `acceptor_helpers_mcaster.c:145-148` compares the doubled counter with half the preexecution window in whole numbers. A window
  of one instance is valid (`config_parser.c:382`), half of it is 0, and nothing is ever opened (`OneNeverOpens`).
* `config_parser.c:374` accepts a quorum as large as the number of ring members, but the leader is the first member and no
  acceptor: with that quorum nothing is ever assigned (`QuorumBeyondRing`). A quorum decides what counts as chosen; on the ring
  a message comes back only after all acceptors, so one silent acceptor stops all closing (`SilentAcceptorBlocks`).
* `network_udp.c:106` reads the size field of the next message before it checks that anything of it was received. With one
  byte left at the end of a full buffer the read leaves the buffer: `ReadPacket` says exactly when.
* The char of `city.cc:147` is signed, as on x86.

## Conditions

* Many leaders: the quorum is a majority of the ring's acceptors (`config_parser.c:373-374` checks only that it is positive and
  not larger than their number), leaders are outside the ring, and ballot sequence numbers stay below 0xFFFF.
* One leader: the validated configuration, in particular working_set_size > preexecution window + active instances
  (`config_parser.c:402-408`), the same on every node. No majority is needed for safety; what progress needs is proved.
* All nodes start empty, and stable storage is instantly durable.
* The memory pool is used as intended: entries of positive size, and only outstanding chunks are returned.

## Model

| member | source | states |
|---|---|---|
| `AgreementRuns.AgreementInRuns` | src_tree/fds/lib/ring_paxos/ring-paxos/acceptor_helpers_mcaster.c:343-498 | In every run, with any number of leaders and a network that loses, repeats and reorders, the acceptances ever broadcast for one instance name one key; the two leader branches named above are excluded |
| `AgreementInv.ChosenFixesProposals` | src_tree/fds/lib/ring_paxos/ring-paxos/acceptor_helpers.c:28-93 | Once a quorum accepted a key at ballot b, every phase 2 at a ballot from b on carries that key |
| `AgreementInv.ChosenUnique` | src_tree/fds/lib/ring_paxos/ring-paxos/acceptor_helpers.c:152-268 | No two keys are ever accepted by quorums in one instance, at whatever ballots |
| `AgreementRuns.RunKeeps` | src_tree/fds/lib/ring_paxos/ring-paxos/acceptor_helpers.c:28-364 | The invariant of the many-leader system holds in every state of every run |
| `AgreementRuns.StepKeeps` | src_tree/fds/lib/ring_paxos/ring-paxos/acceptor_helpers_mcaster.c:138-498 | Every step of an acceptor or leader keeps that invariant |
| `AgreementRuns.CountersAreTrue` | src_tree/fds/lib/ring_paxos/ring-paxos/acceptor_helpers.c:37-72 | A phase 1 message in flight counts exactly the distinct acceptors it passed that promised its ballot, a range message those that promised it in every instance of the range; a phase 2 message counts its hops and all of them accepted it; an acceptance stands for a quorum that accepted |
| `AgreementLeaders.RoundTripAccepted` | src_tree/fds/lib/ring_paxos/lib/topology_manager.c:63-72 | A phase 2 message back at the leader was accepted by every acceptor of the ring |
| `AgreementLeaders.RoundTripChosen` | src_tree/fds/lib/ring_paxos/ring-paxos/acceptor_helpers_mcaster.c:475-487 | So the key the leader then announces is chosen |
| `AgreementDeliver.DeliverKeeps` | src_tree/fds/lib/ring_paxos/ring-paxos/acceptor_helpers.c:28-268 | An acceptor's handling of any ring message keeps the invariant |
| `AgreementLeaders.PromisedKeeps` | src_tree/fds/lib/ring_paxos/ring-paxos/acceptor_helpers_mcaster.c:394-438 | The leader's choice of a value after phase 1 (its own, the same key, or the reported command) keeps the invariant |
| `AgreementGuards.AgreementIff` | src_tree/fds/lib/ring_paxos/ring-paxos/acceptor_helpers_mcaster.c:301-498 | For every majority configuration: all runs of the program that keep some of the two leader guards agree exactly when they keep both |
| `Disagreement.ForgottenReport` | src_tree/fds/lib/ring_paxos/ring-paxos/acceptor_helpers_mcaster.c:398-403 | For every majority configuration, any two leaders, keys and values: a run of the program that keeps the range guard, in which the second leader ends phase 1 without a command of its own, forgets the reported one, and both announce different keys for instance 1 |
| `AgreementGuards.FinishPhase1Exactly` | src_tree/fds/lib/ring_paxos/ring-paxos/acceptor_helpers_mcaster.c:394-403 | As coded, ending phase 1 on a message keeps the invariant exactly when too few acceptors promised, none reported an accepted command, or the leader has a command assigned |
| `Disagreement.StaleRange` | src_tree/fds/lib/ring_paxos/ring-paxos/acceptor_helpers_mcaster.c:323-340 | Likewise a run in which nothing reported is forgotten, but a late range answer ends phase 1 for a record whose ballot was raised in between: two different keys are announced |
| `AgreementGuards.FinishRangeExactly` | src_tree/fds/lib/ring_paxos/ring-paxos/acceptor_helpers_mcaster.c:323-340 | As coded, ending phase 1 on a range answer keeps the invariant exactly when too few acceptors promised or every record of the range still has the ballot of the answer |
| `AgreementGuards.CodedRunExactly` | src_tree/fds/lib/ring_paxos/ring-paxos/acceptor_helpers_mcaster.c:301-498 | A run of the program as coded keeps the invariant in all its states exactly when no step takes one of the two branches with its guard false |
| `AgreementGuards.AgreementWhileGuarded` | src_tree/fds/lib/ring_paxos/ring-paxos/acceptor_helpers_mcaster.c:301-498 | Agreement for the program as coded, in every run along which those guards held |
| `AgreementLearners.LearnersAgree` | src_tree/fds/lib/ring_paxos/lib/delivery_queue.c:216-412 | Learners of the many-leader system, each fed any of the broadcast messages in any order and number, fail no assertion and deliver prefix-comparable logs |
| `AgreementLearners.BroadcastsAreTrue` | src_tree/fds/lib/ring_paxos/ring-paxos/acceptor_helpers_mcaster.c:100-136 | Every mapping and acceptance broadcast agrees with what consensus decided |
| `TotalOrderRuns.LogIsPrefixOfSubmitted` | src_tree/fds/lib/ring_paxos/lib/delivery_queue.c:216-412 | Under loss, repetition, reordering and misrouting, a learner fails no assertion and its log is a prefix of the client values the queue took in |
| `TotalOrderRuns.LearnersComparable` | src_tree/fds/lib/ring_paxos/lib/delivery_queue.c:216-238 | Any two learners' logs are prefix-comparable, whatever messages each got and when |
| `TotalOrderRuns.Conservation` | src_tree/fds/lib/ring_paxos/ring-paxos/acceptor_helpers_mcaster.c:229-299 | In every state the values of instances 1..open followed by the queued values are exactly the submitted values in order; assignments are for ever |
| `TotalOrderRuns.KeysInRuns` | src_tree/fds/lib/ring_paxos/lib/mcaster_storage.c:19-28 | Two assignments carry the same key exactly when a multiple of 65534 assignments lies between them |
| `TotalOrderRuns.WindowInRuns` | src_tree/fds/lib/ring_paxos/ring-paxos/acceptor_helpers_mcaster.c:138-299 | In every reachable state the window, the status bands and the bound closed + working set hold, and every open record is at the leader's first ballot |
| `TotalOrderRuns.LeaderNeverAborts` | src_tree/fds/lib/ring_paxos/ring-paxos/acceptor_helpers_mcaster.c:343-498 | Opening instances, timeouts and the answers to phase 1 and phase 2 never fail an assertion of the leader |
| `TotalOrderRuns.UnfinishedKept` | src_tree/fds/lib/ring_paxos/lib/stable_storage_1.c:90-118 | An acceptor's slot is never reused while its instance is not closed at the leader, and its promise and acceptance for such an instance never go down |
| `TotalOrderRuns.AcceptorsServeUnfinished` | src_tree/fds/lib/ring_paxos/lib/stable_storage_1.c:61-75 | An acceptor never aborts on a message about instances that are not closed |
| `TotalOrderRuns.StepKeeps` | src_tree/fds/lib/ring_paxos/ring-paxos/acceptor_helpers_mcaster.c:138-584 | Every step keeps the system invariant, and histories and bounds only grow |
| `TotalOrderRuns.RunKeeps` | src_tree/fds/lib/ring_paxos/ring-paxos/acceptor_helpers_mcaster.c:138-584 | The invariant holds in every state of every run |
| `ProgressLimits.ProgressIff` | src_tree/fds/lib/ring_paxos/lib/config_parser.c:373-382 | Every state of every run can finish everything submitted, on the ring and with all messages under way lost, exactly when the preexecution window has at least two instances and the quorum is not larger than the number of acceptors: all values assigned and closed, and every learner able to deliver all of them, from new messages alone if the leader still has the closed instances it misses, and otherwise with what was broadcast before |
| `ProgressLimits.EveryRunCanFinish` | src_tree/fds/lib/ring_paxos/ring-paxos/acceptor_helpers_mcaster.c:138-498 | The positive half: the continuation exists from every reachable state |
| `ProgressLimits.OneNeverOpens` | src_tree/fds/lib/ring_paxos/ring-paxos/acceptor_helpers_mcaster.c:138-180 | With a preexecution window of one instance no run ever sends or assigns anything: every submitted value stays in the queue |
| `ProgressLimits.QuorumBeyondRing` | src_tree/fds/lib/ring_paxos/ring-paxos/acceptor_helpers_mcaster.c:316-321 | With a quorum larger than the number of acceptors nothing is ever assigned, whatever happens on the ring |
| `ProgressLimits.SilentAcceptorBlocks` | src_tree/fds/lib/ring_paxos/lib/topology_manager.c:63-72 | While one acceptor passes nothing on, nothing is closed, however small the quorum is |
| `TotalOrderProgress.CanCloseHead` | src_tree/fds/lib/ring_paxos/ring-paxos/acceptor_helpers_mcaster.c:442-498 | On the ring the first assigned instance that is not closed can be closed: its timeout, one trip round all acceptors, and the answer |
| `TotalOrderProgress.CanAssignNext` | src_tree/fds/lib/ring_paxos/ring-paxos/acceptor_helpers_mcaster.c:138-299 | On the ring a waiting value can be assigned when everything assigned is closed: phase 1 of the next instance goes round, unless it ended before |
| `TotalOrderProgress.CanCloseAll` | src_tree/fds/lib/ring_paxos/ring-paxos/acceptor_helpers_mcaster.c:563-584 | On the ring every submitted value can be assigned and closed, none lost or added |
| `RingRoute.RouteIsRun` | src_tree/fds/lib/ring_paxos/ring-paxos/acceptor_events.c:43-60 | Whatever happens on the ring is a run of the system above, so all its safety results hold there |
| `RingRoute.RouteCounts` | src_tree/fds/lib/ring_paxos/ring-paxos/acceptor_helpers.c:28-268 | On the ring a phase 2 message counts one accept for each acceptor it met, and no message counts more acceptors than it met |
| `Announcements.AnnouncedInRuns` | src_tree/fds/lib/ring_paxos/ring-paxos/acceptor_helpers_mcaster.c:100-136 | In every state of every run the mapping of every assigned instance and the chosen key of every closed one were broadcast |
| `Announcements.CanCatchUp` | src_tree/fds/lib/ring_paxos/lib/delivery_queue.c:216-412 | Every learner, whatever it was handed so far, can be handed broadcast messages so that it delivers everything closed |
| `Recovery.CanFinishServing` | src_tree/fds/lib/ring_paxos/ring-paxos/acceptor_helpers_mcaster.c:500-545 | The continuation that asks the leader for lost mappings and chosen keys: everything submitted is closed, and the mapping and chosen key of every instance that was not closed, or whose record the leader still had, are sent |
| `Recovery.NearIsServed` | src_tree/fds/lib/ring_paxos/lib/mcaster_storage.c:69-100 | A learner that is at most the working set behind the closed bound misses nothing the leader no longer has |
| `LeaderInv.LastRecordsKept` | src_tree/fds/lib/ring_paxos/lib/mcaster_storage.c:40-67 | The leader keeps the records of the last working set of closed instances, because its store has twice that many slots |
| `Announcements.AskedAgain` | src_tree/fds/lib/ring_paxos/lib/mcaster_storage.c:69-100 | A learner's request for a mapping is answered exactly when the leader's slot still has the instance; otherwise the leader aborts |
| `LateMessages.RangeAnsweredTwice` | src_tree/fds/lib/ring_paxos/ring-paxos/acceptor_helpers_mcaster.c:323-340 | For every valid configuration that makes progress: a run on the ring in which the first range, granted by all acceptors, is answered twice, and the second answer stops the leader |
| `LateMessages.RangeAfterClosing` | src_tree/fds/lib/ring_paxos/ring-paxos/acceptor_helpers_mcaster.c:312-313 | A run on the ring in which the first range answer comes again after instance 1 was closed, and stops the leader at the closed bound |
| `LateMessages.LateMapping` | src_tree/fds/lib/ring_paxos/lib/stable_storage_1.c:61-75 | And a run after which the mapping of instance 1, handed late to any acceptor, stops it because a newer instance took the slot |
| `LateMessages.LateRequest` | src_tree/fds/lib/ring_paxos/lib/mcaster_storage.c:89-94 | And a run after which a learner's request for instance 1 stops the leader because a newer instance took the record |
| `TotalOrder.TakenFromQueue` | src_tree/fds/lib/ring_paxos/ring-paxos/acceptor_helpers_mcaster.c:276-291 | Moving values from the queue to instances loses, repeats and reorders nothing |
| `LeaderTruth.OnlyLeaderIsNeverRefused` | src_tree/fds/lib/ring_paxos/ring-paxos/acceptor_helpers_mcaster.c:394-403 | The only leader never meets a higher promise or a foreign command: ballots are never raised, nothing is given back, and the forgetting branch has nothing to forget |
| `LeaderInv.RangeAbortsIff` | src_tree/fds/lib/ring_paxos/ring-paxos/acceptor_helpers_mcaster.c:312-336 | The leader aborts on a range answer exactly when the range starts at or below the closed bound, or has enough promises and some instance of it already left phase 1 |
| `LeaderTruth.HandlePhase2True` | src_tree/fds/lib/ring_paxos/ring-paxos/acceptor_helpers_mcaster.c:470-473 | The key in a phase 2 answer is always the assigned one: the assertion never fails |
| `LeaderTruth.KeysRepeat` | src_tree/fds/lib/ring_paxos/lib/mcaster_storage.c:19-28 | The 16-bit key counter repeats with period 65534 and not sooner |
| `AcceptorTruth.HandleTrue` | src_tree/fds/lib/ring_paxos/ring-paxos/acceptor_helpers.c:28-364 | With one leader an acceptor aborts on a message exactly when the slot of an instance it concerns was reused; otherwise acceptor and forwarded messages hold only what was assigned |
| `AcceptorTruth.UnfinishedNotGone` | src_tree/fds/lib/ring_paxos/lib/config_parser.c:402-408 | Because working set > preexecution window + active instances, a slot shared with an open instance can only have held a closed one |
| `LeaderInv.OpenPhase1Keeps` | src_tree/fds/lib/ring_paxos/ring-paxos/acceptor_helpers_mcaster.c:138-180 | Opening instances for phase 1 never fails, keeps window and bands, and stays below closed + working set, although the counter of ready instances is added to itself |
| `LeaderInv.OpenOneKeeps` | src_tree/fds/lib/ring_paxos/ring-paxos/acceptor_helpers_mcaster.c:244-295 | Assigning a value never fails an assertion and keeps window and bands |
| `LeaderInv.OpenPhase2Keeps` | src_tree/fds/lib/ring_paxos/ring-paxos/acceptor_helpers_mcaster.c:229-299 | The loop gives the front of the queue, in order, to the next instances |
| `LeaderInv.NoWrap` | src_tree/fds/lib/ring_paxos/ring-paxos/acceptor_helpers_mcaster.c:244 | In the window the unsigned subtraction of the loop condition and the doubled counter never wrap |
| `LeaderInv.GetWithin` | src_tree/fds/lib/ring_paxos/lib/mcaster_storage.c:69-100 | Asking the store for an instance of the window finds its own record |
| `LeaderInv.GetNext` | src_tree/fds/lib/ring_paxos/lib/mcaster_storage.c:83-88 | The record of the next instance only ever replaces a done one |
| `LeaderInv.CheckExpiredKeeps` | src_tree/fds/lib/ring_paxos/ring-paxos/acceptor_helpers_mcaster.c:185-226 | Timeouts never fail an assertion and change no record |
| `LeaderInv.HandlePhase1Keeps` | src_tree/fds/lib/ring_paxos/ring-paxos/acceptor_helpers_mcaster.c:343-439 | A phase 1 answer never aborts and keeps the invariant, whatever 32-bit promise it reports, even where raising the ballot wraps |
| `LeaderInv.HandlePhase1RangeKeeps` | src_tree/fds/lib/ring_paxos/ring-paxos/acceptor_helpers_mcaster.c:301-341 | Exactly when a range answer aborts; otherwise it keeps the invariant |
| `LeaderInv.HandlePhase2Keeps` | src_tree/fds/lib/ring_paxos/ring-paxos/acceptor_helpers_mcaster.c:442-498 | A phase 2 answer aborts exactly when it names another key than the assigned one at the record's ballot; otherwise it keeps the invariant, and the closed bound only grows |
| `LeaderInv.ClosedIsLongestPrefix` | src_tree/fds/lib/ring_paxos/ring-paxos/acceptor.c:43-46 | The closed bound is exactly the longest prefix without an unfinished instance |
| `LeaderInv.PeriodicKeeps` | src_tree/fds/lib/ring_paxos/ring-paxos/acceptor_helpers_mcaster.c:563-584 | The periodic check never fails an assertion and moves queue values to instances in order |
| `LeaderLaws.OpenPhase2Exactly` | src_tree/fds/lib/ring_paxos/ring-paxos/acceptor_helpers_mcaster.c:229-299 | How far the loop goes: m values are assigned for every m that is at most the limit per iteration, the room left by open instances and the length of the queue, and whose next m records finished phase 1, and for no larger m; each gets a mapping and a phase 2 message |
| `LeaderLaws.OpenPhase1Exactly` | src_tree/fds/lib/ring_paxos/ring-paxos/acceptor_helpers_mcaster.c:138-180 | When opening starts, how many instances it opens, the one range message, and the new record of each |
| `LeaderLaws.CheckExpiredExactly` | src_tree/fds/lib/ring_paxos/ring-paxos/acceptor_helpers_mcaster.c:185-226 | A message is repeated exactly if it is that of an expired instance in phase 1 or 2 |
| `LeaderLaws.RangeAnswerExactly` | src_tree/fds/lib/ring_paxos/ring-paxos/acceptor_helpers_mcaster.c:301-341 | A range answer ends phase 1 of exactly its instances; with too few promises the range is sent again; that of another leader changes nothing |
| `LeaderLaws.HandlePhase1Exactly` | src_tree/fds/lib/ring_paxos/ring-paxos/acceptor_helpers_mcaster.c:343-439 | A phase 1 answer changes the record of its instance only, sends what the reply says, and gives back the value it says |
| `LeaderLaws.Phase1AnswerExactly` | src_tree/fds/lib/ring_paxos/ring-paxos/acceptor_helpers_mcaster.c:379-438 | That reply: ignored unless awaited; again with a higher ballot after a refusal; else phase 2 with the reported command or the own one, and which value goes back |
| `LeaderLaws.GivenBackIsNext` | src_tree/fds/lib/ring_paxos/lib/mcaster_storage.c:120-156 | A value given back is the next one to be assigned, and only a full queue loses one for it |
| `LeaderLaws.TwoRounds` | src_tree/fds/lib/ring_paxos/ring-paxos/acceptor_helpers_mcaster.c:379-392 | Phase 1 of an instance ends after at most two trips round the ring, whatever was promised before, if nothing else happens on the ring and no sequence number wraps |
| `LeaderLaws.HandlePhase2Exactly` | src_tree/fds/lib/ring_paxos/ring-paxos/acceptor_helpers_mcaster.c:442-498 | A phase 2 answer closes its instance or changes nothing, and sends what the reply says |
| `LeaderLaws.Phase2AnswerExactly` | src_tree/fds/lib/ring_paxos/ring-paxos/acceptor_helpers_mcaster.c:453-487 | That reply: ignored unless awaited; mapping and phase 2 again with too few accepts; else done, and the key announced |
| `LeaderLaws.RequestsExactly` | src_tree/fds/lib/ring_paxos/ring-paxos/acceptor_helpers_mcaster.c:500-545 | A learner is answered with the mapping, or with the key if the instance is closed, and nothing changes |
| `Multicasters.Multicaster.constructor` | src_tree/fds/lib/ring_paxos/lib/mcaster_storage.c:40-67 | The store starts cleared, the key counter at 1 |
| `Multicasters.Multicaster.GetRecord` | src_tree/fds/lib/ring_paxos/lib/mcaster_storage.c:69-100 | The circular record store: what it returns, clears and refuses |
| `Multicasters.Multicaster.OpenNewInstancesP1` | src_tree/fds/lib/ring_paxos/ring-paxos/acceptor_helpers_mcaster.c:138-180 | The loop over the new range does what the specification of opening for phase 1 says, aborts included |
| `Multicasters.Multicaster.OpenNewInstancesP2` | src_tree/fds/lib/ring_paxos/ring-paxos/acceptor_helpers_mcaster.c:229-299 | The loop does what the specification of assigning values says: new state, messages sent, assignments |
| `Multicasters.Multicaster.AssignNext` | src_tree/fds/lib/ring_paxos/lib/mcaster_storage.c:102-118 | One assignment: key, value, counters, mapping and phase 2 message |
| `Multicasters.Multicaster.CheckExpiredInstances` | src_tree/fds/lib/ring_paxos/ring-paxos/acceptor_helpers_mcaster.c:185-226 | The timeout loop sends exactly the specified repetitions |
| `Multicasters.Multicaster.HandlePhase1RangeMsg` | src_tree/fds/lib/ring_paxos/ring-paxos/acceptor_helpers_mcaster.c:301-341 | Handler of a range answer against its specification |
| `Multicasters.Multicaster.HandlePhase1Msg` | src_tree/fds/lib/ring_paxos/ring-paxos/acceptor_helpers_mcaster.c:343-439 | Handler of a phase 1 answer against its specification |
| `Multicasters.Multicaster.AnswerPhase1` | src_tree/fds/lib/ring_paxos/ring-paxos/acceptor_helpers_mcaster.c:379-438 | Retry with a raised ballot, or finish with the right command |
| `Multicasters.Multicaster.ReplaceAssigned` | src_tree/fds/lib/ring_paxos/lib/mcaster_storage.c:120-156 | The reported command replaces the assigned one, whose value returns to the front of the queue unless equal |
| `Multicasters.Multicaster.HandlePhase2Msg` | src_tree/fds/lib/ring_paxos/ring-paxos/acceptor_helpers_mcaster.c:442-498 | Handler of a phase 2 answer against its specification |
| `Multicasters.Multicaster.CloseFrom` | src_tree/fds/lib/ring_paxos/ring-paxos/acceptor_helpers_mcaster.c:489-497 | The closing loop, which looks only at the record it holds, closes exactly the done prefix |
| `Multicasters.Multicaster.HandleMapRequests` | src_tree/fds/lib/ring_paxos/ring-paxos/acceptor_helpers_mcaster.c:500-525 | Answers to learners asking for mappings |
| `Multicasters.Multicaster.HandleChosenRequests` | src_tree/fds/lib/ring_paxos/ring-paxos/acceptor_helpers_mcaster.c:527-545 | Answers to learners asking for chosen keys |
| `Multicasters.Multicaster.HandleValueSubmit` | src_tree/fds/lib/ring_paxos/ring-paxos/acceptor_helpers_mcaster.c:549-561 | A client value is queued exactly when it fits |
| `Multicasters.Multicaster.PeriodicCheck` | src_tree/fds/lib/ring_paxos/ring-paxos/acceptor_helpers_mcaster.c:563-584 | The three activities in order |
| `Ballots.FirstBallotIsMine` | src_tree/fds/lib/ring_paxos/lib/util.c:70-78 | The first ballot of a leader has its identity in the low half and sequence number 1 |
| `Ballots.MineByOwner` | src_tree/fds/lib/ring_paxos/lib/util.c:107-112 | The membership test is equality of the low half |
| `Ballots.OneOwner` | src_tree/fds/lib/ring_paxos/lib/util.c:107-112 | A ballot passes the membership test of one leader only |
| `Ballots.RaiseExceeds` | src_tree/fds/lib/ring_paxos/lib/util.c:87-95 | A raised ballot beats the promise exactly when the promise's sequence number is below 0xFFFF; at 0xFFFF it wraps to the bare identity |
| `Ballots.IncrementIsRaise` | src_tree/fds/lib/ring_paxos/lib/util.c:97-105 | Incrementing is raising over oneself |
| `Ballots.BallotsGrow` | src_tree/fds/lib/ring_paxos/lib/util.c:70-112 | Over any run of refusals a leader's ballots keep their owner and strictly exceed every promise met |
| `Ballots.LeadersNeverShareBallot` | src_tree/fds/lib/ring_paxos/lib/util.c:70-112 | Two leaders never use the same ballot, however often each raises its own |
| `AcceptorFacts.HandleKeeps` | src_tree/fds/lib/ring_paxos/ring-paxos/acceptor_helpers.c:28-364 | Any message keeps the record invariant, and no promise or acceptance moves down |
| `AcceptorFacts.RangeIsPerInstance` | src_tree/fds/lib/ring_paxos/ring-paxos/acceptor_helpers.c:95-149 | Granting a range above everything seen equals running the single-instance handler on each instance: same success, same acceptor, same promises |
| `AcceptorFacts.VoteKeepsRecord` | src_tree/fds/lib/ring_paxos/ring-paxos/acceptor_helpers.c:166-260 | Accepting stores the command mapped to the key; accepted and proposed keys stay different |
| `AcceptorLaws.MappedIsAcceptable` | src_tree/fds/lib/ring_paxos/ring-paxos/acceptor_helpers.c:270-364 | After a mapping, in any state an acceptor can be in: the keys it accepts for the instance are exactly the mapped key and the key it accepted last, at exactly the ballots from its promise on, which the mapping leaves alone |
| `AcceptorLaws.MappedIsAccepted` | src_tree/fds/lib/ring_paxos/ring-paxos/acceptor_helpers.c:152-268 | Phase 2 with the mapped key is then accepted and forwarded with one accept more; what is accepted is the command stored for the key, byte for byte the mapped one if the key is new |
| `AcceptorLaws.MapAbortsIff` | src_tree/fds/lib/ring_paxos/ring-paxos/acceptor_helpers.c:281-362 | A mapping stops the acceptor exactly when its slot was reused, or it repeats a known key with different text, or a third key comes with the text of the waiting one |
| `AcceptorLaws.SameTextIff` | src_tree/fds/lib/ring_paxos/ring-paxos/acceptor_helpers.c:295-345 | The text comparison of commands looks at nothing after the first NUL byte |
| `AcceptorLaws.PromiseIsKept` | src_tree/fds/lib/ring_paxos/ring-paxos/acceptor_helpers.c:28-93 | A phase 1 message is granted exactly when its ballot is not below the promise; afterwards every lower ballot is refused in both phases, and the refusal names the promise |
| `AcceptorLaws.AcceptedIsReported` | src_tree/fds/lib/ring_paxos/ring-paxos/acceptor_helpers.c:55-72 | What was accepted is reported to every later phase 1 message that has not met an acceptance at the same or a higher ballot |
| `AcceptorLaws.RangeAnswer` | src_tree/fds/lib/ring_paxos/ring-paxos/acceptor_helpers.c:95-149 | A range above everything seen is granted as one; otherwise it is broken down into one answer an instance |
| `AcceptorLaws.BreakAnswers` | src_tree/fds/lib/ring_paxos/ring-paxos/acceptor_helpers.c:120-149 | Each of these is the answer of the single-instance handler to the record before |
| `AcceptorLaws.OthersKept` | src_tree/fds/lib/ring_paxos/ring-paxos/acceptor_helpers.c:28-364 | A message on one instance changes no other slot |
| `AcceptorLaws.RoundTells` | src_tree/fds/lib/ring_paxos/ring-paxos/acceptor_helpers.c:37-72 | After a trip past any acceptors a phase 1 message tells how many granted it, the highest promise of those that refused, and the acceptance at the highest ballot of those that granted |
| `AcceptorLaws.SecondRoundIsGranted` | src_tree/fds/lib/ring_paxos/lib/util.c:87-95 | The ballot raised over what a refused message tells is granted by every acceptor of the ring, if none has moved in between and the sequence number does not wrap |
| `RingAcceptors.RingAcceptor.GetRecord` | src_tree/fds/lib/ring_paxos/lib/stable_storage_1.c:90-118 | The circular store: what is returned, reused, refused; a reused record loses exactly the buffer it owned |
| `RingAcceptors.RingAcceptor.HandlePhase1Msg` | src_tree/fds/lib/ring_paxos/ring-paxos/acceptor_helpers.c:28-93 | Promise or refusal, the forwarded message, and exactly which buffers become stale or lost |
| `RingAcceptors.RingAcceptor.HandlePhase1RangeMsg` | src_tree/fds/lib/ring_paxos/ring-paxos/acceptor_helpers.c:95-149 | Range promise or break-down, and exactly which buffers become stale or lost |
| `RingAcceptors.RingAcceptor.HandlePhase2Msg` | src_tree/fds/lib/ring_paxos/ring-paxos/acceptor_helpers.c:152-268 | Accepting with slot and heap buffers (edges A1-A8): refines the specification, and frees an unallocated buffer exactly when a record that took edge A8 accepts its command again |
| `RingAcceptors.RingAcceptor.HandleCmdMapMsg` | src_tree/fds/lib/ring_paxos/ring-paxos/acceptor_helpers.c:270-364 | Storing mappings with slot and heap buffers (edges M1-M8): refines the specification, and the exact condition of a double free |
| `RingAcceptors.RingAcceptor.AcceptOther` | src_tree/fds/lib/ring_paxos/ring-paxos/acceptor_helpers.c:236-252 | Edge A8: the command is replaced, the buffer freed, and the record left stale |
| `RingAcceptors.RingAcceptor.AcceptAgain` | src_tree/fds/lib/ring_paxos/ring-paxos/acceptor_helpers.c:199-216 | Edges A4 and A6: the second mapping is dropped; a fault exactly on a stale record |
| `RingAcceptors.RingAcceptor.ReplaceSecond` | src_tree/fds/lib/ring_paxos/ring-paxos/acceptor_helpers.c:351-362 | Edge M8: only the latest second mapping is kept |
| `AcceptorStore.UpdateOne` | src_tree/fds/lib/ring_paxos/ring-paxos/acceptor_helpers.c:281-362 | Changing one record and its buffer leaves every other record and buffer as it was |
| `AcceptorStore.LostAfter` | src_tree/fds/lib/ring_paxos/lib/stable_storage_1.c:104-108 | A buffer is lost exactly when its record stops pointing to it while it is allocated |
| `AcceptorMemory.DoubleFree` | src_tree/fds/lib/ring_paxos/ring-paxos/acceptor_helpers.c:249-251 | For all keys, values and ballots: two commands accepted in turn and the second phase 2 message repeated free one buffer twice |
| `AcceptorMemory.OneLeaderNeverReplaces` | src_tree/fds/lib/ring_paxos/ring-paxos/acceptor_helpers.c:236-252 | With one leader edge A8 is never taken |
| `AcceptorMemory.Serve` | src_tree/fds/lib/ring_paxos/ring-paxos/acceptor_helpers.c:28-364 | With one leader an acceptor without buffers handles any true message without a fault, aborts exactly when the specification does, and has no buffer allocated, lost or stale afterwards |
| `AcceptorMemory.ServeRun` | src_tree/fds/lib/ring_paxos/ring-paxos/acceptor_helpers.c:28-364 | A fresh acceptor handed any messages of any run with one leader, in any order and number: never a double free, never a buffer allocated or lost |
| `DeliverySpec.DeliverLoopRun` | src_tree/fds/lib/ring_paxos/lib/delivery_queue.c:216-238 | The loop delivers the longest deliverable run at the head, in order, and nothing else, and leaves the head undeliverable |
| `DeliverySpec.LogIsChosen` | src_tree/fds/lib/ring_paxos/lib/delivery_queue.c:240-412 | Whatever true messages arrive, the log is the chosen commands of instances 1, 2, 3, ..., each once, and no assertion fails |
| `DeliverySpec.HandleTrue` | src_tree/fds/lib/ring_paxos/lib/delivery_queue.c:240-412 | One message: no assertion fails and what is delivered is the chosen command |
| `DeliverySpec.MapThenAcceptance` | src_tree/fds/lib/ring_paxos/lib/delivery_queue.c:379-388 | Mapping then acceptance always delivers the head |
| `DeliverySpec.AcceptanceThenMap` | src_tree/fds/lib/ring_paxos/lib/delivery_queue.c:389-398 | Acceptance then mapping delivers the head exactly when no mapping of another key was waiting: edge A3 forgets that the key is final |
| `DeliveryLaws.MappingTeaches` | src_tree/fds/lib/ring_paxos/lib/delivery_queue.c:240-337 | A mapping of an instance after the delivered ones and less than the queue size beyond them is remembered, the last one if several come, unless another key is known to be chosen; nothing else is forgotten |
| `DeliveryLaws.AcceptanceTeaches` | src_tree/fds/lib/ring_paxos/lib/delivery_queue.c:339-412 | An acceptance in those bounds is remembered, except that a mapping of another key makes the queue forget both (edge A3) |
| `DeliveryLaws.DeliversExactly` | src_tree/fds/lib/ring_paxos/lib/delivery_queue.c:216-412 | Over any true messages, when every instance has one key: instances 1 to n are delivered exactly when the mapping and the acceptance of each arrived within those bounds |
| `DeliveryQueues.DeliveryQueue.GetEntry` | src_tree/fds/lib/ring_paxos/lib/delivery_queue.c:75-87 | The slot of an instance of the window is its own or unused |
| `DeliveryQueues.DeliveryQueue.DeliverAll` | src_tree/fds/lib/ring_paxos/lib/delivery_queue.c:216-238 | The while loop refines the specification and ends |
| `DeliveryQueues.DeliveryQueue.HandleMapping` | src_tree/fds/lib/ring_paxos/lib/delivery_queue.c:240-337 | Handler of a mapping, on the circular arrays, against its specification |
| `DeliveryQueues.DeliveryQueue.HandleChosen` | src_tree/fds/lib/ring_paxos/lib/delivery_queue.c:339-412 | Handler of an acceptance, on the circular arrays, against its specification |
| `DeliveryQueues.DeliveryQueue.PeriodicCheck` | src_tree/fds/lib/ring_paxos/lib/delivery_queue.c:98-159 | Exactly which instances are asked for again, never one beyond what was heard of |
| `LearnerSpec.LastBallotDecides` | src_tree/fds/lib/paxos2/lib/learner.c:161-206 | Looking at the last stored ballot alone finds a quorum or a final ack exactly when any ballot has one |
| `LearnerSpec.HandleKeeps` | src_tree/fds/lib/paxos2/lib/learner.c:292-334 | After any ack every instance is closed exactly when its acks decide it, and the window and log invariants hold |
| `LearnerSpec.DeliverKeeps` | src_tree/fds/lib/paxos2/lib/learner.c:210-234 | The loop delivers the closed head run in order |
| `LearnerRuns.DeliversInOrder` | src_tree/fds/lib/paxos2/lib/learner.c:208-334 | For any ack sequence: instances 1, 2, 3, ... delivered once each, each with a received ack whose ballot has a quorum of distinct acceptors or a final ack |
| `LearnerRuns.ClosedExactly` | src_tree/fds/lib/paxos2/lib/learner.c:161-206 | Closed exactly when some ballot has a quorum of stored acks or a final ack is stored; the next instance never is |
| `LearnerRuns.ClosedIsFinal` | src_tree/fds/lib/paxos2/lib/learner.c:116-234 | Once an instance is closed, whatever acks follow, it keeps its final value until it is delivered, and it is delivered with it |
| `LearnerLaws.LatestIsHighest` | src_tree/fds/lib/paxos2/lib/learner.c:116-156 | The latest ack heard from an acceptor while the instance was in the window has the highest ballot of all heard then |
| `LearnerLaws.StoredIsLatest` | src_tree/fds/lib/paxos2/lib/learner.c:116-156 | Over any ack sequence: while an instance is open, what is stored for each acceptor is that ack |
| `LearnerLaws.QuorumCloses` | src_tree/fds/lib/paxos2/lib/learner.c:161-206 | Over any ack sequence: once the latest acks of a quorum share a ballot, or one of them is final, the instance is closed or delivered |
| `LearnerLaws.ClosingAck` | src_tree/fds/lib/paxos2/lib/learner.c:161-206 | Which ack an instance is closed with: the first final one of the ballot, or else the last one |
| `LearnerRuns.LearnersAgree` | src_tree/fds/lib/paxos2/lib/learner.c:208-334 | Learners of one history deliver the same value for each instance, if decided ballots carry one value |
| `LpLearners.LpLearner.HandleAcceptAck` | src_tree/fds/lib/paxos2/lib/learner.c:292-334 | The handler on the circular array refines the specification |
| `LpLearners.LpLearner.UpdateState` | src_tree/fds/lib/paxos2/lib/learner.c:116-156 | Which acks are stored and which dropped |
| `LpLearners.LpLearner.CheckQuorum` | src_tree/fds/lib/paxos2/lib/learner.c:161-206 | The counting loop finds the closing ack |
| `LpLearners.LpLearner.DeliverNextClosed` | src_tree/fds/lib/paxos2/lib/learner.c:210-234 | The deliver loop and its assertion |
| `LpLearners.LpLearner.IsClosed` | src_tree/fds/lib/paxos2/lib/learner.c:80-83 | The query used by the proposer |
| `LpLearners.LpLearner.Index` | src_tree/fds/lib/paxos2/include/libpaxos_priv.h:98 | Masking with size - 1 is the remainder by a power of two |
| `LpLearners.LpLearner.HandleAckBatch` | src_tree/fds/lib/paxos2/lib/learner.c:337-351 | A batch is its acks one after the other |
| `Framing.UdpSender.Send` | src_tree/fds/lib/ring_paxos/lib/network_udp.c:485-520 | Every message of up to MAX_MESSAGE_SIZE bytes reaches the wire once, after all earlier ones; the buffer never overflows; longer ones are refused |
| `Framing.UdpSender.ForceFlush` | src_tree/fds/lib/ring_paxos/lib/network_udp.c:453-483 | Flushing moves the buffer to one packet and changes nothing a receiver gets |
| `Framing.ReadPacket` | src_tree/fds/lib/ring_paxos/lib/network_udp.c:96-131 | The receive loop ends, its 16-bit offset never wraps, it delivers the messages of the packet, and it reads a size field that reaches beyond its buffer exactly when the packet fills the buffer and one byte is left after its whole messages |
| `Framing.WholeStaysInside` | src_tree/fds/lib/ring_paxos/lib/network_udp.c:96-131 | No packet of whole messages is read beyond the buffer |
| `Framing.OneByteTooMany` | src_tree/fds/lib/ring_paxos/lib/network_udp.c:106 | A message of 8979 bytes followed by one more byte is, whatever the bytes |
| `Framing.AddFrame` | src_tree/fds/lib/ring_paxos/lib/network_udp.c:505-514 | Appending a framed message appends exactly that message to what is parsed, whatever the padding |
| `Framing.LongestPrefix` | src_tree/fds/lib/ring_paxos/lib/network_udp.c:85-91 | Of a corrupted packet exactly the messages of the longest whole prefix are delivered |
| `Framing.EncodeRoundTrip` | src_tree/fds/lib/ring_paxos/lib/network_udp.c:505-511 | Parsing a framed message gives its type and bytes back |
| `Framing.Layout` | src_tree/fds/lib/ring_paxos/lib/network_udp.c:505-511 | Where size, type and bytes of a message are in its frame |
| `Deques.Deque.Pop` | src_tree/fds/lib/ring_paxos/lib/queue.c:46-65 | Removes the first element |
| `Deques.Deque.Append` | src_tree/fds/lib/ring_paxos/lib/queue.c:100-131 | Adds at the end exactly when a place is free and the byte limit is kept |
| `Deques.Deque.Prepend` | src_tree/fds/lib/ring_paxos/lib/queue.c:67-98 | Adds in front; drops the last element exactly when full |
| `Deques.Deque.DiscardLast` | src_tree/fds/lib/ring_paxos/lib/queue.c:133-155 | Removes the last element |
| `Deques.Deque.WriteIndexIsMod` | src_tree/fds/lib/ring_paxos/lib/queue.c:46-155 | In every state the write index is read index plus count modulo the length |
| `MemoryPools.MemoryPool.constructor` | src_tree/fds/lib/ring_paxos/lib/memory_pool.c:19-47 | All chunks are free, equally spaced, each queued once |
| `MemoryPools.MemoryPool.Alloc` | src_tree/fds/lib/ring_paxos/lib/memory_pool.c:59-71 | Returns a chunk of the pool that is not outstanding |
| `MemoryPools.MemoryPool.Free` | src_tree/fds/lib/ring_paxos/lib/memory_pool.c:73-83 | Returning an outstanding chunk never takes the dropping branch of the queue |
| `MemoryPools.FillsIff` | src_tree/fds/lib/ring_paxos/lib/memory_pool.c:38-42 | Filling the pool succeeds exactly when its total size is within the queue's byte limit |
| `MemoryPools.CountPooled` | src_tree/fds/lib/ring_paxos/lib/memory_pool.c:59-83 | Free and outstanding chunks are together as many as the pool has |
| `CityMixers.ShiftMixTwice` | src_tree/fds/lib/cityhash-1.1.0/src/city.cc:237-239 | ShiftMix is its own inverse |
| `CityMixers.RotateInverse` | src_tree/fds/lib/cityhash-1.1.0/src/city.cc:232-235 | A rotation is undone by the complementary rotation |
| `CityMixers.Rotate32Inverse` | src_tree/fds/lib/cityhash-1.1.0/src/city.cc:113-116 | The same on 32 bits |
| `CityMixers.FmixIsBijection` | src_tree/fds/lib/cityhash-1.1.0/src/city.cc:103-111 | fmix is a bijection, with its inverse |
| `CityMixers.MurInjective` | src_tree/fds/lib/cityhash-1.1.0/src/city.cc:121-129 | Mur loses nothing of either argument while the other is fixed |
| `CityMixers.HashLen16Injective` | src_tree/fds/lib/cityhash-1.1.0/src/city.cc:245-253 | HashLen16 with an odd multiplier and a fixed second argument is injective in the first |
| `CityMixers.MultipliersAreOdd` | src_tree/fds/lib/cityhash-1.1.0/src/city.h:99 | The multipliers k2 + 2 * len and kMul are odd |
| `Words.OddCancel` | src_tree/fds/lib/cityhash-1.1.0/src/city.cc:245-253 | Multiplication by an odd number is injective modulo 2^n |
| `CityHash.SeedsKeepCollisions` | src_tree/fds/lib/cityhash-1.1.0/src/city.cc:380-383 | For fixed seeds the seeded hashes of two inputs are equal exactly when the unseeded ones are |
| `CityVectors64.ShortValues` | src_tree/fds/lib/cityhash-1.1.0/src/city-test.cc:61-1262 | The published 64-bit hashes of the test inputs of 1, 2, 3, 4, 7, 8 and 16 bytes |
| `CityVectors64.LongValues` | src_tree/fds/lib/cityhash-1.1.0/src/city-test.cc:61-1262 | The same for 24, 32, 40, 64 and 192 bytes |
| `CityVectors64.SeededValues` | src_tree/fds/lib/cityhash-1.1.0/src/city-test.cc:1274-1277 | The published hashes of the empty input without a seed, with one and with two |
| `CityVectors32.PublishedValues` | src_tree/fds/lib/cityhash-1.1.0/src/city-test.cc:61-1262 | The published 32-bit hashes of the test inputs of 4, 7, 8, 16, 24 and 80 bytes |
| `CityVectors128.PublishedValues` | src_tree/fds/lib/cityhash-1.1.0/src/city-test.cc:61-1262 | The published 128-bit hashes of the test inputs of 5, 16 and 24 bytes, and those with the test seed of 16, 48, 128 and 192 bytes |
| `CityValues.XorIs` | src_tree/fds/lib/cityhash-1.1.0/src/city.cc:237-239 | Exclusive or on numbers, as all hash functions here use it, is that of 64-bit machine words, for all words |
| `CityHash.CityHash32` | src_tree/fds/lib/cityhash-1.1.0/src/city.cc:161-228 | The 20-byte loop computes the chunk-wise hash and reads inside the input for every length |
| `CityHash.CityHash64` | src_tree/fds/lib/cityhash-1.1.0/src/city.cc:338-374 | The 64-byte loop computes the chunk-wise hash and reads inside the input for every length |
| `CityHash.CityHash64WithSeeds` | src_tree/fds/lib/cityhash-1.1.0/src/city.cc:380-383 | The seeded hash and its collisions |
| `CityHash.CityMurmur` | src_tree/fds/lib/cityhash-1.1.0/src/city.cc:387-415 | The 16-byte loop, reads inside the input for every length |
| `CityHash.CityHash128WithSeed` | src_tree/fds/lib/cityhash-1.1.0/src/city.cc:417-478 | The unrolled loop is 2 * (len / 128) rounds of the 64-byte loop, and the tail reads stay inside the input |
| `CityHash.TwoChunks` | src_tree/fds/lib/cityhash-1.1.0/src/city.cc:434-454 | One round of the unrolled loop is two steps of the 64-byte loop |
| `CityHash.MixTail` | src_tree/fds/lib/cityhash-1.1.0/src/city.cc:461-470 | The tail loop takes 32-byte pieces from the end |
| `CityHash.FirstBytesAreTheSeed` | src_tree/fds/lib/cityhash-1.1.0/src/city.cc:480-485 | The seed loses nothing of the first 16 bytes: the seeds of two inputs are equal exactly when those bytes are; inputs that agree on them collide exactly when what follows collides under that seed |

## Left out

- libpaxos2's acceptor and proposer: they depart from Paxos in several places (the accept guard of `acceptor.c:46-51` is inverted against its own comment), so agreement would be about different code.
- Sockets, libevent, threads, Berkeley DB, logging, counters, statistics and configuration parsing.
- Wall-clock time: timeouts and "not sent too recently" are free choices, and no retransmission rate is claimed.
- The late-start hack of the delivery queue (`delivery_queue.c:68-72`), the learner's and topology's stubs, failed sends, simulated message loss.
- The libpaxos2 hole check (`learner.c:236-284`), which only sends requests.
- The SSE4.2 variants of CityHash, example clients and tests.
- Instance numbers are unbounded; the program's 64-bit counters, and the 32-bit loop variables of `acceptor_helpers_mcaster.c:161` and `:333`, are not modelled.
- In the many-leader system a leader's records are kept for ever and client values come from anywhere: its window, its circular store and its queue are in the single-leader system only.
- In both system models acceptors, leaders and learners are values; the classes are proved against the same functions.
- LeaderInv.HandlePhase1RangeKeeps: assumes that the range is not beyond the phase-1 bound; TotalOrderRuns.RunKeeps proves it of every message.
- LeaderInv.HandlePhase1Keeps: assumes that the instance is not beyond the phase-1 bound; TotalOrderRuns.RunKeeps proves it of every message.
- LeaderInv.HandlePhase2Keeps: assumes that the instance is not beyond the phase-1 bound; TotalOrderRuns.RunKeeps proves it of every message.
- Multicasters.Multicaster.HandlePhase2Msg: assumes the leader's invariant, because the closing loop relies on it; it holds in every run (TotalOrderRuns.RunKeeps).
- AgreementRuns.AgreementInRuns: excludes the two leader branches that break agreement; AgreementGuards.CodedRunExactly says exactly which runs of the program that leaves.
- LearnerRuns.LearnersAgree: assumes that decided ballots carry one value, which is up to acceptors and proposers.
- ProgressLimits.ProgressIff: says that a continuation exists, not that the network provides it. A learner that misses an instance whose record the leader has reused needs a broadcast from before, because the program has no other way to it (Announcements.AskedAgain).
