# A verified model of the agent bridge

Two or more agents on different machines exchange messages through a broker. Each
node keeps an SQLite database with an outbox, an inbox, authorization requests,
grants and consultation runs; a bridge worker moves messages between the database
and the broker; a coordinator answers consultation requests in rounds and may
consult back. This project models that engine in Dafny and proves what it promises
over every run.

How it is put together:

- **Tables and operations.** `Envelopes`, `Tables`, `OutboxTable`, `InboxTable`,
  `Approvals`, `Settlement`, `RunTable` define the rows and, for each transaction,
  a total function from the tables before to the tables after. `Operations` collects
  them as steps (`Op`, `Step`, `Run`) and proves the invariant (`DatabaseOk`) of every
  run. `Guarantees`, `Fencing`, `AuditTrail`, `History` and `Decisions` derive what the
  invariant means; `OutboxOutcomes`, `InboxOutcomes`, `ApprovalOutcomes` and `TurnOutcomes`
  say for each operation, in plain states and columns of the old and the new rows, what it may
  do, and `Ledgers` what the audit amounts to over runs.
- **Exceptions.** `Counterexamples` holds, for each property one might expect and the code
  does not have, a concrete input (the one about files is in `Journals`); the theorem that
  says when it happens is cited there.
- **Imperative code.** `BridgeDatabases.BridgeDatabase` (the database object),
  `Worker.BridgeWorker`, `Coordinators.Coordinator`, `Services.AgentBridgeService`,
  `Journals.ArtifactStore`, `Journals.RuntimeSettings` and
  `Enrollments.OnboardingStore` are classes whose methods follow the source statement
  by statement and are proved equal to those functions; a transaction that throws
  rolls back. Every public method of the database, the worker and the coordinator requires
  the invariant of the tables and re-establishes it.
- **Several nodes.** `Transport` is what travels: signed messages with broker metadata and a
  time to live, and the checks on arrival. `Network` and `Delivering` put any number of
  databases and worker processes around a broker that redelivers, reorders, expires and
  dead-letters, with a crash between any two worker actions. Anyone may put anything on the
  topic: replays of signed messages, with other metadata or changed content, under any id
  that is not a node's own unsent one.
- **Consultations.** `Consultations`, `ConsultationProgress`, `Lifetimes`, `Nesting`,
  `Evidence`, and `Exchanges` for a question and its answer across two nodes.
- **Files and wire.** `Journals`, `Enrollments`, `CanonicalJson`, `WireJson`,
  `MessageAuthentication`, `Conversations`.

Modelling decisions:

- Times are integers (milliseconds); the source compares ISO strings, which is the
  same for canonical UTC. Random ids and tokens, the clock, the executor's and the
  provider's results and the transport's answers are parameters.
- Hashes and signatures are ideal: a hash is the value it was computed from, a
  signature its secret and the text that was signed. In JSON a hash, a key id and a time
  stand for texts that determine them. `hashAuthorizationValue` separates its parts with
  NUL; the parts are taken not to contain it, so the hash is the tuple of its parts.
- The schemas trim project names; where a theorem speaks of the project of a run, it is trimmed.
- Lower-casing is that of the ASCII letters; Dafny characters stand for code points,
  except in `CanonicalJson`, which works on UTF-16 code units (`WireJson.Utf16`).
- A node's authorized peers are nodes of the network, each with a subscription of its
  own (the broker drops what no subscription matches). Memberships name each node's own
  key, one for each node; message ids and claim tokens are random and never repeat.
- `Lifetimes` speaks of coordinators that share one policy and save once for each claim.
  A save checks the run's version but no claim. One that comes after its claim has lapsed can
  move the next attempt after another process has claimed the message, so that one more turn
  is taken too early; the bound on saves counts such late saves. (The lease is at least 720
  seconds and a child runs for at most 600.)

What the code does where one might expect something else. Each point names the theorem that
says exactly when, and an input on which it happens:

- Revoking a grant ends the pair's temporary approvals only. A one-time approval that
  was given before still authorizes its message afterwards, and so does a consumed one
  whose consultation has started (`Decisions.RevocationLeavesOneTimeApprovals`,
  `Counterexamples.RevokedPeerIsServed`).
- Merging evidence throws a schema error when the merged bundle is too large, has too
  many items, or holds two paths that differ only in the direction of a slash: the merge
  keys on the lower-cased path, the contract also on normalized slashes. The providers emit
  normalized paths, and for those only the two size limits can break
  (`Evidence.NormalizedMergeIsValidIffSmall`). The coordinator does not turn that error into
  a failed run, so such a run ends by its deadline (`Evidence.MergedBundleIsValidIffItFits`,
  `Counterexamples.SeventeenthItemThrows`).
- Recovery of an interrupted settings write refuses, and keeps refusing, exactly where
  `Journals.RefusedAfter` says: the journal itself was torn; a replaced file was moved away
  and neither the new one installed nor the old one put back; or a file is created and the
  one found there is neither the requested one nor one that carries its recorded hash (the
  first write of a new file was torn, a recorded file is missing, or another file was there
  before). The last needs no crash: the dispatcher's project registry is created without a
  check of its recorded hash (`Journals.FailedWriteIsRefusedIff`,
  `Journals.UnrecordedRegistryIsRefused`). As reading the settings recovers the registry
  first, they cannot be read or changed from then on
  (`Journals.RuntimeSettings.ConfigureDispatcher`).
- A follow-up's number need not be the largest of its thread. After a numbered turn, as
  every reply the service builds is, it always is. After an unnumbered one, let none of the
  last hundred turns be numbered. The number computed is then 0, and the follow-up would be a
  root: it is refused if the conversation has a root of this node already, as every one opened
  by `askAgent` has. Otherwise it is accepted, and lies below the earlier numbers if there are
  any (`Services.FollowUpOutcome`, `Services.OwnThreadsNeverRepeat`,
  `Counterexamples.FollowUpFallsBehind`).
- When a settlement finds an earlier reply that is the same operation, it adopts it without
  comparing conversations; only the path that falls back after a conflict compares them
  (`Settlement.SettledConversationIff`, `Counterexamples.ReplyElsewhereIsAdopted`).
- A run that is completed but not yet settled becomes failed, exactly when its deadline
  passes first (`Consultations.CompletedRunFailsIff`,
  `Counterexamples.AnsweredTooLateIsRejected`).
- `processed` and `rejected` are not absorbing: a valid delivery with the id and origin of
  such a row but another content quarantines it, and nothing else changes its state
  (`Guarantees.SettledStateChangesIff`, `Counterexamples.ProcessedIsQuarantined`). The claim
  columns stay. A quarantined row becomes available again exactly by a decision on the
  request with its id, or its revocation (`Guarantees.QuarantineEndsIff`). Fencing is
  therefore stated about tokens, not states.

## Model

| member | source | states |
|---|---|---|
| BridgeDatabases.BridgeDatabase.EnqueueEnvelopeRow | src/storage/database.ts:1539-1630 | the insert, the root check, the idempotency check and its three refusals, as one outcome |
| BridgeDatabases.BridgeDatabase.LeaseOutbox | src/storage/database.ts:1828-1893 | reopens, expires and leases due rows in place; hands out exactly the messages of the rows it leased, oldest first, with the number of the attempt |
| BridgeDatabases.BridgeDatabase.MarkOutboxSent | src/storage/database.ts:1895-1917 | succeeds exactly for the lease owner, whatever the lease's time |
| BridgeDatabases.BridgeDatabase.ReleaseOutboxLease | src/storage/database.ts:1919-1950 | back to pending with one more attempt, only by the lease owner |
| BridgeDatabases.BridgeDatabase.QuarantineOutbox | src/storage/database.ts:1952-1980 | quarantined with one more attempt, only by the lease owner |
| BridgeDatabases.BridgeDatabase.PersistIncoming | src/storage/database.ts:1982-2094 | insert, duplicate, same-origin collision (quarantines) and foreign collision (untouched) |
| BridgeDatabases.BridgeDatabase.ClaimInboxWhere | src/storage/database.ts:2174-2260 | lapsed claims are freed, the oldest matching rows claimed, each with its own token; hands out exactly those messages |
| BridgeDatabases.BridgeDatabase.RenewClaim | src/storage/database.ts:2262-2294 | extends only a live claim presented with its token |
| BridgeDatabases.BridgeDatabase.Acknowledge | src/storage/database.ts:2296-2358 | settles or releases a live claim; repeating a terminal outcome succeeds without a change |
| BridgeDatabases.BridgeDatabase.SettleInboxWithReply | src/storage/database.ts:1659-1826 | reply and settlement happen together or not at all, with the fallback to an earlier reply; the state stored is the one asked for and the one answered |
| BridgeDatabases.BridgeDatabase.AuthorizeClaimedResourceAccess | src/storage/database.ts:738-952 | the whole access decision with its writes and audit entries; an invalid claim rolls back even the expiry sweep |
| BridgeDatabases.BridgeDatabase.ExpireAuthorizationRequests | src/storage/database.ts:1213-1257 | every lapsed temporary approval expires and gets one audit entry, in id order |
| BridgeDatabases.BridgeDatabase.DecideAuthorizationRequest | src/storage/database.ts:987-1037 | approving for a limited time is refused when that time has passed; deciding, auditing and requeueing |
| BridgeDatabases.BridgeDatabase.RevokeAuthorizationRequest | src/storage/database.ts:1039-1091 | revokes active approvals only, audits and requeues; repeating is harmless |
| BridgeDatabases.BridgeDatabase.RevokePeerResource | src/storage/database.ts:644-710 | the grant and all the pair's temporary approvals go, one audit entry each |
| BridgeDatabases.BridgeDatabase.GrantPeerResource | src/storage/database.ts:578-613 | grants only registered resources |
| BridgeDatabases.BridgeDatabase.RegisterResource | src/storage/database.ts:514-534 | registers once, enabled; the id is trimmed and lower-cased |
| BridgeDatabases.BridgeDatabase.EnsureConsultationRun | src/storage/database.ts:1440-1484 | creates a run once; the stored run must have the same identity |
| BridgeDatabases.BridgeDatabase.SaveConsultationRun | src/storage/database.ts:1486-1526 | saves only a valid run on the version it was computed from |
| BridgeDatabases.BridgeDatabase.MethodsKeepValid | src/storage/database.ts:247-260 | what one operation does keeps the invariant; every public method requires and ensures it through this |
| Text.ResourceIsNormal | src/contracts/resource-authorization.ts:3-14 | which names are resource ids, and that every spelling of one leads to the same id |
| Operations.StepKeeps | src/storage/database.ts:514-2358 | every operation keeps the invariant; accepted and received messages are never dropped or altered |
| Operations.EveryRunIsOk | src/storage/database.ts:514-2358 | the invariant holds after every sequence of operations |
| OutboxTable.EnqueueIsFirstWriter | src/storage/database.ts:1539-1630 | enqueueing refines a first-writer-wins map from target and key to envelope |
| OutboxTable.LeasePicksDueRows | src/storage/database.ts:1857-1867 | only due, unexpired rows are leased, each once, within the limit |
| OutboxTable.LeaseTakesOldestFirst | src/storage/database.ts:1857-1867 | a due row is left only when the limit is used up by older ones |
| InboxTable.ClaimPicksClaimableRows | src/storage/database.ts:2206-2224 | only matching available rows are claimed, each once, within the limit |
| InboxTable.ClaimTakesOldestFirst | src/storage/database.ts:2206-2224 | a claimable row is left only when the limit is used up by earlier arrivals |
| InboxTable.ClaimRowsPointwise | src/storage/database.ts:2236-2256 | the k-th row gets the k-th token; all other rows are untouched |
| OutboxOutcomes.EnqueueOutcome | src/storage/database.ts:1539-1630 | the row stored for a new message, the answer for one whose key is taken by the same message up to what each attempt chooses anew, and all refusals |
| OutboxOutcomes.LeaseIsRight | src/storage/database.ts:1828-1893 | from the old rows alone: those pending or with a lapsed lease, unexpired and due, are leased to the owner until the given time, oldest first up to the limit; every other row expires, is freed or stays |
| OutboxOutcomes.SettlingOutcome | src/storage/database.ts:1895-1980 | the whole new row of a message sent, released or quarantined by its lease owner; nothing for anybody else |
| InboxOutcomes.PersistOutcome | src/storage/database.ts:1982-2094 | the whole new row of a first, a repeated and a colliding delivery |
| InboxOutcomes.ClaimIsRight | src/storage/database.ts:2174-2260 | from the old rows alone: free messages that the consumer wants are claimed in order of arrival up to the limit, each under its token; every other row is freed or stays |
| InboxOutcomes.ClaimIsHeldIff | src/storage/database.ts:2236-2294 | a claim handed out is held by that consumer, with that token, until its time is up, and by nobody else |
| InboxOutcomes.AcknowledgeOutcome | src/storage/database.ts:2296-2358 | the state and the columns each acknowledgement leaves, and when it is accepted |
| InboxOutcomes.SettleOutcome | src/storage/database.ts:1730-1822 | under a live claim the message becomes processed or rejected as asked, unclaimed, and linked to the reply: the new one, or an earlier one that may stand for it; otherwise nothing happens |
| InboxOutcomes.RepeatOutcome | src/storage/database.ts:1697-1729 | without a live claim a settlement is only ever a repetition, answered from the recorded link |
| ApprovalOutcomes.ExpiryIsRight | src/storage/database.ts:1213-1257 | exactly the temporary approvals whose time is over expire, each with one entry that names its approver, in the order of ids |
| ApprovalOutcomes.AuthorizeIsRight | src/storage/database.ts:738-952 | what each decision writes: the use of a temporary approval, the use of a one-time approval, a new request with its parked message, with every column of the audit entry; nothing otherwise |
| ApprovalOutcomes.DuplicatesAreRefused | src/storage/database.ts:831-856 | an operation that another message asked for, or with another content, is a duplicate |
| ApprovalOutcomes.DecideIsRight | src/storage/database.ts:1135-1211 | when a verdict is accepted, and the row, the entry and the requeued message it leaves |
| ApprovalOutcomes.RevokeIsRight | src/storage/database.ts:1039-1091 | when an approval can be revoked, and the row, the entry and the requeued message that leaves |
| ApprovalOutcomes.RevokeGrantIsRight | src/storage/database.ts:644-710 | the grant ends, every temporary approval of the pair is revoked by this actor, one entry each |
| Ledgers.UseIsEntered | src/storage/database.ts:801-830 | an answer from an approval adds one event to that approval, with actor, peer, resource and time |
| Ledgers.AuditCountsAnswers | src/storage/database.ts:816-945 | over runs: an approval has as many "temporary_used" events as answers were given from it; likewise "consumed" and "requested" |
| Ledgers.AuditDescribesRequests | src/storage/database.ts:1345-1373 | over runs: each entry names the peer and resource of its request, and entries stand in the order of their times |
| TurnOutcomes.EnsureOutcome | src/storage/database.ts:1440-1484 | when a run is created, found or refused, with the fields that must agree written out |
| TurnOutcomes.SaveOutcome | src/storage/database.ts:1486-1526 | exactly when a run is saved, and under which version |
| Guarantees.PromisesAreKept | src/storage/database.ts:1539-1630 | an accepted envelope stays accepted for its target and key in every run |
| Guarantees.FinalRowsStay | src/storage/database.ts:1828-1980 | sent, quarantined and expired outbox rows never change again |
| Guarantees.SettledStateChangesIff | src/storage/database.ts:1982-2094 | a processed or rejected row changes its state in a step exactly when a valid delivery of the same id and origin differs from it |
| Guarantees.SettledStays | src/storage/database.ts:1982-2094 | through a run without such a delivery the state stays |
| Guarantees.QuarantineEndsIff | src/storage/database.ts:987-1091 | a quarantined row becomes available exactly by a decision or revocation that takes effect on its own request |
| Guarantees.OneRootPerConversation | src/storage/database.ts:1543-1572 | each conversation has at most one coordination root |
| Guarantees.ClaimColumnsMatch | src/storage/database.ts:2174-2358 | claimed rows have all claim columns; available, processed and rejected rows none |
| Guarantees.PendingIsParked | src/storage/database.ts:1259-1300 | a pending request's message is quarantined, unclaimed and cannot be claimed |
| Guarantees.AuditIsTheHistory | src/storage/database.ts:1345-1373 | each request's audit is a word of the language and replays to the row's state |
| Guarantees.ResultsAreSound | src/storage/database.ts:1741-1812 | a recorded result is an outbox row with that key and hash, on its way to the sender |
| Guarantees.SettlingAgainIsStable | src/storage/database.ts:1697-1729 | the inconsistent-metadata error cannot arise from service calls; repeating a settlement changes nothing |
| Settlement.RepeatedSettleIsStable | src/storage/database.ts:1697-1729 | the same, for any state with sound result links |
| Settlement.SettledConversationIff | src/storage/database.ts:1730-1812 | the recorded reply stands in the requested conversation exactly when the same operation is not in the outbox in another one |
| AuditTrail.ReplayAcceptsTheLanguage | src/storage/database.ts:815-885 | the replay automaton accepts exactly the words of the audit language |
| AuditTrail.ConsumedOnce | src/storage/database.ts:857-898 | a one-time approval is consumed at most once |
| Fencing.EndedClaimChangesNothing | src/storage/database.ts:2262-2358 | once a claim has ended, no operation presenting its token changes anything, in any later run |
| Fencing.NothingRevives | src/storage/database.ts:2174-2358 | no operation but drawing the token anew makes a dead claim live |
| Fencing.EndingOperationEnds | src/storage/database.ts:1259-1288 | settling, acknowledging, parking and a same-origin collision end a claim |
| Fencing.LiveClaimIsNotTakenOver | src/storage/database.ts:2189-2224 | a message is never claimed while a claim on it is live |
| Approvals.ServingLastsLongest | src/storage/database.ts:801-830 | the temporary approval that serves is one that lasts longest |
| History.StepExplained | src/storage/database.ts:514-1300 | each operation switches each fact exactly as the event it emits says |
| Decisions.RunAgrees | src/storage/database.ts:514-1300 | after every run the tables and the event history hold the same facts |
| Decisions.DecisionFollowsHistory | src/storage/database.ts:738-952 | the decision for a live claim is the one computed from history and clock alone |
| Decisions.TemporaryServesItsPairOnly | src/storage/database.ts:801-830 | a temporary approval serves its peer and resource, before its end, not after revocation |
| Decisions.OneTimeApprovalServesOnce | src/storage/database.ts:857-898 | one request yields the basis approve_once at most once |
| Decisions.ParkedAtMostOnce | src/storage/database.ts:918-950 | a message is parked for approval at most once |
| Decisions.RevocationLeavesOneTimeApprovals | src/storage/database.ts:644-710 | after a revocation exactly the pair's one-time approvals, fresh or in recovery, still authorize |
| Decisions.UnreachableCases | src/storage/database.ts:843-916 | the pending case, the fingerprint mismatch and the temporary case of the switch are never reached |
| Envelopes.KindsDecide | src/contracts/envelope.ts:113-260 | what each kind of message may carry; on the coordination stream there are requests and results only |
| Envelopes.PayloadLimits | src/contracts/envelope.ts:65-88 | the limits of a payload and of a nested consultation's context |
| Envelopes.SameInboundIsEquality | src/storage/database.ts:3239-3259 | comparing payload hashes and metadata is comparing envelopes |
| Transport.AcceptedWasSigned | src/transport/service-bus-transport.ts:111-126 | under any replay, relabelling and tampering, what a node accepts is a message that a node signed, as it was signed |
| Transport.UnalteredIsHandedIff | src/transport/service-bus-transport.ts:111-126 | an unaltered message reaches the worker's inbox exactly when its origin is authorized and its signature in force |
| Transport.WireOutcome | src/transport/service-bus-transport.ts:223-250 | what the metadata of a sent message say, and how long the broker keeps it |
| Transport.ExamineOutcome | src/transport/service-bus-transport.ts:111-126 | what becomes of any delivery: not authentic, from an unauthorized origin, or handed over |
| Transport.OnlyOriginsAreRefused | src/bridge/worker.ts:128-190 | behind signature and metadata checks the worker can refuse only an unauthorized origin, never a session or target |
| Network.ActSafe | src/bridge/worker.ts:27-247 | every action of nodes, workers, broker and intruders keeps the network invariant |
| Network.GenuineNeverCollides | src/bridge/worker.ts:212-225 | a genuine message never collides with a stored one |
| Delivering.NothingIsLost | src/bridge/worker.ts:27-102 | a message marked sent is with the broker as it was sent, stored unchanged at its target, or dead-lettered as it was sent |
| Delivering.NothingIsInvented | src/bridge/worker.ts:128-247 | a received message stands unchanged in its authorized origin's outbox and was meant for this node |
| Delivering.NothingIsDuplicated | src/bridge/worker.ts:128-247 | a message id has one inbox row in the whole network |
| Delivering.ReceivedIsNotSent | src/bridge/worker.ts:128-247 | no node receives a message id of its own |
| Delivering.DeadLettersAreExplained | infra/main.bicep:33-102 | an unaltered message between nodes that authorize each other is given up only when its signature was not in force at the check, its time to live had passed, or it had been handed out ten times; never for session, target, origin or collision |
| Delivering.StoringSucceeds | src/bridge/worker.ts:182-240 | a delivery that passes the checks is always stored, inserted or as a duplicate |
| Worker.BridgeWorker.RunOutboundOnce | src/bridge/worker.ts:27-102 | each leased message ends sent, quarantined or pending again as its send went; other rows stay |
| Worker.AttemptIsRight | src/bridge/worker.ts:60-100 | the row after an attempt: sent, quarantined, or pending again after the delay |
| Worker.BridgeWorker.ProcessInboundDelivery | src/bridge/worker.ts:128-247 | completes only what is stored, refuses exactly for an objection or a collision, abandons on a storage error |
| Worker.ObjectionMeans | src/bridge/worker.ts:131-184 | which refusal a delivery meets, exactly |
| Worker.RetryDelayDoubles | src/bridge/worker.ts:291-293 | doubles from one second to 256 and stays there; the five-minute limit is never reached |
| Worker.RetryDelayGrows | src/bridge/worker.ts:291-293 | retry delays grow with the attempts between one second and five minutes |
| Consultations.FingerprintIdentifies | src/contracts/consultation.ts:170-183 | equal fingerprints mean equal requests up to case and white space |
| Consultations.FingerprintIsTheWords | src/contracts/consultation.ts:164-183 | equal fingerprints mean the same words, whatever their case and the white space around them |
| TurnOutcomes.AdmissionOutcome | src/coordination/autonomous-consultation-coordinator.ts:199-268 | exactly which requests are admitted, and every column of the run made for them |
| Consultations.AdmittedIsValid | src/coordination/autonomous-consultation-coordinator.ts:199-268 | every admitted run satisfies the schema of stored runs |
| Consultations.ReadmissionFindsTheRun | src/coordination/autonomous-consultation-coordinator.ts:243-267 | admitting a message again finds its stored run, under any policy and at any time |
| TurnOutcomes.TurnIsRight | src/coordination/autonomous-consultation-coordinator.ts:125-197 | in every state, before and after the deadline: the columns of the run a turn saves, what is sent, and how the message is settled |
| TurnOutcomes.ReplyIsFound | src/storage/database.ts:471-508 | a reply is taken exactly when an authenticated result of the task, from its target, to this node, in its conversation, is in the inbox; the one that came first is |
| TurnOutcomes.NestedRequestOutcome | src/coordination/autonomous-consultation-coordinator.ts:405-448 | every column of the request sent to the peer |
| Exchanges.AnswerReachesTheChild | src/coordination/autonomous-consultation-coordinator.ts:464-533 | across two nodes: the answer the peer's coordinator sends to a nested request is accepted by the run that asked, which goes back to its child with the answer among its evidence, if that fits |
| Exchanges.RefusalFailsTheRun | src/coordination/autonomous-consultation-coordinator.ts:482-512 | across two nodes: a peer that stopped or never started fails the run that asked |
| Consultations.TurnMoves | src/coordination/autonomous-consultation-coordinator.ts:163-533 | every turn makes one of the machine's moves or settles an ended run; past the deadline it settles |
| Consultations.CompletedRunFailsIff | src/coordination/autonomous-consultation-coordinator.ts:163-185 | a completed run is saved as failed exactly when its deadline has passed; before, it is settled with its answer |
| ConsultationProgress.MoveLowersPotential | src/coordination/autonomous-consultation-coordinator.ts:270-533 | every move of a due run lowers a number that starts finite |
| ConsultationProgress.EarlyMoveRaisesLittle | src/coordination/autonomous-consultation-coordinator.ts:270-533 | a move made before its attempt was due raises that number by less than a life's polls |
| ConsultationProgress.ConsultationClaimsAreDue | src/storage/database.ts:3159-3187 | the claim filter hands out only consultations whose next attempt is due |
| ConsultationProgress.HandledClaimProgresses | src/coordination/autonomous-consultation-coordinator.ts:163-196 | a handled claim settles its message or is released with less potential left |
| ConsultationProgress.EveryConsultationEnds | src/coordination/autonomous-consultation-coordinator.ts:270-533 | a life of due steps has a bounded number of saves, rounds never exceed the limit |
| ConsultationProgress.SavedTurnIsLifeStep | src/storage/database.ts:1486-1526 | a turn saved by the versioned update is a step of the run's life |
| Lifetimes.SavedTurnWasDue | src/storage/database.ts:3159-3187 | unless the save before came too late for its claim, a turn saved in time was due |
| Lifetimes.SavedTurnIsCurrent | src/storage/database.ts:1486-1526 | whoever saves and however late, the run a turn was computed from is the one it replaces |
| Lifetimes.ConsultationIsBounded | src/coordination/autonomous-consultation-coordinator.ts:95-197 | over any run of the database a consultation is saved at most a fixed number of times plus a multiple of the saves that came too late for their claims, and parked at most once |
| Lifetimes.CoordinatorSavesTurns | src/coordination/autonomous-consultation-coordinator.ts:163-196 | the coordinator's turn changes the runs by one versioned save of what the turn made of the run |
| Nesting.NestedRequestIsValid | src/coordination/autonomous-consultation-coordinator.ts:400-437 | every nested request is a valid envelope with a valid context |
| Nesting.NestedRequestIsAdmitted | src/coordination/autonomous-consultation-coordinator.ts:213-235 | the receiver's fingerprint check passes; only less allowed depth refuses |
| Nesting.ChainGrows | src/coordination/autonomous-consultation-coordinator.ts:386-437 | depth rises by one, max_depth never rises, ancestries have depth plus one distinct entries |
| Nesting.ChainsAreBounded | src/contracts/consultation.ts:15-50 | a chain from a root without context has at most max_depth + 1 requests |
| Nesting.ChainRequestsAreValid | src/contracts/consultation.ts:15-50 | every nested request on a chain passes the envelope and context schemas |
| Nesting.NestedKeysDiffer | src/coordination/autonomous-consultation-coordinator.ts:400-401 | different runs or rounds have different keys |
| Nesting.OneNestedRequestPerRound | src/storage/database.ts:1539-1630 | the outbox holds at most one nested request to a peer for each round of a run |
| Nesting.CrashReplayRecoversTheTask | src/application/agent-bridge-service.ts:75-118 | sending a nested request again after a crash recovers the same task and changes nothing |
| Coordinators.Coordinator.ProcessClaim | src/coordination/autonomous-consultation-coordinator.ts:125-197 | consults only about an authorized message, parks one that awaits a decision, turns any other away; the turn taken, its save, its reply and its nested request are those of the run; an error leaves at most one saved turn |
| Coordinators.Coordinator.RunOnce | src/coordination/autonomous-consultation-coordinator.ts:95-123 | claims the oldest due consultation and processes it as `ProcessClaim` says; what the claim hands out meets the premises of handling it |
| Coordinators.Coordinator.ExecuteChild | src/coordination/autonomous-consultation-coordinator.ts:270-342 | carries out the child's turn: answer, evidence request, peer request or failure, with the save and the reply that go with it |
| Coordinators.Coordinator.CollectLocalEvidence | src/coordination/autonomous-consultation-coordinator.ts:344-375 | merges the collected evidence and goes back to the child, or fails |
| Coordinators.Coordinator.AdvancePeerWait | src/coordination/autonomous-consultation-coordinator.ts:377-533 | asks the peer once per round, polls for its answer, checks it and takes it in |
| Coordinators.Coordinator.Complete | src/coordination/autonomous-consultation-coordinator.ts:535-568 | settles as processed and, unless the reply was sent before, sends the answer as completed with exactly what it cites; or leaves everything as it was |
| Coordinators.Coordinator.SettleFailure | src/coordination/autonomous-consultation-coordinator.ts:591-621 | settles as rejected with a reply that says so, or leaves everything as it was |
| Coordinators.CompletedReplyDelivers | src/coordination/autonomous-consultation-coordinator.ts:535-568 | the reply names the request as its cause, goes to its sender in its conversation, reports completion and the final answer, and cites exactly what the cited items came from |
| Coordinators.CompletedReplyIsValid | src/application/agent-bridge-service.ts:549-584 | the reply of a completed run always satisfies the envelope contract |
| Coordinators.StoppedReplyIsValid | src/application/agent-bridge-service.ts:549-584 | so does the reply of a stopped one |
| Evidence.MergeEvidence | src/coordination/autonomous-consultation-coordinator.ts:684-717 | refuses two revisions, throws on a bundle that breaks its contract, otherwise merges |
| Evidence.MergeKeepsTheContract | src/coordination/autonomous-consultation-coordinator.ts:684-717 | a merge fails for mixed revisions, throws where it does not fit, else is the valid right-biased union with exact size and one revision |
| Evidence.MergeIsRightBiasedUnion | src/coordination/autonomous-consultation-coordinator.ts:701-705 | under each key the added item wins, the others stay, nothing else appears |
| Evidence.MergedBundleIsValidIffItFits | src/contracts/evidence.ts:139-188 | merging valid bundles can only break the size limits or the uniqueness of slashed paths |
| Evidence.NormalizedMergeIsValidIffSmall | src/contracts/evidence.ts:139-188 | over normalized paths merging can only break the size limits |
| Evidence.BuildEvidenceReferences | src/coordination/autonomous-consultation-coordinator.ts:733-779 | exactly the references of selected items, each once, at most 17 |
| Evidence.CitationsByProvenance | src/coordination/autonomous-consultation-coordinator.ts:733-779 | a peer's result is cited as its message, a file by its path, a pinned file by its commit too |
| Evidence.SelectionByPath | src/coordination/autonomous-consultation-coordinator.ts:742-764 | an item is cited when a given path equals its own up to case and the direction of slashes |
| Evidence.KeysMean | src/contracts/evidence.ts:160-170 | paths clash in a bundle up to case and slashes, replace each other in a merge up to case only |
| Evidence.CheckBundle | src/contracts/evidence.ts:139-188 | decides the bundle contract |
| Journals.WriteStaysInFlight | src/onboarding/runtime-settings.ts:674-696 | after a crash or a failure anywhere in a write the disk is in flight; recovery will refuse exactly where `RefusedAfter` says |
| Journals.RecoverOutcome | src/onboarding/runtime-settings.ts:698-761 | what recovery does to any disk: it records, drops the journal or refuses, and never touches the file |
| Journals.RecoveryReconciles | src/onboarding/runtime-settings.ts:698-761 | recovery ends with the old file and hash, the new file and hash, or a file that carries the hash recorded before; or it refuses and changes nothing |
| Journals.CrashSafe | src/onboarding/runtime-settings.ts:579-643 | the same after any number of interrupted recoveries; where a write left a refused disk, every recovery refuses it |
| Journals.FailedWriteIsRefusedIff | src/onboarding/runtime-settings.ts:770-828 | a failed write leaves a disk that recovery refuses exactly for an unrecorded registry or a file neither installed nor put back |
| Journals.UnrecordedRegistryIsRefused | src/onboarding/runtime-settings.ts:801-812 | an unrecorded registry with other content is refused for ever, without a crash |
| Journals.ArtifactStore.WriteArtifactTransaction | src/onboarding/runtime-settings.ts:674-696 | the statements of a write carry out its plan |
| Journals.ArtifactStore.WriteExactJson | src/onboarding/runtime-settings.ts:770-799 | replaces a file through a temporary and a backup; a failure at any of its operations puts the backup back where it can |
| Journals.ArtifactStore.RecoverArtifactTransaction | src/onboarding/runtime-settings.ts:698-761 | the statements of a recovery carry out its plan |
| Journals.ArtifactStore.ReadArtifact | src/onboarding/runtime-settings.ts:579-643 | answers only with a file that carries its recorded hash |
| Journals.ArtifactStore.UpdateSettings | src/onboarding/runtime-settings.ts:656-672 | a replacement begins only over a file that carries its recorded hash |
| Journals.ArtifactStore.CreateRegistry | src/onboarding/runtime-settings.ts:253-336 | the registry's creation begins after recovery, with nothing known of its recorded hash |
| Journals.RefusedStays | src/onboarding/runtime-settings.ts:698-761 | a refused disk is refused and unchanged through any later recoveries |
| Journals.RuntimeSettings.ReadRuntimeSettings | src/onboarding/runtime-settings.ts:579-643 | answers exactly when both artifacts recover and the settings carry their hash; a refused registry blocks it and changes nothing |
| Journals.RuntimeSettings.ConfigureDispatcher | src/onboarding/runtime-settings.ts:253-340 | writes both artifacts, or fails; an unrecorded registry in the way leaves settings that cannot be read |
| CanonicalJson.CanonicalIsFaithful | src/security/message-authentication.ts:425-443 | two values have the same canonical text exactly when they are equal up to member order |
| CanonicalJson.EscapeRoundTrip | src/security/message-authentication.ts:432-435 | escaping a string loses nothing, lone surrogates included |
| CanonicalJson.EncodeSplit | src/security/message-authentication.ts:432-443 | canonical texts are uniquely decodable |
| MessageAuthentication.SignOutcome | src/security/message-authentication.ts:115-144 | what a node signs, exactly, and everything the signature covers |
| MessageAuthentication.VerifyOutcome | src/security/message-authentication.ts:146-190 | every condition under which a message is accepted |
| MessageAuthentication.SignThenVerify | src/security/message-authentication.ts:115-190 | a signed envelope verifies exactly within its window, at its target, under an active known key |
| MessageAuthentication.AcceptedIsAuthentic | src/security/message-authentication.ts:146-190 | a message accepted under a signature made for some content has exactly that content, signed with a key of the origin it names |
| MessageAuthentication.SigningTextFaithful | src/security/message-authentication.ts:425-443 | two contents have the same signing text exactly when they are equal |
| MessageAuthentication.AlteredIsRejected | src/security/message-authentication.ts:146-190 | a signed message changed in any way is rejected |
| WireJson.EnvelopeFaithful | src/contracts/envelope.ts:75-111 | the JSON value of an envelope, up to the order of its members, determines the envelope |
| MessageAuthentication.LoadMembership | src/security/message-authentication.ts:228-283 | accepts exactly the memberships that list the authorized nodes with valid, unique keys |
| MessageAuthentication.OneOwnerEach | src/security/message-authentication.ts:243-260 | in a loaded membership a public key speaks for one node |
| Conversations.ViewIsNewest | src/storage/database.ts:375-436 | a view shows, in order, the last messages of the route up to the limit; what it leaves out stands before all it shows |
| Conversations.ThreadsAreIsolated | src/storage/database.ts:375-436 | after any two runs that agree on the route's authenticated rows the views are the same, in whatever order rows are read |
| Conversations.UnseenRun | src/storage/database.ts:375-436 | whatever is sent and received on other routes or in other conversations, received without authentication, or otherwise done with the tables, leaves a thread as it is |
| Conversations.OtherThreadsAreInvisible | src/storage/database.ts:375-436 | so the view after such a run is the view before it |
| Conversations.FollowUpIsFreshIff | src/application/agent-bridge-service.ts:250-256 | the next number is fresh exactly when no turn is numbered or the last numbered one is within the window |
| Conversations.NumberFollowUp | src/application/agent-bridge-service.ts:183-256 | accepts exactly completed, linked results of one project that are the latest turn, or a repeated key; keeps an existing number, else takes the next |
| Conversations.NumberedTurnIsExceeded | src/application/agent-bridge-service.ts:225-256 | after a numbered turn the next number is above all of the thread |
| Conversations.FollowUpExtendsThread | src/application/agent-bridge-service.ts:225-256 | on runs: continuing a numbered result gives a number above all of its thread |
| Services.FollowUpOutcome | src/application/agent-bridge-service.ts:225-302 | a new follow-up is refused exactly as a second root, and an accepted one has a fresh number exactly under the window condition; beside an own root or after a numbered turn it never repeats |
| Services.FollowUpSays | src/application/agent-bridge-service.ts:257-296 | every column of a follow-up |
| Services.ContinuedMeans | src/application/agent-bridge-service.ts:183-224 | exactly which results can be continued |
| Services.MixesMeans | src/application/agent-bridge-service.ts:238-249 | a thread in view names one project |
| Services.FollowUpRepeats | src/application/agent-bridge-service.ts:99-103 | under a used key a follow-up is accepted exactly as the repetition of the one sent |
| Services.OwnThreadsNeverRepeat | src/application/agent-bridge-service.ts:120-181 | on runs: in a conversation this node ever opened every accepted follow-up has a fresh number |
| Services.NewRequestIsAcceptedIff | src/storage/database.ts:1539-1630 | a request under a new key is refused exactly when it is a second root |
| Services.AgentBridgeService.ContinueAgent | src/application/agent-bridge-service.ts:183-302 | checks, number and sending of a follow-up; anything else it accepts was sent before |
| Services.AgentBridgeService.AskAgent | src/application/agent-bridge-service.ts:120-181 | a new opening question is stored with exactly these columns; what answers one is a root, in the given conversation, which was empty if the root is new |
| Conversations.NumberedThreadsGrow | src/application/agent-bridge-service.ts:250-264 | in a fully numbered thread the number exceeds all, even beyond the window |
| Conversations.NextSequence | src/application/agent-bridge-service.ts:250-256 | one more than the highest number in view |
| Enrollments.OnboardingStore.ImportPublicEnrollment | src/onboarding/index.ts:383-463 | succeeds exactly when the enrollment is importable; a crash leaves at most its file |
| Enrollments.ImportIsConfluent | src/onboarding/index.ts:383-463 | if one order of imports succeeds, every order does, crashes and retries included, with the same enrollments and the same policy |
| Enrollments.EveryOrderSucceeds | src/onboarding/index.ts:383-463 | a fitting plan can be imported in any order with any interruptions |
| Enrollments.OnboardingStore.WriteMembershipPolicy | src/onboarding/index.ts:509-545 | succeeds exactly when every peer is enrolled and the file is absent or as it would be written |
| Enrollments.PolicyWriteResumes | src/onboarding/index.ts:509-545 | a policy write cut short after its file is finished by the next, with the same result |
| Enrollments.BuildMembershipPolicy | src/onboarding/index.ts:465-507 | succeeds exactly when every authorized peer is enrolled |
| Enrollments.PolicyLoads | src/onboarding/index.ts:465-545 | the policy written is one the message authenticator loads |
| Enrollments.ImportKeepsManifest | src/onboarding/index.ts:752-812 | an import keeps the manifest valid |

## Left out

- SQLite itself: WAL, busy retries, SQL text, migrations, and columns nothing decides on (audit reasons, last errors, update times, delivery attempts, heartbeats, status counts).
- The order in which `revokePeerResource` reads the approvals it revokes is unspecified in the source; the model takes id order.
- The network client for Azure Service Bus, its credentials, its retries, the locking and ordering of sessions and the end of the duplicate-detection window (a repeated id may be taken or dropped). Messages in the dead-letter queue are kept.
- Key rotation in the network: each node signs with one key (`MessageAuthentication` has several keys, windows and revocation).
- Worker.BridgeWorker.RunOutboundOnce: does not model other processes touching the outbox between its sends; `Network` does, with each lease, send and confirmation an action of its own.
- Real cryptography, key files, access-control lists and identity generation.
- The UTF-8 encoding of signing bytes, parsing JSON texts back, and fractional numbers (the wire format has none).
- The child executor, the evidence providers and the project registry: any valid result, a handled error or a thrown one.
- The service's reading operations (threads, listings, status), and `configureDispatcher` for settings that already name a dispatcher.
- `src/dispatcher/dispatcher.ts`: one more consumer of the same claim, authorize and settle operations.
- `src/bridge/process-lock.ts`: the model allows any number of worker processes per node instead.
- Secret-pattern checks on payloads, and format checks of identifiers and evidence paths beyond length.
- Of `MessagePayload`, the fields repository and task_reference, which nothing decides on.
- Storage errors inside a transaction, which roll back; the one in `processInboundDelivery` is a parameter.
- The fallback of `writeAtomic` for platforms where a rename cannot replace a file: manifests are taken to be replaced atomically.
- CLI, MCP server, doctor, preflight, configuration parsing, setup and launch.
