# Models of three local-first event logs

This project models the replication, compaction and arbitration logic of a repository of three
related systems and proves what they promise.

**eventlog-lab** keeps per node an append-only log of stock events, one snapshot per SKU and a
compaction watermark. `Stamps`, `Clock`, `Events` and `Items` model stamps, clocks, events and the
merged item state. `Logs` holds the log's queries as functions on values, `LogHistory` every run of
one log together with everything it ever accepted, `LogStore` the log and projector as classes.
`Cluster` lifts this to every run of a cluster, `Nodes` is a replica as a class, `Codec` and `Sync`
are sessions between two replicas, `Harness` drives full-mesh rounds over them.

**warehouse-node** has a central arbiter that judges node events and answers what it rejects with
compensations. `Warehouse` is the domain and its clock, `Central` the store, `Arbiter` the validators
and consequences. `ArbiterRuns` is the state machine of attempts that may crash between any two
store calls; `ArbiterBooks`, `ArbiterFan` and `ArbiterAnswers` prove its invariant, `ArbiterSafety`
what follows for central's books. `CentralMemory` and `ArbiterCode` are the store and the procedure as
classes. `NodeState` is the fold of a node's log, `StockTable` its SQL read model, `NodeService` both as
classes, `Commands` the commands that start and end a transfer. `Shelves` reads the stock of a fold,
`Compensation` says what an event and its answers come to, `Conservation` and `TransferStock` what that
means for the folds of all nodes together, `ArbiterWitness` is a run in which stock is lost. `Frames`
cuts what is outstanding into frames, `Replication` is the stream between a node and central as a
state machine of two ends, `ReplicationCode` both ends as classes. `Sums` holds finite sums.

**localfirst-go** is a smaller protocol whose version is a plain maximum. `LocalFirst` considers every
run of it, `LocalStore` is the store and session as classes.

How the pieces fit: each imperative part of the source is a class or method whose contract ties it to
a function or relation on values; runs are sequences of states related by a step relation; an
invariant is proved of every step and hence of every state of every run; the results are lemmas
about states that satisfy it.

What the model found:

- Nothing stops the source of a transfer from recording its arrival itself (`StockIsConservedIff`,
  `StockLostOnOwnReceipt`, `SourceMayReceiveItsOwn`): the command asks only that the transfer is known
  and in flight, central does not look at where a receipt comes from, and no node folds it. An accepted
  transfer conserves stock exactly when every receipt of the item comes from the destination.
- A transfer that central has failed still takes receipts (`FailedTransferStillTakesReceipts`). They
  land on no node's stock (`ReceiptMovesWhereItLands`); what is taken back from them is lost, so a failed
  transfer conserves stock exactly when no more is claimed against it than was dispatched.
- The stock table takes a receipt whose dispatch it has not seen (`TableMatchesReplayIff`,
  `EarlyForeignReceiptDiverges`, `UndispatchedReceiptDiverges`), although a comment in
  projection/stock.go calls the table independent of arrival order. It equals a replay exactly when no
  receipt reached it ahead of a dispatch that is missing or headed elsewhere.
- A comment in domain/stock.go says the outside location is rejected as operator input; the code only
  asks that a location is registered. `CommandsIssue` takes it that nobody registers the outside.
- The snapshot scan of eventlog-lab is complete exactly when rows list each origin by rising number
  (`ScanIsCompleteIff`); the cluster's clocks guarantee that.

Conventions of the model: quantities of warehouse-node are exact reals; 64-bit and 32-bit arithmetic of
eventlog-lab and of both clocks is written out; names that the source joins with a NUL byte into one
map key are pairs. Preconditions of the arbitration runs, as the code demands them: attempts do not
overlap, reference data is fixed and orders are not negative, quantities are positive, the lines of a
transfer event name distinct (SKU, lot) keys, a transfer has one dispatch, a receipt is arbitrated after
its dispatch was recorded, node events carry no causation, and central's clock does not reach its
maximum. Conservation is claimed for live SKUs and for events of the form the commands issue, over nodes
that have pushed their events and ingested what is queued for them.

## Model

| member | source | states |
|---|---|---|
| `Stamps.BeforeTotal` | eventlog-lab/clock/clock.go:27-40 | the stamp order is total and antisymmetric: of two stamps exactly one precedes the other or they are equal |
| `Stamps.BeforeTransitive` | eventlog-lab/clock/clock.go:27-40 | the stamp order is transitive through the wall, counter and name comparisons |
| `Stamps.NamesAreLexicographic` | eventlog-lab/clock/clock.go:27-40 | names compare byte-wise: a proper prefix first, otherwise the first difference decides |
| `Clock.TickSortsAfterIff` | eventlog-lab/clock/clock.go:86-117 | a tick sorts strictly after both the last stamp and the floor for every wall reading, counter carry included, if and only if neither is saturated |
| `Clock.TickIsLeast` | eventlog-lab/clock/clock.go:86-117 | a tick is the least stamp that is not before the wall reading and past both priors; ahead of both, it is the wall reading itself |
| `Clock.NodeClock.Tick` | eventlog-lab/clock/clock.go:102-117 | the loop over the two priors issues the least stamp not before the wall reading and past both, and stores it |
| `Clock.NodeClock.Now` | eventlog-lab/clock/clock.go:62-68 | the next local stamp is the least one not before the wall reading and past every stamp this clock issued, unless saturated |
| `Clock.NodeClock.Observe` | eventlog-lab/clock/clock.go:70-78 | after observing a remote stamp the clock is the least stamp past both it and its own last one, unless saturated |
| `Events.ValidIff` | eventlog-lab/eventlog/event.go:94-141 | what passes validation carries exactly the payload of its kind, and that payload says something |
| `Events.MutualDominanceIsAgreement` | eventlog-lab/eventlog/event.go:143-175 | two vectors dominate each other exactly when they agree at every node, unlisted nodes reading as zero |
| `Items.ApplyCommutes` | eventlog-lab/crdt/item.go:44-71 | two events with different stamps may be applied in either order from any state |
| `Items.FoldIsOrderIndependent` | eventlog-lab/crdt/item.go:73-84 | every order of a set of events with distinct stamps folds to one state |
| `Items.QuantityIsDeltaSum` | eventlog-lab/crdt/item.go:86-96 | the quantity of a set of valid events is the sum of their deltas truncated to 64 bits, whatever wrapped on the way |
| `Items.RegistersHoldLatest` | eventlog-lab/crdt/lww.go:17-25 | every register holds the write with the greatest stamp, or its initial value when no write follows the zero stamp |
| `Items.FoldMeaning` | eventlog-lab/crdt/item.go:44-96 | any order of a finite set of valid events with distinct stamps: quantity is the delta sum and each register holds the greatest-stamped write |
| `Items.ItemState.Apply` | eventlog-lab/crdt/item.go:44-71 | the in-place update is the specified application of one event |
| `Items.ItemState.GetQuantity` | eventlog-lab/crdt/item.go:86-96 | the slot-by-slot wrapping sum is the quantity of the state |
| `Logs.FirstGroupIsGapFree` | eventlog-lab/eventlog/log.go:122-139 | a row is in group zero of the row-number query exactly when no number between the watermark and it is missing |
| `Logs.QueryEndsRun` | eventlog-lab/eventlog/log.go:106-139 | per node the query returns the end of the gap-free run of rows that continues the watermark |
| `Logs.ScanIsCompleteIff` | eventlog-lab/crdt/projector.go:93-121 | the scan whose skip filter is the covers vector it updates folds every foldable row if and only if no foldable row follows a later-numbered one of its origin |
| `Logs.ScannedCovers` | eventlog-lab/crdt/projector.go:100-117 | after the scan covers is per node the larger of the old entry and the largest foldable number, inversions or not |
| `Logs.CompactPairStep` | eventlog-lab/eventlog/sqlite.go:316-355 | one visit of the compaction loop deletes only what both gates allow and never strands a later row, whatever order pairs are visited in |
| `Logs.CompactionFrees` | eventlog-lab/eventlog/sqlite.go:316-355 | where no row of a node is numbered above the smaller of snapshot entry and argument, every row of the SKU and node up to it is gone and the watermark has reached it |
| `Logs.CompactionIsBlocked` | eventlog-lab/eventlog/sqlite.go:322-339 | a node with a later row in the way of every SKU, or not named in the argument, keeps its rows and watermark |
| `LogHistory.VectorIsAcceptedPrefix` | eventlog-lab/eventlog/log.go:106-139 | over surviving rows and watermark the query returns the longest gap-free prefix of everything ever accepted |
| `LogHistory.ProjectFoldsEveryAcceptedEvent` | eventlog-lab/crdt/projector.go:33-50 | a read folds every distinct event of the SKU ever accepted exactly once |
| `LogHistory.NextSeqIsFresh` | eventlog-lab/eventlog/sqlite.go:83-116 | the number given to a local event is one above the largest ever accepted from its node: never reused, none skipped |
| `LogHistory.StampOrderHasNoInversion` | eventlog-lab/eventlog/sqlite.go:124-130 | rows in stamp order list each origin by rising number when its stamps rise, which is what the aliased scan needs |
| `LogHistory.SnapshotIsSound` | eventlog-lab/crdt/projector.go:57-121 | the stored snapshot is the merge of exactly the accepted events its covers vector names, and covers no less than before |
| `LogHistory.AppendKeepsInv` | eventlog-lab/eventlog/sqlite.go:53-80 | a first sighting, a duplicate or the re-delivery of a compacted event keeps the invariant of the log |
| `LogHistory.CompactKeepsInv` | eventlog-lab/eventlog/sqlite.go:292-361 | compaction with any argument keeps the invariant of the log |
| `LogHistory.CompactKeepsVector` | eventlog-lab/eventlog/sqlite.go:292-361 | compaction with any argument leaves the version vector unchanged |
| `LogHistory.RunKeepsInv` | eventlog-lab/eventlog/log.go:20-66 | every state of every run of append, local append, snapshot and compact satisfies the invariant |
| `LogHistory.EveryReadIsExact` | eventlog-lab/crdt/projector.go:33-121 | in every state of every run a read is one fold over everything accepted and the vector is the accepted prefix |
| `LogHistory.VectorNeverFalls` | eventlog-lab/eventlog/log.go:106-139 | no step of a run lowers an entry of the version vector |
| `LogStore.OrderByStamp` | eventlog-lab/eventlog/sqlite.go:118-130 | the rows come back each once, in stamp order |
| `LogStore.SqliteLog.Append` | eventlog-lab/eventlog/sqlite.go:53-80 | stores a valid event unless its id is known; refuses a malformed one unchanged |
| `LogStore.SqliteLog.AppendLocal` | eventlog-lab/eventlog/sqlite.go:83-116 | mints under the number after the larger of the surviving maximum and the watermark, or changes nothing |
| `LogStore.SqliteLog.Since` | eventlog-lab/eventlog/sqlite.go:118-160 | streams exactly the rows the vector does not cover, in stamp order |
| `LogStore.SqliteLog.GetVersionVector` | eventlog-lab/eventlog/sqlite.go:195-221 | per node the end of the gap-free run that continues the watermark |
| `LogStore.SqliteLog.Compact` | eventlog-lab/eventlog/sqlite.go:292-361 | everything the snapshots and the argument let go is gone and the watermark is there, unless a later row stands in the way; the log invariant holds for every history it may have |
| `LogStore.SqliteLog.CompactOne` | eventlog-lab/eventlog/sqlite.go:322-353 | raises the watermark and deletes the covered rows of one pair, unless a later row would be stranded |
| `LogStore.Projector.Project` | eventlog-lab/crdt/projector.go:33-50 | loads the snapshot, folds the uncovered rows, and so returns the merge of everything accepted |
| `LogStore.Projector.MaybeSnapshot` | eventlog-lab/crdt/projector.go:57-121 | below the threshold changes nothing; otherwise stores the scan computed through the shared covers vector, keeping the log invariant |
| `Cluster.EmitKeepsInv` | eventlog-lab/node/node.go:143-163 | a local event keeps the cluster invariant and the clock past everything the node holds |
| `Cluster.EmittedIsDraft` | eventlog-lab/node/node.go:150-155 | the node gains exactly one event: what the caller asked for, under a new number and the stamp just issued, later than everything held |
| `Cluster.DeliverKeepsInv` | eventlog-lab/node/node.go:165-187 | delivering any event held somewhere, late, again or out of order, keeps the cluster invariant |
| `Cluster.CompactionIsAcked` | eventlog-lab/internal/jepsenlite/harness.go:228-258 | a row compacted up to what the peers report is held by every peer |
| `Cluster.CompactAtKeepsInv` | eventlog-lab/internal/jepsenlite/harness.go:228-258 | compacting a node up to its acked floor keeps the cluster invariant |
| `Cluster.RecoveredClockIsAhead` | eventlog-lab/node/node.go:55-90 | the clock a restart recovers from the surviving rows is past every stamp the node holds, before compaction |
| `Cluster.RunKeepsInv` | eventlog-lab/internal/jepsenlite/harness.go:27-76 | every state of every run of emit, deliver, snapshot, acked compaction and restart satisfies the cluster invariant, clocks included |
| `Cluster.NothingIsUndeliverable` | eventlog-lab/internal/jepsenlite/harness.go:228-258 | what one node holds and another lacks is still a row there and is sent for the version vector the other reports |
| `Cluster.DeliverableInEveryRun` | eventlog-lab/internal/jepsenlite/harness.go:228-258 | no accepted event becomes undeliverable in any state of any run |
| `Cluster.AgreementIsConvergence` | eventlog-lab/internal/jepsenlite/harness.go:191-208 | all version vectors agree if and only if all nodes hold the same events |
| `Cluster.AgreeingNodesReadTheSame` | eventlog-lab/internal/jepsenlite/harness.go:260-286 | in every run, nodes whose vectors agree project the identical item state, each from its own snapshot and rows |
| `Cluster.LocalWriteIsRead` | eventlog-lab/node/node.go:97-163 | after a local write the quantity has moved by the delta in 64 bits, the registers written hold the values asked for, the others and every other SKU read as before |
| `Cluster.EmittedIsNewestInEveryRun` | eventlog-lab/node/node.go:150-155 | in every run, with any wall readings, an emitted stamp sorts after every stamp held and its number is the next one |
| `Codec.DecodeUndoesEncode` | eventlog-lab/sync/codec.go:16-62 | an event encodes exactly when it is valid, and decoding gives it back |
| `Codec.EncodeUndoesDecode` | eventlog-lab/sync/codec.go:38-62 | a frame that decodes re-encodes to itself |
| `Nodes.Node.constructor` | eventlog-lab/node/node.go:36-53 | a node opened over a log has recovered its clock from the largest stored stamp |
| `Nodes.Node.RecoverClock` | eventlog-lab/node/node.go:74-90 | the scan finds the largest stamp among the rows, and an empty log leaves the clock at its start |
| `Nodes.Node.Emit` | eventlog-lab/node/node.go:143-163 | stores exactly what the caller asked for under the next number and the stamp issued, or nothing when that is malformed; a sound cluster stays sound |
| `Nodes.Node.Receive` | eventlog-lab/node/node.go:100-110 | a positive quantity is stored as that delta; anything else is refused and changes nothing |
| `Nodes.Node.Pick` | eventlog-lab/node/node.go:112-123 | a positive quantity is stored as the negated delta; anything else is refused and changes nothing |
| `Nodes.Node.SetMeta` | eventlog-lab/node/node.go:125-135 | the fields given are stored; giving none is refused |
| `Nodes.Node.Delete` | eventlog-lab/node/node.go:137-143 | the tombstone is stored as given |
| `Nodes.Node.Merge` | eventlog-lab/node/node.go:165-194 | merges every valid event of a batch, skips malformed ones, and in a sound cluster gains exactly the batch |
| `Nodes.ObservedIsPast` | eventlog-lab/node/node.go:165-187 | after a batch the clock is past every stamp accepted, not before where it was, and unmoved by what was refused |
| `Nodes.CountsTheValid` | eventlog-lab/node/node.go:165-194 | the count a merge returns is the number of valid events of the batch |
| `Sync.StreamEvents` | eventlog-lab/sync/server.go:138-171 | frames carry exactly what the peer vector lacks, in stamp order, never empty, only the last below the batch size |
| `Sync.MergeFrame` | eventlog-lab/sync/server.go:173-188 | merges exactly the events of a frame that decode |
| `Sync.Consume` | eventlog-lab/sync/client.go:91-132 | merges frames up to the point where the session is cut, counting received and rejected |
| `Sync.SyncOnce` | eventlog-lab/sync/client.go:39-89 | a session cut at any frame keeps the cluster sound and only adds events of the union; an uncut one succeeds, leaves both with exactly the union and rejects nothing |
| `Sync.StreamBringsUnion` | eventlog-lab/sync/server.go:42-75 | when all that is streamed for a version vector arrives, the receiver holds everything the two held |
| `Harness.ClusterHarness.SyncOrder` | eventlog-lab/internal/jepsenlite/harness.go:159-171 | every id is in the order, the slow peer only at its end |
| `Harness.ClusterHarness.SyncPair` | eventlog-lab/internal/jepsenlite/harness.go:124-138 | an unknown initiator fails; any session, cut or not, only makes progress, and an uncut one succeeds |
| `Harness.ClusterHarness.SyncRound` | eventlog-lab/internal/jepsenlite/harness.go:140-157 | returns how many sessions succeeded; any round only adds events of the union; a round without faults leaves every node with the union of all, whichever peer is slow |
| `Harness.ClusterHarness.VectorsAgree` | eventlog-lab/internal/jepsenlite/harness.go:191-208 | returns true exactly when all version vectors agree at every node |
| `Harness.ClusterHarness.Quiesce` | eventlog-lab/internal/jepsenlite/harness.go:173-189 | succeeds after one round with all nodes holding the union; with no rounds allowed it fails and changes nothing |
| `Harness.ClusterHarness.AckedFloor` | eventlog-lab/internal/jepsenlite/harness.go:228-258 | the greatest vector at or below what every peer reports |
| `Harness.ClusterHarness.Narrow` | eventlog-lab/internal/jepsenlite/harness.go:246-255 | lowering then deleting entries gives the pointwise minimum of two vectors |
| `Harness.ClusterHarness.CompactAcked` | eventlog-lab/internal/jepsenlite/harness.go:228-258 | compacting at the acked floor keeps the whole cluster sound and no holding changes |
| `Warehouse.MergeSortsAfterIff` | warehouse-node/internal/domain/hlc.go:62-77 | a merged reading sorts strictly after both readings for every wall clock if and only if neither is saturated |
| `Warehouse.TickSortsAfter` | warehouse-node/internal/domain/hlc.go:51-60 | a tick sorts strictly after the previous reading if and only if that is not saturated |
| `Warehouse.TickIsLeast` | warehouse-node/internal/domain/hlc.go:51-60 | a tick is the least reading not before the wall clock and past the previous one |
| `Warehouse.MergeIsLeast` | warehouse-node/internal/domain/hlc.go:62-77 | a merged reading is the least one not before the wall clock and past both |
| `Central.FirstSeen` | warehouse-node/internal/central/memory.go:327-351 | the least event id that keyed the note for the SKU, whatever order the map yields, or none |
| `CentralMemory.Memory.Append` | warehouse-node/internal/central/memory.go:79-94 | stores events idempotently by id and returns exactly what is new |
| `CentralMemory.Memory.CompensationsOf` | warehouse-node/internal/central/memory.go:103-129 | lists exactly the events whose causation is the id, each once, in replay order |
| `CentralMemory.Memory.EmitCentral` | warehouse-node/internal/central/memory.go:131-165 | seals the drafts under consecutive numbers with readings merged past the cause, and stores all of them |
| `CentralMemory.Memory.Enqueue` | warehouse-node/internal/central/memory.go:197-213 | appends each event once per target, under rising positions |
| `CentralMemory.Memory.RecordReceipt` | warehouse-node/internal/central/memory.go:295-304 | records a fact once per event |
| `CentralMemory.Memory.ReceivedAgainstPO` | warehouse-node/internal/central/memory.go:314-325 | the sum of every recorded receipt of the order line |
| `CentralMemory.Memory.DeliveryNoteFirstSeen` | warehouse-node/internal/central/memory.go:327-343 | the scan finds the first event that keyed the note, or none |
| `CentralMemory.Memory.RecordDispatch` | warehouse-node/internal/central/memory.go:353-365 | stores a row, or updates only the dispatched quantity of the one there |
| `CentralMemory.Memory.AddReceived` | warehouse-node/internal/central/memory.go:367-386 | adds once per event and key, and fails unchanged without a row |
| `CentralMemory.Memory.FailTransfer` | warehouse-node/internal/central/memory.go:427-438 | marks exactly the rows of the transfer failed |
| `CentralMemory.Memory.RecordDecision` | warehouse-node/internal/central/memory.go:440-446 | stores the decision for the event and changes nothing else |
| `ArbiterCode.Arbitrator.UnknownSkuCheck` | warehouse-node/internal/arbiter/validators.go:45-64 | reverses exactly the movements whose SKU is unknown or deleted |
| `ArbiterCode.Arbitrator.DeliveryNoteCheck` | warehouse-node/internal/arbiter/validators.go:73-94 | rejects a receipt whose note another receipt keyed first, not the first one itself |
| `ArbiterCode.Arbitrator.PurchaseOrderCheck` | warehouse-node/internal/arbiter/validators.go:106-151 | takes back what passes the ordered quantity, leaving out what the event recorded earlier |
| `ArbiterCode.Arbitrator.DestinationCheck` | warehouse-node/internal/arbiter/validators.go:160-186 | refuses a dispatch to an unknown node or one that refuses a SKU, returning every line |
| `ArbiterCode.Arbitrator.OverReceiptCheck` | warehouse-node/internal/arbiter/validators.go:196-232 | takes back per line what is beyond the dispatch, leaving out what the event folded earlier |
| `ArbiterCode.Arbitrator.Validate` | warehouse-node/internal/arbiter/arbiter.go:91-100 | the chain returns the verdict of the first validator to fire |
| `ArbiterCode.Arbitrator.RecordAll` | warehouse-node/internal/arbiter/arbiter.go:160-214 | the store calls of the record, cut after any of them, are steps of the state machine |
| `ArbiterCode.Arbitrator.FanTargetOf` | warehouse-node/internal/arbiter/arbiter.go:225-244 | the destination of an accepted dispatch, or the source of the first received line with a row |
| `ArbiterCode.Arbitrator.Arbitrate` | warehouse-node/internal/arbiter/arbiter.go:69-147 | cut after any store call it leaves a path of the state machine; uncut it decides; a decided event is replayed unchanged; in a consistent store it stays consistent, never finds a partial compensation set, and returns the compensations in the log |
| `ArbiterBooks.RecordedReceiptVerdict` | warehouse-node/internal/arbiter/validators.go:106-151 | a recorded receipt is judged by its recorded part alone, whatever was recorded since |
| `ArbiterBooks.OverWhenSettled` | warehouse-node/internal/arbiter/validators.go:203-227 | once a line is settled what is over is what was not folded, whatever was folded since |
| `ArbiterBooks.FoldKeepsSettled` | warehouse-node/internal/arbiter/arbiter.go:191-211 | folding one line leaves every settled line settled and what is over on it unchanged |
| `ArbiterBooks.RecordStepKeepsBooks` | warehouse-node/internal/arbiter/arbiter.go:160-214 | every store call of a record keeps the books consistent, all recorded verdicts standing, and the verdict of the attempt |
| `ArbiterFan.FanTells` | warehouse-node/internal/arbiter/arbiter.go:216-244 | the fan-out of an attempt tells exactly those the event concerns |
| `ArbiterAnswers.SealedAnswers` | warehouse-node/internal/central/memory.go:131-165 | what is emitted answers the rejection draft by draft, each stamp after the cause and after the one before |
| `ArbiterAnswers.FoundIsEmitted` | warehouse-node/internal/arbiter/arbiter.go:121-138 | the compensations found in the log are exactly the ones emitted, in the order emitted |
| `ArbiterAnswers.StepKeepsInv` | warehouse-node/internal/arbiter/arbiter.go:69-147 | every store call, and a crash between any two, keeps the invariant; verdicts are never revised |
| `ArbiterAnswers.RunKeepsInv` | warehouse-node/internal/arbiter/arbiter.go:56-147 | every state of every run of attempts, crashes and retries satisfies the invariant |
| `ArbiterSafety.FirstRuleBrokenDecides` | warehouse-node/internal/arbiter/arbiter.go:44-54 | an event is rejected exactly when it breaks a rule, each stated over the fields of the books, for the first rule it breaks in chain order |
| `ArbiterSafety.DuplicateIff` | warehouse-node/internal/arbiter/validators.go:73-94 | a receipt is a duplicate exactly when its SKU is live and another recorded receipt names the same note and the same SKU |
| `ArbiterSafety.VerdictIsStable` | warehouse-node/internal/arbiter/arbiter.go:56-147 | after a completed record every later judgement of the event, in every run, is the same rejection draft for draft |
| `ArbiterSafety.DecidedEventIsAnsweredOnce` | warehouse-node/internal/arbiter/arbiter.go:109-147 | a decided event has exactly its verdict's compensations, in order, stamped after it, each queued once to its origin and nowhere else, and the decision names the first |
| `ArbiterSafety.AnsweredOnceInEveryRun` | warehouse-node/internal/arbiter/arbiter.go:109-147 | that holds of every decided event in every state of every run |
| `ArbiterSafety.NoPartialCompensation` | warehouse-node/internal/arbiter/arbiter.go:125-138 | the log never holds part of a compensation set |
| `ArbiterSafety.EventsReachWhomTheyConcern` | warehouse-node/internal/arbiter/arbiter.go:216-244 | every decided event is queued to those it concerns and to nobody else; a refused dispatch to nobody |
| `ArbiterSafety.OrdersAreNeverExceeded` | warehouse-node/internal/arbiter/validators.go:96-151 | in every run recorded receipts stay within the ordered quantity and at most one is recorded per note and SKU |
| `ArbiterSafety.RecordedPlusReversed` | warehouse-node/internal/arbiter/arbiter.go:163-176 | what was recorded of a receipt and what was taken back add up to what was received |
| `ArbiterSafety.NetInflowIsRecorded` | warehouse-node/internal/central/memory.go:314-325 | the net inflow over all nodes against an order line is what central recorded, hence within the order |
| `ArbiterSafety.FoldedPlusCompensated` | warehouse-node/internal/arbiter/validators.go:188-232 | for every decided receipt line what was folded and what was compensated add up to the line |
| `ArbiterSafety.DispatchNet` | warehouse-node/internal/arbiter/arbiter.go:177-190 | a dispatch is refused exactly when its rows are failed, and then all of it comes back |
| `ArbiterSafety.FailedTransferStillTakesReceipts` | warehouse-node/internal/arbiter/arbiter.go:191-211 | receipts are judged and folded without regard to the failed mark |
| `ArbiterSafety.ReceivedIsFolded` | warehouse-node/internal/arbiter/arbiter.go:191-211 | the received balance of a row is the sum of what its receipts folded, between zero and what was dispatched |
| `Compensation.ReverseLeavesTheRest` | warehouse-node/internal/arbiter/validators.go:25-28 | taking back part of a movement leaves the movement of the rest, at every gauge |
| `Compensation.RefusedDispatchNetsToZero` | warehouse-node/internal/arbiter/validators.go:176-185 | the lines of a refused dispatch and their returns come to nothing |
| `Compensation.GoodsComeToRecorded` | warehouse-node/internal/arbiter/validators.go:132-150 | a goods receipt and its compensations come to what central recorded, and the paperwork is reversed by the same quantity |
| `Compensation.LinesComeToFolded` | warehouse-node/internal/arbiter/validators.go:203-231 | the lines of a transfer receipt and their compensations come to what central folded, line by line |
| `Compensation.ExcessIsTakenBack` | warehouse-node/internal/arbiter/arbiter.go:21-29 | the quantity a rejection reports is what its drafts take back, whatever the rule |
| `Compensation.OrderTakesAtMostAll` | warehouse-node/internal/arbiter/validators.go:132-150 | a receipt against an order is never taken back by more than it brought, whatever the books say |
| `Compensation.RejectionIsLabelled` | warehouse-node/internal/arbiter/validators.go:30-34 | every movement a rejection drafts carries its reason, under the transfer it fails or the SKU it takes back |
| `Shelves.ReadingIsSum` | warehouse-node/internal/domain/state.go:372-387 | whatever order a log is folded in, what its stock shows on a balance or on all shelves of an item is the sum of what its events move at home |
| `Shelves.PartContributes` | warehouse-node/internal/node/service.go:63-77 | folding a log with and without some of its events differs by exactly what those move at home |
| `Conservation.ChangesAreOutcomes` | warehouse-node/internal/arbiter/arbiter.go:216-244 | with every node holding its own events and all queued for it, what decided events and the answers to them change on the shelves of all nodes is the sum of their outcomes |
| `TransferStock.ReceiptMovesWhereItLands` | warehouse-node/internal/domain/state.go:329-357 | a receipt moves stock at one node at most: where its transfer is headed, if it was issued there and the dispatch was accepted; against a refused dispatch nowhere |
| `TransferStock.TransferBalance` | warehouse-node/internal/arbiter/arbiter.go:177-211 | what a decided transfer changes on all shelves, plus the truck, is minus what its receipts lost, receipt by receipt |
| `TransferStock.StockIsConservedIff` | warehouse-node/internal/arbiter/validators.go:153-232 | in every run, over the folds of all nodes and the truck: a decided transfer conserves stock if and only if, accepted, its receipts of the item come from the destination or, refused, no more is claimed than was dispatched; otherwise stock is lost, never gained |
| `TransferStock.ReceiptIssuers` | warehouse-node/internal/domain/transfer.go:74-91 | a receipt of a node that knows the dispatch lands unless the source issued it |
| `TransferStock.DispatchAtItsSource` | warehouse-node/internal/arbiter/validators.go:160-186 | a refused dispatch and its compensations leave every balance of the source as if it had never been; an accepted one takes its lines off |
| `TransferStock.ShelfMatchesRecordedReceipt` | warehouse-node/internal/arbiter/validators.go:106-151 | folding the log with a goods receipt and its compensations or without them differs at every balance by what central recorded |
| `TransferStock.ShelfMatchesFoldedReceipt` | warehouse-node/internal/arbiter/validators.go:196-232 | folding the log with a transfer receipt and its compensations or without them differs at every balance by what central folded if the transfer was accepted and is headed there; otherwise the lines are short |
| `TransferStock.NetInflowIsOnShelves` | warehouse-node/internal/central/memory.go:314-325 | in every run, over the folds of all nodes: the net inflow of decided receipts against an order line is what central recorded, hence within the order |
| `ArbiterWitness.StockLostOnOwnReceipt` | warehouse-node/internal/domain/transfer.go:81-106 | a concrete run in which the source receives its own transfer and a unit is on no shelf and no truck afterwards |
| `Commands.DoDispatchTransfer` | warehouse-node/internal/domain/transfer.go:31-67 | allowed exactly when the lines resolve, the transfer is new and headed elsewhere, and every balance covers all that is drawn on it together |
| `Commands.DoReceiveTransfer` | warehouse-node/internal/domain/transfer.go:81-106 | allowed exactly when the transfer is known and in flight and the lines resolve; where it is headed is not asked |
| `Commands.ResolvesIff` | warehouse-node/internal/domain/stock.go:15-32 | a line is taken exactly when its SKU is known and live, a lot is named where tracked, and quantity and unit are usable |
| `Commands.ReceivableIff` | warehouse-node/internal/domain/transfer.go:81-91 | over the log: a receipt is allowed exactly while the dispatch is held and some key of it is short |
| `Commands.CommandsIssue` | warehouse-node/internal/domain/transfer.go:35-63 | both commands issue lines between a shelf and the outside, positive and not empty, a dispatch to another node |
| `Commands.DispatchKeepsStock` | warehouse-node/internal/domain/stock.go:44-53 | applying an allowed dispatch takes no balance in the warehouse below zero |
| `Commands.SourceMayReceiveItsOwn` | warehouse-node/internal/domain/transfer.go:81-90 | the command through which stock is lost is allowed at the source of a transfer in flight |
| `NodeState.FoldIsOrderIndependent` | warehouse-node/internal/domain/state.go:287-357 | two orders of a log whose transfers each have at most one dispatch fold to equal stock, transfers and statuses, with the same receipts waiting, and none when no dispatch is missing |
| `StockTable.TableMatchesReplayIff` | warehouse-node/internal/projection/stock.go:21-57 | the table built in arrival order equals the stock of a full replay if and only if no receipt reached it ahead of a dispatch that is missing or headed elsewhere |
| `StockTable.EarlyForeignReceiptDiverges` | warehouse-node/internal/projection/stock.go:39-46 | a concrete receipt that reaches the source ahead of the dispatch: the table takes it and a replay does not |
| `StockTable.UndispatchedReceiptDiverges` | warehouse-node/internal/projection/stock.go:59-75 | a concrete receipt at the destination without its dispatch: the table counts it and the state keeps it waiting |
| `NodeService.Service.constructor` | warehouse-node/internal/node/service.go:36-53 | a node opened over a stored log has tables that folded all of it, a state that replays all of it, and the latest stored reading as its clock |
| `NodeService.EmittedAfterReopen` | warehouse-node/internal/eventlog/log.go:54-73 | after a restart nothing is emitted that sorts before a stored event, for any wall reading, as long as the clock has room |
| `Frames.Chunk` | warehouse-node/internal/sync/codec.go:99-119 | chunks concatenate to the input, are never empty, keep both caps unless a single envelope is too large, and are as long as the caps allow |
| `Frames.Outbounds` | warehouse-node/internal/central/memory.go:215-234 | the first entries above a position, up to the limit, in order |
| `Frames.ReadOwnAfter` | warehouse-node/internal/eventlog/log.go:205-211 | the first of the node's own events above a number, up to the limit, in order |
| `Frames.CarriedIsBetween` | warehouse-node/internal/sync/server.go:165-199 | a frame cut off a page carries exactly the entries queued between the position before it and its own |
| `Replication.CursorsTellTheTruth` | warehouse-node/internal/sync/server.go:50-149 | in every run, sessions overlapping, stalling and dying at any frame, queue and log growing: the pushed cursor means a decision for every event up to it, the delivered cursor that every entry up to it is held |
| `Replication.RunKeepsInv` | warehouse-node/internal/sync/client.go:64-200 | every state of every run of both ends keeps the cursors, the ends and what is on the wire truthful |
| `Replication.ChainCarriesAll` | warehouse-node/internal/sync/server.go:151-200 | the frames on the wire together carry exactly what is outstanding between two positions, in order |
| `ReplicationCode.EndsAreSeparate` | warehouse-node/internal/sync/client.go:110-154 | a step of one end leaves the other end of every session where it is |
| `ReplicationCode.CentralSide.ArbitrateBatch` | warehouse-node/internal/sync/server.go:118-143 | arbitrates a batch event by event, then moves the cursor past every number of it and never back, and acknowledges; with anything happening in between, a path of the state machine |
| `ReplicationCode.CentralSide.Receive` | warehouse-node/internal/sync/server.go:104-149 | takes batches until one says there is no more; cut anywhere, a path of the state machine |
| `ReplicationCode.CentralSide.PushPage` | warehouse-node/internal/sync/server.go:173-199 | one page goes out in fitting chunks, each carrying exactly what is queued between the cursor before and after it, however the queue grows meanwhile |
| `ReplicationCode.CentralSide.Push` | warehouse-node/internal/sync/server.go:151-200 | frames carry one after the other exactly what is queued between their positions, within both caps; uncut, all that was queued at the beginning is sent; nothing outstanding is one empty frame |
| `ReplicationCode.CentralSide.Finish` | warehouse-node/internal/sync/server.go:88-101 | the final acknowledgement moves the delivered cursor to the position of the last frame |
| `ReplicationCode.CentralSide.Replicate` | warehouse-node/internal/sync/server.go:47-102 | a whole session at central, cut anywhere and interleaved with anything, is a path of the state machine; uncut, nothing queued before it is left undelivered |
| `ReplicationCode.NodeSide.SendOne` | warehouse-node/internal/sync/client.go:134-149 | a batch of the events that come next goes up; once acknowledged every event up to its last is decided and the cursor is there |
| `ReplicationCode.NodeSide.TakeWelcome` | warehouse-node/internal/sync/client.go:86-95 | the node resumes from the lower of its own cursor and what central knows |
| `ReplicationCode.NodeSide.PushOwnPage` | warehouse-node/internal/sync/client.go:111-152 | one page of own events goes up in chunks within the caps, in order; an empty page is one empty batch |
| `ReplicationCode.NodeSide.PushBacklog` | warehouse-node/internal/sync/client.go:101-154 | batches carry exactly the own events that come next, in order and within both caps; uncut, every event emitted before is decided |
| `ReplicationCode.NodeSide.ApplyDownstream` | warehouse-node/internal/sync/client.go:155-200 | frames are ingested in order, then the cursor is written and acknowledged at the position of the last frame, up to which everything is held |
| `ReplicationCode.NodeSide.Session` | warehouse-node/internal/sync/client.go:61-99 | a whole session at the node, cut anywhere and interleaved with anything, is a path of the state machine; uncut, every event emitted before is decided |
| `NodeState.FoldMeans` | warehouse-node/internal/domain/state.go:241-370 | the fold of a log: every balance is the sum of the movements made at home, transfers carry their totals and are complete exactly when of every key sent as much was received, receipts wait exactly when their dispatch is missing |
| `NodeState.TransferCompleteIff` | warehouse-node/internal/domain/state.go:72-81 | in whatever order a log is folded a transfer is complete exactly when of every key dispatched at least as much was received |
| `NodeState.DispatchAgainAdds` | warehouse-node/internal/domain/state.go:287-311 | a second dispatch of a transfer adds to what was dispatched and keeps its ends |
| `NodeState.PrunedIsUnique` | warehouse-node/internal/domain/state.go:372-387 | pruning zero balances makes the table a function of the balances |
| `NodeService.LiveState.ApplyEvent` | warehouse-node/internal/domain/state.go:241-370 | the in-place update is the specified application of one event |
| `NodeService.LiveState.ApplyDispatch` | warehouse-node/internal/domain/state.go:287-328 | folds a dispatch and the receipts buffered for it, moving each half only at its own end |
| `NodeService.LiveState.ApplyReceipt` | warehouse-node/internal/domain/state.go:329-357 | buffers a receipt without a dispatch, otherwise folds it and settles the status |
| `NodeService.ProjectionSet.ApplyEvent` | warehouse-node/internal/projection/registry.go:136-191 | folds an event into the tables once; a second delivery changes nothing |
| `NodeService.ProjectionSet.AddStock` | warehouse-node/internal/projection/stock.go:77-88 | adds to a balance and deletes the row when it reaches zero |
| `NodeService.Service.RebuildState` | warehouse-node/internal/node/service.go:63-77 | the state becomes a fresh replay of the whole log |
| `NodeService.Service.Ingest` | warehouse-node/internal/node/service.go:125-134 | stores what is new and folds each event once, whatever was delivered before, keeping tables and state in step with the log, and merges every delivered stamp into the clock |
| `NodeService.Service.Execute` | warehouse-node/internal/node/service.go:96-109 | seals events under the next own numbers and successive ticks of the clock, stores and folds them |
| `NodeService.TicksRise` | warehouse-node/internal/eventlog/log.go:88-110 | the events of one command are stamped in rising order, as long as the clock has room |
| `NodeService.EmittedAfterIngested` | warehouse-node/internal/eventlog/log.go:112-131 | whatever a node emits after an ingest sorts after every ingested event, for any wall readings, as long as the clock has room |
| `NodeService.Service.TablesMatchState` | warehouse-node/internal/node/service.go:150-187 | the stock table and the replayed stock of a service agree if and only if no receipt was misplaced |
| `StockTable.RowsKnowHeadings` | warehouse-node/internal/projection/stock.go:59-75 | the table knows a transfer's destination exactly when it has folded its dispatch |
| `StockTable.DispatchFirstMatches` | warehouse-node/internal/projection/stock.go:33-88 | a table that sees every dispatch before its receipts equals the replay |
| `StockTable.TransferRowsMean` | warehouse-node/internal/projection/transfer.go:24-67 | in any arrival order a transfer row carries the totals of both halves and is complete exactly when received covers dispatched |
| `StockTable.NamelessTakesAll` | warehouse-node/internal/projection/stock.go:33-46 | a projection not told its node takes every transfer movement |
| `StockTable.TotalOne` | warehouse-node/internal/projection/transfer.go:69-75 | with TotalConcat, a total is the sum of the quantities |
| `StockTable.RejectionFails` | warehouse-node/internal/projection/transfer.go:24-67 | a rejection fails the row of its transfer and leaves totals and other rows alone |
| `LocalFirst.RunKeepsInv` | localfirst-go/sync/session.go:109-170 | every state of every run of appends, greetings, pushes cut at any record and interleaved merges satisfies the invariant |
| `LocalFirst.VersionIsFrontier` | localfirst-go/eventlog/store.go:238-260 | in every run what a log holds of an author is exactly 1..MAX, and whatever another log holds and it lacks would be sent |
| `LocalFirst.AckIsTrue` | localfirst-go/sync/session.go:100-138 | when a push is merged to the end the receiver holds all the acknowledged version names, whatever was appended meanwhile |
| `LocalFirst.PushGoesThrough` | localfirst-go/sync/session.go:109-170 | a push nobody cuts or refuses goes through and leaves the receiver with all its version names |
| `LocalFirst.NextNumberIsFresh` | localfirst-go/eventlog/store.go:73-109 | in every run an author's own records are exactly those numbered up to its counter |
| `LocalFirst.CollectedLeads` | localfirst-go/sync/session.go:109-123 | in a collected list every record comes after its author's previous one, or the receiver holds that already |
| `LocalFirst.SinceIsReplayOrder` | localfirst-go/eventlog/record.go:31-38 | what is sent is in clock order, and by number among equal clocks |
| `LocalFirst.BoundedIs` | localfirst-go/sync/session.go:109-123 | what is dropped from a push is exactly what is above the version read first |
| `LocalFirst.EveryCutIsDenseIff` | localfirst-go/sync/session.go:124-133 | a push may be cut after any record without a hole if and only if no record is sent ahead of its author's previous one |
| `LocalStore.Store.Append` | localfirst-go/eventlog/store.go:73-109 | stores the record under the next number and moves the counter |
| `LocalStore.MergedMeans` | localfirst-go/eventlog/store.go:116-181 | merging replaces nothing that is held and stores everything that is new |
| `LocalStore.CounterIsLeast` | localfirst-go/eventlog/store.go:124-143 | after a merge the counter is no larger than it was and the new own numbers require |
| `LocalStore.CounterCovers` | localfirst-go/eventlog/store.go:124-143 | after a merge the counter covers what it was and every new own number |
| `LocalStore.Store.Merge` | localfirst-go/eventlog/store.go:116-145 | merges records one transaction at a time, any prefix of which may have committed, and counts those that were new |
| `LocalStore.Store.Since` | localfirst-go/eventlog/store.go:207-236 | exactly the records the vector lacks, each once, in replay order |
| `LocalStore.Store.Version` | localfirst-go/eventlog/store.go:238-260 | per author the largest number held |
| `LocalStore.Store.PushAndAck` | localfirst-go/sync/session.go:109-138 | batches carry the records the peer lacks up to the version read first, in order, all but the last of them full |
| `LocalStore.Store.BatchOfRecord` | localfirst-go/sync/session.go:124-133 | the group a record is validated with is exactly the batch it travels in |
| `LocalStore.Store.Drain` | localfirst-go/sync/session.go:140-170 | merges batches in order until one holds a record the peer could not have authored, which is refused whole |

## Left out

- Postgres twins of the three stores: the same logic behind another driver.
- gRPC, protobuf, TLS, JSON encoding of payloads, command lines, the demo and the example application: plumbing.
- Random fault scheduling and in-memory channels: replaced by arbitrary delivery, cuts and crashes.
- Replication cursors of eventlog-lab and its regression warning: diagnostics that decide nothing.
- Backoff and jitter timing, session timeouts.
- Float rounding, NaN and the 1e-9 pruning threshold: quantities are exact and pruning is at zero.
- Lots and expiry, reservations, receipts' paperwork state, counts and the exceptions table: shallow or bound to the time library.
- Command validation other than that of transfers: the runs take its outputs as given.
- The reports OpenTransfers and StalePendingReceipts, which read clocks and decide nothing.
- Unknown or deleted SKUs inside transfers: only the offending lines are reversed, so conservation is not claimed there.
- Clock recovery after compaction, which the code documents as unsupported.
- The clock of localfirst-go, which has no counter carry: rising stamps per author are a premise of its runs.
- Validator and projector hooks of localfirst-go's store, and its cursors.
- Equality and marshalling of item states (crdt/item.go:100-137).
- CentralMemory.Memory.EmitCentral: only emission with a causation; item-master updates, which have none, are not modelled.
- CentralMemory.Memory.Append: the store's mutex is not modelled; calls do not interleave inside one another.
- ArbiterCode.Arbitrator.Arbitrate: only for receipts arbitrated after their dispatch was recorded and lines with distinct keys, because per-key bookkeeping is overwritten otherwise.
- LogStore.SqliteLog.AppendLocal: numbers are unbounded; overflow of a 64-bit sequence number is not modelled.
- Nodes.Node.constructor: the refusal of an empty id or a missing log is not modelled.
- Nodes.Node.Merge: the reporting projection that only the Postgres log maintains is not modelled.
- Sync.SyncOnce: frames out of protocol order (a duplicate Hello, a missing Welcome) are not modelled; a session that dies is.
- Harness.ClusterHarness.SyncRound: sessions of a round happen one after another, as the source's loop does.
- Replication.CursorsTellTheTruth: one node and its queue; arbitration of an event is a single step there.
- ReplicationCode.CentralSide.Replicate: frames out of protocol order and the check of the peer's certificate are not modelled.
- Frames.Chunk: the encoded size of an envelope is a parameter.
- Commands.DoDispatchTransfer: whether a lot is past its date is a parameter.
- NodeService.Service.constructor: rebuilding tables of an older projection version is not modelled.
- NodeService.Service.Execute: the command's events are a parameter; failures part-way through apply are not modelled.
- LocalStore.Store.Append: validation and projection inside the transaction are not modelled.
