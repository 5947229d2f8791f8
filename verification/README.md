# Verified models of the worker's delivery, ownership and recovery protocols

This project models eight parts of the worker and its release tooling in Dafny and proves what they
keep over whole runs, against arbitrary answers of the network, the disk and the clock. It verifies
with `dafny verify dfyconfig.toml`.

| part | files | what is proved |
|---|---|---|
| message batcher | `Batcher*.dfy` | gapless numbering, exact delivery, truthful markers, coverage while spilling and through the last write at close, termination of a flush, search cost, reservations; the object's loops refine the machine |
| active-run registry | `Registry*.dfy` | every pending outcome is listed or covered by overflow, an open claim gate means all are listed, exactly when a run is listed once, rotation reaches every run, stale observations never commit |
| authority queue | `AuthorityQueue.dfy` | mutual exclusion, arrival order, no lost grants |
| disk governor | `Disk*.dfy` | exactly when a stop can hit a run the server does not have as `running`; exactly when a reading can make it pick another run than the largest; one stop at a time, fresh samples |
| release watcher | `Watch*.dfy` | write budgets, reserve before write, every write warranted by the readings before it, success only when all is green, no write after an uncertain one or after the time limit, no foreign smoke attempt |
| brace expansion and pattern guard | `Brace*.dfy`, `PatternGuard.dfy` | string rewriting equals the tree's expansions; a passing pattern stays inside the checkout |
| attempt ids and paths | `AttemptId.dfy`, `AttemptPath.dfy` | printers and parsers invert each other; the comparison is a total order |
| evidence response | `EvidenceResponse.dfy` | the longest fitting prefix, by monotone size |

`Options.dfy`, `Text.dfy`, `Decimal.dfy`, `OrderedMap.dfy` and `Folds.dfy` hold what several parts share.

## How the models are built

The **batcher** is one state machine (`BatcherMachine`): the code between two awaits is one step, the
suspended coroutine is a `task` value, and emits, answers, aborts, re-arming, closing and the candidate
reservation are events. `BatcherRuns` adds the history around it: the items in the order their seqs were
assigned, the acknowledged messages, the first message the server kept per seq (a failed post may still
have been applied), and the seqs in committed outbox records. `Drain` runs one flush against an oracle for
the api. `BatcherObject` is the object itself, with its fields and loops; each method is specified by the
machine function it performs, and its flush loops are proved to end exactly where `Drain` and
`SpillDrain` end. Sizes are computed from the JSON form of a message.

The **registry**, the **queue** and the **governor** are values with a step function per operation, and a
class per object whose methods perform those steps. Object identity (a registration, an ownership proof, a
run object) is a number that is never reused. The **watcher** is a class that reads every answer from an
environment indexed by turn and writes a history of what it read, spent, journaled and wrote; its invariant is a
discipline on that history. The **governor**'s object keeps the invariant its runs keep; the server and the
acknowledgements on their way are part of the machine's runs (`DiskRuns`), not of the object.

## Where the code differs from what it is meant to do

- **A message folded into the spill range while its record is written is lost.** `doSpillFlush` clears the
  live range after the await, not the range it captured. `BatcherWitness.FoldedSeqIsLost` is a run in which
  seq 3 disappears although every append committed; `BatcherLoss.SpillCoverage` proves that coverage holds
  if and only if no such write returns, and `BatcherLoss.StaleByFold` that only an emit dropped by the buffer
  cap during that await leads there.
- **A 413 on the first probe of a bisection stops the flush.** When 400 and 413 answers mix, a flush can stop
  with everything owed and no trip (`BatcherWitness.MixedRejectionsStall`). Rejections of one class alone do
  end in delivery or a trip (`BatcherWitness.RejectionsEnd`), and `BatcherDrain.DrainOutcome` gives the exact
  condition for any answers.
- **Registering a run again restarts its send numbers.** An acknowledgement of the earlier registration can then
  make a run look parkable that the server has as something else (`DiskStale.StaleAckStops`). A delivery is
  harmful when it is a `running` acknowledgement, news to a run not yet stopped, numbered above everything else
  heard of or sent, and either above the next send too or at odds with a status at the server or under way.
  Runs without a harmful delivery never stop a run wrongly (`DiskSafety.StopOnlyRunning`); after one, in any state,
  a wrongful stop can follow with no further delivery and on a clock that goes on from any time
  (`DiskHarm.HarmLeadsToStop`, `DiskHarm.HarmfulExactly`).
- **A turn boundary can mislead the choice of the largest run.** `boundary` records its reading in the same field the
  hard layer compares, while that layer is still measuring other runs, so a run measured as small can be the largest
  when another is picked (`DiskUpset.BoundaryMisleads`). A reading is upsetting when it concerns a candidate already
  measured and changes which of those should be picked. A selection that meets no upsetting reading picks the first
  candidate with the most bytes (`DiskPick.PicksLargest`); after one, in any state, the remaining measurements can
  end in another pick (`DiskUpset.UpsetLeadsToWrongPick`, `DiskUpset.UpsettingExactly`).
- **A run with ordinary outcomes in two generations is listed twice**, and a duplicate rejects the snapshot whole
  (`RegistryDistinct.EndedTwiceIsListedTwice`). `RegistryDistinct.OneEntryPerRun` says exactly when a snapshot lists
  every run once: when everything fits, no run has leasable ordinary outcomes in two generations unless a policy
  group folds them; on overflow, no two fixed slots hold the same run.
- **Rotation needs a slot.** With a cap of 0, or with 256 live runs, no build lists a pending run at all
  (`RegistryRotation.NoSlotListsNone`); with a slot every run is listed in time.
- **Attempt ids are valid only for the years 0 to 9999** and for generations below 10^21, which print without an
  exponent (`AttemptId.FormatIsValid`). A generation above 2^53 - 1 sorts with the ids that have none, below every
  smaller one (`AttemptId.CompareByGeneration`). A clone key that holds a line terminator is not recognised
  (`AttemptPath.CloneKeyInverts`).
- **An excerpt that is one byte too long keeps its whole text yet is marked truncated**, because `true` is a byte
  shorter than `false` (`EvidenceResponse.WholeTextKept`).

## Model

| member | source | states |
|---|---|---|
| BatcherTypes.Classify | agent/src/batcher.ts:105-120 | exactly which answers are transient, oversize and fatal; the rest are permanent |
| BatcherTypes.Tombstone | agent/src/batcher.ts:167-195 | a marker keeps seq and attribution, is measured, and marking a marker changes nothing |
| BatcherMachine.TakeCount | agent/src/batcher.ts:910-924 | the longest prefix within the count limit and the byte cap, and never none |
| BatcherMachine.Numbered | agent/src/batcher.ts:622-626 | held events get consecutive seqs after the cursor, in order, with measured sizes |
| BatcherMachine.Measured | agent/src/batcher.ts:476-487 | an emitted frame keeps its seq and is itself or, over the hard cap, a marker |
| BatcherInvariant.StepOk | agent/src/batcher.ts:317-1668 | every event keeps the batcher's invariant |
| BatcherInvariant.RunOk | agent/src/batcher.ts:317-1668 | every reachable state satisfies the invariant, whatever server and outbox answer |
| BatcherInvariant.BudgetSuffices | agent/src/batcher.ts:1060-1068 | a batch under the byte cap leaves the search below 18 posts, so the 24-post budget is never reached |
| BatcherInvariant.BisectionCost | agent/src/batcher.ts:1055-1112 | in every run a probe is at most number ceil(log2 n) of its search, at most the 18th, and the budget trip never happens |
| BatcherInvariant.CeilLog2 | agent/src/batcher.ts:59-65 | the smallest k with 2^k at least n |
| BatcherPending.SettlePostKeeps | agent/src/batcher.ts:1171-1312 | any answer leaves what is owed as it was, minus the confirmed messages, at most with its head replaced by its marker |
| BatcherPending.ContinueKeeps | agent/src/batcher.ts:1173-1179 | the flush loop head moves messages without losing, adding or reordering any |
| BatcherPending.EmitOwned | agent/src/batcher.ts:494-531 | an emitted frame is appended at the end of what is owned, or folded into the range |
| BatcherPending.PrepPostedKeeps | agent/src/batcher.ts:683-697 | a preparation post keeps the owed queue, minus the batch when it is accepted |
| BatcherStream.RunStream | agent/src/batcher.ts:402-531 | in every never-spilled run without reservation the server's seqs are a gapless interval, and until a trip confirmed plus owed messages are exactly the assigned seqs in order |
| BatcherStream.AbsorbGapless | agent/src/batcher.ts:1171-1190 | applying the next consecutive messages keeps the server's interval gapless |
| BatcherNumbering.RunNumbering | agent/src/batcher.ts:420-420 | in every run seqs are assigned in strictly increasing order, so none is assigned twice |
| BatcherNumbering.ReservedHoldsBack | agent/src/batcher.ts:494-508 | while reserved no event but the release assigns a seq; an emitted frame joins the held events or the reservation has failed |
| BatcherNumbering.ReleaseResumes | agent/src/batcher.ts:612-634 | a release needs a fully drained tail and numbers the held events contiguously from a cursor at or above it, within 2^31-1 |
| BatcherLoss.SpillCoverage | agent/src/batcher.ts:1390-1483 | in an untripped run whose returned appends committed, every assigned seq is owed, stored or delivered if and only if no range write returned after the live range had grown |
| BatcherLoss.StaleByFold | agent/src/batcher.ts:516-549 | the captured range goes stale exactly when an emit is folded during the range write |
| BatcherCoverage.StepCovered | agent/src/batcher.ts:1413-1483 | every step but that one keeps all assigned seqs accounted for |
| BatcherWitness.FoldedSeqIsLost | agent/src/batcher.ts:1415-1422 | a concrete run that loses a seq this way |
| BatcherClose.FinalSpillRecords | agent/src/batcher.ts:1489-1546 | whatever the outbox answers, the last write only moves owed seqs into records, the range first and the buffer from its head; a tail reported as kept is recorded whole; something is left without the unclean mark exactly when there was none and none could be set |
| BatcherClose.CloseCoverage | agent/src/batcher.ts:1569-1621 | after every untripped run and any last write, every assigned seq is owed, recorded or acknowledged if and only if no range write of the run forgot one; with a kept tail, recorded or acknowledged |
| BatcherTruth.NoFalseAccusation | agent/src/batcher.ts:1055-1158 | with transient and 413 answers arbitrary and the others truthful, a payload-rejected marker always replaces a really poisoned message, and the search window always holds a poison with only clean messages before it |
| BatcherTruth.StepTruth | agent/src/batcher.ts:1241-1303 | every truthful event keeps this |
| BatcherDrain.SettleLess | agent/src/batcher.ts:1171-1312 | every answer of any class ends the flush's posts or decreases (owed, unmarked, split limit, search phase) lexicographically |
| BatcherDrain.DrainOutcome | agent/src/batcher.ts:1171-1312 | against any api an undisturbed flush stops; if it did not trip, it delivered everything if and only if it never gave up |
| BatcherWitness.RejectionsEnd | agent/src/batcher.ts:1241-1303 | endless rejections of one class end in delivery or one trip |
| BatcherWitness.MixedRejectionsStall | agent/src/batcher.ts:1104-1120 | after two emits and a flush, mixed rejections stop that flush with both messages owed and nothing tripped |
| BatcherFidelity.FlushDelivers | agent/src/batcher.ts:1171-1204 | against an api that rejects exactly the poisoned batches, one flush empties the queue and delivers it with each poison replaced by its same-seq marker |
| BatcherFidelity.ReplayKeepsSeqs | agent/src/batcher.ts:1694-1728 | whatever the answers, a replay delivers a prefix of its record seq for seq, and all of it exactly when it resolves |
| BatcherFidelity.ReplayMatchesFlush | agent/src/batcher.ts:1694-1728 | the replay of a record delivers the same stream as a flush of the same messages |
| BatcherObject.PrefixLength | agent/src/batcher.ts:910-923 | the scanning loop computes the longest prefix |
| BatcherObject.NumberHeld | agent/src/batcher.ts:622-626 | the numbering loop computes the consecutive seqs |
| BatcherObject.MessageBatcher.TakePrefix | agent/src/batcher.ts:910-924 | removes exactly that prefix from the buffer |
| BatcherObject.MessageBatcher.SumBuffered | agent/src/batcher.ts:534-538 | the sum of the buffered sizes |
| BatcherObject.MessageBatcher.FoldIntoPendingRange | agent/src/batcher.ts:541-549 | the range grows to include the seq and nothing else it did not span |
| BatcherObject.MessageBatcher.Emit | agent/src/batcher.ts:402-531 | numbers and buffers, folds or holds a frame as the machine says; refuses exactly in a failed reservation |
| BatcherObject.MessageBatcher.Rearm | agent/src/batcher.ts:800-807 | back to the network, inert while reserved, unspilled or closed |
| BatcherObject.MessageBatcher.ReserveCandidateTransport | agent/src/batcher.ts:563-576 | freezes numbering at the current seq, or refuses |
| BatcherObject.MessageBatcher.ReleaseReservation | agent/src/batcher.ts:612-634 | releases exactly under the drained-tail and cursor conditions |
| BatcherObject.MessageBatcher.RefillPendingRangeChunk | agent/src/batcher.ts:815-839 | the next chunk of the range becomes markers at the head of the buffer |
| BatcherObject.MessageBatcher.NoteTransientFailure | agent/src/batcher.ts:1318-1380 | counts, and after long enough spills or trips |
| BatcherObject.MessageBatcher.Bisect | agent/src/batcher.ts:1055-1158 | the search loop ends where the machine's bisection ends |
| BatcherObject.MessageBatcher.HandleFailure | agent/src/batcher.ts:1212-1312 | the reaction to a failed batch is the machine's |
| BatcherObject.MessageBatcher.DoFlush | agent/src/batcher.ts:1171-1204 | the flush loop terminates and ends where the drain ends |
| BatcherObject.MessageBatcher.FlushToNetwork | agent/src/batcher.ts:965-987 | a network flush equals the machine's drain, post for post |
| BatcherObject.MessageBatcher.DoSpillFlush | agent/src/batcher.ts:1390-1483 | the spilled flush writes mark, range and segments as the machine does |
| BatcherObject.MessageBatcher.FlushToOutbox | agent/src/batcher.ts:1390-1483 | a spilled flush equals the machine's spill drain |
| BatcherObject.MessageBatcher.FlushMessages | agent/src/batcher.ts:965-987 | picks the target, keeps the invariant, and does nothing while reserved or tripped |
| BatcherObject.MessageBatcher.DrainOnClose | agent/src/batcher.ts:1644-1655 | the close loop always ends, with nothing owed or after three attempts without progress |
| BatcherObject.MessageBatcher.FinalSpillOnClose | agent/src/batcher.ts:1489-1546 | the segment loop does what the last write is specified to do: records only, a kept tail leaves nothing owed |
| BatcherObject.StoreStepShrinks | agent/src/batcher.ts:1390-1483 | every outbox answer brings a spilled flush closer to its end |
| BatcherObject.EndingInvariant | agent/src/batcher.ts:1171-1204 | answering a post does not change where a flush ends |
| RegistryOrder.SortOrdered | agent/src/active-run-registry.ts:34-45 | the stable sort orders by the comparator |
| RegistryOrder.SortPermutes | agent/src/active-run-registry.ts:480-489 | and permutes its input |
| RegistryOrder.PrecedesTransitive | agent/src/active-run-registry.ts:34-45 | both comparators are total preorders |
| RegistryProjection.LeasableExactly | agent/src/active-run-registry.ts:279-287 | a run is leasable exactly when some outcome is the first of its tuple and not disowned |
| RegistryProjection.GroupsMembers | agent/src/active-run-registry.ts:300-309 | a policy group is a run with a policy outcome or a pending-only registration |
| RegistryProjection.ProjectProtects | agent/src/active-run-registry.ts:296-343 | a run that needs protection is leased or makes the projection unknown |
| RegistryProjection.ProjectOnly | agent/src/active-run-registry.ts:296-343 | nothing else is leased |
| RegistryProjection.Oldest | agent/src/active-run-registry.ts:334-334 | the earliest journal time of a group |
| RegistrySnapshot.PendingIsProtected | agent/src/active-run-registry.ts:416-467 | every run that needs protection is listed pending or the snapshot overflows |
| RegistrySnapshot.ListedNeedsProtection | agent/src/active-run-registry.ts:416-467 | only such runs are listed pending |
| RegistryRotation.OpenGateListsAll | agent/src/active-run-registry.ts:246-261 | over gate reads and builds in any order the gate stays as it is; while it is closed every snapshot overflows, and while it is open and the live entries leave room every snapshot lists exactly the runs that need protection |
| RegistrySnapshot.NeverBoth | agent/src/active-run-registry.ts:428-449 | no run is listed both live and pending |
| RegistrySnapshot.PendingWithinCap | agent/src/active-run-registry.ts:441-449 | pending entries never exceed min(cap, 256 - live) |
| RegistryDistinct.OneEntryPerRun | agent/src/active-run-registry.ts:440-453 | a snapshot lists every run once if and only if: when all fits, every run with leasable ordinary outcomes in two generations is folded by a policy group; on overflow, there is no slot or the fixed slots hold distinct runs |
| RegistryDistinct.LeasesRepeat | agent/src/active-run-registry.ts:315-336 | the leases repeat a run exactly when it has leasable ordinary outcomes in two generations and no policy group folds them |
| RegistryDistinct.SelectDistinct | agent/src/active-run-registry.ts:477-496 | the rotating slot never repeats a fixed one, so only the fixed slots or the whole list can repeat a run |
| RegistryDistinct.EndedTwiceIsListedTwice | agent/src/active-run-registry.ts:451-453 | a run that ended in two generations is listed twice without overflow for every cap of 2 or more, and once under a cap of 1 |
| RegistryRotation.EveryRunTakesATurn | agent/src/active-run-registry.ts:477-496 | with a slot, any max(1, omitted) consecutive builds over unchanged inputs list every pending run |
| RegistryRotation.NoSlotListsNone | agent/src/active-run-registry.ts:481-481 | without one, no build lists any, and the snapshot overflows |
| RegistryRotation.FixedGoFirst | agent/src/active-run-registry.ts:484-487 | no omitted run precedes a fixed one: blocked first, then oldest |
| RegistryRotation.BuildsTurn | agent/src/active-run-registry.ts:490-494 | the cursor moves by one with every build that rotates, and persists |
| RegistryRotation.BuildsRepeat | agent/src/active-run-registry.ts:296-312 | builds do not change what the next build projects |
| RegistryFence.ApplyOk | agent/src/active-run-registry.ts:72-217 | every operation keeps run ids distinct and identities unique |
| RegistryFence.ObservationFence | agent/src/active-run-registry.ts:196-210 | an observation passes its fence if and only if no claim, ownership write, clear, prune or removal of its run happened since it began |
| RegistryFence.CommitsOnce | agent/src/active-run-registry.ts:206-209 | an observation commits at most once, over any later operations |
| RegistryFence.TouchBreaks | agent/src/active-run-registry.ts:124-167 | each such operation breaks the fence |
| RegistryFence.BrokenStays | agent/src/active-run-registry.ts:200-203 | a broken fence never mends, even when the evidence returns to the same value |
| RegistryObject.PendingOutcomes | agent/src/active-run-registry.ts:351-357 | the unsettled outcomes under lower-case ids, in order |
| RegistryObject.LeasableOf | agent/src/active-run-registry.ts:279-287 | the filtering loop computes the leasable outcomes |
| RegistryObject.GroupPolicies | agent/src/active-run-registry.ts:300-306 | the grouping loop computes the groups in order of appearance |
| RegistryObject.AddFallbacks | agent/src/active-run-registry.ts:307-309 | and adds the pending-only registrations |
| RegistryObject.SpliceOut | agent/src/active-run-registry.ts:322-324 | the backward splice removes exactly the run's entries |
| RegistryObject.CoalesceGroups | agent/src/active-run-registry.ts:315-336 | the folding loop computes the projection |
| RegistryObject.LiveOf | agent/src/active-run-registry.ts:428-437 | the live entries in insertion order |
| RegistryObject.ActiveRunRegistry.Add | agent/src/active-run-registry.ts:124-132 | registers with a new token and makes ownership unknown where it matters |
| RegistryObject.ActiveRunRegistry.SetPhase | agent/src/active-run-registry.ts:136-142 | changes a registered run's phase only |
| RegistryObject.ActiveRunRegistry.Remove | agent/src/active-run-registry.ts:162-167 | removes the run if generation and token match |
| RegistryObject.ActiveRunRegistry.MarkPolicyPendingOnly | agent/src/active-run-registry.ts:171-178 | closes the execution and keeps the fallback |
| RegistryObject.ActiveRunRegistry.Project | agent/src/active-run-registry.ts:296-343 | projects and prunes the ownership evidence |
| RegistryObject.ActiveRunRegistry.NotePolicyOwnership | agent/src/active-run-registry.ts:183-192 | records evidence exactly when it is comparable, valid and observable |
| RegistryObject.ActiveRunRegistry.BeginPolicyOwnershipObservation | agent/src/active-run-registry.ts:196-205 | captures the identities an observation is bound to |
| RegistryObject.ActiveRunRegistry.CommitObservation | agent/src/active-run-registry.ts:206-209 | commits exactly when the fence passes and the evidence may be noted |
| RegistryObject.ActiveRunRegistry.ClearPolicyOwnership | agent/src/active-run-registry.ts:213-217 | forgets only the matching proof |
| RegistryObject.ActiveRunRegistry.ClaimsPausedByPendingOverflow | agent/src/active-run-registry.ts:257-261 | the unscoped gate, without moving epoch or cursor |
| RegistryObject.ActiveRunRegistry.SelectPendingForBuild | agent/src/active-run-registry.ts:477-496 | the selection and the moved cursor |
| RegistryObject.ActiveRunRegistry.Build | agent/src/active-run-registry.ts:416-467 | the snapshot and the new state |
| AuthorityQueue.MutualExclusion | agent/src/authority-lock.ts:476-513 | in every run at most one caller per directory holds the slot |
| AuthorityQueue.GrantsFollowArrival | agent/src/authority-lock.ts:481-494 | a grant finds every earlier caller of the directory released, and grants follow arrival order |
| AuthorityQueue.NeverStuck | agent/src/authority-lock.ts:487-493 | the earliest unsettled caller always has a step |
| AuthorityQueue.QuietMeansSettled | agent/src/authority-lock.ts:484-486 | when no step is left, every caller has settled |
| AuthorityQueue.StepUsesWork | agent/src/authority-lock.ts:486-513 | every step but an arrival uses up work, so the queue runs dry |
| AuthorityQueue.FinishTailsOk | agent/src/authority-lock.ts:486-486 | the tail is removed only when everyone in the directory has settled |
| AuthorityQueue.NestedWouldDeadlock | agent/src/authority-lock.ts:472-475 | a caller queued behind a running transaction cannot run before it ends, which is why nesting is refused |
| AuthorityQueue.Transactions.Begin | agent/src/authority-lock.ts:472-485 | queues behind the tail and becomes the tail, or refuses a nested call |
| AuthorityQueue.Transactions.WaitEnded | agent/src/authority-lock.ts:487-493 | the wait ends in a grant or in giving up |
| AuthorityQueue.Transactions.EnterCallback | agent/src/authority-lock.ts:502-506 | the callback starts under the slot |
| AuthorityQueue.Transactions.Finished | agent/src/authority-lock.ts:486-512 | releases the caller and removes its own tail |
| DiskRuns.StopsAreSerial | agent/src/cache-cap.ts:436-515 | in every run at most one stop is outstanding, and a later stop needs the earlier one released and a sample taken no earlier |
| DiskSafety.StopOnlyRunning | agent/src/cache-cap.ts:248-291 | in every run without a harmful delivery, however acknowledgements are delayed, reordered, repeated, lost or left over, no run is stopped that the server does not have as running |
| DiskHarm.HarmLeadsToStop | agent/src/cache-cap.ts:261-291 | after any harmful delivery, whatever the governor is doing and whatever the time, some continuation without a delivery, on a clock that goes on from there, stops that registration wrongly |
| DiskHarm.HarmfulExactly | agent/src/cache-cap.ts:248-291 | a delivery makes a wrongful stop possible, with any times or on a clock that goes on from a given one, if and only if it is harmful |
| DiskSafety.OwnAckIsHarmless | agent/src/cache-cap.ts:258-279 | in every run an acknowledgement that reaches the registration which sent the report is harmless |
| DiskSafety.ParkableIsRunning | agent/src/cache-cap.ts:285-291 | in every run without a harmful delivery a parkable run that may still be stopped is running at the server, now and after everything already sent |
| DiskGovernor.ParkableExactly | agent/src/cache-cap.ts:258-291 | whatever order acknowledgements arrive in, a run is parkable exactly when one running acknowledgement is newer than every other status sent or heard of |
| DiskStale.StaleAckStops | agent/src/cache-cap.ts:232-234 | a stop of a waiting run after an acknowledgement of an earlier registration |
| DiskPick.PicksLargest | agent/src/cache-cap.ts:477-492 | in every run whose selection has met no upsetting reading, the run picked holds the most cache bytes of all candidates, the first of them on a tie |
| DiskUpset.UpsetLeadsToWrongPick | agent/src/cache-cap.ts:345-379 | after any upsetting reading, in any run, the remaining measurements can end in a pick that is not the first with the most bytes |
| DiskUpset.UpsettingExactly | agent/src/cache-cap.ts:345-379 | a reading makes a wrong pick possible if and only if it is upsetting |
| DiskUpset.BoundaryMisleads | agent/src/cache-cap.ts:551-555 | a concrete run: one candidate is measured as empty, a turn boundary reads it as 7 bytes, and the other is picked with 5 |
| DiskPick.CandidatesExactly | agent/src/cache-cap.ts:456-456 | the candidates are the registered runs neither stopped nor skipped |
| DiskPick.RunStoppedOnce | agent/src/cache-cap.ts:495-504 | a registration is stopped at most once |
| DiskObject.DiskGovernorObject.Register | agent/src/cache-cap.ts:232-234 | the run gets an object of its own that is not parkable, every other run keeps its object, and the invariant holds: one stop at a time, fresh samples, no registration stopped twice |
| DiskObject.DiskGovernorObject.EnterRun | agent/src/cache-cap.ts:237-242 | a run not stopped before becomes a candidate again, and no other run changes |
| DiskObject.DiskGovernorObject.StatusRequested | agent/src/cache-cap.ts:248-256 | returns the number the report travels under, and no other run changes |
| DiskObject.DiskGovernorObject.StatusAcked | agent/src/cache-cap.ts:261-279 | the run is parkable afterwards exactly when a running acknowledgement counts |
| DiskObject.DiskGovernorObject.Unregister | agent/src/cache-cap.ts:298-308 | the run has no object and does not hold the stop slot any more, and every other run keeps its object |
| DiskObject.DiskGovernorObject.LeftLoop | agent/src/cache-cap.ts:315-326 | the run is not parkable, and holds the stop slot only if it left for a disk park |
| DiskObject.OnlyRunKeepsPick | agent/src/cache-cap.ts:237-326 | entering, sending, acknowledging and leaving never turn a right pick wrong |
| DiskObject.DiskGovernorObject.UnskipAll | agent/src/cache-cap.ts:451-451 | the loop clears the skip of every registered run |
| DiskObject.DiskGovernorObject.CollectCandidates | agent/src/cache-cap.ts:456-456 | the loop finds exactly the registered runs neither stopped nor skipped, in order |
| DiskObject.DiskGovernorObject.Observe | agent/src/cache-cap.ts:436-472 | starts a selection only with the stop slot free, on a fresh sample, over exactly the runs that may be acted on |
| DiskObject.DiskGovernorObject.MeasureNext | agent/src/cache-cap.ts:477-493 | one measurement; the last one makes at most one stop and, if the pick was right so far, stops or reclaims the first of the candidates with the most bytes; a right pick stays right |
| DiskObject.DiskGovernorObject.RecordBoundaryReading | agent/src/cache-cap.ts:551-555 | the reading of a turn boundary leaves a right pick right exactly if it is not upsetting |
| DiskObject.DiskGovernorObject.SelectAndStop | agent/src/cache-cap.ts:477-515 | the measuring loop ends in at most one stop, and if the pick was right so far, of the first candidate with the most bytes |
| DiskObject.DiskGovernorObject.Decide | agent/src/cache-cap.ts:493-515 | the slot is taken only for a registered, parkable run not stopped before; a reclaimed run is registered and not parkable |
| DiskObject.DiskGovernorObject.ReclaimEnded | agent/src/cache-cap.ts:536-549 | the reclaimed run is a candidate afterwards only if nothing is left of its caches |
| Watcher.ReleaseWatcher.Run | scripts/release-watch.py:555-673 | for any answers: reruns within the budget per workflow, at most two smoke posts and one assertion post, under the discipline on the history; code 0 only when all was green; on a clock that never runs backwards nothing is written in recovery after a reading at the limit |
| Watcher.ReleaseWatcher.CanWrite | scripts/release-watch.py:204-210 | refuses after an uncertain write or on a changed identity; otherwise allows exactly when the last reading is under the limit |
| Watcher.ReleaseWatcher.RecoverySnapshot | scripts/release-watch.py:212-233 | a reading becomes evidence only if its attempt is the first, the last seen, or one the watcher requested |
| Watcher.ProgressOf | scripts/release-watch.py:235-259 | a request is followed only in its own run and attempt or the next, and ends only when the retried job of the next attempt has settled |
| Watcher.ReleaseWatcher.TrackRecovery | scripts/release-watch.py:235-267 | a request is dropped exactly when it has ended, and goes on exactly while it is under way |
| Watcher.ReleaseWatcher.Reserve | scripts/release-watch.py:285-290 | spends from the ledger first, then journals; never refunded |
| Watcher.ReleaseWatcher.Dispatch | scripts/release-watch.py:291-298 | a last clock reading, then the write, which the evidence warrants; unconfirmed exactly when the history is |
| Watcher.ReleaseWatcher.RecoveryPost | scripts/release-watch.py:279-305 | needs evidence for the attempt, and remembers exactly the request it confirmed |
| Watcher.ReleaseWatcher.RecoveryTick | scripts/release-watch.py:307-342 | reports green only on a green latest smoke reading; every path keeps the discipline |
| Watcher.ReleaseWatcher.RetrySmokeAgain | scripts/release-watch.py:333-341 | posts only when the last two smoke readings show the same retryable job |
| Watcher.ReleaseWatcher.RecoverAssertion | scripts/release-watch.py:357-380 | reports a retry only with a confirmed request for this run on record and the latest smoke reading green |
| Watcher.ReleaseWatcher.RetryAssertionAgain | scripts/release-watch.py:376-380 | posts only on two green smoke readings and two readings of the same lone failure |
| Watcher.ReleaseWatcher.Observe | scripts/release-watch.py:469-506 | the reading of this run becomes evidence; a rerun is settled only by a finished later attempt |
| Watcher.ReleaseWatcher.RerunPublication | scripts/release-watch.py:620-664 | reruns the failed rows that are no gate, with a journal only if they are still the failed jobs |
| Watcher.ReleaseWatcher.PollWorkflow | scripts/release-watch.py:564-664 | a workflow that is polled without an exit counts as green exactly when its run was found and its rows are green, and then no budget was touched; it exits with 1, or with 3 after three unreadable dumps |
| Watcher.ReleaseWatcher.Poll | scripts/release-watch.py:555-673 | the tick loop ends with one of four codes, with 0 only when both publication workflows were read as green and, in recovery, the latest smoke reading is |
| WatchLog.WritesWithinBudgets | scripts/release-watch.py:157-168 | under the discipline no kind of write exceeds its budget |
| WatchLog.WriteAt | scripts/release-watch.py:279-298 | every write stands right after its own ledger entry, its journal record and, in recovery, a reading under the limit, is warranted by the evidence before it, and follows only confirmed writes |
| WatchLog.SmokePostAt | scripts/release-watch.py:307-342 | every smoke post follows two readings of the same retryable job of its attempt, the later one the latest |
| WatchLog.PostedSmokeWasInfra | scripts/release-watch.py:80-90 | what a smoke post retries had failed in allowlisted steps only |
| WatchLog.AssertPostAt | scripts/release-watch.py:357-380 | before every assertion post the latest smoke reading is green and the latest release reading shows the lone failure of its attempt |
| WatchLog.ReadingsBeforeWrite | scripts/release-watch.py:204-210 | with a steady clock nothing is written after a reading at 7200 seconds |
| WatchLog.SmokeAttemptAt | scripts/release-watch.py:221-230 | every smoke attempt seen is the first, a repetition, or one requested before |
| WatchLog.WritesAreSpent | scripts/release-watch.py:641-645 | each write has its own ledger entry |
| WatchEvidence.ClassifyExactly | scripts/release-watch.py:125-137 | pending while any row is, then failed if some row failed and green if none did |
| BraceTrees.ExpandAppend | agent/src/claude-cross-check.ts:66-95 | expanding a concatenation is the ordered product of the expansions |
| BraceExpansion.FewerOpens | agent/src/claude-cross-check.ts:82-86 | putting an alternative in its group's place leaves fewer open braces, so the rewriting terminates |
| BraceExpansion.ScanGroup | agent/src/claude-cross-check.ts:76-92 | scanning a group finds exactly its alternatives and what follows it |
| BraceExpansion.ExpansionsOfTree | agent/src/claude-cross-check.ts:68-93 | on the print of a tree the rewriting returns the tree's expansions in order |
| BraceBalance.BalancedHasTree | agent/src/claude-cross-check.ts:64-75 | a string has a tree exactly when its braces balance |
| BraceBalance.ExpansionsExactly | agent/src/claude-cross-check.ts:64-95 | the rewriting succeeds exactly on balanced strings, with the expansions of any tree of the string |
| PatternGuard.SplitGroup | agent/src/claude-cross-check.ts:76-92 | the depth-counting loop splits a group |
| PatternGuard.Walk | agent/src/claude-cross-check.ts:68-93 | the walk pushes all expansions, or fails exactly when unbalanced or over the cap |
| PatternGuard.ExpandBraces | agent/src/claude-cross-check.ts:66-95 | the capped expansions |
| PatternGuard.CappedMeaning | agent/src/claude-cross-check.ts:62-95 | returns the ordered tree expansions exactly when the braces balance and there are at most 256 |
| PatternGuard.PassingPatternStaysInside | agent/src/claude-cross-check.ts:103-113 | no expansion of a passing pattern is absolute, home-relative or has a parent component |
| PatternGuard.ParentComponent | agent/src/claude-cross-check.ts:56-58 | a parent component always sits where the expression matches |
| AttemptId.AttemptIdParts | agent/src/attempt-path.ts:19-19 | an attempt id is exactly a stamp, a generation and sixteen hex characters |
| AttemptId.FormatIsValid | agent/src/attempt-path.ts:44-57 | a formatted id is valid exactly for years 0 to 9999 and generations below 10^21 |
| AttemptId.CompareZero | agent/src/attempt-path.ts:128-137 | the comparison is zero only on equal ids |
| AttemptId.CompareFlips | agent/src/attempt-path.ts:128-137 | it is antisymmetric |
| AttemptId.CompareTransitive | agent/src/attempt-path.ts:128-137 | and transitive, so a total order |
| AttemptId.CompareByGeneration | agent/src/attempt-path.ts:115-137 | ids of one second are in numeric order of their generations if and only if the larger is a safe integer, or both are unsafe and the ids are in text order; `gx` ranks with the unsafe ones |
| AttemptPath.ParseBasenameExactly | agent/src/attempt-path.ts:21-24 | the parse is the unique split into key and id, even when the key holds an earlier separator |
| AttemptPath.FormatThenParse | agent/src/attempt-path.ts:71-88 | parsing a formatted clone path returns its parts |
| AttemptPath.ParseThenFormat | agent/src/attempt-path.ts:71-88 | formatting a parsed path returns the path |
| AttemptPath.CloneKeyInverts | agent/src/attempt-path.ts:96-111 | the clone key of an attempt is that of its canonical clone, exactly for single-line keys |
| AttemptPath.ResidueRoundTrip | agent/src/attempt-path.ts:196-224 | a name parses to a key and uuid exactly when formatting them gives the name |
| AttemptPath.ArtifactIsNoClone | agent/src/attempt-path.ts:144-152 | an artifact name is never a clone of a proper key |
| EvidenceResponse.NextIsLarger | agent/src/ci-evidence-tools.ts:32-36 | one more code point never makes the response smaller |
| EvidenceResponse.Respond | agent/src/ci-evidence-tools.ts:20-49 | the binary search returns the excerpt, its longest fitting prefix, or a refusal when not even the empty one fits |
| EvidenceResponse.LongestIsUnique | agent/src/ci-evidence-tools.ts:29-41 | the answer is determined |
| EvidenceResponse.WholeTextKept | agent/src/ci-evidence-tools.ts:23-41 | when an over-long excerpt keeps its whole text |

## Left out

- Sanitising, redaction, logging, the usage recorder, jitter and real timers of the batcher: identity or nondeterministic here.
- The bounded tombstone and journal-only seq sets of the batcher (agent/src/batcher.ts:715-765): reporting only.
- `preserveOwnedTail` and `flushOwned`: option plumbing around the last write and the flush.
- The outbox drain inside a preparation: its outcome is the `ok` of an event; the outbox's on-disk format and its replay cursor are abstract.
- BatcherObject.MessageBatcher.FlushToNetwork: states a flush without concurrent events; interleaving is what the machine's runs are for.
- BatcherObject.MessageBatcher.HandleFailure: the branches for a reservation taken or an abort during the post are the machine's, not the method's.
- BatcherObject.MessageBatcher.DoFlush: no emit lands between two posts, as for the flush it is part of.
- BatcherObject.MessageBatcher.DoSpillFlush: no emit lands during a write; `BatcherLoss` is about exactly those emits.
- BatcherObject.MessageBatcher.FlushToOutbox: a spilled flush without concurrent events.
- BatcherObject.MessageBatcher.FlushMessages: the sharing of one flush by several callers is left out.
- BatcherObject.MessageBatcher.DrainOnClose: the abort signal is left out; the choice between this loop and `FinalSpillOnClose` is the caller's.
- BatcherObject.MessageBatcher.FinalSpillOnClose: the identities a reservation collects from committed records are left out.
- RegistryObject.ActiveRunRegistry.ClaimsPausedByPendingOverflow: the gate of an unscoped worker.
- RegistryObject.ActiveRunRegistry.Build: without `pending_all`, cooldowns and the scoped fields.
- Watcher.ReleaseWatcher.PollWorkflow: what led to a write is stated where the write is made and over the whole history, not again here.
- BatcherObject.MessageBatcher.Bisect: the branch for an exhausted search budget is not written, because it is proved unreachable.
- DiskObject.DiskGovernorObject.SelectAndStop: the measuring loop when nothing happens between its awaits; `MeasureNext` is the step that interleaves.
- BatcherFidelity.FlushDelivers: starts from any state that satisfies the invariant, is idle, unreserved, untripped and not spilled.
- Cooldown display entries, the scoped claim gate, `pending_all`, the policy protection list and the register snapshot of the registry: projections of the same lists.
- Lower-casing of run ids is ASCII only, and strings are compared by code point rather than by UTF-16 unit.
- The cap of the registry is taken as the clamped non-negative integer; the fallback for a missing cap is 0.
- File opening, flock children, lock-file verification and storage checks of the authority lock: between grant and callback they only delay or fail.
- The soft layer of the disk governor (trimming, the streak and the preventive park) and the threshold arithmetic: a reading at a turn boundary is an event of any value, and a sample is over or not.
- Workflow snapshots of the watcher are read as parsed records; pagination, URL checks and the main-branch observation lane are not modelled, and the sleeping between ticks is left out.
- Relative and non-normal paths of the attempt parsers are rejected as in the source, but resolving a root against a working directory is not modelled: the root is given by its components.
- `isWithinPath` and the hook around the pattern guard: option plumbing and one branch.
- The zod schema and the error text of the evidence tool: a refusal is `None`.
