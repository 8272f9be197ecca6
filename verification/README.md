# A verified model of the broker autoscaler

The system moves a scaling group from one ordered set of brokers to another while
publishers keep sending. A controller runs PREPARE, PAUSE, fence, DRAIN, COMMIT and
ACTIVATE with rollback before COMMIT; publishers hold messages in a durable outbox and
dispatch them asynchronously; clients follow the published snapshots through a
reconciler; a policy engine proposes the changes, and rendezvous hashing places keys.

This project models those parts in Dafny 4.11 and proves what they promise together.
`dafny verify dfyconfig.toml` checks all of it.

## What is proved

- **Handover** (`Handover.dfy`). Controller, all publishers and the messages between
  them form one transition system. Once the controller enters COMMIT, no required
  publisher has an attempt of the old epoch in flight, pending or in doubt, at any
  later point of any run and through all later transitions, and none starts one. No
  attempt of an epoch starts before ACTIVE of that epoch was published. Conversely
  (`HandoverReach.dfy`, `HandoverCompletes.dfy`), a validated specification has a run
  that completes it within all deadlines, with every required publisher at work in the
  new epoch, exactly when its grace period fits into a phase.
- **Controller** (`Controller*.dfy`, `Transition.dfy`). Over every run, with saves,
  effects and publications failing anywhere and restarts anywhere: whatever was saved
  can be opened again, except for one exactly characterised shape; ingress is never
  enabled in two epochs, and what is announced as ACTIVE accepts messages; COMMIT
  follows one common drained interval of every source; each forward completion has
  exactly one piece of evidence and the cleaner accepts it; the published snapshots form
  a chain of valid advances and no save of one is refused; COMMIT is the point of no
  return; the reconcile loop ends. The class `Controller` has the operations themselves,
  and each keeps the object on such a run, with acknowledgements coming in before any of
  its saves. What it takes to leave a phase, and exactly when COMMIT is entered, is said
  over answers, reports and times (`ControllerPromises.dfy`).
- **Reconciler** (`Reconciler.dfy`). Bootstrap is confluent: result and success depend
  on the set of buffered updates only. Bootstrapping anywhere in the controller's
  chain ends at the newest snapshot delivered. Which of any two published snapshots is
  installed over the other is proved for every pair of every run, however many updates
  were missed in between (`ControllerCatchup.dfy`).
- **Outbox** (`LaneHeap.dfy`, `Outbox*.dfy`). The walk over the heap of ready lanes
  returns what a plain scan returns, and that is the one selection in which nothing is
  taken and nothing left out without a reason; every operation keeps lanes, heap, positions,
  byte totals, limits and storage in agreement; reopening always works and only turns
  in flight into in doubt; per-key order holds over whole runs.
- **Publisher and dispatcher** (`Placement.dfy`, `Publisher*.dfy`, `Dispatcher*.dfy`).
  Cached routes equal computed ones; what is stored for a message is the message, under
  the route of its own hash; activation reroutes everything retryable or is not
  installed. The dispatcher is a step relation in which an admission checks,
  selects, marks, registers and ends in separate steps, and results are stored and
  released in separate steps, with everything else in between: pending attempts and
  those being admitted stay within both limits and account for every durable attempt;
  a quiescent status is right although it is three reads; quiescence lasts until a
  dispatchable snapshot is applied; it is proved exactly when a close leaves nothing
  behind. The class `AsyncDispatcher` has the critical sections themselves, and each
  keeps the object on such a run and on a run of the outbox. Every step of every such
  run is a step of the handover model.
- **Policy and routing** (`Policy*.dfy`, `Routing.dfy`). Pressure scale-out needs an
  unbroken window over the evaluation history; within the budget and the bounds exactly
  the changes are decided that the measurements call for, growth by the first eligible
  broker; the states that may be restored are
  exactly those a history leads to; no input order matters; every proposed change
  moves as few keys as possible.

## Three properties that do not hold as one would expect

- A saved controller state can always be opened again, except when the specification
  lists COMMIT with nobody to command and COMMIT was published: validation accepts the
  empty list (controller/types.go:122-155), while opening requires commands issued for
  every listed published phase (controller/controller.go:1443-1523). `RestartClosure`
  proves this condition exact for states, and `EmptyCommitStrands` for specifications:
  of those that can reach COMMIT in time, exactly the ones with an empty COMMIT list
  have a run within all deadlines after which no restart succeeds. `StrandedExample`
  gives one with a required publisher. The specifications the runtime builds do not
  list COMMIT (runtime/production.go:634-648).
- A valid snapshot does not always let a publisher route. The route of any key is
  refused when two resources serve the chosen broker
  (shim/publisher/publisher.go:524-537), and a valid snapshot has one resource per
  broker and consumer set (control/snapshot.go:318-376). `RoutesExactly` proves that
  routing works exactly for groups with one consumer set, `TwoSetsRefused` gives a
  snapshot with two.
- Closing the dispatcher does not always leave nothing in flight. Close looks at the
  pending attempts only, and at nothing at all once the dispatcher is stopped
  (shim/publisher/async_dispatcher.go:678-687), while an admission looks at the closed
  flag, marks its batch durably and registers it as pending in three separate steps
  (shim/publisher/async_dispatcher.go:221-284), and the runtime closes without waiting
  for the dispatch loop (runtime/participant.go:81-93). `StoppedCloseExact` proves that
  a close that reports success, the first or a repeated one, leaves nothing in flight or
  pending, then and ever after, exactly when nothing is pending and no admission is past
  the closed flag and short of its registration. The close that stops the dispatcher has
  found nothing pending, so for it only the second half can fail. `CloseRace` is a run
  in which a close reports success while a durable record is in flight with no pending
  attempt; it ends with that attempt pending and no admission under way, where a repeated
  close reports success all the same.

## What the models assume

- A save or a storage transaction happens completely or not at all, and memory is
  replaced only after a successful save. A crash therefore looks like a failed save.
- A snapshot counts as published once it is saved as the retained membership, because
  a restarted controller serves it from there whether or not it was sent before.
- The controller's clock does not go back, and the options of the group are positive.
- The runtime builds each specification from the retained ACTIVE snapshot under an
  identity never used before (runtime/production.go:593-632). With a repeated identity
  a PAUSE acknowledgement of the earlier transition would still be in scope.
- Each publisher sees nondecreasing revisions, also across reconnects and restarts, and
  an acknowledgement with a publisher's authenticated identity comes from it.
- Both epochs' queues exist during a transition, and only the controller and the
  restart procedure change ingress.
- Event identities are not reused after deletion. The accepted size of a record is a
  positive function of its immutable content.
- Scores are an arbitrary function; measurements are real numbers.

## Model

| member | source | states |
|---|---|---|
| `Handover.HandoverExclusion` | runtime/participant.go:246-275 | after the controller entered COMMIT, at every later point of the run every unsettled or pending attempt of a required publisher, every attempt it is admitting and every attempt it starts, is of the new epoch or later |
| `Handover.ActiveBeforeAttempts` | shim/publisher/async_dispatcher.go:241-263 | a publisher starts an attempt of an epoch only after an ACTIVE snapshot of that epoch was published |
| `Handover.AcceptedIsClear` | controller/controller.go:351-395 | a PAUSE acknowledgement accepted for a required publisher means that publisher is clear of everything started before the PAUSED revision of this very transition |
| `Handover.QuiescentClears` | shim/publisher/async_dispatcher.go:596-667 | reading PAUSED, then nothing durable unsettled and then nothing pending, clears the publisher from that PAUSED revision on, whatever was started between the reads |
| `Handover.SealedKept` | controller/controller.go:590-661 | once COMMIT is entered, nothing published then or later lets a publisher work below the new epoch |
| `HandoverCompletes.EverySpecCompletes` | controller/controller.go:489-669 | every validated specification, built from a valid ACTIVE snapshot and with a grace period that fits into a phase, has a run of the whole system within all deadlines, with fresh readiness on entering COMMIT, that completes it, with an attempt of the new epoch at every required publisher |
| `HandoverCompletes.CompletesExactly` | controller/controller.go:746-788 | a validated specification can be completed within all deadlines exactly when its grace period is no longer than a phase may last, and the same with fresh readiness demanded on entering COMMIT |
| `HandoverCompletes.EmptyCommitStrands` | controller/controller.go:1443-1523 | a validated specification has a run within all deadlines to a saved state that no restart opens exactly when its COMMIT list is empty and its grace period fits into a phase, and the same with fresh readiness demanded on entering COMMIT |
| `HandoverCompletes.StrandedExample` | controller/types.go:122-155 | a concrete specification with a required publisher has both a run that completes it and a run after which no restart succeeds, each in time and with fresh readiness |
| `PublisherSteps.PublisherKeeps` | shim/publisher/publisher.go:201-262 | every publisher step keeps its membership and all its attempts, also those being admitted, tied to published dispatchable snapshots, and its revision never falls |
| `PublisherRefinement.StepRefines` | shim/publisher/async_dispatcher.go:209-563 | every step of every run of the dispatcher, of any interleaving, is for each group a step of the handover model or leaves the group's view alone |
| `PublisherRefinement.DispatchRefines` | shim/publisher/async_dispatcher.go:236-330 | marking a batch starts exactly this group's attempts under its dispatchable membership, registering makes exactly these pending, and ending the admission lets go of them |
| `PublisherRefinement.SettlingRefines` | shim/publisher/async_dispatcher.go:467-511 | storing results, accepting, retrying and late acknowledgements only settle attempts of the model |
| `PublisherRefinement.ReleaseRefines` | shim/publisher/async_dispatcher.go:517-558 | releasing what was stored only releases attempts of the model |
| `PublisherRefinement.ApplyRefines` | shim/publisher/publisher.go:201-262 | installing a snapshot leaves every attempt alone, also when it reroutes the retryable records |
| `PublisherRefinement.QuietIsQuiescent` | shim/publisher/async_dispatcher.go:609-640 | the durable counts are zero exactly when the model's publisher has nothing unsettled, the native count exactly when it has nothing pending |
| `ControllerRestart.RestartClosure` | controller/controller.go:125-214 | in every reachable state Open accepts what was saved exactly unless COMMIT was published with an empty COMMIT list, and changes nothing when COMMIT has no requirements |
| `ControllerRestart.OpenAccepts` | controller/controller.go:1443-1523 | a state the invariant allows passes every check of validateGroupState after the repairs, or is of the one refused shape |
| `ControllerRestart.StepInv` | controller/controller.go:489-669 | every save, effect, message and restart keeps the invariant on flags, times, commands, acknowledgements and telemetry |
| `ControllerRestart.EmptyCommitExample` | controller/types.go:122-155 | a concrete specification with an empty COMMIT list validates |
| `ControllerRestart.EmptyListValidates` | controller/types.go:122-155 | every specification that validates still does with an empty COMMIT list |
| `ControllerProgress.PointOfNoReturn` | controller/controller.go:466-484 | a transition at COMMIT or ACTIVATE stays there and never rolls back |
| `ControllerProgress.CompletesOnce` | controller/controller.go:1352-1360 | a transition completes at most once |
| `ControllerProgress.OneRecordEach` | controller/controller.go:1362-1383 | the bounded history has at most one record per transition, and the newest is that of a completed transition, with its result and time |
| `ControllerProgress.ChangesBounded` | controller/controller.go:489-744 | however everything interleaves, the changes Reconcile reports use up a budget fixed by phase and flags |
| `ControllerTimeline.PhaseTimeline` | controller/controller.go:1341-1360 | the phase history is the transition's path: from PREPARE without a gap, each phase left when the next was entered and the last on completion, with the deadline of the current phase |
| `ControllerChain.PublicationChain` | control/reconciler.go:263-329 | over any number of transitions and rollbacks each published snapshot is a valid advance of the one before, with strictly larger revision and never a smaller epoch |
| `ControllerChain.PublicationNeverRefused` | controller/controller.go:686-709 | wherever the controller would save its snapshot, the save is not refused |
| `ControllerChain.SaveNeverRefused` | controller/controller.go:933-960 | what is saved is the retained snapshot itself or a valid advance of it |
| `ControllerChain.BootstrapFollowsChain` | control/reconciler.go:136-182 | a client that reads any published snapshot and has buffered a stretch of the chain around it, in any order with repeats, ends at the newest of the stretch |
| `ControllerCatchup.MissedUpdates` | control/reconciler.go:263-329 | of any two snapshots published in a run, however many came between, the later is installed over the earlier exactly when it is ACTIVE over ACTIVE, ACTIVE in the same epoch, ACTIVE with what the earlier proposes one epoch on, PREPARE over ACTIVE in the same epoch, or PAUSED, DRAIN or COMMITTED of the same transition in order; otherwise it conflicts. Two are of one transition exactly when no ACTIVE one is between them |
| `ControllerCatchup.ActiveCatchesUp` | control/reconciler.go:289-329 | whatever was missed, a later ACTIVE snapshot is installed over an ACTIVE one, and the outcome of a transition over any snapshot of it |
| `ControllerCatchup.CommittedStays` | control/reconciler.go:289-329 | a client at COMMITTED takes a later snapshot exactly when that is ACTIVE of the same epoch |
| `Transition.PublicationsValid` | controller/controller.go:962-1028 | a specification valid at PREPARE yields five valid forward snapshots and a valid rollback snapshot |
| `Transition.ForwardAdvances` | control/reconciler.go:263-329 | each forward snapshot is a valid advance of the one before |
| `Transition.RollbackAdvances` | controller/controller.go:973-982 | the rollback snapshot is a valid advance of PREPARE, PAUSED and DRAIN |
| `Transition.FirstAdvances` | runtime/production.go:593-632 | PREPARE and the rollback snapshot of a specification built from an ACTIVE snapshot are valid advances of it |
| `Transition.SourcesExact` | controller/controller.go:790-851 | a validated specification names exactly one source per current resource, without repeats, so the inexact fallback is never taken |
| `ControllerIngress.IngressExclusion` | controller/controller.go:522-558 | in every reachable state all enabled queues are of one epoch: none at COMMIT, only target queues at ACTIVATE, only source queues before |
| `ControllerIngress.IngressReplayed` | runtime/resources.go:42-67 | the ingress decision from durable flags at a restart keeps the exclusion, whatever subset of queues it reached |
| `ControllerDrain.ContinuousDrain` | controller/controller.go:570-589 | on entering COMMIT there is one interval inside DRAIN, at least the grace long, over which every required source reported only known zeros with no gap above the freshness limit |
| `ControllerDrain.ZeroSinceIsMaximal` | controller/controller.go:401-462 | the zero-since instant of a source exists exactly while its latest report is a known zero and starts the maximal unbroken zero suffix of all its accepted reports |
| `ControllerDrain.SourceObserved` | controller/controller.go:439-452 | one accepted sample continues or restarts the zero interval as the whole history demands |
| `ControllerEvidence.EvidenceContract` | controller/controller.go:1385-1425 | a forward completion has exactly one entry of evidence under its identity and it passes every cleanup check; a rolled back transition has none |
| `ControllerEvidence.EvidenceMade` | controller/controller.go:1059-1076 | the state saved on entering COMMIT yields evidence that is complete, ordered in time, covers each source once and proves the grace for each |
| `ControllerEvidence.CheckCleanup` | runtime/resources.go:225-258 | the cleaner accepts exactly evidence with matching identity, times in order, the grace proved and each current queue covered by exactly one source |
| `ControllerEvidence.CheckSources` | runtime/resources.go:236-246 | one pass indexes the sources exactly when each is sound and none repeats |
| `ControllerObject.Controller.Reconcile` | controller/controller.go:489-669 | with acknowledgements coming in before any of its saves, the object stays on a run of the step relation. A phase is left, a flag set and the transition completed only with what it takes: everybody's answer, the brokers' recent confirmation, the times of entry and the deadline. DRAIN is left for COMMIT exactly when every queue has drained, everybody is ready and was so recently, the brokers confirm the fence and the save succeeds; stale readiness fails with just that, and queues not drained wait. It fails as past its deadline exactly when it is. Otherwise it acts unless it has to wait, and each change uses up part of the budget |
| `ControllerObject.Controller.Hear` | controller/controller.go:351-395 | acknowledgements that come in during a Reconcile change nothing but acknowledgements, and take none back |
| `ControllerObject.Controller.RunGroup` | runtime/runtime.go:241-288 | the inner reconcile loop ends after at most as many calls as the transition has changes left, and without failure only where the controller has to wait |
| `ControllerIngress.ActiveIsUsable` | controller/controller.go:728-744 | while ACTIVE of the target is retained every target queue accepts messages, and while ACTIVE of a rollback is retained after a fence attempt every source queue does |
| `ControllerObject.Controller.Begin` | controller/controller.go:285-347 | starts exactly a valid specification where there is no transition, or a completed one that it continues; the same transition again is found, whatever its broker addresses; anything else changes nothing |
| `ControllerPromises.ContinuesMeans` | controller/controller.go:1217-1225 | a transition continues a completed one exactly when it has another identity, starts in the epoch and with the members the other ended with, and beyond the revision of its last snapshot |
| `Transition.CheckSpec` | controller/types.go:122-155 | the checks accept exactly specifications with an identity, one epoch step, room for five revisions, valid members on both sides, somebody listed for each of PREPARE, PAUSE, DRAIN and ACTIVATE, distinct participants with a role that takes part in the phase, and a valid first snapshot |
| `ControllerObject.Controller.Acknowledge` | controller/controller.go:351-395 | recorded exactly when it names this transition and its phase, comes from somebody listed for it in their role, with their own issued command, is newer than what they said before, and the save succeeds; otherwise nothing changes |
| `ControllerPromises.AckMeans` | controller/controller.go:351-395 | in scope exactly when exactly the commands of its phase were issued, it is of this transition, phase and target epoch, and somebody listed is met by it: authenticated as themselves with their role and command, or without any where they have no role |
| `ControllerObject.Controller.Observe` | controller/controller.go:401-462 | recorded exactly when DRAIN waits for it, it is of this transition and source epoch, made in this phase and not in the future, of a current queue or of all at once, newer than what is known of each, not a replay, and the save succeeds; the sample then joins the history, otherwise nothing changes |
| `ControllerPromises.SampleMeans` | controller/controller.go:401-462 | in scope exactly when DRAIN is published and running, transition, epoch, time and role fit, and it is of one current queue, identified where roles are, or of all of them, and newer than the last report of each |
| `ControllerObject.Controller.RequestRollback` | controller/controller.go:466-484 | starts exactly short of COMMIT, not yet rolling back, with a proof of this transition that the source is intact, the target inactive and a fence that was tried reversible, and when the save succeeds; then only the request is set. Says CommitReached exactly from COMMIT on |
| `ControllerObject.Controller.Restart` | controller/controller.go:125-214 | reopening succeeds exactly outside the refused shape and leaves the state as saved where COMMIT has no requirements |
| `ControllerObject.Controller.SaveMembership` | controller/controller.go:686-709 | the controller's own snapshot becomes retained unless the store fails, and is found retained otherwise |
| `ControllerObject.CheckDrain` | controller/controller.go:762-779 | one pass over the sources finds the queues drained exactly when each reported itself empty recently and all were watched for the grace |
| `ControllerObject.CheckReadiness` | controller/controller.go:1088-1110 | succeeds exactly when everybody who is to answer in DRAIN has, and the newest answer of each is no older than the freshness limit, with the PREPARE answer counting only for untyped specifications; otherwise it is stale readiness |
| `ControllerPromises.ReadinessMeans` | controller/controller.go:1088-1110 | everybody counts as ready exactly when each required answer of DRAIN is there and recent by its own time of observation, or that of PREPARE where no requirement of the specification is typed |
| `ControllerPromises.DrainMeans` | controller/controller.go:746-788 | in DRAIN the queues count as drained exactly when the latest report of each current queue is of known zeros, of this phase and recent, and each was watched for the grace since the last of them became empty and since the phase began |
| `ControllerObject.WriteSample` | controller/controller.go:439-462 | the loop over the sources of a sample leaves each as if it were alone |
| `Bootstrap.Confluence` | control/reconciler.go:136-182 | two bootstraps from one baseline whose buffers hold the same set of updates end alike |
| `Bootstrap.FinishMeaning` | control/reconciler.go:136-182 | bootstrap succeeds exactly when baseline and updates form one coherent history, and then installs its newest snapshot |
| `Bootstrap.FinishChain` | control/reconciler.go:263-329 | the installed snapshot is reached from the baseline by valid advances through buffered updates |
| `Bootstrap.Reconciler.FinishBootstrap` | control/reconciler.go:136-182 | replays the buffer in revision order over the baseline and installs the result or nothing |
| `Bootstrap.Reconciler.ApplyUpdate` | control/reconciler.go:109-131 | until bootstrap ends buffers; afterwards installs exactly a valid snapshot of the group that follows the installed one: later, under the same routing rules, with members and resources kept within the epoch, and onward in one transition or to its outcome; refuses anything else with the reason |
| `Bootstrap.Reconciler.ApplyBaseline` | control/reconciler.go:67-104 | until bootstrap ends keeps the newest baseline offered, where newer means that it follows the one there, and refuses conflicting or regressing ones |
| `Control.FollowsExactly` | control/reconciler.go:263-329 | of two valid snapshots one is installed over the other exactly when revision, epoch, members, resources, routing rules, phase and transition let it follow, and is found the same exactly when equal |
| `Bootstrap.Reconciler.BeginSubscribe` | control/reconciler.go:55-65 | only the first subscription succeeds |
| `Control.Validate` | control/snapshot.go:141-241 | the loops accept exactly well-formed snapshots, with identifiers of at most 1024 bytes in UTF-8 and free of control characters |
| `Control.CheckEachResource` | control/snapshot.go:330-363 | one pass finds an ill-formed or repeated resource exactly when there is one |
| `Control.CheckCoverage` | control/snapshot.go:364-375 | accepts exactly resources in which every broker serves every consumer set |
| `Control.CheckMembership` | control/snapshot.go:378-396 | accepts exactly memberships of bounded size with valid distinct names |
| `Control.CheckDescriptors` | control/snapshot.go:274-303 | accepts exactly one valid endpoint per member where required, none otherwise |
| `OutboxIndex.EligibleFor` | outbox/outbox.go:766-808 | the walk with a second heap selects, in acceptance order, exactly the ready records that are the oldest of their key and of their group's open epoch, as long as fewer than the limit and fewer than their broker has slots were selected before, for every heap shape, filter and limit |
| `OutboxSelection.ScanIsSelection` | outbox/outbox.go:766-808 | so does the plain scan over all live records, in both directions: nothing is taken without this reason and nothing left out without one |
| `OutboxSelection.SelectionUnique` | outbox/outbox.go:766-808 | there is only one such selection |
| `OutboxSelection.SelectionBounded` | outbox/outbox.go:766-796 | it is no longer than the limit, and takes no more for a broker than it has slots |
| `OutboxIndex.NextHead` | outbox/outbox.go:775-807 | the smallest candidate is the next ready lane head in acceptance order |
| `OutboxIndex.HeadIsOldest` | outbox/outbox.go:175-184 | the head of a lane is the oldest live record of its key |
| `OutboxRecords.EnumerationUnique` | outbox/outbox.go:841-855 | the records determine their listing in acceptance order |
| `LaneHeap.Remove` | outbox/outbox.go:199-219 | removing at any slot keeps heap order and every entry's recorded slot, and takes out just that entry |
| `LaneHeap.Push` | outbox/outbox.go:205-209 | adding keeps heap order and every entry's recorded slot |
| `LaneHeap.Pop` | outbox/outbox.go:243-249 | takes the smallest entry |
| `OutboxUpkeep.RefreshLane` | outbox/outbox.go:1134-1151 | afterwards the heap holds exactly the lanes whose head is ready |
| `OutboxUpkeep.RefreshLaneForRecord` | outbox/outbox.go:1101-1106 | changing a record's state keeps lanes and heap right |
| `OutboxUpkeep.IndexAccepted` | outbox/outbox.go:1088-1099 | accepting a record keeps lanes and heap right |
| `OutboxUpkeep.RemoveIndexed` | outbox/outbox.go:1108-1132 | deleting any record, through lane compaction, keeps lanes and heap right |
| `Outbox.Store.AcceptMany` | outbox/outbox.go:341-434 | accepts exactly well-formed new batches within both limits whose transaction commits, all or nothing: each message is then a record with its own content, route and state, the next sequence number, the time and its size, and nothing else changed |
| `Outbox.Store.UpdateMany` | outbox/outbox.go:867-916 | applies a change to all listed records exactly when they are distinct, live and each allows it and the transaction commits |
| `Outbox.Store.AssignMany` | outbox/outbox.go:449-475 | exactly when all listed records are distinct and unassigned or ready with a complete route given, each becomes ready with its own route; nothing else changes |
| `Outbox.Store.MarkInFlightMany` | outbox/outbox.go:487-497 | exactly when all listed records are distinct and ready, each goes in flight with its attempt count one higher; nothing else changes |
| `Outbox.Store.MarkRejectedMany` | outbox/outbox.go:510-521 | exactly when all listed records are distinct and in flight, each is ready again with its own reason and the time; nothing else changes |
| `Outbox.Store.MarkUncertainMany` | outbox/outbox.go:534-545 | exactly when all listed records are distinct and in flight, each is in doubt with its own reason and the time; nothing else changes |
| `Outbox.Store.RetryMany` | outbox/outbox.go:557-566 | exactly when all listed records are distinct and in doubt, each is ready again; nothing else changes |
| `Outbox.Store.CompleteBatch` | outbox/outbox.go:595-696 | applies, in order, exactly the results that name a current attempt and epoch; the acknowledged records are gone and exactly their bytes freed, the rejected ones ready and the uncertain ones in doubt, each with its reason; nothing else changes |
| `Outbox.Store.CompactOrderIfNeeded` | outbox/outbox.go:1207-1219 | dropping dead entries from the order changes no listing |
| `Outbox.Store.EligibleFor` | outbox/outbox.go:766-808 | the object selects exactly these records of its own |
| `Outbox.Store.Rebuild` | outbox/outbox.go:1077-1086 | indexing from scratch gives the same index invariant |
| `Outbox.Store.Reopen` | outbox/outbox.go:918-1075 | reopening succeeds unless writing back fails, keeps order, sequences and bytes, and makes exactly what was in flight in doubt |
| `OutboxRecovery.LoadAll` | outbox/outbox.go:950-1046 | loads exactly buckets in which records, keys, event index, sizes and totals agree within the limits |
| `OutboxRecovery.MirrorLoads` | outbox/outbox.go:918-1075 | the buckets of a store that kept its invariant pass all these checks and give back the live records in order |
| `OutboxOrder.FirstInFirstOut` | outbox/outbox.go:754-759 | when a record is attempted, every earlier record of its key was acknowledged and deleted before; the dispatcher object and its restarts stay on runs this is proved of |
| `OutboxOrder.OneUnsettledPerKey` | outbox/outbox.go:59-65 | a key has at most one record in flight or in doubt, and it is the key's oldest |
| `OutboxOrder.LeavesByAcknowledgement` | outbox/outbox.go:571-583 | a record leaves only by an acknowledgement of its current attempt and epoch, and never comes back |
| `OutboxOrder.LateResultHarmless` | outbox/outbox.go:568-583 | a result of an attempt that was followed by another attempt of the record is never applied, however late it comes |
| `OutboxEffects.SettlingMeans` | outbox/outbox.go:624-652 | an acknowledged record is gone, a rejected one ready and an uncertain one in doubt with its reason, route and content kept, and nothing else changed |
| `OutboxEffects.AppliedInOrder` | outbox/outbox.go:612-652 | the results applied are exactly those of a record in flight, or in doubt where acknowledged, with its attempt number and epoch, in the order given |
| `OutboxEffects.AcceptingMeans` | outbox/outbox.go:341-434 | accepting stores each message under its own event with the next sequence number, and leaves every other record alone |
| `OutboxEffects.RejectingMeans` | outbox/outbox.go:510-521 | a rejection is possible exactly for records in flight, and leaves each ready with its own reason |
| `OutboxOrder.CrashHoldsKey` | outbox/outbox.go:1013-1019 | what was in flight when the process died is in doubt after reopening, with its attempt and route, and nothing of its key is selected until its own result comes or it is retried, whatever else happens |
| `Placement.CachedRoute` | shim/publisher/publisher.go:488-506 | a cached route equals computing it again; the cache gains exactly a missing key that has a route and, when full, loses exactly the oldest |
| `Placement.FindRoute` | shim/publisher/publisher.go:508-545 | the route is the winning broker's, or refused where resource or endpoint is missing or ambiguous |
| `Placement.RouteExactly` | shim/publisher/publisher.go:508-545 | a route is given exactly for the broker that wins the key among the members, in the snapshot's epoch, by its own endpoint and to the topic of the one resource that serves it, or to the group's destination where no resources are listed |
| `Placement.RoutesExactly` | shim/publisher/publisher.go:524-537 | a valid snapshot routes a scored hash exactly when the group has one consumer set |
| `Placement.TwoSetsRefused` | shim/publisher/publisher.go:524-537 | a concrete valid snapshot with two consumer sets routes nothing |
| `PublisherObject.Publisher.ApplyMembership` | shim/publisher/publisher.go:201-262 | installs exactly valid newer snapshots of the contract; ACTIVE exactly when every unassigned or ready record of the group has a route and the transaction commits, and then each of these has the route that the snapshot gives its own hash, and nothing else changed |
| `PublisherObject.Publisher.AcceptBatch` | shim/publisher/publisher.go:280-365 | accepts exactly when every message is admissible and routable, complete, new and not repeated, the batch fits messages, sequences and bytes, and the transaction commits. Then each message is stored under its own event with its own payload, topic, properties, hash and group and the contract's library, algorithm and queue, ready with the route that the dispatchable membership gives its own hash, or unassigned; nothing else changed |
| `PublisherObject.RecordExactly` | shim/publisher/publisher.go:307-365 | a record can be built for a message exactly when contract, membership and hash admit it, and it is the message field by field with the contract and route it is sent under |
| `PublisherObject.RecordStorable` | shim/publisher/publisher.go:307-365 | a built record passes the outbox's checks exactly when hash and library version are there, and is ready exactly under a dispatchable snapshot, in its epoch |
| `PublisherObject.KeysAreGroupAndHash` | shim/publisher/publisher.go:339-352 | two records with the contents built for two messages share an ordering key exactly when the messages share group and hash |
| `PublisherObject.Publisher.RetryAckUncertain` | shim/publisher/publisher.go:449-471 | a record is retried exactly when it is in doubt, its group is ACTIVE with a membership that gives it the same route, and the transaction commits |
| `PublisherObject.Publisher.AssignmentFor` | shim/publisher/publisher.go:488-506 | the object's cached routes equal computed ones through every operation |
| `DispatcherRuns.Accounting` | shim/publisher/async_dispatcher.go:209-563 | under every interleaving of the separate steps, pending attempts and the marked batch together stay within both limits, and every durable record in flight has a pending entry with its exact attempt and epoch or is in the marked batch with these |
| `DispatcherAccounting.StepKeeps` | shim/publisher/async_dispatcher.go:209-563 | each of the separate steps keeps the accounting, the limits, what is known of the admission in progress and of the results being stored |
| `DispatcherRuns.StatusSound` | shim/publisher/async_dispatcher.go:596-640 | a status is three reads with anything in between; unless a dispatchable snapshot of the group is applied meanwhile, a quiescent answer is right at the last read and stays right |
| `DispatcherRuns.QuiescenceLasts` | shim/publisher/async_dispatcher.go:642-667 | quiescence of a group that may not be dispatched lasts until a dispatchable snapshot of it is applied, also through an admission that began before |
| `DispatcherClose.StoppedCloseExact` | shim/publisher/async_dispatcher.go:673-703 | whenever a close reports success, the first or a repeated one, nothing is in flight or pending, then and in every continuation, exactly when nothing is pending and no admission is past the closed flag and short of its registration; the close that stops has found nothing pending |
| `DispatcherClose.CloseRace` | shim/publisher/async_dispatcher.go:221-284 | a run in which a close reports success with a durable record in flight and nothing pending, and which ends stopped with that attempt pending and no admission under way |
| `DispatcherAccounting.ScanTakes` | outbox/outbox.go:766-808 | the selection is ready oldest records of open epochs, within limit and broker slots |
| `Dispatcher.AsyncDispatcher.CheckLimits` | shim/publisher/async_dispatcher.go:221-239 | an admission goes on exactly with a positive limit, while open and below the total, for at most what is left of it |
| `Dispatcher.AsyncDispatcher.Select` | shim/publisher/async_dispatcher.go:241-266 | takes exactly the ready records that are the oldest of their key, of a dispatchable group in its current epoch, while fewer than the limit and fewer than the broker has free slots come before |
| `DispatcherChoice.ChosenExactly` | shim/publisher/async_dispatcher.go:241-266 | the same of the step: membership, pending counts and the limit per broker decide, without a filter in between |
| `Dispatcher.AsyncDispatcher.Mark` | shim/publisher/async_dispatcher.go:268-274 | puts exactly the selected batch durably in flight, each with its next attempt, or withdraws and changes nothing |
| `Dispatcher.AsyncDispatcher.Register` | shim/publisher/async_dispatcher.go:276-282 | each record of the marked batch is pending with its attempt, epoch, group and broker; other pending entries stay |
| `Dispatcher.AsyncDispatcher.Finish` | shim/publisher/async_dispatcher.go:286-330 | the membership is let go only after every submission of the batch |
| `Dispatcher.AsyncDispatcher.Dispatch` | shim/publisher/async_dispatcher.go:209-284 | an admission that nothing comes between admits exactly the records that limit, epochs and free slots let through when open and committed, nothing otherwise, and puts exactly these in flight and registers them |
| `Dispatcher.AsyncDispatcher.StoreTogether` | shim/publisher/async_dispatcher.go:489-490 | one transaction stores all results exactly when their events are named and distinct and it commits or has nothing to change; each awaited result then shows in its record and nothing else changed |
| `Dispatcher.AsyncDispatcher.StoreSingly` | shim/publisher/async_dispatcher.go:499-508 | stores one result on its own: its record shows it if it was awaited, and nothing else changed |
| `Dispatcher.AsyncDispatcher.StoreEach` | shim/publisher/async_dispatcher.go:492-511 | every named result whose own transaction commits is stored and shows in its record |
| `Dispatcher.AsyncDispatcher.StoreResults` | shim/publisher/async_dispatcher.go:489-511 | results are stored together, or one by one where that fails; what shows in the records is exactly what counts as stored |
| `DispatcherEffects.TogetherShown` | shim/publisher/async_dispatcher.go:489-490 | a result shows exactly when the record is of its attempt and epoch and still waits: acknowledged ones are gone, rejected ones ready, uncertain ones in doubt, with their reasons |
| `Dispatcher.AsyncDispatcher.Release` | shim/publisher/async_dispatcher.go:518-557 | releases exactly the pending attempts whose very result was stored |
| `Dispatcher.AsyncDispatcher.ApplyCompletions` | shim/publisher/async_dispatcher.go:467-563 | stores results together or one by one, which shows in exactly the records that awaited them, releases exactly attempts whose result was stored, fails none that could be stored and starts nothing |
| `Dispatcher.AsyncDispatcher.CountDurable` | shim/publisher/async_dispatcher.go:612-623 | the two counts are the numbers of the group's records in flight and in doubt |
| `Dispatcher.AsyncDispatcher.CountNative` | shim/publisher/async_dispatcher.go:625-629 | the count is the number of the group's pending attempts |
| `Dispatcher.AsyncDispatcher.Status` | shim/publisher/async_dispatcher.go:596-640 | quiescent exactly when PAUSED is installed and nothing of the group is in flight, in doubt or pending |
| `Dispatcher.AsyncDispatcher.TryStop` | shim/publisher/async_dispatcher.go:680-688 | reports success exactly when stopped before or nothing is pending; a success leaves nothing in flight or pending, then and ever after, exactly when nothing is pending and no admission is past the closed flag and short of its registration |
| `Dispatcher.AsyncDispatcher.Close` | shim/publisher/async_dispatcher.go:673-703 | the same for closing in one go |
| `Dispatcher.AsyncDispatcher.ApplyMembership` | shim/publisher/publisher.go:201-262 | installing a snapshot is one step of the run, refused ones are none |
| `Dispatcher.AsyncDispatcher.Ack` | outbox/outbox.go:571-593 | an operator's acknowledgement succeeds exactly when it names the current attempt and epoch of a record in flight or in doubt and the transaction commits, and removes exactly that record |
| `Dispatcher.AsyncDispatcher.AcceptBatch` | shim/publisher/publisher.go:280-305 | accepting is one step of the run at any time, refused batches are none |
| `Dispatcher.AsyncDispatcher.RetryAckUncertain` | shim/publisher/publisher.go:449-471 | a retry is one step of the run, never during an admission |
| `Dispatcher.AsyncDispatcher.FailClosed` | shim/publisher/fail_closed.go:8-16 | forgetting a group's membership is one step of the run, never during an admission |
| `Dispatcher.AsyncDispatcher.constructor` | shim/publisher/async_dispatcher.go:171-202 | a dispatcher on an outbox just opened starts a run, with the outbox's history going on |
| `Dispatcher.Restart` | shim/publisher/async_dispatcher.go:171-202 | a process that died at any point of its run is followed by one on the same outbox, whose history goes on with the reopening |
| `Routing.RendezvousBroker` | routing/membership.go:15-49 | found exactly for nonempty distinct scored members, and it beats every other member |
| `Routing.BeforeMeans` | routing/membership.go:43-47 | names are compared as the first differing character says, a prefix being smaller |
| `Routing.OrderFree` | routing/membership.go:10-14 | the winner does not depend on the order of the membership |
| `Routing.AddingMovesOnlyThere` | policy/engine.go:280-305 | adding a broker moves a key to it or nowhere |
| `Routing.RemovingMovesOnlyThose` | policy/engine.go:307-315 | removing a broker moves only its own keys |
| `Policy.ChangeDisruptsLeast` | policy/engine.go:207-315 | both hold for every change the policy proposes and every scoring |
| `Policy.RecommendationBounded` | policy/engine.go:207-315 | a proposed membership is free of duplicates, differs by one eligible or chosen broker and keeps floor and maximum |
| `PolicyHistory.DecisionsWarranted` | policy/engine.go:157-278 | every transition a valid cycle decides on is for one of its groups, with every member completely measured, no change in progress and no cooldown; growth has a shortfall or a member at the threshold and a full window, shrinking a safe choice above the floor with no member at the threshold and nothing waiting anywhere |
| `PolicyEngine.TransitionsWarranted` | policy/engine.go:157-278 | the same for any view with groups in order |
| `Policy.PressureMeans` | policy/aggregate.go:361-397 | known pressure is saturation exactly when some member reaches the threshold, and none exactly when no member does and nothing waits at any member |
| `Policy.AssessmentMeans` | policy/aggregate.go:331-397 | a group is known exactly when each member was completely and recently measured, and saturated exactly when besides some member reaches the threshold |
| `Policy.KnownBrokerMeasured` | policy/aggregate.go:249-320 | a known broker has a complete recent sample, and so has every group on it |
| `Policy.ObservedIsOldest` | policy/aggregate.go:271-281 | an observation time is no later than any sample it rests on |
| `PolicyEngine.Engine.Evaluate` | policy/engine.go:112-187 | valid later cycles advance the windows and decide; others change nothing. The decision goes through the groups in order and changes exactly those whose measurements, windows, cooldown and inventory call for it, each as they call for, until the budget is used up |
| `PolicyEngine.DecideExactly` | policy/engine.go:157-187 | a group gets the transition it wants exactly when it wants one and fewer than the budget of the groups before it did |
| `PolicyMeaning.RecommendExactly` | policy/engine.go:207-315 | when all members are measured and no change or cooldown is on, growth is wanted exactly by a group that is short of its floor or strained for its whole window, below its maximum and with an eligible broker left, and by the first of these; shrinking exactly by one that is neither, above its floor, with nobody strained, nothing waiting and a safe choice, which is taken out; nothing changes otherwise |
| `PolicyMeaning.KnownMeans` | policy/aggregate.go:249-305 | a broker is known exactly when it has a capacity in each dimension, and its sample and those of all groups on it are complete and recent enough for each of these groups |
| `PolicyMeaning.SharedMeans` | policy/aggregate.go:249-305 | in each dimension the shared usage of a known broker is the larger of its own sample and the sum of the samples of the groups on it, as a share of its limit |
| `PolicyMeaning.GroupMeans` | policy/aggregate.go:331-397 | a group is known exactly when each member is measured, saturated exactly when some member is at the mark in some dimension, and idle exactly when none is and nothing waits |
| `PolicyChecks.CheckCycle` | policy/aggregate.go:171-230 | the checks accept exactly cycles with positive times, distinct named brokers, groups and samples, known members, sound policies and nothing measured in the future |
| `PolicyEngine.Engine.RestoreState` | policy/engine.go:86-106 | restores exactly states with named groups whose windows opened no later than the last evaluation, by the given time |
| `PolicyHistory.RestorableExact` | policy/engine.go:86-106 | these are exactly the states that a history of valid cycles up to that time leads to |
| `PolicyEngine.MeasureBroker` | policy/aggregate.go:249-305 | the loop over the groups on a broker computes its assessment |
| `PolicyEngine.MeasureGroup` | policy/aggregate.go:331-397 | the loop over the members computes the group's assessment |
| `PolicyEngine.PressureOrigin` | policy/engine.go:135-155 | a pressure origin is a cycle from which on every cycle supplying the group found known telemetry, saturation and newer observations |
| `PolicyHistory.WindowExactly` | policy/engine.go:135-155 | a window is open exactly when the pressure is unbroken from some cycle on, and then since the earliest such cycle |
| `PolicyEngine.PressureSustained` | policy/engine.go:240-249 | scale-out for pressure needs such an unbroken stretch of at least the window, up to the deciding cycle |
| `PolicyEngine.DecisionBounded` | policy/engine.go:157-187 | no more transitions than the free budget, each a bounded change of a supplied group |
| `PolicyOrder.OrderIrrelevant` | policy/engine.go:112-187 | acceptance, windows and decision are the same for every order of groups, inventory and samples |

## Left out

- JSON, bbolt, files, AMQP, SEMP, contexts, tickers and goroutines: storage is atomic, everything else is an environment step or an answer given to a method.
- The text of command and operation identities: a command is identified by its fields.
- Control.Validate: an endpoint is one of the three schemes, a host text and at most a closing slash, not the full URL grammar; that an identifier must not be a URL with credentials, and that its bytes are valid UTF-8, is not checked, since strings are sequences of characters.
- Control.CheckMembership: the same about identifiers.
- Control.CheckDescriptors: the same about identifiers and endpoints.
- Several groups in one controller document: the model is of one group, with its own effective options.
- Legacy untyped requirements expanded from a participant list, and the single-aggregate drain branch, which a validated specification never reaches.
- The order of sources in evidence, which the original sorts and no check depends on.
- Creating and deleting queues, and checks against their exact broker configuration.
- The timeout that asks for a rollback: a rollback may be requested at any time.
- The reconnect path that discards a client's reconciler.
- The retry schedule of completions, how a native result becomes one of the three outcomes, and the counters and latencies of the dispatcher.
- Whether another group or snapshot still references a queue before it is deleted.
- ControllerObject.Controller.Reconcile: what a broker answers about fence and ingress is an input; that a fenced answer means every queue is fenced is not derived.
- Dispatcher.AsyncDispatcher.Dispatch: what becomes of immediate rejections is left to ApplyCompletions, which the original calls for them before it returns.
- Dispatcher.AsyncDispatcher.ApplyMembership: listing the retryable records and rerouting them is one step; a rejection stored between the two would be rerouted only with the next ACTIVE snapshot. In the runs of the dispatcher a reroute may be of any records.
- That the completion worker ends with the stop, and that a close waits for it or until its context ends: in the model results may still be stored after the stop.
- The synchronous Dispatch of the publisher, which the runtime does not use, and the messages handed to brokers.
- Subscriber shims, credentials, configuration, dashboards and cloud tooling.
- Policy.AssessmentMeans: capacity profiles are limits of the broker, and workload utilization and warm counts, which no decision reads, are not computed.
