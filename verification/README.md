# Nexus N3: a verified model of its coordination core

Nexus N3 acquires sensor data on a master node and a set of worker nodes. This project models the
parts of it that must keep working while messages are lost, threads overlap and sensors misbehave,
and proves what those parts promise, for every input and every run:

- **Initialization** (`Planner`, `Initialization`, `InitializationSafety`, `InitializationProgress`): the
  greedy planner, and the barrier that fans a plan out, collects replies, times out, and recovers by Reset.
  Nodes, their FIFO links and the loss of messages are part of the step system. From every reachable state
  an outstanding recovery can still be ended.
- **Official start** (`StreamPhase`, `StreamControl`, `OfficialStart`): the stream phase machine of a
  node with any number of startup-gate threads, and the master's ready/commit barrier. Messages may be
  delayed, duplicated, reordered or lost.
- **Drain** (`Drain`): the stop barrier that finalizes a session once.
- **Ordered Connect All** (`ConnectionSequence`, `ConnectAll`, `ConnectionSafety`, `ConnectionReplies`).
- **Latest-value routing** (`Routing`): the coalescing queue with quiesce, drain and enable.
- **Physical STOP obligations** (`StopObligations`, `StopManager`, `StopSafety`, `StopEvidence`,
  `StopExactly`, `StopHistory`, `StopExample`).
- **Data** (`StartupGate`, `RawData`, `RawTable`, `ArchiveId`): gap arithmetic, block splitting with the
  tail flush, the CSV table whose header grows, and the archive-id codec (sections 3.2, 3.5 and 5 of
  RFC 4648).

Each component has a specification on values: a state, one function per step, and runs as sequences of
steps. Code that updates fields is modelled by a class (`InitializationBarrier`, `DrainBarrier`,
`SensorRouter`, `SubjectConnectionSequence`, `Core`, `OfficialStartBarrier`, `SensorManager`, `Subject`,
`RawFile`, `SensorStats`) whose methods are proved to take exactly the specified steps; the theorems are
lemmas about the runs. Some state fields are history (what was issued, heard, delivered, confirmed) and
no step ever decides anything by them. What a step does is also stated outright, without the step's own
functions, in the lemmas whose names end in `Exactly` and in those beside them.

Four promises turned out not to hold as stated; for each there is a failing case and the condition under
which it does hold:

- A Connect All can report "completed" while a subject is not connected
  (`ConnectionSafety.CompletedCanLie`). It means what it says exactly when no out-of-sequence report hit a
  subject behind the cursor (`ConnectionReplies.FinishedMeansConfirmed`, `MarkIsHit`, `DisturbedByReports`).
- A gate thread whose token became old can still announce readiness, because the announcement leaves
  outside the lock (`StreamPhase.AnnouncementCanBeLate`). It does so exactly when it had already decided
  while its token was current (`StaleGateIsInert`, `OldGateStaysQuiet`), and it then still names its own
  session.
- An obligation can be cleared by the recovery of another handle that discovery bound to the same
  address (`StopExample.ClearedByAnotherHandle`). Every recovery that clears it releases its own handle
  exactly when that handle is quiet already or no other handle named by an obligation has the address
  (`StopEvidence.ReleasesItsOwnExactlyWhen`); only discovery can bring such a handle about
  (`BoundUnlessRebound`).
- A first block without any field is lost when a later block has one (`RawTable.FieldlessBlockIsLost`).
  Every sample survives exactly when the first block with samples has a field (`NothingLostExactlyWhen`).

A fifth boundary is arithmetic: slots are conserved strictly within a quarter period of the grid. At exactly
a quarter period they need not be (`StartupGate.QuarterPeriodIsTooFar`); they are exactly when the interval
errors cancel (`GridBalance`, `DropIsOffBy`).

## Model

| member | source | states |
|---|---|---|
| `Planner.PlannerTheorem` | nexus_n3/distributed/master_node.py:601-649 | an accepted request puts every subject on exactly one node that supports it, loads add up and stay within 8 sensors, so the closing re-validation never raises |
| `Planner.PlanIsPartition` | nexus_n3/distributed/master_node.py:619-642 | the plan holds each requested subject once, on one node, and nothing else |
| `Planner.PlanIgnoresRegistryOrder` | nexus_n3/distributed/master_node.py:601-649 | planning over two listings of the same registry, in any order, returns the same result, plan or rejection |
| `Planner.BestIsUnique` | nexus_n3/distributed/master_node.py:637-640 | load, master first, then id decide the node without ties |
| `Planner.PlacesExactly` | nexus_n3/distributed/master_node.py:622-642 | in an accepted plan each subject was given, after the subjects before it, to the supporting node with room that has the fewest sensors; ties go to the master, then to the smaller id |
| `Planner.PlanStarts` | nexus_n3/distributed/master_node.py:601-620 | planning is rejected outright exactly when a subject has no id, two share one, or there is no master or worker node; otherwise all of those start empty |
| `Planner.LoadsAreBalanced` | nexus_n3/distributed/master_node.py:622-642 | with every node capable, loads differ by at most the largest subject |
| `Planner.RejectedWhenFull` | nexus_n3/distributed/master_node.py:622-636 | with every node capable, a subject is rejected exactly when every node carries more than 8 minus its sensors |
| `Planner.RejectionMeansFull` | nexus_n3/distributed/master_node.py:622-642 | rejecting a subject of c sensors proves that the N nodes carry at least N(9 - c) |
| `Planner.LoadIsConserved` | nexus_n3/distributed/master_node.py:641-642 | the node counts add up to the sensors of the subjects placed |
| `Planner.SelectNode` | nexus_n3/distributed/master_node.py:624-640 | one pass over the registry finds the unique first eligible node, or none exactly when there is none |
| `Planner.PlaceSubjects` | nexus_n3/distributed/master_node.py:619-642 | the planning loop computes the specified placement, order of the registry aside |
| `Planner.PlanSubjectAssignments` | nexus_n3/distributed/master_node.py:601-649 | the whole planner returns the specified plan of the registry's node set, or rejects |
| `Planner.ValidateSubjectsPerNode` | nexus_n3/distributed/master_node.py:580-599 | accepts exactly loads of at most 8 sensors |
| `Initialization.InitializationBarrier.BeginInitialization` | nexus_n3/distributed/master_node.py:742-804 | takes exactly the specified step: refused while anything is unsettled, otherwise a new record with its participants still to be sent; ownership stays until the finish |
| `Initialization.InitializationBarrier.FinishInitialization` | nexus_n3/distributed/master_node.py:656-709 | ends the pending initialization: ownership on success, a recovery on failure, one terminal event |
| `Initialization.InitializationBarrier.Expired` | nexus_n3/distributed/master_node.py:742-804 | a timer or dispatch error ends only the initialization it belongs to |
| `Initialization.InitializationBarrier.RecordInitializationReply` | nexus_n3/distributed/master_node.py:711-727 | takes exactly the specified reply step, duplicates, strangers and mismatches included |
| `Initialization.InitializationBarrier.RecordInitializationRecovery` | nexus_n3/distributed/master_node.py:729-740 | the recovery ends when every participant confirmed the current Reset |
| `Initialization.InitializationBarrier.DispatchDisconnectAll` | nexus_n3/distributed/master_node.py:885-925 | tells exactly the participants of the recovery, the owners in the registry, and the master when nothing is owned; a recovering one restarts the confirmations under its own id |
| `InitializationSafety.StepKeeps` | nexus_n3/distributed/master_node.py:656-804 | every step of master, nodes, timers and lossy links keeps the invariant |
| `InitializationSafety.NoSubjectOnTwoNodes` | nexus_n3/distributed/master_node.py:656-804 | in every run, with nothing pending or being recovered, each node holds only subjects the registry assigns to it, and no subject is on two nodes |
| `InitializationSafety.SuccessIsExact` | nexus_n3/distributed/master_node.py:711-727 | at a successful finish each node holds exactly its assigned subjects |
| `InitializationSafety.OneTerminalEvent` | nexus_n3/distributed/master_node.py:656-804 | every accepted initialization emits exactly one terminal event; while pending, its replies are a proper subset of the required nodes and confirm their plans; pending and recovery never coexist |
| `InitializationSafety.PlannedRequestMatches` | nexus_n3/distributed/master_node.py:742-804 | what the planner returns is always a consistent request, with one owner per requested subject |
| `InitializationProgress.ResetReaches` | nexus_n3/distributed/master_node.py:885-925 | an admitted Disconnect All appends its command to the queue of exactly the participants of the recovery, the owners in the registry, and the master when the registry is empty; every other queue stays as it is |
| `InitializationProgress.RecoveryCanAlwaysEnd` | nexus_n3/distributed/master_node.py:729-740 | in every run, an outstanding recovery can be ended: a dispatch loop that still goes on comes to its end, and a Reset and its confirmations follow |
| `InitializationProgress.InitializationCanSucceed` | nexus_n3/distributed/master_node.py:656-804 | with nothing unsettled and its participants registered and ready, an initialization can be carried through to success, every participant holding exactly its plan |
| `InitializationProgress.ReplyEnds` | nexus_n3/distributed/master_node.py:711-727 | a reply that does not count changes nothing, one that does not confirm its plan fails the initialization, and the last confirmation installs the requested ownership |
| `InitializationProgress.BeginAccepts` | nexus_n3/distributed/master_node.py:742-804 | exactly when an initialization is accepted: nothing unsettled, a plan, and every old owner, new owner and the master registered |
| `InitializationProgress.InstallsExactly` | nexus_n3/core/core.py:745-817 | a node refuses every configuration while it is recovering or needs a Reset, and otherwise installs exactly what it was sent |
| `InitializationProgress.RecoveryEndsExactly` | nexus_n3/core/core.py:1069-1120 | every waiting Reset is told the same outcome once, and the configuration goes exactly when it was cleared |
| `StreamPhase.RequiredPackets` | nexus_n3/core/core.py:337-362 | 60 for an unknown rate; otherwise the least number from 3 to 60 that covers what two seconds bring, or the cap |
| `StreamPhase.StableExactlyWhen` | nexus_n3/core/core.py:319-335 | which recordings pass the gate, in terms of the samples themselves: enough packets, two seconds, 95% of the rate, and no two neighbouring timestamps a gap apart |
| `StreamPhase.RegularStreamIsStable` | nexus_n3/core/core.py:319-367 | at every rate, a stream that keeps it on a microsecond clock passes exactly from the packet at two seconds on, provided whole periods fit into the gap threshold |
| `StreamPhase.ReadyBelongsToItsStart` | nexus_n3/core/core.py:369-533 | in every run, a ready announcement names the session of the start whose own samples, all heard after that start, were stable on every address |
| `StreamPhase.StaleGateIsInert` | nexus_n3/core/core.py:369-533 | a gate thread with an old token changes only its own position, and sends something only if it was already announcing |
| `StreamPhase.OldGateStaysQuiet` | nexus_n3/core/core.py:369-533 | once its token is old, a thread that is not announcing never changes the phase or announces, whatever follows |
| `StreamPhase.AnnouncementCanBeLate` | nexus_n3/core/core.py:518-533 | a run in which a thread announces after its token became old |
| `StreamPhase.OnlyCommitCommits` | nexus_n3/core/core.py:649-677 | only a matching commit makes a coordinated node committed, and a committed node keeps its session |
| `StreamPhase.PassesExactly` | nexus_n3/core/core.py:1935-1951 | a sample is passed on exactly while its subject streams, the phase is official, the outputs are on, and a coordinated start is committed |
| `StreamPhase.SwitchedOnExactly` | nexus_n3/core/core.py:391-431 | the outputs are switched on exactly by the gate of an uncoordinated start, in charge of stable sensors, or by a finished activation |
| `StreamPhase.CommitOpens` | nexus_n3/core/core.py:649-739 | in the ready phase, a matching commit and its activation let the next sample through |
| `StreamPhase.ActivationEnds` | nexus_n3/core/core.py:679-739 | an activation that ends goes official, or fails with the outputs and the commit withdrawn |
| `StreamPhase.GateExactly` | nexus_n3/core/core.py:369-533 | a thread in charge waits for stable sensors, then prepares or activates, and fails the start on a timeout or a failed preparation |
| `StreamPhase.StepKeeps` | nexus_n3/core/core.py:187-224 | every start, stop, callback, commit and gate section keeps the statistics equal to a replay of the samples heard since the last start |
| `StreamControl.Core.StartStream` | nexus_n3/core/core.py:1256-1288 | takes exactly the specified start: new token, cleared commit and outputs, fresh statistics |
| `StreamControl.Core.ResetStartupGateState` | nexus_n3/core/core.py:187-204 | one fresh record per address, a new token and phase "starting" |
| `StreamControl.Core.ClearStartupGateState` | nexus_n3/core/core.py:206-224 | forgets the start, with a new token |
| `StreamControl.Core.OnStreamStarted` | nexus_n3/core/core.py:2199-2215 | warms up and launches a gate thread with the current token, when there are addresses |
| `StreamControl.Core.OnStreamStopped` | nexus_n3/core/core.py:2262-2272 | goes idle unless official or failed |
| `StreamControl.Core.BeginStop` | nexus_n3/core/core.py:1384-1392 | disowns every gate thread when no other subject streams |
| `StreamControl.Core.OnData` | nexus_n3/core/core.py:1935-1951 | counts the sample for the gate, and passes it on exactly in committed official streaming |
| `StreamControl.Core.SensorsStable` | nexus_n3/core/core.py:399-405 | true exactly when there are addresses and every one with statistics is stable |
| `StreamControl.Core.Settle` | nexus_n3/core/core.py:375-380 | leaves exactly when the token is old or the phase changed |
| `StreamControl.Core.Observe` | nexus_n3/core/core.py:391-431 | takes exactly the specified observation section |
| `StreamControl.Core.GiveUpObserving` | nexus_n3/core/core.py:435-484 | fails the start only while still in charge |
| `StreamControl.Core.FinishPreparing` | nexus_n3/core/core.py:486-533 | becomes ready, or fails, only while still in charge; says which session to announce |
| `StreamControl.Core.StartOfficialStream` | nexus_n3/core/core.py:649-677 | accepts a commit exactly for the current session and stamp in the ready phase |
| `StreamControl.Core.EndActivation` | nexus_n3/core/core.py:679-739 | ends an activation in official streaming or in failure |
| `OfficialStart.NoSampleBeforeAllReady` | nexus_n3/distributed/master_node.py:205-258 | in every run, no node has persisted a sample for a coordinated session unless every node of that session's snapshot has announced that it is ready for it |
| `OfficialStart.ReadinessIsEarned` | nexus_n3/core/core.py:518-533 | every ready message in the network rests on stable samples heard by its node after its own start for that session |
| `OfficialStart.AutomaticCommitOnce` | nexus_n3/distributed/master_node.py:224-258 | the automatic commit is dispatched at most once per record, across all later starts |
| `OfficialStart.AutomaticCommitExactly` | nexus_n3/distributed/master_node.py:205-258 | in every run, the automatic commit of a tracked start is queued or dispatched exactly once when all its expected nodes, and there are some, have been recorded as ready, and not before |
| `OfficialStart.AnnouncementIsNoted` | nexus_n3/distributed/master_node.py:205-258 | an announcement of an expected node with the right stamp adds that node and, exactly when it completes the start, appends its commit; any other changes nothing |
| `OfficialStart.CommitReaches` | nexus_n3/distributed/master_node.py:993-1056 | a commit goes to every expected node with the recorded stamp, exactly when all are ready, whoever asked for it |
| `OfficialStart.MoveKeeps` | nexus_n3/distributed/master_node.py:993-1056 | every move of master, network and nodes keeps the barrier's invariant |
| `OfficialStart.OfficialStartBarrier.CreateOfficialStartRecord` | nexus_n3/distributed/master_node.py:183-203 | a new start forgets every earlier one |
| `OfficialStart.OfficialStartBarrier.RecordOfficialStartEvent` | nexus_n3/distributed/master_node.py:205-258 | takes exactly the readiness step that the two rows on the automatic commit are about |
| `OfficialStart.OfficialStartBarrier.DispatchOfficialStart` | nexus_n3/distributed/master_node.py:993-1056 | sends one commit to each expected node, the master's own last, exactly when all are ready |
| `Drain.FinalizesAtMostOnce` | nexus_n3/distributed/master_node.py:280-376 | in every run, the callback of a stop session never overlaps itself and returns normally at most once |
| `Drain.DecidedWhenDrained` | nexus_n3/distributed/master_node.py:298-318 | it is started only when every expected node is drained, nothing streams, and the session is not finalized |
| `Drain.FinalizedForever` | nexus_n3/distributed/master_node.py:280-376 | `finalized` never reverts |
| `Drain.ActiveUntilDrained` | nexus_n3/distributed/master_node.py:306-316 | a subject stops being active only when a session that names it has drained everywhere |
| `Drain.AckExactly` | nexus_n3/distributed/master_node.py:280-352 | what every acknowledgement does: who is noted, which subjects stop being active, and when the callback is decided |
| `Drain.CallbackExactly` | nexus_n3/distributed/master_node.py:354-376 | the callback frees its session; finalized exactly when it returned normally |
| `Drain.DrainBarrier.CreateDrainRecord` | nexus_n3/distributed/master_node.py:269-278 | takes exactly the specified step |
| `Drain.DrainBarrier.RecordDrainAck` | nexus_n3/distributed/master_node.py:280-352 | takes exactly the specified step, and says whether to run the callback |
| `Drain.DrainBarrier.CallbackReturned` | nexus_n3/distributed/master_node.py:371-376 | finalizes |
| `Drain.DrainBarrier.CallbackRaised` | nexus_n3/distributed/master_node.py:357-369 | lets a later acknowledgement retry |
| `ConnectionSafety.AddressesAreExclusive` | nexus_n3/core/subject_connection_sequence.py:158-241 | in every run, each discovered subject has one distinct nonempty address per location, and no two share an address |
| `ConnectionSafety.OneOutstandingStep` | nexus_n3/core/subject_connection_sequence.py:97-147 | in every run, an active sequence has its one step outstanding, at the cursor, with the timer armed for it; an inactive one has no timer |
| `ConnectionSafety.AtMostTwoStepsPerSubject` | nexus_n3/core/subject_connection_sequence.py:97-142 | a sequence issues at most one discovery and then one connection per subject, in configuration order |
| `ConnectionSafety.MeasureDecreases` | nexus_n3/core/subject_connection_sequence.py:158-275 | while a sequence stays active, an event issues nothing or lowers the measure of what is left |
| `ConnectionSafety.InactiveIsSilent` | nexus_n3/core/subject_connection_sequence.py:200-275 | an inactive sequence sends nothing, whatever arrives |
| `ConnectionSafety.LossStops` | nexus_n3/core/subject_connection_sequence.py:183-192 | losing a sensor of a completed subject stops an active sequence |
| `ConnectionSafety.EveryCommandIsRight` | nexus_n3/core/subject_connection_sequence.py:97-142 | in every run, every command is for the subject at the cursor when it is issued; a discovery excludes every address another subject has, a connection names one distinct nonempty address per location, none of them another discovered subject's |
| `ConnectionSafety.CompletedMeansConfirmed` | nexus_n3/core/subject_connection_sequence.py:242-257 | in every run, a completed subject was confirmed with exactly the pairing of its selected addresses with its locations |
| `ConnectionSafety.DisturbedByReports` | nexus_n3/core/subject_connection_sequence.py:169-199 | exactly the Reset and discovery reports about subjects behind the cursor disturb a sequence |
| `ConnectionSafety.MarkIsHit` | nexus_n3/core/subject_connection_sequence.py:169-199 | in every run, the recorded mark of a sequence is set exactly when some step of the run, during that sequence, was such a report |
| `ConnectionSafety.CompletedCanLie` | nexus_n3/core/subject_connection_sequence.py:193-199 | a run in which "completed" is emitted with a subject not connected |
| `ConnectionSafety.StepKeeps` | nexus_n3/core/subject_connection_sequence.py:39-275 | every step keeps the invariant |
| `ConnectionReplies.FinishedMeansConfirmed` | nexus_n3/core/subject_connection_sequence.py:97-110 | when "completed" is emitted, every subject is completed exactly when no out-of-sequence report of the run, since the start, named a subject behind the cursor; and every completed subject was completed by the reply of the next row |
| `ConnectionReplies.CompletedByReply` | nexus_n3/core/subject_connection_sequence.py:242-257 | in every run, a completed subject was completed by the reply to its own connecting step: complete, one result for the subject, the selected pairing, every sensor connected and set up; and it has been completed since |
| `ConnectionReplies.EventExactly` | nexus_n3/core/subject_connection_sequence.py:158-275 | after any event a subject is completed, or discovered, exactly when it was and nothing hit it, or the reply to its own step says that all is there |
| `ConnectionReplies.AnswerCompletes` | nexus_n3/core/subject_connection_sequence.py:242-257 | such a reply completes the subject, and no other answer to a connection does |
| `ConnectionReplies.AnswerDiscovers` | nexus_n3/core/subject_connection_sequence.py:220-241 | an answer to a discovery discovers its subject exactly when it is complete and names one distinct nonempty address per location that no other subject has |
| `ConnectionReplies.BadAnswerStops` | nexus_n3/core/subject_connection_sequence.py:200-275 | any other answer ends the step and stops the sequence |
| `ConnectionReplies.DiscoveryGoesOn` | nexus_n3/core/subject_connection_sequence.py:220-241 | a good discovery goes on to connect the same subject with the addresses found |
| `ConnectionReplies.ConnectionGoesOn` | nexus_n3/core/subject_connection_sequence.py:250-257 | a good connection identifies the subject and goes on with the first uncompleted one after it, or finishes |
| `ConnectionReplies.TimerStops` | nexus_n3/core/subject_connection_sequence.py:144-156 | a timer stops the sequence exactly when its step is the outstanding one |
| `ConnectionReplies.StartBegins` | nexus_n3/core/subject_connection_sequence.py:79-95 | a start is refused exactly while something is active or outstanding, and otherwise begins at the front |
| `ConnectAll.SubjectConnectionSequence.Configure` | nexus_n3/core/subject_connection_sequence.py:39-48 | takes exactly the specified step |
| `ConnectAll.SubjectConnectionSequence.Start` | nexus_n3/core/subject_connection_sequence.py:79-95 | takes exactly the specified step, refused while busy |
| `ConnectAll.SubjectConnectionSequence.NextSubject` | nexus_n3/core/subject_connection_sequence.py:97-110 | skips completed subjects and issues the next step, or finishes |
| `ConnectAll.SubjectConnectionSequence.IssueStep` | nexus_n3/core/subject_connection_sequence.py:112-142 | issues one step with the exclusions or the selection, and its timer |
| `ConnectAll.SubjectConnectionSequence.Expired` | nexus_n3/core/subject_connection_sequence.py:144-147 | stops only the step it was armed for |
| `ConnectAll.SubjectConnectionSequence.OnEvent` | nexus_n3/core/subject_connection_sequence.py:158-275 | takes exactly the specified step for every event |
| `ConnectAll.SubjectConnectionSequence.RetireNode` | nexus_n3/core/subject_connection_sequence.py:169-182 | retires exactly the subjects of the node |
| `ConnectAll.SubjectConnectionSequence.LoseSensors` | nexus_n3/core/subject_connection_sequence.py:183-192 | uncompletes exactly the subjects hit, stopping an active sequence if one was completed |
| `ConnectAll.SubjectConnectionSequence.ForgetRediscovered` | nexus_n3/core/subject_connection_sequence.py:193-199 | rewrites the selections of the reported subjects |
| `ConnectAll.SubjectConnectionSequence.AcceptAnswer` | nexus_n3/core/subject_connection_sequence.py:214-275 | takes exactly the specified step for the terminal reply |
| `Routing.OneJobPerRoute` | nexus_n3/sensor_manager/SensorManager.py:904-954 | under every interleaving, a pending route has exactly one queued or running job, and the counter counts the pending routes |
| `Routing.EveryValueAccountedFor` | nexus_n3/sensor_manager/SensorManager.py:904-954 | every accepted value is held, delivered, superseded by a later one on its route, cancelled, or lost to the executor; deliveries keep the order of submission |
| `Routing.SmoothRouteDelivers` | nexus_n3/sensor_manager/SensorManager.py:923-954 | a route that retires without an intervening quiesce or executor failure has delivered its last accepted value |
| `Routing.RetiredRouteDeliveredLast` | nexus_n3/sensor_manager/SensorManager.py:923-954 | the last value of a retired route was delivered, cancelled or lost to the executor, never superseded |
| `Routing.WhoEndsAValue` | nexus_n3/sensor_manager/SensorManager.py:904-1017 | only a quiesce cancels, only a failing executor loses, and only the job that takes a value delivers it |
| `Routing.FatesLast` | nexus_n3/sensor_manager/SensorManager.py:904-1017 | the fate of a value is final |
| `Routing.NothingRunsAfterDrain` | nexus_n3/sensor_manager/SensorManager.py:1004-1032 | after quiesce, once a drain wait succeeds, no call on a targeted route is queued, runs or starts until the next enable |
| `Routing.BlockedHoldsNothing` | nexus_n3/sensor_manager/SensorManager.py:923-948 | a job never finds a value on a blocked route |
| `Routing.SubmitsExactly` | nexus_n3/sensor_manager/SensorManager.py:904-921 | when a value is accepted, and when it needs a job |
| `Routing.EndsExactly` | nexus_n3/sensor_manager/SensorManager.py:936-954 | a call that ends runs again exactly when a newer value waits and the executor takes it |
| `Routing.QuiescesExactly` | nexus_n3/sensor_manager/SensorManager.py:1004-1017 | which routes are blocked and emptied |
| `Routing.EnablesExactly` | nexus_n3/sensor_manager/SensorManager.py:1028-1032 | after an enable every address accepts submissions again, and nothing pending is lost |
| `Routing.SensorRouter.SubmitRoutedValue` | nexus_n3/sensor_manager/SensorManager.py:904-921 | takes exactly the specified step |
| `Routing.SensorRouter.RunRoutedRoute` | nexus_n3/sensor_manager/SensorManager.py:923-948 | takes the job and its latest value |
| `Routing.SensorRouter.EndRoutedRoute` | nexus_n3/sensor_manager/SensorManager.py:936-948 | runs again for a newer value, or retires the route |
| `Routing.SensorRouter.FinishRoutedRoute` | nexus_n3/sensor_manager/SensorManager.py:950-954 | takes exactly the specified step |
| `Routing.SensorRouter.QuiesceRouting` | nexus_n3/sensor_manager/SensorManager.py:1004-1017 | cancels exactly the values on the targeted routes |
| `Routing.SensorRouter.IsDrained` | nexus_n3/sensor_manager/SensorManager.py:1019-1026 | true exactly when no pending route is targeted |
| `Routing.SensorRouter.EnableRouting` | nexus_n3/sensor_manager/SensorManager.py:1028-1032 | takes exactly the specified step |
| `StopEvidence.UnconfirmedStopBlocks` | nexus_n3/sensor_manager/SensorManager.py:501-541 | in every run, after a STOP verdict other than "stopped", the address stays an obligation and nothing at it is connected or started until a recovery clears it with the evidence of the next row |
| `StopEvidence.ClearedOnlyWithEvidence` | nexus_n3/sensor_manager/SensorManager.py:697-747 | an obligation goes only when a handle at that address ends without link, its owed STOP confirmed by the plugin's answer or its host's report and its link by a disconnection, or both by the operator's word and a controlled reset; or, when it names no handle, by the operator's word and a reset that left no link |
| `StopEvidence.OwnStopConfirmed` | nexus_n3/sensor_manager/cleanup_service.py:23-179 | without a rival handle at the address, clearing an obligation that names a handle releases this very handle, with that evidence |
| `StopEvidence.ReleasesItsOwnExactlyWhen` | nexus_n3/sensor_manager/SensorManager.py:697-723 | every recovery that clears an obligation releases its own handle exactly when the handle is quiet already or no other handle named by an obligation has the address |
| `StopEvidence.RivalClears` | nexus_n3/sensor_manager/SensorManager.py:697-723 | with such a rival, a recovery exists that clears the address and leaves its own handle as it is, isolated |
| `StopEvidence.BoundUnlessRebound` | nexus_n3/sensor_manager/discovery_service.py:126-133 | only discovery, by giving an obligation's handle another address, can unbind an obligation, and without that no handle has a rival |
| `StopSafety.OnlyRecoveryClears` | nexus_n3/sensor_manager/SensorManager.py:325-332 | no other command removes an obligation |
| `StopSafety.ObligedIsLeftAlone` | nexus_n3/sensor_manager/connection_service.py:14-17 | connecting and starting leave every handle at an obligation's address as it is |
| `StopSafety.StopObligesExactly` | nexus_n3/sensor_manager/SensorManager.py:536-541 | a STOP adds the addresses of exactly the targets whose verdict is not "stopped" |
| `StopExactly.StopExactly` | nexus_n3/sensor_manager/streaming_service.py:32-75 | after a STOP exactly those addresses are new obligations whose configured sensor was asked for and did not stop, where a sensor stops exactly when routing drained, it is not isolated, it is in time, and its plugin confirms, or it has no link and owes nothing; and what becomes of every handle |
| `StopExactly.VerdictExactly` | nexus_n3/sensor_manager/streaming_service.py:32-75 | the "stopped" verdict of every target, in both directions, from its handle before and its outcome alone |
| `StopSafety.StoppedOwesNothing` | nexus_n3/sensor_manager/streaming_service.py:32-75 | a "stopped" verdict means that no STOP is owed |
| `StopSafety.CleanupObligesExactly` | nexus_n3/sensor_manager/SensorManager.py:156-161 | a cleanup adds the addresses of exactly the targets it could not clean |
| `StopSafety.CleanedOwesNothing` | nexus_n3/sensor_manager/cleanup_service.py:181-296 | a cleaned sensor owes no STOP and has no link |
| `StopExactly.CleanupExactly` | nexus_n3/sensor_manager/cleanup_service.py:181-296 | a cleanup adds the addresses of exactly the sensors it is for and that it does not clean, with the condition for cleaning stated outright |
| `StopExactly.CleanupLeaves` | nexus_n3/sensor_manager/cleanup_service.py:206-296 | what a cleanup leaves of the owed STOP, the link and the isolation, however far it gets |
| `StopExactly.RecoveryExactly` | nexus_n3/sensor_manager/SensorManager.py:697-723 | while obligations are bound to their addresses, the address of a sensor taken on is an obligation afterwards exactly when the sensor was not recovered, with the condition for recovering stated outright |
| `StopExactly.TargetsExactly` | nexus_n3/sensor_manager/SensorManager.py:697-703 | a recovery takes on every obligation within its scope, with the handle it names, and for any other address the last configured sensor that has it |
| `StopExactly.OrphansExactly` | nexus_n3/sensor_manager/SensorManager.py:724-743 | every other address is one exactly when it was one, or is a link nobody accounts for, unless it has no handle and the operator and a reset released it |
| `StopExactly.ReconciliationLeaves` | nexus_n3/sensor_manager/cleanup_service.py:127-179 | what an attempt with the plugin leaves of the owed STOP, the link and the isolation, however far it gets |
| `StopSafety.ReconfigureForgetsNothing` | nexus_n3/sensor_manager/SensorManager.py:325-332 | replacing the configuration retains every sensor that owes a STOP |
| `StopExactly.ReconfiguresExactly` | nexus_n3/sensor_manager/SensorManager.py:325-417 | replacing the configuration adds exactly the addresses of its unresolved sensors, disconnects only retired sensors that are no obligation, and installs new handles |
| `StopExactly.ConnectsExactly` | nexus_n3/sensor_manager/connection_service.py:14-102 | once all targets are reconciled, each up to the first that raises is connected exactly when its adapter says so |
| `StopExactly.StartsExactly` | nexus_n3/sensor_manager/SensorManager.py:240-247 | exactly the configured, connected, unquarantined sensors without an obligation that were asked for, up to the first start that raises, owe a STOP after a start |
| `StopEvidence.GoodMeansReleased` | nexus_n3/sensor_manager/cleanup_service.py:61-91 | a "cleaned" result names the confirmation: a STOP that was owed ends as confirmed by the plugin or its host, or by the operator after a controlled reset |
| `StopHistory.EveryStartIsAnswered` | nexus_n3/sensor_manager/streaming_service.py:100-221 | in every run, every start of a sensor without a pending STOP was followed by a command that carried a confirmation for it |
| `StopHistory.FlagFallsOnlyWithConfirmation` | nexus_n3/sensor_manager/streaming_service.py:168-221 | in every step, a pending STOP stops being pending only with a confirmation in the step's own outcomes |
| `StopHistory.ClearedAfterConfirmation` | nexus_n3/sensor_manager/SensorManager.py:697-747 | in every run, when a recovery clears an obligation without a rival, every start of its handle was followed by a confirmation |
| `StopSafety.StepKeeps` | nexus_n3/sensor_manager/SensorManager.py:697-747 | in every run, every handle that the configuration or an obligation names exists |
| `StopExample.ClearedByAnotherHandle` | nexus_n3/sensor_manager/SensorManager.py:697-723 | a run to a state with a rival, from which a recovery clears the obligation while its own sensor still owes a STOP |
| `StopManager.SensorManager.EnsureReconciled` | nexus_n3/sensor_manager/connection_service.py:14-17 | true exactly when no target's address is an obligation |
| `StopManager.SensorManager.ConnectSensors` | nexus_n3/sensor_manager/connection_service.py:19-102 | connects nothing unless all targets are reconciled, and otherwise as the adapters answer |
| `StopManager.SensorManager.ConnectedSensors` | nexus_n3/sensor_manager/SensorManager.py:240-247 | selects exactly the connected, unquarantined sensors without an obligation |
| `StopManager.SensorManager.StartSensors` | nexus_n3/sensor_manager/streaming_service.py:22-139 | marks each target as owing a STOP before it is started, until one raises |
| `StopManager.SensorManager.StopSensors` | nexus_n3/sensor_manager/SensorManager.py:501-541 | takes the STOP that `StopExactly.StopExactly` is about, routing timeout included |
| `StopManager.SensorManager.StopStreams` | nexus_n3/sensor_manager/streaming_service.py:32-75 | gives every target the verdict and the flags that `StopExactly.VerdictExactly` is about |
| `StopManager.SensorManager.CleanUp` | nexus_n3/sensor_manager/cleanup_service.py:181-296 | takes exactly the specified cleanup, and obliges failed and unconfirmed sensors |
| `StopManager.SensorManager.ReinitializeSensors` | nexus_n3/sensor_manager/SensorManager.py:325-417 | retains unresolved sensors, then replaces the configuration or keeps it |
| `StopManager.SensorManager.Reconcile` | nexus_n3/sensor_manager/cleanup_service.py:23-179 | gives every target its verdict and flags |
| `StopManager.SensorManager.SettleResults` | nexus_n3/sensor_manager/SensorManager.py:711-723 | releases or obliges in the order of the results, up to a result for an unknown address |
| `StopManager.SensorManager.RecoverSensors` | nexus_n3/sensor_manager/SensorManager.py:697-747 | takes exactly the specified recovery |
| `StartupGate.GateMatchesAnalyser` | analyse_nexus_n3_session.py:60-64 | the incremental gate and the batch analyser give the same gap and drop totals on every recording |
| `StartupGate.GateConservesSlots` | nexus_n3/core/startup_gate.py:34-106 | strictly within a quarter period of a grid, packets received plus packets estimated lost is the number of slots spanned |
| `StartupGate.GridConservation` | analyse_nexus_n3_session.py:60-64 | the same for the analyser |
| `StartupGate.GapDropsAPacket` | nexus_n3/core/startup_gate.py:98-106 | every detected gap counts at least one drop |
| `StartupGate.SameGapTest` | nexus_n3/core/startup_gate.py:98-99 | truncating the threshold changes nothing on integer timestamps |
| `StartupGate.DropCountsPeriods` | nexus_n3/core/startup_gate.py:98-106 | exactly which intervals count as k periods, ties included |
| `StartupGate.QuarterPeriodIsTooFar` | nexus_n3/core/startup_gate.py:65-106 | a recording at exactly a quarter period for which the conservation fails |
| `StartupGate.DropIsOffBy` | nexus_n3/core/startup_gate.py:98-106 | for every interval within half a period of k periods, ends included, exactly by how much its drop count is off |
| `StartupGate.GridBalance` | analyse_nexus_n3_session.py:60-64 | within a quarter period, ends included, the slots are off by exactly the total of those errors, so they are conserved exactly when the errors cancel |
| `StartupGate.SensorStats.RecordSample` | nexus_n3/core/startup_gate.py:34-63 | takes exactly the specified step |
| `StartupGate.SensorStats.RecordGapIfNeeded` | nexus_n3/core/startup_gate.py:65-106 | takes exactly the specified step |
| `StartupGate.SensorStats.ResetForAttempt` | nexus_n3/core/startup_gate.py:24-32 | forgets everything but the expected rate |
| `RawData.NothingLostOrReordered` | nexus_n3/core/subject.py:60-94 | for every stream, the blocks queued for a sensor followed by the tail flush are exactly its samples in order, every block but the last of full size |
| `RawData.ClosedQueuesNothing` | nexus_n3/file_manager/FileManager.py:804-819 | without an open output path nothing is queued, whatever arrives |
| `RawData.Subject.IngestSample` | nexus_n3/core/subject.py:60-94 | splits off full blocks as specified; false exactly for an unknown address |
| `RawData.Subject.FlushPendingSamples` | nexus_n3/core/core.py:1713-1731 | queues every remaining buffer and empties it |
| `RawTable.TableIsRendered` | nexus_n3/file_manager/FileManager.py:326-355 | after any writes, the growing table equals the table written in one go from the surviving samples |
| `RawTable.ReadsBack` | nexus_n3/file_manager/FileManager.py:863-887 | reading back gives one row per surviving sample, with the sample's own value under each of its keys and a blank under every other header |
| `RawTable.HeadersGrow` | nexus_n3/file_manager/FileManager.py:326-355 | later writes keep the headers in place and only add to their end |
| `RawTable.DeriveAppends` | nexus_n3/file_manager/FileManager.py:318-324 | headers of more samples are the old ones, then the new keys in their own order |
| `RawTable.NothingLostExactlyWhen` | nexus_n3/file_manager/FileManager.py:326-334 | every sample survives exactly when the first block with samples has a field |
| `RawTable.FieldlessBlockIsLost` | nexus_n3/file_manager/FileManager.py:326-334 | a first block without fields leaves no row once a later block has one |
| `RawTable.StreamReadsBack` | nexus_n3/core/core.py:1713-1731 | from the stream to the file: after the tail flush the file reads back exactly the values of the sensor's samples |
| `RawTable.RawFile.WriteBlock` | nexus_n3/file_manager/FileManager.py:863-887 | the file ends with one row per sample of the block, each value under its own header, under the wider header when one is needed |
| `RawTable.RawFile.EnsureRawHeaders` | nexus_n3/file_manager/FileManager.py:326-355 | rewrites the file under the wider header as specified |
| `RawTable.DeriveHeaders` | nexus_n3/file_manager/FileManager.py:318-324 | the keys of the samples, each once, in order of first appearance |
| `ArchiveId.RoundTrip` | nexus_n3/admin/archive_service.py:171-203 | decoding the id of a nonempty filename returns that filename |
| `ArchiveId.AlphabetInOrder` | nexus_n3/admin/archive_service.py:171-203 | the characters stand for their values in the order of RFC 4648, table 2 |
| `ArchiveId.AcceptedIsCanonical` | nexus_n3/admin/archive_service.py:192-203 | an accepted id re-encodes to itself, so no two ids name one file |
| `ArchiveId.AcceptedExactly` | nexus_n3/admin/archive_service.py:192-203 | an id is accepted exactly when it is nonempty, in the alphabet, of a possible length, with zero trailing bits, and decodes to UTF-8 |

## Left out

- Sockets, discovery of nodes, heartbeats, worker reconnects and node restarts: only FIFO order and loss of messages are kept, and even those are not assumed for the official start.
- Command handlers of one node run one after the other; a start is a single step. What could happen between the two halves of an overlapping start and stop is not modelled.
- Client-chosen correlation, start-session and stop-session ids are taken to be fresh, like generated ones.
- A start or commit that the program refuses with an error (no configuration, recovery in progress, wrong phase) changes nothing and is modelled as no step.
- The subject ids and official acknowledgements kept in the official-start record, which nothing decides by.
- Startup retries: the program allows one attempt only, so that path never runs.
- Expected sampling rates are whole numbers, as the program makes them; timestamps and times are integers in microseconds.
- Connect All addresses are the normalized ones; the wording of its progress events and the position of skipped subjects in them are not kept.
- Disconnecting selected subjects, and the direct `assign_subjects`, which bypass the initialization barrier.
- Routing: routes are pairs of sensors named by address; the operation-cancellation flags of shutdown, the calls' own effects and failures, and the choice of executor per target.
- Drain: the reason, time stamps and archive details of the aggregate event.
- STOP obligations: routing can fail to drain only with two sensors configured, since a route joins two; a configuration lists each sensor once; which pairs are compatible is not modelled, nor shutdown, which cancels a running STOP, nor listener callbacks that raise; upper-casing covers ASCII letters only.
- UTF-8 validity is a parameter of the archive codec; CSV quoting, JSON text and file errors are not modelled, and the writer queue is kept per sensor, in FIFO order.
- Gateway, BLE and plugin behaviour is arbitrary input; device matching, battery checks, compute results, diagnostics, the admin interface and the cloud bridge are not modelled.
