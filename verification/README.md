# SkySolver: verified models of the recovery core

SkySolver is an airline crew-recovery prototype. This project models the parts of it whose correctness no finite
set of examples settles, and proves what they promise, for every input, every run and every interleaving.

- **Tiered solver** (`RulesEngine`, `LegalityProperties`, `DutyLaw`, `ColumnGeneration`, `Schedules`,
  `RestrictedMaster`, `Tier1`, `Tier2`, `LegacySelector`, `Orchestrator`): the duty legality engine and the law it
  implements, the greedy constructor and its local search, the bounded path-extension column generator, the
  set-partitioning master, and the pipeline that chains them. The clock is a boolean that may fire at any check when
  the run is `budgeted`; the MILP solver is a function that returns any feasible point or fails, and is optimal only
  where a clause says so.
- **Guarded recovery agent** (`Planner`, `Agent`, `AgentLiveness`): the deterministic planner, the tool registry with
  its guards, and the loop that runs one against the other. The roster, the flights and the verdict are arbitrary.
- **Durable pipeline** (`Envelopes`, `EnvelopeRules`, `Delivery`, `DeliveryTheorems`, `BlockedLanes`, `StrandedRows`,
  `ForgedMessages`, `Pipeline`, `DurableStore`, `MutationRules`, `Workflow`, `WorkflowRules`, `ApprovalLadder`,
  `WorkflowService`, `OverlappingCalls`, `CrewEvents`, `CrewHistory`): the transactional outbox, broker and idempotent
  consumer as a state machine over all interleavings with crashes and redelivery; the one-transaction command store
  with its receipts; the six-step approval workflow on top of it, whose calls load and persist in two transactions
  that interleave; the append-only crew event log and its view.
- **Registries** (`CommandState`, `CommandHistory`, `DeploymentProperties`, `DeploymentRepository`, `RowHistory`,
  `DeploymentSimulation`, `ResourceHolds`, `Governance`, `GovernanceRules`, `RulePeriods`): deployment commands in
  memory and in tables, and the simulation between the two; resource holds; rule packages.
- `Sequences` and `Text` hold the facts about lists and strings that the models share.

Code that changes state is a class or a loop proved against a function of the old state; what the code promises is then
proved about that function, for one step and for whole runs. The modules named after rules, a law or a history say what
these functions mean without them: as a table of checks, as a condition on legs or fields, or as the last event that set
each part of a state. Times are whole microseconds.

## What the proofs show about the code

- Three kinds of message stop a partition for good, although the module comment of `state/msk_consumer.py` says poison
  messages are dead-lettered: one whose key is not valid UTF-8 (the dead-letter path raises on it again), one whose
  value makes the parser raise an error the consumer does not catch, and a well-formed envelope whose tenant or event
  id the consumed-event table refuses, such as an event id that is no UUID. `BlockedLanes.PartitionMovesOnIff` says a
  lane can move on exactly when its next message is none of these, `BlockedLanes.MessagesThatStop` exhibits one of each
  and `BlockedLanes.OneMessageStopsAPartition` the run. `BlockedLanes.ConsumerMovesOnIff` adds a handler that always
  raises on some envelopes.
- An unpublished outbox row can still be published exactly when no worker holds its claim without having it in its
  batch (`StrandedRows.PublishableIff`). A publisher that stops between claim and mark, or whose release fails, leaves
  its rows in that state; `StrandedRows.CrashLosesARow` is such a run. So only safety and the drained case are claimed.
- A call of the workflow service loads and persists in two transactions. It hands back a stored receipt exactly when
  the same command, under the same key, was committed between the two, and a creation never does
  (`OverlappingCalls.ReplayedIff`, with a run in `OverlappingCalls.OverlappingSelections`). A retry that begins after
  the first call ended is refused as stale instead (`ApprovalLadder.LateRetryIsStale`): the version check comes before
  the receipt lookup. However calls overlap, every recovery stays on the ladder, and an authorized one has six calls
  and three people behind it (`OverlappingCalls.RunStaysOnLadder`, `OverlappingCalls.SixCallsBehindIt`).
- The receipt of a command may be that of another one: the stored digest covers the type of command, the recovery, the
  version and the role, but not, say, the candidate (`MutationRules.OtherContentsSameReceipt`).
- The pipeline takes Tier 2's answer only if it covers more flights than Tier 1's. Otherwise it keeps Tier 1's schedule,
  also where Tier 2 found a cheaper one of the same coverage; so the lowest price is promised only where coverage rose
  (`Orchestrator.SolveRecovery`).
- A drained group has applied an event exactly unless another producer's message with the event's tenant and id, but
  another content, was applied there first (`ForgedMessages.AppliedUnlessTaken`); `ForgedMessages.ForgeryWins` is such
  a run.
- The status of a deployment says complete exactly when its required commands are all acknowledged, and every accepted
  action keeps it so except the retry of an optional command of a complete deployment
  (`DeploymentProperties.CompleteStaysExactIff`, with a run in `DeploymentProperties.CompletionCanBeHidden`). A
  deployment of optional commands only never completes (`DeploymentProperties.OptionalOnlyNeverCompletes`).
- The in-memory and the durable deployment status agree after a move exactly when some required command has left the
  queue (`DeploymentSimulation.StatusesAgreeIff`); when every command is required they always do. The references agree
  exactly when the command has not timed out (`DeploymentSimulation.ReferencesAgreeIff`): a timeout keeps the adapter's
  reference in memory and clears it in the tables. The failure codes agree exactly unless the command was
  acknowledged under a code, which the row stores and memory drops (`DeploymentSimulation.CodesAgreeIff`).
- The planner is refused only when it previews a flight without a planned route. Given enough steps a run stalls
  exactly when that happens (`AgentLiveness.RunWithEnoughSteps`), and it does happen
  (`AgentLiveness.UnroutedWorldStalls`).
- A crew member without a recorded location misses legal duties in the column generator
  (`ColumnGeneration.UnknownLocationMissesDuties`), which is why the optimality statement asks for known locations.
- A rule package that becomes active is effective at that moment, except exactly after a rollback outside its period,
  which the code does not look at (`RulePeriods.MadeActiveIsEffectiveIff`, with a run in
  `RulePeriods.RollbackOutsideThePeriod`). Without such rollbacks every active package was effective when it was last
  made active (`RulePeriods.ActiveWasEffective`).

## Model

| member | source | states |
|---|---|---|
| RulesEngine.ReportQualifications | rules/engine.py:96-105 | the loop reports, per operated leg in order, an unknown aircraft type or a missing rating, and nothing else; which these are is DutyLaw.ReportedIff |
| RulesEngine.ReportDeadheadLoops | rules/engine.py:113-121 | the loop with its seen-set reports exactly the first repeated deadhead stop |
| RulesEngine.ReportConnections | rules/engine.py:129-132 | one pass reports every break of place and every connection under 30 minutes between neighbouring legs |
| RulesEngine.ReportContinuity | rules/engine.py:124-133 | the legs are taken in departure order; bad times, then position, then breaks are reported |
| RulesEngine.ValidateAssignment | rules/engine.py:69-77 | all seven checks run, in order, and their findings are joined |
| LegalityProperties.LegalIff | rules/engine.py:60-133 | no findings exactly when the duty fits its limits, the crew is rested and holds the rating named like each operated type without "neo", deadhead stops do not repeat and the legs in departure order are an unbroken journey |
| DutyLaw.ReportedIff | rules/engine.py:60-133 | each of the eleven kinds of violation is reported exactly when it is due by the legs, the window and the crew alone: the limits in minutes by operated sectors and early start, flight, rest and deadhead time, the rating that bears the name of the type, the first airport that deadheads touch twice, bad times, position, breaks of place and short connections |
| DutyLaw.LegalIffNothingDue | rules/engine.py:68-77 | a duty is legal exactly when no violation is due |
| DutyLaw.ReportIsInOrder | rules/engine.py:69-77 | violations are reported in the order duty time, flight time, rest, ratings, deadheading, loops, continuity |
| DutyLaw.DepartureOrder | rules/engine.py:125 | the itinerary has the duty's legs, by departure, legs that leave together as listed |
| LegalityProperties.LegalityIgnoresLegOrder | rules/engine.py:68-133 | the verdict is the same for every arrangement of the legs with the same window |
| LegalityProperties.TiesAreIllegal | rules/engine.py:124-133 | two legs with the same departure time are illegal in every order |
| LegalityProperties.LegBound | rules/engine.py:49-66 | a legal duty inside its window has at most 25 legs, and at most 2s+1 legs for s operated ones |
| LegalityProperties.LegBoundIsExact | rules/engine.py:52-66 | a legal duty of 25 legs exists, so the bound cannot be lowered |
| LegalityProperties.PrefixIsLegal | rules/engine.py:60-133 | every non-empty prefix of a legal tight-window chain is legal |
| ColumnGeneration.TryExtension | solvers/tier2.py:154-169 | one flight extends a column exactly when the result is again a legal chain |
| ColumnGeneration.ExtendColumns | solvers/tier2.py:142-171 | every extension is a legal chain one leg longer; without time pressure none is missed |
| ColumnGeneration.SingleLegColumns | solvers/tier2.py:106-127 | the one-leg columns are exactly the legal ones from the crew's airports |
| ColumnGeneration.GenerateColumnsForCrew | solvers/tier2.py:80-140 | every column is a legal chain of at most four legs that costs the time from its first departure to its last arrival plus half the time of its deadheads; without time pressure every such chain is a column |
| ColumnGeneration.CostIsPrice | solvers/tier2.py:80-91 | the computed cost of legs is the price of their tight duty |
| ColumnGeneration.LegalDutyIsChainIff | solvers/tier2.py:106-109 | a legal duty is generated, given enough levels, exactly when its first leg leaves from the crew's location or base |
| ColumnGeneration.KnownLocationIsComplete | solvers/tier2.py:106-109 | with a known location no legal duty is out of the generator's reach |
| ColumnGeneration.UnknownLocationMissesDuties | solvers/tier2.py:106-109 | a crew member without a location has a legal duty that the generator never looks at |
| Schedules.CoveredAndUncovered | solvers/tier2.py:378-379 | the covered legs and the flights reported uncovered are together exactly the input |
| RestrictedMaster.ColumnCostBound | solvers/tier2.py:80-91 | a legal column costs between 0 and 18 hours |
| RestrictedMaster.PenaltyDominates | solvers/tier2.py:322-326 | with at most 555 crew the total cost of any feasible selection is below one uncovered-flight penalty |
| RestrictedMaster.OptimalCoversMost | solvers/tier2.py:298-327 | an optimal point leaves no more flights uncovered than any feasible point |
| RestrictedMaster.LineupPointIsFeasible | solvers/tier2.py:313-321 | every legal schedule without a flight in two duties satisfies both constraint families |
| RestrictedMaster.OptimalBeatsLineup | solvers/tier2.py:298-327 | an optimal point covers at least as many flights as any schedule made of the columns, and if it covers as many its selection costs no more |
| RestrictedMaster.OptimalBeatsEveryRoster | solvers/tier2.py:298-327 | over complete columns an optimal point covers at least as many flights as any roster of legal duties of up to four legs |
| Tier2.Deduplicate | solvers/tier2.py:343-347 | per crew and leg ids the last column is kept, at the place where its key first turned up, and no key is lost |
| Tier2.FeasiblePointIsSchedule | solvers/tier2.py:374-379 | the duties read off any feasible point are legal, one per crew, and partition the flights with the uncovered ones |
| Tier2.CollectColumns | solvers/tier2.py:337-342 | incumbent and generated columns are all legal and priced; the incumbent's duties, and without time pressure every legal chain, are among them |
| Tier2.SelectionPrice | solvers/tier2.py:322-326 | the cost of a selection is the price of the duties read off it |
| Tier2.OptimalBeatsRosters | solvers/tier2.py:298-327 | over complete columns no legal schedule of duties of up to four legs covers more flights than an optimal point, or as many at a lower price |
| Tier2.Solve | solvers/tier2.py:329-401 | for any clock and any feasible-or-failing solver the result is a legal schedule covering no less than the incumbent, and its status says how the solver ended; with an optimal solver and 555 crew it is no dearer than an incumbent of equal coverage, and without time pressure no roster covers more, or as many at a lower price |
| LegacySelector.BestColumn | solvers/tier2.py:206-213 | the first of the cheapest columns that overlap neither covered flights nor used crew, or none if none fits |
| LegacySelector.MasterProblemSolve | solvers/tier2.py:173-224 | flights are served earliest departure first, each by its first cheapest fitting column; the picked columns are legal, crew-disjoint and flight-disjoint, and no remaining column could be added |
| LegacySelector.Solve | solvers/tier2.py:226-287 | the assignments are a legal schedule; without time pressure no unused crew could still fly a chain over uncovered flights |
| Tier1.BestExtension | solvers/tier1.py:121-134 | the chosen duty is the first of those that can legally take the leg out of whose window the leg sticks least |
| Tier1.FirstIdleCrew | solvers/tier1.py:144-157 | the first unused crew member that can legally open a duty with the leg, or none |
| Tier1.PlaceLeg | solvers/tier1.py:119-160 | the best extension is taken if there is one, else the first idle crew that can open, else the leg is given up, and then no duty can legally take it; every duty stays legal and tight and the leg is accounted for once |
| Tier1.GreedyConstruct | solvers/tier1.py:93-162 | a legal schedule, one duty per crew, legs in departure order, partitioning the input; without time pressure no idle crew could take an uncovered leg |
| Tier1.SortDuty | solvers/tier1.py:179-195 | a duty is replaced only by the tight duty of its own legs in departure order, and exactly if that is a change, legal and no longer |
| Tier1.Sweep | solvers/tier1.py:178-195 | a sweep keeps legality and legs, never raises the cost, and strictly lowers the number of unordered duties if it changes anything |
| Tier1.LnsImprove | solvers/tier1.py:165-196 | the search ends whatever the clock does, keeps legality, the multiset of legs and the cost or lowers it, and is the identity on ordered input |
| Tier1.SolvePartition | solvers/tier1.py:199-225 | the Tier 1 result is a legal schedule at its price, complete exactly when nothing is uncovered; without time pressure no idle crew member may legally fly an uncovered flight |
| Orchestrator.SolveRecovery | solvers/orchestrator.py:12-31 | legal, one duty per crew, a partition of the flights, never below Tier 1's coverage, and Tier 1's own schedule if not above it; complete iff nothing uncovered iff not HUMAN_ASSIST; under the Tier 2 conditions no roster covers more, and none as many at a lower price if Tier 2 covered more than Tier 1 |
| Planner.ComputeScarcityCost | agents/planner.py:159-174 | the cost is the sum, over the other unresolved flights that still have the crew member among their candidates, of one over their number of candidates |
| Planner.SpareCrewFirst | agents/planner.py:176-201 | with pools below 2000 the previewed candidate is needed by another flight exactly if every candidate is |
| Planner.ShareShowsIff | agents/planner.py:189 | a share in a pool survives the rounding to three decimals exactly if the pool has fewer than 2000 members |
| Planner.ComputeRank | agents/planner.py:176-201 | the list is built and sorted by scarcity, position, rest, seniority and id |
| Planner.PickIsBest | agents/planner.py:125-131 | of the remaining candidates the previewed one has the least rounded cost to other flights; of those it is based at the origin if any is; then nobody has more rest, then more seniority, then the smaller id |
| Planner.RoundedIff | agents/planner.py:189 | the cost is rounded to the nearest thousandth, of two equally near ones to the even one |
| Planner.SelectedIsMostUrgent | agents/planner.py:135-146 | no case has fewer candidates left than the selected one; of as many none carries more passengers; then the smaller flight id |
| Planner.TypeRatedIff | agents/tools.py:51-67 | a flight's candidates are the crew members without a flight whose ratings include the flight's aircraft type without its suffixes |
| Planner.OpenCaseIff | agents/tools.py:70-94 | the cases are the known flights whose assigned crew member is out of legal limits, with the flight's passengers |
| Planner.VariantsAreNormalised | agents/tools.py:34-40 | a type, its "-8" variant and its "neo" variant need the same rating |
| Agent.ToolRegistry.PreviewReassignment | agents/tools.py:266-279 | refused exactly for an unknown flight, crew or route; otherwise records the verdict and clears the pair if legal |
| Agent.ToolRegistry.CommitReassignment | agents/tools.py:301-337 | accepted exactly for a cleared pair of a flight without a commitment; a refusal changes nothing |
| Agent.ToolRegistry.EscalateToTier3 | agents/tools.py:359-402 | accepted exactly when every free rated candidate was evaluated and no cleared pair exists |
| Agent.GuardsHold | agents/tools.py:301-337 | after any sequence of calls by any planner every commitment is over a planned route and was cleared by the rules, and no flight is committed twice |
| AgentLiveness.SelectionIsChosen | agents/planner.py:135-146 | the selected flight is unresolved and no unresolved flight is more urgent |
| AgentLiveness.ProposalIsSensible | agents/planner.py:66-132 | the planner perceives first, then works on the most urgent flight: commits its first cleared crew member, else escalates if nobody is left to try, else lists once, else previews the best candidate left; it stops only when all is settled |
| AgentLiveness.ClearedIsOffered | agents/recovery_agent.py:57-62 | a cleared pair of an unresolved flight is found by the planner, the first by crew id of those that are free |
| AgentLiveness.CommitKeepsInv | agents/tools.py:301-337 | the planner's commit is accepted and keeps the run invariant |
| AgentLiveness.EscalateKeepsInv | agents/tools.py:359-402 | the planner's escalation is accepted and keeps the run invariant |
| AgentLiveness.PreviewKeepsClearedNext | agents/planner.py:135-156 | a preview that comes back legal makes its flight the strict minimum, so it is committed next |
| AgentLiveness.NeverRefused | agents/planner.py:66-132 | the only call that can be refused is a preview of a flight without a route |
| AgentLiveness.SensibleStepUsesACall | agents/planner.py:66-156 | every accepted call lowers the number of calls left |
| AgentLiveness.RecoveryAgent.Turn | agents/recovery_agent.py:210-225 | a call is invoked and observed; a refused one leaves the working memory alone |
| AgentLiveness.RecoveryAgent.Run | agents/recovery_agent.py:131-207 | with known routes and more steps than 1 plus the sum of rated crew plus 2 the run completes; every case committed or escalated, no crew or flight twice, escalations earned; with one step more it stalls exactly when it insists on a flight without a route; however few the steps, what it leaves is what that many calls of the planner make, and it reports the cases neither committed nor escalated |
| AgentLiveness.RunWithEnoughSteps | agents/recovery_agent.py:131-207 | given the steps, the run completes exactly when all cases are settled and stalls exactly on a missing route |
| AgentLiveness.RunWithoutRoute | agents/recovery_agent.py:172-193 | the run stalls whenever an open flight has no route but has crew rated for no routed flight |
| AgentLiveness.UnroutedWorldStalls | agents/recovery_agent.py:172-193 | one disrupted flight, one rated crew member and no route: the run stalls |
| Envelopes.RenderedIsProcessable | state/msk_consumer.py:54-68 | what the outbox writes is decoded and processed as an envelope that tells all thirteen fields of its event |
| EnvelopeRules.ProcessedIff | state/msk_consumer.py:54-119 | a message is applied exactly if it is an object with the twelve fields, a positive version and an object as payload, its key is empty or the envelope's, and the consumed-event table can name it |
| EnvelopeRules.PoisonIff | state/msk_consumer.py:104-111 | it is dead-lettered exactly if value and key can be read and it is no such event or has another's key |
| EnvelopeRules.UuidRoundTrip | state/postgres_event_store.py:86 | a generated id, written with its hyphens, is accepted by a uuid column and read back as its 32 digits |
| EnvelopeRules.UuidIsPlain | state/postgres_event_store.py:182 | two texts are the same id exactly by their digits: hyphens, braces and case do not count |
| EnvelopeRules.InsertableIff | state/postgres_event_store.py:90-106 | an event is inserted exactly if its id is generated, no text column gets a zero character, correlation and causation are UUIDs and no part of the payload is one that jsonb refuses |
| Delivery.StepKeepsInv | state/postgres_event_store.py:67-190 | every step of append, claim, send, mark, crash, poll, apply, dead-letter and commit keeps the tables and logs in agreement |
| Delivery.ClaimsAreNeverStale | state/postgres_event_store.py:131-152 | marking a row the worker still holds never finds the claim taken by another |
| DeliveryTheorems.AppliedAtMostOnce | state/postgres_event_store.py:176-190 | in every run no event's projection is committed twice in a consumer group |
| DeliveryTheorems.CommittedOffsetsAreAccounted | state/msk_consumer.py:99-122 | every offset below the committed one was applied or has a dead-letter record |
| DeliveryTheorems.EventsAreNotDeadLettered | state/msk_consumer.py:124-139 | no message produced by the outbox is dead-lettered |
| DeliveryTheorems.DrainedMeansExactlyOnce | state/postgres_event_store.py:158-190 | once all rows are published and the log fully committed, and nobody else wrote processable messages, the applied events are exactly the appended ones, each once |
| DeliveryTheorems.DrainedTellsOfEachEvent | state/postgres_event_store.py:42-51 | in a drained run each appended event has exactly one application in the group whose envelope agrees with it in all thirteen fields, unless its id was used for something else |
| DeliveryTheorems.NothingElseIsTold | state/postgres_event_store.py:176-190 | if nobody else wrote anything processable, whatever was applied tells an appended event field by field |
| DeliveryTheorems.EventsAreRequested | state/postgres_event_store.py:78-100 | in every run each stored event is what an append asked for under its version, and each stream is numbered one, two, three |
| DeliveryTheorems.DrainedBesideOthers | state/postgres_event_store.py:158-190 | if no other producer uses an event's id for something else, the envelopes a drained group applied under outbox ids are exactly the appended ones, each once; copies of events are allowed |
| ForgedMessages.AppliedUnlessTaken | state/postgres_event_store.py:176-190 | whoever else writes whatever, an event of a drained run was applied in a group exactly unless something else was applied there under its tenant and id |
| ForgedMessages.TakenMeansForged | state/postgres_event_store.py:176-190 | what took an event's place is a logged message that carries its id with another content |
| ForgedMessages.ForgeryWins | state/postgres_event_store.py:176-190 | a run in which a forgery is applied first, and no continuation applies the event in that group |
| BlockedLanes.BlockedIsNeverPassed | state/msk_consumer.py:94-122 | a blocked message is never passed in any continuation |
| BlockedLanes.PartitionMovesOnIff | state/msk_consumer.py:99-122 | in any interleaving a lane can get past its committed offset exactly when the message there is not one of the three kinds that fail on every delivery |
| BlockedLanes.ConsumerMovesOnIff | state/msk_consumer.py:99-122 | a consumer alone moves on exactly when its next message is poison, was consumed before, or is one its handler can deal with |
| BlockedLanes.MessagesThatStop | state/msk_consumer.py:54-97 | a message of each of the three kinds |
| BlockedLanes.OneMessageStopsAPartition | state/msk_consumer.py:99-122 | one such message holds its partition at offset zero in every group, whatever follows |
| StrandedRows.CrashStrandsItsBatch | state/postgres_event_store.py:114-129 | rows of a worker that stops between claim and mark stay unpublished in every continuation |
| StrandedRows.PublishableIff | state/postgres_event_store.py:114-169 | in every reachable state an unpublished row can still be published exactly when no worker claims it without having it in its batch |
| StrandedRows.CrashLosesARow | state/postgres_event_store.py:114-129 | append, claim, crash: a reachable row that no continuation publishes |
| StrandedRows.SomeEventIsInsertable | state/postgres_event_store.py:67-112 | there is an event that every column accepts, so such runs exist |
| Pipeline.Database.AppendEvent | state/postgres_event_store.py:67-112 | the next version of the stream with its outbox row, the version found, or the refusal of a column, and then no change |
| Pipeline.Database.PublishBatch | state/postgres_event_store.py:158-169 | a run of the protocol; every claimed row ends published or released and is counted once, or the call raises: the first rows are finished, the failing one too if its write went through unanswered, and the rest are stranded |
| Pipeline.Database.ProcessOne | state/msk_consumer.py:99-122 | a run of the protocol; what each result says about tables and offset; a raised call may have had its effect, and may have committed the offset if only the answer was lost |
| DurableStore.Repository.Transact | state/durable_recovery_store.py:82-188 | the statements commit together, or the rollback leaves every table as it was |
| DurableStore.Repository.Mutate | state/durable_recovery_store.py:82-206 | outcome, with the response and its new state version, and new tables for a new, repeated, reused or stale command; consistency is kept |
| DurableStore.MutateKeepsConsistency | state/durable_recovery_store.py:111-182 | versions 1..n equal the stream and snapshot versions, the outbox mirrors the events, keys and events are one to one |
| DurableStore.RunKeepsConsistency | state/durable_recovery_store.py:82-188 | consistency after any run with retries, stale versions and key reuse |
| DurableStore.OutcomesAreDefinite | state/durable_recovery_store.py:190-206 | no command is ever seen in progress; a failure or a replay writes nothing; a new event exactly when admitted |
| DurableStore.RetryReturnsTheReceipt | state/durable_recovery_store.py:190-206 | after any run a matching retry returns the stored receipt and changes nothing |
| DurableStore.KeyReuseIsRefused | state/durable_recovery_store.py:201-202 | after any run a key reused for another command is a conflict |
| MutationRules.KnownKeyMeans | state/durable_recovery_store.py:190-206 | a key on file repeats the receipt of its first event exactly if that was for the same type, recovery, version and request, and is refused otherwise; nothing is written |
| MutationRules.NewKeyMeans | state/durable_recovery_store.py:101-182 | a new key is stale exactly if the recovery has another number of events; otherwise one event tells all that was asked, with its message and its receipt |
| MutationRules.OtherContentsSameReceipt | state/durable_recovery_store.py:84-89 | two commands that differ only outside type, recovery, version and request share one receipt |
| DurableStore.Repository.Replay | state/durable_recovery_store.py:230-255 | folding in version order is folding in the order written, and ends at the stream version |
| DurableStore.Repository.ReplaySnapshot | state/durable_recovery_store.py:208-255 | replay with the newest-snapshot reducer equals the stored snapshot |
| WorkflowService.DurableRecoveryWorkflow.CreateRecovery | core/durable_recovery_workflow.py:70-79 | a new recovery at version one, never replayed, or nothing written |
| WorkflowService.DurableRecoveryWorkflow.SelectCandidate | core/durable_recovery_workflow.py:81-94 | whatever others commit between load and persist: exactly one rung up with the candidate on file and earlier evidence kept; or the receipt on file repeated, exactly if the same command was recorded by then; or nothing written |
| WorkflowService.DurableRecoveryWorkflow.RecordIndependentValidation | core/durable_recovery_workflow.py:96-115 | whatever others commit between load and persist: exactly one rung up with the signed, clean certificate of the unexpired selected candidate on file; or the receipt on file repeated, exactly if the same command was recorded by then; or nothing written |
| WorkflowService.DurableRecoveryWorkflow.RecordJointFeasibility | core/durable_recovery_workflow.py:117-127 | whatever others commit between load and persist: exactly one rung up with feasibility and a valid hold of the unexpired selected candidate on file; or the receipt on file repeated, exactly if the same command was recorded by then; or nothing written |
| WorkflowService.DurableRecoveryWorkflow.ApproveRecovery | core/durable_recovery_workflow.py:129-139 | whatever others commit between load and persist: exactly one rung up with approval of the unexpired selected candidate by a duty manager who is not the proposer, with a reason; or the receipt on file repeated, exactly if the same command was recorded by then; or nothing written |
| WorkflowService.DurableRecoveryWorkflow.AuthorizeDeployment | core/durable_recovery_workflow.py:141-154 | whatever others commit between load and persist: exactly one rung up with authorization of the unexpired selected candidate by a controller who is neither proposer nor approver, under a valid hold; or the receipt on file repeated, exactly if the same command was recorded by then; or nothing written |
| WorkflowRules.DecidedByRules | core/durable_recovery_workflow.py:52-161 | a call passes exactly if the recovery is at the expected version and every check of its kind passes, and is otherwise refused for the first that fails; a presented candidate that has expired fails the five calls that present one |
| ApprovalLadder.AcceptedClimbs | core/durable_recovery_workflow.py:81-154 | an accepted transition moves up exactly one rung and replaces no evidence |
| OverlappingCalls.RunStaysOnLadder | core/durable_recovery_workflow.py:52-154 | however calls overlap, the version determines status and evidence of every recovery, and every event tells who asked for what and went out on the workflow's topic |
| OverlappingCalls.PersistStepClimbs | core/durable_recovery_workflow.py:59-68 | in every run each persist climbs exactly one rung of its own recovery, repeats a receipt, or writes nothing |
| ApprovalLadder.SixMutationsAtMost | core/durable_recovery_workflow.py:70-154 | no recovery takes more than six mutations; the stored version names the status |
| ApprovalLadder.AuthorizedMeansThreePeople | core/durable_recovery_workflow.py:129-154 | proposer, duty manager and controller of an authorized recovery are pairwise distinct; certificate and approval name the one selected candidate, feasibility and hold are on file |
| OverlappingCalls.SixCallsBehindIt | core/durable_recovery_workflow.py:52-161 | from empty tables, however calls overlap: six answered calls are behind an authorized recovery, in order, the later five presenting the one selected candidate before it expired, with clean certificate, signature, feasibility, reason and hold, by three different people |
| OverlappingCalls.ReplayedIff | core/durable_recovery_workflow.py:52-68 | a persist hands back a stored receipt exactly when the same command under the same key was committed since the load; it then writes nothing, and a creation never does |
| OverlappingCalls.OverlappingSelections | core/durable_recovery_workflow.py:52-68 | the same selection sent twice, both loaded before either persists: the first is accepted, the second handed its receipt |
| ApprovalLadder.LateRetryIsStale | core/durable_recovery_workflow.py:52-57 | a retry that begins after its command was recorded is rejected as stale |
| WorkflowService.PersistClimbs | core/durable_recovery_workflow.py:59-68 | a decision taken on an earlier snapshot and persisted later climbs exactly one rung, keeps the evidence below it and touches no other recovery, or repeats a receipt, or writes nothing |
| CrewEvents.EventStore.Append | state/event_store.py:122-142 | duplicate, version conflict or stored, with the stamped event and all four tables |
| CrewHistory.AppendMeans | state/event_store.py:122-142 | an append is a duplicate exactly if its id was logged, a conflict exactly if the caller expects another number of events in the stream; otherwise the event is logged as it is, with the next number of its stream |
| CrewEvents.TablesIndexTheLog | state/event_store.py:122-145 | per-partition lists, ids and stream versions are those of the log, and each stream is numbered 1, 2, 3 |
| CrewEvents.EventStore.SaveAndLoad | state/event_store.py:167-179 | writing out and reading back reproduces log, partition lists, ids, sequences and stream versions |
| CrewEvents.MaterializedView.Apply | state/event_store.py:199-251 | one event updates its crew member only; a null is stored as None, a missing key or an unreadable null raises and leaves a creation undone and otherwise only the version bump |
| CrewHistory.ViewRecallsHistory | state/event_store.py:199-251 | after any events a crew member is in the view exactly if created, and clock, rest, place, partition, hub, ratings, version and active flights are those left by the last events that set them; the replay raises exactly if an event that lacks what it needs meets a member that exists |
| CrewEvents.CrewsAreSeparate | state/event_store.py:199-251 | a crew member's state depends on that member's events alone; a history raises iff some member's does |
| CrewEvents.ReplayKeepsStreams | state/event_store.py:147-150 | sorting by sequence, timestamp and id keeps every crew member's events in append order |
| CrewHistory.ReplayOrder | state/event_store.py:147-150 | a partition is replayed by sequence, then time, then id |
| CrewEvents.RebuildEqualsIncremental | state/event_store.py:163-165 | rebuilding a partition from its sorted stream gives the view of the append order, or raises with it |
| CrewEvents.EventStore.Replay | state/event_store.py:163-197 | the replayed view is that of the partition's events in the order they were appended |
| DeploymentProperties.RecomputeIsExact | deployment/command_state.py:146-157 | from a status that meant what it said, recomputing after a command left the queue or was answered gives complete, partial and failed exactly when the required commands say so |
| CommandState.DeploymentAggregate.Send | deployment/command_state.py:164-172 | refused unless current and queued; otherwise sent, counted, recomputed, version advanced |
| CommandState.DeploymentAggregate.Answer | deployment/command_state.py:174-186 | acknowledgement or rejection of a sent command with its failure code |
| CommandState.DeploymentAggregate.Expire | deployment/command_state.py:188-195 | timeout of a sent command |
| CommandState.DeploymentAggregate.RetryCommand | deployment/command_state.py:197-205 | a failed command is queued again and the deployment with it |
| CommandState.DeploymentAggregate.CompensateAll | deployment/command_state.py:207-218 | every acknowledged command is turned around, or marked irreversible |
| CommandState.DeploymentAggregate.ConfirmCompensation | deployment/command_state.py:220-229 | a pending compensation is confirmed; compensated once all commands are settled back |
| CommandState.DeploymentRegistry.Create | deployment/command_state.py:101-126 | a used key returns its deployment unchanged; otherwise fresh queued commands at version one |
| CommandState.SimulateDeployment | deployment/recovery_api.py:589-598 | sending then acknowledging all n commands ends complete at version 1+2n |
| DeploymentProperties.ReportsAreExact | deployment/command_state.py:146-195 | after a send, answer or timeout complete, partial and failed hold exactly when the required commands say so |
| DeploymentProperties.RunKeepsInv | deployment/command_state.py:164-229 | in every run the status means what it says, failure codes are set exactly on failed commands, and the version counts the accepted steps |
| CommandHistory.RunRecalls | deployment/command_state.py:164-229 | in every run from creation each command's status, attempts, reference, failure code and detail are those left by the last accepted actions that set them |
| CommandHistory.AcceptedIff | deployment/command_state.py:128-229 | an action is accepted exactly if the version is current and the first command with the id, or for a compensation some command, is in the status it starts from; each refusal has its cause |
| CommandHistory.CompensationMeans | deployment/command_state.py:197-229 | compensation calls for a new recovery exactly if something acknowledged cannot be undone, and is over exactly when every command is compensated or failed |
| CommandHistory.ReportMeans | deployment/command_state.py:146-157 | a report leaves publishing while something required is out and nothing failed, and the old status if the required commands call for nothing |
| DeploymentProperties.IrreversibleIsForever | deployment/command_state.py:207-229 | a required irreversible command excludes complete and compensated in every continuation |
| DeploymentProperties.CompleteStaysExactIff | deployment/command_state.py:164-229 | of all accepted actions exactly the retry of a complete deployment makes complete differ from all required commands being acknowledged |
| DeploymentProperties.RetryHidesCompletion | deployment/command_state.py:197-205 | that retry leaves the deployment queued with all required commands still acknowledged |
| DeploymentProperties.CompletionCanBeHidden | deployment/command_state.py:197-205 | a run from creation that ends in such a retry |
| DeploymentProperties.OptionalOnlyNeverCompletes | deployment/command_state.py:146-157 | without required commands a deployment is never complete, partial or failed |
| DeploymentRepository.DurableDeploymentRepository.Transition | state/deployment_repository.py:103-174 | replayed, refused or moved, with the rows, version and count-derived status |
| DeploymentRepository.DurableDeploymentRepository.Acknowledge | state/deployment_repository.py:85-95 | argument checks, then the transition |
| DeploymentRepository.DurableDeploymentRepository.ClaimCommands | state/deployment_repository.py:45-75 | argument checks; at most the limit of the due rows, in order, each queued and free, now the worker's |
| DeploymentRepository.ClaimsAreExclusive | state/deployment_repository.py:51-62 | no claim is taken from another worker, and nothing but claims changes |
| DeploymentRepository.DurableDeploymentRepository.ReleaseClaim | state/deployment_repository.py:180-196 | only the claiming worker releases a queued command |
| RowHistory.RunRecalls | state/deployment_repository.py:45-196 | in every run from fresh rows each row's status, reference, code, error, claim, attempts and version are those left by the last claims, releases and reports that took effect |
| RowHistory.AnswerMeans | state/deployment_repository.py:103-137 | a report moves the first row with its id exactly if the version is current, the row does not say it already and it starts from the right status, a publication also from its worker's claim; a repeated one is replayed |
| RowHistory.ClaimMeans | state/deployment_repository.py:51-62 | a row can be claimed exactly if it is queued and free, and released exactly by its claimer while queued |
| RowHistory.ClaimedIsQueued | state/deployment_repository.py:139-148 | in every run only queued rows are claimed |
| DeploymentSimulation.CountsAreRight | state/deployment_repository.py:149-164 | the three counts give the status the required commands call for, and the read model's flag |
| DeploymentSimulation.AnswersAgree | state/deployment_repository.py:118-137 | the tables move exactly when memory accepts and the publisher owns the claim; a replay changes neither |
| DeploymentSimulation.MoveIsMatched | state/deployment_repository.py:139-148 | after a move both machines have the same statuses, attempts and version, and failure codes and references that fit |
| DeploymentSimulation.RunKeepsTogether | state/deployment_repository.py:103-174 | they stay together over every run with claims and releases |
| DeploymentSimulation.StatusesAgreeIff | deployment/command_state.py:146-157 | after the first move the two statuses agree exactly when some required command has left the queue |
| DeploymentSimulation.AllRequiredAgrees | deployment/command_state.py:146-195 | with all commands required statuses and versions agree after every move |
| DeploymentSimulation.ReferencesAgreeIff | state/deployment_repository.py:97-148 | in every run a command's two references agree exactly when it has not timed out; after a timeout memory has one and the row none |
| DeploymentSimulation.TimeoutDropsTheReference | state/deployment_repository.py:97-148 | claim, publish, timeout: the reference survives in memory and is gone from the row |
| DeploymentSimulation.CodesAgreeIff | deployment/command_state.py:174-186 | in every run a command's two failure codes agree exactly unless it was acknowledged under a code |
| DeploymentSimulation.AcknowledgedUnderACode | state/deployment_repository.py:85-148 | claim, publish, acknowledge with a code: the row keeps the code, memory drops it |
| DeploymentSimulation.ReadModelIsRight | state/read_model_repository.py:55-60 | the recomputed complete flag equals the stored status in every reachable state |
| ResourceHolds.NoDoubleHold | core/resource_holds.py:43-76 | no resource of a tenant is in two holds |
| ResourceHolds.ResourceHoldRegistry.Expire | core/resource_holds.py:46-50 | exactly the expired holds go, and their index entries with them |
| ResourceHolds.ResourceHoldRegistry.Acquire | core/resource_holds.py:58-76 | a refusal changes nothing but expiry and names exactly the held resources; otherwise the new hold is filed |
| ResourceHolds.ResourceHoldRegistry.Release | core/resource_holds.py:92-97 | only the owner of a live hold releases it; a missing hold and a foreign owner are told apart |
| ResourceHolds.ResourceHoldRegistry.AssertCurrent | core/resource_holds.py:86-90 | returns the hold exactly if it is live and of this candidate and version; expired holds go either way |
| ResourceHolds.ResourceHoldRegistry.ReleaseForRecovery | core/resource_holds.py:99-105 | only the recovery of a live hold releases it this way |
| ResourceHolds.ResourceHoldRegistry.ReleaseAllForRecovery | core/resource_holds.py:107-119 | exactly the live holds of the recovery are released and returned |
| ResourceHolds.RecoveryStore.SupersedePriorRecoveries | deployment/recovery_api.py:396-406 | exactly the other recoveries of the disruption are marked, exactly their live holds are freed and their ids returned; every other live hold stays |
| Governance.RulePackageRegistry.SubmitPackage | rules/governance.py:90-109 | each rejection in order; otherwise a draft package |
| Governance.RulePackageRegistry.ApprovePackage | rules/governance.py:111-127 | each rejection in order; approved once both authorities have spoken |
| Governance.RulePackageRegistry.BeginShadowRun | rules/governance.py:129-135 | only a package both authorities approved enters its shadow run |
| Governance.RulePackageRegistry.RecordShadowRun | rules/governance.py:137-150 | consistent counts and a digest, or a rejection |
| Governance.RulePackageRegistry.ActivatePackage | rules/governance.py:152-167 | clean evidence within the effective period; the current package retires |
| Governance.RulePackageRegistry.RollbackTo | rules/governance.py:169-179 | a retired package of the tenant becomes active again and the current one retires, at whatever moment |
| Governance.RulePackageRegistry.ActivePackage | rules/governance.py:181-185 | the index finds the tenant's one active package exactly when there is one |
| Governance.StepKeepsGoverned | rules/governance.py:90-179 | every action keeps the active index and every package's approvals and evidence right |
| Governance.RunKeepsGoverned | rules/governance.py:90-179 | the same over every run |
| Governance.ActiveIsEarned | rules/governance.py:111-179 | an active package is its tenant's only one, approved by two people of the two authorities, neither the submitter, with clean shadow evidence |
| GovernanceRules.RefusedByRules | rules/governance.py:90-179 | an action is taken exactly if every check of its kind passes, and otherwise refused for the first that fails |
| GovernanceRules.PackagesWereSubmitted | rules/governance.py:90-109 | in every run each package has the terms of a submission with zoned dates, a period that is not empty, a known key and a verified signature |
| GovernanceRules.ActiveIsAccountedFor | rules/governance.py:90-179 | an active package was so submitted, approved with reasons by two people of the two authorities, and its shadow evidence, with a digest, is clean |
| RulePeriods.MadeActiveIsEffectiveIff | rules/governance.py:152-179 | a package becomes active only by its activation or rollback, and is effective then except exactly after a rollback outside its period |
| RulePeriods.RollbackOutsideThePeriod | rules/governance.py:152-179 | a run that activates a package inside its period and brings it back after the period ended |
| RulePeriods.ActiveWasEffective | rules/governance.py:90-179 | in every run from the empty registry whose rollbacks are inside their targets' periods, each active package was effective when it was last made active |

## Left out

- Floating point: hours, costs and scarcity are exact integers or reals, so rounding of float sums is not modelled; the three-decimal rounding of the scarcity cost is half to even on the exact value.
- Time zones and calendar: an instant is a number of microseconds and the hour of day is a function of it; comparing naive with aware timestamps is not modelled, and a rejected naive `occurred_at` only in the command store.
- JSON and ISO dates: encoding is the identity on values; payload values of the wrong type are not modelled, missing keys and nulls are.
- UUIDs, SHA-256 and HMAC: generated ids are parameters assumed fresh, also of the messages other producers have written so far, digests are compared as the values they cover, signatures are given as valid or not.
- Crew and flight ids are assumed unique where the solvers build dictionaries from them.
- SQL, psycopg, Kafka and locks: tables are maps and sequences, each transaction is one atomic step, and a database error other than the modelled ones is a rollback. A commit whose answer is lost is modelled for publishing and consuming; an append or a mutation that went through counts as answered. PostgreSQL's limit on the size of an index row, which a very long tenant id would break, is not modelled.
- Retry timing (`next_attempt_at`) and error texts: an outbox claim may take any claimable rows, a command claim is given the due rows in the database's order.
- The consumer checkpoint table, lag observer (and an error it raises), drain signal and close of the consumer loop.
- One consumer per lane: a consumer that keeps working on an assignment it has lost is not modelled beside its successor.
- Pyomo and HiGHS: a function from columns and flights to a feasible point or a failure; warm-start values, gap telemetry, `upgraded` and message texts are dropped.
- Text for people: rationales, traces, audit notes, violation messages, escalation reports; two identical refused calls are recognised by tool and arguments.
- The verdict behind `reassignment_preview` is an arbitrary pure function of flight and crew in the agent model; `get_operational_picture` has no refusing branch in the code, so the agent's fatal stop is absent.
- Aliasing: events, commands of a returned deployment and rule packages handed to callers could be changed outside the registries; only changes through the registries' methods are modelled.
- CommandState.DeploymentRegistry.Create: the descriptive fields of deployments and commands and their timestamps are not part of the model.
- CrewEvents.EventStore.Append: returns the stamped event instead of changing the caller's object.
- DurableStore.Repository.Mutate: one repository for one kind of aggregate; appends to the same streams by the general event repository are not interleaved.
- ResourceHolds.RecoveryStore.SupersedePriorRecoveries: the clock is read once for the whole loop.
- RestrictedMaster.PenaltyDominates: 555 crew is what 10 000 over 18 allows; larger pools are not claimed either way.
- Planner liveness is stated for the deterministic planner only; for any other planner only the guards are.
- The user interface, HTTP routes, login, configuration, metrics, fixtures, passenger and capacity engines, candidate validators, certification gates, circuit breaker, ingestion and the partition-move saga: they carry no state that the proved properties depend on.
