# Workflow engine: verified model

A Dafny 4.11 model of the workflow engine's scheduling reactor and of the algorithms around it,
with machine-checked proofs. `dafny verify dfyconfig.toml` checks everything.

## What is modelled

**The reactor.** A workflow is a directed multigraph. The engine keeps `results`, an in-degree
counter per node (`pending`), a queue (`ready`) and an unordered set of in-flight futures
(`executing`). `Scheduler.dfy` is its transition relation: one popped node, or one finished
future. Every choice (which queued node is popped, which future finishes, what it returned, what
the handlers in front of the dispatch decided) is part of the event, so a statement about all
runs is a statement about all interleavings, all queue orders and all outcomes. `Reactor.dfy` is
the imperative engine: a class whose fields are updated by loops over edges, each method proved
equal to its transition. It pops the front of the queue, and with a sub-workflow node all the
others in the queue, which `SubWorkflows.dfy` shows to be a run of the same machine.

**What a workflow means.** `Fates.dfy` gives a workflow a recursive meaning over the graph, with
no queue and no counters: a node's fate is a function of its parents' fates, with error-edge
routing, `continue_on_error`, skip markers, seeds and run-ending failures included; a batched
chain counts as one node, entered at its head and answering under its tail. The main theorem,
`Meaning.QuiescentRunsComputeFates`, says that every run that comes to rest leaves exactly these
fates in `results`, batched or not and whatever fails. Schedule independence, the exact condition
for chain batching to be transparent, and resume equivalence over any number of interruptions are
read off from it. `Branching.dfy` extends the meaning, the theorem and schedule independence to
edge conditions whose targets have one parent.

**How the proof goes.** `SchedulerInvariant.dfy` describes a state by two ghost sets: how each
settled node settled (which of its out-edges its completion delivers) and which edges the current
successor walk has still to visit. `pending[n]` is the number of edges into n that have not been
delivered; a skip marker on an unsettled node is the trace of a dead edge. `SchedulerSteps.dfy`
shows that every step keeps this and `SchedulerRuns.dfy` lifts it to runs. `Completions.dfy` says
of the edges, conditions and limits themselves what a completion and a popped node come to. The nodes that a skip
cascade strands are tracked as a set, step by step. `Conditions.dfy` says exactly when the
completion order matters and what is stranded, `Limits.dfy` shows where the other hypotheses are
needed, and `Termination.dfy` needs none of them but acyclicity.

**Around the reactor.** Fan-in release (`FanIn.dfy`, `FanInRuns.dfy`), chain detection
(`ChainDetect.dfy`), the rate limiter and its eviction (`RateLimiter.dfy`), the retry loops
(`Retry.dfy`), trigger wiring (`Trigger.dfy`), sub-workflow nesting (`Nesting.dfy`), system-node
kinds (`Json.dfy`, `Kinds.dfy`) and graph documents (`GraphDocument.dfy`). What arbitrary JSON says
about a kind, a node or an edge is put field by field in `KindFields.dfy` and `DocumentFields.dfy`,
and the decoder and the loader are shown to read exactly that.

## Reading the statements

- `Startable(w, seed)`: the seed is predecessor-closed, the chains are disjoint linear chains and
  absent on a seeded run, and no fan-in is released before its last parent (`WaitsForAll`: its
  threshold is its number of parents, in whatever join mode). `SeedingIsExactIffClosed`,
  `FinishedResultsAreSeedIff` and `EarlyFanInRunsTwice` show what each part is for.
- `Driven(w, env, s, events)`: a run whose outcomes are what a deterministic environment answers,
  in any order. `Quiescent` is the loop's exit condition; `Maximal` adds aborted and paused runs.
- `Solves(w, env, seed, fates)`: `fates` satisfies the fate equation at every node. On an acyclic
  graph there is exactly one such assignment (`EvaluationSolves`, `SolutionsAgree`).
- `ChainsKept`, for transparency of batching only: in the node-by-node fates, each chain that can
  start has members that run and a tail that comes out as the transport's answer would have it.
  `CarryingSolvesIff` shows it to be exact; `SucceedingMembersKeep` says that members which go
  straight to the dispatch and succeed are enough. `KeptOrEnded` also lets a chain end both runs.
- `NoConditions`: no edge of the graph has a condition. `JoinSettlesAlikeIff` says exactly when the
  completion order decides a join otherwise, `StrandedIff` and `CompleteIffNothingStranded` exactly
  which nodes are left without a result.
- `Branches`: a node with a condition on an edge into it has one parent, and is in no chain. Then
  the order decides nothing but whether a cascade strands a node (`BranchingIsIndependent`,
  `OrderStrands`).

## Where the code and its documentation differ

The model follows the code.

- The success walk decrements without a guard, so a fan-in released early (`Any`, `Majority`, `N`)
  is decremented below zero (`usize` wraps in release builds) and enqueued again by every parent
  that finishes later.
- A fan-in is documented to be released as soon as its join mode is satisfied. Only the success and
  error-route walks look at the mode; a seed, a system node or a continued failure only decrements.
  `FanInReleasedIff` says exactly when a fan-in is released in any run, `ReleasedOnTimeIff` exactly
  when the documented rule is met, and `SystemNodeReleasesNothing` and
  `ContinuedFailureReleasesNothing` are runs in which it is not.
- A node with `continue_on_error` is documented not to fail the workflow. Inside a batched chain
  that flag, error edges and skip conditions of the members are not looked at: the chain fails as a
  whole, under its tail (`ToleranceIsLostInChains`).
- Edge conditions are looked at only on the edges of the parent that finishes last. The skip
  cascade decrements grandchildren but never enqueues them; its comment says they are picked up
  later.
- The skip-condition check is said to apply to all kinds of node. A sub-workflow node that is in
  the queue when another one is popped is evaluated together with it, past that check, and runs
  although its skip condition holds (`SkipConditionIsIgnored`).
- The announced retry numbers are 32-bit signed: they turn negative from the 2^31-st on.
- The retry documentation promises exponential backoff. `2u64.pow(attempts - 1)` wraps to zero
  from attempt 65 on, and the sleep with it.
- Chain detection promises all maximal linear chains. It looks at the first listed predecessor
  only, and so finds no chain that begins at a fan-in node whose first predecessor has one way out.
- A module's retry fields left open by the builder are read from the module's own config.
- Trigger wiring is documented without a failure case. At the node cap the trigger's label is
  recorded although its node is dropped, and the look-up of the missing node panics.

## Model

| member | source | states |
|---|---|---|
| Reactors.Reactor.constructor | talos-workflow-engine/src/engine.rs:4570-4615 | A fresh or seeded start is reached whatever order the seeds are visited in |
| Reactors.Reactor.CountInDegrees | talos-workflow-engine/src/engine.rs:4570-4578 | Every counter starts as the number of incoming edges, parallel ones counted |
| Reactors.Reactor.PropagateSeeds | talos-workflow-engine/src/engine.rs:4580-4596 | In any visiting order, seeded nodes end at zero and the others at their number of edges from unseeded parents |
| Reactors.SeedOne | talos-workflow-engine/src/engine.rs:4585-4596 | One more seed turns the counters for a set of seeds into the counters for the larger set |
| Reactors.Reactor.QueueRoots | talos-workflow-engine/src/engine.rs:4598-4609 | The initial queue is the unseeded zero-count nodes in index order |
| Reactors.Reactor.ApplyFanInEarlyReady | talos-workflow-engine/src/engine.rs:3985-4023 | The counter of a fan-in drops to zero exactly when its join mode is satisfied; other counters stay |
| Reactors.Reactor.UnblockSuccessors | talos-workflow-engine/src/scheduler_handlers.rs:95-111 | The loop performs the unblocking walk over all outgoing edges |
| Reactors.Reactor.VisitChild | talos-workflow-engine/src/engine_completion.rs:289-360 | One turn of the success loop: mark, decrement, release early, skip with cascade, or enqueue |
| Reactors.Reactor.EdgeConditionFailed | talos-workflow-engine/src/engine_completion.rs:309-335 | True exactly when not every condition on the edges from the finisher to the child holds of the output |
| Reactors.Reactor.Propagate | talos-workflow-engine/src/engine_completion.rs:347-354 | The guarded decrements of a skipped (or seeded) node's children, one per edge |
| Reactors.Reactor.ClearFinishedChain | talos-workflow-engine/src/engine_completion.rs:274-284 | Exactly the members of the finished node's chain get counter zero |
| Reactors.Reactor.HandleNodeSuccess | talos-workflow-engine/src/engine_completion.rs:193-361 | Size guard, sanitiser, result, chain clearing and the success walk, as one transition |
| Reactors.Reactor.RouteToErrorHandlers | talos-workflow-engine/src/engine_completion.rs:444-472 | The loop performs the error-route walk: handlers are unblocked, the others marked skipped |
| Reactors.Reactor.HandleNodeFailure | talos-workflow-engine/src/engine_completion.rs:364-548 | A failure is routed, continued or ends the run, in that order of preference |
| Reactors.Reactor.HandleCompletedFuture | talos-workflow-engine/src/engine_completion.rs:145-190 | A completion is the success or the failure transition |
| Reactors.Reactor.TakeFront | talos-workflow-engine/src/engine.rs:4619-4971 | The front of the queue is dispatched, resolved, rejected, halted on or paused at, as its chain and the handlers in front of the dispatch say |
| Reactors.Reactor.TakeSubWorkflows | talos-workflow-engine/src/engine.rs:4990-5027 | Every queued sub-workflow node is taken at once, evaluated on the same results and resolved in queue order: a run of the transition relation |
| Reactors.Reactor.AwaitNext | talos-workflow-engine/src/engine.rs:5242-5271 | Any in-flight future may finish next; its outcome goes to the completion handler under the chain's tail or the node |
| Reactors.Reactor.RunSchedulerLoop | talos-workflow-engine/src/engine.rs:4525-5273 | On every acyclic graph, whatever the join modes, conditions and seeds, the loop ends on a run of the transition relation; and a startable run without edge conditions or skip conditions on sub-workflow nodes, if it exits normally, holds what the recursive evaluation says |
| Graphs.RoutesErrorsIff | talos-workflow-engine/src/engine_completion.rs:405-417 | A failure is routed exactly when the newest edge to some successor is an error edge, whatever other ways out the node has |
| Completions.FailureIsRouted | talos-workflow-engine/src/engine_completion.rs:419-472 | A routed failure does not end the run: the node holds the redacted error, every handler that awaits nobody else is queued, every plain child is marked skipped, nothing else is |
| Completions.FailureEndsIff | talos-workflow-engine/src/engine_completion.rs:364-548 | A failure ends the run exactly when it has no error route and is not tolerated, and then changes nothing but the status |
| Completions.FailureIsTolerated | talos-workflow-engine/src/engine_completion.rs:475-511 | A tolerated failure leaves the redacted error under its own name only, and unblocks the successors |
| Completions.UnblockingWalkUnblocks | talos-workflow-engine/src/scheduler_handlers.rs:95-111 | Each counter drops by the number of edges from the node, to zero at least; exactly successors brought to zero are queued |
| Completions.PoppedMemberStartsItsChain | talos-workflow-engine/src/engine.rs:4620-4645 | A popped chain member starts its chain if it heads one, and is dropped otherwise |
| Completions.PoppedNodeGoes | talos-workflow-engine/src/engine.rs:4647-4971 | What each decision in front of the dispatch does to results, queue, jobs and status |
| Completions.FinishedChainStopsWaiting | talos-workflow-engine/src/engine_completion.rs:274-284 | After a success or a routed failure no member of the finished chain waits any more |
| Completions.SuccessRecords | talos-workflow-engine/src/engine_completion.rs:193-300 | An output within the cap is recorded sanitised, a larger one as its size; handlers are marked skipped, and nothing but skip markers of successors is recorded elsewhere |
| Completions.SuccessSettlesChild | talos-workflow-engine/src/engine_completion.rs:309-360 | In every run, a child that waits for the finisher only is queued if every condition on its edges holds of the output, and skipped and not queued if one does not |
| Completions.SuccessTakesOneWay | talos-workflow-engine/src/engine_completion.rs:289-360 | An example: with a true and a false condition and an error edge behind one node, its success queues only the child behind the true one |
| Completions.FailureTakesTheOther | talos-workflow-engine/src/engine_completion.rs:405-472 | The same workflow when the node fails: only the handler is queued |
| SchedulerInvariant.CountKeeps | talos-workflow-engine/src/engine_completion.rs:301-307 | A delivered edge finds a positive counter, and the counter reaches zero exactly with the last awaited edge |
| SchedulerInvariant.MarkKeeps | talos-workflow-engine/src/engine_completion.rs:296-299 | A dead edge only leaves a skip marker and overwrites nothing |
| SchedulerInvariant.CascadeCounts | talos-workflow-engine/src/engine_completion.rs:347-354 | The cascade takes one from a counter per edge, down to zero at most |
| SchedulerInvariant.SkipKeeps | talos-workflow-engine/src/engine_completion.rs:337-354 | A condition skip with its cascade keeps all bookkeeping exact |
| SchedulerInvariant.DueHasInputs | talos-workflow-engine/src/engine.rs:3415-3433 | A node that waits for nothing finds a result for every parent |
| SchedulerInvariant.WalkKeeps | talos-workflow-engine/src/engine_completion.rs:289-511 | Every successor walk keeps the invariant, never overwrites a result, stalls nothing, and settles no node that feeds on itself |
| SchedulerSteps.CompleteKeeps | talos-workflow-engine/src/engine_completion.rs:145-548 | Success, routed failure and continued failure keep the invariant and record the value |
| SchedulerSteps.SettleChainKeeps | talos-workflow-engine/src/engine_completion.rs:274-284 | A finished chain settles as a whole without disturbing any other node |
| SchedulerSteps.StepKeeps | talos-workflow-engine/src/engine.rs:4618-5273 | Every step, whatever the environment chooses, keeps the invariant, the in-flight set and all results |
| SchedulerRuns.GatherHolds | talos-workflow-engine/src/engine.rs:3415-3427 | A node's inputs are exactly the results of those parents that have one |
| SchedulerRuns.GatherIsComplete | talos-workflow-engine/src/engine.rs:3415-3427 | When every parent has a result there is one input per incoming edge |
| SchedulerRuns.GatherIsNewestFirst | talos-workflow-engine/src/engine.rs:3415-3427 | They are listed with the newest edge first, parallel edges one by one |
| SchedulerRuns.WalkQueuesNewestFirst | talos-workflow-engine/src/engine_completion.rs:289-360 | What a walk enqueues comes behind the queue, the child behind the newest edge first |
| SchedulerRuns.StartIsLive | talos-workflow-engine/src/engine.rs:4570-4615 | The start of a run satisfies the invariant and has every due node queued |
| SchedulerRuns.RootsAre | talos-workflow-engine/src/engine.rs:4603-4609 | The initial queue holds exactly the unseeded zero-count nodes, each once, in increasing order |
| SchedulerRuns.RunKeeps | talos-workflow-engine/src/engine.rs:4618-5273 | The invariant holds in every running state of every run, and what is stalled is exactly what its skip cascades stranded |
| SchedulerRuns.ResultsAreFinal | talos-workflow-engine/src/engine_completion.rs:293-301 | A result is never changed again: no marker becomes an output and no output a marker |
| SchedulerRuns.CountersAreExact | talos-workflow-engine/src/engine_completion.rs:289-309 | In every running state of every run, batched or not, with or without conditions, `pending[n]` is the number of undelivered edges into n, save for chain members behind a settled head; no counter ever wraps |
| SchedulerRuns.DispatchedAtMostOnce | talos-workflow-engine/src/engine.rs:4603-4609 | Over a whole run no node is dispatched twice, no seeded node at all, and each dispatch has an input from every incoming edge |
| SchedulerRuns.SkippedIsFinal | talos-workflow-engine/src/engine_completion.rs:293-301 | A node that has a result or a skip marker is never dispatched afterwards |
| SchedulerRuns.RunsAreShort | talos-workflow-engine/src/engine.rs:4618-5273 | Every run from a startable start has at most two steps per node, whatever succeeds or fails |
| SchedulerRuns.QuiescentRunsAreComplete | talos-workflow-engine/src/engine.rs:4618-5273 | In an acyclic graph without error edges or conditions, at the loop's exit exactly the chain members before a tail have no result |
| Fates.EvaluationSolves | talos-workflow-engine/src/engine_completion.rs:289-511 | The recursive evaluation satisfies the fate equation at every node |
| Fates.SolutionsAgree | talos-workflow-engine/src/engine_completion.rs:289-511 | On an acyclic graph the fate equations have one solution |
| Fates.ChainFates | talos-workflow-engine/src/engine.rs:4542-4568 | Node by node, once the head of a chain whose members succeed can run all members can, and the transport's answer is the tail's own |
| Fates.CarryingSolvesIff | talos-workflow-engine/src/engine.rs:4542-4568 | Carrying the members before the tails turns the node-by-node fates into those of the batched run if and only if every chain that can start has running members and a tail that comes out as the transport answers |
| Meaning.DueArrives | talos-workflow-engine/src/engine.rs:3415-3433 | The inputs gathered for a popped node are those of the recursive evaluation |
| Meaning.FinishDecides | talos-workflow-engine/src/engine_completion.rs:145-190 | A finished future or chain reports its reporter's own answer |
| Meaning.StepStaysOnCourse | talos-workflow-engine/src/engine.rs:4618-5273 | Every driven step leaves every settled node with its fate |
| Meaning.StoppingStepEnds | talos-workflow-engine/src/engine_completion.rs:513-548 | A run is aborted or paused only at a node whose fate ends it |
| Meaning.QuiescentRunsComputeFates | talos-workflow-engine/src/engine_completion.rs:289-511 | A run that comes to rest holds exactly the fates, for every completion and queue order, batched or not and whatever fails |
| Meaning.QuiescentRunsEvaluate | talos-workflow-engine/src/engine_completion.rs:289-511 | The same with the fates spelled out as the recursive evaluation over the graph |
| Equivalences.CompletesIffNothingEnds | talos-workflow-engine/src/engine.rs:4618-5273 | A run to the end completes exactly when no node's fate ends it |
| Equivalences.ScheduleIndependence | talos-workflow-engine/src/engine_completion.rs:289-511 | Any two runs to the end, batched or not, both complete with equal `results`, or neither completes |
| Equivalences.SucceedingMembersKeep | talos-workflow-engine/src/engine.rs:4536-4560 | Members that go straight to the dispatch and succeed before the tail are enough for that |
| Equivalences.BatchingPreservesMeaning | talos-workflow-engine/src/engine.rs:4542-4568 | If every chain is kept, or ends both runs, a batched run completes exactly when the per-node run does, with the same results for tails and other nodes and none for earlier members that ran |
| Equivalences.RunWritesNodes | talos-workflow-engine/src/engine_completion.rs:145-548 | A run writes results for nodes of the graph only |
| Resume.SnapshotsAreSeeds | talos-workflow-engine/src/engine.rs:4583-4609 | However a per-node run stops (running, aborted or paused), its results are a predecessor-closed seed |
| Resume.ResumeEquivalence | talos-workflow-engine/src/engine.rs:4583-4609 | Interrupt a run from any legal seed, batched or not, anywhere short of a pause, keep any predecessor-closed part that contains the old seed, resume node by node: completion and results are those of an uninterrupted node-by-node run from the old seed |
| Resume.ResumeAfterInterruptions | talos-workflow-engine/src/engine.rs:4583-4609 | However often a run is interrupted and resumed, the last resumption completes exactly when a run that is never interrupted does, with the same results |
| Resume.ResumeOfBatchedRun | talos-workflow-engine/src/engine.rs:4530-4609 | The same against an uninterrupted batched run whose chains are kept, which says nothing for the members before a tail |
| Resume.ResumeAfterPause | talos-workflow-engine/src/engine.rs:4725-4746 | After a pause in a run from any legal seed, with an answer in place of the waiting marker, the resumed run computes what it would have computed had the answer been there all along |
| Resume.ResumeDispatchesTheRest | talos-workflow-engine/src/engine.rs:4603-4609 | A resumed run dispatches exactly the unseeded nodes that want a dispatch, each once |
| Limits.CyclesNeverStart | talos-workflow-engine/src/engine.rs:4618-5273 | No node of a cycle is ever enqueued or dispatched from an empty seed |
| Limits.SeedingIsExactIffClosed | talos-workflow-engine/src/engine.rs:4583-4596 | Seeding leaves exact counters exactly when the seed is predecessor-closed |
| Limits.FinishedResultsAreSeedIff | talos-workflow-engine/src/engine.rs:4530-4609 | What a finished run leaves is a predecessor-closed seed exactly when nothing was batched |
| Limits.BatchedResultsAreNoSeed | talos-workflow-engine/src/engine_completion.rs:301-303 | An example: the results of a two-node batched run, resumed from, wrap the tail's counter below zero |
| Limits.EarlyFanInRunsTwice | talos-workflow-engine/src/engine.rs:3985-4023 | An example: a driven run in which an `Any` fan-in is queued a second time while its first job is in flight |
| Limits.SystemNodeReleasesNothing | talos-workflow-engine/src/scheduler_handlers.rs:95-111 | An example: an `Any` fan-in whose first finished parent is a system node is not enqueued, and has counter one |
| Limits.ContinuedFailureReleasesNothing | talos-workflow-engine/src/engine_completion.rs:495-508 | An example: nor is it when its first finished parent is a continued failure |
| Limits.ToleranceIsLostInChains | talos-workflow-engine/src/engine.rs:4620-4646 | An example: one workflow with a tolerated failure, which completes node by node and is aborted when batched |
| Conditions.LastParentDecides | talos-workflow-engine/src/engine_completion.rs:301-360 | When all a node still waits for comes from one parent, that parent's walk skips it exactly when its own condition fails, and enqueues it otherwise |
| Conditions.LastOfOrderDecides | talos-workflow-engine/src/engine_completion.rs:301-360 | In every completion order of the in-flight jobs a node awaits, the last one alone decides it |
| Conditions.OrderWithLast | talos-workflow-engine/src/engine_completion.rs:301-360 | Every awaited job comes last in some completion order |
| Conditions.JoinSettlesAlikeIff | talos-workflow-engine/src/engine_completion.rs:309-360 | Every completion order skips a join exactly when all awaited parents' conditions fail, and every order enqueues it exactly when none does |
| Conditions.StrandedIff | talos-workflow-engine/src/engine_completion.rs:337-360 | At the loop's exit a node has a zero counter and no result exactly when a skip cascade made the last delivery to it |
| Conditions.CompleteIffNothingStranded | talos-workflow-engine/src/engine_completion.rs:309-360 | On an acyclic graph without error edges, but with conditions, every node is answered for exactly when no cascade has stranded one |
| Conditions.ConditionsDependOnOrder | talos-workflow-engine/src/engine_completion.rs:309-360 | An example: two driven runs from the start to the end, one with all four results, the other with a skipped and a stranded node |
| Branching.BranchEvaluationSolves | talos-workflow-engine/src/engine_completion.rs:309-360 | On an acyclic graph the evaluation with conditions has a solution |
| Branching.NewSkipMeets | talos-workflow-engine/src/engine_completion.rs:337-346 | What a step skips is what the evaluation with conditions skips |
| Branching.StaysPrompt | talos-workflow-engine/src/engine_completion.rs:309-346 | A node to be skipped is skipped with the finish of its one parent, and is never due |
| Branching.BranchingRunsComputeFates | talos-workflow-engine/src/engine_completion.rs:289-511 | Where each conditional node has one parent, a run that comes to rest with nothing stranded holds the fates of the evaluation with conditions, in every order |
| Branching.BranchingIsIndependent | talos-workflow-engine/src/engine_completion.rs:289-511 | Any two runs to the end that strand nothing both complete with equal `results`, or neither completes |
| Branching.OrderStrands | talos-workflow-engine/src/engine_completion.rs:347-354 | An example: two driven runs of one such workflow, of which one strands a node that the other enqueues |
| Termination.StepUnloads | talos-workflow-engine/src/engine.rs:4618-5273 | Every step makes what is queued and in flight worth less, in any state and any join mode |
| Termination.RunsAreBounded | talos-workflow-engine/src/engine.rs:4618-5273 | From any state of an acyclic workflow every run is bounded by the queued and in-flight work times (edges + 2)^(nodes + 1): early fan-ins, conditions, any seed |
| SubWorkflows.DrainIsRun | talos-workflow-engine/src/engine.rs:4990-5027 | Taking all queued sub-workflow nodes at once and resolving them one by one is popping them one by one |
| SubWorkflows.BatchIgnoresSkipsIff | talos-workflow-engine/src/engine.rs:4649-4656 | In every running state, the batch does what popping its nodes one by one would do exactly when none of them is to be skipped |
| SubWorkflows.SkipConditionIsIgnored | talos-workflow-engine/src/engine.rs:4972-5027 | An example: a sub-workflow node runs although its skip condition holds |
| FanIn.ReleaseSchedule | talos-workflow-engine/src/engine.rs:3985-4023 | No push before the threshold delivery, the first push there, one more for each later delivery, in every join mode |
| FanIn.EnqueuedOnceIffWaitsForAll | talos-workflow-engine/src/engine_completion.rs:301-309 | Enqueued once over all deliveries exactly when the threshold is the number of parents |
| FanIn.NeverReleasedEarly | talos-workflow-engine/src/engine.rs:3985-4023 | With that threshold no join mode releases the fan-in before its last parent |
| FanIn.MixedReleaseSchedule | talos-workflow-engine/src/engine.rs:3985-4023 | Whatever delivers, in whatever order, until the first delivery that releases the fan-in or the last one the counter is the number of deliveries missing; after it the fan-in has been pushed |
| FanInRuns.WalkTallies | talos-workflow-engine/src/engine_completion.rs:289-309 | A walk of any kind delivers to a fan-in once per edge, or leaves it alone |
| FanInRuns.FanInReleasedIff | talos-workflow-engine/src/engine.rs:3985-4023 | In every run, batched or not, fresh or seeded, whatever the parents do: the fan-in has been enqueued exactly when all its edges have delivered, or a delivery from the threshold on came from a success or an error route; until then its counter is the number missing |
| FanInRuns.ReleasedOnTimeIff | talos-workflow-engine-core/src/system_node.rs:299-311 | With the threshold delivery the fan-in is released, as documented, exactly when that delivery does not come from a seed, a system node or a continued failure, or is the last |
| FanInRuns.FanInReleasesAtThreshold | talos-workflow-engine/src/engine.rs:3985-4023 | With parents that succeed it has been enqueued exactly when the threshold delivery has been made; with at most one delivery per edge, its counter and the number of pushes are exact |
| ChainDetect.Expand | talos-workflow-engine/src/chain_detect.rs:72-102 | The walk from a start ends on every finite graph, follows links, and cannot be extended |
| ChainDetect.FirstPredecessorIsNewest | talos-workflow-engine/src/chain_detect.rs:51-56 | The predecessor that decides about a start is the source of the newest edge into the node, and there is none exactly when no edge leads in |
| ChainDetect.DetectLinearChains | talos-workflow-engine/src/chain_detect.rs:35-110 | The chains are exactly the whole chains: link paths of length two or more from a start, maximal at both ends; they are disjoint; a link is covered exactly when walking links backwards from it reaches a start |
| ChainDetect.PathsMeetAtStarts | talos-workflow-engine/src/chain_detect.rs:63-107 | Link paths from starts that share a node share their start and the distance to it |
| ChainDetect.CoverageIsExact | talos-workflow-engine/src/chain_detect.rs:40-61 | Coverage as the code decides it, in both directions |
| ChainDetect.PlanChains | talos-workflow-engine/src/engine.rs:4530-4568 | What a run batches: nothing when seeded, else exactly the whole chains of modules; a link is batched exactly when its whole chain consists of modules |
| ChainDetect.LinkBehindJoinIsMissed | talos-workflow-engine/src/chain_detect.rs:46-60 | An example: the link behind a join whose parents have no other way out is on no detected chain |
| ChainDetect.LinkBehindJoinIsCoveredIff | talos-workflow-engine/src/chain_detect.rs:46-60 | A link behind a join is on a detected chain exactly when the source of the newest edge into the join has no way out or several |
| ChainDetect.InsertionOrderDecidesChains | talos-workflow-engine/src/chain_detect.rs:51-60 | An example: the same edges in two orders, one of which gives the chain [2, 4] and the other no chain at all |
| RateLimiting.Limiter.CheckRateLimit | talos-workflow-engine/src/engine_dispatch_pipeline.rs:485-537 | The call is refused exactly when the count exceeds the limit, counted in the process or by a shared counter, which lets the call through when it fails; only the former updates the map, where a call counts in the open window of 60 seconds or opens one; a module without an enforced limit is never refused and leaves no trace |
| RateLimiting.Limiter.EvictStaleRateLimits | talos-workflow-engine/src/engine.rs:172-178 | Above a thousand entries exactly those opened five minutes ago or earlier go |
| RateLimiting.WindowAllowsTheFirst | talos-workflow-engine/src/engine_dispatch_pipeline.rs:511-537 | Within one window exactly the first calls up to the limit are allowed |
| RateLimiting.UnderTwiceTheLimitPerMinute | talos-workflow-engine/src/engine_dispatch_pipeline.rs:511-537 | Over any monotone call sequence, of any length, in which no window sees 2^32 calls for the module, any 60 seconds see at most 2 * limit - 1 allowed calls |
| RateLimiting.FloodIsLetThroughTwice | talos-workflow-engine/src/engine_dispatch_pipeline.rs:529-533 | An example for every limit: 2^32 + limit calls in one window wrap the counter, and 2 * limit + 1 of them are allowed |
| RateLimiting.TwiceTheLimitLessOneIsReached | talos-workflow-engine/src/engine_dispatch_pipeline.rs:511-537 | That bound is attained for every limit |
| RateLimiting.EvictionIsTransparent | talos-workflow-engine/src/engine.rs:172-178 | Evicting at any points changes no decision |
| Retrying.ExecuteJobWithRetry | talos-workflow-engine-nats/src/dispatcher.rs:209-491 | The loop's requests, sleeps, events and outcome are those of the recursive description the bounds are proved about |
| Retrying.DispatchWithRetry | talos-workflow-engine-nats/src/dispatcher.rs:99-160 | The same for the delivery-only loop |
| Retrying.LoopIsOver | talos-workflow-engine-nats/src/dispatcher.rs:339-345 | On the wrapping 32-bit counter, the loop is over after exactly the replies that the recursive description requests |
| Retrying.LimitBindsIff | talos-workflow-engine-nats/src/dispatcher.rs:339-345 | When every reply is to be retried, the loop ends exactly when the limit is not the largest 32-bit number, where its counter wraps |
| Retrying.RequestsAreBounded | talos-workflow-engine-nats/src/dispatcher.rs:235-491 | At most maxRetries + 1 requests, each after the first preceded by a retryable reply, success exactly when the last reply is one |
| Retrying.AnnouncementsIncrease | talos-workflow-engine-nats/src/dispatcher.rs:413-425 | The announced indices increase exactly unless retries on both sides of the 2^31-st are announced; within 2^31 requests they are the numbers of the announced retries |
| Retrying.SleepIsBounded | talos-workflow-engine-nats/src/dispatcher.rs:383-392 | n requests sleep between base * (2^(n-1) - 1) and 5/4 of it in all |
| Retrying.JobRetryBounds | talos-workflow-engine-nats/src/dispatcher.rs:209-491 | Below the limit a request is followed by another exactly when its reply was undelivered, or a verified failure that may be retried: its condition does not evaluate to false, or without one its class is transient or the limit is zero; within 2^31 requests one `node_retrying` per retried failure with strictly increasing numbers |
| Retrying.JobEndsByItsLastReply | talos-workflow-engine-nats/src/dispatcher.rs:235-491 | Each outcome, success and every failure, exactly by the last reply and the limit |
| Retrying.JobLogIs | talos-workflow-engine-nats/src/dispatcher.rs:235-491 | The whole log: requests, each signed again when that succeeds, between two of them the announcement of a retried failure and one sleep, by the delay expression up to a minute or the jittered backoff; a failure that is not transient is announced at the end |
| Retrying.DeliveryEndsByItsLastReply | talos-workflow-engine-nats/src/dispatcher.rs:99-160 | Delivery ends with the first answer, a timeout or the limit, and only undelivered requests are repeated |
| Retrying.DeliveryLogIs | talos-workflow-engine-nats/src/dispatcher.rs:99-160 | Its log: requests, each signed again when that succeeds, and one jittered backoff between two of them |
| Retrying.JobSleepBound | talos-workflow-engine-nats/src/dispatcher.rs:366-392 | Without a delay expression the total sleep is at most 5/4 * base * (2^maxRetries - 1) |
| Retrying.BackoffCoversBaseIff | talos-workflow-engine-nats/src/dispatcher.rs:384-384 | The backoff doubles with each attempt up to the largest 64-bit number, is at least its base exactly up to attempt 64, and is zero afterwards |
| Retrying.JitterIsAQuarter | talos-workflow-engine-nats/src/dispatcher.rs:385-392 | The clock adds its nanoseconds modulo a quarter of the backoff |
| Triggers.Engine.AddNode | talos-workflow-engine/src/engine.rs:2194-2212 | A node is added exactly when there is room under the cap |
| Triggers.Engine.AddEdge | talos-workflow-engine/src/engine.rs:2218-2232 | The edge is added, as given, exactly when both endpoints are known |
| Triggers.Engine.EnsureTriggerNodeWiredToRoots | talos-workflow-engine/src/engine.rs:2254-2335 | The trigger, reused or new, gets one edge to every other root; without room the label is recorded and any root makes it panic |
| Triggers.WireAdds | talos-workflow-engine/src/engine.rs:2303-2331 | Wiring keeps every edge and adds only plain edges without a condition from the trigger to other roots, at most one to each, in index order |
| Triggers.WireReaches | talos-workflow-engine/src/engine.rs:2303-2331 | Every other root gets one |
| Triggers.WiringIsIdempotent | talos-workflow-engine/src/engine.rs:2303-2331 | Wiring again adds nothing |
| Triggers.WiringKeepsAcyclicIff | talos-workflow-engine/src/engine.rs:2254-2335 | An acyclic graph stays acyclic exactly when nothing leads into the trigger |
| Triggers.NewTriggerIsFree | talos-workflow-engine/src/engine.rs:2266-2277 | A newly added trigger leaves an acyclic graph acyclic and has nothing leading into it |
| Triggers.TriggerReachesAll | talos-workflow-engine/src/engine.rs:3210-3224 | The trigger becomes the only root, reaches every node, and is a seed the run can start from |
| Nesting.DepthIsBounded | talos-workflow-engine/src/engine.rs:777-799 | For any graph store no sub-engine runs deeper than the limit, and refusals happen exactly one level below it |
| Nesting.RefusedIffChainTooLong | talos-workflow-engine/src/engine.rs:777-799 | The guard refuses exactly when some chain of stored workflows is longer than the levels left |
| Nesting.AttemptedIff | talos-workflow-engine/src/engine.rs:777-799 | A workflow is attempted at a depth exactly when that many stored workflows lead to it; it is missing when it is not stored, entered within the limit and refused one level below it |
| Kinds.JoinRoundTrip | talos-workflow-engine/src/graph_parser.rs:152-166 | Every join mode survives its derived encoding |
| Kinds.KindRoundTrip | talos-workflow-engine/src/graph_parser.rs:104-456 | Decoding an encoded kind gives it back with its fields clamped, and nothing exactly for empty capability lists and empty verdict expressions |
| Kinds.DecodedIsClamped | talos-workflow-engine/src/graph_parser.rs:104-456 | What the decoder produces is within its own bounds |
| Kinds.DecodeEncodeIsIdentity | talos-workflow-engine/src/graph_builder.rs:458-690 | On everything the decoder can produce, encoding and decoding again is the identity |
| KindFields.DecodesWhatIsDescribed | talos-workflow-engine/src/graph_parser.rs:104-456 | For any kind string and any data, the decoder finds the one kind that the fields describe, with the literal defaults and the nearest number within the bounds, and none when they describe none |
| KindFields.EncodedComesBackBounded | talos-workflow-engine/src/graph_parser.rs:104-456 | An encoded kind comes back with every bounded field at the value nearest to its own within 2..10, 1..5, at most 100, at most 50, or between zero and one |
| GraphDocuments.Builder.AddModule | talos-workflow-engine/src/graph_builder.rs:187-202 | Declares a module node and changes nothing else |
| GraphDocuments.Builder.AddSystemNode | talos-workflow-engine/src/graph_builder.rs:212-229 | Declares a system node and changes nothing else |
| GraphDocuments.Builder.WithSkipCondition | talos-workflow-engine/src/graph_builder.rs:253-269 | Edits the first node with the id in place, or records an unknown id |
| GraphDocuments.Builder.WithContinueOnError | talos-workflow-engine/src/graph_builder.rs:280-291 | Edits the first node with the id in place, or records an unknown id |
| GraphDocuments.Builder.WithRetry | talos-workflow-engine/src/graph_builder.rs:306-331 | Edits the first node with the id in place, keeping expressions not given again, or records an unknown id |
| GraphDocuments.Builder.EdgeWithHandles | talos-workflow-engine/src/graph_builder.rs:358-373 | Declares an edge with its handles |
| GraphDocuments.Builder.EdgeCondition | talos-workflow-engine/src/graph_builder.rs:341-353 | Declares an edge with the default handles and a condition |
| GraphDocuments.Builder.Build | talos-workflow-engine/src/graph_builder.rs:395-406 | A document exactly when no error was recorded |
| GraphDocuments.Loader.ParseGraphDocument | talos-workflow-engine/src/engine.rs:1864-2126 | Nothing is loaded from a document without nodes; otherwise nodes, then edges, in document order |
| GraphDocuments.NodeRoundTrip | talos-workflow-engine/src/engine.rs:1891-2085 | A built and loaded node has its module or clamped kind, its retry policy, its configuration with the reserved keys, and its timeout |
| GraphDocuments.DeclaredRetryIsEffectiveIff | talos-workflow-engine/src/graph_parser.rs:24-88 | A declared retry policy is the loaded one exactly when each expression is declared or the config has none of that name; the counts always are |
| GraphDocuments.ConfigCanChangeDeclaredRetry | talos-workflow-engine/src/graph_parser.rs:24-88 | An example: a config whose retry condition becomes the node's |
| GraphDocuments.NodesRoundTrip | talos-workflow-engine/src/engine.rs:1891-2085 | All declared nodes are loaded, in order, under their identifiers |
| GraphDocuments.EdgesRoundTrip | talos-workflow-engine/src/engine.rs:2087-2122 | All declared edges with known endpoints are loaded, in order, with handles and conditions |
| GraphDocuments.BuildAndLoad | talos-workflow-engine/src/graph_builder.rs:395-406 | Build, then load: the same nodes with kinds, policies, configurations and timeouts, and the same edges, in the same order |
| DocumentFields.ParsesWhatIsDescribed | talos-workflow-engine/src/engine.rs:1891-2085 | For any node, the loader takes the module or system kind, retry policy and settings that its fields describe, and passes over a node that describes none |
| DocumentFields.PolicyReads | talos-workflow-engine/src/graph_parser.rs:24-88 | The retry policy by the fields of the node and of its data: own fields first, the literal defaults, the cut to 32 bits, and at most three retries without an actor |
| DocumentFields.LoadsWhatIsDescribed | talos-workflow-engine/src/engine.rs:1891-2085 | What a described node adds: its identifier, its configuration with the two reserved keys, its timeout, and itself unless the graph is full |
| DocumentFields.EdgesAreReadAsDescribed | talos-workflow-engine/src/engine.rs:2087-2122 | For any edge, the loader adds it with the handles, condition and type that its fields give or the literal defaults, and passes over one with an endpoint that is not in the graph |
| DocumentFields.ErrorEdgesStayErrorEdges | talos-workflow-engine/src/engine.rs:2114-2118 | An example: an edge of type "error" is loaded as one, an edge without a type as "default" |

## Left out

- Cyclic workflows are rejected before the loop starts; the reactor is modelled on every graph, and acyclicity is a hypothesis where a theorem needs it.
- Node identifiers are node indices, taken to be distinct; results under identifiers outside the graph are kept, as in the code.
- `gather_inputs` is modelled up to the list of parents with their results, newest edge first; unwrapping envelopes and keying by label are functions of that list.
- Skip conditions, fan-in aggregation, collect, synthesize, verify, gates, judges, loops and the rate limiter are decisions of the environment in the scheduler model; for the comparison with the recursive evaluation they are functions of the node and its inputs, so a rate limit that fires and the trigger overlay of skip conditions are outside it.
- The accumulated context and `__trigger_input__`, which accompany every dispatch, can depend on the completion order (the latter when an unseeded `__trigger__` node is not above all others); the dispatcher is taken to ignore them where runs are compared.
- The last pass over the results, which redacts them again before they are returned, is not modelled.
- Equivalences.BatchingPreservesMeaning: assumes a transport that admits and passes on each step's output as the per-node run would, since the worker side of a chain is not part of this model.
- FanInRuns.FanInReleasedIff: is about graphs without edge conditions, where a skip cascade cannot take from a fan-in's counter without ever enqueuing it (`Conditions.StrandedIff`).
- Branching.BranchingIsIndependent: whether a node is stranded can depend on the order (`OrderStrands`), so the runs compared are those that strand nothing; `Conditions.StrandedIff` says which nodes are.
- Resume.ResumeAfterPause: the answer that replaces the waiting marker is given; the store that keeps snapshots between runs is not part of this model.
- Retrying.ExecuteJobWithRetry: with the limit 2^32 - 1, where the counter wraps, one of the first 2^32 replies is assumed to end the loop; otherwise it does not end at the limit (`LimitBindsIff`). The wording of error messages is reduced to their parts.
- Retrying.DispatchWithRetry: assumes the same.
- RateLimiting.UnderTwiceTheLimitPerMinute: holds while no window sees 2^32 calls for one module, after which its counter wraps (`FloodIsLetThroughTwice`), and for counting in the process; how a shared counter counts is not part of this model.
- Nesting.RefusedIffChainTooLong: every sub-workflow a graph names is attempted, whether or not an earlier node failed.
- Triggers.Engine.AddNode: node identifiers and metadata are left out, since wiring reads neither; two nodes under one identifier are not modelled.
- Triggers.Engine.EnsureTriggerNodeWiredToRoots: the label table is reduced to the trigger's label.
- GraphDocuments.BuildAndLoad: raw nodes and raw edges of the builder are passed over, as is the text of JSON documents; hashing identifiers is taken to be injective on the ids used.
- Kinds.KindRoundTrip: scores and thresholds are finite reals.
- Sub-workflow output collapsing, ensembles, reflective retries, speculative prefetch, approval gates, events, hooks, sandboxes, signing and cancellation: single-branch behaviour, I/O or foreign code.
