# Flux: the fleet and its autoscalers

Flux routes function executions to a fleet of agents and grows or shrinks that fleet with
one autoscaler per cloud provider. This project models the parts of Flux whose correctness
depends on interleaving: autoscalers, drains, upgrades, bootstraps, fleet initialisation and
termination, health promotion, manual registration, flush, deploys and joins all work on one
agent store. It proves what holds over every run of them, and shows by concrete runs where
a stronger claim fails.

`dafny verify dfyconfig.toml` checks everything.

## How it is organised

| file | what it holds |
|---|---|
| `Models.dfy` | agents, reports, functions, and the placement arithmetic (`pkg/models`) |
| `AgentRegistry.dfy` | the agent store: a value, the effect of each operation on it, and the `Registry` class that carries them out |
| `NodeTypes.dfy` | smallest, largest and tightest instance types |
| `Scaling.dfy` | one autoscaler by itself: histories and their in-place trim, the verdict, the decisions, and the `Autoscaler` class |
| `PollGrid.dfy` | instantaneous polls on a grid of the poll interval |
| `FleetModel.dfy` | the fleet as a step system over the same decision functions |
| `FleetIdentity.dfy` | the invariant every step keeps |
| `FleetSafety.dfy` | terminated instances, instance conservation, draining |
| `FleetBounds.dfy`, `FleetFloor.dfy`, `FleetCounts.dfy` | the two fleet-size bounds; `FleetCounts` counts what they allow for from the run's own steps |
| `FleetTiming.dfy` | spacing of decisions, the window of a verdict, history length, overlap of drains |
| `FleetUpgrades.dfy` | why upgrades run out |
| `FleetLifecycle.dfy` | every goroutine told from the calls of the run: their order, and what a failed bootstrap leads to |
| `FleetRecords.dfy` | every record and instance told from the calls of the run, and who is online since when |
| `FleetSamples.dfy` | what is in a pressure history, told from the replies of the run |
| `FleetDecisions.dfy` | why an autoscaler acts: the verdict, the way it sends the loop, the cooldown, whom it picks |
| `FleetLoop.dfy` | the order of a poll loop's own steps: the sweep leaves nobody out, the loop waits for what it starts |
| `FleetSolo.dfy` | a poll of the step system that nothing interleaves with is a poll of `Autoscaler`, and conversely |
| `FleetReach.dfy` | exactly how large and how small the fleet can still get without a further decision |
| `FleetScripts.dfy` | single steps and whole polls of a fleet of workers that all report alike, for building runs |
| `FleetExamples.dfy` | runs that attain both fleet-size bounds, for every fleet and every size of the excess |
| `SplitRegistry.dfy` | the store with reads and saves as separate steps |
| `ClientCache.dfy` | the double-checked client cache |
| `Dispatch.dfy` | selection and the retry loop of an execution |
| `Deployment.dfy` | a deploy against a joining agent |
| `DeploymentReach.dfy` | exactly when an agent can still be sent an archive |
| `DeploymentTraces.dfy` | what syncs and deploys send, told from the calls of the run |
| `Provisioning.dfy` | `InitializeNodes` against its own goroutines |
| `ProvisioningTraces.dfy` | which of its nodes are registered and which are terminated, told from the calls of the run |

### The step system

`FleetModel` takes as one step each section of the source between two accesses to shared
state. Replies of agents and of the cloud are arbitrary; node ids are fresh. Several
autoscalers run at once, each with its own poll loop and any number of goroutines.

| steps | source |
|---|---|
| `PollStart`, `ProbeSkip`, `ProbeError`, `ProbeReply`, `Record` | `pkg/resource/scaler.go:137-178` |
| `Evaluate` (one verdict over one listing) | `pkg/resource/scaler.go:186-245` |
| `CheckUp`, `DecideUp` | `pkg/resource/scaler.go:262-300` |
| `CheckDown`, `DecideDown`, `Empty` | `pkg/resource/scaler.go:323-363` |
| `Mark` (the poll loop's `SetDraining`, before its goroutine starts) | `pkg/resource/scaler.go:299`, `356` |
| `ObserveIdle`, `DrainTimeout`, `Deregister`, `Terminate` | `pkg/resource/scaler.go:367-408` |
| `LaunchOk`, `LaunchFail`, `LaunchLost`, `RegisterNode`, `Reset`, `BootOk`, `BootFail` | `pkg/resource/scaler.go:411-443`, `pkg/resource/providers_manager.go:131-153` |
| `InitStart`, `KillStart` | `pkg/resource/providers_manager.go:128-131`, `161-176` |
| `Manual`, `Report`, `Heartbeat`, `Flush` | `pkg/api/handlers.go:359-360`, `629-631`, `main.go:122-124`, `pkg/registry/registry.go:88-118` |

A goroutine's `phase` is its program counter. `Tally` holds history variables only: no step
depends on them, and `FleetCounts.TallyRun` proves that they count exactly what the steps of
the run did. `LaunchLost` is a `SpawnNode` that fails after the instance exists
(`pkg/resource/aws.go:137-139`, `pkg/resource/gcp.go:140-142`).

Assumptions: each registry operation is one atomic step (the source reads and then saves;
`SplitRegistry` drops the assumption); the clock is an integer number of seconds and never
goes back; the store never fails; a drain's context is never cancelled, because autoscalers
are started on the background context (`pkg/resource/providers_manager.go:97`).

### What the code does not guarantee

- The fleet can exceed `max_nodes`. Between an upgrade's deregistration and its spawn there
  is a gap in which the count is below the limit, and a direct spawn can use it; the upgrade
  loop also accepts a node that is already draining (`pkg/resource/scaler.go:283-288`).
  `FleetCounts.FleetStaysUnderLimit` bounds the excess by the overlaps in the run,
  `FleetReach.LoadIsReachableIff` says from which states the fleet can still get over a size,
  and `FleetExamples.LimitIsExceeded` builds, for every fleet of at least two at its limit and
  every k whose k cooldowns fit into the five minutes of a drain, a run with exactly k overlaps
  that ends k agents over the limit: the bound is tight for each of them.
- The fleet can fall below `min_nodes`, which `README.md:193` says it never does: the count
  includes nodes that are draining or not yet bootstrapped (`pkg/resource/scaler.go:331`).
  `FleetCounts.FleetStaysOverMinimum` bounds the deficit, `FleetReach.RemainingIsReachableIff`
  says from which states the drains in flight can still take the fleet under a size, and
  `FleetExamples.MinimumIsUndercut` builds, for every fleet one above its minimum and every
  such k, a run with exactly k crossed drains that ends k agents under it. With a poll interval
  and window of 150 s and the default cooldown of 300 s, k is 1.
  `FleetTiming.ScaleDownsDoNotOverlap` excludes crossed scale-downs when the cooldown is longer
  than every drain.
  In both kinds of run every poll starts on the tick of its interval, none is missed, no drain
  lasts longer than 300 s, and no drain looks at its node before its first five-second tick.
- `README.md:36` and `202` say that agents coming online are synced. An autoscaler poll also
  promotes offline agents (`pkg/resource/scaler.go:155`) and does not sync them; the health
  poller then no longer sees them offline. `DeploymentReach.ScalerPromotedMissesArchive` is a
  run that leaves such an agent online without the stored archive for good, and
  `DeploymentReach.CanStillGetIff` says exactly when an agent can still be sent an archive:
  while the health poller still sees it offline, or a sync or deploy under way owes it that
  archive. `Deployment.NoMissedDeployment` says that a join through the health poller or by
  hand misses nothing.
- `README.md:191` speaks of every managed agent; a verdict judges the online ones
  (`pkg/resource/scaler.go:190-196`). `Scaling.OnlineVerdictIsManagedVerdictIff` says exactly
  when that makes no difference; `PollGrid.OfflineAgentIsNotJudged` is a run of two polls after
  which it does.
- `README.md:199` speaks of a minimum per provider; the loop compares each provider's minimum
  with all registered agents (`pkg/resource/providers_manager.go:115-116`).
  `Provisioning.ProviderMinimumIff` says exactly which entries reach their minimum with nodes
  of their own in every run, `Provisioning.SecondProviderCanGetNone` shows one that does not,
  and `Provisioning.MinimumIsReached` says what the whole fleet reaches.
- A sync that has read an archive can send it after a newer deploy has reached the agent,
  which is then left with the older code (`pkg/api/handlers.go:733-738` against `509-512`):
  `Deployment.StaleArchiveCanWin`. `Deployment.StaysCurrentIff` says exactly when an agent
  that has the stored archive keeps it.
- When polls start exactly `poll_interval_sec` apart and take no time, nothing is ever
  decided unless that interval divides `evaluation_window_sec`: `PollGrid.GridDecidesIff`.
- A report that claims more used than total memory wraps around
  (`pkg/models/models.go:81`, `102`). `Models.CanFitIsHasRoomIff` says exactly when the
  placement check still decides as intended, and `Models.OverfullOutranksHonestIff` when such
  a node outranks every sound one.
- If entries of the largest size carry different names, an upgraded node can keep counting as
  upgradable, and only then: `NodeTypes.UpgradeReachesLargestTypeIff`, with
  `NodeTypes.EqualSizesCanMissLargestType` for a list on which it fails.
- With reads and saves apart, a deregistered agent can return and a draining one can go back
  online (`SplitRegistry.DeregisteredCanReturn`, `SplitRegistry.DrainingCanBeLost`), exactly
  when an update that has read the record has yet to save such a copy
  (`SplitRegistry.StaysGoneIff`, `SplitRegistry.StaysDrainingIff`).

## Model

| member | source | states |
|---|---|---|
| FleetCounts.FleetStaysUnderLimit | pkg/resource/scaler.go:262-306 | in every run, registered agents of a provider + upgrades without their replacement + a direct spawn under way never exceed max(MaxNodes, starting size) by more than the overlaps and initialisation placements counted in the run |
| FleetCounts.FleetStaysOverMinimum | pkg/resource/scaler.go:308-364 | in every run, with MinNodes < MaxNodes, registered agents less drains in flight stay at min(MinNodes, starting size) but for drains decided across another, failed bootstraps and agents operators took away |
| FleetCounts.UpgradesRunOut | pkg/resource/scaler.go:278-304 | if the entries of the largest size share one name, effective upgrades + lesser nodes left never exceed the lesser nodes at the start + smallest-type nodes registered since |
| FleetCounts.UpgradeMeasure | pkg/resource/scaler.go:283-304 | in any step of any run an effective upgrade lowers the number of lesser nodes by one, and only registering a smallest-type node can raise it, by one |
| FleetCounts.TallyRun | pkg/resource/scaler.go:262-364 | the history variables of every reachable state count exactly the events of the run |
| FleetReach.LoadIsReachableIff | pkg/resource/scaler.go:299-305 | from any reachable state and for any node types, some continuation without a decision, an operator or an initialisation takes a provider's registered agents over a size if and only if the upgrades and direct spawns that can still bring a node, together with the agents none of these upgrades claims, exceed it |
| FleetReach.LaunchableIff | pkg/resource/instance_catalog.go:19-52 | a direct spawn can launch something if and only if there are node types and the smallest size is positive; an upgrade likewise with the largest size |
| FleetReach.RemainingIsReachableIff | pkg/resource/scaler.go:367-401 | from any reachable state, the drains in flight can take a provider's fleet under a size if and only if the agents no drain works on are fewer than that |
| FleetExamples.LimitIsExceeded | pkg/resource/scaler.go:278-304 | for every configuration with thresholds apart, a window of one poll interval (at least 5 s) and a cooldown of two, every fleet of two or more lesser workers at its limit and every k with k cooldowns within 300 s: a run with every poll on its tick and no drain past its timeout, exactly k overlaps, and limit + k agents at the stated second |
| FleetExamples.MinimumIsUndercut | pkg/resource/scaler.go:329-405 | likewise for every fleet one above its minimum: exactly k crossed drains, all drains over, and minimum - k agents at the stated second |
| FleetBounds.UpperFleetBound | pkg/resource/scaler.go:272-304 | the upper bound over the state's own history variables |
| FleetBounds.UpperStep | pkg/resource/scaler.go:262-443 | no step of any actor raises slots + unclaimed nodes beyond the limit, overlaps and placements |
| FleetFloor.LowerFleetBound | pkg/resource/scaler.go:331-359 | the lower bound over the state's own history variables |
| FleetFloor.LowerStep | pkg/resource/scaler.go:308-443 | every step of any actor keeps the fleet less its drains above the floor, but for what the tally counts |
| FleetSafety.DeregisterBeforeTerminate | pkg/resource/scaler.go:401-403 | whatever races on a node, no stored record names a (provider, instance) that TerminateNode has been called on |
| FleetSafety.OneRecordPerInstance | pkg/resource/scaler.go:421 | no two stored records name one instance of a provider |
| FleetSafety.ExactlyOnePlace | pkg/resource/scaler.go:401-435 | every launched instance is in exactly one of: held by a spawner, registered, deregistered and about to be terminated, terminated, lost |
| FleetSafety.LostOnlyBy | pkg/resource/providers_manager.go:133-152 | an instance becomes lost only by a TerminateNode error, a SpawnNode error after the launch, a flush over its record, or a manual registration that blanks it |
| FleetSafety.DrainingIsFinal | pkg/resource/scaler.go:299-305 | once SetDraining takes effect the agent is draining or absent for ever, unless someone registers its id by hand |
| FleetSafety.DrainingIsNotPicked | pkg/resource/scaler.go:337-346 | at every later point of the run no listing offers that agent as available, no verdict judges it, and no scale-down decision picks it |
| FleetSafety.DrainsArePatient | pkg/resource/scaler.go:367-401 | in every run, a drain's deregistration follows its own SetDraining step, and between the two it polled the node without an active task or 300 s went by |
| FleetIdentity.StepKeepsInv | pkg/resource/scaler.go:137-443 | every step of every actor keeps the fleet invariant: record identity, sole ownership of unregistered nodes, no terminated instance registered |
| FleetIdentity.RunKeepsInv | pkg/resource/scaler.go:137-443 | the invariant holds in every reachable state |
| FleetTiming.CooldownSpacing | pkg/resource/scaler.go:263-275 | k scale-up decisions of one autoscaler span at least k - 1 cooldowns, and so do k scale-down decisions |
| FleetTiming.VerdictWindow | pkg/resource/scaler.go:201-216 | behind a verdict other than neutral, each judged agent's oldest sample is at most evalNow - window, and at least pollNow - window if this poll sampled it |
| FleetTiming.QuietAfterReset | pkg/resource/scaler.go:361-363 | after a scale-down, or the poll loop's own successful spawn, the next verdict other than neutral comes at least a window later |
| FleetTiming.HistoryLength | pkg/resource/scaler.go:164-176 | every reachable history is in time order, not empty, and holds at most window / gap + 1 samples when poll starts are at least gap apart |
| FleetTiming.ScaleDownsDoNotOverlap | pkg/resource/scaler.go:323-359 | if every scale-down drain ends within a bound shorter than the cooldown, two are never in flight together |
| FleetUpgrades.UpgradesTerminate | pkg/resource/scaler.go:278-304 | the upgrade measure over the state's own history variables, for any node types whose largest entries share one name |
| FleetUpgrades.UpgradeStep | pkg/resource/scaler.go:283-304 | every step keeps: upgrades in flight claim lesser nodes and bring the largest type, and lesser nodes + effective upgrades - smallest-type registrations do not grow |
| FleetDecisions.DecisionsAreWarranted | pkg/resource/scaler.go:308-321 | in every run each scale-up (scale-down) decision follows an evaluation, with none since, at which the provider had online agents, each with samples reaching back a whole window, and every one of their samples was at an upper threshold or above (at or below both lower thresholds, and not all high) |
| FleetDecisions.EvaluationLeadsOn | pkg/resource/scaler.go:308-321 | conversely after each evaluation the cooldown check of a direction is next exactly when the samples warrant that direction, and the loop rests exactly when they warrant neither |
| FleetDecisions.VerdictMeans | pkg/resource/scaler.go:186-245 | the verdict is up exactly when all judged agents were high throughout, down exactly when all were low throughout and not high, sample by sample |
| FleetDecisions.CooldownIff | pkg/resource/scaler.go:262-268 | in every run the check lets a decision through if and only if a cooldown has passed since everything the autoscaler started in that direction |
| FleetDecisions.UpPicks | pkg/resource/scaler.go:270-293 | in every run a scale-up spawns exactly when the provider's registered agents are fewer than the limit, and otherwise upgrades the first agent of the listing that is the provider's, idle and not named like the largest entry, if there is one |
| FleetDecisions.DownPicks | pkg/resource/scaler.go:329-351 | in every run a scale-down does nothing exactly at or under the minimum, and otherwise removes the first of the idle, not draining agents of the provider with the least CPU and memory load together, if there is one |
| FleetSamples.RecordingsAreReplies | pkg/resource/scaler.go:146-168 | every recording is of the reply that an agent of the provider has just given: its CPU and its memory percentage, at the time the poll began |
| FleetSamples.InHistoryIff | pkg/resource/scaler.go:164-176 | in every reachable state a sample is in an agent's history if and only if it was recorded for it, nothing has emptied the histories since, and no later recording of the agent found it older than the window |
| FleetLoop.SweepsAreComplete | pkg/resource/scaler.go:141-178 | before an evaluation the loop has been at every agent it listed when the poll began: skipped if listed draining, asked otherwise, and recorded if it is the provider's and replied |
| FleetLoop.LoopWaits | pkg/resource/scaler.go:272-305 | after a decision the loop takes no step before its own spawn has failed or ended, or the node to be drained has been set draining |
| FleetLoop.NextStepIs | pkg/resource/scaler.go:353-363 | the loop's next step after a scale-down empties the histories; after an upgrade or a spawn it is the next poll |
| FleetSolo.SoloPollIff | pkg/resource/scaler.go:137-364 | what a poll of the step system leaves in the store, the histories and the decision times, when nothing interleaves with it, is exactly what `Autoscaler.Poll` may leave for some replies, and it starts exactly the goroutine that its action names |
| FleetLifecycle.GoroutinesFollowTheirCalls | pkg/resource/scaler.go:367-443 | in every reachable state the goroutines running, what each is for, its node and where it stands are what the run's starts and the calls made so far say |
| FleetLifecycle.CallsInOrder | pkg/resource/scaler.go:367-443 | a goroutine makes a call only as the one that follows its last call: drains deregister after an idle observation or a timeout, terminate after deregistering, upgrades launch after terminating, register after launching |
| FleetLifecycle.CallsAreFree | pkg/resource/scaler.go:367-443 | conversely every such call can be made as soon as its own wait is over, whatever the reply |
| FleetLifecycle.BootFailureIsCleanedUp | pkg/resource/scaler.go:426-436 | in every run a bootstrap goroutine whose bootstrap failed and that has ended deregistered its node and then called TerminateNode on it |
| FleetLifecycle.BootDeregistersOnlyAfterFailure | pkg/resource/scaler.go:426-438 | a bootstrap goroutine deregisters only after its own bootstrap failed, and ends with a success |
| FleetLifecycle.InitFollowsItsBootstrap | pkg/resource/providers_manager.go:131-153 | a goroutine of InitializeNodes registers its node only after its bootstrap succeeded and terminates it only after it failed |
| FleetRecords.RecordsFollowTheirCalls | pkg/registry/registry.go:19-118 | each step of a run leaves every record, field by field, as the calls made in it say, and touches no other |
| FleetRecords.RegisteredWaitsToBeHeard | pkg/registry/registry.go:34-47 | a node that a spawner registers is in no listing of online agents until a probe of it is answered, a report or heartbeat of it arrives, or someone registers it by hand |
| FleetRecords.OnlineSince | pkg/registry/registry.go:88-118 | an online agent was so at the start, or was heard of or enrolled at some step, since which nothing marked, removed or registered it and no probe of it failed |
| FleetRecords.InstancesFollowTheCalls | pkg/resource/scaler.go:401-435 | the instances there are, those TerminateNode was called on and those it ended are exactly those some call of the run launched, named or ended |
| Scaling.TrimInPlace | pkg/resource/scaler.go:170-176 | compacting into the front of the array being read leaves the order-preserving filter there and the rest untouched |
| Scaling.KeptIsSuffix | pkg/resource/scaler.go:170-176 | on a history in time order the trim drops exactly a prefix |
| Scaling.TrimmedLength | pkg/resource/scaler.go:164-176 | after a sample the trimmed history ends with it and holds at most window / gap + 1 samples |
| Scaling.HighExcludesLowIff | pkg/resource/scaler.go:183-185 | all-high and all-low exclude each other on every history exactly when both lower thresholds are below their upper ones |
| Scaling.OnlineVerdictIsManagedVerdictIff | pkg/resource/scaler.go:190-216 | the verdict over the online managed agents equals the one over all managed agents exactly when those that are away span the window and agree with it, or, with none online, do not form a verdict |
| Scaling.ChoicesAreUnique | pkg/resource/scaler.go:282-346 | a listing determines the node to upgrade and the node to remove |
| Scaling.Autoscaler.ShouldScale | pkg/resource/scaler.go:186-245 | the nested flag loops with early exits compute the quantified verdict: up iff there are online managed agents, all span the window and every sample is high; down iff so with low, and not up |
| Scaling.Autoscaler.TryScaleUp | pkg/resource/scaler.go:262-306 | cooling, spawn below the limit, or the first upgradable node of some listing, set draining; the decision time is recorded only with a decision |
| Scaling.Autoscaler.TryScaleDown | pkg/resource/scaler.go:322-363 | cooling, at the minimum, none idle, or the first least-pressured removable node, set draining with all histories emptied |
| Scaling.Autoscaler.ManagedAgents | pkg/resource/scaler.go:249-258 | the records the provider owns, in listing order |
| Scaling.Autoscaler.Record | pkg/resource/scaler.go:164-176 | one sample appended and the history trimmed, other histories untouched |
| Scaling.Autoscaler.Sweep | pkg/resource/scaler.go:141-178 | the loop over a listing leaves the store and the histories as the record-by-record functions say |
| Scaling.Autoscaler.CheckAndTriggerScale | pkg/resource/scaler.go:308-364 | the action follows the verdict, and store, histories and decision times change only as that action says |
| Scaling.Autoscaler.Poll | pkg/resource/scaler.go:137-181 | a whole poll without interference: verdict and action over the swept store and histories |
| PollGrid.GridDecidesIff | pkg/resource/scaler.go:201-216 | with instantaneous polls on a grid, some run decides something if and only if the poll interval divides the evaluation window |
| PollGrid.VerdictNeedsDivisor | pkg/resource/scaler.go:170-176 | on every such run a verdict other than neutral implies that divisibility |
| PollGrid.SweptStoreAt | pkg/resource/scaler.go:141-155 | an uninterrupted sweep changes each listed record once, by its own reply, and no other |
| PollGrid.OfflineAgentIsNotJudged | pkg/resource/scaler.go:190-196 | for all thresholds that are apart and every positive window, two polls of one store a window apart leave a managed agent offline with only low samples across the window, and the verdict is up |
| NodeTypes.SmallestNodeResources | pkg/resource/scaler.go:25-36 | resources of an entry that no entry is smaller than; 1 vCPU and 1 GB without entries |
| NodeTypes.LargestNodeResources | pkg/resource/scaler.go:39-50 | resources of an entry that no entry is larger than; 1 vCPU and 1 GB without entries |
| NodeTypes.LargestInstanceType | pkg/resource/scaler.go:53-61 | the name of the first entry with the largest resources, empty without entries |
| NodeTypes.SelectInstanceType | pkg/resource/instance_catalog.go:19-53 | the error cases in order, else a fitting entry that no fitting entry is tighter than |
| NodeTypes.SizesAreByCpuThenMemory | pkg/resource/scaler.go:25-50 | smallest means no entry with fewer vCPUs and none of as many with less memory; largest the other way round |
| NodeTypes.SelectionIsNotWasteful | pkg/resource/instance_catalog.go:34-53 | a selected type offers what was asked for, no entry that does is nearer, and none is smaller in one of vCPUs and memory without being larger in the other |
| NodeTypes.NothingSelectedIff | pkg/resource/instance_catalog.go:20-45 | each error is returned exactly in its case: a request that is not positive, no entries, no entry that offers as much |
| NodeTypes.ExactRequestSelectsExact | pkg/resource/instance_catalog.go:34-52 | asking for a configured positive size selects an entry of exactly that size |
| NodeTypes.ExactEntryIsSelected | pkg/resource/instance_catalog.go:34-52 | conversely any entry of that size may be the one selected |
| NodeTypes.UpgradeReachesLargestTypeIff | pkg/resource/scaler.go:278-304 | for all node types, every possible spawn of the largest resources launches the very type the upgrade test compares with if and only if the entries of the largest size, when positive, share that name |
| NodeTypes.EqualSizesCanMissLargestType | pkg/resource/scaler.go:52-61 | a list of two equal largest entries on which the other one can be launched |
| AgentRegistry.Registry.RegisterAgent | pkg/registry/registry.go:19-32 | status online, no report, no active tasks, heartbeat now, identity from the arguments, whatever the id held before; every other record unchanged |
| AgentRegistry.Registry.RegisterOfflineAgent | pkg/registry/registry.go:34-47 | status offline, no report, no active tasks, heartbeat now, identity from the arguments, whatever the id held before; every other record unchanged |
| AgentRegistry.Registry.DeregisterAgent | pkg/registry/registry.go:49-53 | the record is gone and no other changes |
| AgentRegistry.Registry.SetOffline | pkg/registry/registry.go:61-74 | offline unless absent or draining |
| AgentRegistry.Registry.SetDraining | pkg/registry/registry.go:76-86 | draining unless absent |
| AgentRegistry.Registry.UpdateHeartbeat | pkg/registry/registry.go:88-101 | count and time stored; only an offline agent changes status, to online |
| AgentRegistry.Registry.UpdateNodeStatus | pkg/registry/registry.go:103-118 | report stored; only an offline agent changes status, to online |
| AgentRegistry.Registry.GetAllAgents | pkg/registry/registry.go:128-135 | every record exactly once |
| AgentRegistry.Registry.GetOnlineAgents | pkg/registry/registry.go:137-165 | exactly the records with status online, in listing order |
| AgentRegistry.UpdatesKeepFleet | pkg/registry/registry.go:61-118 | no status update adds, removes or re-identifies an agent, and none revives a draining one |
| SplitRegistry.IdentitySurvives | pkg/registry/registry.go:61-118 | with reads and saves interleaved at will, every stored record and every copy in flight carries its own id and an identity some registration of that id gave |
| SplitRegistry.UninterruptedIsAtomic | pkg/registry/registry.go:61-118 | a read and save that nothing comes between are the one atomic update the other models use |
| SplitRegistry.StaysGoneIff | pkg/registry/registry.go:49-118 | in any reachable state an absent agent stays away, whatever follows but its registration, if and only if no update that read its record has yet to save a copy |
| SplitRegistry.StaysDrainingIff | pkg/registry/registry.go:76-118 | in any reachable state a draining or absent agent stays so, whatever follows but its registration, if and only if no update in flight is to save a copy that is not draining |
| SplitRegistry.DeregisteredCanReturn | pkg/registry/registry.go:103-118 | such an update arises: a status update straddling a deregistration brings the agent back online |
| SplitRegistry.DrainingCanBeLost | pkg/registry/registry.go:76-118 | such an update arises: a status update straddling SetDraining puts the agent back online |
| ClientCache.AgentClient.Get | pkg/client/agent.go:41-80 | one call alone: the cached client or the one built, cached exactly when the call succeeds, no other entry touched |
| ClientCache.CallsAgree | pkg/client/agent.go:41-80 | in every interleaving all successful calls for an address return one client |
| ClientCache.ResultIs | pkg/client/agent.go:41-80 | in every interleaving a call returns an error if and only if its own build failed; one that built a client returns that client, any other one it found cached for its address |
| ClientCache.LooksFirst | pkg/client/agent.go:41-54 | a call takes the write lock only after it found nothing under the read lock, and builds only after it found nothing under the write lock |
| ClientCache.SomeoneMoves | pkg/client/agent.go:41-50 | while a call has not returned, some call that has not can move |
| ClientCache.AloneIsGetIff | pkg/client/agent.go:41-80 | a call of the step system that nothing interleaves with can end exactly as `AgentClient.Get` does |
| ClientCache.BuiltOncePerAddress | pkg/client/agent.go:49-79 | at most one client is ever built per address, and each is cached or about to be stored by the lock holder |
| ClientCache.EntriesAreNeverReplaced | pkg/client/agent.go:52-78 | a cache entry stays as it is for ever |
| ClientCache.WritesAreExclusive | pkg/client/agent.go:42-50 | while the map is written no other call reads or writes it |
| Dispatch.SelectAgent | pkg/api/handlers.go:556-564 | the first suitable agent of maximal score, none iff none suits |
| Dispatch.BestOfOnline | pkg/registry/registry.go:137-149 | the best of the available list is the best online agent of the whole listing |
| Dispatch.BestIsUnique | pkg/api/handlers.go:556-564 | a listing determines the choice |
| Dispatch.HandleAsyncExecute | pkg/api/handlers.go:753-794 | one attempt: refused without a suitable agent, failed on a communication error, else accepted and the execution routed to the agent it was sent to |
| Dispatch.HandlersAgree | pkg/api/handlers.go:766-774 | on the same snapshot the two handlers dispatch to the same agent or neither does, and an accepted execution is routed to the agent the other would have used |
| Dispatch.HandleExecute | pkg/api/handlers.go:539-627 | at most one response; which rounds were used, what each dispatched, and why each but the last paused |
| Dispatch.DispatchesGoToLeastLoaded | pkg/api/handlers.go:556-564 | no online agent of the round's snapshot that can take the function beats the one sent to on reported CPU load or free share without losing on the other, one without a report ranks with fifty points, and no earlier agent equals the one sent to |
| Dispatch.AsyncGoesToLeastLoaded | pkg/api/handlers.go:766-794 | the same for the asynchronous handler, which routes the execution to that agent once it took the call |
| Dispatch.RoundsMean | pkg/api/handlers.go:552-626 | among sound reports a round goes on without anyone able to take the function only under pressure behaviour wait, after a reply with "at capacity" in its error only under concurrency behaviour wait, and each answer has its own cause in the last round |
| Dispatch.AsyncMeans | pkg/api/handlers.go:753-794 | among sound reports the request is refused exactly when nobody can take the function, accepted exactly when the call returned, and no other execution is routed anew |
| Dispatch.ExecuteIsCareful | pkg/api/handlers.go:552-626 | every dispatch before the last was refused for capacity, all carry one execution id, retries need a behaviour other than exit, and with both exit the first round answers |
| Models.CanFitAntitone | pkg/models/models.go:76-91 | an agent that fits a function fits any smaller one |
| Models.CanFitIsHasRoomIff | pkg/models/models.go:80-90 | exactly the reports and requests on which the wrapping subtraction decides as an ordinary one would |
| Models.ScoreRange | pkg/models/models.go:95-105 | scores of honest reports lie in [0, 200] |
| Models.ScoreOrderIff | pkg/models/models.go:99-104 | of two reports within their memory one scores at least as much exactly when its larger free share, in percent, makes up for its larger CPU load; less load on one count and no more on the other scores strictly more |
| Models.UnreportedRanksIff | pkg/models/models.go:95-98 | an agent without a report fits anything and ranks with one whose free share, in percent, is fifty points under its CPU load |
| Models.OverfullOutranksHonestIff | pkg/models/models.go:95-105 | a report of more used than total memory outranks every honest one if and only if the wrapped free memory, in percent of the total, exceeds 100 plus the CPU load |
| Deployment.NoMissedDeployment | pkg/api/handlers.go:498-522 | in every interleaving of a deploy with a join, an agent that stays online from its announcement has been sent that archive or a later one once both finish, unless a call to it failed |
| DeploymentTraces.DeliveredIff | pkg/api/handlers.go:509-741 | an agent has been sent a version of a function if and only if some call of a sync or deploy that succeeded sent it |
| DeploymentTraces.SyncSendsWhatItRead | pkg/api/handlers.go:727-738 | a sync sends an agent only the archive it read after registering the function there |
| DeploymentTraces.SyncLeavesNothingOut | pkg/api/handlers.go:716-741 | a sync that is over is through with every function it listed: one failed call or missing archive does not keep it from the others |
| DeploymentTraces.MissedIff | pkg/api/handlers.go:727-741 | a sync counts as missed exactly the functions that a call of it failed for |
| DeploymentTraces.DeploySendsWhatItSaved | pkg/api/handlers.go:498-522 | a deploy sends the archive it saved, to agents that were online when it listed them |
| DeploymentTraces.FollowsRegistry | pkg/registry/registry.go:19-118 | each step on the agents of this model is the registry operation the source calls there |
| Deployment.StepKeepsReach | pkg/api/handlers.go:716-741 | a sync that has yet to read an archive goes on to deliver it or a later one, whatever else happens |
| DeploymentReach.CanStillGetIff | pkg/api/handlers.go:498-741 | in every state and for every set of archives saved so far, some continuation in which the agent does not rejoin sends it one of them if and only if the health poller still sees it offline, a sync of it has yet to read the function or send what it read, or a deploy has yet to list the agents or reach this one |
| DeploymentReach.ScalerPromotionSkipsSync | pkg/resource/scaler.go:155 | an agent that an autoscaler promoted, with no join of it under way, is sent in no continuation an archive whose deploy had listed the agents without it, until it goes offline or is registered again |
| DeploymentReach.ScalerPromotedMissesArchive | pkg/resource/scaler.go:155 | a run from an empty store that ends with the agent online, the archive stored and never sent to it, and no continuation that sends it |
| Deployment.StaysCurrentIff | pkg/api/handlers.go:498-522 | in any reachable state in which an agent was last sent the stored archive of a function, it stays so, short of a new deploy or a flush, if and only if no sync holds another version for it and no deploy of another version has yet to list or reach it |
| Deployment.StaleArchiveCanWin | pkg/api/handlers.go:733-738 | a run in which a sync and a deploy both end without a failure and the agent is left with the older archive |
| Provisioning.ReportIsExact | pkg/resource/providers_manager.go:107-159 | whatever else runs, succeeded equals the nodes this call registered, is at most attempted, and every other node it spawned was handed to TerminateNode |
| ProvisioningTraces.NodesFollowTheirBootstrap | pkg/resource/providers_manager.go:133-152 | in every reachable state a node has been registered by the call if and only if a goroutine spawned it, saw its bootstrap succeed and registered it, and handed to TerminateNode if and only if one spawned it, saw its bootstrap fail and did so |
| ProvisioningTraces.FailedBootIsNotRegistered | pkg/resource/providers_manager.go:141-150 | a goroutine whose bootstrap failed never registers its node |
| Provisioning.MinimumIsReached | pkg/resource/providers_manager.go:114-159 | alone, attempted is at most the sum of the shortfalls, the fleet grows by exactly succeeded, and if all succeed it reaches the largest minimum among entries with node types |
| Provisioning.ProviderMinimumIff | pkg/resource/providers_manager.go:114-158 | for all entries and starting fleets, an entry ends with its minimum in nodes of its own in every lone run without a failure if and only if its own nodes and what it would lack with all earlier shortfalls filled add up to it |
| Provisioning.OwnNodesGained | pkg/resource/providers_manager.go:115-128 | in every such run a provider gains exactly what its entry lacked when it was counted, and that count lies between the starting fleet and all earlier shortfalls filled |
| Provisioning.SecondProviderCanGetNone | pkg/resource/providers_manager.go:115-119 | with two providers that ask for one node each, a run without a failure leaves the second with none |
| Provisioning.SingleProviderIsExact | pkg/resource/providers_manager.go:114-158 | with one such entry the fleet ends at exactly the larger of its size before and the minimum |

## Left out

- SSH bootstrap, AWS and GCP calls, waiting for IPs: arbitrary success or failure with fresh ids.
- PKI, TLS credentials and keys: building a client either succeeds or fails.
- gRPC wrappers: each call is an arbitrary reply or error.
- HTTP routing, authentication, JSON and YAML parsing, response formats, logging, the read-only endpoints.
- Redis: the store is a map whose operations succeed; a listing is one atomic read; expiry of execution records is not modelled.
- Configuration parsing: thresholds, limits and node types are parameters, and what a lemma needs of them is a hypothesis of it.
- Floating point: reals, no rounding or NaN; squared distances in place of square roots, which order the same.
- Wall-clock jitter and cancelled contexts; the four-minute limit of TerminateNodes is one more reason for its calls to fail.
- A second registration at another address is refused by `handleRegisterAgent`; the step system lets any id be registered by hand at any time, which includes every registration the source allows.
- The number TerminateNodes reports; its effect on the fleet is in the step system.
- FleetCounts.FleetStaysUnderLimit: one direction over whole runs, because an overlap need not end over the limit when spawns fail; what can still follow from a state is exact in `FleetReach`.
- FleetCounts.FleetStaysOverMinimum: likewise one direction over whole runs.
- FleetExamples.LimitIsExceeded: k overlaps within one drain's five minutes; more of them need launches that outlast several cooldowns, and no such run is built.
- FleetExamples.MinimumIsUndercut: k crossed drains within one drain's five minutes, since the drains that undercut a minimum are in flight together.
- Dispatch.HandleExecute: the world offers a finite list of rounds and the loop is cut off after the last, since the source may retry for ever.
- Scaling.Autoscaler.TryScaleUp: returns its decision; the spawn and the drain it starts are steps of `FleetModel`, and `FleetSolo.SoloPollIff` connects the two.
- Scaling.Autoscaler.TryScaleDown: returns its decision; the drain it starts is steps of `FleetModel`.
- FleetModel: histories are sequences in the step system; the array they share between polls is modelled only inside one trim, by `Scaling.TrimInPlace`.
