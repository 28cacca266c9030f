# A verified model of the mesh controllers and the registry adapter

This Dafny project models the parts of the repository in which a wrong step would be hard to notice:

- the ZooKeeper path cache and the configuration client that feeds on it (`PathCache`, `ChildrenMirror`,
  `ConfigCache`, `ConfigRemovals`, `ConfigNames`): one-shot watches, events, worker-pool tasks and notifications as a state machine over
  every interleaving, and the handlers as methods that take exactly the modelled steps;
- the debouncer (`Debounce`): a timed state machine, and its loop as a class;
- the route compiler of both controllers (`Subsets`, `Durations`, `Texts`, `Routes`, `VirtualServices`,
  `RouteContents`): which subsets are live, what weights and budgets they get, and what the finished
  VirtualService means under first-match evaluation;
- the reconcilers over an object store (`ApiServer`, `WorkloadLabels`, `WorkloadEntries`, `TwoWriters`,
  `SingleObjects`, `Status`, `Controllers`, `EntryContents`, `EndToEnd`): what each run leaves behind, that runs settle, that the two writers
  of WorkloadEntry objects do not fight, and what the reported status says;
- the cluster manager (`Clusters`, `ClusterCheck`, `ClusterManager`): the periodic diff over two aliased
  maps, with creations that may fail, and the sorted cluster list;
- the accessor relation (`Accessors`, `AccessorRuns`, `AccessorSettling`, `AccessorWitnesses`) and the
  event handler's optimistic write (`OptimisticWrites`), both with reads from a cache of any age.

`Resources`, `Names`, `Strings` and `Wrappers` hold the shared data types and small helpers.
Code that changes things step by step is a method or a class here. Its `ensures` gives the result or the
new state as a function of the old one, and the lemmas are about those functions. In the module
descriptions "bag" means that the elements may be taken in any order.

Environment: the API server is the class `ApiServer.Api` (no other writers during a reconcile, except in
`OptimisticWrites`, where any other writer may act at any point). ZooKeeper is the class
`PathCache.ZooKeeper` together with the actions Create, SetData and Remove. Time, schedules and the order
of map iteration are arbitrary; where that order decides an entry's labels, the sources it happens to
pick are the ghost results and parameters of type `Picks`. SHA-1 is the parameter `digest`, the YAML parser is the type `ZNode`
(bytes up to what the parser makes of them), URL parsing is left to the caller, and strings are ASCII.

Places where the code does not do what a reader would expect, each with a lemma:

- durations ending in `ms` are zero (`Durations.MillisecondSuffixIsZero`), against the comment at
  pkg/utils/utils.go:19-24;
- weights for consumers of a missing non-canary subset usually do not total 100
  (`Routes.ReroutedNormalTotals100Iff`), against api/v1alpha1/serviceconfig_types.go:59-61;
- with only canary instances live, all traffic of the normal consumers goes to their own dead subset, which
  no DestinationRule defines (`Routes.DeadSubsetTakesAll`; exactly when in `Routes.OnlyToLiveIff` and
  `VirtualServices.TrafficIsDefinedIff`), and with one normal subset listed behind canaries nothing gets a
  share (`Routes.SomebodyServesIff`);
- a node removed and re-created quickly is never watched again (`ConfigCache.RecreatedNodeIsLost`), and one
  removed right after being rewritten stays cached (`ConfigRemovals.RemovalGoesUnnoticed`); what must be
  awaited is in `ConfigRemovals.CoherenceWithRemovals`;
- the last delivered child list may be an old one (`ChildrenMirror.LastDeliveryMayBeStale`), unless
  deliveries keep their order (`ChildrenMirror.InOrderLastDeliveryIsCurrent`);
- the controllers shorten long names differently: such a service never counts as distributed
  (`EndToEnd.DistributedIffLabelsAgree`), and the routes of its ServiceConfig never come into effect
  (`EndToEnd.HandOverIffLabelsAgree`);
- a surplus object of one kind hides a missing one of another (`Status.PhaseCancels`), and only a surplus
  does (`Status.DistributedMeansExactlyIff`);
- an accessor object can list what its scope never had (`AccessorWitnesses.SpecWasNeverTheRelation`), overlapping
  tasks can leave a service out (`AccessorWitnesses.OverlapLosesAService`), and so can two applications with
  one formatted name (`AccessorWitnesses.SharedObjectIsWrong`) or a stale read, even by tasks strictly one
  after the other (`AccessorWitnesses.StaleReadLosesAService`; exactly when in
  `AccessorSettling.AccessorsSettle`); the same stale read loses an event (`OptimisticWrites.StaleReadGivesUp`);
- the ConfiguredService controller's timeout follows whichever instance comes first
  (`VirtualServices.TimeoutFollowsOrder`; exactly when in `VirtualServices.OrderFreeIffOneBudget`);
- an instance labelled with the mesh's own label makes a subset live without being an endpoint of it
  (`EntryContents.EndpointIff` says exactly when);
- a workload label with several sources follows the map order, and its entry may never come to rest
  (`TwoWriters.AmbiguousDoesNotSettle`);
- a cluster that cannot be created makes the next check stop another one twice, which panics
  (`ClusterManager.Manager.Check` says exactly when);
- adding a cluster can break the uniqueness of names (`ClusterManager.Manager.Add` says exactly when), and
  the earlier clusters of a repeated name then leave the list without being stopped
  (`ClusterCheck.Renew`).

## Model

| member | source | states |
|---|---|---|
| Debounce.Conservation | pkg/adapter/debounce/debounce.go:35-97 | over every schedule: the batches pushed followed by the pending one are the received requests, in order; each push carries its batch merged, with the times of its first and last request, and was quiet for waitTime or maxWaitTime old; at most one push runs and its free signal never blocks; a pending request always has an armed timer or a push in flight |
| Debounce.ReceivedIsPuts | pkg/adapter/debounce/debounce.go:70-88 | the received requests are exactly the requests put, in order |
| Debounce.StampsArePutTimes | pkg/adapter/debounce/debounce.go:70-88 | the time stamps of the pushed batches and of the pending one are the times at which the requests were put, in order; with Conservation startTime is the first and lastUpdateTime the last of the batch |
| Debounce.Latency | pkg/adapter/debounce/debounce.go:49-62 | with timers and channels served at once, a batch is handed over at the latest when it has been quiet for waitTime, and by startTime + waitTime + maxWaitTime, or at the very completion of the previous push, never early; a waiting batch with no push in flight is never overdue |
| Debounce.PushesIff | pkg/adapter/debounce/debounce.go:49-62 | a fired timer or a finished push hands the pending batch over at once if and only if no push is in flight and the batch has been quiet for waitTime or is maxWaitTime old |
| Debounce.TimerFiresOnce | pkg/adapter/debounce/debounce.go:89-93 | after a timer has been handled none is due, so that the loop does not spin |
| Debounce.NextKeepsSafe | pkg/adapter/debounce/debounce.go:64-95 | every arm of the select keeps the safety invariant |
| Debounce.PushWorkerKeepsSafe | pkg/adapter/debounce/debounce.go:49-62 | pushWorker keeps it, provided a push is free to start |
| Debounce.NextKeepsTimely | pkg/adapter/debounce/debounce.go:64-95 | every arm keeps the deadline invariant when nothing due is left waiting |
| Debounce.Debouncer.PushWorker | pkg/adapter/debounce/debounce.go:49-62 | pushes the buffer if it is quiet or old enough, else re-arms the timer for the rest of waitTime |
| Debounce.Debouncer.OnFree | pkg/adapter/debounce/debounce.go:66-69 | takes the free signal, then acts as pushWorker |
| Debounce.Debouncer.OnRequest | pkg/adapter/debounce/debounce.go:70-88 | merges the request; the first of a batch starts the clock and arms the timer |
| Debounce.Debouncer.OnTimer | pkg/adapter/debounce/debounce.go:89-93 | a fired timer pushes only when no push is in flight |
| Debounce.Debouncer.Start | pkg/adapter/debounce/debounce.go:64-95 | the loop under a schedule reaches the state of the state machine's run, so the theorems above are about it |
| PathCache.Cache.constructor | pkg/adapter/zookeeper/pathcache.go:89-119 | leaves the initial state of the protocol for some listing of the children |
| PathCache.Cache.WatchAndAddChildren | pkg/adapter/zookeeper/pathcache.go:169-194 | arms one child watch and schedules an addChild task for every child not cached, and for no other |
| PathCache.Cache.ScheduleAddChildren | pkg/adapter/zookeeper/pathcache.go:183-189 | the loop over the children |
| PathCache.Cache.WatchChildren | pkg/adapter/zookeeper/pathcache.go:197-226 | arms one child watch, makes the cache the child set and schedules one ChildrenReplaced with that list |
| PathCache.Cache.Watch | pkg/adapter/zookeeper/pathcache.go:151-162 | arms a data watch if the node exists, else changes nothing |
| PathCache.Cache.OnChildAdd | pkg/adapter/zookeeper/pathcache.go:229-244 | caches and announces the child only if it could be watched |
| PathCache.Cache.OnEvent | pkg/adapter/zookeeper/pathcache.go:247-269 | handles one fired watch exactly as the protocol's step |
| PathCache.Cache.OnNodeChanged | pkg/adapter/zookeeper/pathcache.go:287-304 | re-arms the watch if the node still exists, and announces the change either way |
| PathCache.Cache.OnChildDeleted | pkg/adapter/zookeeper/pathcache.go:272-284 | marks the child as not cached and announces the deletion |
| PathCache.ZooKeeper.ChildrenW | pkg/adapter/zookeeper/pathcache.go:171-176 | replies with every child once, in some order, and arms a watch |
| ChildrenMirror.MirrorsChildren | pkg/adapter/zookeeper/pathcache.go:197-226 | over every run: armed child watches plus fired ones not yet handled are exactly one; in children mode, while it is armed, the cache is exactly the child set |
| ChildrenMirror.DeliveredListsAreSnapshots | pkg/adapter/zookeeper/pathcache.go:217-221 | every delivered ChildrenReplaced list was the exact child set at one earlier moment of the run |
| ChildrenMirror.PresentChildrenAreAnnounced | pkg/adapter/zookeeper/pathcache.go:247-258 | while the watch is armed the present child set is waiting to be delivered or has been: no change is missed |
| ChildrenMirror.LastDeliveryMayBeStale | pkg/adapter/zookeeper/pathcache.go:221 | a run that settles with an outdated list delivered last |
| ChildrenMirror.InOrderLastDeliveryIsCurrent | pkg/adapter/zookeeper/pathcache.go:197-226 | in every run that delivers the notifications in the order in which they were scheduled, once nothing is pending the last delivered list is the list of the present children |
| ConfigCache.ConfigCoherence | pkg/adapter/configcenter/zk/client.go:94-131 | over every history without node removals in which keys stay with their paths, however notifications overtake each other: once nothing is pending every node is cached, watched, and its entry is the parse of its present data |
| ConfigCache.DoKeepsInv | pkg/adapter/configcenter/zk/client.go:94-131 | each step of ZooKeeper, the cache or the client keeps, for every cached node, that its entry is current or that something under way will make it so |
| ConfigCache.SettlesWithinWork | pkg/adapter/zookeeper/pathcache.go:121-133 | once ZooKeeper is quiet the pending work ends within a bounded number of steps in any order, and stops only when nothing is pending |
| ConfigCache.InternalWorks | pkg/adapter/zookeeper/pathcache.go:183-189 | every step of the cache or client lowers the amount of work |
| ConfigCache.InternalPossible | pkg/adapter/zookeeper/pathcache.go:121-133 | while something is pending some step can be taken |
| ConfigCache.RecreatedNodeIsLost | pkg/adapter/zookeeper/pathcache.go:183-189 | from a watched node, remove and create before the events are handled: settled, node present, not cached, and rewriting it starts no work |
| ConfigCache.NodeIsWatched | pkg/adapter/zookeeper/pathcache.go:229-244 | the start state of that run is reached from a fresh cache |
| ConfigCache.CollidingKeysLoseOne | pkg/adapter/configcenter/zk/client.go:108 | two nodes with one key: settled with one of them not recorded, so the key condition is needed |
| ConfigRemovals.CoherenceWithRemovals | pkg/adapter/configcenter/zk/client.go:94-141 | with removals and re-creations too, provided that a cached node is removed only while its data watch is armed and created again only once its removal has been noticed, that a node's configuration has a key of that node, and that the service name of a node's path is one: when nothing is pending the cached paths are exactly the nodes, all watched, with current entries |
| ConfigRemovals.EntriesHaveNodes | pkg/adapter/configcenter/zk/client.go:132-141 | if also a node is keyed by the service name of its path, and removed only while watched once the client has read it: when nothing is pending every entry with a key belongs to a present node |
| ConfigRemovals.DoKeepsSound | pkg/adapter/zookeeper/pathcache.go:247-304 | each such step of ZooKeeper, the cache or the client keeps the freshness of the present nodes and that vanished ones are about to be noticed |
| ConfigRemovals.RemovalGoesUnnoticed | pkg/adapter/zookeeper/pathcache.go:287-304 | a run from a watched node, rewritten and removed before the rewriting is handled: settled, with the node gone but still cached and recorded |
| ConfigNames.ResolvesExactly | pkg/utils/utils.go:76-80 | the path root/name.configurators is resolved to the name if and only if it has no slash and, after a first ".configurators" in it, only further ones |
| ConfigNames.SlashAtTheEnd | pkg/utils/utils.go:76-80 | slashes at the end of a path change nothing; a path without elements resolves to . or / |
| ConfigNames.NamesFit | pkg/utils/utils.go:76-80 | with this naming the paths of exactly such services meet what the two theorems on removals ask; what is written then fits if and only if it is keyed by the service name |
| ConfigNames.ServicesAreMirrored | pkg/adapter/configcenter/zk/client.go:94-141 | both theorems for the code's own naming: the entry of a node with a readable configuration is the present one, under the service's name, and every named entry has its node |
| ConfigCache.ConfigClient.GetData | pkg/adapter/configcenter/zk/client.go:154-163 | a missing node reads as no bytes |
| ConfigCache.ConfigClient.Receive | pkg/adapter/configcenter/zk/client.go:95-117 | takes one notification and reads the node as it is then |
| ConfigCache.ConfigClient.Record | pkg/adapter/configcenter/zk/client.go:101-141 | records what was read under its key, skips what does not parse, and forgets a deleted node |
| Subsets.FindIn | api/v1alpha1/meshconfig_types.go:97-104 | whether a subset of that name is listed |
| Subsets.MapContains | controllers/serviceconfig/utils.go:15-26 | whether some label has the same value on the other side, under the name it is remapped to or under its own if it is not, whatever the iteration order |
| Subsets.GetSubset | controllers/configuredservice/virtualservice.go:259-269 | the nested loops select what the specification function selects |
| Subsets.LiveIff | controllers/serviceconfig/utils.go:15-26 | a subset is live if and only if some instance has a label whose value the subset has under the remapped name, or under the same name if it is not remapped |
| Subsets.FlagsAreRemapped | config/samples/mesh_v1alpha1_meshconfig.yaml:12-30 | a mesh like the sample one: an instance flagged blue makes the blue group live, one flagged otherwise no group |
| Subsets.SelectedShape | controllers/configuredservice/virtualservice.go:259-269 | the selection is a subsequence of the global subsets without repeated names, all live |
| Subsets.SelectedNames | controllers/serviceconfig/destinationrule.go:172-179 | a name is selected if and only if some instance matches a global subset of that name |
| Subsets.SelectedIsOrderFree | pkg/adapter/convert/dubbo_converter.go:44-52 | only which label sets occur matters, not their order or number |
| Subsets.SelectedOfPermutation | pkg/adapter/convert/dubbo_converter.go:44-52 | permuting the instances changes nothing |
| Subsets.SelectedCount | controllers/serviceconfig/virtualservice.go:140 | as many selected as there are global subsets means that all of them are |
| Durations.StringToDuration | pkg/utils/utils.go:25-48 | the code computes the specified duration, with int64 wrap-around and truncating division |
| Durations.DurationMeaning | pkg/utils/utils.go:25-48 | the denoted nanoseconds are the unit times the wrapped product, whatever the string and multiplier |
| Durations.DurationNormalised | pkg/utils/utils.go:25-48 | nanos are below 10^9 in absolute value and never of the opposite sign of seconds; both fit their types |
| Durations.RepeatIsExact | pkg/utils/utils.go:36-47 | multiplying is exact if and only if the product fits an int64 |
| Durations.MillisecondSuffixIsZero | pkg/utils/utils.go:30-37 | every string ending in ms gives zero |
| Durations.GetTimeout | controllers/serviceconfig/virtualservice.go:340-348 | global values stand in for an empty timeout and zero retries |
| Durations.GetRetries | controllers/serviceconfig/virtualservice.go:326-338 | the same for the retry policy |
| Durations.TimeoutBudget | controllers/serviceconfig/virtualservice.go:174-175 | timeout and per-try timeout are absent together; the timeout is attempts times the per-try timeout if and only if the product fits an int64 |
| Durations.LabelBudget | controllers/configuredservice/virtualservice.go:187-209 | with retries from an int64 label, of which the attempts are the low 32 bits, the timeout is attempts times the per-try timeout if and only if their product with the count fits an int64 and both products agree modulo 2^64 |
| Texts.ParsesIntegers | pkg/utils/utils.go:30-47 | a written integer, with or without sign, is read as itself if it fits an int64, otherwise as the nearest one with an error |
| Texts.ParsesNothingElse | pkg/utils/utils.go:30-47 | any other character makes it an error and 0 |
| Texts.TimesAsWritten | pkg/utils/utils.go:25-48 | a number with the suffix s is so many seconds, without so many milliseconds, times the multiplier if that fits an int64 |
| Texts.FormatMeans | pkg/utils/utils.go:15-17 | a formatted name has no capitals or underscores, one without them is kept, and two names become one exactly when they differ in nothing else |
| Texts.EntryNamesDiffer | controllers/configuredservice/workloadentry.go:123 | a service's entries have different names, before formatting, if and only if host or port differ |
| Texts.ShortenedNames | controllers/serviceconfig/utils.go:8-13 | up to 62 characters both shortenings take the dots off the ends; of longer names one is the digest, the other the last 62 characters without dots at the ends |
| Routes.SplitEvenly | controllers/serviceconfig/virtualservice.go:217-225 | the even split over all live subsets |
| Routes.SpreadOverNormals | controllers/serviceconfig/virtualservice.go:233-252 | the shares of the live non-canary subsets, never dividing by zero |
| Routes.DynamicRoute | controllers/serviceconfig/virtualservice.go:194-207 | the configured destinations as they are |
| Routes.OnlyMissingCanary | controllers/serviceconfig/virtualservice.go:350-364 | whether every global subset without instances is a canary |
| Routes.RerouteSubset | controllers/serviceconfig/virtualservice.go:209-267 | the reroute decision of the ServiceConfig controller |
| Routes.BuildServiceConfigRoutes | controllers/serviceconfig/virtualservice.go:140-159 | its three-way switch |
| Routes.BuildConfiguredServiceRoutes | controllers/configuredservice/virtualservice.go:135-176 | the other controller's switch computes the reroute decision itself |
| Routes.CompilersAgree | controllers/serviceconfig/virtualservice.go:140-159 | for every global subset and any instances both controllers compile the same destinations and weights, unless a manual route applies |
| Routes.OnlyToLiveIff | controllers/serviceconfig/virtualservice.go:209-261 | rerouted traffic goes only to live subsets if and only if the consumer's subset is a canary, or live, or some non-canary subset is live |
| Routes.SomebodyServesIff | controllers/serviceconfig/virtualservice.go:209-261 | some destination gets a positive share if and only if the subset is live, or a canary with any live subset, or missing without live non-canary subsets (itself the lone destination), or those subsets are not rounded down to nothing: one alone in last place behind canaries is, and so are more than 100 before a canary |
| Routes.NoBlackHoles | controllers/serviceconfig/virtualservice.go:209-261 | for every global subset and any instances, unless a manual route applies, a lone destination taking everything: the traffic of its consumers goes only to live subsets, and all of it is served, exactly in the stated cases; a non-canary consumer never reaches a live canary subset |
| Routes.DeadSubsetTakesAll | api/v1alpha1/serviceconfig_types.go:59-61 | normal and canary configured, only canary live: the normal consumers get one destination, their dead subset, which takes everything |
| Routes.DefaultBranchIsLive | controllers/serviceconfig/virtualservice.go:156-158 | a subset is sent its own consumers' traffic in full only if it is live |
| Routes.ReroutedCanaryTotals100 | controllers/serviceconfig/virtualservice.go:215-225 | the weights of a rerouted canary total 100 for any number of subsets, the last one taking 100/n + 100 mod n |
| Routes.ReroutedNormalTotal | controllers/serviceconfig/virtualservice.go:226-252 | the total for a missing non-canary subset: 100 + (l-2)*(100/l) or l*(100/l), by where the last subset stands |
| Routes.ReroutedNormalTotals100Iff | api/v1alpha1/serviceconfig_types.go:59-61 | that total, a lone destination counting as 100, is 100 if and only if no non-canary subset is live, or l is 2 (or above 100), respectively divides 100 |
| RouteContents.ReroutedTo | controllers/serviceconfig/virtualservice.go:209-261 | every destination with its host, subset and weight: the live subset itself, all live ones for a missing canary, and for another missing subset itself with weight 0 and each live non-canary one |
| RouteContents.ManualRouteIff | controllers/serviceconfig/virtualservice.go:140-149 | the configured destinations are used if and only if there are some, the subset is no canary and every global subset without a live one of its name is |
| VirtualServices.BuildMatch | controllers/serviceconfig/virtualservice.go:161-168 | the match has exactly the match keys, each with the value of the subset's label, empty if it has none |
| VirtualServices.BuildServiceConfigRoute | controllers/serviceconfig/virtualservice.go:134-177 | one HTTP route of the ServiceConfig controller |
| VirtualServices.BuildConfiguredServiceRoute | controllers/configuredservice/virtualservice.go:135-210 | one HTTP route of the other; timeout and retries come from the first instance |
| VirtualServices.BuildServiceConfigHttp | controllers/serviceconfig/virtualservice.go:109-132 | one route per global subset in order, then the default route unless Unchangeable |
| VirtualServices.BuildConfiguredServiceHttp | controllers/configuredservice/virtualservice.go:110-133 | the same for the other controller, whose default route is unconditional |
| VirtualServices.BuildRuleSubsets | controllers/serviceconfig/destinationrule.go:125-139 | one rule subset per live subset, in order |
| VirtualServices.CompilationPreservesMeaning | controllers/serviceconfig/virtualservice.go:109-177 | if any two global subsets differ in the value of some match key, a consumer whose labels and headers have the values of subset s on all match keys gets exactly the route built for s; any other consumer the default route, or none under Unchangeable |
| VirtualServices.SeparationIsNeeded | controllers/serviceconfig/virtualservice.go:161-168 | of two subsets with the same values on all match keys the later one's consumers are misrouted |
| VirtualServices.ControllersRouteAlike | controllers/configuredservice/virtualservice.go:110-176 | evaluated, the two controllers' VirtualServices send the consumers of every global subset to the same destinations |
| VirtualServices.TrafficIsDefinedIff | controllers/serviceconfig/destinationrule.go:125-139 | all traffic goes to subsets that the DestinationRule built from the same list defines if and only if the consumer's subset is a canary, or live, or some non-canary subset is live |
| VirtualServices.OrderFreeIffOneBudget | controllers/configuredservice/virtualservice.go:187-209 | with live subsets, all orders of the instances compile to the same routes if and only if all instances ask for the same timeout and retries |
| VirtualServices.TimeoutFollowsOrder | controllers/configuredservice/virtualservice.go:187-201 | two instances whose swap changes the compiled routes |
| RouteContents.ConfigBudget | controllers/serviceconfig/virtualservice.go:170-176 | attempts and per-try timeout of each route are the ServiceConfig's, or the mesh's where it has none; the timeout is their product if and only if that fits |
| RouteContents.LabelledTimes | controllers/configuredservice/virtualservice.go:187-209 | timeouts come from the labels timeout and retries, or the mesh's policy |
| RouteContents.LabelledAttempts | controllers/configuredservice/virtualservice.go:208 | the attempts are the low 32 bits of the label, or the mesh's if these are 0 |
| RouteContents.FirstInstanceDecides | controllers/configuredservice/virtualservice.go:191-201 | all routes have the budget of the first instance |
| RouteContents.DefaultTakesTheRest | controllers/configuredservice/virtualservice.go:212-223 | the default route matches everybody and sends everything to the service's host, no subset named, with the proxy's retries |
| RouteContents.ConfiguredDefault | controllers/configuredservice/virtualservice.go:110-133 | consumers of no global subset get the default route, and so does everybody when no subset is live |
| RouteContents.RouteNames | controllers/serviceconfig/virtualservice.go:170-176 | routes have different names if and only if their subsets have, the same from both controllers |
| RouteContents.BalancersByName | controllers/serviceconfig/destinationrule.go:41-46 | each balancer is found by Istio's name for it, any other name gives random |
| RouteContents.RuleDescribes | controllers/serviceconfig/destinationrule.go:125-139 | each rule subset has the name, the labels and the balancer of the live one |
| ApiServer.Api.List | controllers/configuredservice/workloadentry.go:163-180 | exactly the namespace's objects carrying the label, by name |
| ApiServer.DeleteAll | controllers/configuredservice/workloadentry.go:85-92 | deletes exactly the given names |
| WorkloadLabels.BuildLabels | controllers/configuredservice/workloadentry.go:124-132 | the service label and, for every workload key that some label is mapped to, the value of one of its sources; the ghost result names the sources taken |
| WorkloadLabels.CopyRemapped | controllers/configuredservice/workloadentry.go:127-131 | the inner loop: the last source in the iteration order, which the ghost result holds, wins |
| WorkloadLabels.OrderFreeIffAgreed | controllers/configuredservice/workloadentry.go:127-131 | the labels do not depend on that order if and only if all sources of the key agree on the instance |
| WorkloadEntries.BuildWorkloadEntry | controllers/configuredservice/workloadentry.go:122-146 | name and contents of the wanted entry, for some choice among ambiguous label sources |
| WorkloadEntries.GetInstanceWeight | controllers/configuredservice/workloadentry.go:182-196 | the configured weights by unformatted name, the last of several winning; none without a ServiceConfig |
| WorkloadEntries.UpdateWorkloadEntry | controllers/configuredservice/workloadentry.go:97-120 | the entry becomes as built, with its configured weight, keeping its owner |
| WorkloadEntries.TreatInstance | controllers/configuredservice/workloadentry.go:50-83 | one pass of the loop brings this name, and only it, to its outcome and takes it off the found map |
| WorkloadEntries.TreatInstances | controllers/configuredservice/workloadentry.go:50-83 | after the loop all wanted names have their outcome, for the sources taken, and the found map holds exactly the others |
| WorkloadEntries.Reconcile | controllers/configuredservice/workloadentry.go:40-95 | for some choice among ambiguous label sources the store becomes the one that the theorems on Reconciled describe |
| EntryContents.EntriesDescribe | controllers/configuredservice/workloadentry.go:122-146 | afterwards the entry of each first instance of a name that nobody else holds has the instance's host as address, its one port, the service's label, and for each workload key that labels are remapped to the value of one of these labels, empty if missing; the owner is kept or the service |
| EntryContents.SelectedByItsService | controllers/configuredservice/serviceentry.go:112-120 | such an entry is selected by the ServiceEntry of a service if and only if it is the entry's own, provided the select label is no remapped workload key |
| EntryContents.EndpointIff | controllers/configuredservice/virtualservice.go:259-269 | for a subset with one label, to which one instance label is remapped: an entry is an endpoint of it if and only if the instance has that label with its value; an instance makes it live without being an endpoint exactly when it has only the mesh's own label |
| EntryContents.WeightsAreSet | controllers/serviceconfig/workloadentry.go:31-63 | an entry named by a configured host and port gets the last weight configured for it and is otherwise unchanged; so are all others |
| TwoWriters.ReconcileConverges | controllers/configuredservice/workloadentry.go:40-95 | afterwards the names carrying the label are exactly the wanted ones that nobody else holds; each is as built from the first instance of its name, up to the weight; nothing else has changed |
| TwoWriters.ReconcileIsIdempotent | controllers/configuredservice/workloadentry.go:40-95 | a second run leaves the store unchanged |
| TwoWriters.ReconcileWeights | controllers/serviceconfig/workloadentry.go:31-63 | every existing entry with a configured name gets its configured weight, whatever its labels; nothing else changes |
| TwoWriters.TwoWritersSettle | controllers/serviceconfig/workloadentry.go:31-63 | unless an entry that the service can write has a label with disagreeing sources: every run of both writers, of any length and order, in which a ConfiguredService reconcile is followed at some point by a ServiceConfig reconcile ends in one and the same store |
| TwoWriters.RestIffClear | controllers/configuredservice/workloadentry.go:127-131 | after one ConfiguredService run every further one changes nothing, whatever the map order, if and only if no entry that the service can write has a label with disagreeing sources |
| TwoWriters.AmbiguousDoesNotSettle | controllers/configuredservice/workloadentry.go:127-131 | otherwise two choices of sources lead to different final stores |
| TwoWriters.PicksDoNotMatter | controllers/configuredservice/workloadentry.go:127-131 | without such a label the map order makes no difference to what a run leaves |
| TwoWriters.RestIsFixed | controllers/configuredservice/workloadentry.go:76-80 | neither writer changes that store |
| TwoWriters.RestAbsorbs | controllers/serviceconfig/workloadentry.go:31-63 | what ran before makes no difference to where the two lead |
| TwoWriters.ConfiguredWeightIsKept | controllers/configuredservice/workloadentry.go:97-105 | there the entry of an instance with a DNS-1123 name has its configured weight, and one whose formatted name is not configured has weight 0 |
| TwoWriters.ConfiguredServiceKeepsWeights | controllers/configuredservice/workloadentry.go:58-71 | a ConfiguredService run keeps correct weights if and only if it has no entry to create whose configured weight is not 0; a ServiceConfig run then restores them |
| SingleObjects.ReconcileOne | controllers/configuredservice/serviceentry.go:35-82 | create or update the wanted object and delete the label's others; nothing at all if somebody else holds the name |
| SingleObjects.ExactlyOne | controllers/serviceconfig/destinationrule.go:48-123 | afterwards the label has exactly the one wanted object if and only if nobody else holds the name; its labels, finalizers and spec are the wanted ones and its owner is kept |
| SingleObjects.OthersUntouched | controllers/serviceconfig/virtualservice.go:34-107 | all other objects are untouched, and everything is if the name is held |
| SingleObjects.GrantIsIdempotent | controllers/configuredservice/destinationrule.go:46-115 | a second reconcile changes nothing |
| SingleObjects.SecondWish | controllers/serviceconfig/destinationrule.go:48-123 | of two reconciles that want one name, the second has its object in effect if and only if both use the same label value; otherwise it changes nothing |
| Status.Count | controllers/serviceconfig/status.go:167-192 | the number of objects carrying the label, nil if they cannot be listed |
| Status.StatusOf | controllers/serviceconfig/status.go:44-165 | in every sub-status the two counts are present together, and then desired is distributed plus undistributed |
| Status.EntryStatus | controllers/serviceconfig/status.go:77-107 | all zero without a readable ConfiguredService or without instances |
| Status.SingleStatus | controllers/serviceconfig/status.go:109-165 | all zero when no object is wanted |
| Status.BuildStatus | controllers/serviceconfig/status.go:44-61 | the whole status; its phase is computed without touching a nil count |
| Status.PhaseMeaning | controllers/serviceconfig/status.go:194-221 | Unknown if and only if some count is missing; Distributed if and only if as many objects exist as are desired in total, and some do |
| Status.UndistributedIff | controllers/serviceconfig/status.go:194-221 | Undistributed if and only if none of the counted objects exists |
| Status.PhaseCancels | controllers/serviceconfig/status.go:210-216 | Distributed with one ServiceEntry too many and one WorkloadEntry missing |
| Status.DistributedIsTrueIff | controllers/serviceconfig/status.go:194-221 | at phase Distributed nothing is undistributed if and only if no undistributed count is negative |
| Status.DistributedMeansExactlyIff | controllers/serviceconfig/status.go:44-221 | in terms of object counts: exactly the wanted objects give Distributed; and Distributed means exactly the wanted objects if and only if no kind has too many |
| Controllers.ReconcileConfiguredRoutes | controllers/configuredservice/controller.go:126-131 | rule and routes of the ConfiguredService controller |
| Controllers.ReconcileConfigRoutes | controllers/serviceconfig/controller.go:81-86 | rule and routes of the ServiceConfig controller |
| Controllers.ConfiguredServiceReconciler.Reconcile | controllers/configuredservice/controller.go:54-143 | entries and ServiceEntry always, rule and routes only without a ServiceConfig; nothing without the resource or the mesh configuration |
| Controllers.ServiceConfigReconciler.Reconcile | controllers/serviceconfig/controller.go:54-101 | weights, rule, routes, then the status of the store as left |
| EntryContents.ServiceEntryIs | controllers/configuredservice/serviceentry.go:105-146 | with a free name: the service's host, the one HTTP port 20882, and the service's name as selector |
| EntryContents.ConfiguredObjects | controllers/configuredservice/controller.go:113-132 | with free names, live subsets and no ServiceConfig the rule defines exactly the live subsets with the mesh's balancer, and rule, routes and all destinations speak of the service's host; otherwise rules and routes are untouched |
| EntryContents.ConfigObjects | controllers/serviceconfig/controller.go:78-90 | the same for a ServiceConfig, with its own balancer |
| EndToEnd.EntriesDistributed | controllers/serviceconfig/status.go:95-106 | after both reconciles there are never more labelled WorkloadEntries than instances, and as many if and only if the instance names differ and no foreign object holds one |
| EndToEnd.ServiceIsDistributed | controllers/serviceconfig/controller.go:78-90 | for original names of at most 62 characters, different instance names and no foreign objects of those names, every sub-status has nothing undistributed and the phase is Distributed |
| EndToEnd.DistributedIffLabelsAgree | controllers/configuredservice/workloadentry.go:199-208 | in any store where the names are free and the second label marks nothing beyond the first, for original names of any length, the phase becomes Distributed if and only if the two shortenings of the name agree |
| EndToEnd.HandOverIffLabelsAgree | controllers/serviceconfig/virtualservice.go:34-107 | after a ConfiguredService run without a ServiceConfig, a ServiceConfig run has its own rule and routes in effect if and only if the labels agree; otherwise it leaves the old ones as they are |
| EndToEnd.NamesCount | controllers/configuredservice/workloadentry.go:123 | there are as many entry names as instances if and only if they differ |
| EndToEnd.DistributedCanBeTrustedIff | controllers/serviceconfig/status.go:63-221 | for every store: the status of a service with exactly its objects is Distributed; a service reported so has exactly its objects if and only if the store holds no surplus ones |
| EndToEnd.BothAreAtRest | controllers/configuredservice/controller.go:113-132 | after both reconciles neither changes any of the four kinds of object any more, whatever the map order, unless an entry has a label with disagreeing sources |
| Names.FormatIsIdempotent | pkg/utils/utils.go:15-17 | formatting a formatted name changes nothing |
| Clusters.Cluster.Stop | pkg/k8s/manager/cluster.go:150-152 | may be called only on a cluster that has not been stopped |
| Clusters.Sort | pkg/k8s/manager/manager.go:401-403 | the same clusters by descending name |
| Clusters.KeptIff | pkg/k8s/manager/manager.go:361-379 | a cluster is kept if and only if the last configuration of its name withholds the kubeconfig (in maintenance, or none) or has the same one up to case; it is marked as under maintenance in the first case unless it has no kubeconfig itself |
| Clusters.CheckIsDeterministic | pkg/k8s/manager/manager.go:353-404 | the outcome of a check does not depend on the order in which the maps are iterated |
| Clusters.CheckSettles | pkg/k8s/manager/manager.go:332-412 | a second check with the same configuration keeps every cluster and changes nothing |
| ClusterCheck.Current | pkg/k8s/manager/manager.go:353-356 | the table of the listed clusters by name: of a repeated name, the last |
| ClusterCheck.Visit | pkg/k8s/manager/manager.go:361-379 | one pass of the loop sorts this name, through the aliased map, into kept, deleted or added, and touches no other |
| ClusterCheck.Sift | pkg/k8s/manager/manager.go:358-379 | for any iteration order, and although delList is currentList: kept are exactly the wanted clusters with an equal or withheld kubeconfig, deleted all others, added the wanted names not kept |
| ClusterCheck.Renew | pkg/k8s/manager/manager.go:353-404 | succeeds exactly when every wanted name keeps its cluster or gets a new one; the list then has exactly the wanted names. Kept clusters run on and all others of the table are stopped, also when a creation fails and the list stays as it was |
| ClusterCheck.Swap | pkg/k8s/manager/manager.go:385-403 | stop the deleted, create the added, sort; a failing creation comes after the stopping |
| ClusterCheck.OutcomeIsChecked | pkg/k8s/manager/manager.go:361-404 | such a list is the outcome that the two theorems on checks are about |
| ClusterCheck.AddAll | pkg/k8s/manager/manager.go:392-399 | one new cluster per name, or failure, exactly when one of the names cannot be created |
| ClusterCheck.Replace | pkg/k8s/manager/manager.go:381-404 | what follows the loop: unless nothing is to be done or a creation fails, the list becomes the kept and the new clusters |
| ClusterCheck.CheckList | pkg/k8s/manager/manager.go:353-404 | the same in terms of what is known of the clusters |
| Clusters.LastOnesAre | pkg/k8s/manager/manager.go:353-356 | the clusters that are the last of their name, sorted if the list is, with different names |
| ClusterManager.Manager.Check | pkg/k8s/manager/manager.go:332-412 | fails exactly when a wanted cluster can be neither kept nor created. Otherwise the list is sorted with exactly the wanted names, and the stopped clusters are exactly the removed or changed ones. It leaves stopped clusters listed (of running ones), and another check with this configuration would stop one of them twice, if and only if it fails with a cluster to remove or change; nothing happens on an empty configuration |
| ClusterManager.Manager.Get | pkg/k8s/manager/manager.go:255-280 | the first cluster of the formatted name, if it may be queried and is not offline; fails otherwise |
| ClusterManager.Manager.GetClusterIndex | pkg/k8s/manager/manager.go:218-225 | the first index of that name, if and only if there is one |
| ClusterManager.Manager.Add | pkg/k8s/manager/manager.go:202-215 | refused exactly when Get finds the name; names are different afterwards if and only if they were and the new one was not in use; a formatted name can be in use all the same only by an offline cluster or as "" or "all" |
| ClusterManager.Manager.Insert | pkg/k8s/manager/manager.go:207-212 | the second half of Add, whatever the list is by then: sorted, with the cluster added; names differ if and only if they did and this one was not in use |
| ClusterManager.Manager.Delete | pkg/k8s/manager/manager.go:228-252 | the first cluster of that name leaves the list; nothing is stopped |
| ClusterManager.DeletionKeepsOrder | pkg/k8s/manager/manager.go:228-252 | the list stays sorted, names stay different, and of different names exactly this one leaves |
| ClusterManager.Manager.GetAll | pkg/k8s/manager/manager.go:171-199 | all clusters that are not offline, in list order, or the first of them with the first given name |
| Accessors.Registry.ReplaceAccessorInstances | pkg/adapter/registry/zk/client.go:416-432 | adds the pair of each application named by an instance and this service, and nothing else |
| Accessors.AppsOfMembers | pkg/adapter/registry/zk/client.go:420-425 | instances without an application are skipped |
| Accessors.ScopesAre | pkg/adapter/handler/kube_singlecluster_handler.go:128-139 | the scopes an event changes are the values of the label app of its instances; a scope's object goes by the formatted name |
| Accessors.SortedKeys | pkg/adapter/handler/kube_singlecluster_handler.go:142-146 | the strictly increasing enumeration of the set |
| Accessors.EnumerationIsUnique | pkg/adapter/handler/kube_singlecluster_handler.go:142-146 | equal relations give equal specs |
| Accessors.Upsert | pkg/adapter/handler/kube_singlecluster_handler.go:158-174 | the object gets the new hosts and keeps everything else of it; no other object changes |
| Accessors.ReplaceAccessorInstances | pkg/adapter/handler/kube_singlecluster_handler.go:120-176 | undisturbed: each changed scope with an object of its own enumerates its services; no other object changes, and none in anything but its spec |
| AccessorRuns.RelationIsExact | pkg/adapter/registry/zk/client.go:404-432 | after any run the mapping is exactly the set of pairs seen so far, whatever the order and number of the events |
| AccessorRuns.SpecsAreBetween | pkg/adapter/handler/kube_singlecluster_handler.go:140-175 | over every interleaving of events and tasks, with events also arriving while a task ranges over the shared map and reads of any age: each version of each object strictly increasingly enumerates a set between what the relation was when a task looked the scope up and what it was when that task had collected the services |
| AccessorWitnesses.SpecWasNeverTheRelation | pkg/adapter/registry/zk/client.go:458-463 | a run that leaves an object enumerating a set that the relation was at no moment |
| AccessorSettling.AccessorsSettle | pkg/adapter/handler/kube_singlecluster_handler.go:140-175 | when all tasks are done the object of a scope enumerates exactly the services seen if and only if the write of the scope's last task was neither refused nor failed, or the object listed its services already, if scopes have different object names and no two tasks had one scope in hand; events may arrive at any time |
| AccessorSettling.FreshReadsSettle | pkg/adapter/handler/kube_singlecluster_handler.go:158-174 | in particular it does when every last attempt has read the current version |
| AccessorSettling.NextKeepsCurrent | pkg/adapter/registry/zk/client.go:404-439 | each step keeps, for a scope that is not waiting to be looked up, that the task in hand or the one that ended last has all its services |
| AccessorSettling.NextKeepsGrown | pkg/adapter/handler/kube_singlecluster_handler.go:158-174 | each step keeps that the versions of a scope's object only grow and that no task in hand will write less than the current one |
| AccessorSettling.LostExactly | pkg/adapter/handler/kube_singlecluster_handler.go:158-174 | on such versions an attempt leaves the wanted list in place unless it is refused or fails while the object lists something else; so a task that finds its list in an old version and changes nothing loses nothing |
| AccessorWitnesses.OverlapLosesAService | pkg/adapter/handler/kube_singlecluster_handler.go:140-175 | two overlapping tasks of one scope: all done, and a service seen is missing |
| AccessorWitnesses.StaleReadLosesAService | pkg/adapter/handler/kube_singlecluster_handler.go:158-174 | two tasks one after the other, the second reading that there is no object: all done, and a service seen is missing |
| AccessorWitnesses.SharedObjectIsWrong | pkg/adapter/handler/kube_singlecluster_handler.go:148-152 | two applications whose formatted names are equal: a run without overlap, all done, with the object wrong for one of them |
| OptimisticWrites.NoUnreadWriteIsLost | pkg/adapter/handler/kube_singlecluster_handler.go:78-94 | under every interleaving with other writers and stale reads: a handler write is the converted event on top of exactly the version it read, which is the one directly before; no call writes twice or makes more than five attempts; one that gives up has written nothing |
| OptimisticWrites.NextKeepsInv | pkg/adapter/handler/kube_singlecluster_handler.go:78-94 | each step keeps that |
| OptimisticWrites.PutOutcome | pkg/adapter/handler/kube_singlecluster_handler.go:82-94 | an attempt commits if and only if it creates the missing object or updates the current version; it is repeated if and only if the object has been changed but is still there, up to five times; otherwise the call fails |
| OptimisticWrites.StaleReadGivesUp | pkg/adapter/handler/kube_singlecluster_handler.go:82-88 | two calls one after the other, the second reading that there is no object: it gives up and its event is never written |
| OptimisticWrites.MetadataIsKept | pkg/adapter/handler/kube_singlecluster_handler.go:92-93 | in every run each version of the object has the metadata that its other writers or its creation gave it last |
| OptimisticWrites.ReplaceInstances | pkg/adapter/handler/kube_singlecluster_handler.go:70-96 | the retry loop amid arbitrary other writes is a run of the system that ends the call: it commits if and only if its last attempt creates the missing object or updates the version it has read, which is current; all attempts before are conflicts; it gives up only when the object has appeared or gone since the read, or after the fifth conflict |
| OptimisticWrites.TryOnce | pkg/adapter/handler/kube_singlecluster_handler.go:78-94 | one attempt is the system's read and write |

## Left out

- WorkloadEntries.Reconcile: conflicts and other API errors, after which the reconcile is simply repeated, are not modelled.
- Controllers.ConfiguredServiceReconciler.Reconcile: the sidecar reconciler is not modelled.
- SingleObjects.ReconcileOne: conflicts are not modelled; the code retries them with the version it already has.
- ClusterManager.Manager.Add: has nothing come between its two halves, though the code releases the lock there. `ClusterManager.Manager.Insert` says what the second half does to any list, so that two concurrent additions of one name both succeed.
- ClusterManager.Manager.Check: clusters created before a failing creation, which the code drops while they go on running, and the channel that reports the added ones.
- Status.BuildStatus: writing the status back, which happens only when it differs, is not modelled.
- ConfigCache.ConfigCoherence: excludes node removals, which are the subject of `ConfigRemovals`, as well as lost sessions.
- ConfigRemovals.EntriesHaveNodes: leaves out the entry with the empty key, which the code records whenever it reads a missing node and never deletes.
- ChildrenMirror.DeliveredListsAreSnapshots: says nothing of the order of deliveries, which is arbitrary.
- Accessors.ReplaceAccessorInstances: one event on its own; concurrent tasks are the subject of `AccessorRuns`.
- AccessorRuns.SpecsAreBetween: a task ranges over the registry's own map without its lock. The model lets it see any set between those at its two ends; that Go may abort the program on such an access is not modelled. Nobody else writes or deletes ServiceAccessors, and of a task's up to five attempts only the last is a step.
- Closing a Debounce, which drops a pending request.
- Nil policies in the resources, which make the compilers panic, and the constant retryOn string.
- The event loops of the path cache and the configuration client as loops: their handlers are the methods, and any order of handler calls is a run of the state machine. Handlers are atomic.
- The worker pool and the accelerator, beyond running a task at some later time.
- Sidecars, AppMeshConfig, MeshConfig and IstioConfig reconcilers, health checks, HTTP router, metrics, MCP, Nacos, the command line and generated code.
- Non-ASCII names: lower-casing follows ASCII only.
