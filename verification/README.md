# kube-parrot, modelled and proved in Dafny

kube-parrot watches Kubernetes objects and keeps a set of announced BGP routes
in step with them.  This project models the chain from an event to a route on
the air and proves what the chain as a whole guarantees.

| module | what it models |
|---|---|
| `WorkQueues`, `QueueHistory`, `QueueWaiters` | the deduplicating work queue with its metrics; its whole runs; its condition variable |
| `WaitingList`, `DelayPipeline`, `DelayingQueues`, `Wakeups` | the sorted waiting slice and its map; delayed adding as a step system; the in-place code, proved to be runs of it; the loop's timer and heartbeat |
| `RateLimiters`, `Bursts`, `Reconcilers` | back-off, per-item limiters and their maximum; the limiter in front of the pipeline; the rate-limited queue and the worker's turn |
| `Routes`, `RouteStores` | routes, their printed keys, the route stores and the BGP speaker |
| `ClusterObjects`, `Listings` | objects, events and what an event does to its store; listing a store in any order |
| `ExternalObjects`, `ReconcilePass`, `PassResults`, `ExternalServices` | external services: stores and handlers, one reconcile pass as a machine and what it achieves, the controller's code |
| `ObjectPass`, `ObjectRoutes` | pod subnets, service subnet and API servers: their reconcile pass as a machine, the controllers' code |
| `Controllers`, `Convergence`, `NeverStuck`, `AirTime` | what a controller is to the queue in front of it; handlers, queue and worker in every interleaving; coming to rest; what is on the air, by history |
| `ExternalConvergence`, `ExternalHistory`, `ObjectConvergence` | that the four controllers are such controllers, and what follows for each |
| `Parrot`, `Clashes` | the four controllers on one speaker; plans that give two of them the same route |
| `FakeClocks` | the fake clock with one-shot and periodic waiters |
| `Runs`, `Prelude` | finite runs of a step system; small common definitions |

The main results need all layers at once, and hold in every interleaving of
handlers, queues and workers.

- `Convergence.NothingLost`: until ShutDown, a call of Dirty or a failed
  reconcile that the worker has not yet answered is still somewhere on its way.
- `Clashes.AgreesIffDisjoint`: the speaker announces in every run exactly what
  the four route stores hold if and only if the address plan gives no two
  controllers the same route.
- `Parrot.QuietMeansConverged`: over such a plan, whenever all four controllers
  are quiet, the speaker announces exactly what the cluster asks for, provided
  that a service or node takes a new address only when its old one is forgotten;
  a delete that has come to rest is enough (`RestForgets`).
- `Parrot.ConvergesInevitably`: once events and failures cease, every schedule
  whatever comes to that state.
- `ExternalHistory.QuietConvergedIff` and `ObjectConvergence.QuietConvergedIff`:
  without the proviso on addresses, exactly when a quiet controller has
  converged, in terms of what its passes filled and swept;
  `ExternalHistory.RouteLeaks` and `ObjectConvergence.NodeLeaks` are runs that
  come to rest and have not.
- `Wakeups.NeverOversleeps`: whenever the loop of the delaying queue sleeps, its
  timer and its heartbeat cover every deadline that is waiting.

How the pieces hang together:

- Code that changes fields in place is a class (`WorkQueue`, `WaitingSlice`,
  `DelayingQueue`, `ItemLimiter`, `RoutesStore`, `ExternalServicesController`,
  `FakeClock`, ...), each method proved against a function on values; whole
  runs are then reasoned about on the values.
- The methods of `DelayingQueue` and `Reconciler` are proved to be runs of
  `DelayPipeline`, and the controllers' `Reconcile` to be runs of the machines
  `ReconcilePass.Step` and `ObjectPass.Step`.  Their handlers are proved to move
  the stores as `Handled` and `Note` say and to call Dirty as `WillCallDirty`
  says.  `Convergence` interleaves these machines and handlers.
- `Convergence` and `NeverStuck` are stated for any lawful controller;
  `ExternalIsLawful`, `ExternalTerminates`, `SingleIsLawful` and
  `SingleTerminates` show that the four controllers are.
- gobgp is the set of announced (prefix, length, next hop) triples, with calls
  that take effect or fail without effect.  A route's key is the triple itself;
  `Routes.RouteKeyInjective` shows that the printed key is as good.
- Clocks, the token bucket, failures of the speaker and of reconcile, and the
  order in which a store lists its contents are arbitrary.
- A handler's look at its store and its change of it are one step: each store
  is written by one informer's goroutine only.

Where the code and its comments disagree, the code is followed:

- `default_rate_limiter.go:65` speaks of powers of ten; the code doubles.
- `default_rate_limiter.go:96` says the result never overflows.  With a base
  delay that is a power of two it does, at exactly 2^63, the one value the
  strict comparison lets through: `RateLimiters.CappedDoublingIff`.
- `store.go:40` prints the prefix length with a verb for strings, so that a key
  reads `10.0.0.1/%!s(uint8=32)->10.0.0.2`; the key is still injective.

Properties that one might expect and that fail, each with its exact condition:

- a Done on an item that was not handed out duplicates it: `DoneKeepsValidIff`;
- the route of a service deleted and created anew with another IP leaks:
  `RouteLeaks`, `SuccessfulPassExactIff`, `QuietConvergedIff`; so does that of a
  node that comes back with another pod subnet: `NodeLeaks`;
- a pod that moves to another host stays stored: `MovedPodStaysStored`,
  `LastPodEventDecidesIff`;
- two stores that hold the same route disagree with the speaker after one of
  them withdraws it: `WithdrawalAgreesIff`, and for the whole program
  `OverlapDisagrees` and `AgreesIffDisjoint`;
- with a base delay that is a power of two the delay is not monotone:
  `DelayMonotoneIff`.

## Model

| member | source | states |
|---|---|---|
| `WorkQueues.AddKeepsValid` | pkg/forked/workqueue/queue.go:87-106 | Add keeps the documented invariant in its exact form: the list is the dirty items not being processed, once each |
| `WorkQueues.GetKeepsValid` | pkg/forked/workqueue/queue.go:120-139 | Get keeps the invariant, and what it hands out was dirty and in nobody's hands |
| `WorkQueues.DoneKeepsValidIff` | pkg/forked/workqueue/queue.go:117-155 | Done keeps the invariant if and only if the item is being processed or not dirty: the calling protocol is what is needed |
| `WorkQueues.WorkQueue.Add` | pkg/forked/workqueue/queue.go:87-106 | the new state, ignoring items already dirty and everything after ShutDown, listing only items not being processed; invariant and metrics stay in step |
| `WorkQueues.WorkQueue.Get` | pkg/forked/workqueue/queue.go:120-139 | the first item moves from dirty to processing, or the caller is told to end when the list is empty, and then every dirty item is being processed |
| `WorkQueues.WorkQueue.Done` | pkg/forked/workqueue/queue.go:144-155 | the item leaves processing and is listed again if it became dirty meanwhile |
| `WorkQueues.WorkQueue.ShutDown` | pkg/forked/workqueue/queue.go:160-165 | only the flag changes |
| `WorkQueues.WorkQueue.Len` | pkg/forked/workqueue/queue.go:111-115 | the number of dirty items not being processed |
| `WorkQueues.QueueMetrics.Add` | pkg/forked/workqueue/metrics.go:79-89 | counters up, the time of the first add kept |
| `WorkQueues.QueueMetrics.Get` | pkg/forked/workqueue/metrics.go:91-102 | depth down, start time recorded, add time dropped |
| `WorkQueues.QueueMetrics.Done` | pkg/forked/workqueue/metrics.go:104-113 | start time dropped |
| `QueueHistory.RunKeepsValid` | pkg/forked/workqueue/queue.go:48-155 | the invariant holds after every sequence of calls that respects the protocol |
| `QueueHistory.SetsMatchHistory` | pkg/forked/workqueue/queue.go:53-155 | x is dirty iff an Add before ShutDown was not followed by its delivery; x is processing iff a delivery was not followed by its Done |
| `QueueHistory.NeverHandedOutTwice` | pkg/forked/workqueue/queue.go:117-155 | between two deliveries of an item there is a Done of it |
| `QueueHistory.DeliveryConserves` | pkg/forked/workqueue/queue.go:87-155 | listed at first plus appended equals delivered plus still listed, in order |
| `QueueHistory.DeliveredInOrder` | pkg/forked/workqueue/queue.go:48-139 | an item at position k is returned by exactly the (k+1)-th following Get |
| `QueueHistory.DrainsAfterShutDown` | pkg/forked/workqueue/queue.go:157-165 | after ShutDown the dirty set never grows and loses exactly one item for each delivery |
| `QueueHistory.QuitMeansDrained` | pkg/forked/workqueue/queue.go:120-139 | when Get says quit and nothing is being processed, nothing is dirty |
| `QueueHistory.MetricsTrackQueue` | pkg/forked/workqueue/metrics.go:79-113 | in every run depth is the size of the dirty set and the two time maps are keyed by the dirty and the processing items |
| `QueueHistory.DepthCounts` | pkg/forked/workqueue/metrics.go:79-113 | depth is the list's length plus the items both dirty and processing |
| `QueueHistory.AddTimesMatchHistory` | pkg/forked/workqueue/metrics.go:79-102 | the time kept of a waiting item is that of its first accepted add since its last delivery |
| `QueueHistory.StartTimesMatchHistory` | pkg/forked/workqueue/metrics.go:91-113 | the time kept of an item in processing is that of its last delivery |
| `QueueWaiters.StepForgetsNobody` | pkg/forked/workqueue/queue.go:87-165 | each call under the lock keeps: if anyone sleeps, the queue is running and no longer than the number of signalled callers on their way |
| `QueueWaiters.NoLostWakeUp` | pkg/forked/workqueue/queue.go:87-165 | hence so in every interleaving of any number of callers; after ShutDown nobody sleeps |
| `QueueWaiters.SleepersHaveNothingToDo` | pkg/forked/workqueue/queue.go:120-128 | no deadlock: with nobody signalled, a sleeper's wait condition really holds |
| `WaitingList.Listed` | pkg/forked/workqueue/delaying_queue.go:72-75 | every known item has its entry, with the known time, in the list |
| `WaitingList.WithoutRepresents` | pkg/forked/workqueue/delaying_queue.go:199-204 | taking out an item's entry keeps list and map in agreement |
| `WaitingList.InsertedRefinesEarliest` | pkg/forked/workqueue/delaying_queue.go:189-220 | the sorted-list insertion refines the plain map that keeps the earlier deadline |
| `WaitingList.DropDueHead` | pkg/forked/workqueue/delaying_queue.go:137-147 | releasing a due first entry keeps agreement and loses nothing that is not due |
| `WaitingList.FirstIsEarliest` | pkg/forked/workqueue/delaying_queue.go:149-153 | the wait for the first entry is the wait for the earliest deadline |
| `DelayingQueues.WaitingSlice.Search` | pkg/forked/workqueue/delaying_queue.go:206-226 | the binary search finds the boundary between earlier and later entries |
| `DelayingQueues.WaitingSlice.FindEntryIndex` | pkg/forked/workqueue/delaying_queue.go:222-237 | always finds the existing entry, also among equal deadlines |
| `DelayingQueues.WaitingSlice.RemoveEntry` | pkg/forked/workqueue/delaying_queue.go:202-202 | the in-place shift removes one position |
| `DelayingQueues.WaitingSlice.ShiftIn` | pkg/forked/workqueue/delaying_queue.go:210-215 | the in-place shift inserts at one position |
| `DelayingQueues.WaitingSlice.Insert` | pkg/forked/workqueue/delaying_queue.go:192-220 | sorted, one entry per item, in agreement with the map; the item's time is the minimum of old and new; the new entry stands behind all of equal time; everything else keeps its order |
| `DelayingQueues.DelayingQueue.AddAfter` | pkg/forked/workqueue/delaying_queue.go:95-115 | nothing after ShutDown; an immediate add without delay; otherwise one more entry in the channel |
| `DelayingQueues.DelayingQueue.ShutDown` | pkg/forked/workqueue/delaying_queue.go:89-93 | shuts the inner queue down, then closes the stop channel; nothing else changes |
| `DelayingQueues.DelayingQueue.ReleaseReady` | pkg/forked/workqueue/delaying_queue.go:135-147 | a pass at time now adds exactly the items due by now to the dirty set, in deadline order, and leaves exactly the later ones |
| `DelayingQueues.DelayingQueue.ReleaseAndArm` | pkg/forked/workqueue/delaying_queue.go:133-153 | what is due goes as a run of the pipeline, and the timer is for the earliest deadline left, with none iff nothing waits |
| `DelayingQueues.DelayingQueue.TreatNext` | pkg/forked/workqueue/delaying_queue.go:165-170 | a received entry is kept with the earlier deadline or, if due, added at once |
| `DelayingQueues.DelayingQueue.DrainChannel` | pkg/forked/workqueue/delaying_queue.go:165-185 | the i-th entry received is treated at the clock's i-th answer: those not due wait with their earliest deadline, the items of the others become dirty, and nothing else |
| `DelayingQueues.DelayingQueue.LoopPass` | pkg/forked/workqueue/delaying_queue.go:122-187 | a whole pass of the loop is a run of the pipeline. On shutdown what waits is discarded and it ends. Otherwise exactly the items due when it began, and those of the entries received that were due when treated, become dirty; what waits afterwards is exactly the rest, each item with its earliest deadline; and the timer is for the earliest deadline left |
| `DelayPipeline.RequestNeverLost` | pkg/forked/workqueue/delaying_queue.go:96-187 | in every run before ShutDown an accepted request keeps its item on the way with a deadline no later than requested until it is added to the inner queue |
| `DelayPipeline.LoopAddsAreJustified` | pkg/forked/workqueue/delaying_queue.go:137-185 | every add by the loop is justified by an earlier request whose deadline has passed |
| `DelayPipeline.StepKeepsPending` | pkg/forked/workqueue/delaying_queue.go:96-187 | before ShutDown only a delivery ends the pending state of an item |
| `DelayPipeline.BurstKeepsEarliest` | pkg/forked/workqueue/delaying_queue.go:96-220 | in every run, the deadline pending after a burst of requests, none of which has led to an addition, is the earliest of those requested since the item last waited nowhere |
| `Wakeups.NeverOversleeps` | pkg/forked/workqueue/delaying_queue.go:117-163 | in every interleaving of loop, callers and clock: while the loop sleeps, the timer fires no later than any waiting deadline, but for the time between reading the clock and starting the timer, and the heartbeat ticks before anything has been expired for ten seconds |
| `Wakeups.WaitingGetsReleased` | pkg/forked/workqueue/delaying_queue.go:122-187 | from every state of every run before ShutDown the loop gets by itself, as time passes, to where a waiting item is in the inner queue |
| `Wakeups.EndsAfterClose` | pkg/forked/workqueue/delaying_queue.go:89-187 | in every run, once the stop channel is closed, the loop comes to its end by itself and every caller blocked on a full channel can leave |
| `RateLimiters.DelayIsCappedBackoffIff` | pkg/forked/workqueue/default_rate_limiter.go:89-108 | the delay after n failures is min(base*2^n, max) if and only if base*2^n is not 2^63 |
| `RateLimiters.CappedDoublingIff` | pkg/forked/workqueue/default_rate_limiter.go:89-108 | so for all n if and only if the base delay is not a power of two |
| `RateLimiters.PowerOfTwoBaseOverflows` | pkg/forked/workqueue/default_rate_limiter.go:96-102 | a base of 1ns answers the most negative duration at the 64th failure |
| `RateLimiters.DelayMonotone` | pkg/forked/workqueue/default_rate_limiter.go:89-108 | delays are positive, never shrink with more failures and stay within the cap |
| `RateLimiters.DelayMonotoneIff` | pkg/forked/workqueue/default_rate_limiter.go:89-108 | delays never shrink with more failures iff the base delay is not a power of two |
| `RateLimiters.DefaultCapReached` | pkg/forked/workqueue/default_rate_limiter.go:39-45 | with 5ms and 1000s the cap is reached from n = 18 on and not before |
| `RateLimiters.TotalUntilCap` | pkg/forked/workqueue/default_rate_limiter.go:89-108 | the delays of the first n calls sum to base*(2^n - 1) up to the cap |
| `RateLimiters.RequeuesCountWhens` | pkg/forked/workqueue/default_rate_limiter.go:89-170 | for every history NumRequeues(x) is the number of When(x) since the last Forget(x) |
| `RateLimiters.AnswerFollowsHistory` | pkg/forked/workqueue/default_rate_limiter.go:89-156 | what When answers after any history, for both per-item limiters |
| `RateLimiters.ItemLimiter.When` | pkg/forked/workqueue/default_rate_limiter.go:54-156 | the answer, and the item's failures counted up by one |
| `RateLimiters.ItemLimiter.Forget` | pkg/forked/workqueue/default_rate_limiter.go:117-170 | the item's failures dropped, all others kept |
| `RateLimiters.MaxOfRateLimiter.When` | pkg/forked/workqueue/default_rate_limiter.go:179-189 | every child asked exactly once; the answer is the least upper bound of theirs and 0 |
| `RateLimiters.MaxOfRateLimiter.NumRequeues` | pkg/forked/workqueue/default_rate_limiter.go:195-205 | the largest of the children's numbers |
| `RateLimiters.MaxOfRateLimiter.Forget` | pkg/forked/workqueue/default_rate_limiter.go:207-211 | every child forgets the item |
| `Bursts.LimiterFollowsAsks` | pkg/forked/workqueue/rate_limiting_queue.go:57-68 | in every run of queue and limiter the limiter is as its history of AddRateLimited and Forget leaves it |
| `Bursts.BurstKeepsFirst` | pkg/util/dirty_reconciler.go:22-24 | in every run under the default limiter, a burst of Dirty calls without a Forget, on a clock that does not go back and with token times that do not go back, leaves the item pending with the deadline of the first call: its time plus the back-off for the calls since the last Forget, or plus the bucket's delay if longer |
| `Reconcilers.RateLimitingQueue.AddRateLimited` | pkg/forked/workqueue/rate_limiting_queue.go:57-60 | every limiter counts the item once and the item is in the channel with the longest answer as its delay; with the default limiter that is the back-off for the calls since the last Forget, or the bucket's delay if longer |
| `Reconcilers.AskingCounts` | pkg/forked/workqueue/default_rate_limiter.go:89-170 | asking counts one more failure of the item, forgetting leaves none, and other items keep theirs |
| `Reconcilers.Reconciler.Dirty` | pkg/util/dirty_reconciler.go:14-24 | under the default limiter a call of Dirty before ShutDown puts the item into the channel with that deadline and changes nothing else in the queue; it is the step AddRateLimited of module Bursts, followed by the sending of its request |
| `Reconcilers.Reconciler.ProcessNextWorkItem` | pkg/util/reconciler.go:33-48 | a turn is a run of the pipeline: the item fetched is in nobody's hands afterwards and no longer dirty; exactly if the reconcile failed before ShutDown it is in the channel again, at now plus the longest of the limiters' answers; its failures are none after a success and one more after an error |
| `Reconcilers.Reconciler.Drain` | pkg/util/reconciler.go:28-48 | after ShutDown the worker ends, even if every reconcile fails, after as many turns as the dirty set has lost, with nothing left unless others are processing |
| `Routes.RouteKeyInjective` | pkg/bgp/store.go:37-41 | equal printed keys mean equal prefix, length and next hop |
| `Routes.DottedInjective` | pkg/bgp/store.go:40-40 | a printed IPv4 address determines the address |
| `RouteStores.StoreStaysConsistent` | pkg/bgp/store.go:59-85 | the cached keys are those announced and not withdrawn, and no call was redundant, whatever fails |
| `RouteStores.RoutesStore.Add` | pkg/bgp/store.go:59-71 | announces and caches a route that is not there; on failure nothing changes |
| `RouteStores.RoutesStore.Delete` | pkg/bgp/store.go:73-85 | withdraws and drops a route that is there; on failure nothing changes |
| `RouteStores.WithdrawalAgreesIff` | pkg/bgp/store.go:73-85 | a withdrawal leaves speaker and stores in agreement if and only if no other store holds the route |
| `RouteStores.StoresMatchSpeaker` | pkg/bgp/store.go:15-85 | with disjoint keys the announced set is the union of the stores after every sequence of operations with failures anywhere |
| `ClusterObjects.StoredIff` | pkg/controller/externalservices.go:71-197 | a key is stored iff some event admitted it and none has evicted it since |
| `ClusterObjects.FirstAdmittedIsStored` | pkg/controller/externalservices.go:143-147 | the stored object is the first admitted one, never replaced by a later one |
| `ClusterObjects.EndpointsStoredIff` | pkg/controller/externalservices.go:154-197 | endpoints are stored iff their last event was an add or update with a ready address |
| `ClusterObjects.NodeStoredIff` | pkg/controller/podsubnets.go:52-81 | a node is stored iff its last event was an add or update with the annotation |
| `ClusterObjects.ServiceStoredIff` | pkg/controller/externalservices.go:113-152 | a service is stored iff some add or update since its last delete had external IPs |
| `ClusterObjects.LastPodEventDecidesIff` | pkg/controller/externalservices.go:71-111 | for proxies such a last event decides iff the pod has not left the host while stored |
| `ClusterObjects.PodStoredIff` | pkg/controller/apiservers.go:61-102 | a pod that stays on its host is stored iff its last event was an add or update of a ready pod with the prefix, in the system namespace and on the host |
| `ClusterObjects.MovedPodStaysStored` | pkg/controller/externalservices.go:87-89 | a pod reported from another host stays stored |
| `ReconcilePass.StepKeepsFiled` | pkg/controller/externalservices.go:199-231 | whatever handlers do meanwhile, routes stay filed under their own keys and a listed key still holds the listed route |
| `ReconcilePass.StepKeepsProgress` | pkg/controller/externalservices.go:199-231 | over unchanged stores each step keeps what the pass has achieved: stale routes still listed for deletion, then all live, then all wanted keys of the pairs done |
| `PassResults.SuccessfulPass` | pkg/controller/externalservices.go:199-231 | an error-free pass ends, for every listing order, with exactly the desired keys and the keys of old routes whose own proxy and service are live |
| `PassResults.SuccessfulPassStable` | pkg/controller/externalservices.go:199-231 | with stable attributes that is the desired set |
| `PassResults.SuccessfulPassExactIff` | pkg/controller/externalservices.go:199-231 | without, it is the desired set iff every live old route still has a desired key |
| `PassResults.PassKeepsGoal` | pkg/controller/externalservices.go:199-231 | a pass, failed or not, does not change what a later success ends with |
| `PassResults.RetriesReachSameKeys` | pkg/controller/externalservices.go:199-231 | any number of failed passes and then a success end with the keys of a single success |
| `PassResults.SecondPassIsQuiet` | pkg/controller/externalservices.go:199-231 | after a success a further pass makes no call and cannot fail |
| `PassResults.StepKeepsOnceEach` | pkg/controller/externalservices.go:200-218 | whatever handlers do meanwhile, each step keeps the calls of the pass free of repetition |
| `PassResults.NoCallTwice` | pkg/controller/externalservices.go:200-218 | no pass withdraws or announces a route twice, despite up to three Delete calls |
| `ExternalServices.ExternalServicesController.PodAdd` | pkg/controller/externalservices.go:80-107 | a pod with the prefix, in the system namespace and on the host is stored afterwards iff it is ready, and any other pod changes nothing; Dirty exactly when membership changes; the stores move as the interleaved system has it |
| `ExternalServices.ExternalServicesController.PodDelete` | pkg/controller/externalservices.go:71-78 | likewise for a deletion |
| `ExternalServices.ExternalServicesController.ServiceAdd` | pkg/controller/externalservices.go:120-148 | likewise for services: only an absent one with external IPs is admitted |
| `ExternalServices.ExternalServicesController.ServiceDelete` | pkg/controller/externalservices.go:113-118 | the service goes, and Dirty is called in any case |
| `ExternalServices.ExternalServicesController.EndpointsAdd` | pkg/controller/externalservices.go:164-193 | endpoints are stored afterwards iff some subset has a ready address |
| `ExternalServices.ExternalServicesController.EndpointsDelete` | pkg/controller/externalservices.go:154-162 | likewise for a deletion |
| `ExternalServices.ExternalServicesController.Reconcile` | pkg/controller/externalservices.go:199-231 | the code is a run of the pass machine. After a success every stored service with endpoints has its first external IP announced via every proxy's host, every route's own proxy, service and endpoints are stored, and the keys are exact; in any case live routes are kept and only wanted ones added, with no call twice |
| `ObjectRoutes.ObjectRoutesController.Reconcile` | pkg/controller/podsubnets.go:83-99 | on success exactly the stored objects' keys and those of old routes whose object is stored; in any case those are kept and only wanted keys are added |
| `ObjectRoutes.PodSubnetsController.constructor` | pkg/controller/podsubnets.go:22-41 | a controller of annotated nodes, with nothing stored or announced |
| `ObjectRoutes.PodSubnetsController.NodeAdd` | pkg/controller/podsubnets.go:52-69 | the node is stored afterwards iff it is annotated, and no other changes; Dirty exactly when the store changes |
| `ObjectRoutes.PodSubnetsController.NodeDelete` | pkg/controller/podsubnets.go:75-81 | likewise for a deletion |
| `ObjectRoutes.PodSubnetsController.Reconcile` | pkg/controller/podsubnets.go:83-99 | after a success every stored node has its pod subnet announced via its internal address, and nothing else is announced if announced nodes that are still stored keep both |
| `ObjectRoutes.HostPodsController.OfServiceSubnet` | pkg/controller/servicesubnet.go:28-47 | its pods on the host all have the route of the service subnet via the host |
| `ObjectRoutes.HostPodsController.OfAPIServers` | pkg/controller/apiservers.go:31-50 | its pods on the host all have the route of the master IP via the host |
| `ObjectRoutes.HostPodsController.PodAdd` | pkg/controller/servicesubnet.go:67-93 | a pod with the prefix, in the system namespace and on the host is stored afterwards iff it is ready, and any other pod changes nothing; Dirty exactly when the store changes |
| `ObjectRoutes.HostPodsController.PodDelete` | pkg/controller/apiservers.go:61-69 | likewise for a deletion |
| `ObjectRoutes.HostPodsController.Reconcile` | pkg/controller/apiservers.go:104-120 | all pods on the host share one route, announced after a success iff some pod is stored, without any hypothesis |
| `Convergence.StepKeepsOnItsWay` | pkg/util/reconciler.go:33-48 | every step but the fetch keeps the request on its way; Dirty and a failed pass put it there |
| `Convergence.NothingLost` | pkg/util/reconciler.go:33-48 | in every run before ShutDown an unanswered Dirty or failed reconcile is in flight, in the channel, in the loop's hands, waiting or dirty, or about to be requeued |
| `Convergence.StepKeepsInv` | pkg/util/reconciler.go:33-48 | for every lawful controller, every step of handlers, queue and worker keeps: a pass is still due, or the routes are as far along as a pass over the present stores would have brought them |
| `Convergence.QuietMeansSettled` | pkg/util/reconciler.go:33-48 | for every lawful controller and every run before ShutDown, when all is quiet the route store is as a successful pass over the present stores leaves it |
| `NeverStuck.CleanStepCloser` | pkg/util/reconciler.go:20-48 | every step but an event or a failure leaves less to do |
| `NeverStuck.NextMove` | pkg/util/reconciler.go:28-48 | whatever is not quiet has such a step to take |
| `NeverStuck.QuietIffAtRest` | pkg/util/reconciler.go:28-48 | to be quiet is to have no step of one's own left |
| `NeverStuck.SettlesInevitably` | pkg/util/reconciler.go:20-48 | so from wherever a run has come, once events and failures cease, every schedule comes to rest, with the routes settled |
| `NeverStuck.CanAlwaysSettle` | pkg/util/reconciler.go:20-48 | and every run before ShutDown has such a continuation to rest |
| `AirTime.OnAirIff` | pkg/controller/externalservices.go:199-231 | in every run a route is in the store iff some pass has filled it and no sweep has found its objects gone since |
| `ExternalConvergence.ExternalIsLawful` | pkg/controller/externalservices.go:71-231 | handlers change nothing without calling Dirty, passes make progress over unchanged stores, whatever interrupts them, and keep what always holds |
| `ExternalConvergence.ExternalTerminates` | pkg/controller/externalservices.go:199-231 | a pass that has not ended can go on, and every step that does not fail leaves less to do, while handlers go on changing the stores |
| `ExternalConvergence.QuietMeansRoutesSettled` | pkg/controller/externalservices.go:71-231 | in every run before ShutDown, when all is quiet every wanted route is on the air and every route on the air has its own proxy, service and endpoints stored |
| `ExternalConvergence.QuietMeansConverged` | pkg/controller/externalservices.go:71-231 | and the routes on the air are exactly the desired ones if a service takes a new first external IP only when store, route store and listing no longer mention it |
| `ExternalConvergence.StableMeansConverged` | pkg/controller/externalservices.go:71-231 | in particular if no service ever changes its first external IP |
| `ExternalConvergence.RestForgets` | pkg/controller/externalservices.go:113-231 | a service deleted before a rest is mentioned nowhere, so that it may come back with any address |
| `ExternalHistory.QuietConvergedIff` | pkg/controller/externalservices.go:71-231 | whatever services do, that is so iff every key some pass has filled and no sweep has found gone since has a prefix that is still wanted |
| `ExternalHistory.RouteLeaks` | pkg/controller/externalservices.go:113-231 | a run from the start that comes to rest with a route on the air that nothing asks for: its service was deleted and created anew with another IP |
| `ExternalHistory.NoCallTwiceInterleaved` | pkg/controller/externalservices.go:199-231 | no pass announces or withdraws a route twice, whatever the handlers do meanwhile |
| `ObjectPass.StepKeepsProgress` | pkg/controller/podsubnets.go:83-99 | over an unchanged store each step keeps what the pass has achieved |
| `ObjectPass.SuccessfulPass` | pkg/controller/podsubnets.go:83-99 | an error-free pass ends, for every listing order, with the stored objects' keys and those of old routes whose object is stored |
| `ObjectPass.SuccessfulPassExactIff` | pkg/controller/podsubnets.go:83-99 | that is exact iff every old route whose object is stored has the key of some stored object |
| `ObjectConvergence.SingleIsLawful` | pkg/controller/podsubnets.go:52-99 | the controllers of one object store are lawful too |
| `ObjectConvergence.SingleTerminates` | pkg/controller/podsubnets.go:83-99 | and their passes end |
| `ObjectConvergence.QuietConvergedIff` | pkg/controller/podsubnets.go:52-99 | in every run before ShutDown, when all is quiet the routes on the air are those of the stored objects iff every key filled and not found gone since is the route of a stored object |
| `ObjectConvergence.PodSubnetsConverge` | pkg/controller/podsubnets.go:52-99 | that is so if a node takes a new subnet or address only when store, route store and listing no longer mention it: on the air is exactly each stored node's pod subnet via its internal address |
| `ObjectConvergence.StablePodSubnetsConverge` | pkg/controller/podsubnets.go:52-99 | in particular if no node ever changes them |
| `ObjectConvergence.RestForgets` | pkg/controller/podsubnets.go:75-99 | an object dropped before a rest is mentioned nowhere, so that it may come back with any route |
| `ObjectConvergence.NodeLeaks` | pkg/controller/podsubnets.go:52-99 | a run from the start that comes to rest with a route nothing asks for: its node was deleted and came back with another subnet or address |
| `ObjectConvergence.ServiceSubnetConverges` | pkg/controller/servicesubnet.go:58-115 | whenever all is quiet the service subnet is on the air iff a proxy is stored, whatever the pods do |
| `ObjectConvergence.APIServersConverge` | pkg/controller/apiservers.go:61-120 | likewise the master address, iff an API server is stored |
| `Parrot.SpeakerMatchesStores` | pkg/parrot/parrot.go:47-58 | in every run of the four controllers, whatever services and nodes do with their addresses, over a plan in which no two controllers have a route in common, the speaker announces exactly what the four stores hold, and no two hold the same |
| `Parrot.QuietMeansConverged` | pkg/parrot/parrot.go:47-58 | and when all four are quiet, exactly the union of what each is asked for, if addresses are taken anew only when the old ones are forgotten |
| `Parrot.ConvergesInevitably` | pkg/parrot/parrot.go:81-105 | once events and failures cease, every schedule of the four comes to announce exactly what the cluster asked for when they ceased |
| `Clashes.OverlapDisagrees` | pkg/parrot/parrot.go:47-58 | for every plan with an overlap a run from the start after which the speaker does not announce what a store holds: both controllers bring the route up, one takes it down |
| `Clashes.AgreesIffDisjoint` | pkg/bgp/store.go:59-85 | so speaker and stores agree in every run iff no two controllers have a route in common |
| `FakeClocks.NextTargetIsLeast` | pkg/forked/clock/glock.go:161-166 | a ticker's new target is the least old target plus a multiple of the interval beyond t |
| `FakeClocks.Rearm` | pkg/forked/clock/glock.go:162-164 | the re-arming loop ends, at that target |
| `FakeClocks.RemainingAreLater` | pkg/forked/clock/glock.go:145-173 | after any change of time to t every remaining waiter's target is later than t |
| `FakeClocks.RemainingComesFrom` | pkg/forked/clock/glock.go:145-173 | what remains are waiters not due and tickers, unchanged but for the target |
| `FakeClocks.NobodyForgotten` | pkg/forked/clock/glock.go:145-173 | every waiter not due and every ticker remains, in order |
| `FakeClocks.DeliverAt` | pkg/forked/clock/glock.go:148-159 | a channel gets the time exactly when its waiter is due and its buffer is free |
| `FakeClocks.AfterFiresIff` | pkg/forked/clock/glock.go:103-113 | a channel got by After fires once, iff the time set is late enough |
| `FakeClocks.TickFiresAndStays` | pkg/forked/clock/glock.go:115-128 | a ticker fires when due and goes on waiting for its next target |
| `FakeClocks.SetTimeKeepsValid` | pkg/forked/clock/glock.go:145-173 | waiters keep channels of their own and unfired one-shot channels stay unused |
| `FakeClocks.OneShotGetsOneValue` | pkg/forked/clock/glock.go:103-173 | over the whole run each one-shot channel gets at most one value, and a pending one is empty, so its blocking send does not block |
| `FakeClocks.FakeClock.SetTimeLocked` | pkg/forked/clock/glock.go:145-173 | the clock says t, and the two nested loops compute exactly the stated waiters and channels |
| `FakeClocks.FakeClock.Step` | pkg/forked/clock/glock.go:130-135 | the clock says its old time plus d, and is as SetTime would leave it |
| `FakeClocks.TimeIsLastSet` | pkg/forked/clock/glock.go:130-146 | in every run the clock says what it was last set to plus the Steps since |
| `FakeClocks.AfterDeliversIff` | pkg/forked/clock/glock.go:103-173 | in every run a channel got by After(d) has received its one value iff the time was later set to at least d beyond what it was then, and is empty until then |
| `FakeClocks.FakeClock.Notify` | pkg/forked/clock/glock.go:152-159 | the blocking send finds its buffer empty |

## Left out

- gobgp itself: an announcement that replaces another one for the same prefix with a different next hop is not modelled; among the external, service-subnet and API-server routes all next hops are the host's.
- `cmd/parrot`, `pkg/bgp/server.go` and most of `pkg/parrot`: flags, signals, logging and calls into gobgp; nothing to prove.
- `pkg/forked/informer`: replaced by arbitrary sequences of events; tombstones in delete handlers and malformed addresses are excluded.
- Pod readiness is a boolean, and an unassigned host IP is any address but the host's.
- `BucketRateLimiter` wraps a library that is not part of this model: its answer is any non-negative delay.
- Prometheus registration, latency values and the retry counter; `RealClock`, `IntervalClock`; the fake clock's Now, Since and HasWaiters, which only read.
- Time and counters are unbounded integers: wrap-around of a time plus a duration, or of a failure count, is not modelled.
- `RateLimiters.DelayIsCappedBackoffIff`, `CappedDoublingIff`, `DelayMonotone`, `DelayMonotoneIff`, `TotalUntilCap`: stated for base delays from 1 to 2^53 - 1 nanoseconds, where the conversion to floating point is exact; the out-of-range conversion is that of amd64, which the language leaves open.
- `RateLimiters.MaxOfRateLimiter.When`, `RateLimiters.MaxOfRateLimiter.Forget`: the children are distinct objects; a limiter listed twice would be asked twice. Nested maxima would only repeat the same statement.
- `WorkQueues.WorkQueue.Get`: the part after the wait loop; waiting itself is the subject of `QueueWaiters`.
- `DelayingQueues.DelayingQueue.AddAfter`: the case in which the send does not have to wait for room in the channel; a waiting send is a step of its own in `DelayPipeline`.
- `DelayingQueues.DelayingQueue.ShutDown`: a second call, which would close a closed channel, is excluded.
- `DelayingQueues.DelayingQueue.LoopPass`: one pass without a send or a shutdown during its wait; these are steps of `Wakeups`.
- `Reconcilers.RateLimitingQueue.AddRateLimited`, `Reconcilers.Reconciler.ProcessNextWorkItem`: as for AddAfter, the case in which the channel has room.
- `Bursts.BurstKeepsFirst`: stated for a base delay that is not a power of two, as the default is not; with a power of two the delay overflows, and after a Forget it starts again, so that later calls may bring the item forward.
- Liveness under failures or events that never cease cannot hold; `SettlesInevitably` and `ConvergesInevitably` are about what follows once they do.
