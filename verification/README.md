# Verified model of minikubernetes

This project models the state machines and reconcilers of a small Kubernetes written in Go and proves, with
Dafny 4.11, what they guarantee together. The store, the container runtime, IPVS and the clock appear as plain
abstract state: a map, a snapshot, a set of servers and routes, a number that does not go back.

`dafny verify dfyconfig.toml` checks everything.

| file | what it models |
|---|---|
| `PodWorkers.dfy` | the kubelet's watcher, main loop, per-pod workers, bounded channels and mutex as interleaved steps |
| `KubeletDeadlock.dfy` | which sequences of polls can deadlock the kubelet, and which cannot |
| `KubeletEvents.dfy` | what each worker is sent, told from polls, additions, deletions and events alone |
| `KubeletServer.dfy` | the poll diff that feeds the main loop, and the two together |
| `KubeletTypes.dfy`, `StatusCache.dfy` | the kubelet's shared types; the pod status cache, its retrying lookup, and the worker that reads it with a freshness bound |
| `Pleg.dfy` | runtime snapshots turned into lifecycle events and cache entries |
| `ProxyServer.dfy` | the service proxy's poll: desired endpoints and their diff |
| `Proxy.dfy` | IPVS, and the handlers that apply a diff to it |
| `ProxyRuns.dfy` | whole runs of the proxy against the table built from scratch |
| `ProxyTable.dfy` | the kernel's table after a run, told in services, pods and numbers alone |
| `Traffic.dfy` | pilot's integer weights, envoy's weighted draw, and the share they give each subset |
| `SidecarMapping.dfy` | pilot's iteration: from services, pods and virtual services to the published mapping |
| `SidecarTable.dfy` | the published mapping, told in services, virtual services, stored subsets and pods alone |
| `RollingUpdate.dfy` | pilot's batch-by-batch replacement of a service's pods |
| `BitmapAllocator.dfy`, `Decimal.dfy`, `Strings.dfy`, `Wrappers.dfy` | the bitmap allocators, and the numbers and strings they and the keys rely on |
| `ServiceRegistry.dfy` | the API server's service handlers over names, services and the address bitmap |
| `ServiceRuns.dfy` | what the service handlers store and answer, told in the requests' fields, over runs |
| `Placement.dfy` | pods, nodes and the node-to-pod mappings with their real keys |
| `PlacementRuns.dfy` | where a pod is reported after any run of requests, and what is stored |
| `ReplicaSets.dfy` | one pass of the replica set controller, and later passes |
| `Autoscaler.dfy` | the horizontal autoscaler's decisions and cooldown as a closed loop |
| `AutoscalerAsks.dfy` | what a turn writes, told in ratios, policies and counts |
| `MetricsStore.dfy` | the bounded, sorted metrics series and its window queries |

Code that updates state in place is modelled by classes and methods with loops; each method's contract ties the new
state to a specification function or relation, and the lemmas about runs are stated over those. What the runs lead to
is then told once more without the handlers' own helper functions, in constructors, fields and numbers. The kubelet's
goroutines are a transition system, so that every interleaving is covered; its `LifecycleEvent` carries the pod's UID
and whether the event says that a container died.

Where the code does not keep what one would expect, the model keeps the code and says exactly what happens:

- Polls without duplicates can deadlock the kubelet if and only if some pod UID is listed, then missing, then listed
  again (`KubeletDeadlock.DeadlockIffUidReturns`): its old worker still has to kill the pod when events for it come in.
  Likewise the workers are sent exactly what events and deletions ask for in every interleaving if and only if no UID
  does (`KubeletEvents.AccountedIffNoUidReturns`).
- The proxy sends additions before deletions. A poll between two snapshots that make sense by themselves is exact if and
  only if no server of an added service is claimed by a deleted one (`ProxyRuns.PollIsExactIff`); otherwise that server
  is lost (`ProxyRuns.ReusedAddressIsLost`).
- Port lists are compared after an unstable sort by number, which is exact if and only if no number names two
  different entries (`ProxyServer.ComparisonExactIffNoClash`).
- The kubelet's status cache holds exactly the pods of the last relist if and only if every pod that vanished had been
  fetched since it appeared (`Pleg.CacheHoldsSnapshotIff`); otherwise an error entry stays (`Pleg.FailedFetchGoesStale`).
- A service deletion frees the address first: it keeps the registry safe if and only if it is not cut off between its
  writes (`ServiceRegistry.DeleteKeepsSafeIff`). A failed read of the bitmap starts it afresh; `ServiceRegistry.AddKeepsSafeIff`
  says exactly when an add is safe all the same. An add cut off after its first write leaks an address
  (`ServiceRegistry.AddKeepsTightIff`).
- Namespace and name of a pod are joined by an underscore in its mapping's key, so scheduling a pod unschedules another
  one of the same node if and only if their joined names agree (`Placement.SchedulingDisplacesIff`).
- `RegisterNode` reports an invalid address and carries on (`Placement.RegisterKeepsNames`); a nameless pod is indexed
  under the default name but keeps its empty one.
- A turn of the autoscaler takes a count out of its bounds if and only if a metric asks to scale down to more than the
  maximum, or to scale up to something positive below the minimum while no other asks for more
  (`Autoscaler.TurnInBoundsIff`); a percent policy whose product wraps around does either
  (`Autoscaler.WrappedPercentLeavesBounds`). An overflowing sum asks for a negative count, which is dropped.
  Despite its default policies a turn crashes if and only if something matches and a supported metric leaves its
  tolerance on a side whose behaviour is missing (`Autoscaler.CrashIff`).
- Metrics queries cut the stored series down to the window they return: the next query of the pod is complete if and
  only if no stored sample lies in its window only (`MetricsStore.FirstQueryHarmlessIff`). The autoscaler's downscale query
  follows its upscale query and so reads what lies in both periods (`MetricsStore.SecondAnswer`). Saving a batch panics if
  and only if an item has containers for a pod stored without any (`MetricsStore.SavePanicsIff`).
- While a rolling update's virtual service is there envoy can draw if and only if the int32 sum of the weights is
  positive, which without overflow means that some available pod has an endpoint (`RollingUpdate.TrafficIff`). Given that
  the available pods have theirs, every round has traffic if and only if `MinimumAlive` is positive
  (`RollingUpdate.EveryRoundHasTrafficIff`). But a re-created pod is pending first (`RollingUpdate.PendingPodStopsTraffic`),
  large rounds overflow (`RollingUpdate.LargeRoundStopsTraffic`), and every update blocks its first batch before it makes
  anybody available (`RollingUpdate.FirstBlockStopsTraffic`): in each case envoy's draw panics.

## Model

| member | source | states |
|---|---|---|
| PodWorkers.StepKeepsInv | pkg/kubelet/pod_workers.go:48-102 | every step of watcher, main loop or any worker keeps the joint invariant of channels, mutex, UID table and histories |
| PodWorkers.ReachableInv | pkg/kubelet/kubelet.go:80-169 | the joint invariant of channels, mutex, UID table and histories holds after every run in which no UID is re-added and polls hold no duplicates |
| PodWorkers.BlockedWorkerCanStep | pkg/kubelet/pod_workers.go:48-102 | deadlock freedom: whenever the main loop is blocked on a full channel with the mutex held, that channel's worker can step without the mutex and two such steps let the send through |
| PodWorkers.WorkerHistories | pkg/kubelet/pod_workers.go:48-102 | each UID has one worker, whose history starts with its only Create and holds at most one Kill, at the end; its queue is the part not yet taken, and no accepted item is abandoned by a stopped worker (which items lie between is in KubeletEvents) |
| PodWorkers.KubeletCanAlwaysDrain | pkg/kubelet/pod_workers.go:77-102 | from every reachable state the goroutines alone can reach one where every accepted item is handled and the mutex is free |
| KubeletDeadlock.DeadlockIffUidReturns | pkg/kubelet/kubelet.go:135-169 | for every sequence of polls without duplicates, some interleaving of watcher, main loop, workers and events that takes a prefix of them gets stuck if and only if some UID is listed, then missing, then listed again |
| KubeletDeadlock.NoReturnNoDeadlock | pkg/kubelet/pod_workers.go:48-102 | as long as no UID comes back no interleaving is ever stuck |
| KubeletDeadlock.StuckForever | pkg/kubelet/pod_workers.go:48-75 | in every reachable state in which the main loop waits for room with the mutex in its hand and that worker waits for the mutex, no continuation frees either |
| KubeletEvents.WorkersAreSentEvents | pkg/kubelet/kubelet.go:80-169 | in every run with fresh UIDs what a worker has been sent, with the one item on its way, is a Create once its addition was handled, then in order one item per event of the pod taken while it was known, Recreate exactly for a died event of a pod with policy Always and Sync otherwise, then a Kill once its deletion was handled |
| KubeletEvents.KnownPodsAreListed | pkg/kubelet/app/server.go:106-149 | in every run the pod an event is judged by is the one that the last poll before its last reception as added listed |
| KubeletEvents.WorkersOnlyHeedEvents | pkg/kubelet/pod_workers.go:48-102 | in every run, also when UIDs return, what a worker is sent besides creations and ends is a subsequence of what the events of its UID asked for |
| KubeletEvents.AccountedIffNoUidReturns | pkg/kubelet/kubelet.go:80-169 | for polls without duplicates every interleaving sends every worker exactly the above if and only if no UID is listed, missing and listed again |
| KubeletServer.Watcher.UpdateLocalPods | pkg/kubelet/app/server.go:106-149 | a successful poll sends the pods new by UID, then those gone, skipping empty batches; a failed one sends nothing and keeps the old list |
| KubeletServer.UpdatesTrackPolls | pkg/kubelet/app/server.go:106-149 | over any run of polls, whoever applies the updates in order knows exactly the UIDs of the last poll |
| KubeletServer.Watcher.WatchApiServer | pkg/kubelet/app/server.go:90-149 | over any number of ticks what is kept and what was sent is explained by the successful polls alone |
| KubeletServer.RunMatchesWatcher | pkg/kubelet/app/server.go:106-149 | in every interleaving the updates of the polls are those the main loop has received followed by those on their way; between batches the pod manager holds exactly the UIDs received, and with nothing on its way those of the last poll |
| StatusCache.Cache.GetNewerThan | pkg/kubelet/runtime/cache.go:51-78 | at most three looks, every exit with the read lock released, and the answer of the first conclusive look under any writes during the naps |
| StatusCache.AnswerIffFound | pkg/kubelet/runtime/cache.go:51-78 | under any writes between the looks an entry is answered exactly when some look finds it stamped no earlier than asked for and no earlier look found anything; likewise a missing entry in a cache as a whole no older; and not newer exactly when no look finds anything |
| StatusCache.ActsIffFound | pkg/kubelet/pod_workers.go:77-102 | a Sync or Recreate is carried out with a status if and only if the first thing its looks find is an entry without an error |
| StatusCache.Cache.Set | pkg/kubelet/runtime/cache.go:80-88 | an entry is replaced unless the stored one is newer |
| StatusCache.WorkerLoop | pkg/kubelet/pod_workers.go:77-102 | the worker acts on exactly the statuses the specification of its turns says, and a failed lookup leaves its last sync time alone |
| StatusCache.TurnIsFresh | pkg/kubelet/runtime/cache.go:51-78 | a status acted on was written no earlier than the end of the worker's previous sync |
| StatusCache.StatusesAreFresh | pkg/kubelet/pod_workers.go:77-102 | over every run and interleaving of writers, the write times a worker acts on never go back |
| Pleg.ComputeEvents | pkg/kubelet/pleg/pleg.go:179-226 | the events hold, for each container of either snapshot and no other, exactly those of its change of the runtime's own state: Started when it is now running, Died when now exited, Removed when now gone, after a Died unless it had exited; created and unknown count as the same |
| Pleg.PLEG.SetCurrentPods | pkg/kubelet/pleg/pleg.go:164-177 | every record's current side becomes the snapshot's pod with its ID, or nothing |
| Pleg.PLEG.UpdateCache | pkg/kubelet/pleg/pleg.go:258-277 | a vanished pod's entry is deleted, another one's is set to what was fetched, errors included |
| Pleg.PLEG.Relist | pkg/kubelet/pleg/pleg.go:97-142 | records, cache and sent events after a relist, pod by pod and, by the runtime's states, container by container, failed fetches included, in any map order |
| Pleg.LifecycleEvents | pkg/kubelet/pleg/pleg.go:97-142 | over any run the last event sent for a container is Started if the runtime's recorded listing has its first container of that id running, Died if exited, and Removed, if any was sent, if it has none; and every Removed directly follows a Died |
| Pleg.RemovedIsLate | pkg/kubelet/pleg/pleg.go:200-225 | over any run every Removed sent for a container has a Died before it that is later than its last Started |
| Pleg.RelistAgreement | pkg/kubelet/pleg/pleg.go:122-142 | after a relist a record has the runtime states of the snapshot, created and unknown taken together, if and only if it already did, the pod is gone, or its status was fetched |
| Pleg.CacheHoldsSnapshotIff | pkg/kubelet/pleg/pleg.go:97-142 | after any run, failing fetches included, the cache holds exactly the last snapshot's pods if and only if every pod that vanished had its status fetched in some relist since it appeared |
| Pleg.FailedFetchGoesStale | pkg/kubelet/pleg/pleg.go:122-132 | a new pod whose fetch fails and that is gone at the next relist leaves an error entry |
| Pleg.StaleForever | pkg/kubelet/pleg/pleg.go:111-120 | such an entry stays while the pod stays away |
| Pleg.ContainerlessIsEmptied | pkg/kubelet/pleg/pleg.go:97-226 | a pod listed without containers (the runtime lists none) changes nothing if none was recorded; else it has an entry, and if it was fetched the last events of its recorded containers are sent and the listing is recorded |
| ProxyServer.IsEndpointPortsEqual | pkg/kubeproxy/app/server.go:411-427 | true only for equal multisets of ports, and for all such when no number is ambiguous; both lists are only reordered |
| ProxyServer.ComparisonExactIffNoClash | pkg/kubeproxy/app/server.go:411-427 | any two orders sorted by number agree if and only if no number names two different entries |
| ProxyServer.CalculateDiff | pkg/kubeproxy/app/server.go:230-277 | the operation, and deletions and additions that form a diff of the two address maps; it is empty exactly when no difference is reported for a known service |
| ProxyServer.DiffRestores | pkg/kubeproxy/app/server.go:252-275 | applying the deletions and then the additions to the old map gives the new one up to port order |
| ProxyServer.EmptyDiffIffSame | pkg/kubeproxy/app/server.go:252-276 | an empty diff means equal maps up to port order, and with unambiguous ports the converse holds |
| ProxyServer.PodPorts | pkg/kubeproxy/app/server.go:148-162 | a pod's endpoint ports are the service's target ports that one of its containers exposes with that protocol |
| ProxyServer.EndpointAddresses | pkg/kubeproxy/app/server.go:136-168 | a service's endpoint addresses are exactly those of running selected pods that have one |
| ProxyServer.IsSelectorMatched | pkg/kubeproxy/app/server.go:221-228 | true exactly when every selector key is a label with that value |
| ProxyServer.ProxyServer.UpdateService | pkg/kubeproxy/app/server.go:120-219 | a poll replaces the snapshot by the desired one and sends additions, deletions and endpoint updates, one per service concerned; a failed one does nothing |
| Ipvs.Kernel.DeleteVirtual | pkg/kubeproxy/route/ipvs.go:181-202 | deleting a server drops its destinations |
| Ipvs.Kernel.AddRoute | pkg/kubeproxy/route/ipvs.go:155-179 | a destination is added to an existing server only, and reports an error when it is there already |
| Proxy.Proxy.HandleServiceAdditions | pkg/kubeproxy/proxy.go:357-406 | the table after any list of additions, ports whose server cannot be reserved included; which servers and routes those are is in ProxyTable.TableServesPods |
| Proxy.Proxy.HandleServiceDeletions | pkg/kubeproxy/proxy.go:408-434 | the table after any list of deletions |
| Proxy.Proxy.HandleServiceEndpointsUpdate | pkg/kubeproxy/proxy.go:436-485 | the table after any list of endpoint updates |
| Proxy.Proxy.SyncLoop | pkg/kubeproxy/proxy.go:106-137 | the table after everything received is consumed in order |
| ProxyRuns.ReserveAll | pkg/kubeproxy/proxy.go:364-382 | when nothing it claims is taken, a service reserves exactly its servers and complete reverse port maps |
| ProxyRuns.AddKeeps | pkg/kubeproxy/proxy.go:357-406 | handling an addition keeps the table equal to what the services handled so far want |
| ProxyRuns.DeleteKeeps | pkg/kubeproxy/proxy.go:408-434 | handling a deletion removes exactly that service's servers and routes |
| ProxyRuns.UpdateKeeps | pkg/kubeproxy/proxy.go:436-485 | applying an endpoint diff turns the routes wanted before into those wanted now, and touches no other service |
| ProxyRuns.IncrementalIsFromScratch | pkg/kubeproxy/app/server.go:120-277 | after any run of steady polls, fully consumed, the table is the one a fresh proxy builds from the last snapshot (what that table holds is in ProxyTable.TableServesPods) |
| ProxyRuns.RunsExist | pkg/kubeproxy/app/server.go:120-219 | every sequence of steady snapshots has a run of announced batches |
| ProxyRuns.PollIsExactIff | pkg/kubeproxy/app/server.go:201-219 | one poll between snapshots each consistent by itself, with unchanged specs, leads to the table of the new one, which is the from-scratch one, if and only if no server an added service has is claimed by a deleted one |
| ProxyRuns.ReusedAddressIsLost | pkg/kubeproxy/app/server.go:201-219 | a server that changes hands within one poll is missing afterwards, whatever the table was |
| ProxyRuns.ReuseHappens | pkg/kubeproxy/app/server.go:201-219 | two services that follow each other under one valid address are such a case |
| ProxyTable.TableServesPods | pkg/kubeproxy/proxy.go:357-485 | after any run of steady polls the table holds exactly a server at (cluster IP, port mod 65536), and for a NodePort service at (host, node port mod 65536), per port of a service with a valid address, UDP for the Udp ports and TCP for all others; and exactly the routes from these to (address, target port mod 65536) of running selected pods one of whose containers opens that target port with that protocol |
| ProxyTable.AddressIff | pkg/kubeproxy/route/ipvs.go:124-153 | the addresses the kernel takes are exactly four numbers below 256 in decimal, joined by dots |
| Traffic.Calculate | pkg/microservice/pilot/pilot.go:530-542 | each result is the configured weight times the other nonzero sizes, modulo 2^32 |
| Traffic.ProductSplits | pkg/microservice/pilot/pilot.go:530-542 | a nonempty subset's factor times its own size is the product of all nonzero sizes |
| Traffic.GetDestinationWithWeight | pkg/microservice/envoy/envoy.go:168-186 | the error for a missing weight, the panic for a total that is not positive, else the endpoint of the first slot the draw falls into |
| Traffic.HitsIffInInterval | pkg/microservice/envoy/envoy.go:178-184 | a draw hits a slot if and only if it lies between the weights before it and those up to it |
| Traffic.TrafficShare | pkg/microservice/pilot/pilot.go:291-335 | whichever listed pods have endpoints: of all possible draws a subset gets its weight times the other nonzero listed sizes for each endpoint it has, and each of its endpoints the same |
| Traffic.ShareIsProportional | pkg/microservice/pilot/pilot.go:530-542 | the share times the listed size is the configured weight times the product of all sizes times the endpoints; with one endpoint per listed pod it is the weight times that product |
| Traffic.DrainedSubsetsGetNothing | pkg/microservice/envoy/envoy.go:168-186 | every draw finds a destination and none is at an endpoint of a subset of weight 0 |
| SidecarMapping.FullPortRoundTrip | pkg/microservice/pilot/pilot.go:544-554 | splitting a joined UID and port gives them back, for every UID without an underscore |
| SidecarMapping.AddressInjective | pkg/microservice/pilot/pilot.go:337-338 | an address-and-port key determines both |
| SidecarMapping.GetEndpoints | pkg/microservice/pilot/pilot.go:449-491 | endpoints by service and pod name, the last of same-named pods winning |
| SidecarMapping.NamedEndpointsAre | pkg/microservice/pilot/pilot.go:449-491 | with distinct pod names exactly the running selected pods are listed, each with its address and ports |
| SidecarMapping.MapVirtualServices | pkg/microservice/pilot/pilot.go:238-340 | the mapping and marks after all virtual services, or the first failure or crash |
| SidecarMapping.SyncLoopIteration | pkg/microservice/pilot/pilot.go:219-431 | the result of an iteration for every input: failure, crash, or virtual services first and defaults for every port they leave |
| SidecarMapping.CompleteMapping | pkg/microservice/pilot/pilot.go:219-431 | for sound inputs the mapping has exactly one key per service port, from the last virtual service that claims it or else its defaults |
| SidecarMapping.DefaultsListPods | pkg/microservice/pilot/pilot.go:357-427 | default entries are one weight-1 entry for each running selected pod exposing the port, and no other |
| SidecarMapping.ClaimedEntryAt | pkg/microservice/pilot/pilot.go:260-335 | every pod a subset lists has its own entry, with its subset's URL or weight, in the subsets' order |
| SidecarMapping.ClaimedPortsShareTraffic | pkg/microservice/pilot/pilot.go:291-335 | the entries of a weighted virtual service give each subset, of envoy's draws, its weight times the other nonzero listed sizes times the matching endpoints of its listed pods, whichever of them run |
| SidecarMapping.ClaimedPortsDrawIff | pkg/microservice/envoy/envoy.go:168-178 | without overflow envoy has a draw to make if and only if some listed pod of a subset with a positive weight has an endpoint with the target port |
| SidecarTable.MappingServesPods | pkg/microservice/pilot/pilot.go:219-431 | for sound inputs and distinct pod names the published keys are exactly clusterIP:port of the service ports; under one that some virtual service names last are one entry per pod its stored subsets list, in order, by URL or computed weight, with the listed pod's address and the target port of the first port of that number, once per service port open on it; under any other one weight-1 entry per running selected pod that opens the target port |
| RollingUpdate.RollingUpdateWorkerLoop | pkg/microservice/pilot/pilot.go:75-217 | every deletion and creation of names[d] happens while exactly its batch, from the last multiple of n - MinimumAlive up to the next or the end, is blocked and all other names are available, with the earlier batches on the new spec; at every call at least MinimumAlive pods exist, a subset goes only while no virtual service is over it; in the end each name was deleted once, re-created once, on the new spec, and both subsets are gone; and on the way the first batch is blocked while nobody is available |
| RollingUpdate.LivingCount | pkg/microservice/pilot/pilot.go:152-198 | exactly the current batch's gap is missing from the living pods |
| RollingUpdate.TrafficIff | pkg/microservice/pilot/pilot.go:291-335 | whatever the two subsets list and whichever pods run, envoy can draw if and only if the int32 sum of the published weights is positive; without overflow, if and only if some available pod has an endpoint |
| RollingUpdate.EveryRoundHasTrafficIff | pkg/microservice/pilot/pilot.go:132-178 | given that in each round every available pod, re-created ones included, has an endpoint for the port and the weights add up to an int32, every round can be drawn from if and only if MinimumAlive is positive |
| RollingUpdate.ReplacingHasTrafficIff | pkg/microservice/pilot/pilot.go:152-198 | at every deletion and creation of a run, given that the available pods have their endpoints and the weights add up to an int32, envoy can draw if and only if MinimumAlive is positive |
| RollingUpdate.GoodRoundsExist | pkg/microservice/pilot/pilot.go:152-178 | every round of up to 46340 names can be such a one |
| RollingUpdate.FirstBlockStopsTraffic | pkg/microservice/pilot/pilot.go:170-178 | between the first round's two subset calls the mapping has entries and none can be drawn |
| RollingUpdate.PendingPodStopsTraffic | pkg/kubeapiserver/app/routine.go:663-690 | of two pods with MinimumAlive 1 the second round cannot be drawn from while the re-created first one is not running |
| RollingUpdate.LargeRoundStopsTraffic | pkg/microservice/envoy/envoy.go:168-178 | 50000 blocked pods and 50000 endpoints of available ones overflow, and nothing can be drawn |
| BitmapAllocator.AllocIP | pkg/kubeapiserver/utils/alloc.go:13-32 | takes the least free bit, changes no other, prints its index, and fails exactly when full or of the wrong size |
| BitmapAllocator.AllocNode | pkg/kubeapiserver/utils/alloc.go:54-60 | as AllocIP, through the shared search |
| BitmapAllocator.AllocInternal | pkg/kubeapiserver/utils/alloc.go:71-89 | the shared search takes the least free bit |
| BitmapAllocator.BitsAreShifts | pkg/kubeapiserver/utils/alloc.go:13-104 | index k is bit k % 8 of byte k / 8, from the least significant one |
| BitmapAllocator.FreeIP | pkg/kubeapiserver/utils/alloc.go:34-52 | clears exactly the named bit, or reports why not and changes nothing |
| BitmapAllocator.FreeNode | pkg/kubeapiserver/utils/alloc.go:62-69 | as FreeIP for node names |
| BitmapAllocator.TakenRefinesSet | pkg/kubeapiserver/utils/alloc.go:13-32 | taking a slot adds exactly the least free index to the set of taken ones and fails if and only if the set is full |
| BitmapAllocator.SearchesAgree | pkg/kubeapiserver/utils/alloc.go:13-89 | both searches find the same slot and leave the same bytes |
| BitmapAllocator.NameRoundTrip | pkg/kubeapiserver/utils/alloc.go:13-104 | freeing the name just printed restores every byte |
| BitmapAllocator.BitsAreConserved | pkg/kubeapiserver/utils/alloc.go:13-104 | over any run the set bits grow by allocations minus frees |
| ServiceRegistry.CheckTypeAndPorts | pkg/kubeapiserver/app/routine.go:1126-1173 | the defaults, or the first of the refusals in the code's order, conflicts with stored node ports included |
| ServiceRegistry.CheckAcceptsIff | pkg/kubeapiserver/app/routine.go:1126-1173 | a service is accepted if and only if its type and ports are valid and its node ports neither repeat nor belong to another service; only defaults are filled in |
| ServiceRegistry.Server.AddService | pkg/kubeapiserver/app/routine.go:1175-1310 | the registry and the answer after an add, whichever read or write fails; that it is the requested service is in ServiceRuns |
| ServiceRegistry.Server.DeleteService | pkg/kubeapiserver/app/routine.go:1312-1392 | the registry and the answer after a delete, whichever read or write fails |
| ServiceRegistry.AddKeepsSafeIff | pkg/kubeapiserver/app/routine.go:1223-1305 | for every pattern of failing reads and writes an add keeps the registry safe if and only if it reads the bitmap, is refused before, gets no write through, finds nothing stored, or stops after its second write with the only service at the first address |
| ServiceRegistry.AddKeepsTightIff | pkg/kubeapiserver/app/routine.go:1223-1305 | an add that reads the bitmap keeps it exact and every service named if and only if it is refused, finds no free address, stops before taking one, or gets all writes through under a new name |
| ServiceRegistry.LeakedBit | pkg/kubeapiserver/app/routine.go:1269-1280 | cut off after its first write an add has changed one bit, which no service owns |
| ServiceRegistry.DeleteKeepsSafeIff | pkg/kubeapiserver/app/routine.go:1351-1392 | a delete keeps the registry safe if and only if it is not cut off between freeing the address and its last write |
| ServiceRegistry.BitmapIsExact | pkg/kubeapiserver/app/routine.go:1126-1392 | over every run with successful writes bit k is set if and only if exactly one service has address 100.0.0.k |
| ServiceRegistry.IndexIsBijective | pkg/kubeapiserver/app/routine.go:1223-1305 | name index and service table are inverse to each other |
| ServiceRegistry.NothingIsShared | pkg/kubeapiserver/app/routine.go:1155-1171 | over every run in which adds can read the bitmap and deletes are not cut off between their writes no two services share an address or a node port |
| ServiceRegistry.FailedDeleteSharesAddress | pkg/kubeapiserver/app/routine.go:1360-1382 | a delete cut off after its first write lets the next add share the address |
| ServiceRegistry.FailedReadSharesAddress | pkg/kubeapiserver/app/routine.go:1242-1257 | an add that completes after a failed read of the bitmap shares its address with another service if and only if that one had the first address |
| ServiceRuns.DoneStoresRequest | pkg/kubeapiserver/app/routine.go:1223-1310 | an add answered Done has stored, and answers, the requested service field by field under its UID, with a default type and default protocols, its ports in order with their numbers, at the first free address 100.0.0.k and under its name; nothing else changes |
| ServiceRuns.AddDoneIff | pkg/kubeapiserver/app/routine.go:1126-1310 | an add is answered Done if and only if name, kind and namespace fit, the name is not known to be taken, the ports are in 1..65535 and node ports distinct and in 30000..32767, no stored service is known to claim one, an address is left and every write gets through |
| ServiceRuns.StoredWasAsked | pkg/kubeapiserver/app/routine.go:1175-1392 | over every run, whatever fails, each stored service is the one that some earlier add requested |
| ServiceRuns.NoPortIsGrantedTwice | pkg/kubeapiserver/app/routine.go:1155-1171 | over every run in which adds can read the bitmap and deletes are not cut off between their writes, no two adds answered Done and not deleted since asked for one node port or got one address |
| Placement.Server.AddPod | pkg/kubeapiserver/app/routine.go:663-784 | the store after adding a pod, default name included, or the refusal |
| Placement.Server.DeletePod | pkg/kubeapiserver/app/routine.go:789-866 | the store after deleting a pod; its mapping is left behind |
| Placement.Server.SchedulePodToNode | pkg/kubeapiserver/app/routine.go:1894-1951 | every old mapping of the pod goes, one new one comes |
| Placement.Server.GetPodsByNode | pkg/kubeapiserver/app/routine.go:997-1071 | one live pod per mapping of the node, and exactly the dead ones' mappings are dropped |
| Placement.Server.GetUnscheduledPods | pkg/kubeapiserver/app/routine.go:1953-1989 | exactly the pods no mapping names |
| Placement.Server.RegisterNode | pkg/kubeapiserver/app/routine.go:1703-1790 | the least free node name is taken, also after an invalid address was reported |
| Placement.Server.UnregisterNode | pkg/kubeapiserver/app/routine.go:1792-1861 | the node's mappings, its entries and its bit are removed |
| Placement.PrefixTellsNode | pkg/kubeapiserver/app/routine.go:1811-1819 | no slash-free name's prefix covers another one's keys |
| Placement.LivePodsArePartitioned | pkg/kubeapiserver/app/routine.go:1894-1989 | in every reachable state each live pod is reported unscheduled or by exactly one node |
| Placement.NamesLeadToTables | pkg/kubeapiserver/app/routine.go:663-866 | in every reachable state names and tables of pods, and of nodes, lead to each other |
| Placement.PruningIsInvisible | pkg/kubeapiserver/app/routine.go:1028-1063 | lazy deletion drops only dead pods' mappings and changes nobody's report |
| Placement.UnregisterFreesOwnPods | pkg/kubeapiserver/app/routine.go:1811-1819 | unregistering a node unschedules exactly its own pods |
| Placement.RegisterKeepsNames | pkg/kubeapiserver/app/routine.go:1714-1749 | the registered names stay those whose bit is set; a bad address is answered twice |
| Placement.UnregisterKeepsNames | pkg/kubeapiserver/app/routine.go:1820-1860 | a registered name can always be freed |
| Placement.SchedulingDisplacesIff | pkg/kubeapiserver/app/routine.go:1894-1951 | in every reachable state scheduling a pod to a node changes what is reported about another live pod if and only if that node has it and their joined names agree; the other is then unscheduled |
| Placement.JoinedNameTells | pkg/kubeapiserver/app/routine.go:1938-1951 | joined names tell pods apart when no namespace has an underscore, and a_b/c and a/b_c collide |
| PlacementRuns.ReportedIffScheduled | pkg/kubeapiserver/app/routine.go:1792-1951 | in every reachable state a node reports a live pod if and only if some request scheduled it there, since when it was not deleted, moved or displaced by one with the same joined name, nor the node unregistered |
| PlacementRuns.ReportIsExact | pkg/kubeapiserver/app/routine.go:997-1071 | in every reachable state a node is told exactly the stored pods it reports, each once |
| PlacementRuns.StoredWasAsked | pkg/kubeapiserver/app/routine.go:663-784 | every stored pod has the name, namespace and UID of an add that brought it, every stored node the address of its registration and a name node-k |
| PlacementRuns.PodAddedIff | pkg/kubeapiserver/app/routine.go:663-784 | a pod is added if and only if its namespace fits and its name, example-pod for none, is free in it |
| ReplicaSets.OneReplicaSetMatch | pkg/controller/replicaset/controller.go:109-132 | the labelled pods whose labels read as the selector wants, in order |
| ReplicaSets.ApartIffDisjoint | pkg/controller/replicaset/controller.go:118-124 | selectors exclude each other if and only if they want two values of one key |
| ReplicaSets.Client.OneReplicaSetCheck | pkg/controller/replicaset/controller.go:134-164 | deletes every pod met once enough are counted, and returns how many are missing |
| ReplicaSets.ScanBalances | pkg/controller/replicaset/controller.go:134-164 | counted pods kept plus pods to start make the wanted number; exactly the surplus is deleted |
| ReplicaSets.Client.SyncReplicaSets | pkg/controller/replicaset/controller.go:75-100 | one pass over all sets leaves each with exactly its replicas, counting running, pending and succeeded pods whose labels read as its selector wants; every pod was there before or is pending with some set's template labels, namespace and name, pods of no set are left alone, and a pass over satisfied sets creates nothing and deletes nothing that counts |
| ReplicaSets.Client.Run | pkg/controller/replicaset/controller.go:57-107 | after the first of any number of passes, under any listing orders, none creates a pod or deletes one that counts |
| Autoscaler.GenAvgUsage | pkg/controller/podautoscaler/horizonal.go:307-371 | the mean over pods of the mean over containers of the mean over samples, pods without samples counting as idle |
| Autoscaler.AverageWithin | pkg/controller/podautoscaler/horizonal.go:307-371 | the average stays between zero and the greatest sample |
| Autoscaler.ScaleUpInBoundsIff | pkg/controller/podautoscaler/horizonal.go:250-271 | for every ratio and policy an upscale asks for a count in the bounds if and only if the wanted count is an int32 where the policy looks at it and what is added neither leads below the minimum nor out of int32; otherwise it asks for less than the minimum, for a negative count when the sum overflows |
| Autoscaler.UpWithinPolicy | pkg/controller/podautoscaler/horizonal.go:256-264 | without a wrapped product, what is added is not negative, no more than wanted, and within a Pods or Percent policy |
| Autoscaler.ScaleDownInBoundsIff | pkg/controller/podautoscaler/horizonal.go:279-300 | for every ratio and policy a downscale asks for at least the minimum, and for at most the maximum if and only if what is left is not between it and the greatest int32; it raises the count exactly when a negative amount is dropped without wrapping |
| Autoscaler.DownWithinPolicy | pkg/controller/podautoscaler/horizonal.go:285-293 | without a wrapped product, what is dropped is not negative, no more than wanted, and within a Pods or Percent policy |
| Autoscaler.WrappedPercentLeavesBounds | pkg/controller/podautoscaler/horizonal.go:256-294 | a percent policy whose product wraps turns 100 into 50 below a minimum of 60, or into 272 above a maximum of 150 |
| Autoscaler.CpuMovesOutsideTolerance | pkg/controller/podautoscaler/horizonal.go:243-305 | the ask differs from the count only above 1.1 times or below 0.9 times the target utilization; without wrapped products it is higher only above, and lower but not negative only below without having been above |
| Autoscaler.MemoryMovesOutsideTolerance | pkg/controller/podautoscaler/horizonal.go:402-467 | the ask differs from the count only above 1.5 times or below half the target value; without wrapped products it is higher only above, and lower but not negative only below without having been above |
| Autoscaler.GreatestAskWins | pkg/controller/podautoscaler/horizonal.go:141-158 | the outcome is the greatest of the metrics' asks, or none |
| Autoscaler.HorizontalController.Conduct | pkg/controller/podautoscaler/horizonal.go:97-183 | one autoscaler's turn: the new count, the recorded time, or the crash; every metric needs only the target of its own type |
| Autoscaler.CrashIff | pkg/controller/podautoscaler/horizonal.go:187-300 | a turn crashes if and only if its target and pods are there and some supported metric is above its upper tolerance without an up behaviour, or not above it and below its lower one without a down behaviour |
| Autoscaler.TurnKeepsBounds | pkg/controller/podautoscaler/horizonal.go:97-183 | with both behaviours set and no conversion or product out of int32, sums that overflow included, a turn never crashes, keeps the bounds and moves no further than the policies allow |
| Autoscaler.TurnInBoundsIff | pkg/controller/podautoscaler/horizonal.go:120-181 | a turn that does not crash keeps the count in its bounds if and only if it decides nothing, its update fails, or no metric overshoots the maximum and every positive ask below the minimum is outbid |
| Autoscaler.ClosedLoopStaysInBoundsIff | pkg/controller/podautoscaler/horizonal.go:63-183 | starting within the bounds a set stays within them over a run without crashes if and only if every turn of its autoscalers does so by the condition above |
| Autoscaler.DecisionsAreApart | pkg/controller/podautoscaler/horizonal.go:160-181 | over every run without crashes the recorded decisions of one autoscaler are at least one scale window apart |
| AutoscalerAsks.TurnWritesGreatest | pkg/controller/podautoscaler/horizonal.go:97-305 | as long as nothing leaves int32, a turn whose set and pods are there and whose last decision is at least its window (15 seconds for 0) ago records its time and writes the greatest positive ask: for CPU above 1.1 or below 0.9, for memory above 1.5 or below 0.5 of the target, the count moved by the least integer from the ratio's gap, cut to the policy's pods or percent or else by one, and clamped; any other turn changes nothing |
| AutoscalerAsks.MetricAsksOne | pkg/controller/podautoscaler/horizonal.go:187-305 | these conditions leave one count for each metric |
| MetricsStore.MetricsDb.SavePodMetrics | pkg/kubeapiserver/metrics/stream_data.go:43-78 | every container saved is appended to and trimmed to sixty; a write into a missing map ends the batch with a panic |
| MetricsStore.SavePanicsIff | pkg/kubeapiserver/metrics/stream_data.go:50-62 | saving a batch panics if and only if an item has containers for a pod stored without a map, in the database or by an earlier item of the batch |
| MetricsStore.MetricsDb.GetPodMetrics | pkg/kubeapiserver/metrics/stream_data.go:80-117 | on sorted series the answer, and what stays stored, is exactly the window; with a negative window it panics if and only if a sample lies between the bounds |
| MetricsStore.SearchAfter | pkg/kubeapiserver/metrics/stream_data.go:102-107 | the binary search ends at a sample after the time with one not after it before |
| MetricsStore.SearchesCutWindow | pkg/kubeapiserver/metrics/stream_data.go:100-109 | on a sorted series the two searches cut out exactly the samples with time in (t-n, t] |
| MetricsStore.BackwardWindow | pkg/kubeapiserver/metrics/stream_data.go:98-109 | with a negative window the bounds cross, and the slice panics, if and only if a sample lies between them |
| MetricsStore.SeriesStayBounded | pkg/kubeapiserver/metrics/stream_data.go:43-117 | over any interleaving of saves in time order and queries every series stays sorted and at most sixty long |
| MetricsStore.QueryReturnsWindow | pkg/kubeapiserver/metrics/stream_data.go:80-117 | after every such run a query with a window that is not negative answers, for exactly the stored containers, the sorted stretch of samples in (t-n, t], and never panics |
| MetricsStore.Serve | pkg/kubeapiserver/metrics/stream_data.go:43-117 | the store itself gives these answers over any such run |
| MetricsStore.FirstQueryHarmlessIff | pkg/kubeapiserver/metrics/stream_data.go:98-112 | of two queries of one pod, at any times with any windows, the second answers as if the first had not happened if and only if no stored sample is in the second window only |
| MetricsStore.WideAfterNarrowIff | pkg/kubeapiserver/metrics/stream_data.go:98-112 | a wider query after a narrower one at the same time is complete if and only if no stored sample lies in (t-wide, t-narrow] |
| MetricsStore.SecondAnswer | pkg/kubeapiserver/metrics/stream_data.go:98-112 | the second of two queries answers what lies in both windows, as for the autoscaler's upscale and downscale periods |
| MetricsStore.SavesKeepLatest | pkg/kubeapiserver/metrics/stream_data.go:43-78 | until a pod is first asked for, each of its containers has exactly the latest sixty of all samples ever saved for it, in whatever order they came |
| MetricsStore.FirstQueryAnswersLatest | pkg/kubeapiserver/metrics/stream_data.go:80-117 | after saves in time order the first query answers the stretch of those latest sixty samples with time in (t-n, t] |

## Left out

- HTTP, JSON, the etcd client, Docker, netlink and iptables: handlers are steps on typed state, IPVS is a set of servers and routes.
- The two entries a service or pod has in etcd are maps keyed by (namespace, name) and by UID; only the node-to-pod mappings keep their string keys, because their prefixes matter.
- Kubelet and proxy shutdown: the channels may hold blocked senders there.
- The pod manager's index by full name: only the UID map matters for the workers.
- PodWorkers: what SyncPod does to containers and the main loop's metrics tick are not modelled; pods with equal creation times may be handled in any order.
- StatusCache.Cache.GetNewerThan: other goroutines write at its sleeps, which is where it releases the lock; contention for the lock itself is not modelled.
- Decimal: Sscanf's skipping of leading blanks is not modelled, because no name the allocators print has any.
- ProxyServer.IsEndpointPortsEqual: sorts its two arrays in place as the code does, but the stored port lists are values, so the order it leaves in them is not kept.
- Ipvs: addresses are IPv4 strings and every string its own address; the dummy interface's addresses are not modelled.
- Proxy: the DNS files, nginx and the cache of service addresses by name.
- ProxyTable.TableServesPods: for pods, or services, listed with one address, or UID, the last of them counts, as in the code.
- SidecarTable.MappingServesPods: asks for distinct pod names, UIDs without underscores, distinct service names and addresses, and virtual services that name an existing port and stored subsets; SidecarMapping.SyncLoopIteration covers the rest.
- ProxyRuns.IncrementalIsFromScratch: needs unchanged specs per UID, distinct target ports within a service and no address claimed by two services of one snapshot, as the code does.
- Traffic.GetDestinationWithWeight: the random number is a parameter within the bound rand.Intn promises.
- Envoy's regular expressions for URLs, its domain names and the reverse proxy.
- SidecarMapping.SyncLoopIteration: each subset is fetched once or twice in the code, here both times with the same answer; the start of rolling updates is in RollingUpdate only.
- RollingUpdate.RollingUpdateWorkerLoop: store writes succeed and nobody else changes the pods; the waiting between the steps is not modelled.
- ServiceRegistry: the uuid of a new service is a parameter that no stored service has.
- Placement: store writes succeed; node names given to the scheduler are slash-free, as registered ones are.
- DNS records, the hosts list, virtual services, subsets and autoscalers as stored objects, and the scheduler's policies: easy beside the rest.
- ReplicaSets.Client.Run: calls succeed, listings are accurate and phases do not change between passes.
- AutoscalerAsks.TurnWritesGreatest: asks for both behaviours, policies that are not negative, and a ratio's count and policy products within int32; what happens otherwise is in Autoscaler.
- Autoscaler: targets of zero, which make the float division infinite or undefined; the samples are parameters, so the narrowing of one query by another is stated for the store alone; floating-point rounding; a conversion out of range yields the least int32, as on amd64.
- MetricsStore.MetricsDb.GetPodMetrics: queries are atomic, although the code holds only a read lock while it writes; slices returned earlier may share memory with the store.
- computeApiStatus, DoCleanUp, mock data, persistent volumes, GPU jobs and Prometheus.
