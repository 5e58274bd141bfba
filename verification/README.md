# semaphore-xds, modelled and verified

semaphore-xds watches Kubernetes Services and EndpointSlices, translates them to Envoy xDS resources and
serves every client node the part it asked for. This project models that path in Dafny and proves what
it promises.

* **The snapshotter as a concurrent protocol.** `Sections.dfy` gives the atomic sections of
  `xds/snapshotter.go` as functions on a state: open streams, nodes with what each of their streams asked
  for and holds, the two snapshot caches with the full snapshot under the node id `""`, the delta caches and
  the version counters. `Protocol.dfy` interleaves them as the mutexes allow. `Agreement.dfy`,
  `Registration.dfy`, `Versions.dfy` and `Invariants.dfy` prove what each section keeps, and `Theorems.dfy`
  states what holds in every reachable state, whatever the interleaving and however long the run.
  `Refinement.dfy` matches every run of the server, which skips updates that change nothing, with a run of
  one that never skips.
* **The snapshotter as an object.** `Snapshotter.dfy` is the class with its loops. Its section methods are
  proved to be those sections at any moment, also between the publishing and the refreshing of a snap, so
  the protocol's theorems are about this code. The handlers made of several sections and the snaps are also
  proved as wholes, run without interruption from an agreeing state.
* **Translation.** `Names.dfy`, `Resources.dfy`, `ServiceTranslation.dfy`, `EndpointTranslation.dfy` and
  `Payloads.dfy`: the string names, the service and endpoint stores, the listener, route, cluster and load
  assignment builders in their list and map forms, proved against the translation of a store as a set of
  resources. `Published.dfy` says what a load assignment holds, straight from the slices of its service.
* **Controller.** `Controller.dfy`, `Priorities.dfy`, `Skipping.dfy`, `Visibility.dfy` and `Reconciling.dfy`:
  building the stores, local-first priorities, skipping slice events, and the reconcile functions down to
  what every node is served. `EndToEnd.dfy` joins the translation to the runs of the protocol.
* **Queue.** `Queue.dfy`: which keys the worker loop holds to be unresolved.

The services half and the endpoints half of the snapshotter are two copies of the same code; the model has
one copy with a `Kind`. Go visits maps in any order, so every loop over a map picks its next key freely, and
a section that depends on such an order takes the order as an argument.

What the proofs assume of the surroundings: stream ids are not reused, a stream presents one node id (also
when it closes) and its requests come one at a time; namespaces hold no dot, and service names and namespaces
no slash; a new snapshot and a cache update do not fail, and packing a message into an `Any` succeeds and
keeps the message. Where only a name property is needed it is a hypothesis of the lemma that needs it.

## Findings

* `resourcesMatch` compares lengths and membership only. It means "the same names" for a request if and only
  if that request has no duplicates (`Matching.MatchTrustworthy`); stored `[x, y]` passes for `[x, x]`.
* The comment above `endpointsStoreForXdsServiceStore` says priorities never skip. They do for a local-first
  service with local endpoints and a port that only remote slices have: the load assignment published for
  that port has priority 1 alone. `Priorities.PublishedGapFreeExactlyWhen` gives the exact condition.
* A local slice update is judged by its new labels only. When it is skipped, what the old version offered
  stays published exactly when a stored service selected the old version, it had endpoints, and either it had
  ports or it was the last local slice that kept served remote endpoints in second place
  (`Visibility.SkippedUpdateIsServed`). `Visibility.RelabelledSliceStaysPublished` is one such update.
* A remote slice event is judged by the first remote cluster that has a slice of that name. A slice of the
  same name in an earlier cluster can mask an update (`Visibility.MaskedUpdateIsMissed`), and one in any other
  cluster, earlier or later, can mask a deletion (`Visibility.MaskedDeletionIsMissed`); the event is then
  skipped although the published endpoints should change. `Reconciling.RemoteEventKeepsUp` gives the exact
  condition for updates, creations and deletions alike.

## Model

| member | source | states |
|---|---|---|
| `Theorems.QuiescentServed` | xds/snapshotter.go:205-317 | In every reachable state, for every half that is not between publishing and refreshing, each node is served exactly the full snapshot restricted to the names recorded by its registered streams |
| `Theorems.ServedWhenAskedForAndPublished` | xds/snapshotter.go:523-556 | Resource by resource: a node is served a resource under a name exactly when one of its streams has recorded the name and the full snapshot has that resource under it, so a name asked for while missing is served once it appears |
| `Theorems.QuiescentServesLatest` | xds/snapshotter.go:379-388 | The same seen from the clients: although unchanged requests are skipped, a node is served the full snapshot restricted to the names last asked for on its streams, if those requests had no duplicates |
| `Theorems.AlwaysServedCurrentOrPrevious` | xds/snapshotter.go:233-260 | At every moment, also between publishing and refreshing, a served resource was asked for and equals the one in the current full snapshot or in the one it replaced |
| `Theorems.RequestsFindTheirNode` | xds/snapshotter.go:344-390 | Under any interleaving a request past addOrUpdateNode finds its node and stream in its later sections; its update fails if and only if the server is not in localhost mode and nothing has been published for the half of its type |
| `Theorems.RepeatsAreSkipped` | xds/snapshotter.go:663-682 | Among duplicate-free requests exactly those are skipped that ask, in whatever order, for the names last asked for on the stream and type |
| `Theorems.DecisionsStayRight` | xds/snapshotter.go:379-388 | A decision to update is still right when it is acted on |
| `Theorems.SkippingIsSound` | xds/snapshotter.go:663-682 | When a duplicate-free request is skipped, forcing the update would have served every node, for every type, what it is served anyway |
| `Refinement.SkippingIsInvisible` | xds/snapshotter.go:379-388 | For every run with duplicate-free requests there is a run of a server that updates on every request, with the same opens, closes, requests, checks and snaps, that ends with the same requests in flight, full snapshots and nodes, and serves every node the same in each quiescent half |
| `Theorems.NoLeaks` | xds/snapshotter.go:453-520 | On every run: a registered stream is open or half closed on that node, every node has a stream, `""` is never a node, only `""` and live nodes are cached, and with all closes finished no node is left |
| `Theorems.VersionsIdentifyPublications` | xds/snapshotter.go:614-635 | The publications of one lifetime of a node, or of the full snapshot: the last is the cached one, two versions are equal exactly when their numbers agree modulo 2^32, and the versions, read as decimal numbers, are 1, 2, 3, ... in int32 arithmetic |
| `Theorems.VersionsShown` | xds/snapshotter.go:741-762 | A client is shown the version of its node's snapshot for exactly the types it is served something of |
| `Theorems.SameVersionSameContents` | xds/snapshotter.go:223-233 | Within 2^32 publications of a lifetime, two different snapshots show the same version for a type only when both hold nothing of that type |
| `Theorems.HandlersNeverStuck` | xds/snapshotter.go:335-390 | In every reachable state a request or half-done close can take its next section |
| `Theorems.SnapsNeverStuck` | xds/snapshotter.go:237-260 | In every reachable state a started snap can sync its next delta cache or refresh the nodes |
| `Theorems.ReachableInv` | xds/snapshotter.go:205-682 | The joint invariant (registration, agreement, completed requests, payloads, versions) holds after every legal run of any length |
| `Invariants.AgreeStep` | xds/snapshotter.go:205-659 | Every step keeps: each stream's copies come, type by type, from the current or the replaced full snapshot, and each node snapshot indexes exactly what its streams hold |
| `Invariants.LatestStep` | xds/snapshotter.go:344-390 | Every step keeps: the names a stream has recorded are those of its last completed duplicate-free request |
| `Invariants.PublishedStep` | xds/snapshotter.go:229-241 | Every step keeps: full snapshot and delta caches hold the last payload, but for delta caches the running snap still has to sync |
| `Registration.RegStep` | xds/snapshotter.go:335-504 | Every step keeps: who is registered where, which streams are open or closing, and that a pending update is still needed |
| `Versions.VersionInvStep` | xds/snapshotter.go:614-635 | Every step keeps: each node's counter numbers the snapshots cached in its lifetime, in int32 arithmetic |
| `Agreement.AggregationIsOrderFree` | xds/snapshotter.go:741-762 | Once all copies come from one full snapshot, indexing the aggregated list gives the same result for any two orders of visiting the streams |
| `Agreement.RefreshHalf` | xds/snapshotter.go:243-260 | Refreshing removes every trace of the replaced full snapshot |
| `Agreement.ServedIsRestriction` | xds/snapshotter.go:614-635 | A node whose streams copied from the current full snapshot serves its restriction to the recorded names |
| `SnapshotterObject.Snapshotter.constructor` | xds/snapshotter.go:143-180 | A new snapshotter is empty and settled |
| `SnapshotterObject.Snapshotter.OnStreamOpen` | xds/snapshotter.go:319-333 | Registers the stream's address and changes nothing else |
| `SnapshotterObject.Snapshotter.OnStreamRequest` | xds/snapshotter.go:344-390 | Keeps agreement; fails exactly on unknown streams and when an update is needed outside localhost mode before anything was published; on success the stream's recorded names are the requested ones (duplicate-free requests); other streams are untouched |
| `SnapshotterObject.Snapshotter.OnStreamClosed` | xds/snapshotter.go:335-342 | Keeps agreement; the stream is gone from the open streams and from its node; every other stream stays registered with the names it had, and the full snapshots, versions and delta caches are untouched |
| `SnapshotterObject.Snapshotter.AddOrUpdateNode` | xds/snapshotter.go:453-476 | Is the add-node section; a node without an id is not added, a new node gets the stream's address, a known one keeps its own, and the stream is registered |
| `SnapshotterObject.Snapshotter.DeleteNodeStream` | xds/snapshotter.go:480-504 | Is the delete-stream section in any state that agrees with the current or the replaced full snapshots, visiting the remaining streams in some order; keeps that agreement |
| `SnapshotterObject.Snapshotter.NeedToUpdateSnapshot` | xds/snapshotter.go:663-682 | Is the check section: no update for unknown nodes and types, an error for unknown streams, no update when the recorded names are asked for in any order, and for a duplicate-free request none only if the names are the same |
| `SnapshotterObject.Snapshotter.UpdateStreamNodeResources` | xds/snapshotter.go:639-659 | Is the update section in any state that agrees with the current or the replaced full snapshots: it fails exactly for an unknown node or stream, or outside localhost mode without a full snapshot, and leaves the state alone; success keeps that agreement |
| `SnapshotterObject.Snapshotter.UpdateNodeStreamResources` | xds/snapshotter.go:560-611 | Records names and copies of one stream and type, or reports the missing stream or the missing full snapshot and changes nothing |
| `SnapshotterObject.Snapshotter.GetResourcesFromCache` | xds/snapshotter.go:523-556 | The loop returns the resources of the full snapshot under those of the given names it has, in the order asked for, and fails exactly without a full snapshot |
| `SnapshotterObject.Snapshotter.MakeDummyResources` | xds/dummy.go:15-46 | The loop returns one made-up resource per name |
| `SnapshotterObject.Snapshotter.NodeSnapshot` | xds/snapshotter.go:614-635 | Bumps the node's counter and caches the index of what its streams hold |
| `SnapshotterObject.AggregateNodeResources` | xds/snapshotter.go:741-762 | The nested loops compute, for some order of the streams, the per-type concatenation of their copies, without empty types |
| `SnapshotterObject.Snapshotter.RefreshAll` | xds/snapshotter.go:243-260 | The triple loop over nodes, streams and types is the refresh section |
| `SnapshotterObject.Snapshotter.Snap` | xds/snapshotter.go:221-262 | A whole snap keeps agreement, replaces the full snapshot and delta caches of its half only, and keeps every stream registered with the names it had |
| `SnapshotterObject.Snapshotter.SnapServices` | xds/snapshotter.go:205-262 | Afterwards the full services snapshot is the translation of the store under both name schemes, the delta caches are its delta form, and every node agrees with it |
| `SnapshotterObject.Snapshotter.SnapEndpoints` | xds/snapshotter.go:266-317 | The same for endpoints |
| `Matching.ComputeResourcesMatch` | xds/utils.go:275-292 | The nested loop decides: equal lengths and every requested name stored |
| `Matching.MatchNamesTheSame` | xds/utils.go:275-292 | A duplicate-free request that matches names exactly the stored names |
| `Matching.ReorderingMatches` | xds/utils.go:275-292 | Asking for the stored names again, in any order, is a match |
| `Matching.MatchExactly` | xds/utils.go:275-292 | Between duplicate-free lists a match means exactly the same names |
| `Matching.MatchTrustworthy` | xds/utils.go:275-292 | A match means the same set of names, whatever was stored, if and only if the request has no duplicates |
| `Matching.DuplicatesFoolTheMatch` | xds/utils.go:275-292 | Stored [x, y] matches the request [x, x] |
| `Names.ItoaInjective` | xds/utils.go:26-31 | A port number is determined by its rendering |
| `Names.ItoaRenders` | xds/utils.go:26-31 | Numbers are rendered in decimal notation: digits without a leading zero whose value is the number, with a sign if negative |
| `Names.NamesAreSpelled` | xds/utils.go:26-73 | Every name written out: service, namespace and decimal port joined as the clients expect, plain and under an authority |
| `Names.KeyInjective` | xds/service.go:82-84 | With dot-free namespaces a store key determines service and namespace |
| `Names.ClusterNameInjective` | xds/utils.go:26-31 | With dot-free namespaces a cluster name determines service, namespace and port |
| `Names.GlobalServiceDomainInjective` | xds/utils.go:45-47 | The same for listener, route and virtual host names |
| `Names.NamesInjective` | xds/utils.go:26-73 | The same for every name under one authority, plain or xdstp |
| `Names.XdstpDisjoint` | xds/utils.go:51-73 | With slash-free names, exactly the names made for an authority are xdstp names |
| `Names.RewriteYieldsClusterName` | xds/dummy.go:17-34 | Rewriting the first colon of a listener name gives the cluster name of the service and port if and only if the service and namespace hold no colon |
| `Resources.DummyListenerRoutesToCluster` | xds/dummy.go:15-46 | A dummy listener routes to the real cluster name of its service and port, under which the dummy cluster is made |
| `Resources.IndexIsByName` | xds/snapshotter.go:229-233 | A list of distinctly named resources indexes the same in any order and with any repetitions |
| `Resources.LastDuplicateWins` | xds/snapshotter.go:229-233 | Of several resources of one name the last one is kept |
| `ServiceTranslation.XdsServiceStore.AddOrUpdate` | xds/service.go:64-69 | Replaces the entry under the service's key, and every entry stays under its own key |
| `ServiceTranslation.UpdateThenGet` | xds/service.go:64-79 | What AddOrUpdate stored is what Get finds, and with dot-free namespaces no other service's entry is affected |
| `ServiceTranslation.ServicesToResources` | xds/service.go:300-321 | Whatever order the store is visited in, the three lists hold exactly one resource per port of every stored service |
| `ServiceTranslation.ServicesToResourcesWithNames` | xds/service.go:325-344 | The maps are the by-name index of the patched translation |
| `ServiceTranslation.ServiceSetDistinct` | xds/service.go:300-321 | Two generated resources of one type and name are equal |
| `ServiceTranslation.FullServiceSetDistinct` | xds/snapshotter.go:207-220 | The plain pass and the authority pass never overwrite each other |
| `ServiceTranslation.ClusterAsksForEndpoints` | xds/service.go:191-225 | A cluster's EDS name is the load assignment name of its service, namespace, port and authority |
| `ServiceTranslation.ListenerReachesCluster` | xds/service.go:86-125 | The route inlined in the listener of a service port is generated too and targets the generated cluster of the same service, port and authority, whose EDS name is the load assignment name of that port |
| `ServiceTranslation.DeltaClustersAgree` | xds/service.go:230-252 | Delta clusters are the plainly named clusters of the full snapshot, patched and nothing else |
| `ServiceTranslation.PlainClustersPatch` | xds/service.go:230-252 | The delta form of a plainly named cluster keeps its name, policy, ring hash and load assignment name, and asks xds_cluster over HTTP/2 |
| `ServiceTranslation.DeltaHostsAgree` | xds/service.go:259-298 | The delta hosts are exactly the virtual hosts of the plainly named listeners, renamed, on demand and otherwise the same |
| `ServiceTranslation.DeltaHostsReachDeltaClusters` | xds/service.go:325-344 | Every delta virtual host routes to a delta cluster |
| `EndpointTranslation.XdsEndpointStore.Add` | xds/endpoints.go:57-77 | Appends the slice to its service's entry, creating the entry if needed, and keeps every entry under its own key |
| `EndpointTranslation.AddThenGet` | xds/endpoints.go:57-89 | A slice added is found at the end of its own service's slices, and with dot-free namespaces no other service's slices change |
| `EndpointTranslation.EndpointSliceToClusterEndpoints` | xds/endpoints.go:166-189 | The nested loop yields every port x endpoint combination of the slice, in order |
| `EndpointTranslation.CreateClustersFromEndpointStore` | xds/endpoints.go:192-213 | The clusters file each slice x port x endpoint combination under its own name, in slice order, and nothing else |
| `EndpointTranslation.GroupingIsPerPort` | xds/endpoints.go:192-213 | In a well-named store a cluster exists exactly for service ports with endpoints and holds exactly that service's endpoints on that port |
| `EndpointTranslation.GroupingConserves` | xds/endpoints.go:166-213 | For every store, the clusters together hold exactly the multiset of slice x port x endpoint combinations, each under its cluster name |
| `EndpointTranslation.BuildLoadAssignment` | xds/endpoints.go:220-231 | The inner loops build one locality per endpoint with all its addresses |
| `EndpointTranslation.EndpointSlicesToClusterLoadAssignments` | xds/endpoints.go:217-232 | The list holds exactly the translation of a well-named store |
| `EndpointTranslation.EndpointSlicesToClusterLoadAssignmentsWithNames` | xds/endpoints.go:236-251 | The map is the by-name index of the same translation |
| `EndpointTranslation.FullEndpointSetDistinct` | xds/snapshotter.go:268-280 | Load assignments of one name are equal, across both passes |
| `EndpointTranslation.DeltaEndpointsAgree` | xds/endpoints.go:236-251 | Delta endpoints are the full endpoints restricted to plain names |
| `Payloads.ServicesPublished` | xds/snapshotter.go:224-241 | Publishing any payload built from a service store makes the full snapshot and delta caches those of the translation |
| `Payloads.EndpointsPublished` | xds/snapshotter.go:283-296 | The same for an endpoint store |
| `Payloads.ServiceItemsAgree` | xds/service.go:325-344 | The delta form of a store agrees with its full form: clusters with the same names, policies and load assignments, the listeners' hosts and no others, hosts to clusters, and one delta route that discovers its hosts |
| `EndToEnd.QuiescentServesServices` | xds/snapshotter.go:205-262 | In every quiescent state of every run, if the services last published came from a store, each node is served the translation of that store restricted to its names, and the delta caches agree with the full snapshot |
| `EndToEnd.QuiescentServesEndpoints` | xds/snapshotter.go:266-317 | The same for endpoints; the delta endpoints are the full ones with plain names |
| `EndToEnd.ListenersReachClusters` | xds/service.go:300-321 | In the published snapshot every listener is that of a stored service port and routes to the published cluster of the same service, port and authority, which asks for the load assignment of that port |
| `EndToEnd.ClustersFindTheirEndpoints` | xds/endpoints.go:192-213 | The load assignment a cluster asks for is published if and only if the watched clusters hold a slice labelled with the service, in its namespace, with endpoints and that port number: locally, or remotely if the service takes remote endpoints |
| `EndToEnd.ConfigurationIsServed` | xds/service.go:86-225 | Under the names of every service port, in both name schemes, the published cluster balances as configured, and the published listener and route answer for exactly the service's domain and their own name, target that cluster, and hash and retry as configured |
| `EndToEnd.EveryResourceHasAService` | xds/service.go:300-321 | Every published listener, route and cluster is that of a port of a stored service |
| `EndToEnd.EndpointsAreServed` | xds/endpoints.go:107-251 | The load assignment published for a service port is the sequence of that service's endpoints on that port, slice by slice and once for each time the slice lists the port, with addresses, zone, pod, readiness and priority intact; a port without endpoints has none |
| `EndToEnd.LocalhostServesEveryName` | xds/dummy.go:15-46 | In localhost mode every recorded name, and no other, is served in every quiescent state: listeners and routes answer for the name and route to it with its first colon turned into a dot, clusters are round robin, and load assignments hold the one endpoint 127.0.0.1:18001 |
| `Controller.ServicesToXdsServiceStore` | controller/controller.go:186-222 | The loops fail exactly when a list fails and else build the store of the watched state, every entry under its own key |
| `Controller.XdsServicesOverrideLabels` | controller/controller.go:186-222 | A service has the ports looked up and the configuration of the last XdsService that targets it and whose Service exists, else those of the last labelled Service with its policy and everything else off, and nothing else is stored |
| `Controller.TargetsExactly` | controller/controller.go:204-219 | With dot-free namespaces an XdsService targets exactly the service it names |
| `Controller.EndpointsStoreForXdsServiceStore` | controller/controller.go:233-267 | The nested loops fail exactly when a query they make fails, and else file for each service its populated local slices at priority 0 and, if it takes them, the remote slices at 0 or 1 |
| `Controller.StoredSlicesAre` | controller/controller.go:233-267 | For every stored service the slices labelled with it in its namespace: the local ones with endpoints at priority 0, in order, then, if it takes them, all remote ones in order, at priority 1 if it is local-first and has such local ones and at 0 otherwise |
| `Controller.NamedFinds` | kube/client.go:207-213 | A slice lookup finds the first slice of that name and namespace, and nothing only if there is none |
| `Priorities.PortPrioritiesAre` | controller/controller.go:233-267 | On every port of a service only 0 and 1 occur, and 0 alone unless it is local-first; 1 exactly if it takes remote endpoints, is local-first, has local endpoints and has remote endpoints on the port; there is a gap exactly when it then has no local ones on the port |
| `Priorities.GapFreeExactlyWhen` | controller/controller.go:224-267 | No port of a service skips a priority if and only if, where remotes are a fallback, every port of a populated remote slice is a port of a populated local slice |
| `Priorities.PublishedPriorities` | xds/endpoints.go:192-232 | A published load assignment has exactly the priorities of its service port |
| `Priorities.PublishedGapFreeExactlyWhen` | controller/controller.go:224-267 | Every published load assignment is free of gaps if and only if the condition above holds for every stored service |
| `Priorities.RemoteOnlyPortLeavesAGap` | controller/controller.go:247-263 | A watched state with one local-first XdsService whose published load assignment for port 9 has priority 1 alone |
| `Skipping.NeedIsWanted` | controller/controller.go:271-284 | The test never misses a slice that a query for a stored service returns, and with dot-free namespaces it accepts no other |
| `Skipping.ComputeNeedToReconcileEndpointSlice` | controller/controller.go:271-284 | The test through the store's Get decides: the service-name label names a stored service |
| `Skipping.LocalChangeIsSeen` | controller/controller.go:233-246 | Replacing any stretch of local slices leaves the endpoint store alone if and only if both contribute the same populated slices to every stored service |
| `Skipping.SkippedUpdateIsUnseen` | controller/controller.go:146-155 | Skipping a local update leaves the endpoint store as it should be if and only if the replaced slice was not wanted or had no endpoints |
| `Skipping.SkippedRelabelFreeUpdate` | controller/controller.go:146-155 | Skipping an update that keeps labels and namespace, or a new slice, never changes the endpoint store |
| `Skipping.RemoteChangeIsSeen` | controller/controller.go:247-263 | Replacing any stretch of a remote cluster's slices leaves the endpoint store alone if and only if both contribute the same slices to every stored service that takes remote endpoints |
| `Skipping.FirstFoundIs` | controller/controller.go:129-140 | The slice a remote event is judged by comes from the first readable remote cluster that has one of that name, and there is none only if no such cluster has |
| `Published.AssignmentIs` | xds/endpoints.go:166-232 | The load assignment built for a service port lists the localities of the port, slice by slice and in order, and a port is served exactly when there are any |
| `Published.LocalitiesOfOnePort` | xds/endpoints.go:107-189 | The localities of a slice with one port are its endpoints one by one, with zone (or none), pod, priority, weight 100, addresses, port and readiness |
| `Published.LocalitiesByPort` | xds/endpoints.go:166-189 | Listing a port adds the slice's endpoints once more, after those before |
| `Published.LocalitiesConcat` | xds/endpoints.go:192-213 | Slices contribute one after the other, in their order |
| `Published.PublishedUnder` | xds/endpoints.go:192-232 | Under the load assignment name of a stored service's port exactly the localities of its slices on that port are published, or nothing if there are none |
| `Published.SamePublished` | xds/endpoints.go:192-232 | Two watched states publish the same endpoints if and only if every stored service has the same localities on every port |
| `Visibility.LocalChangeIsServed` | controller/controller.go:233-267 | Replacing any stretch of local slices leaves the published endpoints alone if and only if it offers every stored service the same on every port and moves no served remote endpoints to another priority |
| `Visibility.SkippedUpdateIsServed` | controller/controller.go:146-155 | Skipping a local update leaves the published endpoints right if and only if no stored service that selected the old version loses endpoints on a port, or the fallback priority of served remote endpoints |
| `Visibility.RelabelledSliceStaysPublished` | controller/controller.go:146-155 | A slice relabelled to a service that is not stored: the update is skipped, and its endpoint stays published on port 80 although it should be gone |
| `Visibility.RemoteChangeIsServed` | controller/controller.go:247-263 | Replacing any stretch of a remote cluster's slices leaves the published endpoints alone if and only if both offer the same to every stored service that takes remote endpoints |
| `Visibility.RemoteWithdrawalIsServed` | controller/controller.go:129-155 | When a remote slice is deleted, or updated to one nobody selects, the published endpoints stay right if and only if it offered no stored service anything |
| `Visibility.MaskedUpdateIsMissed` | controller/controller.go:129-144 | A slice of the same name in an earlier remote cluster makes an update that changes the published endpoints be skipped |
| `Visibility.MaskedDeletionIsMissed` | controller/controller.go:129-144 | A slice of the same name in any other remote cluster, earlier or later, makes a deletion that changes the published endpoints be skipped |
| `Reconciling.SnapAll` | controller/controller.go:158-168 | Publishes services, then endpoints unless listing them fails, in which case the endpoints stay as they were |
| `Reconciling.ReconcileServices` | controller/controller.go:105-113 | Succeeds exactly when all lists and queries do; then both full snapshots are the translation of the watched clusters, every node is served it restricted to its names, and the delta caches agree with it |
| `Reconciling.SnapEndpointsOnly` | controller/controller.go:172-182 | Succeeds exactly when all lists and queries do; then the endpoint translation of the watched clusters is published, the delta endpoints agree with it and the services half is left alone; else nothing changes |
| `Reconciling.ReconcileEndpointSlice` | controller/controller.go:146-155 | Fails exactly when something it has to list cannot be listed; a wanted slice reconciles everything, delta caches included, another changes nothing |
| `Reconciling.ReconcileLocalEndpointSlice` | controller/controller.go:115-127 | Succeeds exactly when the slice can be looked up and what the event needs can be listed; a missing slice refreshes the endpoints and their delta cache, a found one is reconciled; an unreadable one changes nothing |
| `Reconciling.ReconcileRemoteEndpointSlice` | controller/controller.go:129-144 | Succeeds exactly when what the event needs can be listed; the first remote cluster that has the slice decides, and if none has it the endpoints and their delta cache are refreshed |
| `Reconciling.LocalUpdateKeepsUp` | controller/controller.go:115-182 | Across a local slice update the full snapshots keep reflecting the watched clusters under serial reconciles if and only if the new version is wanted or the old one withdraws nothing visible |
| `Reconciling.LocalEventKeepsUp` | controller/controller.go:115-182 | The same for any local event: if and only if it is not skipped or no stored service sees a difference |
| `Reconciling.RemoteEventKeepsUp` | controller/controller.go:129-182 | The same for any event in any remote cluster, the slice looked up across all of them: if and only if it is not skipped or no stored service that takes remote endpoints is offered anything different |
| `Queue.LastFailedAppend` | queue/queue.go:56-108 | Processing an item settles its own key and no other |
| `Queue.SplitsExactly` | queue/queue.go:64-74 | A key splits exactly when it has no two slashes |
| `Queue.LengthCountsUnresolved` | queue/queue.go:138-140 | The length of the requeued list is the number of unresolved keys |
| `Queue.Queue.AddRequeued` | queue/queue.go:120-127 | Appends the key unless it is listed |
| `Queue.Queue.RemoveRequeued` | queue/queue.go:129-136 | Splices out the first occurrence of the key |
| `Queue.Queue.ProcessItem` | queue/queue.go:56-118 | Keeps: the list is duplicate-free and holds a key exactly when its most recent processing ended in a reconcile error |
| `Queue.Queue.Run` | queue/queue.go:43-48 | The same over whole runs of the worker loop, and the length counts the unresolved keys |

## Left out

- Update in place through shared pointers: nodes and stream records are values in the maps that hold them, so aliasing between a node looked up and the node stored is not modelled; the handlers that mutate a looked-up node do so under the nodes mutex.
- Mutexes themselves: the protocol's steps are the critical sections they delimit, and what they exclude is the enabling condition of the steps.
- Concurrent reconciles: the end-to-end theorems are about serial reconciles, because the stores are read before the snap mutex is taken and two reconciles may publish out of order.
- SnapshotterObject.Snapshotter.Snap: does not model a failing snapshot constructor or cache, after which the code returns without refreshing the nodes.
- SnapshotterObject.Snapshotter.OnStreamRequest: the rate limiters are left out; in the protocol a started request may be rejected at that point. The handler as one method starts between snaps; interleaved with snaps it is the protocol's sections.
- Wildcard subscriptions: an empty name list means no names, as in the code.
- deleteNode (xds/snapshotter.go:507) is not a step, because nothing calls it.
- Delta streams, the gRPC server, peer addresses, logging and metrics: input and output only.
- Nil pointers: slice ports, target references and readiness, which the code dereferences unconditionally, are not optional in the model.
- Parsing of policies, strategies, retry settings and ring hash settings (xds/utils.go:130-272, controller/controller.go:286-349): each is settled by reading one branch; XdsServices carry their parsed configuration.
- Protobuf encoding, Any packing and the Unmarshal helpers: foreign code; the connection manager of a listener is the route configuration it inlines.
- The constant parts of generated messages: connect timeouts, HTTP filters, the catch-all match of a route.
- Informers and watchers (kube/): only what a filtered slice list, a slice lookup and a Service lookup return is modelled, with failures as sets of failing queries.
- The work queue library: the order and the delays in which keys come back are left open; a run is any sequence of items.
- backoff/: float arithmetic and random jitter.
