/** Every run of the snapshotter against the translation of the stores that were published. */
module EndToEnd {
  import opened Collections
  import opened Names
  import opened Resources
  import opened Sections
  import opened Payloads
  import opened Agreement
  import opened Protocol
  import opened Invariants
  import opened Theorems
  import opened Published
  import C = Controller
  import ST = ServiceTranslation
  import ET = EndpointTranslation

  // ---------------------------------------------------------------------
  // Served resources and delta caches

  /** Once a half is quiescent its full snapshot and its delta caches are those of the last payload. */
  lemma QuiescentHoldsPayload(y: Sys, k: Kind)
    requires Reachable(y) && Quiescent(y, k) && y.published.Of(k).Some?
    ensures var p := y.published.Of(k).value;
            && y.st.Full(k) == NewSnapshot("", p.lists).items
            && forall t | t in p.deltas :: t in y.st.deltas && y.st.deltas[t] == p.deltas[t]
  {
    ReachableInv(y);
    assert PublishedHalf(y, k);
  }

  /**
    In every quiescent state of every run: if the services last published were built from `store`, every
    node is served exactly the translation of `store` restricted to the names its streams have recorded,
    and the delta caches agree with the full snapshot.
   */
  lemma QuiescentServesServices(y: Sys, store: ST.ServiceMap, authority: string, n: NodeId, t: TypeUrl)
    requires Reachable(y) && Quiescent(y, Services) && ST.WellNamed(store)
    requires y.published.services.Some? && FromServices(y.published.services.value, store, authority)
    requires n in y.st.nodes && t in TypesOf(Services)
    ensures y.st.Served(Services, n, t)
         == Restriction(y.st.localhost, ServiceItems(store, authority), t, Requested(y.st.nodes[n].Half(Services), t))
    ensures ClusterType in y.st.deltas && VirtualHostType in y.st.deltas && RouteType in y.st.deltas
    ensures ServiceDeltasAgree(y.st.Full(Services), y.st.deltas[ClusterType], y.st.deltas[VirtualHostType], y.st.deltas[RouteType])
  {
    hide Reachable, FromServices, ST.WellNamed, ServiceItems, DeltaItems, ServiceDeltasAgree, Restriction, Requested, NewSnapshot,
         ServiceDeltas, TypesOf;
    var p := y.published.services.value;
    assert y.published.Of(Services) == y.published.services;
    QuiescentHoldsPayload(y, Services);
    QuiescentServed(y, Services, n, t);
    ServicesPublished(p, store, authority);
    DeltasByType(store);
    ServiceItemsAgree(store, authority);
  }

  lemma DeltasByType(store: ST.ServiceMap)
    requires ST.WellNamed(store)
    ensures var deltas := ServiceDeltas(store);
            && ClusterType in deltas && deltas[ClusterType] == DeltaItems(ClusterType, store)
            && VirtualHostType in deltas && deltas[VirtualHostType] == DeltaItems(VirtualHostType, store)
            && RouteType in deltas && deltas[RouteType] == map["kube_dynamic" := ST.KUBE_DYNAMIC]
  {
    hide DeltaItems, ST.WellNamed;
  }

  lemma QuiescentServesEndpoints(y: Sys, store: ET.EndpointMap, authority: string, n: NodeId)
    requires Reachable(y) && Quiescent(y, Endpoints) && ET.WellNamed(store)
    requires y.published.endpoints.Some? && FromEndpoints(y.published.endpoints.value, store, authority)
    requires n in y.st.nodes
    ensures y.st.Served(Endpoints, n, EndpointType)
         == Restriction(y.st.localhost, EndpointItems(store, authority), EndpointType,
                        Requested(y.st.nodes[n].Half(Endpoints), EndpointType))
    ensures var full := ItemsOf(y.st.Full(Endpoints), EndpointType);
            EndpointType in y.st.deltas && y.st.deltas[EndpointType] == map x | x in full && !IsXdstp(x) :: full[x]
  {
    assert y.published.Of(Endpoints) == y.published.endpoints;
    assert EndpointType in y.published.endpoints.value.deltas;
    hide Reachable, FromEndpoints, ET.WellNamed, EndpointItems, DeltaEndpoints, Restriction, Requested, NewSnapshot, IsXdstp;
    QuiescentHoldsPayload(y, Endpoints);
    QuiescentServed(y, Endpoints, n, EndpointType);
    EndpointsPublished(y.published.endpoints.value, store, authority);
    EndpointItemsAgree(store, authority);
  }

  // ---------------------------------------------------------------------
  // Following a listener to its endpoints

  /** A listener of the full snapshot routes to the cluster of its own service, port and authority, also there. */
  lemma ListenersReachClusters(store: ST.ServiceMap, authority: string, x: string) returns (key: string, port: int, a: string)
    requires ST.WellNamed(store) && x in ItemsOf(ServiceItems(store, authority), ListenerType)
    ensures a in {"", authority} && key in store && port in store[key].kube.ports
    ensures x == ListenerNameFor(store[key].kube.name, store[key].kube.namespace, a, port)
    ensures var l, cls := ItemsOf(ServiceItems(store, authority), ListenerType)[x], ItemsOf(ServiceItems(store, authority), ClusterType);
            && l.Listener? && |l.inlined.virtualHosts| == 1
            && var cluster := l.inlined.virtualHosts[0].cluster;
               && cluster == ClusterNameFor(store[key].kube.name, store[key].kube.namespace, a, port)
               && cluster in cls && cls[cluster].Cluster?
               && cls[cluster].EdsName() == LoadAssignmentNameFor(store[key].kube.name, store[key].kube.namespace, a, port)
  {
    hide LoadAssignmentNameFor, ClusterNameFor, ListenerNameFor, ST.MakeResource, ST.ServiceSet;
    ST.FullServiceSetDistinct(ListenerType, store, authority);
    ST.FullServiceSetDistinct(ClusterType, store, authority);
    var l := ItemsOf(ServiceItems(store, authority), ListenerType)[x];
    a := if l in ST.ServiceSet(ListenerType, store, "") then "" else authority;
    key, port := ST.ListenerReachesCluster(store, a, l);
    ST.Typed(ClusterType, store, a);
    var c :| c in ST.ServiceSet(ClusterType, store, a) && c.Cluster? && c.Name() == l.inlined.virtualHosts[0].cluster
             && c.EdsName() == LoadAssignmentNameFor(store[key].kube.name, store[key].kube.namespace, a, port);
    assert c in ST.FullServiceSet(ClusterType, store, authority);
  }

  /**
    The load assignment a cluster asks for is in the endpoints snapshot built for the same services exactly
    when its service has a populated slice with that port: a local one, or a remote one it may use.
   */
  lemma ClustersFindTheirEndpoints(c: C.Watched, svcs: ST.ServiceMap, authority: string, a: string, key: string, port: int)
    requires ST.WellNamed(svcs) && key in svcs && a in {"", authority}
    ensures ST.MakeCluster(svcs[key], a, port).EdsName() in PublishedEndpoints(c, svcs, authority)
       <==> LocalOn(c, svcs[key], port) || (svcs[key].config.enableRemoteEndpoints && RemoteOn(c, svcs[key], port))
  {
    var s := svcs[key];
    ST.ClusterAsksForEndpoints(s, a, port);
    hide LoadAssignmentNameFor, ClusterNameFor, C.SlicesFor, HasPort, PublishedEndpoints, Localities, Offered, At,
         C.LocalSlices, C.RemoteSlices, ST.WellNamed, LocalOn, RemoteOn;
    OffersAre(c, s, port);
    PublishedUnder(c, svcs, authority, a, key, port);
    ServiceLocalities(c, s, port);
    OfferedEmpty(C.LocalSlices(c, s), port);
    OfferedEmpty(C.RemoteSlices(c.remotes, s), port);
    AtLength(Offered(C.RemoteSlices(c.remotes, s), port), if C.RemotesFallBack(c, s) then 1 else 0);
  }

  // ---------------------------------------------------------------------
  // Configuration and addresses reach the clients

  lemma ResourceIsStored(t: TypeUrl, store: ST.ServiceMap, authority: string, a: string, key: string, port: int)
    requires ST.WellNamed(store) && a in {"", authority} && t in TypesOf(Services)
    requires key in store && port in store[key].kube.ports
    ensures var r := ST.MakeResource(t, store[key], a, port);
            r.Name() in ItemsOf(ServiceItems(store, authority), t)
            && ItemsOf(ServiceItems(store, authority), t)[r.Name()] == r
  {
    hide ST.MakeResource, ST.ServiceSet;
    ST.FullServiceSetDistinct(t, store, authority);
    ST.PortIsTranslated(t, store, a, key, port);
    assert ST.MakeResource(t, store[key], a, port) in ST.FullServiceSet(t, store, authority);
  }

  /** A cluster that balances as configured and takes its endpoints from the aggregated stream. */
  ghost predicate Balances(c: Resource, config: ST.ServiceConfig) {
    && c.Cluster? && c.policy == config.policy && c.edsSource == Ads && !c.http2
    && c.ringHash == if config.policy == RingHash then Some(config.ringHash) else None
  }

  /**
    A listener that answers for `domain` and under its own name, and for nothing else, routes to `cluster`
    and hashes and retries as configured, without discovering hosts.
   */
  ghost predicate RoutesTo(l: Resource, name: string, domain: string, cluster: string, config: ST.ServiceConfig) {
    && l.Listener? && l.name == name && |l.inlined.virtualHosts| == 1 && !l.inlined.dynamicHosts
    && var h := l.inlined.virtualHosts[0];
       && h.name == name && SetOf(h.domains) == {domain, name}
       && h.cluster == cluster && h.hashHeaders == config.hashHeaders && h.retry == config.retry && !h.onDemand
  }

  /**
    For every port of every stored service and both name schemes: the cluster found under the service's
    cluster name balances as the service is configured to, the listener found under its listener name
    answers for the service's domain, routes to that cluster and hashes and retries as configured, and
    the same route is found under the service's route name.
   */
  lemma ConfigurationIsServed(store: ST.ServiceMap, authority: string, a: string, key: string, port: int)
    requires ST.WellNamed(store) && a in {"", authority} && key in store && port in store[key].kube.ports
    ensures var name, ns, items := store[key].kube.name, store[key].kube.namespace, ServiceItems(store, authority);
            var cname, lname := ClusterNameFor(name, ns, a, port), ListenerNameFor(name, ns, a, port);
            var clusters, listeners := ItemsOf(items, ClusterType), ItemsOf(items, ListenerType);
            var rname, routes := RouteConfigNameFor(name, ns, a, port), ItemsOf(items, RouteType);
            && cname in clusters && Balances(clusters[cname], store[key].config)
            && lname in listeners
            && RoutesTo(listeners[lname], lname, GlobalServiceDomain(name, ns, port), cname, store[key].config)
            && rname in routes && routes[rname] == Route(listeners[lname].inlined)
  {
    hide ServiceItems, ST.WellNamed, Balances, RoutesTo, ST.MakeCluster, ST.MakeListener, ST.MakeRouteConfig,
         ClusterNameFor, ListenerNameFor, RouteConfigNameFor, GlobalServiceDomain;
    ResourceIsStored(ClusterType, store, authority, a, key, port);
    ResourceIsStored(ListenerType, store, authority, a, key, port);
    ResourceIsStored(RouteType, store, authority, a, key, port);
    MadeAsConfigured(store[key], a, port);
  }

  lemma MadeAsConfigured(s: ST.Service, a: string, port: int)
    ensures var name, ns := s.kube.name, s.kube.namespace;
            var c, l, r := ST.MakeCluster(s, a, port), ST.MakeListener(s, a, port), ST.MakeRouteConfig(s, a, port);
            && Balances(c, s.config) && c.Name() == ClusterNameFor(name, ns, a, port)
            && RoutesTo(l, ListenerNameFor(name, ns, a, port), GlobalServiceDomain(name, ns, port), c.Name(), s.config)
            && l.Name() == ListenerNameFor(name, ns, a, port) && l.inlined == r
            && Route(r).Name() == RouteConfigNameFor(name, ns, a, port)
  {
    var h, name, ns := ST.MakeVirtualHost(s, a, port), s.kube.name, s.kube.namespace;
    assert h.name == ListenerNameFor(name, ns, a, port);
    assert a == "" ==> ListenerNameFor(name, ns, a, port) == GlobalServiceDomain(name, ns, port);
    hide ClusterNameFor, LoadAssignmentNameFor, ListenerNameFor, RouteConfigNameFor, VirtualHostNameFor, GlobalServiceDomain;
    assert h.domains == [GlobalServiceDomain(name, ns, port)] + if a == "" then [] else [h.name];
    assert h.domains[0] == GlobalServiceDomain(name, ns, port);
    assert a != "" ==> h.domains[1] == h.name;
  }

  /**
    The load assignment found under the name of a service port is exactly that service's endpoints on that
    port: slice by slice in the order the slices were added, every endpoint of a slice once for each time
    the slice lists the port, with addresses, zone, pod, readiness and priority intact. Ports without any
    endpoint have no load assignment.
   */
  lemma EndpointsAreServed(store: ET.EndpointMap, authority: string, a: string, key: string, port: int)
    requires ET.WellNamed(store) && a in {"", authority} && key in store
    ensures var x := LoadAssignmentNameFor(store[key].service, store[key].namespace, a, port);
            var eds, ls := ItemsOf(EndpointItems(store, authority), EndpointType), Localities(store[key].slices, port);
            && (x in eds <==> ls != [])
            && (x in eds ==> eds[x] == LoadAssignment(x, ls))
  {
    hide LoadAssignmentNameFor, Localities, ET.PortAssignment, ET.PortsServed, EndpointItems, ET.WellNamed;
    var x := LoadAssignmentNameFor(store[key].service, store[key].namespace, a, port);
    AssignmentIs(store[key], a, port);
    if port in ET.PortsServed(store[key]) {
      AssignmentIsStored(store, authority, a, key, port);
    }
    if x in ItemsOf(EndpointItems(store, authority), EndpointType) {
      var key', port', a' := AssignmentOrigin(store, authority, x);
      SameNameSamePort(store, authority, key, port, a, key', port', a');
    }
  }

  lemma SameNameSamePort(store: ET.EndpointMap, authority: string, key: string, port: int, a: string,
                         key': string, port': int, a': string)
    requires ET.WellNamed(store) && key in store && key' in store && a in {"", authority} && a' in {"", authority}
    requires LoadAssignmentNameFor(store[key].service, store[key].namespace, a, port)
          == LoadAssignmentNameFor(store[key'].service, store[key'].namespace, a', port')
    ensures key == key' && port == port' && a == a'
  {
    var s, s' := store[key], store[key'];
    XdstpDisjoint(s.service, s.namespace, port, a);
    XdstpDisjoint(s'.service, s'.namespace, port', a');
    hide LoadAssignmentNameFor, IsXdstp;
    NamesInjective(s.service, s.namespace, port, s'.service, s'.namespace, port', a);
  }

  /** Nothing else is published: every listener, route and cluster is that of a port of a stored service. */
  lemma EveryResourceHasAService(store: ST.ServiceMap, authority: string, t: TypeUrl, x: string)
    returns (key: string, port: int, a: string)
    requires ST.WellNamed(store) && t in TypesOf(Services) && x in ItemsOf(ServiceItems(store, authority), t)
    ensures a in {"", authority} && key in store && port in store[key].kube.ports
    ensures var name, ns := store[key].kube.name, store[key].kube.namespace;
            && (t == ListenerType ==> x == ListenerNameFor(name, ns, a, port))
            && (t == RouteType ==> x == RouteConfigNameFor(name, ns, a, port))
            && (t == ClusterType ==> x == ClusterNameFor(name, ns, a, port))
  {
    hide LoadAssignmentNameFor, ClusterNameFor, ListenerNameFor, RouteConfigNameFor, ST.ServiceSet, GlobalServiceDomain;
    ST.FullServiceSetDistinct(t, store, authority);
    var r := ItemsOf(ServiceItems(store, authority), t)[x];
    a := if r in ST.ServiceSet(t, store, "") then "" else authority;
    key, port := ST.Origin(t, store, a, r);
  }

  // ---------------------------------------------------------------------
  // Localhost mode

  /** The resource made up for a name: everything leads to the workload's own host. */
  ghost predicate MadeUp(t: TypeUrl, x: string, r: Resource) {
    match t
    case ListenerType => r.Listener? && r.name == x && MadeUpRoute(x, r.inlined)
    case RouteType => r.Route? && MadeUpRoute(x, r.config)
    case ClusterType => r == Cluster(x, RoundRobin, None, Ads, "", false)
    case EndpointType =>
      r == LoadAssignment(x, [LocalityEndpoints("localhost", "localhost", 0, 100, [LbEndpoint("127.0.0.1", 18001, true)])])
    case _ => false
  }

  /** One host that answers for the name and routes to the name with its first colon turned into a dot. */
  ghost predicate MadeUpRoute(x: string, c: RouteConfig) {
    && c.name == x && !c.dynamicHosts && |c.virtualHosts| == 1
    && var h := c.virtualHosts[0];
       && h.name == x && h.domains == [x] && h.hashHeaders == [] && h.retry.None? && !h.onDemand
       && (':' !in x ==> h.cluster == x)
       && (forall a, b | x == a + ":" + b && ':' !in a :: h.cluster == a + "." + b)
  }

  lemma DummyIsMadeUp(t: TypeUrl, x: string)
    requires KindOf(t).Some?
    ensures MadeUp(t, x, Dummy(t, x))
  {
    if ':' !in x {
      ReplaceNoColon(x);
    }
    forall a, b | x == a + ":" + b && ':' !in a ensures ReplaceFirstColon(x) == a + "." + b {
      ReplaceFirstColonAt(a, b);
    }
    hide ReplaceFirstColon;
  }

  /** In localhost mode every recorded name is served, whatever is published, and everything is local. */
  lemma LocalhostServesEveryName(y: Sys, k: Kind, n: NodeId, t: TypeUrl)
    requires Reachable(y) && Quiescent(y, k) && y.st.localhost && n in y.st.nodes && t in TypesOf(k)
    ensures y.st.Served(k, n, t).Keys == Requested(y.st.nodes[n].Half(k), t)
    ensures forall x | x in y.st.Served(k, n, t) :: MadeUp(t, x, y.st.Served(k, n, t)[x])
  {
    QuiescentServed(y, k, n, t);
    hide Reachable, Requested, TypesOf, MadeUp, Dummy;
    var names := Requested(y.st.nodes[n].Half(k), t);
    assert y.st.Served(k, n, t) == Restriction(true, y.st.Full(k), t, names);
    forall x | x in names ensures Find(true, y.st.Full(k), t, x) == Some(Dummy(t, x)) && MadeUp(t, x, Dummy(t, x)) {
      DummyIsMadeUp(t, x);
    }
  }
}
