/** xds/service.go: the service store and its translation to listeners, routes and clusters. */
module ServiceTranslation {
  import opened Collections
  import opened Names
  import opened Resources

  /** The part of a Kubernetes Service the server looks at; ports are int32 numbers. */
  datatype KubeService = KubeService(name: string, namespace: string, ports: seq<int>)

  datatype ServiceConfig = ServiceConfig(
    enableRemoteEndpoints: bool,
    policy: LbPolicy,
    ringHash: Option<RingHashConfig>,
    hashHeaders: seq<string>,
    prioritizeLocalEndpoints: bool,
    retry: Option<RetryPolicy>)

  datatype Service = Service(kube: KubeService, config: ServiceConfig)

  type ServiceMap = map<string, Service>

  /** Every service sits under its own key. */
  ghost predicate Keyed(store: ServiceMap) {
    forall key | key in store :: key == Key(store[key].kube.name, store[key].kube.namespace)
  }

  /** Namespaces are DNS labels, so they hold no dot. */
  ghost predicate DotFree(store: ServiceMap) {
    forall key | key in store :: '.' !in store[key].kube.namespace
  }

  ghost predicate SlashFree(store: ServiceMap) {
    forall key | key in store :: '/' !in store[key].kube.name && '/' !in store[key].kube.namespace
  }

  ghost predicate WellNamed(store: ServiceMap) {
    Keyed(store) && DotFree(store) && SlashFree(store)
  }

  class XdsServiceStore {
    var store: ServiceMap

    constructor ()
      ensures store == map[]
    {
      store := map[];
    }

    method AddOrUpdate(kube: KubeService, config: ServiceConfig)
      requires Keyed(store)
      modifies this
      ensures Keyed(store)
      ensures store == old(store)[Key(kube.name, kube.namespace) := Service(kube, config)]
    {
      store := store[Key(kube.name, kube.namespace) := Service(kube, config)];
    }

    method Get(service: string, namespace: string) returns (r: Result<Service, string>)
      ensures r.Ok? <==> Found(store, service, namespace).Some?
      ensures r.Ok? ==> Found(store, service, namespace) == Some(r.value)
    {
      var key := Key(service, namespace);
      r := if key in store then Ok(store[key]) else Err("Service not found in store");
    }
  }

  function Found(store: ServiceMap, service: string, namespace: string): Option<Service> {
    if Key(service, namespace) in store then Some(store[Key(service, namespace)]) else None
  }

  /** What was put in last is what comes out, and with dot-free namespaces no other service is affected. */
  lemma UpdateThenGet(store: ServiceMap, s: Service, service: string, namespace: string)
    requires '.' !in s.kube.namespace && '.' !in namespace
    ensures Found(store[Key(s.kube.name, s.kube.namespace) := s], service, namespace)
         == if service == s.kube.name && namespace == s.kube.namespace then Some(s) else Found(store, service, namespace)
  {
    if Key(service, namespace) == Key(s.kube.name, s.kube.namespace) {
      KeyInjective(service, namespace, s.kube.name, s.kube.namespace);
    }
    hide Key;
  }

  // ---------------------------------------------------------------------
  // Resources of one service port

  function MakeVirtualHost(s: Service, authority: string, port: int): VirtualHost {
    var k := s.kube;
    var name := VirtualHostNameFor(k.name, k.namespace, authority, port);
    VirtualHost(
      name,
      [GlobalServiceDomain(k.name, k.namespace, port)] + (if authority == "" then [] else [name]),
      ClusterNameFor(k.name, k.namespace, authority, port),
      s.config.hashHeaders,
      s.config.retry,
      false)
  }

  function MakeRouteConfig(s: Service, authority: string, port: int): RouteConfig {
    RouteConfig(
      RouteConfigNameFor(s.kube.name, s.kube.namespace, authority, port),
      [MakeVirtualHost(s, authority, port)],
      false)
  }

  /** The listener carries its route configuration inlined in the connection manager. */
  function MakeListener(s: Service, authority: string, port: int): Resource {
    Listener(
      ListenerNameFor(s.kube.name, s.kube.namespace, authority, port),
      MakeRouteConfig(s, authority, port))
  }

  function MakeCluster(s: Service, authority: string, port: int): Resource {
    var k := s.kube;
    var c := MakeEdsCluster(ClusterNameFor(k.name, k.namespace, authority, port), s.config.policy);
    var named :=
      if authority == "" then c
      else c.(edsServiceName := LoadAssignmentNameFor(k.name, k.namespace, authority, port));
    if s.config.policy == RingHash then named.(ringHash := Some(s.config.ringHash)) else named
  }

  const SERVICE_TYPES: set<TypeUrl> := TypesOf(Services) + {VirtualHostType}

  function MakeResource(t: TypeUrl, s: Service, authority: string, port: int): Resource
    requires t in SERVICE_TYPES
  {
    match t
    case ListenerType => MakeListener(s, authority, port)
    case RouteType => Route(MakeRouteConfig(s, authority, port))
    case ClusterType => MakeCluster(s, authority, port)
    case VirtualHostType => Host(MakeVirtualHost(s, authority, port))
  }

  /**
    The forms served on delta streams. A delta cluster asks the server named xds_cluster and drops its
    EDS service name; a delta virtual host is prefixed and discovers its clusters on demand.
   */
  function DeltaPatch(r: Resource): Resource {
    match r
    case Cluster(_, _, _, _, _, _) => r.(http2 := true, edsSource := DeltaGrpc("xds_cluster"), edsServiceName := "")
    case Host(vh) => Host(vh.(name := "kube_dynamic/" + vh.name, onDemand := true))
    case _ => r
  }

  const KUBE_DYNAMIC: Resource := Route(RouteConfig("kube_dynamic", [], true))

  // ---------------------------------------------------------------------
  // The translation of a store, as sets of resources

  ghost function PortSet(t: TypeUrl, s: Service, authority: string, n: nat): set<Resource>
    requires t in SERVICE_TYPES && n <= |s.kube.ports|
  {
    set i | 0 <= i < n :: MakeResource(t, s, authority, s.kube.ports[i])
  }

  ghost function KeysSet(t: TypeUrl, store: ServiceMap, keys: set<string>, authority: string): set<Resource>
    requires t in SERVICE_TYPES && keys <= store.Keys
  {
    set key, r | key in keys && r in PortSet(t, store[key], authority, |store[key].kube.ports|) :: r
  }

  /** One resource of type `t` for every port of every stored service. */
  ghost function ServiceSet(t: TypeUrl, store: ServiceMap, authority: string): set<Resource>
    requires t in SERVICE_TYPES
  {
    KeysSet(t, store, store.Keys, authority)
  }

  ghost function Patched(rs: set<Resource>): set<Resource> {
    set r | r in rs :: DeltaPatch(r)
  }

  ghost function DeltaSet(t: TypeUrl, store: ServiceMap, authority: string): set<Resource>
    requires t in SERVICE_TYPES
  {
    Patched(ServiceSet(t, store, authority))
  }

  /** Every resource of a translated store comes from a port of a stored service. */
  lemma Origin(t: TypeUrl, store: ServiceMap, authority: string, r: Resource) returns (key: string, port: int)
    requires t in SERVICE_TYPES && r in ServiceSet(t, store, authority)
    ensures key in store && port in store[key].kube.ports
    ensures r == MakeResource(t, store[key], authority, port)
  {
    key :| key in store && r in PortSet(t, store[key], authority, |store[key].kube.ports|);
    var i :| 0 <= i < |store[key].kube.ports| && r == MakeResource(t, store[key], authority, store[key].kube.ports[i]);
    port := store[key].kube.ports[i];
  }

  lemma PortIsTranslated(t: TypeUrl, store: ServiceMap, authority: string, key: string, port: int)
    requires t in SERVICE_TYPES && key in store && port in store[key].kube.ports
    ensures MakeResource(t, store[key], authority, port) in ServiceSet(t, store, authority)
  {
    var ports := store[key].kube.ports;
    var i :| 0 <= i < |ports| && ports[i] == port;
    assert MakeResource(t, store[key], authority, port) in PortSet(t, store[key], authority, |ports|);
  }

  lemma Typed(t: TypeUrl, store: ServiceMap, authority: string)
    requires t in SERVICE_TYPES
    ensures forall r | r in ServiceSet(t, store, authority) ::
              && (t == ListenerType ==> r.Listener?)
              && (t == ClusterType ==> r.Cluster?)
              && (t == VirtualHostType ==> r.Host?)
  {
  }

  /** Two resources generated under one name are equal, so map iteration order cannot show. */
  lemma ServiceSetDistinct(t: TypeUrl, store: ServiceMap, authority: string)
    requires t in SERVICE_TYPES && Keyed(store) && DotFree(store)
    ensures Distinct(ServiceSet(t, store, authority))
  {
    hide ClusterNameFor, LoadAssignmentNameFor, ListenerNameFor, RouteConfigNameFor, GlobalServiceDomain;
    var rs := ServiceSet(t, store, authority);
    forall r, q | r in rs && q in rs && r.Name() == q.Name() ensures r == q {
      var key, port := Origin(t, store, authority, r);
      var key', port' := Origin(t, store, authority, q);
      NamesInjective(store[key].kube.name, store[key].kube.namespace, port,
                     store[key'].kube.name, store[key'].kube.namespace, port', authority);
    }
  }

  /** What one services snapshot of a server with the given authority holds for type `t`. */
  ghost function FullServiceSet(t: TypeUrl, store: ServiceMap, authority: string): set<Resource>
    requires t in SERVICE_TYPES
  {
    ServiceSet(t, store, "") + (if authority == "" then {} else ServiceSet(t, store, authority))
  }

  lemma ServiceSetXdstp(t: TypeUrl, store: ServiceMap, authority: string)
    requires t in SERVICE_TYPES && SlashFree(store)
    ensures forall r | r in ServiceSet(t, store, authority) :: IsXdstp(r.Name()) <==> authority != ""
  {
    hide ClusterNameFor, LoadAssignmentNameFor, ListenerNameFor, RouteConfigNameFor, GlobalServiceDomain, IsXdstp;
    forall r | r in ServiceSet(t, store, authority) ensures IsXdstp(r.Name()) <==> authority != "" {
      var key, port := Origin(t, store, authority, r);
      XdstpDisjoint(store[key].kube.name, store[key].kube.namespace, port, authority);
    }
  }

  /** The plain pass and the federated pass never overwrite each other's resources. */
  lemma FullServiceSetDistinct(t: TypeUrl, store: ServiceMap, authority: string)
    requires t in SERVICE_TYPES && WellNamed(store)
    ensures Distinct(FullServiceSet(t, store, authority))
  {
    ServiceSetDistinct(t, store, "");
    ServiceSetDistinct(t, store, authority);
    ServiceSetXdstp(t, store, "");
    ServiceSetXdstp(t, store, authority);
  }

  /** A cluster asks for exactly the load assignment name of its own service, port and authority. */
  lemma ClusterAsksForEndpoints(s: Service, authority: string, port: int)
    ensures MakeCluster(s, authority, port).EdsName()
         == LoadAssignmentNameFor(s.kube.name, s.kube.namespace, authority, port)
  {
    assert authority != "" ==> LoadAssignmentNameFor(s.kube.name, s.kube.namespace, authority, port)[0] == 'x';
  }

  /**
    Referential closure: the route inlined in the listener of a service port targets the generated cluster
    of the same service and port, and that cluster asks for the load assignment name of that port.
   */
  lemma ListenerReachesCluster(store: ServiceMap, authority: string, l: Resource) returns (key: string, port: int)
    requires l in ServiceSet(ListenerType, store, authority)
    ensures key in store && port in store[key].kube.ports
    ensures l.Listener? && Route(l.inlined) in ServiceSet(RouteType, store, authority)
    ensures |l.inlined.virtualHosts| == 1
    ensures var name, ns := store[key].kube.name, store[key].kube.namespace;
            && l.Name() == ListenerNameFor(name, ns, authority, port)
            && l.inlined.virtualHosts[0].cluster == ClusterNameFor(name, ns, authority, port)
    ensures exists c | c in ServiceSet(ClusterType, store, authority) ::
              && c.Name() == l.inlined.virtualHosts[0].cluster
              && c.EdsName() == LoadAssignmentNameFor(store[key].kube.name, store[key].kube.namespace, authority, port)
  {
    hide ClusterNameFor, LoadAssignmentNameFor, ListenerNameFor, RouteConfigNameFor, GlobalServiceDomain;
    key, port := Origin(ListenerType, store, authority, l);
    PortIsTranslated(RouteType, store, authority, key, port);
    PortIsTranslated(ClusterType, store, authority, key, port);
    ClusterAsksForEndpoints(store[key], authority, port);
    assert MakeCluster(store[key], authority, port) in ServiceSet(ClusterType, store, authority);
  }

  lemma DeltaSetDistinct(t: TypeUrl, store: ServiceMap, authority: string)
    requires t in {ClusterType, VirtualHostType} && Keyed(store) && DotFree(store)
    ensures Distinct(DeltaSet(t, store, authority))
  {
    hide MakeResource;
    ServiceSetDistinct(t, store, authority);
    Typed(t, store, authority);
    var rs := ServiceSet(t, store, authority);
    forall r, q | r in rs && q in rs && DeltaPatch(r).Name() == DeltaPatch(q).Name() ensures r == q {
      if t == VirtualHostType {
        PrefixCancel("kube_dynamic/", r.Name(), q.Name());
      }
    }
  }

  /** Delta clusters are the full snapshot's clusters with plain names, patched and nothing else. */
  lemma DeltaClustersAgree(store: ServiceMap, authority: string)
    requires WellNamed(store)
    requires Distinct(FullServiceSet(ClusterType, store, authority)) && Distinct(DeltaSet(ClusterType, store, ""))
    ensures var full := ByName(FullServiceSet(ClusterType, store, authority));
            ByName(DeltaSet(ClusterType, store, "")) == map n | n in full && !IsXdstp(n) :: DeltaPatch(full[n])
  {
    ServiceSetXdstp(ClusterType, store, "");
    ServiceSetXdstp(ClusterType, store, authority);
    Typed(ClusterType, store, "");
    PatchPlain(ServiceSet(ClusterType, store, ""), FullServiceSet(ClusterType, store, authority));
  }

  /** `d` is cluster `c` for delta streams: it balances alike and asks xds_cluster for the same endpoints. */
  ghost predicate IsDeltaCluster(d: Resource, c: Resource) {
    && d.Cluster? && c.Cluster? && d.name == c.name && d.policy == c.policy && d.ringHash == c.ringHash
    && d.http2 && d.edsSource == DeltaGrpc("xds_cluster") && d.EdsName() == c.EdsName()
  }

  lemma PlainClustersPatch(store: ServiceMap, authority: string, c: Resource)
    requires WellNamed(store) && c in FullServiceSet(ClusterType, store, authority) && !IsXdstp(c.Name())
    ensures IsDeltaCluster(DeltaPatch(c), c)
  {
    hide IsXdstp, ClusterNameFor, LoadAssignmentNameFor;
    ServiceSetXdstp(ClusterType, store, authority);
    var key, port := Origin(ClusterType, store, "", c);
  }

  lemma PatchKeepsName(c: Resource)
    requires c.Cluster?
    ensures DeltaPatch(c).Name() == c.Name()
  {
  }

  lemma PatchPlain(plain: set<Resource>, all: set<Resource>)
    requires Distinct(all) && Distinct(Patched(plain))
    requires forall r | r in all :: r in plain <==> !IsXdstp(r.Name())
    requires forall r | r in plain :: r in all && r.Cluster?
    ensures ByName(Patched(plain)) == map n | n in ByName(all) && !IsXdstp(n) :: DeltaPatch(ByName(all)[n])
  {
    hide IsXdstp, DeltaPatch;
    forall c: Resource | c.Cluster? ensures DeltaPatch(c).Name() == c.Name() {
      PatchKeepsName(c);
    }
    var full, delta := ByName(all), ByName(Patched(plain));
    forall n | n in delta ensures n in full && !IsXdstp(n) && DeltaPatch(full[n]) == delta[n] {
      var c :| c in plain && delta[n] == DeltaPatch(c);
      assert c in all && c.Name() == n;
    }
    forall n | n in full && !IsXdstp(n) ensures n in delta {
      assert DeltaPatch(full[n]) in Patched(plain);
    }
  }

  /** The host inlined in a plain listener is translated too, under the listener's name. */
  lemma HostOfListener(store: ServiceMap, l: Resource) returns (h: Resource)
    requires l in ServiceSet(ListenerType, store, "")
    ensures h in ServiceSet(VirtualHostType, store, "") && h.Host? && h.Name() == l.Name() && !h.host.onDemand
    ensures l.Listener? && l.inlined.virtualHosts == [h.host]
  {
    var key, port := Origin(ListenerType, store, "", l);
    PortIsTranslated(VirtualHostType, store, "", key, port);
    h := Host(MakeVirtualHost(store[key], "", port));
  }

  lemma ClusterOfHost(store: ServiceMap, authority: string, h: Resource) returns (c: Resource)
    requires h in ServiceSet(VirtualHostType, store, authority)
    ensures c in ServiceSet(ClusterType, store, authority) && c.Cluster? && h.Host? && h.host.cluster == c.Name()
  {
    var key, port := Origin(VirtualHostType, store, authority, h);
    PortIsTranslated(ClusterType, store, authority, key, port);
    c := MakeCluster(store[key], authority, port);
  }

  lemma ListenerOfHost(store: ServiceMap, h: Resource) returns (l: Resource)
    requires h in ServiceSet(VirtualHostType, store, "")
    ensures l in ServiceSet(ListenerType, store, "") && l.Name() == h.Name()
  {
    var key, port := Origin(VirtualHostType, store, "", h);
    PortIsTranslated(ListenerType, store, "", key, port);
    l := MakeListener(store[key], "", port);
  }

  /** The delta hosts are the virtual hosts of the plain listeners, renamed, on demand and otherwise the same. */
  lemma DeltaHostsAgree(store: ServiceMap, authority: string)
    requires WellNamed(store)
    requires Distinct(FullServiceSet(ListenerType, store, authority)) && Distinct(DeltaSet(VirtualHostType, store, ""))
    ensures var listeners := ByName(FullServiceSet(ListenerType, store, authority));
            var hosts := ByName(DeltaSet(VirtualHostType, store, ""));
            forall n | n in listeners && !IsXdstp(n) ::
              && listeners[n].Listener? && "kube_dynamic/" + n in hosts && hosts["kube_dynamic/" + n].Host?
              && hosts["kube_dynamic/" + n].host.onDemand
              && listeners[n].inlined.virtualHosts == [hosts["kube_dynamic/" + n].host.(name := n, onDemand := false)]
    ensures var listeners := ByName(FullServiceSet(ListenerType, store, authority));
            forall x | x in ByName(DeltaSet(VirtualHostType, store, "")) ::
              exists n | n in listeners && !IsXdstp(n) :: x == "kube_dynamic/" + n
  {
    hide MakeResource, IsXdstp;
    var listeners := ByName(FullServiceSet(ListenerType, store, authority));
    var hosts := ByName(DeltaSet(VirtualHostType, store, ""));
    ServiceSetXdstp(ListenerType, store, authority);
    forall n | n in listeners && !IsXdstp(n)
      ensures listeners[n].Listener? && "kube_dynamic/" + n in hosts && hosts["kube_dynamic/" + n].Host?
      ensures hosts["kube_dynamic/" + n].host.onDemand
      ensures listeners[n].inlined.virtualHosts == [hosts["kube_dynamic/" + n].host.(name := n, onDemand := false)]
    {
      var h := HostOfListener(store, listeners[n]);
      assert DeltaPatch(h) in DeltaSet(VirtualHostType, store, "");
    }
    DeltaHostsComeFromListeners(store, authority);
  }

  lemma DeltaHostsComeFromListeners(store: ServiceMap, authority: string)
    requires WellNamed(store)
    requires Distinct(FullServiceSet(ListenerType, store, authority)) && Distinct(DeltaSet(VirtualHostType, store, ""))
    ensures var listeners := ByName(FullServiceSet(ListenerType, store, authority));
            forall x | x in ByName(DeltaSet(VirtualHostType, store, "")) ::
              exists n | n in listeners && !IsXdstp(n) :: x == "kube_dynamic/" + n
  {
    hide MakeResource, IsXdstp;
    var listeners, hosts := ByName(FullServiceSet(ListenerType, store, authority)), ByName(DeltaSet(VirtualHostType, store, ""));
    ServiceSetXdstp(ListenerType, store, "");
    Typed(VirtualHostType, store, "");
    forall x | x in hosts ensures exists n | n in listeners && !IsXdstp(n) :: x == "kube_dynamic/" + n {
      var h :| h in ServiceSet(VirtualHostType, store, "") && hosts[x] == DeltaPatch(h);
      var l := ListenerOfHost(store, h);
      assert l in FullServiceSet(ListenerType, store, authority);
      assert l.Name() in listeners;
    }
  }

  lemma DeltaHostsReachDeltaClusters(store: ServiceMap)
    requires Distinct(DeltaSet(ClusterType, store, "")) && Distinct(DeltaSet(VirtualHostType, store, ""))
    ensures var hosts := ByName(DeltaSet(VirtualHostType, store, ""));
            forall n | n in hosts :: hosts[n].Host? && hosts[n].host.cluster in ByName(DeltaSet(ClusterType, store, ""))
  {
    hide MakeResource;
    var hosts := ByName(DeltaSet(VirtualHostType, store, ""));
    forall n | n in hosts
      ensures hosts[n].Host? && hosts[n].host.cluster in ByName(DeltaSet(ClusterType, store, ""))
    {
      var h :| h in ServiceSet(VirtualHostType, store, "") && hosts[n] == DeltaPatch(h);
      var c := ClusterOfHost(store, "", h);
      assert DeltaPatch(c) in DeltaSet(ClusterType, store, "");
    }
  }

  // ---------------------------------------------------------------------
  // The loops of servicesToResources and servicesToResourcesWithNames

  /** The inner loop: the resources of one service, port by port. */
  method PortsToResources(s: Service, authority: string)
    returns (cls: seq<Resource>, rds: seq<Resource>, lsnr: seq<Resource>)
    ensures SetOf(cls) == PortSet(ClusterType, s, authority, |s.kube.ports|)
    ensures SetOf(rds) == PortSet(RouteType, s, authority, |s.kube.ports|)
    ensures SetOf(lsnr) == PortSet(ListenerType, s, authority, |s.kube.ports|)
  {
    hide MakeVirtualHost;
    hide ClusterNameFor, LoadAssignmentNameFor, ListenerNameFor, RouteConfigNameFor, GlobalServiceDomain;
    cls, rds, lsnr := [], [], [];
    for i := 0 to |s.kube.ports|
      invariant SetOf(cls) == PortSet(ClusterType, s, authority, i)
      invariant SetOf(rds) == PortSet(RouteType, s, authority, i)
      invariant SetOf(lsnr) == PortSet(ListenerType, s, authority, i)
    {
      var port := s.kube.ports[i];
      AppendPort(ClusterType, s, authority, i, cls);
      AppendPort(RouteType, s, authority, i, rds);
      AppendPort(ListenerType, s, authority, i, lsnr);
      rds := rds + [Route(MakeRouteConfig(s, authority, port))];
      lsnr := lsnr + [MakeListener(s, authority, port)];
      cls := cls + [MakeCluster(s, authority, port)];
    }
  }

  /** Whatever order the store is visited in, the lists hold exactly the translation of the store. */
  method ServicesToResources(store: ServiceMap, authority: string)
    returns (cls: seq<Resource>, rds: seq<Resource>, lsnr: seq<Resource>)
    ensures SetOf(cls) == ServiceSet(ClusterType, store, authority)
    ensures SetOf(rds) == ServiceSet(RouteType, store, authority)
    ensures SetOf(lsnr) == ServiceSet(ListenerType, store, authority)
  {
    cls, rds, lsnr := [], [], [];
    var todo, done := store.Keys, {};
    while todo != {}
      invariant todo + done == store.Keys
      invariant SetOf(cls) == KeysSet(ClusterType, store, done, authority)
      invariant SetOf(rds) == KeysSet(RouteType, store, done, authority)
      invariant SetOf(lsnr) == KeysSet(ListenerType, store, done, authority)
      decreases todo
    {
      var key :| key in todo;
      var c, r, l := PortsToResources(store[key], authority);
      AppendKey(ClusterType, store, done, key, authority, cls, c);
      AppendKey(RouteType, store, done, key, authority, rds, r);
      AppendKey(ListenerType, store, done, key, authority, lsnr, l);
      cls, rds, lsnr := cls + c, rds + r, lsnr + l;
      todo, done := todo - {key}, done + {key};
    }
    assert done == store.Keys;
  }

  lemma AppendPort(t: TypeUrl, s: Service, authority: string, i: nat, list: seq<Resource>)
    requires t in SERVICE_TYPES && i < |s.kube.ports|
    ensures SetOf(list + [MakeResource(t, s, authority, s.kube.ports[i])])
         == SetOf(list) + {MakeResource(t, s, authority, s.kube.ports[i])}
    ensures PortSet(t, s, authority, i + 1)
         == PortSet(t, s, authority, i) + {MakeResource(t, s, authority, s.kube.ports[i])}
  {
    hide MakeResource;
  }

  lemma AppendKey(t: TypeUrl, store: ServiceMap, done: set<string>, key: string, authority: string,
                  list: seq<Resource>, more: seq<Resource>)
    requires t in SERVICE_TYPES && done <= store.Keys && key in store
    requires SetOf(list) == KeysSet(t, store, done, authority)
    requires SetOf(more) == PortSet(t, store[key], authority, |store[key].kube.ports|)
    ensures SetOf(list + more) == KeysSet(t, store, done + {key}, authority)
  {
    assert SetOf(list + more) == SetOf(list) + SetOf(more);
  }

  /** The inner loop of the delta form: patched resources are filed under their names. */
  method FileDeltaPorts(s: Service, authority: string, cls0: Index, vhds0: Index,
                        ghost cs: set<Resource>, ghost vs: set<Resource>)
    returns (cls: Index, vhds: Index)
    requires IsIndexOf(cls0, cs) && IsIndexOf(vhds0, vs)
    ensures IsIndexOf(cls, cs + Patched(PortSet(ClusterType, s, authority, |s.kube.ports|)))
    ensures IsIndexOf(vhds, vs + Patched(PortSet(VirtualHostType, s, authority, |s.kube.ports|)))
  {
    hide MakeVirtualHost, MakeCluster, DeltaPatch, IsIndexOf;
    cls, vhds := cls0, vhds0;
    assert cs + Patched(PortSet(ClusterType, s, authority, 0)) == cs;
    assert vs + Patched(PortSet(VirtualHostType, s, authority, 0)) == vs;
    for i := 0 to |s.kube.ports|
      invariant IsIndexOf(cls, cs + Patched(PortSet(ClusterType, s, authority, i)))
      invariant IsIndexOf(vhds, vs + Patched(PortSet(VirtualHostType, s, authority, i)))
    {
      var port := s.kube.ports[i];
      var vh := DeltaPatch(Host(MakeVirtualHost(s, authority, port)));
      var cluster := DeltaPatch(MakeCluster(s, authority, port));
      PatchedPort(ClusterType, s, authority, i);
      PatchedPort(VirtualHostType, s, authority, i);
      IndexInsert(vhds, vs, Patched(PortSet(VirtualHostType, s, authority, i)), vh);
      IndexInsert(cls, cs, Patched(PortSet(ClusterType, s, authority, i)), cluster);
      vhds := vhds[vh.Name() := vh];
      cls := cls[cluster.Name() := cluster];
    }
  }

  lemma PatchedPort(t: TypeUrl, s: Service, authority: string, i: nat)
    requires t in SERVICE_TYPES && i < |s.kube.ports|
    ensures Patched(PortSet(t, s, authority, i + 1))
         == Patched(PortSet(t, s, authority, i)) + {DeltaPatch(MakeResource(t, s, authority, s.kube.ports[i]))}
  {
    AppendPort(t, s, authority, i, []);
  }

  lemma PatchedKey(t: TypeUrl, store: ServiceMap, done: set<string>, key: string, authority: string)
    requires t in SERVICE_TYPES && done <= store.Keys && key in store
    ensures Patched(KeysSet(t, store, done + {key}, authority))
         == Patched(KeysSet(t, store, done, authority))
            + Patched(PortSet(t, store[key], authority, |store[key].kube.ports|))
  {
    var port := PortSet(t, store[key], authority, |store[key].kube.ports|);
    assert KeysSet(t, store, done + {key}, authority) == KeysSet(t, store, done, authority) + port;
  }

  /** The delta maps are the index of the patched translation, whatever order the store is visited in. */
  method ServicesToResourcesWithNames(store: ServiceMap, authority: string)
    returns (cls: Index, vhds: Index, rds: Index)
    ensures IsIndexOf(cls, DeltaSet(ClusterType, store, authority))
    ensures IsIndexOf(vhds, DeltaSet(VirtualHostType, store, authority))
    ensures rds == map["kube_dynamic" := KUBE_DYNAMIC]
  {
    cls, vhds := map[], map[];
    var todo, done := store.Keys, {};
    while todo != {}
      invariant todo + done == store.Keys
      invariant IsIndexOf(cls, Patched(KeysSet(ClusterType, store, done, authority)))
      invariant IsIndexOf(vhds, Patched(KeysSet(VirtualHostType, store, done, authority)))
      decreases todo
    {
      var key :| key in todo;
      cls, vhds := FileDeltaPorts(store[key], authority, cls, vhds,
        Patched(KeysSet(ClusterType, store, done, authority)), Patched(KeysSet(VirtualHostType, store, done, authority)));
      PatchedKey(ClusterType, store, done, key, authority);
      PatchedKey(VirtualHostType, store, done, key, authority);
      todo, done := todo - {key}, done + {key};
    }
    assert done == store.Keys;
    rds := map["kube_dynamic" := KUBE_DYNAMIC];
  }
}
