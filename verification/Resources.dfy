/** xDS resources, their types, and the by-name indexing every snapshot performs. */
module Resources {
  import opened Collections
  import opened Names

  datatype TypeUrl = ListenerType | RouteType | ClusterType | EndpointType | VirtualHostType | OtherType(url: string)

  /** The two halves of the server: each has its own snapshot cache and version counter. */
  datatype Kind = Services | Endpoints

  /** A pair of values, one per half. */
  datatype PerKind<T> = PerKind(services: T, endpoints: T) {
    function Of(k: Kind): T {
      match k case Services => services case Endpoints => endpoints
    }

    function With(k: Kind, v: T): PerKind<T> {
      match k case Services => this.(services := v) case Endpoints => this.(endpoints := v)
    }
  }

  /** mapTypeURL */
  function KindOf(t: TypeUrl): Option<Kind> {
    match t
    case ListenerType | RouteType | ClusterType => Some(Services)
    case EndpointType => Some(Endpoints)
    case VirtualHostType | OtherType(_) => None
  }

  function TypesOf(k: Kind): (ts: set<TypeUrl>)
    ensures forall t | t in ts :: KindOf(t) == Some(k)
    ensures forall t: TypeUrl | KindOf(t) == Some(k) :: t in ts
  {
    match k
    case Services => {ListenerType, RouteType, ClusterType}
    case Endpoints => {EndpointType}
  }

  datatype LbPolicy =
    RoundRobin | LeastRequest | RingHash | Random | Maglev | ClusterProvided | LoadBalancingPolicyConfig

  datatype RingHashConfig = RingHashConfig(minimumSize: Option<nat>, maximumSize: Option<nat>)

  datatype RetryPolicy = RetryPolicy(retryOn: string, numRetries: nat, baseInterval: int, maxInterval: int)

  /** A virtual host always carries one catch-all route, to `cluster`. */
  datatype VirtualHost = VirtualHost(
    name: string,
    domains: seq<string>,
    cluster: string,
    hashHeaders: seq<string>,
    retry: Option<RetryPolicy>,
    onDemand: bool)

  datatype RouteConfig = RouteConfig(name: string, virtualHosts: seq<VirtualHost>, dynamicHosts: bool)

  datatype ConfigSource = Ads | DeltaGrpc(cluster: string)

  datatype LbEndpoint = LbEndpoint(address: string, port: int, healthy: bool)

  datatype LocalityEndpoints = LocalityEndpoints(
    zone: string, subzone: string, priority: nat, weight: nat, lbEndpoints: seq<LbEndpoint>)

  datatype Resource =
    | Listener(name: string, inlined: RouteConfig)
    | Route(config: RouteConfig)
    | Cluster(name: string, policy: LbPolicy, ringHash: Option<Option<RingHashConfig>>,
              edsSource: ConfigSource, edsServiceName: string, http2: bool)
    | LoadAssignment(name: string, endpoints: seq<LocalityEndpoints>)
    | Host(host: VirtualHost)
  {
    function Name(): string {
      match this
      case Route(config) => config.name
      case Host(host) => host.name
      case Listener(n, _) => n
      case Cluster(n, _, _, _, _, _) => n
      case LoadAssignment(n, _) => n
    }

    /** The load assignment a cluster asks for: its EDS service name, or else its own name. */
    function EdsName(): string
      requires Cluster?
    {
      if edsServiceName == "" then name else edsServiceName
    }
  }

  type Index = map<string, Resource>

  /** Indexing of a resource list by name, as a new snapshot does it: a later duplicate wins. */
  function IndexByName(rs: seq<Resource>): Index {
    if rs == [] then map[]
    else
      var last := rs[|rs| - 1];
      IndexByName(rs[..|rs| - 1])[last.Name() := last]
  }

  /** The index holds exactly the names of the list, each with one of its resources. */
  lemma {:induction false} IndexSound(rs: seq<Resource>)
    ensures forall r | r in rs :: r.Name() in IndexByName(rs)
    ensures forall n | n in IndexByName(rs) :: IndexByName(rs)[n] in rs && IndexByName(rs)[n].Name() == n
  {
    if rs != [] {
      IndexSound(rs[..|rs| - 1]);
      assert rs == rs[..|rs| - 1] + [rs[|rs| - 1]];
    }
  }

  /** Of several resources of one name the last one is kept. */
  lemma {:induction false} LastDuplicateWins(rs: seq<Resource>, i: nat)
    requires i < |rs| && forall j | i < j < |rs| :: rs[j].Name() != rs[i].Name()
    ensures rs[i].Name() in IndexByName(rs) && IndexByName(rs)[rs[i].Name()] == rs[i]
  {
    if i < |rs| - 1 {
      LastDuplicateWins(rs[..|rs| - 1], i);
    }
  }

  /** In `rs` a name determines its resource. */
  ghost predicate Distinct(rs: set<Resource>) {
    forall r, q | r in rs && q in rs && r.Name() == q.Name() :: r == q
  }

  /** The index of a set of distinctly named resources: what its members are called decides everything. */
  ghost function ByName(rs: set<Resource>): Index
    requires Distinct(rs)
  {
    map r | r in rs :: r.Name() := r
  }

  /** `m` files resources of `rs` under their names, and misses none of these names. */
  ghost predicate IsIndexOf(m: Index, rs: set<Resource>) {
    && (forall r | r in rs :: r.Name() in m)
    && (forall n | n in m :: m[n] in rs && m[n].Name() == n)
  }

  lemma IndexInsert(m: Index, rs: set<Resource>, bs: set<Resource>, r: Resource)
    requires IsIndexOf(m, rs + bs)
    ensures IsIndexOf(m[r.Name() := r], rs + (bs + {r}))
  {
  }

  lemma IndexOfDistinct(m: Index, rs: set<Resource>)
    requires IsIndexOf(m, rs) && Distinct(rs)
    ensures m == ByName(rs)
  {
    forall n | n in m ensures n in ByName(rs) && ByName(rs)[n] == m[n] {
      assert m[n] in rs;
    }
    forall n | n in ByName(rs) ensures n in m {
      var r :| r in rs && r.Name() == n;
    }
  }

  /** Any list of distinctly named resources, in any order and with any repetitions, indexes alike. */
  lemma IndexIsByName(list: seq<Resource>)
    requires Distinct(SetOf(list))
    ensures IndexByName(list) == ByName(SetOf(list))
  {
    IndexSound(list);
    IndexOfDistinct(IndexByName(list), SetOf(list));
  }

  // ---------------------------------------------------------------------
  // Constructors shared by the translation and the localhost mode

  function MakeEdsCluster(name: string, policy: LbPolicy): Resource {
    Cluster(name, policy, None, Ads, "", false)
  }

  /** localityEndpoints: every locality has weight 100. */
  function MakeLocality(lbes: seq<LbEndpoint>, zone: string, subzone: string, priority: nat): LocalityEndpoints {
    LocalityEndpoints(zone, subzone, priority, 100, lbes)
  }

  function DummyRoute(name: string): RouteConfig {
    RouteConfig(name, [VirtualHost(name, [name], ReplaceFirstColon(name), [], None, false)], false)
  }

  /** makeDummyResources, for one requested name. */
  function Dummy(t: TypeUrl, name: string): (r: Resource)
    requires KindOf(t).Some?
    ensures r.Name() == name
  {
    match t
    case ListenerType => Listener(name, DummyRoute(name))
    case RouteType => Route(DummyRoute(name))
    case ClusterType => MakeEdsCluster(name, RoundRobin)
    case EndpointType =>
      LoadAssignment(name, [MakeLocality([LbEndpoint("127.0.0.1", 18001, true)], "localhost", "localhost", 0)])
  }

  /** In localhost mode the dummy listener of a service routes to the cluster name the service really has. */
  lemma DummyListenerRoutesToCluster(name: string, ns: string, port: int)
    requires ':' !in name && ':' !in ns
    ensures var l := Dummy(ListenerType, GlobalServiceDomain(name, ns, port));
            && l.Listener?
            && l.inlined == Dummy(RouteType, GlobalServiceDomain(name, ns, port)).config
            && |l.inlined.virtualHosts| == 1
            && l.inlined.virtualHosts[0].cluster == ClusterName(name, ns, port)
            && l.inlined.virtualHosts[0].cluster == Dummy(ClusterType, ClusterName(name, ns, port)).Name()
  {
    RewriteYieldsClusterName(name, ns, port);
  }
}
