/** controller/controller.go: building the stores from the watched clusters. */
module Controller {
  import opened Collections
  import opened Names
  import opened Resources
  import ST = ServiceTranslation
  import ET = EndpointTranslation

  const SERVICE_NAME_LABEL := "kubernetes.io/service-name"

  /** A Service the legacy watcher selects by label, with the policy its label asks for. */
  datatype LabelledService = LabelledService(kube: ST.KubeService, policy: LbPolicy)

  /** An XdsService resource with its parsed configuration. */
  datatype XdsService = XdsService(service: string, namespace: string, config: ST.ServiceConfig)

  /**
    The EndpointSlices one cluster lists. The (service, namespace) queries in `failing` fail, and so do
    the (slice, namespace) lookups in `unreadable`.
   */
  datatype Lister = Lister(
    slices: seq<ET.EndpointSlice>, failing: set<(string, string)>, unreadable: set<(string, string)>)

  datatype LookupError = NotFound | Unreadable

  /** Everything the controller reads. Services are looked up by name and namespace, and have ports. */
  datatype Watched = Watched(
    labelled: Result<seq<LabelledService>, string>,
    xdsServices: Result<seq<XdsService>, string>,
    services: map<(string, string), seq<int>>,
    local: Lister,
    remotes: seq<Lister>)
  {
    predicate Lists() {
      labelled.Ok? && xdsServices.Ok?
    }
  }

  // ---------------------------------------------------------------------
  // The service store

  function FromLabel(l: LabelledService): ST.Service {
    ST.Service(l.kube, ST.ServiceConfig(false, l.policy, None, [], false, None))
  }

  predicate Resolvable(c: Watched, x: XdsService) {
    (x.service, x.namespace) in c.services
  }

  function FromXds(c: Watched, x: XdsService): ST.Service
    requires Resolvable(c, x)
  {
    ST.Service(ST.KubeService(x.service, x.namespace, c.services[(x.service, x.namespace)]), x.config)
  }

  function Put(store: ST.ServiceMap, s: ST.Service): ST.ServiceMap {
    store[Key(s.kube.name, s.kube.namespace) := s]
  }

  function AddLabelled(ls: seq<LabelledService>): ST.ServiceMap {
    if ls == [] then map[] else Put(AddLabelled(ls[..|ls| - 1]), FromLabel(ls[|ls| - 1]))
  }

  function AddXds(c: Watched, base: ST.ServiceMap, xs: seq<XdsService>): ST.ServiceMap {
    if xs == [] then base
    else
      var store := AddXds(c, base, xs[..|xs| - 1]);
      if Resolvable(c, xs[|xs| - 1]) then Put(store, FromXds(c, xs[|xs| - 1])) else store
  }

  function ServiceStoreOf(c: Watched): ST.ServiceMap
    requires c.Lists()
  {
    AddXds(c, AddLabelled(c.labelled.value), c.xdsServices.value)
  }

  method ServicesToXdsServiceStore(c: Watched) returns (r: Result<ST.XdsServiceStore, string>)
    ensures r.Ok? <==> c.labelled.Ok? && c.xdsServices.Ok?
    ensures r.Ok? ==> r.value.store == ServiceStoreOf(c) && ST.Keyed(r.value.store)
  {
    var store := new ST.XdsServiceStore();
    if c.labelled.Err? {
      return Err("Failed to list Services from watcher");
    }
    var ls := c.labelled.value;
    for i := 0 to |ls|
      invariant ST.Keyed(store.store) && store.store == AddLabelled(ls[..i])
    {
      assert ls[..i + 1][..i] == ls[..i];
      store.AddOrUpdate(ls[i].kube, ST.ServiceConfig(false, ls[i].policy, None, [], false, None));
    }
    assert ls[..|ls|] == ls;
    if c.xdsServices.Err? {
      return Err("Failed to list XdsServices from watcher");
    }
    var xs := c.xdsServices.value;
    for i := 0 to |xs|
      invariant ST.Keyed(store.store) && store.store == AddXds(c, AddLabelled(ls), xs[..i])
    {
      assert xs[..i + 1][..i] == xs[..i];
      if (xs[i].service, xs[i].namespace) in c.services {
        var svc := ST.KubeService(xs[i].service, xs[i].namespace, c.services[(xs[i].service, xs[i].namespace)]);
        store.AddOrUpdate(svc, xs[i].config);
      }
    }
    assert xs[..|xs|] == xs;
    r := Ok(store);
  }

  /** XdsService `i` is the last one that targets the service under `key` and resolves. */
  ghost predicate LastXds(c: Watched, xs: seq<XdsService>, key: string, i: int) {
    && 0 <= i < |xs| && Targets(c, xs[i], key)
    && forall j | i < j < |xs| :: !Targets(c, xs[j], key)
  }

  predicate Targets(c: Watched, x: XdsService, key: string) {
    Resolvable(c, x) && Key(x.service, x.namespace) == key
  }

  ghost predicate LastLabelled(ls: seq<LabelledService>, key: string, i: int) {
    && 0 <= i < |ls| && LabelKey(ls[i]) == key
    && forall j | i < j < |ls| :: LabelKey(ls[j]) != key
  }

  function LabelKey(l: LabelledService): string {
    Key(l.kube.name, l.kube.namespace)
  }

  lemma {:induction false} LabelledStored(ls: seq<LabelledService>, key: string)
    ensures key in AddLabelled(ls) <==> exists i | 0 <= i < |ls| :: LabelKey(ls[i]) == key
    ensures forall i | LastLabelled(ls, key, i) :: key in AddLabelled(ls) && AddLabelled(ls)[key] == FromLabel(ls[i])
  {
    hide Key;
    if ls != [] {
      var init, last := ls[..|ls| - 1], ls[|ls| - 1];
      LabelledStored(init, key);
      assert LabelKey(last) == key ==> LabelKey(ls[|ls| - 1]) == key;
      assert forall i | 0 <= i < |init| :: ls[i] == init[i];
      forall i | LastLabelled(ls, key, i)
        ensures key in AddLabelled(ls) && AddLabelled(ls)[key] == FromLabel(ls[i])
      {
        if i < |init| {
          assert LabelKey(ls[|ls| - 1]) != key;
          assert LastLabelled(init, key, i);
        }
      }
    }
  }

  lemma {:induction false} XdsStored(c: Watched, base: ST.ServiceMap, xs: seq<XdsService>, key: string)
    ensures (forall i | 0 <= i < |xs| :: !Targets(c, xs[i], key)) ==>
              (key in AddXds(c, base, xs) <==> key in base) && (key in base ==> AddXds(c, base, xs)[key] == base[key])
    ensures forall i | LastXds(c, xs, key, i) :: key in AddXds(c, base, xs) && AddXds(c, base, xs)[key] == FromXds(c, xs[i])
  {
    hide Key;
    if xs != [] {
      var init, last := xs[..|xs| - 1], xs[|xs| - 1];
      XdsStored(c, base, init, key);
      if forall i | 0 <= i < |xs| :: !Targets(c, xs[i], key) {
        assert !Targets(c, xs[|xs| - 1], key);
        assert forall i | 0 <= i < |init| :: !Targets(c, init[i], key) by {
          assert forall i | 0 <= i < |init| :: init[i] == xs[i];
        }
      }
      forall i | LastXds(c, xs, key, i)
        ensures key in AddXds(c, base, xs) && AddXds(c, base, xs)[key] == FromXds(c, xs[i])
      {
        if i < |init| {
          assert !Targets(c, xs[|xs| - 1], key);
          assert LastXds(c, init, key, i);
        }
      }
    }
  }

  lemma {:induction false} LastExists(c: Watched, xs: seq<XdsService>, key: string) returns (i: int)
    requires exists j | 0 <= j < |xs| :: Targets(c, xs[j], key)
    ensures LastXds(c, xs, key, i)
  {
    hide Key;
    i := |xs| - 1;
    if !Targets(c, xs[i], key) {
      assert forall j | 0 <= j < |xs| - 1 :: xs[..|xs| - 1][j] == xs[j];
      i := LastExists(c, xs[..|xs| - 1], key);
    }
  }

  /** XdsService number `i` targets the service under `key`, and that Service exists. */
  ghost predicate XdsFor(c: Watched, key: string, i: int)
    requires c.xdsServices.Ok?
  {
    var xs := c.xdsServices.value;
    && 0 <= i < |xs| && Key(xs[i].service, xs[i].namespace) == key
    && (xs[i].service, xs[i].namespace) in c.services
  }

  /** Labelled Service number `i` is the service under `key`. */
  ghost predicate LabelledFor(c: Watched, key: string, i: int)
    requires c.labelled.Ok?
  {
    0 <= i < |c.labelled.value| && Key(c.labelled.value[i].kube.name, c.labelled.value[i].kube.namespace) == key
  }

  /**
    The configuration of a service is that of the last XdsService that targets it and whose Service exists;
    without one, that of the last labelled Service; and a service that is neither is not stored.
   */
  lemma XdsServicesOverrideLabels(c: Watched, key: string)
    requires c.labelled.Ok? && c.xdsServices.Ok?
    ensures var store, xs, ls := ServiceStoreOf(c), c.xdsServices.value, c.labelled.value;
            && (forall i | XdsFor(c, key, i) && (forall j | i < j :: !XdsFor(c, key, j)) ::
                  && key in store && store[key].config == xs[i].config
                  && (store[key].kube.name, store[key].kube.namespace) == (xs[i].service, xs[i].namespace)
                  && store[key].kube.ports == c.services[(xs[i].service, xs[i].namespace)])
            && ((forall i :: !XdsFor(c, key, i)) ==>
                  forall i | LabelledFor(c, key, i) && (forall j | i < j :: !LabelledFor(c, key, j)) ::
                    && key in store && store[key].kube == ls[i].kube && store[key].config.policy == ls[i].policy
                    && !store[key].config.enableRemoteEndpoints && !store[key].config.prioritizeLocalEndpoints
                    && store[key].config.ringHash.None? && store[key].config.hashHeaders == [] && store[key].config.retry.None?)
            && (key in store <==> (exists i :: XdsFor(c, key, i)) || (exists i :: LabelledFor(c, key, i)))
  {
    hide Key, AddLabelled, AddXds, Targets, LabelKey, LastXds, LastLabelled, XdsFor, LabelledFor;
    var xs, ls := c.xdsServices.value, c.labelled.value;
    LabelledStored(ls, key);
    XdsStored(c, AddLabelled(ls), xs, key);
    XdsForIs(c, key);
    LabelledForIs(c, key);
    if exists i | 0 <= i < |xs| :: Targets(c, xs[i], key) {
      var i := LastExists(c, xs, key);
      assert LastXds(c, xs, key, i);
    }
    forall i | LastXds(c, xs, key, i) ensures 0 <= i < |xs| && Resolvable(c, xs[i]) {
      LastResolves(c, xs, key, i);
    }
  }

  lemma LastResolves(c: Watched, xs: seq<XdsService>, key: string, i: int)
    requires LastXds(c, xs, key, i)
    ensures 0 <= i < |xs| && Resolvable(c, xs[i])
  {
    hide Key;
  }

  lemma XdsForIs(c: Watched, key: string)
    requires c.xdsServices.Ok?
    ensures var xs := c.xdsServices.value;
            && (forall i | XdsFor(c, key, i) :: 0 <= i < |xs| && Resolvable(c, xs[i]))
            && ((exists i :: XdsFor(c, key, i)) <==> exists i | 0 <= i < |xs| :: Targets(c, xs[i], key))
            && (forall i | XdsFor(c, key, i) && (forall j | i < j :: !XdsFor(c, key, j)) :: LastXds(c, xs, key, i))
  {
    hide Key;
    var xs := c.xdsServices.value;
    assert forall i | 0 <= i < |xs| :: XdsFor(c, key, i) <==> Targets(c, xs[i], key);
  }

  lemma LabelledForIs(c: Watched, key: string)
    requires c.labelled.Ok?
    ensures var ls := c.labelled.value;
            && (forall i | LabelledFor(c, key, i) :: 0 <= i < |ls|)
            && ((exists i :: LabelledFor(c, key, i)) <==> exists i | 0 <= i < |ls| :: LabelKey(ls[i]) == key)
            && (forall i | LabelledFor(c, key, i) && (forall j | i < j :: !LabelledFor(c, key, j)) :: LastLabelled(ls, key, i))
  {
    hide Key;
    var ls := c.labelled.value;
    assert forall i | 0 <= i < |ls| :: LabelledFor(c, key, i) <==> LabelKey(ls[i]) == key;
  }

  /** With dot-free namespaces a key stands for one service only. */
  lemma TargetsExactly(c: Watched, x: XdsService, name: string, ns: string)
    requires '.' !in x.namespace && '.' !in ns
    ensures Targets(c, x, Key(name, ns)) <==> Resolvable(c, x) && x.service == name && x.namespace == ns
  {
    if Key(x.service, x.namespace) == Key(name, ns) {
      KeyInjective(x.service, x.namespace, name, ns);
    }
  }

  /** What Kubernetes promises about names: namespaces have no dot, and no name has a slash. */
  predicate NameOk(name: string, ns: string) {
    '.' !in ns && '/' !in name && '/' !in ns
  }

  ghost predicate WellNamed(c: Watched) {
    && (c.labelled.Ok? ==> forall l | l in c.labelled.value :: NameOk(l.kube.name, l.kube.namespace))
    && (c.xdsServices.Ok? ==> forall x | x in c.xdsServices.value :: NameOk(x.service, x.namespace))
  }

  lemma PutWellNamed(store: ST.ServiceMap, s: ST.Service)
    requires ST.WellNamed(store) && NameOk(s.kube.name, s.kube.namespace)
    ensures ST.WellNamed(Put(store, s))
  {
  }

  lemma {:induction false} LabelledWellNamed(ls: seq<LabelledService>)
    requires forall l | l in ls :: NameOk(l.kube.name, l.kube.namespace)
    ensures ST.WellNamed(AddLabelled(ls))
  {
    hide ST.WellNamed, NameOk, Put;
    if ls != [] {
      LabelledWellNamed(ls[..|ls| - 1]);
      PutWellNamed(AddLabelled(ls[..|ls| - 1]), FromLabel(ls[|ls| - 1]));
    } else {
      EmptyWellNamed();
    }
  }

  lemma EmptyWellNamed()
    ensures ST.WellNamed(map[])
  {
  }

  lemma {:induction false} XdsWellNamed(c: Watched, base: ST.ServiceMap, xs: seq<XdsService>)
    requires ST.WellNamed(base) && forall x | x in xs :: NameOk(x.service, x.namespace)
    ensures ST.WellNamed(AddXds(c, base, xs))
  {
    hide ST.WellNamed, NameOk, Put;
    if xs != [] {
      var init, last := xs[..|xs| - 1], xs[|xs| - 1];
      XdsWellNamed(c, base, init);
      if Resolvable(c, last) {
        PutWellNamed(AddXds(c, base, init), FromXds(c, last));
      }
    }
  }

  lemma StoreWellNamed(c: Watched)
    requires c.Lists() && WellNamed(c)
    ensures ST.WellNamed(ServiceStoreOf(c))
  {
    LabelledWellNamed(c.labelled.value);
    XdsWellNamed(c, AddLabelled(c.labelled.value), c.xdsServices.value);
  }

  /** A watched state with one XdsService and its Service. */
  lemma OneService(c: Watched, x: XdsService, ports: seq<int>)
    requires c.labelled == Ok([]) && c.xdsServices == Ok([x]) && c.services == map[(x.service, x.namespace) := ports]
    ensures c.Lists() && (NameOk(x.service, x.namespace) ==> WellNamed(c))
    ensures ServiceStoreOf(c)
         == map[Key(x.service, x.namespace) := ST.Service(ST.KubeService(x.service, x.namespace, ports), x.config)]
  {
    hide Key;
    assert [x][..0] == [];
    assert AddXds(c, map[], []) == map[];
    assert AddXds(c, map[], [x]) == Put(map[], FromXds(c, x));
  }

  // ---------------------------------------------------------------------
  // The endpoint store

  /** The label selector and namespace of a slice query for one service. */
  predicate Selects(e: ET.EndpointSlice, name: string, ns: string) {
    && SERVICE_NAME_LABEL in e.labels && e.labels[SERVICE_NAME_LABEL] == name
    && e.namespace == ns
  }

  function Selected(slices: seq<ET.EndpointSlice>, name: string, ns: string): seq<ET.EndpointSlice> {
    if slices == [] then []
    else
      Selected(slices[..|slices| - 1], name, ns)
      + (if Selects(slices[|slices| - 1], name, ns) then [slices[|slices| - 1]] else [])
  }

  /** EndpointSliceList of kube/client.go */
  function ListSlices(l: Lister, name: string, ns: string): Result<seq<ET.EndpointSlice>, string> {
    if (name, ns) in l.failing then Err("cannot list EndpointSlices") else Ok(Selected(l.slices, name, ns))
  }

  function Named(slices: seq<ET.EndpointSlice>, name: string, ns: string): Option<ET.EndpointSlice> {
    if slices == [] then None
    else if slices[0].name == name && slices[0].namespace == ns then Some(slices[0])
    else Named(slices[1..], name, ns)
  }

  /** The lookup finds the first slice of that name and namespace, and nothing only if there is none. */
  lemma {:induction false} NamedFinds(slices: seq<ET.EndpointSlice>, name: string, ns: string)
    ensures match Named(slices, name, ns)
            case None => forall e | e in slices :: e.name != name || e.namespace != ns
            case Some(e) => exists i | 0 <= i < |slices| ::
                              && slices[i] == e && e.name == name && e.namespace == ns
                              && forall j | 0 <= j < i :: slices[j].name != name || slices[j].namespace != ns
  {
    if slices != [] && (slices[0].name != name || slices[0].namespace != ns) {
      NamedFinds(slices[1..], name, ns);
      assert slices == [slices[0]] + slices[1..];
      match Named(slices[1..], name, ns)
      case None =>
      case Some(e) =>
        var i :| 0 <= i < |slices[1..]| && slices[1..][i] == e && e.name == name && e.namespace == ns
                 && forall j | 0 <= j < i :: slices[1..][j].name != name || slices[1..][j].namespace != ns;
        assert slices[i + 1] == e;
        forall j | 0 <= j < i + 1 ensures slices[j].name != name || slices[j].namespace != ns {
          assert j > 0 ==> slices[j] == slices[1..][j - 1];
        }
    }
  }

  /** EndpointSlice of kube/client.go */
  function Lookup(l: Lister, name: string, ns: string): Result<ET.EndpointSlice, LookupError> {
    if (name, ns) in l.unreadable then Err(Unreadable)
    else
      match Named(l.slices, name, ns)
      case None => Err(NotFound)
      case Some(e) => Ok(e)
  }

  function Prioritised(slices: seq<ET.EndpointSlice>, priority: nat): seq<ET.PrioritySlice> {
    seq(|slices|, i requires 0 <= i < |slices| => ET.PrioritySlice(slices[i], priority))
  }

  function Populated(slices: seq<ET.EndpointSlice>): seq<ET.EndpointSlice> {
    if slices == [] then []
    else
      Populated(slices[..|slices| - 1])
      + (if slices[|slices| - 1].endpoints != [] then [slices[|slices| - 1]] else [])
  }

  /** Local slices without endpoints are dropped. */
  function LocalSlices(c: Watched, s: ST.Service): seq<ET.EndpointSlice> {
    Populated(Selected(c.local.slices, s.kube.name, s.kube.namespace))
  }

  /** Remote slices are kept as they are, cluster by cluster. */
  function RemoteSlices(remotes: seq<Lister>, s: ST.Service): seq<ET.EndpointSlice> {
    if remotes == [] then []
    else
      RemoteSlices(remotes[..|remotes| - 1], s)
      + Selected(remotes[|remotes| - 1].slices, s.kube.name, s.kube.namespace)
  }

  /** Local-first only matters when there is something local. */
  predicate RemotesFallBack(c: Watched, s: ST.Service) {
    s.config.enableRemoteEndpoints && s.config.prioritizeLocalEndpoints && LocalSlices(c, s) != []
  }

  function SlicesFor(c: Watched, s: ST.Service): seq<ET.PrioritySlice> {
    Prioritised(LocalSlices(c, s), 0)
    + (if s.config.enableRemoteEndpoints
       then Prioritised(RemoteSlices(c.remotes, s), if RemotesFallBack(c, s) then 1 else 0)
       else [])
  }

  /** The endpoint store of a service store: services without any slice are missing. */
  function EndpointStoreOf(c: Watched, svcs: ST.ServiceMap): ET.EndpointMap {
    map key | key in svcs && SlicesFor(c, svcs[key]) != [] ::
      ET.XdsEndpoint(SlicesFor(c, svcs[key]), svcs[key].kube.namespace, svcs[key].kube.name)
  }

  /** One of the queries made for the service fails. */
  ghost predicate QueryFails(c: Watched, s: ST.Service) {
    var q := (s.kube.name, s.kube.namespace);
    q in c.local.failing || (s.config.enableRemoteEndpoints && exists l | l in c.remotes :: q in l.failing)
  }

  // The loops. `store0` holds other services only; the entry of `s` grows slice by slice.

  ghost predicate Grown(store: ET.EndpointMap, store0: ET.EndpointMap, s: ST.Service, slices: seq<ET.PrioritySlice>) {
    var key := Key(s.kube.name, s.kube.namespace);
    key !in store0 && store == if slices == [] then store0
                               else store0[key := ET.XdsEndpoint(slices, s.kube.namespace, s.kube.name)]
  }

  lemma GrowOne(store: ET.EndpointMap, store0: ET.EndpointMap, s: ST.Service, slices: seq<ET.PrioritySlice>,
                e: ET.EndpointSlice, priority: nat)
    requires Grown(store, store0, s, slices)
    ensures Grown(ET.Added(store, s.kube.name, s.kube.namespace, e, priority), store0, s,
                  slices + [ET.PrioritySlice(e, priority)])
  {
    hide Key;
    var key := Key(s.kube.name, s.kube.namespace);
    assert slices == [] ==> [ET.PrioritySlice(e, priority)] == slices + [ET.PrioritySlice(e, priority)];
    var grown := ET.XdsEndpoint(slices + [ET.PrioritySlice(e, priority)], s.kube.namespace, s.kube.name);
    assert store[key := grown] == store0[key := grown];
  }

  method AddLocalSlices(store: ET.XdsEndpointStore, s: ST.Service, es: seq<ET.EndpointSlice>, ghost store0: ET.EndpointMap)
    returns (found: bool)
    requires ET.Keyed(store.store) && Grown(store.store, store0, s, [])
    modifies store
    ensures ET.Keyed(store.store) && Grown(store.store, store0, s, Prioritised(Populated(es), 0))
    ensures found <==> Populated(es) != []
  {
    hide Key, Grown;
    assert Prioritised([], 0) == [];
    found := false;
    for i := 0 to |es|
      invariant ET.Keyed(store.store) && Grown(store.store, store0, s, Prioritised(Populated(es[..i]), 0))
      invariant found <==> Populated(es[..i]) != []
    {
      assert es[..i + 1][..i] == es[..i];
      if |es[i].endpoints| > 0 {
        GrowOne(store.store, store0, s, Prioritised(Populated(es[..i]), 0), es[i], 0);
        assert Populated(es[..i + 1]) == Populated(es[..i]) + [es[i]];
        assert Prioritised(Populated(es[..i + 1]), 0) == Prioritised(Populated(es[..i]), 0) + [ET.PrioritySlice(es[i], 0)];
        store.Add(s.kube.name, s.kube.namespace, es[i], 0);
        found := true;
      } else {
        assert Populated(es[..i + 1]) == Populated(es[..i]);
      }
    }
    assert es[..|es|] == es;
  }

  method AddRemoteSlices(store: ET.XdsEndpointStore, s: ST.Service, es: seq<ET.EndpointSlice>, priority: nat,
                         ghost store0: ET.EndpointMap, ghost before: seq<ET.PrioritySlice>)
    requires ET.Keyed(store.store) && Grown(store.store, store0, s, before)
    modifies store
    ensures ET.Keyed(store.store) && Grown(store.store, store0, s, before + Prioritised(es, priority))
  {
    hide Key, Grown;
    assert before + Prioritised([], priority) == before;
    for i := 0 to |es|
      invariant ET.Keyed(store.store) && Grown(store.store, store0, s, before + Prioritised(es[..i], priority))
    {
      GrowOne(store.store, store0, s, before + Prioritised(es[..i], priority), es[i], priority);
      assert before + Prioritised(es[..i + 1], priority)
          == before + Prioritised(es[..i], priority) + [ET.PrioritySlice(es[i], priority)];
      store.Add(s.kube.name, s.kube.namespace, es[i], priority);
    }
    assert es[..|es|] == es;
  }

  lemma PrioritisedConcat(a: seq<ET.EndpointSlice>, b: seq<ET.EndpointSlice>, priority: nat)
    ensures Prioritised(a + b, priority) == Prioritised(a, priority) + Prioritised(b, priority)
  {
  }

  /** The remote clusters, one after the other. */
  method AddRemotes(remotes: seq<Lister>, store: ET.XdsEndpointStore, s: ST.Service, priority: nat,
                    ghost store0: ET.EndpointMap, ghost before: seq<ET.PrioritySlice>)
    returns (ok: bool)
    requires ET.Keyed(store.store) && Grown(store.store, store0, s, before)
    modifies store
    ensures ok <==> forall l | l in remotes :: (s.kube.name, s.kube.namespace) !in l.failing
    ensures ok ==> ET.Keyed(store.store) && Grown(store.store, store0, s, before + Prioritised(RemoteSlices(remotes, s), priority))
  {
    hide Key, Grown, Selected;
    assert before + Prioritised(RemoteSlices(remotes[..0], s), priority) == before;
    for i := 0 to |remotes|
      invariant forall l | l in remotes[..i] :: (s.kube.name, s.kube.namespace) !in l.failing
      invariant ET.Keyed(store.store)
      invariant Grown(store.store, store0, s, before + Prioritised(RemoteSlices(remotes[..i], s), priority))
    {
      hide Prioritised;
      var res := ListSlices(remotes[i], s.kube.name, s.kube.namespace);
      if res.Err? {
        assert remotes[i] in remotes;
        return false;
      }
      ghost var earlier := RemoteSlices(remotes[..i], s);
      AddRemoteSlices(store, s, res.value, priority, store0, before + Prioritised(earlier, priority));
      assert remotes[..i + 1][..i] == remotes[..i];
      PrioritisedConcat(earlier, res.value, priority);
      assert before + Prioritised(earlier, priority) + Prioritised(res.value, priority)
          == before + Prioritised(earlier + res.value, priority);
    }
    assert remotes[..|remotes|] == remotes;
    ok := true;
  }

  /** The slices of one service: the body of the loop over the service store. */
  method AddService(c: Watched, store: ET.XdsEndpointStore, s: ST.Service) returns (ok: bool)
    requires ET.Keyed(store.store) && Key(s.kube.name, s.kube.namespace) !in store.store
    modifies store
    ensures ok <==> !QueryFails(c, s)
    ensures ok ==> ET.Keyed(store.store) && Grown(store.store, old(store.store), s, SlicesFor(c, s))
  {
    ghost var store0 := store.store;
    assert Grown(store.store, store0, s, []);
    hide Key, Grown, Selected, Populated, Prioritised, RemoteSlices;
    var es := ListSlices(c.local, s.kube.name, s.kube.namespace);
    if es.Err? {
      return false;
    }
    var found := AddLocalSlices(store, s, es.value, store0);
    ghost var before := Prioritised(LocalSlices(c, s), 0);
    assert before + [] == before;
    ok := true;
    if s.config.enableRemoteEndpoints {
      var priority := 0;
      if s.config.prioritizeLocalEndpoints && found {
        priority := 1;
      }
      ok := AddRemotes(c.remotes, store, s, priority, store0, before);
    }
  }

  ghost function PartStore(c: Watched, svcs: ST.ServiceMap, done: set<string>): ET.EndpointMap
    requires done <= svcs.Keys
  {
    map key | key in done && SlicesFor(c, svcs[key]) != [] ::
      ET.XdsEndpoint(SlicesFor(c, svcs[key]), svcs[key].kube.namespace, svcs[key].kube.name)
  }

  lemma PartStoreGrows(c: Watched, svcs: ST.ServiceMap, done: set<string>, key: string, store: ET.EndpointMap)
    requires ST.Keyed(svcs) && key in svcs && key !in done && done <= svcs.Keys
    requires Grown(store, PartStore(c, svcs, done), svcs[key], SlicesFor(c, svcs[key]))
    ensures store == PartStore(c, svcs, done + {key})
  {
    hide Key, SlicesFor;
    assert key == Key(svcs[key].kube.name, svcs[key].kube.namespace);
  }

  method EndpointsStoreForXdsServiceStore(c: Watched, svcs: ST.ServiceMap) returns (r: Result<ET.EndpointMap, string>)
    requires ST.Keyed(svcs)
    ensures r.Ok? <==> forall key | key in svcs ::
                         var q := (svcs[key].kube.name, svcs[key].kube.namespace);
                         && q !in c.local.failing
                         && (svcs[key].config.enableRemoteEndpoints ==> forall l | l in c.remotes :: q !in l.failing)
    ensures r.Ok? ==> r.value == EndpointStoreOf(c, svcs)
  {
    assert forall key | key in svcs ::
        var q := (svcs[key].kube.name, svcs[key].kube.namespace);
        !QueryFails(c, svcs[key]) <==>
          q !in c.local.failing && (svcs[key].config.enableRemoteEndpoints ==> forall l | l in c.remotes :: q !in l.failing);
    hide QueryFails, SlicesFor, Key;
    var store := new ET.XdsEndpointStore();
    var todo := svcs.Keys;
    ghost var done := {};
    while todo != {}
      invariant todo + done == svcs.Keys && todo !! done
      invariant forall key | key in done :: !QueryFails(c, svcs[key])
      invariant ET.Keyed(store.store) && store.store == PartStore(c, svcs, done)
      decreases todo
    {
      var key :| key in todo;
      assert key == Key(svcs[key].kube.name, svcs[key].kube.namespace);
      var ok := AddService(c, store, svcs[key]);
      if !ok {
        return Err("cannot list EndpointSlices");
      }
      PartStoreGrows(c, svcs, done, key, store.store);
      todo, done := todo - {key}, done + {key};
    }
    assert done == svcs.Keys;
    assert PartStore(c, svcs, svcs.Keys) == EndpointStoreOf(c, svcs);
    r := Ok(store.store);
  }

  // ---------------------------------------------------------------------
  // What the endpoint store holds, in one sentence

  lemma {:induction false} SelectedIs(slices: seq<ET.EndpointSlice>, p: ET.EndpointSlice -> bool, name: string, ns: string)
    requires forall e :: p(e) <==> Selects(e, name, ns)
    ensures Selected(slices, name, ns) == Filter(p, slices)
  {
    hide Selects;
    if slices != [] {
      SelectedIs(slices[..|slices| - 1], p, name, ns);
    }
  }

  lemma {:induction false} PopulatedIs(slices: seq<ET.EndpointSlice>, p: ET.EndpointSlice -> bool, q: ET.EndpointSlice -> bool)
    requires forall e :: q(e) <==> p(e) && e.endpoints != []
    ensures Populated(Filter(p, slices)) == Filter(q, slices)
  {
    if slices != [] {
      PopulatedIs(slices[..|slices| - 1], p, q);
      var init, last := Filter(p, slices[..|slices| - 1]), slices[|slices| - 1];
      assert (init + [last])[..|init|] == init && init + [] == init;
      assert Filter(p, slices) == if p(last) then init + [last] else init;
    }
  }

  ghost function EachFiltered(p: ET.EndpointSlice -> bool, remotes: seq<Lister>): seq<seq<ET.EndpointSlice>> {
    seq(|remotes|, i requires 0 <= i < |remotes| => Filter(p, remotes[i].slices))
  }

  lemma {:induction false} RemoteIs(remotes: seq<Lister>, p: ET.EndpointSlice -> bool, s: ST.Service)
    requires forall e :: p(e) <==> Selects(e, s.kube.name, s.kube.namespace)
    ensures RemoteSlices(remotes, s) == Flatten(EachFiltered(p, remotes))
  {
    hide Selects;
    if remotes != [] {
      var init, last := remotes[..|remotes| - 1], remotes[|remotes| - 1];
      RemoteIs(init, p, s);
      SelectedIs(last.slices, p, s.kube.name, s.kube.namespace);
      assert EachFiltered(p, remotes)[..|remotes| - 1] == EachFiltered(p, init);
    }
  }

  /** The slices labelled with the name of a service, in its namespace. */
  ghost function OwnedBy(s: ST.Service): ET.EndpointSlice -> bool {
    (e: ET.EndpointSlice) =>
      && "kubernetes.io/service-name" in e.labels && e.labels["kubernetes.io/service-name"] == s.kube.name
      && e.namespace == s.kube.namespace
  }

  ghost function OwnedAndPopulated(s: ST.Service): ET.EndpointSlice -> bool {
    (e: ET.EndpointSlice) =>
      && "kubernetes.io/service-name" in e.labels && e.labels["kubernetes.io/service-name"] == s.kube.name
      && e.namespace == s.kube.namespace && |e.endpoints| > 0
  }

  ghost function LocalOf(c: Watched, s: ST.Service): seq<ET.EndpointSlice> {
    Filter(OwnedAndPopulated(s), c.local.slices)
  }

  ghost function RemoteOf(c: Watched, s: ST.Service): seq<ET.EndpointSlice> {
    Flatten(EachFiltered(OwnedBy(s), c.remotes))
  }

  lemma LocalAndRemoteAre(c: Watched, s: ST.Service)
    ensures LocalSlices(c, s) == LocalOf(c, s) && RemoteSlices(c.remotes, s) == RemoteOf(c, s)
  {
    SelectedIs(c.local.slices, OwnedBy(s), s.kube.name, s.kube.namespace);
    PopulatedIs(c.local.slices, OwnedBy(s), OwnedAndPopulated(s));
    RemoteIs(c.remotes, OwnedBy(s), s);
  }

  /**
    For every stored service: its local slices with endpoints at priority 0, in order, then, if it takes
    remote endpoints, all its slices of all remote clusters, in order, at priority 1 if it is local-first
    and has local slices with endpoints, and at priority 0 otherwise. A service without any is missing.
   */
  lemma StoredSlicesAre(c: Watched, svcs: ST.ServiceMap, key: string)
    requires key in svcs
    ensures var s, store, local, remote := svcs[key], EndpointStoreOf(c, svcs), LocalOf(c, svcs[key]), RemoteOf(c, svcs[key]);
            var priority := if s.config.prioritizeLocalEndpoints && local != [] then 1 else 0;
            var all := local + if s.config.enableRemoteEndpoints then remote else [];
            && (key in store <==> all != [])
            && (key in store ==>
                  && store[key].service == s.kube.name && store[key].namespace == s.kube.namespace
                  && |store[key].slices| == |all|
                  && forall i | 0 <= i < |all| ::
                       store[key].slices[i] == ET.PrioritySlice(all[i], if i < |local| then 0 else priority))
  {
    LocalAndRemoteAre(c, svcs[key]);
    hide LocalOf, RemoteOf, LocalSlices, RemoteSlices;
  }

  lemma EndpointStoreWellNamed(c: Watched, svcs: ST.ServiceMap)
    requires ST.WellNamed(svcs)
    ensures ET.WellNamed(EndpointStoreOf(c, svcs))
  {
    hide Key, SlicesFor;
  }
}
