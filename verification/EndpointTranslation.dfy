/** xds/endpoints.go: the endpoint store and its grouping into one load assignment per service port. */
module EndpointTranslation {
  import opened Collections
  import opened Names
  import opened Resources

  /** An endpoint with its pod name and readiness, both of which the source dereferences unconditionally. */
  datatype Endpoint = Endpoint(addresses: seq<string>, zone: Option<string>, pod: string, ready: bool)

  datatype EndpointSlice = EndpointSlice(
    name: string, namespace: string, labels: map<string, string>, ports: seq<int>, endpoints: seq<Endpoint>)

  datatype PrioritySlice = PrioritySlice(slice: EndpointSlice, priority: nat)

  datatype XdsEndpoint = XdsEndpoint(slices: seq<PrioritySlice>, namespace: string, service: string)

  type EndpointMap = map<string, XdsEndpoint>

  ghost predicate Keyed(store: EndpointMap) {
    forall key | key in store :: key == Key(store[key].service, store[key].namespace)
  }

  ghost predicate WellNamed(store: EndpointMap) {
    && Keyed(store)
    && forall key | key in store ::
         && '.' !in store[key].namespace
         && '/' !in store[key].service && '/' !in store[key].namespace
  }

  /** The store with one more slice filed under its service. */
  function Added(store: EndpointMap, service: string, namespace: string, slice: EndpointSlice, priority: nat): EndpointMap {
    var key := Key(service, namespace);
    var p := PrioritySlice(slice, priority);
    if key in store then store[key := store[key].(slices := store[key].slices + [p])]
    else store[key := XdsEndpoint([p], namespace, service)]
  }

  class XdsEndpointStore {
    var store: EndpointMap

    constructor ()
      ensures store == map[]
    {
      store := map[];
    }

    method Add(service: string, namespace: string, slice: EndpointSlice, priority: nat)
      requires Keyed(store)
      modifies this
      ensures Keyed(store)
      ensures store == Added(old(store), service, namespace, slice, priority)
    {
      var key := Key(service, namespace);
      if key !in store {
        store := store[key := XdsEndpoint([PrioritySlice(slice, priority)], namespace, service)];
      } else {
        var se := store[key];
        se := se.(slices := se.slices + [PrioritySlice(slice, priority)]);
        store := store[key := se];
      }
    }

    method Get(service: string, namespace: string) returns (e: XdsEndpoint)
      ensures e.slices == SlicesOf(store, service, namespace)
      ensures Keyed(store) && e.slices != [] ==> Key(e.service, e.namespace) == Key(service, namespace)
    {
      var key := Key(service, namespace);
      e := if key in store then store[key] else XdsEndpoint([], "", "");
    }
  }

  /** The slices filed for a service so far. */
  function SlicesOf(store: EndpointMap, service: string, namespace: string): seq<PrioritySlice> {
    if Key(service, namespace) in store then store[Key(service, namespace)].slices else []
  }

  /** A slice is added at the end of its own service's slices, and with dot-free namespaces to no other's. */
  lemma AddThenGet(store: EndpointMap, service: string, namespace: string, slice: EndpointSlice, priority: nat,
                   service': string, namespace': string)
    requires '.' !in namespace && '.' !in namespace'
    ensures SlicesOf(Added(store, service, namespace, slice, priority), service', namespace')
         == SlicesOf(store, service', namespace')
            + if service' == service && namespace' == namespace then [PrioritySlice(slice, priority)] else []
  {
    if Key(service', namespace') == Key(service, namespace) {
      KeyInjective(service', namespace', service, namespace);
    }
    hide Key;
  }

  // ---------------------------------------------------------------------
  // One slice

  datatype ClusterEndpoint = ClusterEndpoint(
    addresses: seq<string>, port: int, priority: nat, zone: string, subzone: string, healthy: bool)

  /** What the server keeps of endpoint `ep` reached on `port`: a missing zone becomes "none". */
  function Represent(ep: Endpoint, port: int, priority: nat): ClusterEndpoint {
    ClusterEndpoint(ep.addresses, port, priority, if ep.zone.Some? then ep.zone.value else "none", ep.pod, ep.ready)
  }

  /** Slice endpoints on one port, in slice order. */
  function OnPort(p: PrioritySlice, port: int, n: nat): seq<ClusterEndpoint>
    requires n <= |p.slice.endpoints|
  {
    seq(n, i requires 0 <= i < n => Represent(p.slice.endpoints[i], port, p.priority))
  }

  /** Every port of the slice combined with every endpoint of the slice, for the first `n` ports. */
  function SliceEndpoints(p: PrioritySlice, n: nat): seq<ClusterEndpoint>
    requires n <= |p.slice.ports|
  {
    if n == 0 then []
    else SliceEndpoints(p, n - 1) + OnPort(p, p.slice.ports[n - 1], |p.slice.endpoints|)
  }

  method EndpointSliceToClusterEndpoints(p: PrioritySlice) returns (ceps: seq<ClusterEndpoint>)
    ensures ceps == SliceEndpoints(p, |p.slice.ports|)
  {
    ceps := [];
    for i := 0 to |p.slice.ports|
      invariant ceps == SliceEndpoints(p, i)
    {
      ghost var before := ceps;
      for j := 0 to |p.slice.endpoints|
        invariant ceps == before + OnPort(p, p.slice.ports[i], j)
      {
        var ep := p.slice.endpoints[j];
        var zone := "none";
        if ep.zone.Some? {
          zone := ep.zone.value;
        }
        ceps := ceps + [ClusterEndpoint(ep.addresses, p.slice.ports[i], p.priority, zone, ep.pod, ep.ready)];
      }
    }
  }

  /** All endpoints of a service, slice by slice in the order the slices were added. */
  function ServiceEndpoints(slices: seq<PrioritySlice>): seq<ClusterEndpoint> {
    if slices == [] then []
    else
      var last := slices[|slices| - 1];
      ServiceEndpoints(slices[..|slices| - 1]) + SliceEndpoints(last, |last.slice.ports|)
  }

  function FilterPort(ceps: seq<ClusterEndpoint>, port: int): seq<ClusterEndpoint> {
    if ceps == [] then []
    else
      var last := ceps[|ceps| - 1];
      FilterPort(ceps[..|ceps| - 1], port) + (if last.port == port then [last] else [])
  }

  /** Port `port` of the service has at least one endpoint. */
  ghost predicate Serves(se: XdsEndpoint, port: int) {
    exists ce | ce in ServiceEndpoints(se.slices) :: ce.port == port
  }

  // ---------------------------------------------------------------------
  // Grouping into clusters

  function Tag(se: XdsEndpoint, authority: string, ceps: seq<ClusterEndpoint>): seq<(string, ClusterEndpoint)> {
    seq(|ceps|, i requires 0 <= i < |ceps| =>
      (LoadAssignmentNameFor(se.service, se.namespace, authority, ceps[i].port), ceps[i]))
  }

  /** Every slice x port x endpoint combination with its cluster name, the services visited in `order`. */
  function Tagged(store: EndpointMap, order: seq<string>, authority: string): seq<(string, ClusterEndpoint)>
    requires forall key | key in order :: key in store
  {
    if order == [] then []
    else
      var key := order[|order| - 1];
      Tagged(store, order[..|order| - 1], authority) + Tag(store[key], authority, ServiceEndpoints(store[key].slices))
  }

  type Clusters = map<string, seq<ClusterEndpoint>>

  /** `clusters` files each tagged endpoint under its name, in order, and nothing else. */
  ghost predicate IsGrouping(clusters: Clusters, adds: seq<(string, ClusterEndpoint)>) {
    && (forall i | 0 <= i < |adds| :: adds[i].0 in clusters)
    && (forall name | name in clusters :: clusters[name] == Select(adds, name) && clusters[name] != [])
  }

  lemma Regroup(clusters: Clusters, adds: seq<(string, ClusterEndpoint)>, name: string, ce: ClusterEndpoint)
    requires IsGrouping(clusters, adds)
    ensures var grown := if name in clusters then clusters[name] + [ce] else [ce];
            IsGrouping(clusters[name := grown], adds + [(name, ce)])
  {
    var adds' := adds + [(name, ce)];
    assert adds'[..|adds'| - 1] == adds;
    if name !in clusters {
      SelectAbsent(adds, name);
    }
  }

  /** The loops of createClustersFromEndpointStore, for one service. */
  method FileService(se: XdsEndpoint, authority: string, clusters0: Clusters, ghost adds: seq<(string, ClusterEndpoint)>)
    returns (clusters: Clusters)
    requires IsGrouping(clusters0, adds)
    ensures IsGrouping(clusters, adds + Tag(se, authority, ServiceEndpoints(se.slices)))
  {
    hide LoadAssignmentNameFor, IsGrouping;
    clusters := clusters0;
    assert adds + Tag(se, authority, []) == adds;
    for i := 0 to |se.slices|
      invariant IsGrouping(clusters, adds + Tag(se, authority, ServiceEndpoints(se.slices[..i])))
    {
      var ceps := EndpointSliceToClusterEndpoints(se.slices[i]);
      ghost var before := ServiceEndpoints(se.slices[..i]);
      assert se.slices[..i + 1][..i] == se.slices[..i];
      assert before + ceps[..0] == before;
      for j := 0 to |ceps|
        invariant IsGrouping(clusters, adds + Tag(se, authority, before + ceps[..j]))
      {
        var ce := ceps[j];
        var name := LoadAssignmentNameFor(se.service, se.namespace, authority, ce.port);
        Regroup(clusters, adds + Tag(se, authority, before + ceps[..j]), name, ce);
        assert adds + Tag(se, authority, before + ceps[..j + 1])
            == adds + Tag(se, authority, before + ceps[..j]) + [(name, ce)];
        if name !in clusters {
          clusters := clusters[name := [ce]];
        } else {
          clusters := clusters[name := clusters[name] + [ce]];
        }
      }
      assert before + ceps[..|ceps|] == ServiceEndpoints(se.slices[..i + 1]);
    }
    assert se.slices[..|se.slices|] == se.slices;
  }

  method CreateClustersFromEndpointStore(store: EndpointMap, authority: string) returns (clusters: Clusters)
    ensures exists order :: IsEnumeration(order, store.Keys) && IsGrouping(clusters, Tagged(store, order, authority))
  {
    clusters := map[];
    ghost var order := [];
    var todo := store.Keys;
    ghost var done := {};
    while todo != {}
      invariant todo + done == store.Keys && todo !! done
      invariant IsEnumeration(order, done)
      invariant IsGrouping(clusters, Tagged(store, order, authority))
      decreases todo
    {
      var key :| key in todo;
      ExtendEnumeration(order, done, key);
      clusters := FileService(store[key], authority, clusters, Tagged(store, order, authority));
      assert (order + [key])[..|order|] == order;
      order := order + [key];
      todo, done := todo - {key}, done + {key};
    }
    assert done == store.Keys;
  }

  // ---------------------------------------------------------------------
  // What the grouping means

  lemma {:induction false} SelectOwnTag(se: XdsEndpoint, authority: string, ceps: seq<ClusterEndpoint>, port: int)
    requires '.' !in se.namespace
    ensures Select(Tag(se, authority, ceps), LoadAssignmentNameFor(se.service, se.namespace, authority, port))
         == FilterPort(ceps, port)
  {
    hide LoadAssignmentNameFor;
    if ceps != [] {
      var init, last := ceps[..|ceps| - 1], ceps[|ceps| - 1];
      SelectOwnTag(se, authority, init, port);
      assert Tag(se, authority, ceps)[..|ceps| - 1] == Tag(se, authority, init);
      var own := LoadAssignmentNameFor(se.service, se.namespace, authority, last.port);
      if own == LoadAssignmentNameFor(se.service, se.namespace, authority, port) {
        NamesInjective(se.service, se.namespace, last.port, se.service, se.namespace, port, authority);
      }
    }
  }

  lemma SelectOtherTag(store: EndpointMap, key: string, key': string, authority: string, port: int)
    requires WellNamed(store) && key in store && key' in store && key != key'
    ensures var name := LoadAssignmentNameFor(store[key].service, store[key].namespace, authority, port);
            Select(Tag(store[key'], authority, ServiceEndpoints(store[key'].slices)), name) == []
  {
    hide LoadAssignmentNameFor;
    var se, se' := store[key], store[key'];
    var name := LoadAssignmentNameFor(se.service, se.namespace, authority, port);
    var adds := Tag(se', authority, ServiceEndpoints(se'.slices));
    forall i | 0 <= i < |adds| ensures adds[i].0 != name {
      if adds[i].0 == name {
        NamesInjective(se.service, se.namespace, port, se'.service, se'.namespace, adds[i].1.port, authority);
      }
    }
    SelectAbsent(adds, name);
  }

  /** Visiting the services in any order files under a name the endpoints of that one service and port. */
  lemma {:induction false} SelectTagged(store: EndpointMap, order: seq<string>, authority: string, key: string, port: int)
    requires WellNamed(store) && NoDup(order) && key in store
    requires forall k | k in order :: k in store
    ensures var name := LoadAssignmentNameFor(store[key].service, store[key].namespace, authority, port);
            var found := if key in order then FilterPort(ServiceEndpoints(store[key].slices), port) else [];
            Select(Tagged(store, order, authority), name) == found
  {
    hide LoadAssignmentNameFor;
    if order != [] {
      var init, last := order[..|order| - 1], order[|order| - 1];
      assert order == init + [last];
      SelectTagged(store, init, authority, key, port);
      var name := LoadAssignmentNameFor(store[key].service, store[key].namespace, authority, port);
      SelectConcat(Tagged(store, init, authority), Tag(store[last], authority, ServiceEndpoints(store[last].slices)), name);
      if last == key {
        SelectOwnTag(store[key], authority, ServiceEndpoints(store[key].slices), port);
      } else {
        SelectOtherTag(store, key, last, authority, port);
      }
    }
  }

  lemma {:induction false} TaggedOrigin(store: EndpointMap, order: seq<string>, authority: string, i: nat)
    returns (key: string)
    requires forall k | k in order :: k in store
    requires i < |Tagged(store, order, authority)|
    ensures key in order && Serves(store[key], Tagged(store, order, authority)[i].1.port)
    ensures Tagged(store, order, authority)[i].0
         == LoadAssignmentNameFor(store[key].service, store[key].namespace, authority, Tagged(store, order, authority)[i].1.port)
  {
    hide LoadAssignmentNameFor;
    var init, last := order[..|order| - 1], order[|order| - 1];
    if i < |Tagged(store, init, authority)| {
      key := TaggedOrigin(store, init, authority, i);
    } else {
      key := last;
      var ce := Tagged(store, order, authority)[i].1;
      assert ce in ServiceEndpoints(store[last].slices);
    }
  }

  lemma {:induction false} FilterPortMembers(ceps: seq<ClusterEndpoint>, port: int)
    ensures forall ce :: ce in FilterPort(ceps, port) <==> ce in ceps && ce.port == port
  {
    if ceps != [] {
      FilterPortMembers(ceps[..|ceps| - 1], port);
      assert ceps == ceps[..|ceps| - 1] + [ceps[|ceps| - 1]];
    }
  }

  /**
    The clusters of a well-named store: one per service port that has endpoints, holding exactly the
    endpoints of that service on that port, in slice order, whatever order the store is visited in.
   */
  lemma GroupingIsPerPort(store: EndpointMap, order: seq<string>, authority: string, clusters: Clusters, key: string, port: int)
    requires WellNamed(store) && IsEnumeration(order, store.Keys) && key in store
    requires IsGrouping(clusters, Tagged(store, order, authority))
    ensures var name := LoadAssignmentNameFor(store[key].service, store[key].namespace, authority, port);
            && (name in clusters <==> Serves(store[key], port))
            && (name in clusters ==> clusters[name] == FilterPort(ServiceEndpoints(store[key].slices), port))
  {
    hide LoadAssignmentNameFor;
    var name := LoadAssignmentNameFor(store[key].service, store[key].namespace, authority, port);
    var adds := Tagged(store, order, authority);
    SelectTagged(store, order, authority, key, port);
    FilterPortMembers(ServiceEndpoints(store[key].slices), port);
    SelectAbsent(adds, name);
    var found := Select(adds, name);
    assert found != [] ==> found[0] in found;
  }

  lemma ClusterOrigin(store: EndpointMap, order: seq<string>, authority: string, clusters: Clusters, name: string)
    returns (key: string, port: int)
    requires IsEnumeration(order, store.Keys) && IsGrouping(clusters, Tagged(store, order, authority))
    requires name in clusters
    ensures key in store && Serves(store[key], port)
    ensures name == LoadAssignmentNameFor(store[key].service, store[key].namespace, authority, port)
  {
    hide LoadAssignmentNameFor;
    var adds := Tagged(store, order, authority);
    SelectAbsent(adds, name);
    var i :| 0 <= i < |adds| && adds[i].0 == name;
    key := TaggedOrigin(store, order, authority, i);
    port := adds[i].1.port;
  }

  // ---------------------------------------------------------------------
  // Conservation

  function Label(name: string, ceps: seq<ClusterEndpoint>): seq<(string, ClusterEndpoint)> {
    seq(|ceps|, i requires 0 <= i < |ceps| => (name, ceps[i]))
  }

  /** All endpoints of all clusters, the clusters visited in the order `names`. */
  function Ungroup(clusters: Clusters, names: seq<string>): seq<(string, ClusterEndpoint)>
    requires forall name | name in names :: name in clusters
  {
    if names == [] then []
    else
      var name := names[|names| - 1];
      Ungroup(clusters, names[..|names| - 1]) + Label(name, clusters[name])
  }

  lemma {:induction false} LabelCount(name: string, ceps: seq<ClusterEndpoint>, e: (string, ClusterEndpoint))
    ensures multiset(Label(name, ceps))[e] == if e.0 == name then multiset(ceps)[e.1] else 0
  {
    if ceps != [] {
      var init, last := ceps[..|ceps| - 1], ceps[|ceps| - 1];
      LabelCount(name, init, e);
      assert Label(name, ceps) == Label(name, init) + [(name, last)];
      assert ceps == init + [last];
    }
  }

  lemma {:induction false} UngroupCount(clusters: Clusters, names: seq<string>, e: (string, ClusterEndpoint))
    requires NoDup(names) && forall name | name in names :: name in clusters
    ensures multiset(Ungroup(clusters, names))[e] == if e.0 in names then multiset(clusters[e.0])[e.1] else 0
  {
    if names != [] {
      var init, last := names[..|names| - 1], names[|names| - 1];
      assert names == init + [last];
      UngroupCount(clusters, init, e);
      LabelCount(last, clusters[last], e);
    }
  }

  lemma {:induction false} SelectCount(adds: seq<(string, ClusterEndpoint)>, e: (string, ClusterEndpoint))
    ensures multiset(Select(adds, e.0))[e.1] == multiset(adds)[e]
  {
    if adds != [] {
      var init, last := adds[..|adds| - 1], adds[|adds| - 1];
      SelectCount(init, e);
      assert adds == init + [last];
    }
  }

  /**
    Grouping conserves endpoints, for every store and without any assumption on names: the clusters
    together hold exactly the slice x port x endpoint combinations of the store, each as often as it
    occurs there and each under its own cluster name.
   */
  lemma GroupingConserves(store: EndpointMap, order: seq<string>, authority: string, clusters: Clusters, names: seq<string>)
    requires IsEnumeration(order, store.Keys) && IsGrouping(clusters, Tagged(store, order, authority))
    requires IsEnumeration(names, clusters.Keys)
    ensures multiset(Ungroup(clusters, names)) == multiset(Tagged(store, order, authority))
  {
    var adds, all := Tagged(store, order, authority), Ungroup(clusters, names);
    forall e: (string, ClusterEndpoint) ensures multiset(all)[e] == multiset(adds)[e] {
      UngroupCount(clusters, names, e);
      SelectCount(adds, e);
      SelectAbsent(adds, e.0);
    }
  }

  // ---------------------------------------------------------------------
  // Load assignments

  /** Ports travel as uint32. */
  function Locality(ce: ClusterEndpoint): LocalityEndpoints {
    MakeLocality(
      seq(|ce.addresses|, i requires 0 <= i < |ce.addresses| =>
        LbEndpoint(ce.addresses[i], ce.port % 0x1_0000_0000, ce.healthy)),
      ce.zone, ce.subzone, ce.priority)
  }

  function MakeLoadAssignment(name: string, ceps: seq<ClusterEndpoint>): (r: Resource)
    ensures r.Name() == name
  {
    LoadAssignment(name, seq(|ceps|, i requires 0 <= i < |ceps| => Locality(ceps[i])))
  }

  /** The inner loops of both load assignment forms. */
  method BuildLoadAssignment(name: string, ceps: seq<ClusterEndpoint>) returns (r: Resource)
    ensures r == MakeLoadAssignment(name, ceps)
  {
    var localities: seq<LocalityEndpoints> := [];
    for i := 0 to |ceps|
      invariant localities == seq(i, j requires 0 <= j < i => Locality(ceps[j]))
    {
      var lbes: seq<LbEndpoint> := [];
      var addresses := ceps[i].addresses;
      for a := 0 to |addresses|
        invariant lbes == seq(a, j requires 0 <= j < a =>
          LbEndpoint(addresses[j], ceps[i].port % 0x1_0000_0000, ceps[i].healthy))
      {
        lbes := lbes + [LbEndpoint(addresses[a], ceps[i].port % 0x1_0000_0000, ceps[i].healthy)];
      }
      assert MakeLocality(lbes, ceps[i].zone, ceps[i].subzone, ceps[i].priority) == Locality(ceps[i]);
      localities := localities + [MakeLocality(lbes, ceps[i].zone, ceps[i].subzone, ceps[i].priority)];
    }
    r := LoadAssignment(name, localities);
  }

  ghost function AssignmentSet(clusters: Clusters, names: set<string>): set<Resource>
    requires names <= clusters.Keys
  {
    set name | name in names :: MakeLoadAssignment(name, clusters[name])
  }

  /** The list form: clusters in any order. */
  method ListAssignments(clusters: Clusters) returns (eds: seq<Resource>)
    ensures SetOf(eds) == AssignmentSet(clusters, clusters.Keys)
  {
    eds := [];
    var todo := clusters.Keys;
    ghost var done := {};
    while todo != {}
      invariant todo + done == clusters.Keys
      invariant SetOf(eds) == AssignmentSet(clusters, done)
      decreases todo
    {
      hide MakeLoadAssignment;
      var name :| name in todo;
      var r := BuildLoadAssignment(name, clusters[name]);
      assert SetOf(eds + [r]) == SetOf(eds) + {r};
      assert AssignmentSet(clusters, done + {name}) == AssignmentSet(clusters, done) + {r};
      eds := eds + [r];
      todo, done := todo - {name}, done + {name};
    }
    assert done == clusters.Keys;
  }

  /** The map form of the delta cache. */
  method FileAssignments(clusters: Clusters) returns (eds: Index)
    ensures IsIndexOf(eds, AssignmentSet(clusters, clusters.Keys))
  {
    eds := map[];
    var todo := clusters.Keys;
    ghost var done := {};
    while todo != {}
      invariant todo + done == clusters.Keys
      invariant IsIndexOf(eds, AssignmentSet(clusters, done))
      decreases todo
    {
      hide MakeLoadAssignment;
      var name :| name in todo;
      var r := BuildLoadAssignment(name, clusters[name]);
      assert AssignmentSet(clusters, done + {name}) == AssignmentSet(clusters, done) + {r};
      eds := eds[name := r];
      todo, done := todo - {name}, done + {name};
    }
    assert done == clusters.Keys;
  }

  // ---------------------------------------------------------------------
  // The translation of a store

  ghost function PortsServed(se: XdsEndpoint): set<int> {
    set ce | ce in ServiceEndpoints(se.slices) :: ce.port
  }

  function PortAssignment(se: XdsEndpoint, authority: string, port: int): Resource {
    MakeLoadAssignment(
      LoadAssignmentNameFor(se.service, se.namespace, authority, port),
      FilterPort(ServiceEndpoints(se.slices), port))
  }

  /** One load assignment for every service port with endpoints. */
  ghost function EndpointSet(store: EndpointMap, authority: string): set<Resource> {
    set key, port | key in store && port in PortsServed(store[key]) :: PortAssignment(store[key], authority, port)
  }

  /** Both forms produce the translation of the store, whatever order anything is visited in. */
  lemma AssignmentsAreTranslation(store: EndpointMap, order: seq<string>, authority: string, clusters: Clusters)
    requires WellNamed(store) && IsEnumeration(order, store.Keys)
    requires IsGrouping(clusters, Tagged(store, order, authority))
    ensures AssignmentSet(clusters, clusters.Keys) == EndpointSet(store, authority)
  {
    hide LoadAssignmentNameFor, IsGrouping, MakeLoadAssignment;
    forall name | name in clusters
      ensures MakeLoadAssignment(name, clusters[name]) in EndpointSet(store, authority)
    {
      var key, port := ClusterOrigin(store, order, authority, clusters, name);
      GroupingIsPerPort(store, order, authority, clusters, key, port);
      assert port in PortsServed(store[key]);
      assert MakeLoadAssignment(name, clusters[name]) == PortAssignment(store[key], authority, port);
    }
    forall key, port | key in store && port in PortsServed(store[key])
      ensures PortAssignment(store[key], authority, port) in AssignmentSet(clusters, clusters.Keys)
    {
      GroupingIsPerPort(store, order, authority, clusters, key, port);
    }
  }

  method EndpointSlicesToClusterLoadAssignments(store: EndpointMap, authority: string) returns (eds: seq<Resource>)
    ensures WellNamed(store) ==> SetOf(eds) == EndpointSet(store, authority)
  {
    hide EndpointSet, AssignmentSet, IsGrouping, WellNamed;
    var clusters := CreateClustersFromEndpointStore(store, authority);
    ghost var order :| IsEnumeration(order, store.Keys) && IsGrouping(clusters, Tagged(store, order, authority));
    eds := ListAssignments(clusters);
    if WellNamed(store) {
      AssignmentsAreTranslation(store, order, authority, clusters);
    }
  }

  method EndpointSlicesToClusterLoadAssignmentsWithNames(store: EndpointMap, authority: string) returns (eds: Index)
    ensures WellNamed(store) ==> IsIndexOf(eds, EndpointSet(store, authority))
  {
    hide EndpointSet, AssignmentSet, IsGrouping, WellNamed;
    var clusters := CreateClustersFromEndpointStore(store, authority);
    ghost var order :| IsEnumeration(order, store.Keys) && IsGrouping(clusters, Tagged(store, order, authority));
    eds := FileAssignments(clusters);
    if WellNamed(store) {
      AssignmentsAreTranslation(store, order, authority, clusters);
    }
  }

  lemma EndpointSetDistinct(store: EndpointMap, authority: string)
    requires WellNamed(store)
    ensures Distinct(EndpointSet(store, authority))
  {
    hide LoadAssignmentNameFor;
    var rs := EndpointSet(store, authority);
    forall r, q | r in rs && q in rs && r.Name() == q.Name() ensures r == q {
      var key, port :| key in store && port in PortsServed(store[key]) && r == PortAssignment(store[key], authority, port);
      var key', port' :| key' in store && port' in PortsServed(store[key']) && q == PortAssignment(store[key'], authority, port');
      NamesInjective(store[key].service, store[key].namespace, port,
                     store[key'].service, store[key'].namespace, port', authority);
    }
  }

  lemma EndpointSetXdstp(store: EndpointMap, authority: string)
    requires WellNamed(store)
    ensures forall r | r in EndpointSet(store, authority) :: IsXdstp(r.Name()) <==> authority != ""
  {
    hide LoadAssignmentNameFor, IsXdstp;
    forall r | r in EndpointSet(store, authority) ensures IsXdstp(r.Name()) <==> authority != "" {
      var key, port :| key in store && port in PortsServed(store[key]) && r == PortAssignment(store[key], authority, port);
      XdstpDisjoint(store[key].service, store[key].namespace, port, authority);
    }
  }

  ghost function FullEndpointSet(store: EndpointMap, authority: string): set<Resource> {
    EndpointSet(store, "") + (if authority == "" then {} else EndpointSet(store, authority))
  }

  lemma FullEndpointSetDistinct(store: EndpointMap, authority: string)
    requires WellNamed(store)
    ensures Distinct(FullEndpointSet(store, authority))
  {
    hide EndpointSet, IsXdstp;
    EndpointSetDistinct(store, "");
    EndpointSetDistinct(store, authority);
    EndpointSetXdstp(store, "");
    EndpointSetXdstp(store, authority);
  }

  /** The delta endpoints are the full snapshot's endpoints with plain names. */
  lemma DeltaEndpointsAgree(store: EndpointMap, authority: string)
    requires WellNamed(store)
    requires Distinct(FullEndpointSet(store, authority)) && Distinct(EndpointSet(store, ""))
    ensures var full := ByName(FullEndpointSet(store, authority));
            ByName(EndpointSet(store, "")) == map n | n in full && !IsXdstp(n) :: full[n]
  {
    hide EndpointSet, IsXdstp;
    EndpointSetXdstp(store, "");
    EndpointSetXdstp(store, authority);
    var full, delta := ByName(FullEndpointSet(store, authority)), ByName(EndpointSet(store, ""));
    forall n | n in delta ensures n in full && !IsXdstp(n) && full[n] == delta[n] {
      assert delta[n] in EndpointSet(store, "");
    }
    forall n | n in full && !IsXdstp(n) ensures n in delta {
      assert full[n] in EndpointSet(store, "") && full[n].Name() == n;
    }
  }
}
