/** Load assignments as clients see them: what is published for a service port, and when two stores publish the same. */
module Published {
  import opened Collections
  import opened Names
  import opened Resources
  import opened Sections
  import opened Payloads
  import opened Controller
  import ST = ServiceTranslation
  import ET = EndpointTranslation

  // ---------------------------------------------------------------------
  // Localities of a service port, straight from its slices

  /** Endpoint `ep` of a slice of the given priority, reached on `port`. */
  function LocalityAt(ep: ET.Endpoint, port: int, priority: nat): LocalityEndpoints {
    LocalityEndpoints(
      if ep.zone.Some? then ep.zone.value else "none", ep.pod, priority, 100,
      seq(|ep.addresses|, i requires 0 <= i < |ep.addresses| =>
        LbEndpoint(ep.addresses[i], port % 0x1_0000_0000, ep.ready)))
  }

  /** All endpoints of a slice, in slice order. */
  function EachEndpoint(p: ET.PrioritySlice, port: int): seq<LocalityEndpoints> {
    seq(|p.slice.endpoints|, i requires 0 <= i < |p.slice.endpoints| =>
      LocalityAt(p.slice.endpoints[i], port, p.priority))
  }

  /** Once for every time the port is listed among the first `n` ports of the slice. */
  function OfSlice(p: ET.PrioritySlice, port: int, n: nat): seq<LocalityEndpoints>
    requires n <= |p.slice.ports|
  {
    if n == 0 then []
    else OfSlice(p, port, n - 1) + (if p.slice.ports[n - 1] == port then EachEndpoint(p, port) else [])
  }

  /** Slice by slice, in the order of the slices. */
  function Localities(slices: seq<ET.PrioritySlice>, port: int): seq<LocalityEndpoints> {
    if slices == [] then []
    else
      var last := slices[|slices| - 1];
      Localities(slices[..|slices| - 1], port) + OfSlice(last, port, |last.slice.ports|)
  }

  function Localised(ceps: seq<ET.ClusterEndpoint>): seq<LocalityEndpoints> {
    seq(|ceps|, i requires 0 <= i < |ceps| => ET.Locality(ceps[i]))
  }

  lemma {:induction false} FilterConcat(a: seq<ET.ClusterEndpoint>, b: seq<ET.ClusterEndpoint>, port: int)
    ensures ET.FilterPort(a + b, port) == ET.FilterPort(a, port) + ET.FilterPort(b, port)
  {
    if b == [] {
      assert a + b == a;
    } else {
      assert (a + b)[..|a + b| - 1] == a + b[..|b| - 1];
      FilterConcat(a, b[..|b| - 1], port);
    }
  }

  lemma {:induction false} FilterUniform(ceps: seq<ET.ClusterEndpoint>, own: int, port: int)
    requires forall i | 0 <= i < |ceps| :: ceps[i].port == own
    ensures ET.FilterPort(ceps, port) == if own == port then ceps else []
  {
    if ceps != [] {
      FilterUniform(ceps[..|ceps| - 1], own, port);
      assert ceps == ceps[..|ceps| - 1] + [ceps[|ceps| - 1]];
    }
  }

  lemma OnPortLocalised(p: ET.PrioritySlice, port: int)
    ensures Localised(ET.OnPort(p, port, |p.slice.endpoints|)) == EachEndpoint(p, port)
  {
    var ceps := ET.OnPort(p, port, |p.slice.endpoints|);
    forall i | 0 <= i < |ceps| ensures ET.Locality(ceps[i]) == LocalityAt(p.slice.endpoints[i], port, p.priority) {
      assert ET.Locality(ceps[i]).lbEndpoints == LocalityAt(p.slice.endpoints[i], port, p.priority).lbEndpoints;
    }
  }

  lemma {:induction false} SliceLocalised(p: ET.PrioritySlice, port: int, n: nat)
    requires n <= |p.slice.ports|
    ensures Localised(ET.FilterPort(ET.SliceEndpoints(p, n), port)) == OfSlice(p, port, n)
  {
    hide ET.FilterPort, ET.Locality, EachEndpoint;
    if n == 0 {
      FilterUniform([], port, port);
    } else {
      SliceLocalised(p, port, n - 1);
      var own := p.slice.ports[n - 1];
      var more := ET.OnPort(p, own, |p.slice.endpoints|);
      FilterConcat(ET.SliceEndpoints(p, n - 1), more, port);
      FilterUniform(more, own, port);
      OnPortLocalised(p, own);
      assert Localised(ET.FilterPort(ET.SliceEndpoints(p, n - 1), port) + ET.FilterPort(more, port))
          == Localised(ET.FilterPort(ET.SliceEndpoints(p, n - 1), port)) + Localised(ET.FilterPort(more, port));
    }
  }

  /** The load assignment built for a port lists exactly the localities of the port, in order. */
  lemma {:induction false} ServiceLocalised(slices: seq<ET.PrioritySlice>, port: int)
    ensures Localised(ET.FilterPort(ET.ServiceEndpoints(slices), port)) == Localities(slices, port)
  {
    hide ET.FilterPort, ET.Locality, ET.SliceEndpoints, OfSlice;
    if slices == [] {
      FilterUniform([], port, port);
    } else {
      var init, last := slices[..|slices| - 1], slices[|slices| - 1];
      ServiceLocalised(init, port);
      var more := ET.SliceEndpoints(last, |last.slice.ports|);
      SliceLocalised(last, port, |last.slice.ports|);
      FilterConcat(ET.ServiceEndpoints(init), more, port);
      assert Localised(ET.FilterPort(ET.ServiceEndpoints(init), port) + ET.FilterPort(more, port))
          == Localised(ET.FilterPort(ET.ServiceEndpoints(init), port)) + Localised(ET.FilterPort(more, port));
    }
  }

  lemma AssignmentIs(se: ET.XdsEndpoint, a: string, port: int)
    ensures ET.PortAssignment(se, a, port)
         == LoadAssignment(LoadAssignmentNameFor(se.service, se.namespace, a, port), Localities(se.slices, port))
    ensures port in ET.PortsServed(se) <==> Localities(se.slices, port) != []
  {
    hide LoadAssignmentNameFor;
    var ceps := ET.ServiceEndpoints(se.slices);
    ServiceLocalised(se.slices, port);
    ET.FilterPortMembers(ceps, port);
    var filtered := ET.FilterPort(ceps, port);
    assert filtered != [] ==> filtered[0] in filtered;
    assert |Localised(filtered)| == |filtered|;
    hide ET.FilterPort, ET.ServiceEndpoints, Localities;
    assert ET.PortAssignment(se, a, port).endpoints == Localised(filtered);
  }

  // ---------------------------------------------------------------------
  // Looking load assignments up

  /** The endpoints snapshot of the watched clusters, for the services in `svcs`. */
  ghost function PublishedEndpoints(c: Watched, svcs: ST.ServiceMap, authority: string): Index
    requires ST.WellNamed(svcs)
  {
    EndpointStoreWellNamed(c, svcs);
    ItemsOf(EndpointItems(EndpointStoreOf(c, svcs), authority), EndpointType)
  }

  lemma AssignmentIsStored(store: ET.EndpointMap, authority: string, a: string, key: string, port: int)
    requires ET.WellNamed(store) && a in {"", authority} && key in store && port in ET.PortsServed(store[key])
    ensures var x := LoadAssignmentNameFor(store[key].service, store[key].namespace, a, port);
            var eds := ItemsOf(EndpointItems(store, authority), EndpointType);
            x in eds && eds[x] == ET.PortAssignment(store[key], a, port)
  {
    hide LoadAssignmentNameFor, ET.PortsServed;
    ET.FullEndpointSetDistinct(store, authority);
    var r := ET.PortAssignment(store[key], a, port);
    assert r in ET.EndpointSet(store, a) && r in ET.FullEndpointSet(store, authority);
    assert r.Name() == LoadAssignmentNameFor(store[key].service, store[key].namespace, a, port);
    hide ET.EndpointSet, ET.FullEndpointSet, ET.WellNamed, ET.PortAssignment;
  }

  lemma AssignmentOrigin(store: ET.EndpointMap, authority: string, x: string) returns (key: string, port: int, a: string)
    requires ET.WellNamed(store) && x in ItemsOf(EndpointItems(store, authority), EndpointType)
    ensures key in store && port in ET.PortsServed(store[key]) && a in {"", authority}
    ensures x == LoadAssignmentNameFor(store[key].service, store[key].namespace, a, port)
    ensures ItemsOf(EndpointItems(store, authority), EndpointType)[x] == ET.PortAssignment(store[key], a, port)
  {
    hide LoadAssignmentNameFor, ET.PortsServed;
    ET.FullEndpointSetDistinct(store, authority);
    var r := ItemsOf(EndpointItems(store, authority), EndpointType)[x];
    a := if r in ET.EndpointSet(store, "") then "" else authority;
    assert r in ET.EndpointSet(store, a);
    key, port :| key in store && port in ET.PortsServed(store[key]) && r == ET.PortAssignment(store[key], a, port);
  }

  /**
    What is published under the load assignment name of a stored service's port: the localities of the
    service's slices on that port, or nothing at all if there are none.
   */
  lemma PublishedUnder(c: Watched, svcs: ST.ServiceMap, authority: string, a: string, key: string, port: int)
    requires ST.WellNamed(svcs) && key in svcs && a in {"", authority}
    ensures var x := LoadAssignmentNameFor(svcs[key].kube.name, svcs[key].kube.namespace, a, port);
            var eds, ls := PublishedEndpoints(c, svcs, authority), Localities(SlicesFor(c, svcs[key]), port);
            && (x in eds <==> ls != [])
            && (x in eds ==> eds[x] == LoadAssignment(x, ls))
  {
    hide LoadAssignmentNameFor, SlicesFor, Localities, ET.PortAssignment, ET.PortsServed, EndpointItems;
    EndpointStoreWellNamed(c, svcs);
    var s, store := svcs[key], EndpointStoreOf(c, svcs);
    var name, ns := s.kube.name, s.kube.namespace;
    var se := ET.XdsEndpoint(SlicesFor(c, s), ns, name);
    var x := LoadAssignmentNameFor(name, ns, a, port);
    AssignmentIs(se, a, port);
    NoLocalities(port);
    assert key in store <==> SlicesFor(c, s) != [];
    if key in store && port in ET.PortsServed(se) {
      AssignmentIsStored(store, authority, a, key, port);
    }
    if x in PublishedEndpoints(c, svcs, authority) {
      var key', port', a' := AssignmentOrigin(store, authority, x);
      StoredNames(c, svcs, key');
      SameServiceSamePort(svcs, authority, key, port, a, key', port', a');
    }
  }

  lemma NoLocalities(port: int)
    ensures Localities([], port) == []
  {
  }

  lemma StoredNames(c: Watched, svcs: ST.ServiceMap, key: string)
    requires key in EndpointStoreOf(c, svcs)
    ensures key in svcs && EndpointStoreOf(c, svcs)[key]
         == ET.XdsEndpoint(SlicesFor(c, svcs[key]), svcs[key].kube.namespace, svcs[key].kube.name)
  {
    hide SlicesFor;
  }

  lemma SameServiceSamePort(svcs: ST.ServiceMap, authority: string, key: string, port: int, a: string,
                            key': string, port': int, a': string)
    requires ST.WellNamed(svcs) && key in svcs && key' in svcs && a in {"", authority} && a' in {"", authority}
    requires LoadAssignmentNameFor(svcs[key].kube.name, svcs[key].kube.namespace, a, port)
          == LoadAssignmentNameFor(svcs[key'].kube.name, svcs[key'].kube.namespace, a', port')
    ensures key == key' && port == port' && a == a'
  {
    var k, k' := svcs[key].kube, svcs[key'].kube;
    XdstpDisjoint(k.name, k.namespace, port, a);
    XdstpDisjoint(k'.name, k'.namespace, port', a');
    hide LoadAssignmentNameFor, IsXdstp;
    NamesInjective(k.name, k.namespace, port, k'.name, k'.namespace, port', a);
  }

  /** Every published load assignment is that of a port of a stored service. */
  lemma PublishedOrigin(c: Watched, svcs: ST.ServiceMap, authority: string, x: string) returns (key: string, port: int, a: string)
    requires ST.WellNamed(svcs) && x in PublishedEndpoints(c, svcs, authority)
    ensures key in svcs && a in {"", authority}
    ensures x == LoadAssignmentNameFor(svcs[key].kube.name, svcs[key].kube.namespace, a, port)
  {
    hide LoadAssignmentNameFor, EndpointItems, ET.PortsServed, ET.PortAssignment;
    EndpointStoreWellNamed(c, svcs);
    key, port, a := AssignmentOrigin(EndpointStoreOf(c, svcs), authority, x);
    StoredNames(c, svcs, key);
  }

  /** Every stored service has the same localities on every port. */
  ghost predicate SameLocalities(c: Watched, c': Watched, svcs: ST.ServiceMap) {
    forall key, port: int | key in svcs :: SameOnPort(c, c', svcs[key], port)
  }

  ghost predicate SameOnPort(c: Watched, c': Watched, s: ST.Service, port: int) {
    Localities(SlicesFor(c, s), port) == Localities(SlicesFor(c', s), port)
  }

  /** Two watched states publish the same endpoints exactly when every stored service has the same localities on every port. */
  lemma SamePublished(c: Watched, c': Watched, svcs: ST.ServiceMap, authority: string)
    requires ST.WellNamed(svcs)
    ensures PublishedEndpoints(c, svcs, authority) == PublishedEndpoints(c', svcs, authority) <==> SameLocalities(c, c', svcs)
  {
    hide PublishedEndpoints, Localities, SlicesFor, LoadAssignmentNameFor, ST.WellNamed;
    var eds, eds' := PublishedEndpoints(c, svcs, authority), PublishedEndpoints(c', svcs, authority);
    if eds == eds' {
      forall key, port: int | key in svcs ensures SameOnPort(c, c', svcs[key], port) {
        PublishedUnder(c, svcs, authority, "", key, port);
        PublishedUnder(c', svcs, authority, "", key, port);
      }
    }
    if SameLocalities(c, c', svcs) {
      forall x | x in eds ensures x in eds' && eds'[x] == eds[x] {
        var key, port, a := PublishedOrigin(c, svcs, authority, x);
        PublishedUnder(c, svcs, authority, a, key, port);
        PublishedUnder(c', svcs, authority, a, key, port);
        assert SameOnPort(c, c', svcs[key], port);
      }
      forall x | x in eds' ensures x in eds {
        var key, port, a := PublishedOrigin(c', svcs, authority, x);
        PublishedUnder(c, svcs, authority, a, key, port);
        PublishedUnder(c', svcs, authority, a, key, port);
        assert SameOnPort(c, c', svcs[key], port);
      }
    }
  }

  // ---------------------------------------------------------------------
  // What slices offer, whatever priority they are given

  /** The localities of plain slices on a port, at priority 0. */
  function Offered(slices: seq<ET.EndpointSlice>, port: int): seq<LocalityEndpoints> {
    Localities(Prioritised(slices, 0), port)
  }

  function At(ls: seq<LocalityEndpoints>, priority: nat): seq<LocalityEndpoints> {
    seq(|ls|, i requires 0 <= i < |ls| => ls[i].(priority := priority))
  }

  lemma {:induction false} LocalitiesConcat(a: seq<ET.PrioritySlice>, b: seq<ET.PrioritySlice>, port: int)
    ensures Localities(a + b, port) == Localities(a, port) + Localities(b, port)
  {
    hide OfSlice;
    if b == [] {
      assert a + b == a;
    } else {
      assert (a + b)[..|a + b| - 1] == a + b[..|b| - 1];
      LocalitiesConcat(a, b[..|b| - 1], port);
    }
  }

  /** Listing more ports adds localities after those of the ports listed before. */
  lemma {:induction false} LocalitiesByPort(e: ET.EndpointSlice, priority: nat, own: int, port: int)
    ensures Localities([ET.PrioritySlice(e.(ports := e.ports + [own]), priority)], port)
         == Localities([ET.PrioritySlice(e, priority)], port)
            + if own == port then Localities([ET.PrioritySlice(e.(ports := [own]), priority)], port) else []
  {
    var more := e.(ports := e.ports + [own]);
    var p, q, r := ET.PrioritySlice(e, priority), ET.PrioritySlice(more, priority), ET.PrioritySlice(e.(ports := [own]), priority);
    assert forall x: ET.PrioritySlice :: [x][..0] == [];
    SamePrefix(p, q, port, |e.ports|);
    assert EachEndpoint(q, port) == EachEndpoint(r, port);
    assert OfSlice(r, port, 1) == OfSlice(r, port, 0) + if own == port then EachEndpoint(r, port) else [];
  }

  lemma {:induction false} SamePrefix(p: ET.PrioritySlice, q: ET.PrioritySlice, port: int, n: nat)
    requires n <= |p.slice.ports| <= |q.slice.ports| && q.slice.ports[..n] == p.slice.ports[..n]
    requires q.slice.endpoints == p.slice.endpoints && q.priority == p.priority
    ensures OfSlice(p, port, n) == OfSlice(q, port, n)
  {
    if n > 0 {
      assert p.slice.ports[..n][..n - 1] == p.slice.ports[..n - 1] && q.slice.ports[..n][..n - 1] == q.slice.ports[..n - 1];
      assert p.slice.ports[n - 1] == p.slice.ports[..n][n - 1] == q.slice.ports[..n][n - 1] == q.slice.ports[n - 1];
      SamePrefix(p, q, port, n - 1);
      assert EachEndpoint(p, port) == EachEndpoint(q, port);
    }
  }

  /** On the one port of a slice: its endpoints one by one, everything intact; on another port: nothing. */
  lemma LocalitiesOfOnePort(e: ET.EndpointSlice, priority: nat, own: int, port: int)
    requires e.ports == [own]
    ensures var ls := Localities([ET.PrioritySlice(e, priority)], port);
            && |ls| == (if own == port then |e.endpoints| else 0)
            && forall i | 0 <= i < |ls| ::
                 && ls[i].zone == (if e.endpoints[i].zone.Some? then e.endpoints[i].zone.value else "none")
                 && ls[i].subzone == e.endpoints[i].pod && ls[i].priority == priority && ls[i].weight == 100
                 && |ls[i].lbEndpoints| == |e.endpoints[i].addresses|
                 && forall j | 0 <= j < |e.endpoints[i].addresses| ::
                      ls[i].lbEndpoints[j] == LbEndpoint(e.endpoints[i].addresses[j], port % 0x1_0000_0000, e.endpoints[i].ready)
  {
    hide EachEndpoint, Localities;
    OneListed(ET.PrioritySlice(e, priority), own, port);
    EachEndpointIs(ET.PrioritySlice(e, priority), port);
  }

  lemma OneListed(p: ET.PrioritySlice, own: int, port: int)
    requires p.slice.ports == [own]
    ensures Localities([p], port) == if own == port then EachEndpoint(p, port) else []
  {
    hide EachEndpoint;
    assert [p][..0] == [];
    assert OfSlice(p, port, 1) == OfSlice(p, port, 0) + if own == port then EachEndpoint(p, port) else [];
  }

  lemma EachEndpointIs(p: ET.PrioritySlice, port: int)
    ensures var ls, eps := EachEndpoint(p, port), p.slice.endpoints;
            && |ls| == |eps|
            && forall i | 0 <= i < |ls| ::
                 && ls[i].zone == (if eps[i].zone.Some? then eps[i].zone.value else "none")
                 && ls[i].subzone == eps[i].pod && ls[i].priority == p.priority && ls[i].weight == 100
                 && |ls[i].lbEndpoints| == |eps[i].addresses|
                 && forall j | 0 <= j < |eps[i].addresses| ::
                      ls[i].lbEndpoints[j] == LbEndpoint(eps[i].addresses[j], port % 0x1_0000_0000, eps[i].ready)
  {
  }

  lemma {:induction false} OfSliceAt(e: ET.EndpointSlice, priority: nat, port: int, n: nat)
    requires n <= |e.ports|
    ensures OfSlice(ET.PrioritySlice(e, priority), port, n) == At(OfSlice(ET.PrioritySlice(e, 0), port, n), priority)
  {
    if n > 0 {
      OfSliceAt(e, priority, port, n - 1);
      assert EachEndpoint(ET.PrioritySlice(e, priority), port) == At(EachEndpoint(ET.PrioritySlice(e, 0), port), priority);
    }
  }

  lemma {:induction false} OfferedAt(slices: seq<ET.EndpointSlice>, priority: nat, port: int)
    ensures Localities(Prioritised(slices, priority), port) == At(Offered(slices, port), priority)
  {
    hide OfSlice;
    if slices != [] {
      var init, last := slices[..|slices| - 1], slices[|slices| - 1];
      OfferedAt(init, priority, port);
      OfSliceAt(last, priority, port, |last.ports|);
      assert Prioritised(slices, priority)[..|slices| - 1] == Prioritised(init, priority);
      assert Prioritised(slices, 0)[..|slices| - 1] == Prioritised(init, 0);
    }
  }

  lemma AtZero(slices: seq<ET.EndpointSlice>, port: int)
    ensures At(Offered(slices, port), 0) == Offered(slices, port)
  {
    OfferedAt(slices, 0, port);
  }

  lemma AtLength(ls: seq<LocalityEndpoints>, priority: nat)
    ensures |At(ls, priority)| == |ls|
  {
  }

  lemma OfferedConcat(a: seq<ET.EndpointSlice>, b: seq<ET.EndpointSlice>, port: int)
    ensures Offered(a + b, port) == Offered(a, port) + Offered(b, port)
  {
    hide Localities;
    assert Prioritised(a + b, 0) == Prioritised(a, 0) + Prioritised(b, 0);
    LocalitiesConcat(Prioritised(a, 0), Prioritised(b, 0), port);
  }

  /** A service's localities on a port: the local offer, then the remote offer at its priority. */
  lemma ServiceLocalities(c: Watched, s: ST.Service, port: int)
    ensures Localities(SlicesFor(c, s), port)
         == Offered(LocalSlices(c, s), port)
            + if s.config.enableRemoteEndpoints
              then At(Offered(RemoteSlices(c.remotes, s), port), if RemotesFallBack(c, s) then 1 else 0)
              else []
  {
    hide Localities, LocalSlices, RemoteSlices, Prioritised;
    var priority := if RemotesFallBack(c, s) then 1 else 0;
    OfferedAt(RemoteSlices(c.remotes, s), priority, port);
    NoLocalities(port);
    var remote := if s.config.enableRemoteEndpoints then Prioritised(RemoteSlices(c.remotes, s), priority) else [];
    LocalitiesConcat(Prioritised(LocalSlices(c, s), 0), remote, port);
  }

  /** Some slice with endpoints has the port. */
  ghost predicate HasPort(slices: seq<ET.EndpointSlice>, port: int) {
    exists e | e in slices :: port in e.ports && e.endpoints != []
  }

  lemma {:induction false} OfSliceEmpty(e: ET.EndpointSlice, port: int, n: nat)
    requires n <= |e.ports|
    ensures OfSlice(ET.PrioritySlice(e, 0), port, n) != [] <==> port in e.ports[..n] && e.endpoints != []
  {
    if n > 0 {
      OfSliceEmpty(e, port, n - 1);
      assert e.ports[..n] == e.ports[..n - 1] + [e.ports[n - 1]];
      assert |EachEndpoint(ET.PrioritySlice(e, 0), port)| == |e.endpoints|;
    }
  }

  lemma {:induction false} OfferedEmpty(slices: seq<ET.EndpointSlice>, port: int)
    ensures Offered(slices, port) != [] <==> HasPort(slices, port)
  {
    hide OfSlice;
    if slices != [] {
      var init, last := slices[..|slices| - 1], slices[|slices| - 1];
      assert slices == init + [last];
      OfferedEmpty(init, port);
      OfSliceEmpty(last, port, |last.ports|);
      assert last.ports[..|last.ports|] == last.ports;
      assert Prioritised(slices, 0)[..|slices| - 1] == Prioritised(init, 0);
    }
  }

  // ---------------------------------------------------------------------
  // Where the endpoints of a port are, in terms of the watched slices

  /** A slice labelled with the service's name, in its namespace, that has endpoints. */
  ghost predicate Populates(e: ET.EndpointSlice, s: ST.Service) {
    && "kubernetes.io/service-name" in e.labels && e.labels["kubernetes.io/service-name"] == s.kube.name
    && e.namespace == s.kube.namespace && e.endpoints != []
  }

  ghost predicate HasLocal(c: Watched, s: ST.Service) {
    exists e | e in c.local.slices :: Populates(e, s)
  }

  ghost predicate LocalOn(c: Watched, s: ST.Service, port: int) {
    exists e | e in c.local.slices :: Populates(e, s) && port in e.ports
  }

  ghost predicate RemoteOn(c: Watched, s: ST.Service, port: int) {
    exists l, e | l in c.remotes && e in l.slices :: Populates(e, s) && port in e.ports
  }

  lemma OffersAre(c: Watched, s: ST.Service, port: int)
    ensures LocalSlices(c, s) != [] <==> HasLocal(c, s)
    ensures HasPort(LocalSlices(c, s), port) <==> LocalOn(c, s, port)
    ensures HasPort(RemoteSlices(c.remotes, s), port) <==> RemoteOn(c, s, port)
  {
    LocalAndRemoteAre(c, s);
    LocalMembers(c, s);
    RemoteMembers(c, s);
    hide LocalSlices, RemoteSlices, LocalOf, RemoteOf, Populates;
    var local := LocalSlices(c, s);
    assert local != [] ==> local[0] in local;
    if RemoteOn(c, s, port) {
      var l, e :| l in c.remotes && e in l.slices && Populates(e, s) && port in e.ports;
      assert e in RemoteOf(c, s);
    }
  }

  lemma LocalMembers(c: Watched, s: ST.Service)
    ensures forall e :: e in LocalOf(c, s) <==> e in c.local.slices && Populates(e, s)
    ensures forall e | e in LocalOf(c, s) :: e.endpoints != []
  {
    FilterMembers(OwnedAndPopulated(s), c.local.slices);
    hide Filter;
  }

  lemma RemoteMembers(c: Watched, s: ST.Service)
    ensures forall e | e in RemoteOf(c, s) && e.endpoints != [] :: Populates(e, s) && exists l | l in c.remotes :: e in l.slices
    ensures forall l, e | l in c.remotes && e in l.slices && Populates(e, s) :: e in RemoteOf(c, s) && e.endpoints != []
  {
    var own, lists := OwnedBy(s), EachFiltered(OwnedBy(s), c.remotes);
    FlattenMembers(lists);
    forall i | 0 <= i < |c.remotes| ensures forall e :: e in lists[i] <==> e in c.remotes[i].slices && own(e) {
      FilterMembers(own, c.remotes[i].slices);
    }
    hide Filter, Flatten;
    forall e | e in RemoteOf(c, s) && e.endpoints != []
      ensures Populates(e, s) && exists l | l in c.remotes :: e in l.slices
    {
      var i :| 0 <= i < |lists| && e in lists[i];
      assert c.remotes[i] in c.remotes;
    }
    forall l, e | l in c.remotes && e in l.slices && Populates(e, s) ensures e in RemoteOf(c, s) && e.endpoints != [] {
      var i :| 0 <= i < |c.remotes| && c.remotes[i] == l;
      assert e in lists[i];
    }
  }
}
