/** Local-first priorities: controller/controller.go assigns them, xds/endpoints.go serves them per port. */
module Priorities {
  import opened Collections
  import opened Names
  import opened Resources
  import opened Controller
  import opened Published
  import ST = ServiceTranslation
  import ET = EndpointTranslation

  /** Clients expect the priorities of a load assignment to start at 0 and to skip none. */
  ghost predicate GapFree(ps: set<nat>) {
    forall p, q: nat | p in ps && q < p :: q in ps
  }

  ghost function PrioritiesOf(ls: seq<LocalityEndpoints>): set<nat> {
    set l | l in ls :: l.priority
  }

  /** The priorities a service uses on one port. */
  ghost function PortPriorities(c: Watched, s: ST.Service, port: int): set<nat> {
    PrioritiesOf(Localities(SlicesFor(c, s), port))
  }

  lemma PrioritiesAt(ls: seq<LocalityEndpoints>, priority: nat)
    ensures PrioritiesOf(At(ls, priority)) == if ls == [] then {} else {priority}
  {
    var at := At(ls, priority);
    if ls != [] {
      assert at[0] in at && at[0].priority == priority;
    }
  }

  lemma PrioritiesConcat(a: seq<LocalityEndpoints>, b: seq<LocalityEndpoints>)
    ensures PrioritiesOf(a + b) == PrioritiesOf(a) + PrioritiesOf(b)
  {
  }

  /**
    The priorities of every port: only 0 and 1 occur, and only 0 unless the service is local-first; 1 is
    used exactly for remote endpoints of a local-first service that has local endpoints; and there is a gap
    exactly when, for such a service, the port has remote endpoints but no local ones.
   */
  lemma PortPrioritiesAre(c: Watched, s: ST.Service, port: int)
    ensures var ps, config := PortPriorities(c, s, port), s.config;
            && ps <= {0, 1}
            && (!config.prioritizeLocalEndpoints || !config.enableRemoteEndpoints ==> ps <= {0})
            && (1 in ps <==> config.enableRemoteEndpoints && config.prioritizeLocalEndpoints && HasLocal(c, s) && RemoteOn(c, s, port))
            && (0 in ps <==> || LocalOn(c, s, port)
                             || (config.enableRemoteEndpoints && RemoteOn(c, s, port)
                                 && !(config.prioritizeLocalEndpoints && HasLocal(c, s))))
            && (GapFree(ps) <==> !(config.enableRemoteEndpoints && config.prioritizeLocalEndpoints && HasLocal(c, s)
                                   && RemoteOn(c, s, port) && !LocalOn(c, s, port)))
  {
    hide HasPort, LocalSlices, RemoteSlices, Localities, SlicesFor, At, Offered, PrioritiesOf, HasLocal, LocalOn, RemoteOn;
    var local, remote := Offered(LocalSlices(c, s), port), Offered(RemoteSlices(c.remotes, s), port);
    var fallback: nat := if RemotesFallBack(c, s) then 1 else 0;
    OffersAre(c, s, port);
    ServiceLocalities(c, s, port);
    OfferedEmpty(LocalSlices(c, s), port);
    OfferedEmpty(RemoteSlices(c.remotes, s), port);
    AtZero(LocalSlices(c, s), port);
    PrioritiesAt(local, 0);
    PrioritiesAt(remote, fallback);
    NoPriorities();
    PrioritiesConcat(local, if s.config.enableRemoteEndpoints then At(remote, fallback) else []);
  }

  lemma NoPriorities()
    ensures PrioritiesOf([]) == {}
  {
  }

  /** Where remote endpoints are a fallback, every port they have is also a local one. */
  ghost predicate FallbackCovered(c: Watched, s: ST.Service) {
    s.config.enableRemoteEndpoints && s.config.prioritizeLocalEndpoints && HasLocal(c, s) ==>
      forall port | RemoteOn(c, s, port) :: LocalOn(c, s, port)
  }

  /**
    No port of a service ever skips a priority if and only if, where remote endpoints are a fallback,
    every port of a populated remote slice is also a port of a populated local slice.
   */
  lemma GapFreeExactlyWhen(c: Watched, s: ST.Service)
    ensures (forall port :: GapFree(PortPriorities(c, s, port))) <==> FallbackCovered(c, s)
  {
    hide GapFree, PortPriorities, HasLocal, LocalOn, RemoteOn;
    forall port
      ensures GapFree(PortPriorities(c, s, port)) <==>
                !(s.config.enableRemoteEndpoints && s.config.prioritizeLocalEndpoints && HasLocal(c, s)
                  && RemoteOn(c, s, port) && !LocalOn(c, s, port))
    {
      PortPrioritiesAre(c, s, port);
    }
  }

  /** The load assignments clients are served have the priorities of their ports. */
  lemma PublishedPriorities(c: Watched, svcs: ST.ServiceMap, authority: string, a: string, key: string, port: int)
    requires ST.WellNamed(svcs) && key in svcs && a in {"", authority}
    ensures var x := LoadAssignmentNameFor(svcs[key].kube.name, svcs[key].kube.namespace, a, port);
            var eds := PublishedEndpoints(c, svcs, authority);
            && (x in eds <==> PortPriorities(c, svcs[key], port) != {})
            && (x in eds ==> eds[x].LoadAssignment? && PrioritiesOf(eds[x].endpoints) == PortPriorities(c, svcs[key], port))
  {
    hide LoadAssignmentNameFor, PublishedEndpoints, Localities, SlicesFor, ST.WellNamed;
    PublishedUnder(c, svcs, authority, a, key, port);
    var ls := Localities(SlicesFor(c, svcs[key]), port);
    assert ls != [] ==> ls[0] in ls && ls[0].priority in PrioritiesOf(ls);
  }

  /** `x` is published without a gap in its priorities. */
  ghost predicate PublishedGapFree(eds: Index, x: string)
    requires x in eds
  {
    eds[x].LoadAssignment? && GapFree(PrioritiesOf(eds[x].endpoints))
  }

  /** Every published load assignment is free of gaps if and only if the fallback of every stored service is covered. */
  lemma PublishedGapFreeExactlyWhen(c: Watched, svcs: ST.ServiceMap, authority: string)
    requires ST.WellNamed(svcs)
    ensures var eds := PublishedEndpoints(c, svcs, authority);
            (forall x | x in eds :: PublishedGapFree(eds, x)) <==> (forall key | key in svcs :: FallbackCovered(c, svcs[key]))
  {
    hide PublishedEndpoints, PortPriorities, FallbackCovered, ST.WellNamed, LoadAssignmentNameFor, PrioritiesOf;
    var eds := PublishedEndpoints(c, svcs, authority);
    if forall x | x in eds :: PublishedGapFree(eds, x) {
      forall key | key in svcs ensures FallbackCovered(c, svcs[key]) {
        forall port ensures GapFree(PortPriorities(c, svcs[key], port)) {
          PublishedPriorities(c, svcs, authority, "", key, port);
          var x := LoadAssignmentNameFor(svcs[key].kube.name, svcs[key].kube.namespace, "", port);
          assert x in eds ==> PublishedGapFree(eds, x);
        }
        GapFreeExactlyWhen(c, svcs[key]);
      }
    }
    if forall key | key in svcs :: FallbackCovered(c, svcs[key]) {
      forall x | x in eds ensures PublishedGapFree(eds, x) {
        var key, port, a := PublishedOrigin(c, svcs, authority, x);
        PublishedPriorities(c, svcs, authority, a, key, port);
        GapFreeExactlyWhen(c, svcs[key]);
        assert GapFree(PortPriorities(c, svcs[key], port));
      }
    }
  }

  // ---------------------------------------------------------------------
  // A gap

  function LabelledSlice(name: string, ns: string, port: int, ep: ET.Endpoint): ET.EndpointSlice {
    ET.EndpointSlice("slice", ns, map[SERVICE_NAME_LABEL := name], [port], [ep])
  }

  /** One local-first XdsService, with a local endpoint on port 80 and a remote one on port 9. */
  function LocalFirstState(ep: ET.Endpoint, name: string, ns: string): Watched {
    Watched(
      Ok([]), Ok([XdsService(name, ns, ST.ServiceConfig(true, RoundRobin, None, [], true, None))]), map[(name, ns) := [80, 9]],
      Lister([LabelledSlice(name, ns, 80, ep)], {}, {}), [Lister([LabelledSlice(name, ns, 9, ep)], {}, {})])
  }

  lemma OnlyPriorityOne(c: Watched, s: ST.Service, ep: ET.Endpoint)
    requires c == LocalFirstState(ep, s.kube.name, s.kube.namespace)
    requires s.config.enableRemoteEndpoints && s.config.prioritizeLocalEndpoints
    ensures PortPriorities(c, s, 9) == {1}
  {
    var name, ns := s.kube.name, s.kube.namespace;
    var local, remote := LabelledSlice(name, ns, 80, ep), LabelledSlice(name, ns, 9, ep);
    assert Populates(local, s) && Populates(remote, s);
    assert c.local.slices == [local] && c.remotes == [Lister([remote], {}, {})];
    hide Populates, PortPriorities, LabelledSlice, LocalFirstState;
    assert local in c.local.slices && c.remotes[0] in c.remotes && remote in c.remotes[0].slices;
    assert HasLocal(c, s) && RemoteOn(c, s, 9) && !LocalOn(c, s, 9) by {
      assert 9 in remote.ports && 9 !in local.ports;
    }
    PortPrioritiesAre(c, s, 9);
  }

  /** In that state the load assignment published for port 9 has priority 1 alone. */
  lemma RemoteOnlyPortLeavesAGap(authority: string, ep: ET.Endpoint, name: string, ns: string)
    returns (c: Watched, svcs: ST.ServiceMap)
    requires NameOk(name, ns)
    ensures c == LocalFirstState(ep, name, ns) && c.Lists() && WellNamed(c)
    ensures svcs == ServiceStoreOf(c) && ST.WellNamed(svcs) && svcs.Keys == {Key(name, ns)}
    ensures var eds, x := PublishedEndpoints(c, svcs, authority), LoadAssignmentNameFor(name, ns, "", 9);
            x in eds && eds[x].LoadAssignment? && PrioritiesOf(eds[x].endpoints) == {1} && !PublishedGapFree(eds, x)
  {
    hide *;
    c := LocalFirstState(ep, name, ns);
    LocalFirstStore(ep, name, ns);
    svcs := ServiceStoreOf(c);
    OnlyPriorityOne(c, svcs[Key(name, ns)], ep);
    PublishedPriorities(c, svcs, authority, "", Key(name, ns), 9);
    PriorityOneGap(PublishedEndpoints(c, svcs, authority), LoadAssignmentNameFor(name, ns, "", 9));
  }

  lemma LocalFirstStore(ep: ET.Endpoint, name: string, ns: string)
    requires NameOk(name, ns)
    ensures var c := LocalFirstState(ep, name, ns);
            && c.Lists() && WellNamed(c) && ST.WellNamed(ServiceStoreOf(c)) && ServiceStoreOf(c).Keys == {Key(name, ns)}
            && var s := ServiceStoreOf(c)[Key(name, ns)];
               && s.kube.name == name && s.kube.namespace == ns
               && s.config.enableRemoteEndpoints && s.config.prioritizeLocalEndpoints
  {
    var c := LocalFirstState(ep, name, ns);
    hide ServiceStoreOf, WellNamed, Key, ST.WellNamed;
    OneService(c, c.xdsServices.value[0], [80, 9]);
    StoreWellNamed(c);
  }

  lemma PriorityOneGap(eds: Index, x: string)
    requires x in eds && eds[x].LoadAssignment? && PrioritiesOf(eds[x].endpoints) == {1}
    ensures !PublishedGapFree(eds, x)
  {
    hide PrioritiesOf;
    assert 1 in PrioritiesOf(eds[x].endpoints) && 0 !in PrioritiesOf(eds[x].endpoints);
  }
}
