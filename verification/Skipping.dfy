/** controller/controller.go, needToReconcileEndpointSlice: when a slice event may be ignored. */
module Skipping {
  import opened Collections
  import opened Names
  import opened Controller
  import ST = ServiceTranslation
  import ET = EndpointTranslation

  /** The service-name label of the slice names a stored service. */
  predicate NeedToReconcileEndpointSlice(e: ET.EndpointSlice, svcs: ST.ServiceMap) {
    SERVICE_NAME_LABEL in e.labels && Key(e.labels[SERVICE_NAME_LABEL], e.namespace) in svcs
  }

  method IsServiceInXdsServiceStore(name: string, ns: string, store: ST.XdsServiceStore) returns (found: bool)
    ensures found <==> Key(name, ns) in store.store
  {
    var r := store.Get(name, ns);
    found := r.Ok?;
  }

  method ComputeNeedToReconcileEndpointSlice(e: ET.EndpointSlice, store: ST.XdsServiceStore) returns (need: bool)
    ensures need == NeedToReconcileEndpointSlice(e, store.store)
  {
    if SERVICE_NAME_LABEL !in e.labels {
      return false;
    }
    need := IsServiceInXdsServiceStore(e.labels[SERVICE_NAME_LABEL], e.namespace, store);
  }

  /** A query made for some stored service returns the slice. */
  ghost predicate Wanted(e: ET.EndpointSlice, svcs: ST.ServiceMap) {
    exists key | key in svcs :: Selects(e, svcs[key].kube.name, svcs[key].kube.namespace)
  }

  /** The test never misses a slice that is wanted, and with dot-free namespaces it is exact. */
  lemma NeedIsWanted(e: ET.EndpointSlice, svcs: ST.ServiceMap)
    requires ST.Keyed(svcs)
    ensures Wanted(e, svcs) ==> NeedToReconcileEndpointSlice(e, svcs)
    ensures ST.DotFree(svcs) && '.' !in e.namespace && NeedToReconcileEndpointSlice(e, svcs) ==> Wanted(e, svcs)
  {
    if ST.DotFree(svcs) && '.' !in e.namespace && NeedToReconcileEndpointSlice(e, svcs) {
      var name := e.labels[SERVICE_NAME_LABEL];
      var key := Key(name, e.namespace);
      KeyInjective(svcs[key].kube.name, svcs[key].kube.namespace, name, e.namespace);
      assert Selects(e, svcs[key].kube.name, svcs[key].kube.namespace);
    }
  }

  // ---------------------------------------------------------------------
  // Replacing part of what a cluster lists

  lemma {:induction false} SelectedConcat(a: seq<ET.EndpointSlice>, b: seq<ET.EndpointSlice>, name: string, ns: string)
    ensures Selected(a + b, name, ns) == Selected(a, name, ns) + Selected(b, name, ns)
  {
    hide Selects;
    if b == [] {
      assert a + b == a;
    } else {
      assert (a + b)[..|a + b| - 1] == a + b[..|b| - 1];
      SelectedConcat(a, b[..|b| - 1], name, ns);
    }
  }

  lemma {:induction false} PopulatedConcat(a: seq<ET.EndpointSlice>, b: seq<ET.EndpointSlice>)
    ensures Populated(a + b) == Populated(a) + Populated(b)
  {
    if b == [] {
      assert a + b == a;
    } else {
      assert (a + b)[..|a + b| - 1] == a + b[..|b| - 1];
      PopulatedConcat(a, b[..|b| - 1]);
    }
  }

  function WithLocal(c: Watched, slices: seq<ET.EndpointSlice>): Watched {
    c.(local := c.local.(slices := slices))
  }

  /** What the slices `part` contribute to a service as local slices. */
  function LocalPart(part: seq<ET.EndpointSlice>, s: ST.Service): seq<ET.EndpointSlice> {
    Populated(Selected(part, s.kube.name, s.kube.namespace))
  }

  lemma LocalSplit(c: Watched, pre: seq<ET.EndpointSlice>, part: seq<ET.EndpointSlice>, post: seq<ET.EndpointSlice>, s: ST.Service)
    ensures LocalSlices(WithLocal(c, pre + part + post), s) == LocalPart(pre, s) + LocalPart(part, s) + LocalPart(post, s)
  {
    hide Selected, Populated;
    var name, ns := s.kube.name, s.kube.namespace;
    SelectedConcat(pre + part, post, name, ns);
    SelectedConcat(pre, part, name, ns);
    PopulatedConcat(Selected(pre, name, ns) + Selected(part, name, ns), Selected(post, name, ns));
    PopulatedConcat(Selected(pre, name, ns), Selected(part, name, ns));
  }

  lemma PrioritisedSame(a: seq<ET.EndpointSlice>, b: seq<ET.EndpointSlice>, priority: nat)
    requires Prioritised(a, priority) == Prioritised(b, priority)
    ensures a == b
  {
    assert |a| == |Prioritised(a, priority)| == |Prioritised(b, priority)| == |b|;
    forall i | 0 <= i < |a| ensures a[i] == b[i] {
      assert Prioritised(a, priority)[i] == Prioritised(b, priority)[i];
    }
  }

  /** The remote half has the same length whatever its priority, so the local half can be read off. */
  lemma SameSlicesSameLocals(c: Watched, c': Watched, s: ST.Service)
    requires c'.remotes == c.remotes
    ensures SlicesFor(c, s) == SlicesFor(c', s) <==> LocalSlices(c, s) == LocalSlices(c', s)
  {
    hide RemoteSlices, LocalSlices;
    var l, l' := LocalSlices(c, s), LocalSlices(c', s);
    if SlicesFor(c, s) == SlicesFor(c', s) {
      assert |l| == |l'|;
      assert Prioritised(l, 0) == SlicesFor(c, s)[..|l|];
      assert Prioritised(l', 0) == SlicesFor(c', s)[..|l|];
      PrioritisedSame(l, l', 0);
    }
  }

  lemma SameStoreSameSlices(c: Watched, c': Watched, svcs: ST.ServiceMap)
    ensures EndpointStoreOf(c, svcs) == EndpointStoreOf(c', svcs)
       <==> forall key | key in svcs :: SlicesFor(c, svcs[key]) == SlicesFor(c', svcs[key])
  {
    hide SlicesFor;
    var a, b := EndpointStoreOf(c, svcs), EndpointStoreOf(c', svcs);
    if a == b {
      forall key | key in svcs ensures SlicesFor(c, svcs[key]) == SlicesFor(c', svcs[key]) {
        assert key in a <==> SlicesFor(c, svcs[key]) != [];
        assert key in b <==> SlicesFor(c', svcs[key]) != [];
        if key in a {
          assert a[key].slices == b[key].slices;
        }
      }
    }
    if forall key | key in svcs :: SlicesFor(c, svcs[key]) == SlicesFor(c', svcs[key]) {
      assert a.Keys == b.Keys;
    }
  }

  /**
    Replacing any stretch of the local slices by any other leaves the endpoint store as it is exactly
    when both contribute the same populated slices to every stored service.
   */
  lemma LocalChangeIsSeen(c: Watched, svcs: ST.ServiceMap, pre: seq<ET.EndpointSlice>, part: seq<ET.EndpointSlice>,
                          part': seq<ET.EndpointSlice>, post: seq<ET.EndpointSlice>)
    ensures EndpointStoreOf(WithLocal(c, pre + part + post), svcs) == EndpointStoreOf(WithLocal(c, pre + part' + post), svcs)
       <==> forall key | key in svcs :: LocalPart(part, svcs[key]) == LocalPart(part', svcs[key])
  {
    hide SlicesFor, LocalSlices, LocalPart, EndpointStoreOf;
    var a, b := WithLocal(c, pre + part + post), WithLocal(c, pre + part' + post);
    SameStoreSameSlices(a, b, svcs);
    forall key | key in svcs
      ensures SlicesFor(a, svcs[key]) == SlicesFor(b, svcs[key]) <==> LocalPart(part, svcs[key]) == LocalPart(part', svcs[key])
    {
      var s := svcs[key];
      SameSlicesSameLocals(a, b, s);
      LocalSplit(c, pre, part, post, s);
      LocalSplit(c, pre, part', post, s);
      Cancel(LocalPart(pre, s), LocalPart(part, s), LocalPart(part', s), LocalPart(post, s));
    }
  }

  lemma Cancel<T>(pre: seq<T>, a: seq<T>, b: seq<T>, post: seq<T>)
    ensures pre + a + post == pre + b + post <==> a == b
  {
    if pre + a + post == pre + b + post {
      assert |a| == |b|;
      assert a == (pre + a + post)[|pre|..|pre| + |a|];
      assert b == (pre + b + post)[|pre|..|pre| + |a|];
    }
  }

  lemma OneLocalPart(e: ET.EndpointSlice, s: ST.Service)
    ensures LocalPart([e], s) == if Selects(e, s.kube.name, s.kube.namespace) && e.endpoints != [] then [e] else []
  {
    OneSelected(e, s.kube.name, s.kube.namespace);
    hide Selects, Selected;
    assert [e][..0] == [];
    assert Populated([e]) == if e.endpoints != [] then [e] else [];
  }

  /**
    Ignoring the update of a local slice to `e'` that the test rejects is sound exactly when the slice it
    replaces was not wanted either, or had no endpoints: otherwise the store still built from it is stale.
   */
  lemma SkippedUpdateIsUnseen(c: Watched, svcs: ST.ServiceMap, pre: seq<ET.EndpointSlice>, e: ET.EndpointSlice,
                              e': ET.EndpointSlice, post: seq<ET.EndpointSlice>)
    requires ST.Keyed(svcs) && !NeedToReconcileEndpointSlice(e', svcs)
    ensures EndpointStoreOf(WithLocal(c, pre + [e] + post), svcs) == EndpointStoreOf(WithLocal(c, pre + [e'] + post), svcs)
       <==> !Wanted(e, svcs) || e.endpoints == []
  {
    hide EndpointStoreOf, LocalPart, NeedToReconcileEndpointSlice, Selects;
    NeedIsWanted(e', svcs);
    LocalChangeIsSeen(c, svcs, pre, [e], [e'], post);
    forall key | key in svcs
      ensures LocalPart([e], svcs[key]) == LocalPart([e'], svcs[key])
         <==> !(Selects(e, svcs[key].kube.name, svcs[key].kube.namespace) && e.endpoints != [])
    {
      OneLocalPart(e, svcs[key]);
      OneLocalPart(e', svcs[key]);
    }
  }

  /** In particular an update that keeps namespace and labels, and a new slice, are skipped soundly. */
  lemma SkippedRelabelFreeUpdate(c: Watched, svcs: ST.ServiceMap, pre: seq<ET.EndpointSlice>, e: ET.EndpointSlice,
                                 e': ET.EndpointSlice, post: seq<ET.EndpointSlice>)
    requires ST.Keyed(svcs) && !NeedToReconcileEndpointSlice(e', svcs)
    requires e.labels == e'.labels && e.namespace == e'.namespace
    ensures EndpointStoreOf(WithLocal(c, pre + [e] + post), svcs) == EndpointStoreOf(WithLocal(c, pre + [e'] + post), svcs)
    ensures EndpointStoreOf(WithLocal(c, pre + [] + post), svcs) == EndpointStoreOf(WithLocal(c, pre + [e'] + post), svcs)
  {
    hide EndpointStoreOf, LocalPart;
    NeedIsWanted(e, svcs);
    NeedIsWanted(e', svcs);
    SkippedUpdateIsUnseen(c, svcs, pre, e, e', post);
    LocalChangeIsSeen(c, svcs, pre, [], [e'], post);
    forall key | key in svcs ensures LocalPart([], svcs[key]) == LocalPart([e'], svcs[key]) {
      OneLocalPart(e', svcs[key]);
      NoLocalPart(svcs[key]);
    }
  }

  lemma NoLocalPart(s: ST.Service)
    ensures LocalPart([], s) == []
  {
  }

  // ---------------------------------------------------------------------
  // Remote slices

  function WithRemote(c: Watched, i: nat, slices: seq<ET.EndpointSlice>): Watched
    requires i < |c.remotes|
  {
    c.(remotes := c.remotes[i := c.remotes[i].(slices := slices)])
  }

  lemma {:induction false} RemoteConcat(a: seq<Lister>, b: seq<Lister>, s: ST.Service)
    ensures RemoteSlices(a + b, s) == RemoteSlices(a, s) + RemoteSlices(b, s)
  {
    hide Selected;
    if b == [] {
      assert a + b == a;
    } else {
      assert (a + b)[..|a + b| - 1] == a + b[..|b| - 1];
      RemoteConcat(a, b[..|b| - 1], s);
    }
  }

  lemma RemoteSplit(c: Watched, i: nat, pre: seq<ET.EndpointSlice>, part: seq<ET.EndpointSlice>, post: seq<ET.EndpointSlice>,
                    s: ST.Service)
    requires i < |c.remotes|
    ensures RemoteSlices(WithRemote(c, i, pre + part + post).remotes, s)
         == (RemoteSlices(c.remotes[..i], s) + Selected(pre, s.kube.name, s.kube.namespace))
            + Selected(part, s.kube.name, s.kube.namespace)
            + (Selected(post, s.kube.name, s.kube.namespace) + RemoteSlices(c.remotes[i + 1..], s))
  {
    hide Selected;
    var name, ns := s.kube.name, s.kube.namespace;
    var l := c.remotes[i].(slices := pre + part + post);
    assert WithRemote(c, i, pre + part + post).remotes == c.remotes[..i] + [l] + c.remotes[i + 1..];
    RemoteConcat(c.remotes[..i] + [l], c.remotes[i + 1..], s);
    RemoteConcat(c.remotes[..i], [l], s);
    assert [l][..0] == [];
    assert RemoteSlices([l], s) == Selected(l.slices, name, ns);
    SelectedConcat(pre + part, post, name, ns);
    SelectedConcat(pre, part, name, ns);
  }

  lemma SameSlicesSameRemotes(c: Watched, c': Watched, s: ST.Service)
    requires c'.local == c.local
    ensures SlicesFor(c, s) == SlicesFor(c', s)
       <==> !s.config.enableRemoteEndpoints || RemoteSlices(c.remotes, s) == RemoteSlices(c'.remotes, s)
  {
    hide RemoteSlices, Selected, Populated, Prioritised;
    if s.config.enableRemoteEndpoints && SlicesFor(c, s) == SlicesFor(c', s) {
      var priority := if RemotesFallBack(c, s) then 1 else 0;
      var r, r' := Prioritised(RemoteSlices(c.remotes, s), priority), Prioritised(RemoteSlices(c'.remotes, s), priority);
      var l := Prioritised(LocalSlices(c, s), 0);
      assert r == (l + r)[|l|..] && r' == (l + r')[|l|..];
      PrioritisedSame(RemoteSlices(c.remotes, s), RemoteSlices(c'.remotes, s), priority);
    }
  }

  /** What the slices `part` of a remote cluster contribute to a service. */
  function RemotePart(part: seq<ET.EndpointSlice>, s: ST.Service): seq<ET.EndpointSlice> {
    Selected(part, s.kube.name, s.kube.namespace)
  }

  /**
    Replacing any stretch of a remote cluster's slices by any other leaves the endpoint store as it is
    exactly when both contribute the same slices to every stored service that takes remote endpoints.
   */
  lemma RemoteChangeIsSeen(c: Watched, svcs: ST.ServiceMap, i: nat, pre: seq<ET.EndpointSlice>, part: seq<ET.EndpointSlice>,
                           part': seq<ET.EndpointSlice>, post: seq<ET.EndpointSlice>)
    requires i < |c.remotes|
    ensures EndpointStoreOf(WithRemote(c, i, pre + part + post), svcs) == EndpointStoreOf(WithRemote(c, i, pre + part' + post), svcs)
       <==> forall key | key in svcs && svcs[key].config.enableRemoteEndpoints ::
              RemotePart(part, svcs[key]) == RemotePart(part', svcs[key])
  {
    hide EndpointStoreOf, SlicesFor, RemotePart;
    var a, b := WithRemote(c, i, pre + part + post), WithRemote(c, i, pre + part' + post);
    SameStoreSameSlices(a, b, svcs);
    forall key | key in svcs
      ensures SlicesFor(a, svcs[key]) == SlicesFor(b, svcs[key])
         <==> !svcs[key].config.enableRemoteEndpoints || RemotePart(part, svcs[key]) == RemotePart(part', svcs[key])
    {
      RemoteChangeOfService(c, svcs[key], i, pre, part, part', post);
    }
  }

  lemma RemoteChangeOfService(c: Watched, s: ST.Service, i: nat, pre: seq<ET.EndpointSlice>, part: seq<ET.EndpointSlice>,
                              part': seq<ET.EndpointSlice>, post: seq<ET.EndpointSlice>)
    requires i < |c.remotes|
    ensures SlicesFor(WithRemote(c, i, pre + part + post), s) == SlicesFor(WithRemote(c, i, pre + part' + post), s)
       <==> !s.config.enableRemoteEndpoints || RemotePart(part, s) == RemotePart(part', s)
  {
    hide SlicesFor, Selected, RemoteSlices;
    var name, ns := s.kube.name, s.kube.namespace;
    SameSlicesSameRemotes(WithRemote(c, i, pre + part + post), WithRemote(c, i, pre + part' + post), s);
    RemoteSplit(c, i, pre, part, post, s);
    RemoteSplit(c, i, pre, part', post, s);
    Cancel(RemoteSlices(c.remotes[..i], s) + Selected(pre, name, ns), RemotePart(part, s), RemotePart(part', s),
           Selected(post, name, ns) + RemoteSlices(c.remotes[i + 1..], s));
  }

  lemma OneSelected(e: ET.EndpointSlice, name: string, ns: string)
    ensures Selected([e], name, ns) == if Selects(e, name, ns) then [e] else []
  {
    hide Selects;
    assert [e][..0] == [];
  }

  /** The slice reconcileRemoteEndpointSlice decides on: the first remote cluster that knows the name. */
  function FirstFound(remotes: seq<Lister>, name: string, ns: string): Option<ET.EndpointSlice> {
    if remotes == [] then None
    else if Lookup(remotes[0], name, ns).Ok? then Some(Lookup(remotes[0], name, ns).value)
    else FirstFound(remotes[1..], name, ns)
  }

  /** A cluster that can be read has a slice of that name. */
  ghost predicate Has(l: Lister, name: string, ns: string) {
    (name, ns) !in l.unreadable && exists e | e in l.slices :: e.name == name && e.namespace == ns
  }

  /** The slice found comes from the first cluster that has one; nothing is found only if no cluster has. */
  lemma {:induction false} FirstFoundIs(remotes: seq<Lister>, name: string, ns: string)
    ensures match FirstFound(remotes, name, ns)
            case None => forall l | l in remotes :: !Has(l, name, ns)
            case Some(e) => exists i | 0 <= i < |remotes| ::
                              && Has(remotes[i], name, ns) && e in remotes[i].slices && e.name == name && e.namespace == ns
                              && forall j | 0 <= j < i :: !Has(remotes[j], name, ns)
  {
    if remotes != [] {
      NamedFinds(remotes[0].slices, name, ns);
      hide Named;
      if Lookup(remotes[0], name, ns).Err? {
        assert !Has(remotes[0], name, ns);
        FirstFoundIs(remotes[1..], name, ns);
        assert remotes == [remotes[0]] + remotes[1..];
        match FirstFound(remotes[1..], name, ns)
        case None =>
        case Some(e) =>
          var i :| 0 <= i < |remotes[1..]| && Has(remotes[1..][i], name, ns) && e in remotes[1..][i].slices
                   && e.name == name && e.namespace == ns && forall j | 0 <= j < i :: !Has(remotes[1..][j], name, ns);
          assert remotes[i + 1] == remotes[1..][i];
          forall j | 0 <= j < i + 1 ensures !Has(remotes[j], name, ns) {
            assert j > 0 ==> remotes[j] == remotes[1..][j - 1];
          }
      }
    }
  }
}
