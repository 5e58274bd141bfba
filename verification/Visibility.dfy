/** Which changes of slices clients can see: exactly when skipping a slice event leaves something stale published. */
module Visibility {
  import opened Collections
  import opened Names
  import opened Resources
  import opened Controller
  import opened Skipping
  import opened Published
  import ST = ServiceTranslation
  import ET = EndpointTranslation

  /** The same endpoints on every port. */
  ghost predicate SameOffer(x: seq<ET.EndpointSlice>, y: seq<ET.EndpointSlice>) {
    forall port :: Offered(x, port) == Offered(y, port)
  }

  lemma CancelAround<T>(pre: seq<T>, a: seq<T>, b: seq<T>, post: seq<T>, x: seq<T>, y: seq<T>)
    requires |x| == |y|
    ensures pre + a + post + x == pre + b + post + y <==> a == b && x == y
  {
    if pre + a + post + x == pre + b + post + y {
      var l, r := pre + a + post, pre + b + post;
      assert |l| == |r|;
      assert l == (l + x)[..|l|] && r == (r + y)[..|l|];
      assert x == (l + x)[|l|..] && y == (r + y)[|l|..];
      Cancel(pre, a, b, post);
    }
  }

  lemma AtSame(ls: seq<LocalityEndpoints>, p: nat, q: nat)
    ensures At(ls, p) == At(ls, q) <==> p == q || ls == []
  {
    if ls != [] {
      assert At(ls, p)[0].priority == p && At(ls, q)[0].priority == q;
    }
  }

  lemma AtInjective(x: seq<ET.EndpointSlice>, y: seq<ET.EndpointSlice>, port: int, priority: nat)
    ensures At(Offered(x, port), priority) == At(Offered(y, port), priority) <==> Offered(x, port) == Offered(y, port)
  {
    hide Offered;
    var a, b := Offered(x, port), Offered(y, port);
    AtZero(x, port);
    AtZero(y, port);
    assert At(At(a, priority), 0) == At(a, 0) && At(At(b, priority), 0) == At(b, 0);
  }

  // ---------------------------------------------------------------------
  // Local slices

  /** Remote endpoints that are served change their priority. */
  ghost predicate FallbackFlips(a: Watched, b: Watched, s: ST.Service) {
    RemotesFallBack(a, s) != RemotesFallBack(b, s) && exists port :: HasPort(RemoteSlices(a.remotes, s), port)
  }

  lemma LocalChangeOnPort(c: Watched, s: ST.Service, pre: seq<ET.EndpointSlice>, part: seq<ET.EndpointSlice>,
                          part': seq<ET.EndpointSlice>, post: seq<ET.EndpointSlice>, port: int)
    ensures var a, b := WithLocal(c, pre + part + post), WithLocal(c, pre + part' + post);
            SameOnPort(a, b, s, port) <==>
              && Offered(LocalPart(part, s), port) == Offered(LocalPart(part', s), port)
              && (RemotesFallBack(a, s) == RemotesFallBack(b, s) || !HasPort(RemoteSlices(c.remotes, s), port))
  {
    hide Localities, SlicesFor, Offered, LocalPart, LocalSlices, RemoteSlices, At, HasPort;
    var a, b := WithLocal(c, pre + part + post), WithLocal(c, pre + part' + post);
    ServiceLocalities(a, s, port);
    ServiceLocalities(b, s, port);
    LocalOffer(c, s, pre, part, post, port);
    LocalOffer(c, s, pre, part', post, port);
    var remote := Offered(RemoteSlices(c.remotes, s), port);
    var p, q := if RemotesFallBack(a, s) then 1 else 0, if RemotesFallBack(b, s) then 1 else 0;
    AtSame(remote, p, q);
    AtLength(remote, p);
    AtLength(remote, q);
    OfferedEmpty(RemoteSlices(c.remotes, s), port);
    var x, y := if s.config.enableRemoteEndpoints then At(remote, p) else [], if s.config.enableRemoteEndpoints then At(remote, q) else [];
    CancelAround(Offered(LocalPart(pre, s), port), Offered(LocalPart(part, s), port), Offered(LocalPart(part', s), port),
                 Offered(LocalPart(post, s), port), x, y);
  }

  lemma LocalOffer(c: Watched, s: ST.Service, pre: seq<ET.EndpointSlice>, part: seq<ET.EndpointSlice>,
                   post: seq<ET.EndpointSlice>, port: int)
    ensures Offered(LocalSlices(WithLocal(c, pre + part + post), s), port)
         == Offered(LocalPart(pre, s), port) + Offered(LocalPart(part, s), port) + Offered(LocalPart(post, s), port)
  {
    hide Offered, LocalPart, LocalSlices;
    LocalSplit(c, pre, part, post, s);
    OfferedConcat(LocalPart(pre, s) + LocalPart(part, s), LocalPart(post, s), port);
    OfferedConcat(LocalPart(pre, s), LocalPart(part, s), port);
  }

  /** The two stretches offer a service the same, and do not move its remote endpoints to another priority. */
  ghost predicate UnseenBy(c: Watched, s: ST.Service, pre: seq<ET.EndpointSlice>, part: seq<ET.EndpointSlice>,
                           part': seq<ET.EndpointSlice>, post: seq<ET.EndpointSlice>) {
    && SameOffer(LocalPart(part, s), LocalPart(part', s))
    && !FallbackFlips(WithLocal(c, pre + part + post), WithLocal(c, pre + part' + post), s)
  }

  lemma LocalChangeOfService(c: Watched, s: ST.Service, pre: seq<ET.EndpointSlice>, part: seq<ET.EndpointSlice>,
                             part': seq<ET.EndpointSlice>, post: seq<ET.EndpointSlice>)
    ensures (forall port :: SameOnPort(WithLocal(c, pre + part + post), WithLocal(c, pre + part' + post), s, port))
       <==> UnseenBy(c, s, pre, part, part', post)
  {
    hide SameOnPort, Offered, LocalPart, RemotesFallBack, RemoteSlices, HasPort;
    forall port
      ensures var a, b := WithLocal(c, pre + part + post), WithLocal(c, pre + part' + post);
              SameOnPort(a, b, s, port) <==>
                && Offered(LocalPart(part, s), port) == Offered(LocalPart(part', s), port)
                && (RemotesFallBack(a, s) == RemotesFallBack(b, s) || !HasPort(RemoteSlices(c.remotes, s), port))
    {
      LocalChangeOnPort(c, s, pre, part, part', post, port);
    }
  }

  /**
    Replacing any stretch of the local slices by any other (an update, a creation, a deletion) leaves the
    published endpoints as they are exactly when no stored service sees a difference.
   */
  lemma LocalChangeIsServed(c: Watched, svcs: ST.ServiceMap, pre: seq<ET.EndpointSlice>, part: seq<ET.EndpointSlice>,
                            part': seq<ET.EndpointSlice>, post: seq<ET.EndpointSlice>, authority: string)
    requires ST.WellNamed(svcs)
    ensures PublishedEndpoints(WithLocal(c, pre + part + post), svcs, authority)
              == PublishedEndpoints(WithLocal(c, pre + part' + post), svcs, authority)
       <==> forall key | key in svcs :: UnseenBy(c, svcs[key], pre, part, part', post)
  {
    hide PublishedEndpoints, UnseenBy, SameOnPort, ST.WellNamed;
    var a, b := WithLocal(c, pre + part + post), WithLocal(c, pre + part' + post);
    SamePublished(a, b, svcs, authority);
    forall key | key in svcs
      ensures (forall port :: SameOnPort(a, b, svcs[key], port)) <==> UnseenBy(c, svcs[key], pre, part, part', post)
    {
      LocalChangeOfService(c, svcs[key], pre, part, part', post);
    }
  }

  /**
    Losing slice `e` shows: it has endpoints of the service, and either ports to serve them on, or it was
    the last local slice that kept served remote endpoints in second place.
   */
  ghost predicate WithdrawsFrom(c: Watched, s: ST.Service, pre: seq<ET.EndpointSlice>, e: ET.EndpointSlice, post: seq<ET.EndpointSlice>) {
    && Populates(e, s)
    && (|| e.ports != []
        || (&& s.config.enableRemoteEndpoints && s.config.prioritizeLocalEndpoints
            && (forall x | x in pre + post :: !Populates(x, s))
            && exists port :: RemoteOn(c, s, port)))
  }

  lemma NothingLocal(c: Watched, s: ST.Service, part: seq<ET.EndpointSlice>)
    ensures LocalPart(part, s) == [] <==> forall x | x in part :: !Populates(x, s)
  {
    OffersAre(WithLocal(c, part), s, 0);
    hide Populates, Selected, Populated;
    assert LocalSlices(WithLocal(c, part), s) == LocalPart(part, s);
  }

  lemma OneOffer(e: ET.EndpointSlice)
    ensures SameOffer([e], []) <==> e.ports == [] || e.endpoints == []
  {
    hide Offered;
    forall port ensures Offered([e], port) != [] <==> port in e.ports && e.endpoints != [] {
      OfferedEmpty([e], port);
      assert e in [e];
    }
    forall port ensures Offered([], port) == [] {
      OfferedEmpty([], port);
    }
    if e.ports != [] && e.endpoints != [] {
      assert e.ports[0] in e.ports;
      assert Offered([e], e.ports[0]) != Offered([], e.ports[0]);
    }
  }

  /** The same in terms of what the stretches contribute. */
  ghost predicate WithdrawsPart(c: Watched, s: ST.Service, pre: seq<ET.EndpointSlice>, e: ET.EndpointSlice, post: seq<ET.EndpointSlice>) {
    && Selects(e, s.kube.name, s.kube.namespace) && e.endpoints != []
    && (|| e.ports != []
        || (&& s.config.enableRemoteEndpoints && s.config.prioritizeLocalEndpoints
            && LocalPart(pre, s) == [] && LocalPart(post, s) == []
            && exists port :: HasPort(RemoteSlices(c.remotes, s), port)))
  }

  lemma PopulatesIs(e: ET.EndpointSlice, s: ST.Service)
    ensures Populates(e, s) <==> Selects(e, s.kube.name, s.kube.namespace) && e.endpoints != []
  {
  }

  lemma WithdrawsIs(c: Watched, s: ST.Service, pre: seq<ET.EndpointSlice>, e: ET.EndpointSlice, post: seq<ET.EndpointSlice>)
    ensures WithdrawsPart(c, s, pre, e, post) <==> WithdrawsFrom(c, s, pre, e, post)
  {
    hide LocalPart, Selects, RemoteSlices, HasPort, Populates, RemoteOn;
    PopulatesIs(e, s);
    NothingLocal(c, s, pre);
    NothingLocal(c, s, post);
    forall port ensures HasPort(RemoteSlices(c.remotes, s), port) <==> RemoteOn(c, s, port) {
      OffersAre(c, s, port);
    }
  }

  lemma SkippedOfService(c: Watched, s: ST.Service, pre: seq<ET.EndpointSlice>, e: ET.EndpointSlice, e': ET.EndpointSlice,
                         post: seq<ET.EndpointSlice>)
    requires !Selects(e', s.kube.name, s.kube.namespace)
    ensures UnseenBy(c, s, pre, [e], [e'], post) <==> !WithdrawsPart(c, s, pre, e, post)
  {
    OneLocalPart(e, s);
    OneLocalPart(e', s);
    OneOffer(e);
    LocalSplit(c, pre, [e], post, s);
    LocalSplit(c, pre, [e'], post, s);
    hide LocalSlices, LocalPart, Selects, RemoteSlices, HasPort, Offered;
    var a, b := WithLocal(c, pre + [e] + post), WithLocal(c, pre + [e'] + post);
    assert SameOffer(LocalPart([e'], s), LocalPart([e'], s));
    if LocalPart([e], s) == LocalPart([e'], s) {
      assert LocalSlices(a, s) == LocalSlices(b, s);
    } else {
      assert LocalSlices(a, s) != [];
      assert LocalSlices(b, s) == [] <==> LocalPart(pre, s) == [] && LocalPart(post, s) == [];
    }
  }

  /**
    Ignoring the update of a local slice to `e'` that the test rejects leaves the published endpoints
    right if and only if losing the old version shows to no stored service.
   */
  lemma SkippedUpdateIsServed(c: Watched, svcs: ST.ServiceMap, pre: seq<ET.EndpointSlice>, e: ET.EndpointSlice,
                              e': ET.EndpointSlice, post: seq<ET.EndpointSlice>, authority: string)
    requires ST.WellNamed(svcs) && !NeedToReconcileEndpointSlice(e', svcs)
    ensures PublishedEndpoints(WithLocal(c, pre + [e] + post), svcs, authority)
              == PublishedEndpoints(WithLocal(c, pre + [e'] + post), svcs, authority)
       <==> forall key | key in svcs :: !WithdrawsFrom(c, svcs[key], pre, e, post)
  {
    hide PublishedEndpoints, UnseenBy, WithdrawsFrom, WithdrawsPart, Selects;
    NeedIsWanted(e', svcs);
    LocalChangeIsServed(c, svcs, pre, [e], [e'], post, authority);
    forall key | key in svcs
      ensures UnseenBy(c, svcs[key], pre, [e], [e'], post) <==> !WithdrawsFrom(c, svcs[key], pre, e, post)
    {
      SkippedOfService(c, svcs[key], pre, e, e', post);
      WithdrawsIs(c, svcs[key], pre, e, post);
    }
  }

  /** One slice, relabelled to a service that is not stored: its endpoint stays published on port 80. */
  lemma RelabelledSliceStaysPublished(authority: string, ep: ET.Endpoint, name: string, other: string, ns: string)
    returns (before: Watched, after: Watched, e: ET.EndpointSlice, e': ET.EndpointSlice, svcs: ST.ServiceMap)
    requires NameOk(name, ns) && other != name
    ensures before.Lists() && WellNamed(before) && ST.WellNamed(svcs) && svcs == ServiceStoreOf(before)
    ensures e'.labels == map[SERVICE_NAME_LABEL := other] && e' == e.(labels := e'.labels)
    ensures before.local.slices == [e] && after == WithLocal(before, [e']) && !NeedToReconcileEndpointSlice(e', svcs)
    ensures var x := LoadAssignmentNameFor(name, ns, "", 80);
            x in PublishedEndpoints(before, svcs, authority) && x !in PublishedEndpoints(after, svcs, authority)
  {
    e := ET.EndpointSlice("slice", ns, map[SERVICE_NAME_LABEL := name], [80], [ep]);
    e' := e.(labels := map[SERVICE_NAME_LABEL := other]);
    var x := XdsService(name, ns, ST.ServiceConfig(false, RoundRobin, None, [], false, None));
    before := Watched(Ok([]), Ok([x]), map[(name, ns) := [80]], Lister([e], {}, {}), []);
    after := WithLocal(before, [e']);
    OneService(before, x, [80]);
    StoreWellNamed(before);
    svcs := ServiceStoreOf(before);
    var s := svcs[Key(name, ns)];
    if Key(other, ns) == Key(name, ns) {
      KeyInjective(other, ns, name, ns);
    }
    assert Selects(e, name, ns) && !Selects(e', name, ns);
    OneLocalPart(e, s);
    OneLocalPart(e', s);
    hide ServiceStoreOf, WellNamed, Key, ST.WellNamed, LoadAssignmentNameFor, Selects, Selected, Populated, PublishedEndpoints;
    ServedLocally(before, s, 80);
    ServedLocally(after, s, 80);
    assert e in [e] && 80 in e.ports;
    PublishedUnder(before, svcs, authority, "", Key(name, ns), 80);
    PublishedUnder(after, svcs, authority, "", Key(name, ns), 80);
  }

  lemma ServedLocally(c: Watched, s: ST.Service, port: int)
    requires !s.config.enableRemoteEndpoints
    ensures Localities(SlicesFor(c, s), port) != [] <==> HasPort(LocalSlices(c, s), port)
  {
    hide Localities, SlicesFor, LocalSlices, Offered, HasPort;
    ServiceLocalities(c, s, port);
    OfferedEmpty(LocalSlices(c, s), port);
  }

  // ---------------------------------------------------------------------
  // Remote slices

  lemma RemoteChangeOnPort(c: Watched, s: ST.Service, i: nat, pre: seq<ET.EndpointSlice>, part: seq<ET.EndpointSlice>,
                           part': seq<ET.EndpointSlice>, post: seq<ET.EndpointSlice>, port: int)
    requires i < |c.remotes|
    ensures SameOnPort(WithRemote(c, i, pre + part + post), WithRemote(c, i, pre + part' + post), s, port)
       <==> !s.config.enableRemoteEndpoints || Offered(RemotePart(part, s), port) == Offered(RemotePart(part', s), port)
  {
    var a, b := WithRemote(c, i, pre + part + post), WithRemote(c, i, pre + part' + post);
    assert LocalSlices(a, s) == LocalSlices(b, s) && RemotesFallBack(a, s) == RemotesFallBack(b, s);
    hide Localities, SlicesFor, Offered, LocalSlices, RemoteSlices, Selected, At, RemotesFallBack;
    ServiceLocalities(a, s, port);
    ServiceLocalities(b, s, port);
    RemoteOffer(c, s, i, pre, part, post, port);
    RemoteOffer(c, s, i, pre, part', post, port);
    var p := if RemotesFallBack(a, s) then 1 else 0;
    AtInjective(RemoteSlices(a.remotes, s), RemoteSlices(b.remotes, s), port, p);
    var before := RemoteSlices(c.remotes[..i], s) + RemotePart(pre, s);
    var behind := RemotePart(post, s) + RemoteSlices(c.remotes[i + 1..], s);
    Cancel(Offered(before, port), Offered(RemotePart(part, s), port), Offered(RemotePart(part', s), port), Offered(behind, port));
    var l := Offered(LocalSlices(a, s), port);
    var x, y := At(Offered(RemoteSlices(a.remotes, s), port), p), At(Offered(RemoteSlices(b.remotes, s), port), p);
    assert x == (l + x)[|l|..] && y == (l + y)[|l|..];
  }

  lemma RemoteOffer(c: Watched, s: ST.Service, i: nat, pre: seq<ET.EndpointSlice>, part: seq<ET.EndpointSlice>,
                    post: seq<ET.EndpointSlice>, port: int)
    requires i < |c.remotes|
    ensures Offered(RemoteSlices(WithRemote(c, i, pre + part + post).remotes, s), port)
         == Offered(RemoteSlices(c.remotes[..i], s) + RemotePart(pre, s), port)
            + Offered(RemotePart(part, s), port)
            + Offered(RemotePart(post, s) + RemoteSlices(c.remotes[i + 1..], s), port)
  {
    hide Offered, RemoteSlices, Selected;
    RemoteSplit(c, i, pre, part, post, s);
    var before := RemoteSlices(c.remotes[..i], s) + RemotePart(pre, s);
    var behind := RemotePart(post, s) + RemoteSlices(c.remotes[i + 1..], s);
    OfferedConcat(before + RemotePart(part, s), behind, port);
    OfferedConcat(before, RemotePart(part, s), port);
  }

  ghost predicate UnseenRemotelyBy(s: ST.Service, part: seq<ET.EndpointSlice>, part': seq<ET.EndpointSlice>) {
    s.config.enableRemoteEndpoints ==> SameOffer(RemotePart(part, s), RemotePart(part', s))
  }

  /**
    Replacing any stretch of a remote cluster's slices by any other leaves the published endpoints as they
    are exactly when both offer the same to every stored service that takes remote endpoints.
   */
  lemma RemoteChangeIsServed(c: Watched, svcs: ST.ServiceMap, i: nat, pre: seq<ET.EndpointSlice>, part: seq<ET.EndpointSlice>,
                             part': seq<ET.EndpointSlice>, post: seq<ET.EndpointSlice>, authority: string)
    requires i < |c.remotes| && ST.WellNamed(svcs)
    ensures PublishedEndpoints(WithRemote(c, i, pre + part + post), svcs, authority)
              == PublishedEndpoints(WithRemote(c, i, pre + part' + post), svcs, authority)
       <==> forall key | key in svcs :: UnseenRemotelyBy(svcs[key], part, part')
  {
    hide PublishedEndpoints, SameOnPort, ST.WellNamed, RemotePart, Offered;
    var a, b := WithRemote(c, i, pre + part + post), WithRemote(c, i, pre + part' + post);
    SamePublished(a, b, svcs, authority);
    forall key, port: int | key in svcs
      ensures SameOnPort(a, b, svcs[key], port)
         <==> || !svcs[key].config.enableRemoteEndpoints
              || Offered(RemotePart(part, svcs[key]), port) == Offered(RemotePart(part', svcs[key]), port)
    {
      RemoteChangeOnPort(c, svcs[key], i, pre, part, part', post, port);
    }
    if SameLocalities(a, b, svcs) {
      forall key | key in svcs ensures UnseenRemotelyBy(svcs[key], part, part') {
        forall port | svcs[key].config.enableRemoteEndpoints
          ensures Offered(RemotePart(part, svcs[key]), port) == Offered(RemotePart(part', svcs[key]), port)
        {
          assert SameOnPort(a, b, svcs[key], port);
        }
      }
    }
    if forall key | key in svcs :: UnseenRemotelyBy(svcs[key], part, part') {
      forall key, port: int | key in svcs ensures SameOnPort(a, b, svcs[key], port) {
        assert UnseenRemotelyBy(svcs[key], part, part');
      }
    }
  }

  /** The service takes remote endpoints and the slice offers it some. */
  ghost predicate OffersRemotely(e: ET.EndpointSlice, s: ST.Service) {
    s.config.enableRemoteEndpoints && Populates(e, s) && e.ports != []
  }

  /**
    A remote slice that is deleted, or updated to one no stored service selects: the published endpoints
    stay the same if and only if it offered no stored service anything.
   */
  lemma RemoteWithdrawalIsServed(c: Watched, svcs: ST.ServiceMap, i: nat, pre: seq<ET.EndpointSlice>, e: ET.EndpointSlice,
                                 part': seq<ET.EndpointSlice>, post: seq<ET.EndpointSlice>, authority: string)
    requires i < |c.remotes| && ST.WellNamed(svcs) && forall key | key in svcs :: RemotePart(part', svcs[key]) == []
    ensures PublishedEndpoints(WithRemote(c, i, pre + [e] + post), svcs, authority)
              == PublishedEndpoints(WithRemote(c, i, pre + part' + post), svcs, authority)
       <==> forall key | key in svcs :: !OffersRemotely(e, svcs[key])
  {
    hide PublishedEndpoints, ST.WellNamed, Selected, Offered, Selects, SameOffer, Populates;
    RemoteChangeIsServed(c, svcs, i, pre, [e], part', post, authority);
    OneOffer(e);
    assert SameOffer([], []) by {
      NothingOffered();
    }
    forall key | key in svcs ensures UnseenRemotelyBy(svcs[key], [e], part') <==> !OffersRemotely(e, svcs[key]) {
      OneSelected(e, svcs[key].kube.name, svcs[key].kube.namespace);
      PopulatesIs(e, svcs[key]);
    }
  }

  lemma NothingOffered()
    ensures SameOffer([], [])
  {
  }

  /** A slice that nobody selects, called like `e`. */
  function Mask(e: ET.EndpointSlice): ET.EndpointSlice {
    ET.EndpointSlice(e.name, e.namespace, map[], [], [])
  }

  lemma MaskDecides(e: ET.EndpointSlice, svcs: ST.ServiceMap, remotes: seq<Lister>)
    requires remotes == [Lister([Mask(e)], {}, {})] || (|remotes| == 2 && remotes[0] == Lister([Mask(e)], {}, {}))
          || remotes == [Lister([], {}, {}), Lister([Mask(e)], {}, {})]
    ensures FirstFound(remotes, e.name, e.namespace) == Some(Mask(e)) && !NeedToReconcileEndpointSlice(Mask(e), svcs)
  {
    var mask := Mask(e);
    assert [mask][0] == mask;
    assert Named([mask], e.name, e.namespace) == Some(mask);
    if remotes[0] == Lister([], {}, {}) {
      assert Named([], e.name, e.namespace) == None;
      assert remotes[1..] == [Lister([mask], {}, {})];
    }
  }

  /**
    A slice of the same name in an earlier remote cluster masks an update: the event is skipped although
    what is published should change.
   */
  lemma MaskedUpdateIsMissed(c: Watched, svcs: ST.ServiceMap, e: ET.EndpointSlice, e': ET.EndpointSlice, key: string, authority: string)
    returns (before: Watched, after: Watched)
    requires ST.WellNamed(svcs) && e.name == e'.name && e.namespace == e'.namespace
    requires key in svcs && !UnseenRemotelyBy(svcs[key], [e], [e'])
    ensures before == c.(remotes := [Lister([Mask(e)], {}, {}), Lister([e], {}, {})])
    ensures after == c.(remotes := [Lister([Mask(e)], {}, {}), Lister([e'], {}, {})])
    ensures FirstFound(after.remotes, e'.name, e'.namespace) == Some(Mask(e)) && !NeedToReconcileEndpointSlice(Mask(e), svcs)
    ensures PublishedEndpoints(before, svcs, authority) != PublishedEndpoints(after, svcs, authority)
  {
    hide PublishedEndpoints, UnseenRemotelyBy, ST.WellNamed, FirstFound, NeedToReconcileEndpointSlice;
    before := c.(remotes := [Lister([Mask(e)], {}, {}), Lister([e], {}, {})]);
    after := c.(remotes := [Lister([Mask(e)], {}, {}), Lister([e'], {}, {})]);
    RemoteChangeIsServed(before, svcs, 1, [], [e], [e'], [], authority);
    assert [] + [e] + [] == [e] && [] + [e'] + [] == [e'];
    assert WithRemote(before, 1, [e]).remotes == before.remotes && WithRemote(before, 1, [e']).remotes == after.remotes;
    MaskDecides(e, svcs, after.remotes);
  }

  /**
    A deletion is masked by a slice of the same name in any other remote cluster, earlier or later: the
    event is skipped and the deleted endpoints stay published.
   */
  lemma MaskedDeletionIsMissed(c: Watched, svcs: ST.ServiceMap, e: ET.EndpointSlice, key: string, earlier: bool, authority: string)
    returns (before: Watched, after: Watched)
    requires ST.WellNamed(svcs) && key in svcs && OffersRemotely(e, svcs[key])
    ensures var mask := Lister([Mask(e)], {}, {});
            && before == c.(remotes := if earlier then [mask, Lister([e], {}, {})] else [Lister([e], {}, {}), mask])
            && after == c.(remotes := if earlier then [mask, Lister([], {}, {})] else [Lister([], {}, {}), mask])
    ensures FirstFound(after.remotes, e.name, e.namespace) == Some(Mask(e)) && !NeedToReconcileEndpointSlice(Mask(e), svcs)
    ensures PublishedEndpoints(before, svcs, authority) != PublishedEndpoints(after, svcs, authority)
  {
    hide PublishedEndpoints, OffersRemotely, ST.WellNamed, FirstFound, NeedToReconcileEndpointSlice;
    var mask := Lister([Mask(e)], {}, {});
    before := c.(remotes := if earlier then [mask, Lister([e], {}, {})] else [Lister([e], {}, {}), mask]);
    after := c.(remotes := if earlier then [mask, Lister([], {}, {})] else [Lister([], {}, {}), mask]);
    var i := if earlier then 1 else 0;
    RemoteWithdrawalIsServed(before, svcs, i, [], e, [], [], authority);
    assert [] + [e] + [] == [e];
    var none: seq<ET.EndpointSlice> := [];
    assert none + none + none == none;
    assert WithRemote(before, i, [e]).remotes == before.remotes && WithRemote(before, i, []).remotes == after.remotes;
    MaskDecides(e, svcs, after.remotes);
  }
}
