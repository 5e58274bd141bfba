/** controller/controller.go: reconciling, from the watched clusters to what every node is served. */
module Reconciling {
  import opened Collections
  import opened Names
  import opened Resources
  import opened Sections
  import opened Payloads
  import opened Agreement
  import opened Registration
  import opened SnapshotterObject
  import opened Skipping
  import opened Published
  import opened Visibility
  import C = Controller
  import ST = ServiceTranslation
  import ET = EndpointTranslation

  ghost predicate Readable(c: C.Watched, svcs: ST.ServiceMap) {
    forall key | key in svcs ::
      var q := (svcs[key].kube.name, svcs[key].kube.namespace);
      && q !in c.local.failing
      && (svcs[key].config.enableRemoteEndpoints ==> forall l | l in c.remotes :: q !in l.failing)
  }

  /** The pure translation of the watched clusters, half by half. */
  ghost function Translation(c: C.Watched, authority: string, k: Kind): Items
    requires c.Lists() && C.WellNamed(c)
  {
    var svcs := C.ServiceStoreOf(c);
    C.StoreWellNamed(c);
    match k
    case Services => ServiceItems(svcs, authority)
    case Endpoints => C.EndpointStoreWellNamed(c, svcs); EndpointItems(C.EndpointStoreOf(c, svcs), authority)
  }

  ghost predicate Reflects(st: State, c: C.Watched, authority: string)
    requires c.Lists() && C.WellNamed(c)
  {
    forall k: Kind :: st.Full(k) == Translation(c, authority, k)
  }

  /** Every node is served the translation of the watched clusters, restricted to the names it asked for. */
  ghost predicate ServesTranslation(st: State, c: C.Watched, authority: string)
    requires c.Lists() && C.WellNamed(c)
  {
    forall k: Kind, n, t | n in st.nodes && t in TypesOf(k) ::
      st.Served(k, n, t) == Restriction(st.localhost, Translation(c, authority, k), t, Requested(st.nodes[n].Half(k), t))
  }

  ghost predicate EndpointDeltasAgree(st: State) {
    var full := ItemsOf(st.Full(Endpoints), EndpointType);
    EndpointType in st.deltas && st.deltas[EndpointType] == map x | x in full && !IsXdstp(x) :: full[x]
  }

  /** The delta caches agree with the full snapshots of both halves. */
  ghost predicate DeltasAgree(st: State) {
    && ClusterType in st.deltas && VirtualHostType in st.deltas && RouteType in st.deltas
    && ServiceDeltasAgree(st.Full(Services), st.deltas[ClusterType], st.deltas[VirtualHostType], st.deltas[RouteType])
    && EndpointDeltasAgree(st)
  }

  lemma SyncedDeltasAgree(st: State, c: C.Watched, authority: string, before: map<TypeUrl, Index>)
    requires c.Lists() && C.WellNamed(c) && Reflects(st, c, authority)
    requires ST.WellNamed(C.ServiceStoreOf(c)) && ET.WellNamed(C.EndpointStoreOf(c, C.ServiceStoreOf(c)))
    requires st.deltas == (before + ServiceDeltas(C.ServiceStoreOf(c)))
                            [EndpointType := DeltaEndpoints(C.EndpointStoreOf(c, C.ServiceStoreOf(c)))]
    ensures DeltasAgree(st)
  {
    var svcs := C.ServiceStoreOf(c);
    var eps := C.EndpointStoreOf(c, svcs);
    hide C.ServiceStoreOf, C.EndpointStoreOf, C.WellNamed, ST.WellNamed, ET.WellNamed, ServiceItems, EndpointItems,
         DeltaItems, DeltaEndpoints, ServiceDeltasAgree, IsXdstp, ServiceDeltas;
    SyncedDeltas(svcs, before, DeltaEndpoints(eps));
    assert st.Full(Services) == Translation(c, authority, Services) == ServiceItems(svcs, authority);
    assert st.Full(Endpoints) == Translation(c, authority, Endpoints) == EndpointItems(eps, authority);
    ServiceItemsAgree(svcs, authority);
    EndpointItemsAgree(eps, authority);
  }

  lemma SyncedDeltas(svcs: ST.ServiceMap, before: map<TypeUrl, Index>, eps: Index)
    requires ST.WellNamed(svcs)
    ensures var after := (before + ServiceDeltas(svcs))[EndpointType := eps];
            && ClusterType in after && after[ClusterType] == DeltaItems(ClusterType, svcs)
            && VirtualHostType in after && after[VirtualHostType] == DeltaItems(VirtualHostType, svcs)
            && RouteType in after && after[RouteType] == map["kube_dynamic" := ST.KUBE_DYNAMIC]
            && EndpointType in after && after[EndpointType] == eps
  {
    hide DeltaItems, ST.WellNamed;
  }

  lemma SettledServes(st: State, c: C.Watched, authority: string)
    requires Settled(st) && c.Lists() && C.WellNamed(c) && Reflects(st, c, authority)
    ensures ServesTranslation(st, c, authority)
  {
    hide HalfInv, Restriction, Requested, Settled, Translation, TypesOf;
    forall k: Kind, n, t | n in st.nodes && t in TypesOf(k)
      ensures st.Served(k, n, t) == Restriction(st.localhost, Translation(c, authority, k), t, Requested(st.nodes[n].Half(k), t))
    {
      SettledFacts(st, k);
      ServedIsRestriction(st, k, n, t);
    }
  }

  /** snapAll: services first; when listing endpoints fails, the endpoints stay as they were. */
  method SnapAll(c: C.Watched, sn: Snapshotter, svcs: ST.ServiceMap) returns (ok: bool)
    requires sn.Valid() && ST.Keyed(svcs)
    modifies sn
    ensures sn.Valid() && sn.streams == old(sn.streams) && AllKept(old(sn.View()), sn.View())
    ensures ok <==> Readable(c, svcs)
    ensures ST.WellNamed(svcs) ==> sn.View().Full(Services) == ServiceItems(svcs, sn.authority)
    ensures !ok ==> sn.View().Full(Endpoints) == old(sn.View()).Full(Endpoints)
    ensures ok && ET.WellNamed(C.EndpointStoreOf(c, svcs)) ==>
              sn.View().Full(Endpoints) == EndpointItems(C.EndpointStoreOf(c, svcs), sn.authority)
    ensures ok && ST.WellNamed(svcs) && ET.WellNamed(C.EndpointStoreOf(c, svcs)) ==>
              sn.deltas == (old(sn.deltas) + ServiceDeltas(svcs))[EndpointType := DeltaEndpoints(C.EndpointStoreOf(c, svcs))]
  {
    hide ServiceItems, EndpointItems, ServiceDeltas, DeltaEndpoints, ST.WellNamed, ET.WellNamed, ST.Keyed, AllKept, Settled,
         C.EndpointStoreOf;
    ghost var st := sn.View();
    sn.SnapServices(svcs);
    ghost var st1 := sn.View();
    var r := C.EndpointsStoreForXdsServiceStore(c, svcs);
    if r.Err? {
      return false;
    }
    sn.SnapEndpoints(r.value);
    AllKeptTwice(st, st1, sn.View());
    return true;
  }

  lemma AllKeptTwice(a: State, b: State, c: State)
    requires AllKept(a, b) && AllKept(b, c)
    ensures AllKept(a, c)
  {
  }

  lemma AllKeptSame(a: State)
    ensures AllKept(a, a)
  {
  }

  /**
    A successful reconcile of services: whatever the nodes were served before, every one of them is now
    served the translation of the watched clusters, restricted to the names its streams have recorded.
   */
  method ReconcileServices(c: C.Watched, sn: Snapshotter) returns (ok: bool)
    requires sn.Valid()
    modifies sn
    ensures sn.Valid() && sn.streams == old(sn.streams) && AllKept(old(sn.View()), sn.View())
    ensures ok <==> c.Lists() && Readable(c, C.ServiceStoreOf(c))
    ensures !c.Lists() ==> sn.View() == old(sn.View())
    ensures ok && C.WellNamed(c) ==>
              && Reflects(sn.View(), c, sn.authority) && ServesTranslation(sn.View(), c, sn.authority)
              && DeltasAgree(sn.View())
  {
    hide Settled, AllKept, Readable, C.ServiceStoreOf, C.EndpointStoreOf, C.WellNamed, ServiceItems, EndpointItems,
         ServesTranslation, ST.WellNamed, ET.WellNamed, DeltasAgree, ServiceDeltas, DeltaEndpoints;
    AllKeptSame(sn.View());
    var built := C.ServicesToXdsServiceStore(c);
    if built.Err? {
      return false;
    }
    var svcs := built.value.store;
    ok := SnapAll(c, sn, svcs);
    if ok && C.WellNamed(c) {
      C.StoreWellNamed(c);
      C.EndpointStoreWellNamed(c, svcs);
      SettledServes(sn.View(), c, sn.authority);
      SyncedDeltasAgree(sn.View(), c, sn.authority, old(sn.deltas));
    }
  }

  /** snapEndpoints: the services half is left alone. */
  method SnapEndpointsOnly(c: C.Watched, sn: Snapshotter) returns (ok: bool)
    requires sn.Valid()
    modifies sn
    ensures sn.Valid() && sn.streams == old(sn.streams) && AllKept(old(sn.View()), sn.View())
    ensures ok <==> c.Lists() && Readable(c, C.ServiceStoreOf(c))
    ensures !ok ==> sn.View() == old(sn.View())
    ensures sn.View().Full(Services) == old(sn.View()).Full(Services)
    ensures ok && C.WellNamed(c) ==>
              && sn.View().Full(Endpoints) == Translation(c, sn.authority, Endpoints)
              && EndpointDeltasAgree(sn.View()) && sn.deltas - {EndpointType} == old(sn.deltas) - {EndpointType}
  {
    hide Settled, AllKept, C.ServiceStoreOf, C.EndpointStoreOf, C.WellNamed, EndpointItems,
         DeltaEndpoints, ST.WellNamed, ET.WellNamed, IsXdstp;
    AllKeptSame(sn.View());
    var built := C.ServicesToXdsServiceStore(c);
    if built.Err? {
      return false;
    }
    var svcs := built.value.store;
    var r := C.EndpointsStoreForXdsServiceStore(c, svcs);
    if r.Err? {
      return false;
    }
    sn.SnapEndpoints(r.value);
    if C.WellNamed(c) {
      C.StoreWellNamed(c);
      C.EndpointStoreWellNamed(c, svcs);
      EndpointItemsAgree(r.value, sn.authority);
    }
    return true;
  }

  /** A slice event is ignored: the slice found is not one of a stored service. */
  predicate Skipped(c: C.Watched, found: Option<ET.EndpointSlice>)
    requires c.Lists()
  {
    found.Some? && !NeedToReconcileEndpointSlice(found.value, C.ServiceStoreOf(c))
  }

  /** What a successful reconcile of a slice event leaves behind, `found` being the slice looked up. */
  ghost predicate SliceReconciled(st: State, st': State, c: C.Watched, found: Option<ET.EndpointSlice>, authority: string)
    requires c.Lists()
  {
    if Skipped(c, found) then st' == st
    else if !C.WellNamed(c) then true
    else if found.Some? then Reflects(st', c, authority) && ServesTranslation(st', c, authority) && DeltasAgree(st')
    else
      && st'.Full(Services) == st.Full(Services) && st'.Full(Endpoints) == Translation(c, authority, Endpoints)
      && EndpointDeltasAgree(st') && st'.deltas - {EndpointType} == st.deltas - {EndpointType}
  }

  /** A slice event fails exactly when something it has to list cannot be listed. */
  ghost predicate SliceFails(c: C.Watched, found: Option<ET.EndpointSlice>) {
    !c.Lists() || (!Skipped(c, found) && !Readable(c, C.ServiceStoreOf(c)))
  }

  method ReconcileEndpointSlice(c: C.Watched, sn: Snapshotter, e: ET.EndpointSlice) returns (ok: bool)
    requires sn.Valid()
    modifies sn
    ensures sn.Valid() && sn.streams == old(sn.streams) && AllKept(old(sn.View()), sn.View())
    ensures ok <==> !SliceFails(c, Some(e))
    ensures ok ==> SliceReconciled(old(sn.View()), sn.View(), c, Some(e), sn.authority)
    ensures !ok ==> sn.View().Full(Endpoints) == old(sn.View()).Full(Endpoints)
    ensures !c.Lists() ==> sn.View() == old(sn.View())
  {
    hide Settled, AllKept, Readable, C.ServiceStoreOf, C.EndpointStoreOf, C.WellNamed, ServiceItems, EndpointItems,
         ServesTranslation, ST.WellNamed, ET.WellNamed, NeedToReconcileEndpointSlice, DeltasAgree, ServiceDeltas, DeltaEndpoints;
    AllKeptSame(sn.View());
    var built := C.ServicesToXdsServiceStore(c);
    if built.Err? {
      return false;
    }
    var svcs := built.value.store;
    var need := ComputeNeedToReconcileEndpointSlice(e, built.value);
    if !need {
      return true;
    }
    ok := SnapAll(c, sn, svcs);
    if ok && C.WellNamed(c) {
      C.StoreWellNamed(c);
      C.EndpointStoreWellNamed(c, svcs);
      SettledServes(sn.View(), c, sn.authority);
      SyncedDeltasAgree(sn.View(), c, sn.authority, old(sn.deltas));
    }
  }

  /** A slice that is gone refreshes the endpoints without asking whose it was. */
  method ReconcileLocalEndpointSlice(c: C.Watched, sn: Snapshotter, name: string, ns: string) returns (ok: bool)
    requires sn.Valid()
    modifies sn
    ensures sn.Valid() && sn.streams == old(sn.streams) && AllKept(old(sn.View()), sn.View())
    ensures var found := C.Named(c.local.slices, name, ns);
            && (ok <==> (name, ns) !in c.local.unreadable && !SliceFails(c, found))
            && (ok ==> SliceReconciled(old(sn.View()), sn.View(), c, found, sn.authority))
    ensures !ok ==> sn.View().Full(Endpoints) == old(sn.View()).Full(Endpoints)
    ensures (name, ns) in c.local.unreadable || !c.Lists() ==> sn.View() == old(sn.View())
  {
    hide Settled, AllKept, Readable, C.ServiceStoreOf, NeedToReconcileEndpointSlice, C.WellNamed, Reflects, Translation,
         ServesTranslation, DeltasAgree, EndpointDeltasAgree;
    AllKeptSame(sn.View());
    match C.Lookup(c.local, name, ns)
    case Err(NotFound) => ok := SnapEndpointsOnly(c, sn);
    case Err(Unreadable) => ok := false;
    case Ok(e) => ok := ReconcileEndpointSlice(c, sn, e);
  }

  /** The first remote cluster that has the slice decides; unreadable ones are passed over. */
  method ReconcileRemoteEndpointSlice(c: C.Watched, sn: Snapshotter, name: string, ns: string) returns (ok: bool)
    requires sn.Valid()
    modifies sn
    ensures sn.Valid() && sn.streams == old(sn.streams) && AllKept(old(sn.View()), sn.View())
    ensures var found := FirstFound(c.remotes, name, ns);
            && (ok <==> !SliceFails(c, found))
            && (ok ==> SliceReconciled(old(sn.View()), sn.View(), c, found, sn.authority))
    ensures !ok ==> sn.View().Full(Endpoints) == old(sn.View()).Full(Endpoints)
    ensures !c.Lists() ==> sn.View() == old(sn.View())
  {
    hide SliceReconciled, Settled, AllKept, Readable, C.ServiceStoreOf, NeedToReconcileEndpointSlice, C.WellNamed, C.Lookup,
         EndpointDeltasAgree;
    for i := 0 to |c.remotes|
      invariant sn.View() == old(sn.View()) && sn.Valid()
      invariant FirstFound(c.remotes, name, ns) == FirstFound(c.remotes[i..], name, ns)
    {
      assert c.remotes[i..][1..] == c.remotes[i + 1..];
      match C.Lookup(c.remotes[i], name, ns)
      case Err(NotFound) => continue;
      case Err(Unreadable) => continue;
      case Ok(e) =>
        ok := ReconcileEndpointSlice(c, sn, e);
        return;
    }
    ok := SnapEndpointsOnly(c, sn);
    if ok {
      GoneReconciled(old(sn.View()), sn.View(), c, sn.authority);
    }
  }

  lemma GoneReconciled(st: State, st': State, c: C.Watched, authority: string)
    requires c.Lists() && st'.Full(Services) == st.Full(Services)
    requires C.WellNamed(c) ==>
               && st'.Full(Endpoints) == Translation(c, authority, Endpoints)
               && EndpointDeltasAgree(st') && st'.deltas - {EndpointType} == st.deltas - {EndpointType}
    ensures SliceReconciled(st, st', c, None, authority)
  {
    hide Translation, EndpointDeltasAgree;
  }

  // ---------------------------------------------------------------------
  // Keeping up with slice events

  /** Two watched states that differ in their slices only. */
  ghost predicate SameServices(c: C.Watched, c': C.Watched) {
    c'.labelled == c.labelled && c'.xdsServices == c.xdsServices && c'.services == c.services
  }

  lemma SameServiceStore(c: C.Watched, c': C.Watched)
    requires SameServices(c, c') && c.Lists() && C.WellNamed(c)
    ensures c'.Lists() && C.WellNamed(c') && C.ServiceStoreOf(c') == C.ServiceStoreOf(c) && ST.WellNamed(C.ServiceStoreOf(c))
  {
    C.StoreWellNamed(c);
    hide C.AddXds, C.AddLabelled, ST.WellNamed;
    SameXds(c, c', C.AddLabelled(c.labelled.value), c.xdsServices.value);
  }

  /**
    Serial reconciles and a slice event, whatever it is: if the full snapshots reflect the clusters as
    they were, they reflect the clusters as they are after the reconcile if and only if the event was not
    skipped, or the endpoints to publish are the same.
   */
  lemma EventKeepsUp(st: State, st': State, before: C.Watched, after: C.Watched, found: Option<ET.EndpointSlice>, authority: string)
    requires before.Lists() && C.WellNamed(before) && SameServices(before, after) && ST.WellNamed(C.ServiceStoreOf(before))
    requires after.Lists() && C.WellNamed(after)
    requires Reflects(st, before, authority) && SliceReconciled(st, st', after, found, authority)
    ensures var svcs := C.ServiceStoreOf(before);
            Reflects(st', after, authority) <==>
              (Skipped(after, found) ==> PublishedEndpoints(before, svcs, authority) == PublishedEndpoints(after, svcs, authority))
  {
    SameServiceStore(before, after);
    var svcs := C.ServiceStoreOf(before);
    hide ServesTranslation, NeedToReconcileEndpointSlice, ServiceItems, DeltasAgree, EndpointDeltasAgree, C.EndpointStoreOf,
         C.ServiceStoreOf, C.WellNamed, ST.WellNamed, ET.WellNamed, EndpointItems;
    TranslationsDiffer(before, after, authority);
    assert st.Full(Services) == Translation(before, authority, Services);
    assert st.Full(Endpoints) == Translation(before, authority, Endpoints);
    hide Translation, PublishedEndpoints;
    if Skipped(after, found) && Reflects(st', after, authority) {
      assert st'.Full(Endpoints) == Translation(after, authority, Endpoints);
    }
    if !Skipped(after, found) || PublishedEndpoints(before, svcs, authority) == PublishedEndpoints(after, svcs, authority) {
      forall k: Kind ensures st'.Full(k) == Translation(after, authority, k) {
        match k case Services => case Endpoints =>
      }
    }
  }

  lemma TranslationsDiffer(c: C.Watched, c': C.Watched, authority: string)
    requires c.Lists() && C.WellNamed(c) && c'.Lists() && C.WellNamed(c') && SameServices(c, c')
    requires C.ServiceStoreOf(c') == C.ServiceStoreOf(c) && ST.WellNamed(C.ServiceStoreOf(c))
    ensures Translation(c, authority, Services) == Translation(c', authority, Services)
    ensures var svcs := C.ServiceStoreOf(c);
            Translation(c, authority, Endpoints) == Translation(c', authority, Endpoints) <==>
              PublishedEndpoints(c, svcs, authority) == PublishedEndpoints(c', svcs, authority)
  {
    hide C.ServiceStoreOf, C.EndpointStoreOf, C.WellNamed, ST.WellNamed, ET.WellNamed, ServiceItems;
    var svcs := C.ServiceStoreOf(c);
    C.EndpointStoreWellNamed(c, svcs);
    C.EndpointStoreWellNamed(c', svcs);
    OneType(C.EndpointStoreOf(c, svcs), authority);
    OneType(C.EndpointStoreOf(c', svcs), authority);
    hide EndpointItems;
  }

  lemma OneType(store: ET.EndpointMap, authority: string)
    requires ET.WellNamed(store)
    ensures EndpointItems(store, authority) == map[EndpointType := ItemsOf(EndpointItems(store, authority), EndpointType)]
  {
    hide ET.WellNamed;
  }

  /**
    A local event, the stretch `part` of the slices becoming `part'` and the slice looked up by name: the
    snapshots keep up exactly when the event is not skipped or no stored service sees a difference.
   */
  lemma LocalEventKeepsUp(st: State, st': State, c: C.Watched, pre: seq<ET.EndpointSlice>, part: seq<ET.EndpointSlice>,
                          part': seq<ET.EndpointSlice>, post: seq<ET.EndpointSlice>, name: string, ns: string, authority: string)
    requires c.Lists() && C.WellNamed(c)
    requires Reflects(st, WithLocal(c, pre + part + post), authority)
    requires SliceReconciled(st, st', WithLocal(c, pre + part' + post), C.Named(pre + part' + post, name, ns), authority)
    ensures var svcs, found := C.ServiceStoreOf(c), C.Named(pre + part' + post, name, ns);
            Reflects(st', WithLocal(c, pre + part' + post), authority) <==>
              (found.Some? && !NeedToReconcileEndpointSlice(found.value, svcs) ==>
                 forall key | key in svcs :: UnseenBy(c, svcs[key], pre, part, part', post))
  {
    var before, after := WithLocal(c, pre + part + post), WithLocal(c, pre + part' + post);
    SameServiceStore(c, before);
    SameServiceStore(c, after);
    hide C.ServiceStoreOf, Reflects, SliceReconciled, NeedToReconcileEndpointSlice, UnseenBy, PublishedEndpoints, C.WellNamed,
         ST.WellNamed, C.Named;
    EventKeepsUp(st, st', before, after, C.Named(pre + part' + post, name, ns), authority);
    LocalChangeIsServed(c, C.ServiceStoreOf(c), pre, part, part', post, authority);
  }

  /** The common case: slice `e` is updated to `e'`, and `e'` is found. */
  lemma LocalUpdateKeepsUp(st: State, st': State, c: C.Watched, pre: seq<ET.EndpointSlice>, e: ET.EndpointSlice,
                           e': ET.EndpointSlice, post: seq<ET.EndpointSlice>, authority: string)
    requires c.Lists() && C.WellNamed(c)
    requires Reflects(st, WithLocal(c, pre + [e] + post), authority)
    requires SliceReconciled(st, st', WithLocal(c, pre + [e'] + post), Some(e'), authority)
    ensures var svcs := C.ServiceStoreOf(c);
            Reflects(st', WithLocal(c, pre + [e'] + post), authority) <==>
              || NeedToReconcileEndpointSlice(e', svcs)
              || forall key | key in svcs :: !WithdrawsFrom(c, svcs[key], pre, e, post)
  {
    var before, after := WithLocal(c, pre + [e] + post), WithLocal(c, pre + [e'] + post);
    SameServiceStore(c, before);
    SameServiceStore(c, after);
    hide C.ServiceStoreOf, Reflects, SliceReconciled, NeedToReconcileEndpointSlice, WithdrawsFrom, PublishedEndpoints,
         C.WellNamed, ST.WellNamed;
    EventKeepsUp(st, st', before, after, Some(e'), authority);
    if !NeedToReconcileEndpointSlice(e', C.ServiceStoreOf(c)) {
      SkippedUpdateIsServed(c, C.ServiceStoreOf(c), pre, e, e', post, authority);
    }
  }

  /**
    A remote event in cluster `i`, be it an update, a creation or a deletion, the slice looked up in all
    remote clusters: the snapshots keep up exactly when the event is not skipped or no stored service that
    takes remote endpoints is offered anything different.
   */
  lemma RemoteEventKeepsUp(st: State, st': State, c: C.Watched, i: nat, pre: seq<ET.EndpointSlice>, part: seq<ET.EndpointSlice>,
                           part': seq<ET.EndpointSlice>, post: seq<ET.EndpointSlice>, name: string, ns: string, authority: string)
    requires c.Lists() && C.WellNamed(c) && i < |c.remotes|
    requires Reflects(st, WithRemote(c, i, pre + part + post), authority)
    requires SliceReconciled(st, st', WithRemote(c, i, pre + part' + post),
                             FirstFound(WithRemote(c, i, pre + part' + post).remotes, name, ns), authority)
    ensures var svcs, found := C.ServiceStoreOf(c), FirstFound(WithRemote(c, i, pre + part' + post).remotes, name, ns);
            Reflects(st', WithRemote(c, i, pre + part' + post), authority) <==>
              (found.Some? && !NeedToReconcileEndpointSlice(found.value, svcs) ==>
                 forall key | key in svcs :: UnseenRemotelyBy(svcs[key], part, part'))
  {
    var before, after := WithRemote(c, i, pre + part + post), WithRemote(c, i, pre + part' + post);
    SameServiceStore(c, before);
    SameServiceStore(c, after);
    hide C.ServiceStoreOf, Reflects, SliceReconciled, NeedToReconcileEndpointSlice, UnseenRemotelyBy, PublishedEndpoints,
         C.WellNamed, ST.WellNamed, FirstFound;
    EventKeepsUp(st, st', before, after, FirstFound(after.remotes, name, ns), authority);
    RemoteChangeIsServed(c, C.ServiceStoreOf(c), i, pre, part, part', post, authority);
  }

  lemma {:induction false} SameXds(c: C.Watched, c': C.Watched, base: ST.ServiceMap, xs: seq<C.XdsService>)
    requires c'.services == c.services
    ensures C.AddXds(c', base, xs) == C.AddXds(c, base, xs)
  {
    hide C.Put;
    if xs != [] {
      SameXds(c, c', base, xs[..|xs| - 1]);
    }
  }
}
