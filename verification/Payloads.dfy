/** What a snap publishes, and what the translated stores look like once published. */
module Payloads {
  import opened Collections
  import opened Names
  import opened Resources
  import opened Sections
  import ST = ServiceTranslation
  import ET = EndpointTranslation

  /** Resource lists by type for the snapshot cache, and the delta caches to be synced. */
  datatype Payload = Payload(lists: Lists, deltas: map<TypeUrl, Index>)

  /** Delta caches synced by a snap, in the order the code syncs them. */
  function DeltaOrder(k: Kind): seq<TypeUrl> {
    match k
    case Services => [ClusterType, VirtualHostType, RouteType]
    case Endpoints => [EndpointType]
  }

  // ---------------------------------------------------------------------
  // Services

  /** `p` is a payload the services snap may build from `store`: list orders are left open. */
  ghost predicate FromServices(p: Payload, store: ST.ServiceMap, authority: string) {
    && p.lists.Keys == TypesOf(Services) && p.deltas.Keys == SetOf(DeltaOrder(Services))
    && (forall t | t in TypesOf(Services) :: SetOf(p.lists[t]) == ST.FullServiceSet(t, store, authority))
    && IsIndexOf(p.deltas[ClusterType], ST.DeltaSet(ClusterType, store, ""))
    && IsIndexOf(p.deltas[VirtualHostType], ST.DeltaSet(VirtualHostType, store, ""))
    && p.deltas[RouteType] == map["kube_dynamic" := ST.KUBE_DYNAMIC]
  }

  /** The pure translation of a service store: the full snapshot every node is served from. */
  ghost function ServiceItems(store: ST.ServiceMap, authority: string): Items
    requires ST.WellNamed(store)
  {
    map t | t in TypesOf(Services) ::
      (ST.FullServiceSetDistinct(t, store, authority); ByName(ST.FullServiceSet(t, store, authority)))
  }

  ghost function DeltaItems(t: TypeUrl, store: ST.ServiceMap): Index
    requires ST.WellNamed(store) && t in {ClusterType, VirtualHostType}
  {
    ST.DeltaSetDistinct(t, store, "");
    ByName(ST.DeltaSet(t, store, ""))
  }

  /** The delta caches of a service store. */
  ghost function ServiceDeltas(store: ST.ServiceMap): map<TypeUrl, Index>
    requires ST.WellNamed(store)
  {
    map[ClusterType := DeltaItems(ClusterType, store),
        VirtualHostType := DeltaItems(VirtualHostType, store),
        RouteType := map["kube_dynamic" := ST.KUBE_DYNAMIC]]
  }

  lemma ServicesPublished(p: Payload, store: ST.ServiceMap, authority: string)
    requires FromServices(p, store, authority) && ST.WellNamed(store)
    ensures NewSnapshot("", p.lists).items == ServiceItems(store, authority)
    ensures p.deltas == ServiceDeltas(store)
  {
    hide ST.FullServiceSet, ST.DeltaSet, TypesOf, ST.WellNamed, ServiceItems, ServiceDeltas, NewSnapshot;
    ServiceListsPublished(p.lists, store, authority);
    ServiceDeltasPublished(p.deltas, store);
  }

  lemma ServiceListsPublished(lists: Lists, store: ST.ServiceMap, authority: string)
    requires lists.Keys == TypesOf(Services) && ST.WellNamed(store)
    requires forall t | t in TypesOf(Services) :: SetOf(lists[t]) == ST.FullServiceSet(t, store, authority)
    ensures NewSnapshot("", lists).items == ServiceItems(store, authority)
  {
    hide ST.FullServiceSet, TypesOf, ST.WellNamed, IndexByName, ByName, Distinct;
    var items, expected := NewSnapshot("", lists).items, ServiceItems(store, authority);
    forall t | t in TypesOf(Services) ensures items[t] == expected[t] {
      ST.FullServiceSetDistinct(t, store, authority);
      IndexIsByName(lists[t]);
    }
  }

  lemma ServiceDeltasPublished(deltas: map<TypeUrl, Index>, store: ST.ServiceMap)
    requires deltas.Keys == SetOf(DeltaOrder(Services)) && ST.WellNamed(store)
    requires IsIndexOf(deltas[ClusterType], ST.DeltaSet(ClusterType, store, ""))
    requires IsIndexOf(deltas[VirtualHostType], ST.DeltaSet(VirtualHostType, store, ""))
    requires deltas[RouteType] == map["kube_dynamic" := ST.KUBE_DYNAMIC]
    ensures deltas == ServiceDeltas(store)
  {
    hide ST.DeltaSet, ST.Keyed, ST.DotFree, ST.SlashFree, IsIndexOf, ByName, Distinct;
    ST.DeltaSetDistinct(ClusterType, store, "");
    ST.DeltaSetDistinct(VirtualHostType, store, "");
    IndexOfDistinct(deltas[ClusterType], ST.DeltaSet(ClusterType, store, ""));
    IndexOfDistinct(deltas[VirtualHostType], ST.DeltaSet(VirtualHostType, store, ""));
    assert deltas.Keys == ServiceDeltas(store).Keys;
  }

  // ---------------------------------------------------------------------
  // Endpoints

  ghost predicate FromEndpoints(p: Payload, store: ET.EndpointMap, authority: string) {
    && p.lists.Keys == TypesOf(Endpoints) && p.deltas.Keys == SetOf(DeltaOrder(Endpoints))
    && (ET.WellNamed(store) ==>
          && SetOf(p.lists[EndpointType]) == ET.FullEndpointSet(store, authority)
          && IsIndexOf(p.deltas[EndpointType], ET.EndpointSet(store, "")))
  }

  ghost function EndpointItems(store: ET.EndpointMap, authority: string): Items
    requires ET.WellNamed(store)
  {
    ET.FullEndpointSetDistinct(store, authority);
    map[EndpointType := ByName(ET.FullEndpointSet(store, authority))]
  }

  ghost function DeltaEndpoints(store: ET.EndpointMap): Index
    requires ET.WellNamed(store)
  {
    ET.EndpointSetDistinct(store, "");
    ByName(ET.EndpointSet(store, ""))
  }

  lemma EndpointsPublished(p: Payload, store: ET.EndpointMap, authority: string)
    requires FromEndpoints(p, store, authority) && ET.WellNamed(store)
    ensures NewSnapshot("", p.lists).items == EndpointItems(store, authority)
    ensures p.deltas[EndpointType] == DeltaEndpoints(store)
  {
    hide ET.FullEndpointSet, ET.EndpointSet;
    ET.FullEndpointSetDistinct(store, authority);
    IndexIsByName(p.lists[EndpointType]);
    ET.EndpointSetDistinct(store, "");
    IndexOfDistinct(p.deltas[EndpointType], ET.EndpointSet(store, ""));
  }

  // ---------------------------------------------------------------------
  // Delta caches against full snapshots

  /**
    The delta caches a services snap fills agree with the full snapshot it publishes: delta clusters have
    the names, policies and endpoints of the plainly named clusters; delta hosts are the virtual hosts of
    the plainly named listeners; every delta host routes to a delta cluster; and the only delta route has no
    hosts of its own and discovers them.
   */
  ghost predicate ServiceDeltasAgree(full: Items, clusters: Index, hosts: Index, routes: Index) {
    var cls, listeners := ItemsOf(full, ClusterType), ItemsOf(full, ListenerType);
    && (forall n :: n in clusters <==> n in cls && !IsXdstp(n))
    && (forall n | n in clusters :: ST.IsDeltaCluster(clusters[n], cls[n]))
    && (forall n | n in listeners && !IsXdstp(n) ::
          && listeners[n].Listener? && "kube_dynamic/" + n in hosts && hosts["kube_dynamic/" + n].Host?
          && hosts["kube_dynamic/" + n].host.onDemand
          && listeners[n].inlined.virtualHosts == [hosts["kube_dynamic/" + n].host.(name := n, onDemand := false)])
    && (forall x | x in hosts :: exists n | n in listeners && !IsXdstp(n) :: x == "kube_dynamic/" + n)
    && (forall x | x in hosts :: hosts[x].Host? && hosts[x].host.cluster in clusters)
    && routes == map["kube_dynamic" := Route(RouteConfig("kube_dynamic", [], true))]
  }

  lemma ServiceItemsAgree(store: ST.ServiceMap, authority: string)
    requires ST.WellNamed(store)
    ensures ServiceDeltasAgree(ServiceItems(store, authority), DeltaItems(ClusterType, store),
                               DeltaItems(VirtualHostType, store), map["kube_dynamic" := ST.KUBE_DYNAMIC])
  {
    hide ST.FullServiceSet, ST.DeltaSet, ST.DeltaPatch, IsXdstp, ST.IsDeltaCluster, ST.WellNamed, ByName, Distinct;
    ST.FullServiceSetDistinct(ClusterType, store, authority);
    ST.FullServiceSetDistinct(ListenerType, store, authority);
    DeltaDistinct(store);
    ST.DeltaClustersAgree(store, authority);
    ST.DeltaHostsAgree(store, authority);
    ST.DeltaHostsReachDeltaClusters(store);
    var cls := ItemsOf(ServiceItems(store, authority), ClusterType);
    forall n | n in cls && !IsXdstp(n) ensures ST.IsDeltaCluster(ST.DeltaPatch(cls[n]), cls[n]) {
      PlainClusterPatch(store, authority, n);
    }
  }

  lemma DeltaDistinct(store: ST.ServiceMap)
    requires ST.WellNamed(store)
    ensures Distinct(ST.DeltaSet(ClusterType, store, "")) && Distinct(ST.DeltaSet(VirtualHostType, store, ""))
  {
    ST.DeltaSetDistinct(ClusterType, store, "");
    ST.DeltaSetDistinct(VirtualHostType, store, "");
  }

  lemma PlainClusterPatch(store: ST.ServiceMap, authority: string, n: string)
    requires ST.WellNamed(store) && n in ItemsOf(ServiceItems(store, authority), ClusterType) && !IsXdstp(n)
    ensures var c := ItemsOf(ServiceItems(store, authority), ClusterType)[n]; ST.IsDeltaCluster(ST.DeltaPatch(c), c)
  {
    hide ST.FullServiceSet, ST.DeltaPatch, IsXdstp, ST.IsDeltaCluster, ST.WellNamed;
    ST.FullServiceSetDistinct(ClusterType, store, authority);
    ST.PlainClustersPatch(store, authority, ItemsOf(ServiceItems(store, authority), ClusterType)[n]);
  }

  lemma EndpointItemsAgree(store: ET.EndpointMap, authority: string)
    requires ET.WellNamed(store)
    ensures var full := ItemsOf(EndpointItems(store, authority), EndpointType);
            DeltaEndpoints(store) == map n | n in full && !IsXdstp(n) :: full[n]
  {
    hide ET.FullEndpointSet, ET.EndpointSet, IsXdstp;
    ET.FullEndpointSetDistinct(store, authority);
    ET.EndpointSetDistinct(store, "");
    ET.DeltaEndpointsAgree(store, authority);
  }
}
