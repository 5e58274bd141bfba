/** xds/snapshotter.go: the snapshotter as an object, its loops proved against the atomic sections. */
module SnapshotterObject {
  import opened Collections
  import opened Names
  import opened Resources
  import opened Matching
  import opened Sections
  import opened Payloads
  import opened Agreement
  import opened Protocol
  import opened Registration
  import ST = ServiceTranslation
  import ET = EndpointTranslation

  function ListOf(lists: Lists, t: TypeUrl): seq<Resource> {
    if t in lists then lists[t] else []
  }

  /** Lists without empty entries, all of one half. */
  ghost predicate Compact(lists: Lists, k: Kind) {
    forall t | t in lists :: t in TypesOf(k) && lists[t] != []
  }

  /** The innermost loop of aggregateNodeResources: resources of one type are appended one by one. */
  method AppendList(aggr0: Lists, t: TypeUrl, copies: seq<Resource>) returns (aggr: Lists)
    ensures aggr == if copies == [] then aggr0 else aggr0[t := ListOf(aggr0, t) + copies]
  {
    aggr := aggr0;
    for i := 0 to |copies|
      invariant aggr == if i == 0 then aggr0 else aggr0[t := ListOf(aggr0, t) + copies[..i]]
    {
      assert ListOf(aggr0, t) + copies[..i + 1] == ListOf(aggr0, t) + copies[..i] + [copies[i]];
      assert i == 0 ==> ListOf(aggr0, t) + copies[..i] == ListOf(aggr0, t);
      assert aggr[t := ListOf(aggr, t) + [copies[i]]] == aggr0[t := ListOf(aggr0, t) + copies[..i + 1]];
      aggr := aggr[t := ListOf(aggr, t) + [copies[i]]];
    }
    assert copies[..|copies|] == copies;
  }

  /** `aggr` is `aggr0` with the copies of `tr` appended, but for the types in `todo`. */
  ghost predicate Appended(aggr: Lists, aggr0: Lists, tr: Tracked, todo: set<TypeUrl>) {
    forall t :: ListOf(aggr, t) == if t in todo then ListOf(aggr0, t) else ListOf(aggr0, t) + tr.CopiesOf(t)
  }

  lemma AppendedStep(aggr: Lists, aggr0: Lists, tr: Tracked, todo: set<TypeUrl>, t: TypeUrl)
    requires Appended(aggr, aggr0, tr, todo) && t in todo && t in tr.copies
    ensures var aggr' := if tr.copies[t] == [] then aggr else aggr[t := ListOf(aggr, t) + tr.copies[t]];
            Appended(aggr', aggr0, tr, todo - {t})
  {
  }

  /** The middle loop: the copies of one stream, type by type. */
  method AppendCopies(tr: Tracked, aggr0: Lists, ghost k: Kind) returns (aggr: Lists)
    requires Compact(aggr0, k) && tr.copies.Keys <= TypesOf(k)
    ensures Compact(aggr, k) && Appended(aggr, aggr0, tr, {})
  {
    hide TypesOf;
    aggr := aggr0;
    var todo := tr.copies.Keys;
    assert Appended(aggr, aggr0, tr, todo);
    while todo != {}
      invariant todo <= tr.copies.Keys && Compact(aggr, k) && Appended(aggr, aggr0, tr, todo)
      decreases todo
    {
      hide Appended;
      var t :| t in todo;
      AppendedStep(aggr, aggr0, tr, todo, t);
      aggr := AppendList(aggr, t, tr.copies[t]);
      todo := todo - {t};
    }
  }

  ghost predicate Totals(aggr: Lists, streams: map<StreamId, Tracked>, order: seq<StreamId>)
    requires Within(order, streams.Keys)
  {
    forall t :: ListOf(aggr, t) == Aggregated(streams, order, t)
  }

  lemma TotalsStep(aggr: Lists, aggr': Lists, streams: map<StreamId, Tracked>, order: seq<StreamId>, s: StreamId)
    requires Within(order, streams.Keys) && s in streams && Totals(aggr, streams, order)
    requires Appended(aggr', aggr, streams[s], {})
    ensures Within(order + [s], streams.Keys) && Totals(aggr', streams, order + [s])
  {
    assert (order + [s])[..|order|] == order;
  }

  lemma TotalsAggregate(k: Kind, aggr: Lists, streams: map<StreamId, Tracked>, order: seq<StreamId>)
    requires Within(order, streams.Keys) && Totals(aggr, streams, order) && Compact(aggr, k)
    ensures aggr == Aggregate(k, streams, order)
  {
    hide TypesOf;
    var whole := Aggregate(k, streams, order);
    forall t | t in whole ensures t in aggr && aggr[t] == whole[t] {
      assert ListOf(aggr, t) == Aggregated(streams, order, t);
    }
    forall t | t in aggr ensures t in whole {
      assert ListOf(aggr, t) == Aggregated(streams, order, t);
    }
  }

  method AggregateNodeResources(k: Kind, node: Node) returns (aggr: Lists)
    requires forall s | s in node.resources :: node.resources[s].Of(k).copies.Keys <= TypesOf(k)
    ensures exists order :: IsEnumeration(order, node.resources.Keys) && aggr == Aggregate(k, node.Half(k), order)
  {
    aggr := map[];
    ghost var order := [];
    var todo := node.resources.Keys;
    ghost var done := {};
    assert Totals(aggr, node.Half(k), order);
    while todo != {}
      invariant todo + done == node.resources.Keys && todo !! done
      invariant IsEnumeration(order, done) && Compact(aggr, k)
      invariant Within(order, node.Half(k).Keys) && Totals(aggr, node.Half(k), order)
      decreases todo
    {
      hide Totals, Compact, Appended;
      var s := Pick(todo);
      var next := AppendCopies(node.resources[s].Of(k), aggr, k);
      TotalsStep(aggr, next, node.Half(k), order, s);
      ExtendEnumeration(order, done, s);
      aggr, order := next, order + [s];
      todo, done := todo - {s}, done + {s};
    }
    assert done == node.resources.Keys;
    TotalsAggregate(k, aggr, node.Half(k), order);
  }

  class Snapshotter {
    const authority: string
    const localhost: bool
    var streams: map<StreamId, string>
    var nodes: map<NodeId, Node>
    var caches: PerKind<Cache>
    var versions: PerKind<int>
    var deltas: map<TypeUrl, Index>

    ghost function View(): State
      reads this
    {
      State(localhost, streams, nodes, caches, versions, deltas)
    }

    /** Between snaps every node agrees with the full snapshots. */
    ghost predicate Valid()
      reads this
    {
      Settled(View())
    }

    constructor (authority: string, localhost: bool)
      ensures Valid() && View() == InitState(localhost) && this.authority == authority
    {
      this.authority, this.localhost := authority, localhost;
      streams, nodes, deltas := map[], map[], map[];
      caches, versions := PerKind(map[], map[]), PerKind(0, 0);
      new;
      InitOk(localhost);
    }

    method OnStreamOpen(id: StreamId, address: string)
      requires Valid()
      modifies this`streams
      ensures Valid() && View() == old(View()).(streams := old(streams)[id := address])
    {
      hide Settled;
      streams := streams[id := address];
      SettledFrame(old(View()), View());
    }

    method GetResourcesFromCache(k: Kind, t: TypeUrl, names: seq<string>) returns (r: Result<seq<Resource>, Error>)
      ensures r == if "" in caches.Of(k)
                   then Ok(Copies(false, View().Full(k), t, names)) else Err(NoFullSnapshot)
      ensures r.Ok? ==>
                var full := ItemsOf(View().Full(k), t);
                var kept := Filter(NamedIn(full), names);
                |r.value| == |kept| && forall i | 0 <= i < |kept| :: kept[i] in full && r.value[i] == full[kept[i]]
    {
      if EMPTY_NODE_ID !in caches.Of(k) {
        return Err(NoFullSnapshot);
      }
      var full := caches.Of(k)[EMPTY_NODE_ID].Resources(t);
      var res: seq<Resource> := [];
      for i := 0 to |names|
        invariant res == Copies(false, View().Full(k), t, names[..i])
      {
        assert names[..i + 1][..i] == names[..i];
        if names[i] in full {
          res := res + [full[names[i]]];
        }
      }
      assert names[..|names|] == names;
      CopiesInOrder(View().Full(k), t, names);
      r := Ok(res);
    }

    method MakeDummyResources(t: TypeUrl, names: seq<string>) returns (res: seq<Resource>)
      requires KindOf(t).Some?
      ensures res == Copies(true, map[], t, names)
      ensures |res| == |names| && forall i | 0 <= i < |names| :: res[i] == Dummy(t, names[i])
    {
      hide Dummy;
      res := [];
      for i := 0 to |names|
        invariant res == Copies(true, map[], t, names[..i])
        invariant |res| == i && forall j | 0 <= j < i :: res[j] == Dummy(t, names[j])
      {
        assert names[..i + 1][..i] == names[..i];
        res := res + [Dummy(t, names[i])];
      }
      assert names[..|names|] == names;
    }

    /** updateNodeStreamServiceResources and updateNodeStreamEndpointsResources */
    method UpdateNodeStreamResources(k: Kind, n: NodeId, t: TypeUrl, s: StreamId, names: seq<string>)
      returns (r: Option<Error>)
      requires n in nodes && KindOf(t) == Some(k)
      modifies this`nodes
      ensures r == if s !in old(nodes)[n].resources then Some(StreamNotFound)
                   else if !localhost && EMPTY_NODE_ID !in old(caches).Of(k) then Some(NoFullSnapshot) else None
      ensures nodes == if r.Some? then old(nodes)
                       else old(nodes)[n := Recorded(old(View()), k, old(nodes)[n], t, s, names)]
    {
      if s !in nodes[n].resources {
        return Some(StreamNotFound);
      }
      var copies: seq<Resource>;
      if localhost {
        copies := MakeDummyResources(t, names);
        LocalhostIgnoresFull(View().Full(k), t, names);
      } else {
        var found := GetResourcesFromCache(k, t, names);
        if found.Err? {
          return Some(found.error);
        }
        copies := found.value;
      }
      hide Copies;
      var tr := nodes[n].resources[s].Of(k);
      var tr' := Tracked(tr.names[t := names], tr.copies[t := copies]);
      var resources := nodes[n].resources[s := nodes[n].resources[s].With(k, tr')];
      nodes := nodes[n := nodes[n].(resources := resources)];
      r := None;
    }

    /** nodeServiceSnapshot and nodeEndpointsSnapshot */
    method NodeSnapshot(k: Kind, n: NodeId) returns (ghost order: seq<StreamId>)
      requires n in nodes && forall s | s in nodes[n].resources :: nodes[n].resources[s].Of(k).copies.Keys <= TypesOf(k)
      modifies this`nodes, this`caches
      ensures IsEnumeration(order, old(nodes)[n].resources.Keys)
      ensures View() == SnapNode(old(View()), k, n, order)
    {
      hide IndexByName, Itoa;
      var node := nodes[n].(versions := nodes[n].versions.With(k, Wrap32(nodes[n].versions.Of(k) + 1)));
      nodes := nodes[n := node];
      var aggr := AggregateNodeResources(k, node);
      order :| IsEnumeration(order, node.resources.Keys) && aggr == Aggregate(k, node.Half(k), order);
      caches := caches.With(k, caches.Of(k)[n := NewSnapshot(Itoa(node.versions.Of(k)), aggr)]);
    }

    method AddOrUpdateNode(n: NodeId, address: string, s: StreamId)
      modifies this`nodes
      ensures View() == Sections.AddOrUpdateNode(old(View()), n, address, s)
      ensures n == "" ==> nodes == old(nodes)
      ensures n != "" ==>
                && nodes.Keys == old(nodes).Keys + {n} && s in nodes[n].resources
                && nodes[n].address == if n in old(nodes) then old(nodes)[n].address else address
    {
      hide EmptyResources;
      if n == EMPTY_NODE_ID {
        return;
      }
      if n !in nodes {
        nodes := nodes[n := Node(address, map[s := EmptyResources()], PerKind(0, 0))];
        return;
      }
      if s in nodes[n].resources {
        return;
      }
      nodes := nodes[n := nodes[n].(resources := nodes[n].resources[s := EmptyResources()])];
    }

    method NeedToUpdateSnapshot(n: NodeId, t: TypeUrl, s: StreamId, names: seq<string>) returns (r: Result<bool, Error>)
      ensures r == NeedToUpdate(View(), n, t, s, names)
      ensures n !in nodes ==> r == Ok(false)
      ensures n in nodes && s !in nodes[n].resources ==> r == Err(StreamNotFound)
      ensures n in nodes && s in nodes[n].resources && KindOf(t).None? ==> r == Ok(false)
      ensures n in nodes && s in nodes[n].resources && KindOf(t).Some? ==>
                var stored := nodes[n].resources[s].Of(KindOf(t).value).NamesOf(t);
                && r.Ok? && (multiset(stored) == multiset(names) ==> !r.value)
                && (!r.value && NoDup(names) ==> SetOf(stored) == SetOf(names))
    {
      if n !in nodes {
        return Ok(false);
      }
      if s !in nodes[n].resources {
        return Err(StreamNotFound);
      }
      match KindOf(t)
      case None =>
        return Ok(false);
      case Some(k) =>
        var stored := nodes[n].resources[s].Of(k).NamesOf(t);
        var same := ComputeResourcesMatch(stored, names);
        if multiset(stored) == multiset(names) {
          ReorderingMatches(stored, names);
        }
        if same && NoDup(names) {
          MatchNamesTheSame(stored, names);
        }
        return Ok(!same);
    }

    /** The update section, also between the two halves of a snap: `prev` are the replaced full snapshots. */
    method UpdateStreamNodeResources(n: NodeId, t: TypeUrl, s: StreamId, names: seq<string>, ghost prev: PerKind<Items>)
      returns (r: Option<Error>, ghost order: seq<StreamId>)
      requires Agrees(View(), prev)
      modifies this`nodes, this`caches
      ensures Agrees(View(), prev)
      ensures n in old(nodes) ==> IsEnumeration(order, old(nodes)[n].resources.Keys)
      ensures r == if n !in old(nodes) then Some(NodeNotFound)
                   else if KindOf(t).None? then None
                   else if s !in old(nodes)[n].resources then Some(StreamNotFound)
                   else if !localhost && "" !in caches.Of(KindOf(t).value) then Some(NoFullSnapshot) else None
      ensures match UpdateStream(old(View()), n, t, s, names, order)
              case Err(e) => r == Some(e) && View() == old(View())
              case Ok(st) => r == None && View() == st
    {
      order := [];
      if n !in nodes {
        return Some(NodeNotFound), [];
      }
      order := EnumerationExists(nodes[n].resources.Keys);
      match KindOf(t)
      case None =>
        return None, order;
      case Some(k) =>
        ghost var st := View();
        r := UpdateNodeStreamResources(k, n, t, s, names);
        if r.Some? {
          return r, order;
        }
        HoldsOneHalf(st, k, prev, n);
        RecordedHoldsOneHalf(st, k, st.nodes[n], t, s, names);
        order := NodeSnapshot(k, n);
        RecordedKeys(st, k, st.nodes[n], t, s, names);
        hide Recorded, SnapNode, Copies, Agrees;
        assert View() == UpdateStream(st, n, t, s, names, order).value;
        AgreesUpdate(st, prev, n, t, s, names, order);
    }

    method SnapBoth(n: NodeId) returns (ghost orders: PerKind<seq<StreamId>>)
      requires n in nodes
      requires forall s | s in nodes[n].resources ::
                 && nodes[n].resources[s].services.copies.Keys <= TypesOf(Services)
                 && nodes[n].resources[s].endpoints.copies.Keys <= TypesOf(Endpoints)
      modifies this`nodes, this`caches
      ensures IsEnumeration(orders.services, old(nodes)[n].resources.Keys)
      ensures IsEnumeration(orders.endpoints, old(nodes)[n].resources.Keys)
      ensures Within(orders.services, old(nodes)[n].resources.Keys)
      ensures var st := SnapNode(old(View()), Services, n, orders.services);
              n in st.nodes && Within(orders.endpoints, st.nodes[n].resources.Keys)
              && View() == SnapNode(st, Endpoints, n, orders.endpoints)
    {
      hide SnapNode;
      ghost var st := View();
      ghost var o1 := NodeSnapshot(Services, n);
      SnapKeepsResources(st, Services, n, o1);
      ghost var o2 := NodeSnapshot(Endpoints, n);
      orders := PerKind(o1, o2);
    }

    /** deleteNodeStream, also between the two halves of a snap. */
    method DeleteNodeStream(n: NodeId, s: StreamId, ghost prev: PerKind<Items>) returns (ghost orders: PerKind<seq<StreamId>>)
      requires Agrees(View(), prev)
      modifies this`nodes, this`caches
      ensures Agrees(View(), prev)
      ensures n in old(nodes) ==> forall k: Kind :: IsEnumeration(orders.Of(k), old(nodes)[n].resources.Keys - {s})
      ensures n in old(nodes) ==> forall k: Kind :: Within(orders.Of(k), old(nodes)[n].resources.Keys - {s})
      ensures View() == DeleteStream(old(View()), n, s, orders)
    {
      orders := PerKind([], []);
      ghost var st := View();
      hide SnapNode, HalfInv;
      NoEmptyNode(st, Services, prev.Of(Services));
      hide Agrees;
      if n == EMPTY_NODE_ID || n !in nodes {
        return;
      }
      ghost var rest := nodes[n].resources.Keys - {s};
      HoldsOneHalf(st, Services, prev, n);
      HoldsOneHalf(st, Endpoints, prev, n);
      var node := nodes[n].(resources := nodes[n].resources - {s});
      assert node.resources.Keys == rest;
      if node.resources == map[] {
        nodes := nodes - {n};
        caches := PerKind(caches.services - {n}, caches.endpoints - {n});
      } else {
        nodes := nodes[n := node];
        orders := SnapBoth(n);
      }
      BothOrders(orders, rest);
      AgreesDelete(st, prev, n, s, orders);
    }

    /** OnStreamClosed: its two sections in a row. */
    method OnStreamClosed(id: StreamId, n: NodeId)
      requires Valid()
      modifies this
      ensures Valid() && streams == old(streams) - {id} && deltas == old(deltas) && versions == old(versions)
      ensures OthersKept(old(View()), View(), id)
      ensures forall m | Registered(View(), m, id) :: m != n && Registered(old(View()), m, id)
      ensures forall k: Kind :: View().Full(k) == old(View()).Full(k)
    {
      hide Settled, Agrees, OthersKept, DeleteStream;
      streams := streams - {id};
      ghost var st := View();
      SettledFrame(old(View()), st);
      SettledAgrees(st);
      ghost var orders := DeleteNodeStream(n, id, PerKind(st.Full(Services), st.Full(Endpoints)));
      Deleted(old(View()), st, n, id, orders);
    }

    // -------------------------------------------------------------------
    // Refreshing

    /** The innermost loop of a refresh: every type one stream tracks is copied again. */
    method RefreshStream(k: Kind, n: NodeId, s: StreamId)
      requires n in nodes && s in nodes[n].resources && nodes[n].resources[s].Of(k).names.Keys <= TypesOf(k)
      modifies this`nodes
      ensures nodes == old(nodes)[n := WithStream(old(nodes)[n], s, k, RefreshTracked(old(View()), k, old(nodes)[n].resources[s].Of(k)))]
    {
      hide Copies, TypesOf, Recorded, PartlyRefreshed;
      ghost var st := View();
      var tr := nodes[n].resources[s].Of(k);
      var todo := tr.names.Keys;
      ghost var done: set<TypeUrl> := {};
      RefreshNothing(st, k, nodes[n], s);
      while todo != {}
        invariant todo + done == tr.names.Keys
        invariant nodes == st.nodes[n := WithStream(st.nodes[n], s, k, PartlyRefreshed(st, k, tr, done))]
        decreases todo
      {
        var t :| t in todo;
        RefreshOneMore(st, View(), k, st.nodes[n], s, done, t);
        var _ := UpdateNodeStreamResources(k, n, t, s, tr.names[t]);
        todo, done := todo - {t}, done + {t};
      }
      assert done == tr.names.Keys;
      RefreshAllTypes(st, k, tr);
    }
  
    /** The middle loop: every stream of one node. */
    method RefreshNodeStreams(k: Kind, n: NodeId)
      requires n in nodes && forall s | s in nodes[n].resources :: nodes[n].resources[s].Of(k).names.Keys <= TypesOf(k)
      modifies this`nodes
      ensures nodes == old(nodes)[n := RefreshNode(old(View()), k, old(nodes)[n])]
    {
      hide RefreshTracked, TypesOf;
      ghost var st := View();
      var todo := nodes[n].resources.Keys;
      ghost var done: set<StreamId> := {};
      assert PartNode(st, k, nodes[n], {}) == nodes[n] by {
        assert PartNode(st, k, nodes[n], {}).resources == nodes[n].resources;
      }
      while todo != {}
        invariant todo + done == st.nodes[n].resources.Keys && todo !! done
        invariant nodes == st.nodes[n := PartNode(st, k, st.nodes[n], done)]
        decreases todo
      {
        var s := Pick(todo);
        RefreshDependsOnCache(st, View(), k, st.nodes[n].resources[s].Of(k));
        OneStreamMore(st, k, st.nodes[n], done, s);
        RefreshStream(k, n, s);
        todo, done := todo - {s}, done + {s};
      }
      assert done == st.nodes[n].resources.Keys;
      assert PartNode(st, k, st.nodes[n], done).resources == RefreshNode(st, k, st.nodes[n]).resources;
    }

    /** One node copies again and gets a new snapshot. */
    method RefreshNodeAndSnap(k: Kind, n: NodeId) returns (ghost order: seq<StreamId>)
      requires n in nodes
      requires forall s | s in nodes[n].resources ::
                 nodes[n].resources[s].Of(k).copies.Keys == TypesOf(k) == nodes[n].resources[s].Of(k).names.Keys
      modifies this`nodes, this`caches
      ensures var node := RefreshNode(old(View()), k, old(nodes)[n]);
              && IsEnumeration(order, old(nodes)[n].resources.Keys) && Within(order, node.resources.Keys)
              && View() == SnapNode(old(View()).(nodes := old(nodes)[n := node]), k, n, order)
    {
      hide RefreshNode, SnapNode, TypesOf;
      ghost var st := View();
      RefreshNodeStreams(k, n);
      RefreshHoldsOneHalf(st, k, st.nodes[n]);
      order := NodeSnapshot(k, n);
    }

    method RefreshNext(k: Kind, n: NodeId, ghost st: State, ghost prev: Items,
                       ghost visits: map<NodeId, seq<StreamId>>, ghost snaps: Cache)
      returns (ghost order: seq<StreamId>, ghost snap: Snapshot)
      requires HalfInv(st, k, prev, {}) && n in st.nodes && n !in visits
      requires RefreshedSoFar(st, View(), k, visits, snaps)
      modifies this`nodes, this`caches
      ensures RefreshedSoFar(st, View(), k, visits[n := order], snaps[n := snap])
    {
      hide RefreshedSoFar, HalfInv, RefreshNode, SnapNode, SnapshotOf, TypesOf, IsEnumeration, Within, Bump;
      ghost var cur := View();
      NotYetRefreshed(st, cur, k, visits, snaps, n);
      TracksOneHalf(st, k, prev, n);
      order := RefreshNodeAndSnap(k, n);
      RefreshOneNode(st, cur, k, visits, snaps, n, order);
      snap := SnapshotOf(Bump(RefreshNode(cur, k, cur.nodes[n]), k), k, order);
    }

    /** The outer loop: every node. */
    method RefreshAll(k: Kind, ghost prev: Items) returns (ghost visits: map<NodeId, seq<StreamId>>)
      requires HalfInv(View(), k, prev, {})
      modifies this`nodes, this`caches
      ensures OrdersFor(old(View()), visits)
      ensures View() == Refresh(old(View()), k, visits)
    {
      ghost var st := View();
      var todo := nodes.Keys;
      visits := map[];
      ghost var snaps: Cache := map[];
      hide RefreshedSoFar, HalfInv, Refresh, OrdersFor;
      NoEmptyNode(st, k, prev);
      NothingRefreshed(st, k);
      while todo != {}
        invariant todo + visits.Keys == st.nodes.Keys && todo !! visits.Keys
        invariant RefreshedSoFar(st, View(), k, visits, snaps)
        decreases todo
      {
        var n := Pick(todo);
        ghost var order, snap := RefreshNext(k, n, st, prev, visits, snaps);
        visits, snaps := visits[n := order], snaps[n := snap];
        todo := todo - {n};
      }
      AllRefreshed(st, View(), k, visits, snaps);
    }

    // -------------------------------------------------------------------
    // Snaps

    /** The full snapshot is replaced: the first half of both SnapServices and SnapEndpoints. */
    method PublishFullSnapshot(k: Kind, lists: Lists)
      modifies this`versions, this`caches
      ensures View() == Publish(old(View()), k, lists)
    {
      hide IndexByName, Itoa;
      versions := versions.With(k, Wrap32(versions.Of(k) + 1));
      caches := caches.With(k, caches.Of(k)[EMPTY_NODE_ID := NewSnapshot(Itoa(versions.Of(k)), lists)]);
    }

    method SyncDeltas(k: Kind, p: map<TypeUrl, Index>)
      requires p.Keys == SetOf(DeltaOrder(k))
      modifies this`deltas
      ensures deltas == old(deltas) + p
    {
      hide DeltaOrder, Overlay;
      var order := DeltaOrder(k);
      OverlayEnds(deltas, p);
      assert SetOf(order[..0]) == {};
      for i := 0 to |order|
        invariant SetOf(order[..i]) <= p.Keys && deltas == Overlay(old(deltas), p, SetOf(order[..i]))
      {
        OneMore(old(deltas), p, SetOf(order[..i]), order[i]);
        assert SetOf(order[..i + 1]) == SetOf(order[..i]) + {order[i]};
        deltas := deltas[order[i] := p[order[i]]];
      }
      assert order[..|order|] == order;
    }

    /** A whole snap: publish, sync the delta caches, refresh every node. */
    method Snap(k: Kind, p: Payload)
      requires Valid() && p.deltas.Keys == SetOf(DeltaOrder(k))
      modifies this
      ensures Valid() && streams == old(streams) && AllKept(old(View()), View())
      ensures View().Full(k) == NewSnapshot("", p.lists).items && deltas == old(deltas) + p.deltas
      ensures forall j: Kind | j != k :: View().Full(j) == old(View()).Full(j)
    {
      hide Settled, HalfInv, Publish, NewSnapshot, AllKept, DeltaOrder;
      ghost var st := View();
      PublishFullSnapshot(k, p.lists);
      SyncDeltas(k, p.deltas);
      ghost var st1 := View();
      PublishedHalfHolds(st, st1, k, p.lists);
      ghost var visits := RefreshAll(k, st.Full(k));
      SnapFacts(st, st1, k, p.lists, visits);
    }

    /** SnapServices: every node ends up served from the translation of the store. */
    method SnapServices(store: ST.ServiceMap)
      requires Valid()
      modifies this
      ensures Valid() && streams == old(streams) && AllKept(old(View()), View())
      ensures View().Full(Endpoints) == old(View()).Full(Endpoints)
      ensures ST.WellNamed(store) ==>
                && View().Full(Services) == ServiceItems(store, authority)
                && deltas == old(deltas) + ServiceDeltas(store)
    {
      hide ST.FullServiceSet, ST.DeltaSet, ST.WellNamed, AllKept, Settled, NewSnapshot, ServiceItems, ServiceDeltas;
      var p := ServicePayload(store);
      Snap(Services, p);
      if ST.WellNamed(store) {
        ServicesPublished(p, store, authority);
      }
    }

    method ServicePayload(store: ST.ServiceMap) returns (p: Payload)
      ensures FromServices(p, store, authority)
    {
      hide ST.ServiceSet, ST.DeltaSet;
      var cls, rds, lsnr := ST.ServicesToResources(store, "");
      if authority != "" {
        var xcls, xrds, xlsnr := ST.ServicesToResources(store, authority);
        SetOfConcat(cls, xcls);
        SetOfConcat(rds, xrds);
        SetOfConcat(lsnr, xlsnr);
        cls, rds, lsnr := cls + xcls, rds + xrds, lsnr + xlsnr;
      }
      var dcls, dvhds, drds := ST.ServicesToResourcesWithNames(store, "");
      p := Payload(map[ClusterType := cls, ListenerType := lsnr, RouteType := rds],
                   map[ClusterType := dcls, VirtualHostType := dvhds, RouteType := drds]);
    }

    method SnapEndpoints(store: ET.EndpointMap)
      requires Valid()
      modifies this
      ensures Valid() && streams == old(streams) && AllKept(old(View()), View())
      ensures View().Full(Services) == old(View()).Full(Services)
      ensures ET.WellNamed(store) ==>
                && View().Full(Endpoints) == EndpointItems(store, authority)
                && deltas == old(deltas)[EndpointType := DeltaEndpoints(store)]
    {
      hide ET.FullEndpointSet, ET.EndpointSet, ET.WellNamed, AllKept, Settled, NewSnapshot;
      var p := EndpointPayload(store);
      Snap(Endpoints, p);
      if ET.WellNamed(store) {
        EndpointsPublished(p, store, authority);
      }
    }

    method EndpointPayload(store: ET.EndpointMap) returns (p: Payload)
      ensures FromEndpoints(p, store, authority)
    {
      hide ET.EndpointSet, ET.WellNamed;
      var eds := ET.EndpointSlicesToClusterLoadAssignments(store, "");
      if authority != "" {
        var xeds := ET.EndpointSlicesToClusterLoadAssignments(store, authority);
        SetOfConcat(eds, xeds);
        eds := eds + xeds;
      }
      var deltas := ET.EndpointSlicesToClusterLoadAssignmentsWithNames(store, "");
      p := Payload(map[EndpointType := eds], map[EndpointType := deltas]);
    }

    // -------------------------------------------------------------------
    // Requests

    /**
      OnStreamRequest, admitted by the rate limiters. On success the stream has recorded the names of a
      duplicate-free request, whether or not the update was skipped, and no other stream is affected.
     */
    method OnStreamRequest(id: StreamId, r: Request) returns (result: Result<(), Error>)
      requires Valid()
      modifies this
      ensures Valid() && streams == old(streams) && OthersKept(old(View()), View(), id)
      ensures id !in old(streams) ==> result == Err(UnknownStream)
      ensures id !in old(streams) || r.node == "" ==> View() == old(View())
      ensures id in old(streams) && result.Err? ==> result.error == NoFullSnapshot
      ensures id in old(streams) ==>
                (result.Ok? <==> r.node == "" || KindOf(r.t).None? || localhost
                                 || "" in old(caches).Of(KindOf(r.t).value)
                                 || ResourcesMatch(RecordedNames(old(View()), r.node, id, r.t), r.names))
      ensures result.Ok? && r.node != "" ==>
                && Registered(View(), r.node, id)
                && (KindOf(r.t).Some? && NoDup(r.names) ==> SetOf(NamesAt(View(), r.node, id, r.t)) == SetOf(r.names))
      ensures forall k: Kind :: View().Full(k) == old(View()).Full(k)
    {
      hide Settled, Agrees, ResourcesMatch, Sections.AddOrUpdateNode, UpdateStream, OthersKept;
      ghost var st := View();
      if id !in streams {
        SameKept(st, id);
        return Err(UnknownStream);
      }
      if r.node == EMPTY_NODE_ID {
        SameKept(st, id);
        return Ok(());
      }
      AddOrUpdateNode(r.node, streams[id], id);
      ghost var st1 := View();
      Joined(st, r.node, st.streams[id], id, r.t);
      var need := NeedToUpdateSnapshot(r.node, r.t, id, r.names);
      match need
      case Err(e) =>
        return Err(e);
      case Ok(true) =>
        SettledAgrees(st1);
        var failed, order := UpdateStreamNodeResources(r.node, r.t, id, r.names, PerKind(st1.Full(Services), st1.Full(Endpoints)));
        Updated(st1, r.node, r.t, id, r.names, order);
        OthersKeptTwice(st, st1, View(), id);
        return if failed.Some? then Err(failed.value) else Ok(());
      case Ok(false) =>
        if KindOf(r.t).Some? && NoDup(r.names) {
          MatchNamesTheSame(NamesAt(st1, r.node, id, r.t), r.names);
        }
        return Ok(());
    }
  }

  function RecordedNames(st: State, n: NodeId, s: StreamId, t: TypeUrl): seq<string>
    requires KindOf(t).Some?
  {
    if Registered(st, n, s) then NamesAt(st, n, s, t) else []
  }

  lemma SameKept(st: State, s: StreamId)
    ensures OthersKept(st, st, s)
  {
  }

  lemma OthersKeptTwice(a: State, b: State, c: State, s: StreamId)
    requires OthersKept(a, b, s) && OthersKept(b, c, s)
    ensures OthersKept(a, c, s)
  {
  }

  lemma Joined(st: State, n: NodeId, address: string, s: StreamId, t: TypeUrl)
    requires Settled(st) && n != EMPTY_NODE_ID
    ensures var st' := Sections.AddOrUpdateNode(st, n, address, s);
            && Settled(st') && OthersKept(st, st', s) && Registered(st', n, s) && st'.streams == st.streams
            && (KindOf(t).Some? ==> NamesAt(st', n, s, t) == RecordedNames(st, n, s, t)
                                    && (CanServe(st', KindOf(t).value) <==> CanServe(st, KindOf(t).value)))
            && forall k: Kind :: st'.Full(k) == st.Full(k)
  {
    hide Settled, HalfInv, Sections.AddOrUpdateNode, OthersKept, Inhabited;
    SettledFacts(st, Services);
    SettledAdd(st, n, address, s);
    AddKeepsOthers(st, n, address, s);
    AddedCaches(st, n, address, s);
  }

  lemma AddedCaches(st: State, n: NodeId, address: string, s: StreamId)
    ensures var st' := Sections.AddOrUpdateNode(st, n, address, s);
            st'.localhost == st.localhost && st'.caches == st.caches
  {
    hide EmptyResources;
  }

  lemma Updated(st: State, n: NodeId, t: TypeUrl, s: StreamId, names: seq<string>, order: seq<StreamId>)
    requires Settled(st) && Registered(st, n, s) && KindOf(t).Some? && IsEnumeration(order, st.nodes[n].resources.Keys)
    ensures Within(order, st.nodes[n].resources.Keys)
    ensures var result := UpdateStream(st, n, t, s, names, order);
            && (result.Ok? <==> CanServe(st, KindOf(t).value))
            && (result.Ok? ==>
                  && Settled(result.value) && OthersKept(st, result.value, s) && Registered(result.value, n, s)
                  && NamesAt(result.value, n, s, t) == names && result.value.streams == st.streams
                  && forall k: Kind :: result.value.Full(k) == st.Full(k))
  {
    SettledFacts(st, Services);
    EnumerationWithin(order, st.nodes[n].resources.Keys);
    hide Settled, HalfInv;
    assert UpdateStream(st, n, t, s, names, order).Ok? <==> CanServe(st, KindOf(t).value);
    hide UpdateStream;
    if UpdateStream(st, n, t, s, names, order).Ok? {
      SettledUpdate(st, n, t, s, names, order);
      UpdateKeepsOthers(st, n, t, s, names, order);
      UpdateFull(st, Services, n, t, s, names, order);
      UpdateFull(st, Endpoints, n, t, s, names, order);
    }
  }

  lemma SetOfConcat<T>(a: seq<T>, b: seq<T>)
    ensures SetOf(a + b) == SetOf(a) + SetOf(b)
  {
  }

  lemma PublishedHalfHolds(st: State, st1: State, k: Kind, lists: Lists)
    requires Settled(st) && st1 == Publish(st, k, lists).(deltas := st1.deltas)
    ensures HalfInv(st1, k, st.Full(k), {})
  {
    SettledFacts(st, k);
    hide HalfInv, Settled, NewSnapshot;
    PublishHalf(st, k, lists);
    HalfFrame(Publish(st, k, lists), st1, k, st.Full(k), {});
  }

  /** A snap settles, keeps who is registered with which names, and leaves the other half alone. */
  lemma SnapFacts(st: State, st1: State, k: Kind, lists: Lists, visits: map<NodeId, seq<StreamId>>)
    requires Settled(st) && st1 == Publish(st, k, lists).(deltas := st1.deltas) && OrdersFor(st1, visits)
    ensures var st' := Refresh(st1, k, visits);
            && Settled(st') && AllKept(st, st') && st'.streams == st.streams && st'.deltas == st1.deltas
            && st'.Full(k) == NewSnapshot("", lists).items
            && forall j: Kind | j != k :: st'.Full(j) == st.Full(j)
  {
    hide HalfInv, NewSnapshot, Refresh, Settled, OrdersFor;
    var st0 := st.(deltas := st1.deltas);
    SettledFrame(st, st0);
    SettledFacts(st0, k);
    assert st1 == Publish(st0, k, lists);
    SettledSnap(st0, k, lists, visits);
    RefreshKeepsAll(st1, k, visits);
    RefreshRest(st1, k, visits);
    assert forall j: Kind | j != k :: st1.Full(j) == st.Full(j);
    SameNodesKept(st, st1, Refresh(st1, k, visits));
  }

  lemma SameNodesKept(st: State, st1: State, st': State)
    requires st1.nodes == st.nodes && AllKept(st1, st')
    ensures AllKept(st, st')
  {
    forall n, s
      ensures Registered(st', n, s) <==> Registered(st, n, s)
      ensures Registered(st, n, s) ==> NamesIn(st', n, s) == NamesIn(st, n, s)
    {
      assert Registered(st1, n, s) <==> Registered(st, n, s);
    }
  }

  // ---------------------------------------------------------------------
  // Facts about the loops

  function WithStream(node: Node, s: StreamId, k: Kind, tr: Tracked): Node
    requires s in node.resources
  {
    node.(resources := node.resources[s := node.resources[s].With(k, tr)])
  }

  ghost function PartlyRefreshed(st: State, k: Kind, tr: Tracked, done: set<TypeUrl>): Tracked
    requires done <= tr.names.Keys
  {
    if CanServe(st, k)
    then tr.(copies := Overlay(tr.copies, Recopied(st, k, tr), done))
    else tr
  }

  ghost function Recopied(st: State, k: Kind, tr: Tracked): Lists {
    map t | t in tr.names :: Copies(st.localhost, st.Full(k), t, tr.names[t])
  }

  /** `base`, replaced by `m` on the keys in `done`. */
  ghost function Overlay<K, V>(base: map<K, V>, m: map<K, V>, done: set<K>): map<K, V>
    requires done <= m.Keys
  {
    base + (map x | x in done :: m[x])
  }

  lemma OneMore<K, V>(base: map<K, V>, m: map<K, V>, done: set<K>, x: K)
    requires done + {x} <= m.Keys
    ensures Overlay(base, m, done + {x}) == Overlay(base, m, done)[x := m[x]]
  {
  }

  lemma OverlayEnds<K, V>(base: map<K, V>, m: map<K, V>)
    ensures Overlay(base, m, {}) == base && Overlay(base, m, m.Keys) == base + m
  {
  }

  lemma OverlayAll<K, V>(base: map<K, V>, m: map<K, V>)
    requires base.Keys == m.Keys
    ensures Overlay(base, m, base.Keys) == m
  {
  }

  lemma RefreshNothing(st: State, k: Kind, node: Node, s: StreamId)
    requires s in node.resources
    ensures WithStream(node, s, k, PartlyRefreshed(st, k, node.resources[s].Of(k), {})) == node
  {
    var tr := node.resources[s].Of(k);
    assert PartlyRefreshed(st, k, tr, {}) == tr;
    assert node.resources[s].With(k, tr) == node.resources[s];
    assert node.resources[s := node.resources[s]] == node.resources;
  }

  lemma RefreshOneMore(st: State, st': State, k: Kind, node: Node, s: StreamId, done: set<TypeUrl>, t: TypeUrl)
    requires s in node.resources && st'.localhost == st.localhost && st'.caches == st.caches
    requires done + {t} <= node.resources[s].Of(k).names.Keys
    ensures var tr := node.resources[s].Of(k);
            var partly := WithStream(node, s, k, PartlyRefreshed(st, k, tr, done));
            var more := WithStream(node, s, k, PartlyRefreshed(st, k, tr, done + {t}));
            && s in partly.resources && (CanServe(st', k) <==> CanServe(st, k))
            && (if CanServe(st, k) then more == Recorded(st', k, partly, t, s, tr.names[t]) else more == partly)
  {
    hide Copies, PartlyRefreshed;
    var tr := node.resources[s].Of(k);
    assert st'.Full(k) == st.Full(k);
    PartlyOneMore(st, k, tr, done, t);
    var a := PartlyRefreshed(st, k, tr, done);
    var b := Tracked(a.names[t := tr.names[t]], a.copies[t := Copies(st.localhost, st.Full(k), t, tr.names[t])]);
    SetTwice(node, s, k, a, b);
  }

  lemma PartlyOneMore(st: State, k: Kind, tr: Tracked, done: set<TypeUrl>, t: TypeUrl)
    requires done + {t} <= tr.names.Keys
    ensures var a := PartlyRefreshed(st, k, tr, done);
            PartlyRefreshed(st, k, tr, done + {t}) == if CanServe(st, k)
              then Tracked(a.names[t := tr.names[t]], a.copies[t := Copies(st.localhost, st.Full(k), t, tr.names[t])])
              else a
  {
    OneMore(tr.copies, Recopied(st, k, tr), done, t);
    hide Copies, CanServe;
    assert tr.names[t := tr.names[t]] == tr.names;
  }

  lemma SetTwice(node: Node, s: StreamId, k: Kind, a: Tracked, b: Tracked)
    requires s in node.resources
    ensures var node' := WithStream(node, s, k, a);
            && s in node'.resources && node'.resources[s].Of(k) == a
            && WithStream(node', s, k, b) == WithStream(node, s, k, b)
  {
    assert node.resources[s := node.resources[s].With(k, a)][s := node.resources[s].With(k, b)]
        == node.resources[s := node.resources[s].With(k, b)];
  }

  lemma RefreshAllTypes(st: State, k: Kind, tr: Tracked)
    ensures PartlyRefreshed(st, k, tr, tr.names.Keys) == RefreshTracked(st, k, tr)
  {
    hide Copies;
  }

  lemma SettledFrame(st: State, st': State)
    requires Settled(st) && st' == st.(streams := st'.streams, deltas := st'.deltas)
    ensures Settled(st')
  {
    forall k: Kind ensures HalfInv(st', k, st'.Full(k), {}) {
      SettledFacts(st, k);
      hide HalfInv;
      HalfFrame(st, st', k, st.Full(k), {});
      assert st'.Full(k) == st.Full(k);
    }
  }

  lemma SnapKeepsResources(st: State, k: Kind, n: NodeId, order: seq<StreamId>)
    requires n in st.nodes && Within(order, st.nodes[n].resources.Keys)
    ensures n in SnapNode(st, k, n, order).nodes && SnapNode(st, k, n, order).nodes[n].resources == st.nodes[n].resources
  {
    hide SnapshotOf;
  }

  lemma BothOrders(orders: PerKind<seq<StreamId>>, keys: set<StreamId>)
    requires IsEnumeration(orders.services, keys) && IsEnumeration(orders.endpoints, keys)
    ensures forall k: Kind :: IsEnumeration(orders.Of(k), keys) && Within(orders.Of(k), keys)
  {
  }

  /** Closing removes one stream from one node and leaves everything else, `before` being the state with it open. */
  lemma Deleted(before: State, st: State, n: NodeId, s: StreamId, orders: PerKind<seq<StreamId>>)
    requires Settled(st) && st == before.(streams := st.streams)
    requires n in st.nodes ==> forall k: Kind :: IsEnumeration(orders.Of(k), st.nodes[n].resources.Keys - {s})
    requires n in st.nodes ==> forall k: Kind :: Within(orders.Of(k), st.nodes[n].resources.Keys - {s})
    ensures var st' := DeleteStream(st, n, s, orders);
            && Settled(st') && OthersKept(before, st', s) && st'.deltas == st.deltas && st'.versions == st.versions
            && (forall m | Registered(st', m, s) :: m != n && Registered(before, m, s))
            && forall k: Kind :: st'.Full(k) == before.Full(k)
  {
    SettledFacts(st, Services);
    SettledDelete(st, n, s, orders);
    hide Settled, HalfInv;
    DeleteKeepsOthers(st, n, s, orders);
    forall k: Kind ensures DeleteStream(st, n, s, orders).Full(k) == before.Full(k) {
      DeleteFull(st, k, n, s, orders);
      assert st.Full(k) == before.Full(k);
    }
    DeletedRest(st, n, s, orders);
    hide DeleteStream;
    assert OthersKept(before, st, s);
    OthersKeptTwice(before, st, DeleteStream(st, n, s, orders), s);
  }

  lemma DeletedRest(st: State, n: NodeId, s: StreamId, orders: PerKind<seq<StreamId>>)
    requires n in st.nodes ==> forall k: Kind :: Within(orders.Of(k), st.nodes[n].resources.Keys - {s})
    ensures DeleteStream(st, n, s, orders).deltas == st.deltas && DeleteStream(st, n, s, orders).versions == st.versions
  {
    hide SnapshotOf;
  }

  /** Streams track the types of their half only. */
  lemma TracksOneHalf(st: State, k: Kind, prev: Items, n: NodeId)
    requires HalfInv(st, k, prev, {}) && n in st.nodes
    ensures forall s | s in st.nodes[n].resources ::
              st.nodes[n].resources[s].Of(k).copies.Keys == TypesOf(k) == st.nodes[n].resources[s].Of(k).names.Keys
  {
    hide Copies, EntryOk, TypesOf;
    forall s | s in st.nodes[n].resources
      ensures st.nodes[n].resources[s].Of(k).copies.Keys == TypesOf(k) == st.nodes[n].resources[s].Of(k).names.Keys
    {
      assert TrackedOk(st.localhost, k, st.nodes[n].Half(k)[s], prev, st.Full(k));
    }
  }

  lemma HoldsOneHalf(st: State, k: Kind, prev: PerKind<Items>, n: NodeId)
    requires Agrees(st, prev) && n in st.nodes
    ensures forall s | s in st.nodes[n].resources :: st.nodes[n].resources[s].Of(k).copies.Keys <= TypesOf(k)
  {
    hide HalfInv;
    TracksOneHalf(st, k, prev.Of(k), n);
  }

  lemma RecordedHoldsOneHalf(st: State, k: Kind, node: Node, t: TypeUrl, s: StreamId, names: seq<string>)
    requires s in node.resources && KindOf(t) == Some(k)
    requires forall x | x in node.resources :: node.resources[x].Of(k).copies.Keys <= TypesOf(k)
    ensures var node' := Recorded(st, k, node, t, s, names);
            forall x | x in node'.resources :: node'.resources[x].Of(k).copies.Keys <= TypesOf(k)
  {
    hide Copies, TypesOf;
  }

  /** The names a full snapshot has. */
  ghost function NamedIn(full: Index): string -> bool {
    (x: string) => x in full
  }

  lemma {:induction false} CopiesInOrder(full: Items, t: TypeUrl, names: seq<string>)
    ensures var found, kept := Copies(false, full, t, names), Filter(NamedIn(ItemsOf(full, t)), names);
            |found| == |kept| && forall i | 0 <= i < |kept| :: kept[i] in ItemsOf(full, t) && found[i] == ItemsOf(full, t)[kept[i]]
  {
    if names != [] {
      CopiesInOrder(full, t, names[..|names| - 1]);
    }
  }

  lemma {:induction false} LocalhostIgnoresFull(full: Items, t: TypeUrl, names: seq<string>)
    ensures Copies(true, full, t, names) == Copies(true, map[], t, names)
  {
    hide Dummy;
    if names != [] {
      LocalhostIgnoresFull(full, t, names[..|names| - 1]);
    }
  }

  lemma RefreshDependsOnCache(st: State, st': State, k: Kind, tr: Tracked)
    requires st'.localhost == st.localhost && st'.Entry(k, EMPTY_NODE_ID) == st.Entry(k, EMPTY_NODE_ID)
    ensures RefreshTracked(st', k, tr) == RefreshTracked(st, k, tr)
  {
    hide Copies;
    assert st'.Full(k) == st.Full(k);
  }

  /** A node some of whose streams have been refreshed. */
  ghost function PartNode(st: State, k: Kind, node: Node, done: set<StreamId>): Node {
    node.(resources := map s | s in node.resources ::
            if s in done then node.resources[s].With(k, RefreshTracked(st, k, node.resources[s].Of(k)))
            else node.resources[s])
  }

  lemma OneStreamMore(st: State, k: Kind, node: Node, done: set<StreamId>, s: StreamId)
    requires s in node.resources && s !in done
    ensures var part := PartNode(st, k, node, done);
            && s in part.resources && part.resources[s] == node.resources[s]
            && WithStream(part, s, k, RefreshTracked(st, k, node.resources[s].Of(k))) == PartNode(st, k, node, done + {s})
  {
    hide RefreshTracked;
    var part := PartNode(st, k, node, done);
    assert WithStream(part, s, k, RefreshTracked(st, k, node.resources[s].Of(k))).resources
        == PartNode(st, k, node, done + {s}).resources;
  }

  lemma RefreshHoldsOneHalf(st: State, k: Kind, node: Node)
    requires forall s | s in node.resources ::
               node.resources[s].Of(k).copies.Keys == TypesOf(k) == node.resources[s].Of(k).names.Keys
    ensures var node' := RefreshNode(st, k, node);
            node'.resources.Keys == node.resources.Keys
            && forall s | s in node'.resources :: node'.resources[s].Of(k).copies.Keys <= TypesOf(k)
  {
    hide Copies, TypesOf;
  }

  ghost predicate Visited(before: Node, after: Node, k: Kind, order: seq<StreamId>, snap: Snapshot) {
    && IsEnumeration(order, before.resources.Keys)
    && Within(order, after.Half(k).Keys)
    && snap == SnapshotOf(after, k, order)
  }

  ghost predicate AllVisited(before: map<NodeId, Node>, after: map<NodeId, Node>, k: Kind,
                             visits: map<NodeId, seq<StreamId>>, snaps: Cache) {
    && visits.Keys == snaps.Keys && visits.Keys <= before.Keys && visits.Keys <= after.Keys
    && forall n | n in visits :: Visited(before[n], after[n], k, visits[n], snaps[n])
  }

  /** A refresh that has dealt with the nodes in `visits`, giving them the snapshots `snaps`. */
  ghost predicate RefreshedSoFar(st: State, cur: State, k: Kind, visits: map<NodeId, seq<StreamId>>, snaps: Cache) {
    && EMPTY_NODE_ID !in st.nodes
    && AllVisited(st.nodes, RefreshedNodes(st, k), k, visits, snaps)
    && cur == st.(nodes := Overlay(st.nodes, RefreshedNodes(st, k), visits.Keys),
                  caches := st.caches.With(k, st.caches.Of(k) + snaps))
  }

  lemma NothingRefreshed(st: State, k: Kind)
    requires EMPTY_NODE_ID !in st.nodes
    ensures RefreshedSoFar(st, st, k, map[], map[])
  {
    assert st.nodes + map[] == st.nodes && st.caches.Of(k) + map[] == st.caches.Of(k);
    assert st.caches.With(k, st.caches.Of(k)) == st.caches;
  }

  lemma NotYetRefreshed(st: State, cur: State, k: Kind, visits: map<NodeId, seq<StreamId>>, snaps: Cache, n: NodeId)
    requires RefreshedSoFar(st, cur, k, visits, snaps) && n in st.nodes && n !in visits
    ensures n in cur.nodes && cur.nodes[n] == st.nodes[n] && cur.localhost == st.localhost
    ensures RefreshNode(cur, k, st.nodes[n]) == RefreshNode(st, k, st.nodes[n])
  {
    hide RefreshTracked, RefreshedNodes;
    assert cur.Entry(k, EMPTY_NODE_ID) == st.Entry(k, EMPTY_NODE_ID);
    forall tr: Tracked ensures RefreshTracked(cur, k, tr) == RefreshTracked(st, k, tr) {
      RefreshDependsOnCache(st, cur, k, tr);
    }
    var a, b := RefreshNode(cur, k, st.nodes[n]).resources, RefreshNode(st, k, st.nodes[n]).resources;
    forall s | s in a ensures s in b && a[s] == b[s] {
    }
    assert a == b;
  }

  lemma RefreshOneNode(st: State, cur: State, k: Kind, visits: map<NodeId, seq<StreamId>>, snaps: Cache,
                       n: NodeId, order: seq<StreamId>)
    requires RefreshedSoFar(st, cur, k, visits, snaps) && n in st.nodes && n !in visits
    requires n in cur.nodes && RefreshNode(cur, k, cur.nodes[n]) == RefreshNode(st, k, st.nodes[n])
    requires IsEnumeration(order, st.nodes[n].resources.Keys)
    requires Within(order, RefreshNode(st, k, st.nodes[n]).resources.Keys)
    ensures var node := RefreshNode(cur, k, cur.nodes[n]);
            var next := SnapNode(cur.(nodes := cur.nodes[n := node]), k, n, order);
            && Within(order, Bump(node, k).Half(k).Keys)
            && RefreshedSoFar(st, next, k, visits[n := order], snaps[n := SnapshotOf(Bump(node, k), k, order)])
  {
    hide SnapshotOf, RefreshNode, Overlay, IsEnumeration;
    var after := RefreshedNodes(st, k);
    var node := Bump(RefreshNode(cur, k, cur.nodes[n]), k);
    var snap := SnapshotOf(node, k, order);
    assert after[n] == node && Visited(st.nodes[n], node, k, order, snap);
    ReplaceAndSnap(cur, k, n, RefreshNode(cur, k, cur.nodes[n]), order);
    hide RefreshedNodes, Visited, Bump, SnapNode;
    var next := SnapNode(cur.(nodes := cur.nodes[n := RefreshNode(cur, k, cur.nodes[n])]), k, n, order);
    OneNodeMore(st, cur, next, k, visits, snaps, n, order, snap);
  }

  lemma ReplaceAndSnap(cur: State, k: Kind, n: NodeId, node: Node, order: seq<StreamId>)
    requires Within(order, node.resources.Keys)
    ensures Within(order, Bump(node, k).Half(k).Keys)
    ensures SnapNode(cur.(nodes := cur.nodes[n := node]), k, n, order)
         == cur.(nodes := cur.nodes[n := Bump(node, k)],
                 caches := cur.caches.With(k, cur.caches.Of(k)[n := SnapshotOf(Bump(node, k), k, order)]))
  {
    hide SnapshotOf;
    assert cur.nodes[n := node][n := Bump(node, k)] == cur.nodes[n := Bump(node, k)];
  }

  lemma OneNodeMore(st: State, cur: State, next: State, k: Kind, visits: map<NodeId, seq<StreamId>>, snaps: Cache,
                    n: NodeId, order: seq<StreamId>, snap: Snapshot)
    requires RefreshedSoFar(st, cur, k, visits, snaps) && n in st.nodes && n in RefreshedNodes(st, k)
    requires Visited(st.nodes[n], RefreshedNodes(st, k)[n], k, order, snap)
    requires next == cur.(nodes := cur.nodes[n := RefreshedNodes(st, k)[n]],
                          caches := cur.caches.With(k, cur.caches.Of(k)[n := snap]))
    ensures RefreshedSoFar(st, next, k, visits[n := order], snaps[n := snap])
  {
    var after := RefreshedNodes(st, k);
    hide RefreshedNodes, Visited, Overlay;
    OneMore(st.nodes, after, visits.Keys, n);
    assert visits[n := order].Keys == visits.Keys + {n};
    assert (st.caches.Of(k) + snaps)[n := snap] == st.caches.Of(k) + snaps[n := snap];
    OneMoreVisited(st.nodes, after, k, visits, snaps, n, order, snap);
    hide AllVisited;
  }

  lemma OneMoreVisited(before: map<NodeId, Node>, after: map<NodeId, Node>, k: Kind,
                       visits: map<NodeId, seq<StreamId>>, snaps: Cache, n: NodeId, order: seq<StreamId>, snap: Snapshot)
    requires AllVisited(before, after, k, visits, snaps) && n in before && n in after
    requires Visited(before[n], after[n], k, order, snap)
    ensures AllVisited(before, after, k, visits[n := order], snaps[n := snap])
  {
    hide Visited;
  }

  lemma AllRefreshed(st: State, cur: State, k: Kind, visits: map<NodeId, seq<StreamId>>, snaps: Cache)
    requires RefreshedSoFar(st, cur, k, visits, snaps) && visits.Keys == st.nodes.Keys
    ensures OrdersFor(st, visits) && cur == Refresh(st, k, visits)
  {
    var after := RefreshedNodes(st, k);
    OverlayAll(st.nodes, after);
    hide SnapshotOf, RefreshedNodes, Overlay, IsEnumeration, Within;
    assert OrdersFor(st, visits);
    AllSnapped(st, k, visits, snaps);
    hide RefreshedSnapshots, AllVisited, OrdersFor;
  }

  lemma AllSnapped(st: State, k: Kind, visits: map<NodeId, seq<StreamId>>, snaps: Cache)
    requires AllVisited(st.nodes, RefreshedNodes(st, k), k, visits, snaps) && visits.Keys == st.nodes.Keys
    requires OrdersFor(st, visits)
    ensures snaps == RefreshedSnapshots(st, k, visits)
  {
    hide SnapshotOf, RefreshedNodes, IsEnumeration, Within, OrdersFor;
    var all := RefreshedSnapshots(st, k, visits);
    assert all.Keys == snaps.Keys;
    forall n | n in snaps ensures snaps[n] == all[n] {
      assert Visited(st.nodes[n], RefreshedNodes(st, k)[n], k, visits[n], snaps[n]);
    }
  }
}
