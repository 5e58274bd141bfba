/**
  What every atomic section keeps: each stream holds copies taken from the current full snapshot or the
  one it replaced, and each node's snapshot indexes exactly what its streams hold.
 */
module Agreement {
  import opened Collections
  import opened Names
  import opened Resources
  import opened Sections

  ghost predicate ItemsOk(items: Items) {
    forall t, x | t in items && x in items[t] :: items[t][x].Name() == x
  }

  /** The copies of a stream were all found, type by type, in one of two full snapshots. */
  ghost predicate TrackedOk(localhost: bool, k: Kind, tr: Tracked, prev: Items, cur: Items) {
    && tr.names.Keys == TypesOf(k) && tr.copies.Keys == TypesOf(k)
    && forall t | t in TypesOf(k) ::
         || tr.copies[t] == Copies(localhost, prev, t, tr.names[t])
         || tr.copies[t] == Copies(localhost, cur, t, tr.names[t])
  }

  ghost predicate StreamsOk(localhost: bool, k: Kind, streams: map<StreamId, Tracked>, prev: Items, cur: Items) {
    forall s | s in streams :: TrackedOk(localhost, k, streams[s], prev, cur)
  }

  /** Every resource some stream holds a copy of. */
  ghost function Held(streams: map<StreamId, Tracked>, t: TypeUrl): set<Resource> {
    set s, r | s in streams && r in streams[s].CopiesOf(t) :: r
  }

  /** A snapshot built without the types nothing is held of. */
  ghost predicate NoEmptyTypes(snap: Snapshot) {
    forall t | t in snap.items :: snap.items[t] != map[]
  }

  ghost predicate EntryOk(k: Kind, streams: map<StreamId, Tracked>, entry: Option<Snapshot>) {
    && (forall t | t in TypesOf(k) :: IsIndexOf(Contents(entry, t), Held(streams, t)))
    && (entry.Some? ==> NoEmptyTypes(entry.value))
  }

  /** One half; the snapshots of the `stale` nodes are about to be replaced. */
  ghost predicate HalfInv(st: State, k: Kind, prev: Items, stale: set<NodeId>) {
    && EMPTY_NODE_ID !in st.nodes
    && ItemsOk(prev) && ItemsOk(st.Full(k))
    && st.caches.Of(k).Keys <= st.nodes.Keys + {EMPTY_NODE_ID}
    && (forall n | n in st.nodes ::
          && StreamsOk(st.localhost, k, st.nodes[n].Half(k), prev, st.Full(k))
          && (n !in stale ==> EntryOk(k, st.nodes[n].Half(k), st.Entry(k, n))))
  }

  /** Both halves, at any moment: `prev` are the full snapshots that were replaced last. */
  ghost predicate Agrees(st: State, prev: PerKind<Items>) {
    forall k: Kind :: HalfInv(st, k, prev.Of(k), {})
  }

  /** A snapshotter between snaps. */
  ghost predicate Settled(st: State) {
    Inhabited(st) && forall k: Kind :: HalfInv(st, k, st.Full(k), {})
  }

  // ---------------------------------------------------------------------
  // Copies and aggregates

  lemma FindName(localhost: bool, full: Items, t: TypeUrl, name: string)
    requires ItemsOk(full)
    ensures Find(localhost, full, t, name).Some? ==> Find(localhost, full, t, name).value.Name() == name
  {
  }

  lemma {:induction false} CopiesMembers(localhost: bool, full: Items, t: TypeUrl, names: seq<string>)
    ensures forall r | r in Copies(localhost, full, t, names) :: exists x | x in names :: Find(localhost, full, t, x) == Some(r)
    ensures forall x | x in names && Find(localhost, full, t, x).Some? ::
              Find(localhost, full, t, x).value in Copies(localhost, full, t, names)
  {
    hide Find;
    if names != [] {
      CopiesMembers(localhost, full, t, names[..|names| - 1]);
      assert names == names[..|names| - 1] + [names[|names| - 1]];
    }
  }

  lemma {:induction false} AggregatedMembers(streams: map<StreamId, Tracked>, order: seq<StreamId>, t: TypeUrl)
    requires Within(order, streams.Keys)
    ensures SetOf(Aggregated(streams, order, t)) == set s, r | s in order && r in streams[s].CopiesOf(t) :: r
  {
    if order != [] {
      var init, last := order[..|order| - 1], order[|order| - 1];
      AggregatedMembers(streams, init, t);
      assert order == init + [last];
      var a, b := Aggregated(streams, init, t), streams[last].CopiesOf(t);
      assert SetOf(a + b) == SetOf(a) + SetOf(b);
    }
  }

  lemma AggregatedHeld(streams: map<StreamId, Tracked>, order: seq<StreamId>, t: TypeUrl)
    requires IsEnumeration(order, streams.Keys)
    ensures SetOf(Aggregated(streams, order, t)) == Held(streams, t)
  {
    AggregatedMembers(streams, order, t);
  }

  /** Whatever order the streams are visited in, a node snapshot indexes exactly what they hold. */
  lemma SnapshotIndexesHeld(node: Node, k: Kind, order: seq<StreamId>)
    requires IsEnumeration(order, node.Half(k).Keys)
    ensures EntryOk(k, node.Half(k), Some(SnapshotOf(node, k, order)))
  {
    hide SnapshotOf, Aggregated, Held, IndexByName, TypesOf;
    var streams := node.Half(k);
    forall t | t in TypesOf(k) ensures IsIndexOf(SnapshotOf(node, k, order).Resources(t), Held(streams, t)) {
      SnapshotResources(node, k, order, t);
      AggregatedHeld(streams, order, t);
      IndexSound(Aggregated(streams, order, t));
    }
    SnapshotTypes(node, k, order);
  }

  lemma SnapshotTypes(node: Node, k: Kind, order: seq<StreamId>)
    requires Within(order, node.Half(k).Keys)
    ensures NoEmptyTypes(SnapshotOf(node, k, order))
  {
    hide Aggregated, IndexByName, TypesOf, Itoa;
    var lists := Aggregate(k, node.Half(k), order);
    forall t | t in lists ensures IndexByName(lists[t]) != map[] {
      IndexSound(lists[t]);
      assert lists[t][0] in lists[t];
    }
  }

  lemma SnapshotResources(node: Node, k: Kind, order: seq<StreamId>, t: TypeUrl)
    requires Within(order, node.Half(k).Keys) && t in TypesOf(k)
    ensures SnapshotOf(node, k, order).Resources(t) == IndexByName(Aggregated(node.Half(k), order, t))
  {
    hide Aggregated, TypesOf, Itoa;
  }

  // ---------------------------------------------------------------------
  // Quiescence

  /** The names the streams of a node have recorded for type `t`. */
  ghost function Requested(streams: map<StreamId, Tracked>, t: TypeUrl): set<string> {
    set s, x | s in streams && x in streams[s].NamesOf(t) :: x
  }

  /** The full snapshot restricted to `names`; in localhost mode, a dummy for every name. */
  ghost function Restriction(localhost: bool, full: Items, t: TypeUrl, names: set<string>): Index {
    map x | x in names && Find(localhost, full, t, x).Some? :: Find(localhost, full, t, x).value
  }

  lemma RestrictionPlain(full: Items, t: TypeUrl, names: set<string>)
    ensures Restriction(false, full, t, names) == map x | x in names && x in ItemsOf(full, t) :: ItemsOf(full, t)[x]
  {
  }

  ghost predicate FoundIn(rs: set<Resource>, localhost: bool, full: Items, t: TypeUrl, names: set<string>) {
    && (forall r | r in rs :: exists x | x in names :: Find(localhost, full, t, x) == Some(r))
    && (forall x | x in names && Find(localhost, full, t, x).Some? :: Find(localhost, full, t, x).value in rs)
  }

  lemma HeldIsFound(localhost: bool, k: Kind, streams: map<StreamId, Tracked>, t: TypeUrl, full: Items)
    requires t in TypesOf(k) && StreamsOk(localhost, k, streams, full, full)
    ensures FoundIn(Held(streams, t), localhost, full, t, Requested(streams, t))
  {
    hide Find, Copies, TypesOf;
    var names := Requested(streams, t);
    forall r | r in Held(streams, t) ensures exists x | x in names :: Find(localhost, full, t, x) == Some(r) {
      var s :| s in streams && r in streams[s].CopiesOf(t);
      CopiesMembers(localhost, full, t, streams[s].NamesOf(t));
      var x :| x in streams[s].NamesOf(t) && Find(localhost, full, t, x) == Some(r);
      assert x in names;
    }
    forall x | x in names && Find(localhost, full, t, x).Some?
      ensures Find(localhost, full, t, x).value in Held(streams, t)
    {
      var s :| s in streams && x in streams[s].NamesOf(t);
      CopiesMembers(localhost, full, t, streams[s].NamesOf(t));
      assert Find(localhost, full, t, x).value in streams[s].CopiesOf(t);
    }
  }

  lemma FoundByName(rs: set<Resource>, localhost: bool, full: Items, t: TypeUrl, names: set<string>)
    requires FoundIn(rs, localhost, full, t, names) && ItemsOk(full)
    ensures Distinct(rs) && ByName(rs) == Restriction(localhost, full, t, names)
  {
    hide Find;
    forall x: string ensures Find(localhost, full, t, x).Some? ==> Find(localhost, full, t, x).value.Name() == x {
      FindName(localhost, full, t, x);
    }
    assert Distinct(rs);
    var a, b := ByName(rs), Restriction(localhost, full, t, names);
    forall x | x in a ensures x in b && b[x] == a[x] {
      assert a[x] in rs;
    }
    forall x | x in b ensures x in a {
      assert b[x] in rs;
    }
  }

  /** Once all copies come from the current full snapshot, a node serves its restriction to the recorded names. */
  lemma ServedIsRestriction(st: State, k: Kind, n: NodeId, t: TypeUrl)
    requires HalfInv(st, k, st.Full(k), {})
    requires n in st.nodes && t in TypesOf(k)
    ensures st.Served(k, n, t) == Restriction(st.localhost, st.Full(k), t, Requested(st.nodes[n].Half(k), t))
  {
    hide StreamsOk, FoundIn, ItemsOk, Restriction, Requested, Held, Distinct, IsIndexOf;
    var full, streams := st.Full(k), st.nodes[n].Half(k);
    HeldIsFound(st.localhost, k, streams, t, full);
    FoundByName(Held(streams, t), st.localhost, full, t, Requested(streams, t));
    IndexOfDistinct(st.Served(k, n, t), Held(streams, t));
  }

  /**
    Once all copies come from one full snapshot, indexing what the streams hold does not depend on the
    order they are visited in, although several streams may hold copies of the same name.
   */
  lemma AggregationIsOrderFree(st: State, k: Kind, n: NodeId, t: TypeUrl, o: seq<StreamId>, o': seq<StreamId>)
    requires HalfInv(st, k, st.Full(k), {}) && n in st.nodes && t in TypesOf(k)
    requires IsEnumeration(o, st.nodes[n].Half(k).Keys) && IsEnumeration(o', st.nodes[n].Half(k).Keys)
    ensures IndexByName(Aggregated(st.nodes[n].Half(k), o, t)) == IndexByName(Aggregated(st.nodes[n].Half(k), o', t))
  {
    var full, streams := st.Full(k), st.nodes[n].Half(k);
    HeldIsFound(st.localhost, k, streams, t, full);
    FoundByName(Held(streams, t), st.localhost, full, t, Requested(streams, t));
    AggregatedHeld(streams, o, t);
    AggregatedHeld(streams, o', t);
    hide *;
    IndexIsByName(Aggregated(streams, o, t));
    IndexIsByName(Aggregated(streams, o', t));
  }

  // ---------------------------------------------------------------------
  // Every section keeps the invariant, one half at a time

  lemma InitOk(localhost: bool)
    ensures Settled(InitState(localhost))
  {
  }

  /** A section that touches neither what the streams track in a half nor its cache keeps that half. */
  lemma HalfFrame(st: State, st': State, k: Kind, prev: Items, stale: set<NodeId>)
    requires HalfInv(st, k, prev, stale)
    requires st'.localhost == st.localhost && st'.caches.Of(k) == st.caches.Of(k) && st'.nodes.Keys == st.nodes.Keys
    requires forall n | n in st.nodes :: st'.nodes[n].Half(k) == st.nodes[n].Half(k)
    ensures HalfInv(st', k, prev, stale)
  {
    hide StreamsOk, EntryOk, ItemsOk;
    assert st'.Full(k) == st.Full(k);
    assert forall n :: st'.Entry(k, n) == st.Entry(k, n);
  }

  /** Replacing one node, and at most its own snapshot, keeps a half if the new node is fine. */
  lemma ReplaceNode(st: State, st': State, k: Kind, prev: Items, n: NodeId, node: Node, stale: set<NodeId>)
    requires HalfInv(st, k, prev, stale) && n != EMPTY_NODE_ID
    requires st'.localhost == st.localhost && st'.nodes == st.nodes[n := node]
    requires forall m | m != n :: st'.Entry(k, m) == st.Entry(k, m)
    requires StreamsOk(st.localhost, k, node.Half(k), prev, st.Full(k))
    ensures HalfInv(st', k, prev, stale + {n})
    ensures EntryOk(k, node.Half(k), st'.Entry(k, n)) ==> HalfInv(st', k, prev, stale - {n})
  {
    hide ItemsOk, EntryOk, StreamsOk;
    assert st'.Full(k) == st.Full(k);
    forall m | m in st'.caches.Of(k) ensures m in st'.nodes.Keys + {EMPTY_NODE_ID} {
      assert m != n ==> st.Entry(k, m).Some?;
    }
  }

  lemma EmptyStreamHolds(k: Kind, streams: map<StreamId, Tracked>, s: StreamId, t: TypeUrl)
    requires s !in streams
    ensures Held(streams[s := EmptyTracked(k)], t) == Held(streams, t)
  {
    var grown := streams[s := EmptyTracked(k)];
    assert grown[s].CopiesOf(t) == [];
    assert forall x | x in streams :: grown[x] == streams[x];
  }

  lemma EmptyTrackedOk(localhost: bool, k: Kind, prev: Items, cur: Items)
    ensures TrackedOk(localhost, k, EmptyTracked(k), prev, cur)
  {
  }

  lemma EmptyStreamOk(localhost: bool, k: Kind, streams: map<StreamId, Tracked>, s: StreamId, prev: Items, cur: Items,
                      entry: Option<Snapshot>)
    requires s !in streams && StreamsOk(localhost, k, streams, prev, cur) && EntryOk(k, streams, entry)
    ensures StreamsOk(localhost, k, streams[s := EmptyTracked(k)], prev, cur)
    ensures EntryOk(k, streams[s := EmptyTracked(k)], entry)
  {
    hide TrackedOk, Held, EmptyTracked, IsIndexOf, TypesOf;
    EmptyTrackedOk(localhost, k, prev, cur);
    forall t ensures Held(streams[s := EmptyTracked(k)], t) == Held(streams, t) {
      EmptyStreamHolds(k, streams, s, t);
    }
  }

  /** A node that gains an empty stream, or appears with one, serves what it served. */
  lemma AddStreamHalf(st: State, k: Kind, prev: Items, n: NodeId, node: Node, s: StreamId)
    requires HalfInv(st, k, prev, {}) && n != EMPTY_NODE_ID && s !in node.resources
    requires if n in st.nodes then node == st.nodes[n] else node.resources == map[]
    ensures HalfInv(st.(nodes := st.nodes[n := node.(resources := node.resources[s := EmptyResources()])]), k, prev, {})
  {
    var node' := node.(resources := node.resources[s := EmptyResources()]);
    var st' := st.(nodes := st.nodes[n := node']);
    hide StreamsOk, EntryOk, ItemsOk, EmptyTracked;
    if n !in st.nodes {
      NoStreamsOk(st.localhost, k, prev, st.Full(k));
      assert node.Half(k) == map[] && st.Entry(k, n) == None;
    }
    assert StreamsOk(st.localhost, k, node.Half(k), prev, st.Full(k)) && EntryOk(k, node.Half(k), st.Entry(k, n));
    hide HalfInv;
    EmptyStreamOk(st.localhost, k, node.Half(k), s, prev, st.Full(k), st.Entry(k, n));
    assert EmptyResources().Of(k) == EmptyTracked(k);
    assert node'.Half(k) == node.Half(k)[s := EmptyTracked(k)];
    assert st'.Entry(k, n) == st.Entry(k, n) && {} - {n} == {};
    ReplaceNode(st, st', k, prev, n, node', {});
  }

  lemma AddHalf(st: State, k: Kind, prev: Items, n: NodeId, address: string, s: StreamId)
    requires HalfInv(st, k, prev, {})
    ensures HalfInv(AddOrUpdateNode(st, n, address, s), k, prev, {})
  {
    hide HalfInv, EmptyResources;
    if n != EMPTY_NODE_ID && n !in st.nodes {
      AddStreamHalf(st, k, prev, n, Node(address, map[], PerKind(0, 0)), s);
    } else if n != EMPTY_NODE_ID && s !in st.nodes[n].resources {
      AddStreamHalf(st, k, prev, n, st.nodes[n], s);
    }
  }

  lemma NoStreamsOk(localhost: bool, k: Kind, prev: Items, cur: Items)
    ensures StreamsOk(localhost, k, map[], prev, cur) && EntryOk(k, map[], None)
  {
  }

  /** Snapping a node brings its stale half up to date. */
  lemma SnapHalf(st: State, k: Kind, prev: Items, n: NodeId, order: seq<StreamId>)
    requires n in st.nodes && HalfInv(st, k, prev, {n})
    requires IsEnumeration(order, st.nodes[n].resources.Keys)
    ensures HalfInv(SnapNode(st, k, n, order), k, prev, {})
  {
    var st' := SnapNode(st, k, n, order);
    var node := Bump(st.nodes[n], k);
    SnapshotIndexesHeld(node, k, order);
    hide StreamsOk, EntryOk, ItemsOk, SnapshotOf;
    assert node.Half(k) == st.nodes[n].Half(k);
    assert StreamsOk(st.localhost, k, node.Half(k), prev, st.Full(k)) && n != EMPTY_NODE_ID;
    hide HalfInv;
    assert st'.Entry(k, n) == Some(SnapshotOf(node, k, order)) && {n} - {n} == {};
    ReplaceNode(st, st', k, prev, n, node, {n});
  }

  lemma SnapOtherHalf(st: State, k: Kind, prev: Items, n: NodeId, order: seq<StreamId>, j: Kind, stale: set<NodeId>)
    requires n in st.nodes && Within(order, st.nodes[n].resources.Keys)
    requires j != k && HalfInv(st, j, prev, stale)
    ensures HalfInv(SnapNode(st, k, n, order), j, prev, stale)
  {
    hide HalfInv, SnapshotOf;
    var st' := SnapNode(st, k, n, order);
    assert forall m | m in st.nodes :: st'.nodes[m].Half(j) == st.nodes[m].Half(j);
    HalfFrame(st, st', j, prev, stale);
  }

  lemma RecordTracked(localhost: bool, k: Kind, tr: Tracked, prev: Items, cur: Items, t: TypeUrl, names: seq<string>)
    requires t in TypesOf(k) && TrackedOk(localhost, k, tr, prev, cur)
    ensures TrackedOk(localhost, k, Tracked(tr.names[t := names], tr.copies[t := Copies(localhost, cur, t, names)]), prev, cur)
  {
    hide Copies, TypesOf;
  }

  lemma RecordedStreamsOk(st: State, k: Kind, node: Node, prev: Items, t: TypeUrl, s: StreamId, names: seq<string>)
    requires s in node.resources && t in TypesOf(k) && StreamsOk(st.localhost, k, node.Half(k), prev, st.Full(k))
    ensures StreamsOk(st.localhost, k, Recorded(st, k, node, t, s, names).Half(k), prev, st.Full(k))
  {
    hide Copies, TrackedOk;
    var node' := Recorded(st, k, node, t, s, names);
    RecordTracked(st.localhost, k, node.Half(k)[s], prev, st.Full(k), t, names);
    assert forall x | x in node.resources && x != s :: node'.Half(k)[x] == node.Half(k)[x];
  }

  /** Recording new names of a stream makes the node's snapshot stale, and keeps everything else. */
  lemma RecordHalf(st: State, k: Kind, prev: Items, n: NodeId, t: TypeUrl, s: StreamId, names: seq<string>)
    requires n in st.nodes && s in st.nodes[n].resources && t in TypesOf(k) && HalfInv(st, k, prev, {})
    ensures HalfInv(st.(nodes := st.nodes[n := Recorded(st, k, st.nodes[n], t, s, names)]), k, prev, {n})
  {
    hide StreamsOk, EntryOk, ItemsOk, Recorded;
    RecordedStreamsOk(st, k, st.nodes[n], prev, t, s, names);
    var node' := Recorded(st, k, st.nodes[n], t, s, names);
    assert {} + {n} == {n} && n != EMPTY_NODE_ID;
    hide HalfInv;
    ReplaceNode(st, st.(nodes := st.nodes[n := node']), k, prev, n, node', {});
  }

  lemma RecordOtherHalf(st: State, k: Kind, j: Kind, prev: Items, n: NodeId, t: TypeUrl, s: StreamId, names: seq<string>)
    requires n in st.nodes && s in st.nodes[n].resources && j != k && HalfInv(st, j, prev, {})
    ensures HalfInv(st.(nodes := st.nodes[n := Recorded(st, k, st.nodes[n], t, s, names)]), j, prev, {})
  {
    hide HalfInv, Copies;
    var node' := Recorded(st, k, st.nodes[n], t, s, names);
    assert node'.Half(j) == st.nodes[n].Half(j);
    HalfFrame(st, st.(nodes := st.nodes[n := node']), j, prev, {});
  }

  lemma UpdateHalf(st: State, j: Kind, prev: Items, n: NodeId, t: TypeUrl, s: StreamId, names: seq<string>, order: seq<StreamId>)
    requires HalfInv(st, j, prev, {})
    requires n in st.nodes ==> IsEnumeration(order, st.nodes[n].resources.Keys)
    ensures UpdateStream(st, n, t, s, names, order).Ok? ==> HalfInv(UpdateStream(st, n, t, s, names, order).value, j, prev, {})
  {
    hide HalfInv, Recorded, SnapNode, SnapshotOf;
    if n in st.nodes && KindOf(t).Some? && s in st.nodes[n].resources && CanServe(st, KindOf(t).value) {
      var k := KindOf(t).value;
      RecordedKeys(st, k, st.nodes[n], t, s, names);
      var st' := st.(nodes := st.nodes[n := Recorded(st, k, st.nodes[n], t, s, names)]);
      if j == k {
        RecordHalf(st, k, prev, n, t, s, names);
        SnapHalf(st', k, prev, n, order);
      } else {
        RecordOtherHalf(st, k, j, prev, n, t, s, names);
        SnapOtherHalf(st', k, prev, n, order, j, {});
      }
    }
  }

  lemma RecordedKeys(st: State, k: Kind, node: Node, t: TypeUrl, s: StreamId, names: seq<string>)
    requires s in node.resources
    ensures Recorded(st, k, node, t, s, names).resources.Keys == node.resources.Keys
  {
  }

  lemma DropHalf(st: State, k: Kind, prev: Items, n: NodeId, s: StreamId)
    requires n in st.nodes && HalfInv(st, k, prev, {})
    ensures HalfInv(st.(nodes := st.nodes[n := st.nodes[n].(resources := st.nodes[n].resources - {s})]), k, prev, {n})
  {
    var node := st.nodes[n].(resources := st.nodes[n].resources - {s});
    var st' := st.(nodes := st.nodes[n := node]);
    hide ItemsOk, EntryOk, TrackedOk;
    assert node.Half(k) == st.nodes[n].Half(k) - {s};
    assert StreamsOk(st.localhost, k, node.Half(k), prev, st.Full(k)) && n != EMPTY_NODE_ID;
    hide HalfInv;
    assert {} + {n} == {n};
    ReplaceNode(st, st', k, prev, n, node, {});
  }

  lemma ForgetHalf(st: State, st': State, k: Kind, prev: Items, n: NodeId)
    requires n != EMPTY_NODE_ID && HalfInv(st, k, prev, {})
    requires st'.localhost == st.localhost && st'.nodes == st.nodes - {n} && st'.caches.Of(k) == st.caches.Of(k) - {n}
    ensures HalfInv(st', k, prev, {})
  {
    hide ItemsOk, EntryOk, StreamsOk;
    assert st'.Full(k) == st.Full(k) && forall m | m != n :: st'.Entry(k, m) == st.Entry(k, m);
  }

  lemma DeleteHalf(st: State, j: Kind, prev: Items, n: NodeId, s: StreamId, orders: PerKind<seq<StreamId>>)
    requires HalfInv(st, j, prev, {})
    requires n in st.nodes ==> forall k: Kind :: IsEnumeration(orders.Of(k), st.nodes[n].resources.Keys - {s})
    requires n in st.nodes ==> forall k: Kind :: Within(orders.Of(k), st.nodes[n].resources.Keys - {s})
    ensures HalfInv(DeleteStream(st, n, s, orders), j, prev, {})
  {
    hide HalfInv, SnapshotOf;
    if n != EMPTY_NODE_ID && n in st.nodes {
      assert orders.Of(Services) == orders.services && orders.Of(Endpoints) == orders.endpoints;
      var node := st.nodes[n].(resources := st.nodes[n].resources - {s});
      if node.resources == map[] {
        ForgetHalf(st, DeleteStream(st, n, s, orders), j, prev, n);
      } else {
        var st1 := st.(nodes := st.nodes[n := node]);
        var st2 := SnapNode(st1, Services, n, orders.services);
        DropHalf(st, j, prev, n, s);
        assert st1.nodes[n].resources.Keys == st.nodes[n].resources.Keys - {s} == st2.nodes[n].resources.Keys;
        match j
        case Services =>
          SnapHalf(st1, Services, prev, n, orders.services);
          SnapOtherHalf(st2, Endpoints, prev, n, orders.endpoints, Services, {});
        case Endpoints =>
          SnapOtherHalf(st1, Services, prev, n, orders.services, Endpoints, {n});
          SnapHalf(st2, Endpoints, prev, n, orders.endpoints);
      }
    }
  }

  lemma NewItemsOk(version: string, lists: Lists)
    ensures ItemsOk(NewSnapshot(version, lists).items)
  {
    forall t | t in lists ensures forall x | x in IndexByName(lists[t]) :: IndexByName(lists[t])[x].Name() == x {
      IndexSound(lists[t]);
    }
  }

  /** Publishing outdates the nodes, but only by one full snapshot. */
  lemma PublishHalf(st: State, k: Kind, lists: Lists)
    requires HalfInv(st, k, st.Full(k), {})
    ensures HalfInv(Publish(st, k, lists), k, st.Full(k), {})
  {
    var st' := Publish(st, k, lists);
    NewItemsOk(Itoa(st'.versions.Of(k)), lists);
    hide ItemsOk, NewSnapshot, EntryOk, Copies;
    assert forall m | m != EMPTY_NODE_ID :: st'.Entry(k, m) == st.Entry(k, m);
    assert ItemsOk(st'.Full(k));
  }

  lemma RefreshedStreamOk(st: State, k: Kind, tr: Tracked, prev: Items)
    requires CanServe(st, k) && TrackedOk(st.localhost, k, tr, prev, st.Full(k))
    ensures TrackedOk(st.localhost, k, RefreshTracked(st, k, tr), st.Full(k), st.Full(k))
  {
    hide Copies, TypesOf;
  }

  lemma RefreshedNodeOk(st: State, k: Kind, node: Node, prev: Items)
    requires CanServe(st, k) && StreamsOk(st.localhost, k, node.Half(k), prev, st.Full(k))
    ensures StreamsOk(st.localhost, k, Bump(RefreshNode(st, k, node), k).Half(k), st.Full(k), st.Full(k))
    ensures Bump(RefreshNode(st, k, node), k).Half(k).Keys == node.resources.Keys
  {
    hide TrackedOk, RefreshTracked;
    var node' := Bump(RefreshNode(st, k, node), k);
    forall s | s in node'.Half(k) ensures TrackedOk(st.localhost, k, node'.Half(k)[s], st.Full(k), st.Full(k)) {
      assert node'.Half(k)[s] == RefreshTracked(st, k, node.Half(k)[s]);
      RefreshedStreamOk(st, k, node.Half(k)[s], prev);
    }
  }

  /** Refreshing removes every trace of the replaced full snapshot. */
  lemma RefreshHalf(st: State, k: Kind, prev: Items, orders: map<NodeId, seq<StreamId>>)
    requires HalfInv(st, k, prev, {}) && CanServe(st, k) && OrdersFor(st, orders)
    ensures HalfInv(Refresh(st, k, orders), k, st.Full(k), {})
    ensures Refresh(st, k, orders).Full(k) == st.Full(k)
  {
    hide StreamsOk, EntryOk, ItemsOk, SnapshotOf, RefreshNode, CanServe;
    var st' := Refresh(st, k, orders);
    assert st'.Full(k) == st.Full(k);
    forall n | n in st.nodes
      ensures StreamsOk(st.localhost, k, st'.nodes[n].Half(k), st.Full(k), st.Full(k))
      ensures EntryOk(k, st'.nodes[n].Half(k), st'.Entry(k, n))
    {
      RefreshedNodeOk(st, k, st.nodes[n], prev);
      SnapshotIndexesHeld(st'.nodes[n], k, orders[n]);
      assert st'.Entry(k, n) == Some(SnapshotOf(st'.nodes[n], k, orders[n]));
    }
  }

  lemma RefreshOtherNode(st: State, k: Kind, j: Kind, n: NodeId)
    requires j != k && n in st.nodes
    ensures n in RefreshedNodes(st, k) && RefreshedNodes(st, k)[n].Half(j) == st.nodes[n].Half(j)
  {
    hide RefreshTracked;
    var node := RefreshedNodes(st, k)[n];
    assert forall s | s in st.nodes[n].resources :: node.resources[s].Of(j) == st.nodes[n].resources[s].Of(j);
  }

  lemma RefreshOtherHalf(st: State, k: Kind, j: Kind, prev: Items, orders: map<NodeId, seq<StreamId>>)
    requires j != k && HalfInv(st, j, prev, {}) && OrdersFor(st, orders)
    ensures HalfInv(Refresh(st, k, orders), j, prev, {})
  {
    hide HalfInv, RefreshedSnapshots, RefreshNode;
    forall n | n in st.nodes ensures RefreshedNodes(st, k)[n].Half(j) == st.nodes[n].Half(j) {
      RefreshOtherNode(st, k, j, n);
    }
    HalfFrame(st, Refresh(st, k, orders), j, prev, {});
  }

  // ---------------------------------------------------------------------
  // Settled states

  lemma NoEmptyNode(st: State, k: Kind, prev: Items)
    requires HalfInv(st, k, prev, {})
    ensures EMPTY_NODE_ID !in st.nodes
  {
    hide StreamsOk, EntryOk, ItemsOk;
  }

  lemma UpdateFull(st: State, k: Kind, n: NodeId, t: TypeUrl, s: StreamId, names: seq<string>, order: seq<StreamId>)
    requires EMPTY_NODE_ID !in st.nodes && (n in st.nodes ==> Within(order, st.nodes[n].resources.Keys))
    requires UpdateStream(st, n, t, s, names, order).Ok?
    ensures var st' := UpdateStream(st, n, t, s, names, order).value;
            st'.Full(k) == st.Full(k) && st'.localhost == st.localhost && (Inhabited(st) ==> Inhabited(st'))
  {
    hide SnapshotOf, Recorded;
    if n in st.nodes && KindOf(t).Some? && s in st.nodes[n].resources {
      RecordedKeys(st, KindOf(t).value, st.nodes[n], t, s, names);
    }
  }

  lemma DeleteFull(st: State, k: Kind, n: NodeId, s: StreamId, orders: PerKind<seq<StreamId>>)
    requires EMPTY_NODE_ID !in st.nodes
    requires n in st.nodes ==> forall j: Kind :: Within(orders.Of(j), st.nodes[n].resources.Keys - {s})
    ensures var st' := DeleteStream(st, n, s, orders);
            st'.Full(k) == st.Full(k) && st'.localhost == st.localhost && (Inhabited(st) ==> Inhabited(st'))
  {
    hide SnapshotOf;
    if n in st.nodes {
      var rest := st.nodes[n].resources - {s};
      assert rest != map[] ==> rest.Keys != {};
    }
  }

  lemma SettledFacts(st: State, k: Kind)
    requires Settled(st)
    ensures Inhabited(st) && EMPTY_NODE_ID !in st.nodes && HalfInv(st, k, st.Full(k), {})
  {
    hide StreamsOk, EntryOk, ItemsOk;
  }

  lemma AddFull(st: State, k: Kind, n: NodeId, address: string, s: StreamId)
    ensures var st' := AddOrUpdateNode(st, n, address, s);
            st'.Full(k) == st.Full(k) && st'.localhost == st.localhost && (Inhabited(st) ==> Inhabited(st'))
  {
    hide EmptyResources;
    var st' := AddOrUpdateNode(st, n, address, s);
    assert st' != st ==> s in st'.nodes[n].resources.Keys;
  }

  lemma SettledAgrees(st: State)
    requires Settled(st)
    ensures Agrees(st, PerKind(st.Full(Services), st.Full(Endpoints)))
  {
    hide HalfInv;
  }

  lemma AgreesUpdate(st: State, prev: PerKind<Items>, n: NodeId, t: TypeUrl, s: StreamId, names: seq<string>, order: seq<StreamId>)
    requires Agrees(st, prev) && (n in st.nodes ==> IsEnumeration(order, st.nodes[n].resources.Keys))
    requires UpdateStream(st, n, t, s, names, order).Ok?
    ensures Agrees(UpdateStream(st, n, t, s, names, order).value, prev)
  {
    hide HalfInv, UpdateStream;
    forall k: Kind ensures HalfInv(UpdateStream(st, n, t, s, names, order).value, k, prev.Of(k), {}) {
      UpdateHalf(st, k, prev.Of(k), n, t, s, names, order);
    }
  }

  lemma AgreesDelete(st: State, prev: PerKind<Items>, n: NodeId, s: StreamId, orders: PerKind<seq<StreamId>>)
    requires Agrees(st, prev)
    requires n in st.nodes ==> forall k: Kind :: IsEnumeration(orders.Of(k), st.nodes[n].resources.Keys - {s})
    requires n in st.nodes ==> forall k: Kind :: Within(orders.Of(k), st.nodes[n].resources.Keys - {s})
    ensures Agrees(DeleteStream(st, n, s, orders), prev)
  {
    hide HalfInv, DeleteStream;
    forall k: Kind ensures HalfInv(DeleteStream(st, n, s, orders), k, prev.Of(k), {}) {
      DeleteHalf(st, k, prev.Of(k), n, s, orders);
    }
  }

  lemma SettledAdd(st: State, n: NodeId, address: string, s: StreamId)
    requires Settled(st)
    ensures Settled(AddOrUpdateNode(st, n, address, s))
  {
    hide HalfInv, AddOrUpdateNode, Inhabited;
    AddFull(st, Services, n, address, s);
    forall k: Kind
      ensures HalfInv(AddOrUpdateNode(st, n, address, s), k, AddOrUpdateNode(st, n, address, s).Full(k), {})
    {
      SettledFacts(st, k);
      AddHalf(st, k, st.Full(k), n, address, s);
      AddFull(st, k, n, address, s);
    }
  }

  lemma SettledUpdate(st: State, n: NodeId, t: TypeUrl, s: StreamId, names: seq<string>, order: seq<StreamId>)
    requires Settled(st) && (n in st.nodes ==> IsEnumeration(order, st.nodes[n].resources.Keys))
    requires UpdateStream(st, n, t, s, names, order).Ok?
    ensures Settled(UpdateStream(st, n, t, s, names, order).value)
  {
    hide HalfInv, UpdateStream, Inhabited;
    var st' := UpdateStream(st, n, t, s, names, order).value;
    SettledFacts(st, Services);
    UpdateFull(st, Services, n, t, s, names, order);
    forall k: Kind ensures HalfInv(st', k, st'.Full(k), {}) {
      SettledFacts(st, k);
      UpdateHalf(st, k, st.Full(k), n, t, s, names, order);
      UpdateFull(st, k, n, t, s, names, order);
    }
  }

  lemma SettledDelete(st: State, n: NodeId, s: StreamId, orders: PerKind<seq<StreamId>>)
    requires Settled(st)
    requires n in st.nodes ==> forall k: Kind :: IsEnumeration(orders.Of(k), st.nodes[n].resources.Keys - {s})
    requires n in st.nodes ==> forall k: Kind :: Within(orders.Of(k), st.nodes[n].resources.Keys - {s})
    ensures Settled(DeleteStream(st, n, s, orders))
  {
    hide HalfInv, DeleteStream, Inhabited;
    var st' := DeleteStream(st, n, s, orders);
    SettledFacts(st, Services);
    DeleteFull(st, Services, n, s, orders);
    forall k: Kind ensures HalfInv(st', k, st'.Full(k), {}) {
      SettledFacts(st, k);
      DeleteHalf(st, k, st.Full(k), n, s, orders);
      DeleteFull(st, k, n, s, orders);
    }
  }

  /** A whole snap, run without interruption, takes a settled state to a settled state. */
  lemma SettledSnap(st: State, k: Kind, lists: Lists, visits: map<NodeId, seq<StreamId>>)
    requires Settled(st) && OrdersFor(Publish(st, k, lists), visits)
    ensures var st' := Refresh(Publish(st, k, lists), k, visits);
            Settled(st') && st'.Full(k) == NewSnapshot("", lists).items && st'.localhost == st.localhost
  {
    hide HalfInv, NewSnapshot, Refresh;
    var st1 := Publish(st, k, lists);
    var st' := Refresh(st1, k, visits);
    SettledFacts(st, k);
    PublishHalf(st, k, lists);
    RefreshHalf(st1, k, st.Full(k), visits);
    RefreshRest(st1, k, visits);
    assert st1.Full(k) == NewSnapshot("", lists).items by {
      PublishedFull(st, k, lists);
    }
    forall j: Kind ensures HalfInv(st', j, st'.Full(j), {}) {
      if j != k {
        SettledFacts(st, j);
        assert st1.caches.Of(j) == st.caches.Of(j);
        HalfFrame(st, st1, j, st.Full(j), {});
        RefreshOtherHalf(st1, k, j, st.Full(j), visits);
        assert st'.Full(j) == st.Full(j);
      }
    }
  }

  lemma PublishedFull(st: State, k: Kind, lists: Lists)
    ensures Publish(st, k, lists).Full(k) == NewSnapshot("", lists).items
  {
    hide IndexByName;
  }

  lemma RefreshRest(st: State, k: Kind, visits: map<NodeId, seq<StreamId>>)
    requires OrdersFor(st, visits) && EMPTY_NODE_ID !in st.nodes
    ensures var st' := Refresh(st, k, visits);
            && st'.localhost == st.localhost && st'.streams == st.streams && st'.deltas == st.deltas
            && (forall j: Kind | j != k :: st'.Full(j) == st.Full(j))
            && (Inhabited(st) ==> Inhabited(st'))
  {
    hide RefreshedSnapshots, RefreshTracked;
    var st' := Refresh(st, k, visits);
    forall n | n in st.nodes ensures st'.nodes[n].resources.Keys == st.nodes[n].resources.Keys {
    }
  }
}
