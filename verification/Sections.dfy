/**
  xds/snapshotter.go: the state of the snapshotter and its atomic sections, each the effect of one
  critical section of the code. The services half and the endpoints half of the source are two copies
  of the same code over two caches; here they are one section with a `Kind`.
 */
module Sections {
  import opened Collections
  import opened Names
  import opened Resources
  import opened Matching

  type NodeId = string
  type StreamId = int

  /** The id under which the full snapshot of everything watched is kept. */
  const EMPTY_NODE_ID: NodeId := ""

  // ---------------------------------------------------------------------
  // Snapshots

  type Items = map<TypeUrl, Index>

  function ItemsOf(items: Items, t: TypeUrl): Index {
    if t in items then items[t] else map[]
  }

  datatype Snapshot = Snapshot(version: string, items: Items) {
    function Resources(t: TypeUrl): Index {
      ItemsOf(items, t)
    }

    /** A type the snapshot was built without has no version. */
    function Version(t: TypeUrl): string {
      if t in items then version else ""
    }
  }

  type Lists = map<TypeUrl, seq<Resource>>

  function NewSnapshot(version: string, lists: Lists): Snapshot {
    Snapshot(version, map t | t in lists :: IndexByName(lists[t]))
  }

  /** int32 arithmetic of the version counters. */
  function Wrap32(n: int): int {
    (n + 0x8000_0000) % 0x1_0000_0000 - 0x8000_0000
  }

  // ---------------------------------------------------------------------
  // State

  /** What one stream asked for and the copies it holds, by type. */
  datatype Tracked = Tracked(names: map<TypeUrl, seq<string>>, copies: Lists) {
    function NamesOf(t: TypeUrl): seq<string> {
      if t in names then names[t] else []
    }

    function CopiesOf(t: TypeUrl): seq<Resource> {
      if t in copies then copies[t] else []
    }
  }

  type StreamResources = PerKind<Tracked>

  datatype Node = Node(address: string, resources: map<StreamId, StreamResources>, versions: PerKind<int>) {
    /** What the streams of the node track in one half. */
    function Half(k: Kind): map<StreamId, Tracked> {
      map s | s in resources :: resources[s].Of(k)
    }
  }

  type Cache = map<NodeId, Snapshot>

  datatype State = State(
    localhost: bool,
    streams: map<StreamId, string>,
    nodes: map<NodeId, Node>,
    caches: PerKind<Cache>,
    versions: PerKind<int>,
    deltas: map<TypeUrl, Index>)
  {
    function Entry(k: Kind, n: NodeId): Option<Snapshot> {
      if n in caches.Of(k) then Some(caches.Of(k)[n]) else None
    }

    /** What clients of node `n` are served; an absent snapshot counts as empty. */
    function Served(k: Kind, n: NodeId, t: TypeUrl): Index {
      Contents(Entry(k, n), t)
    }

    /** The full snapshot of one half. */
    function Full(k: Kind): Items {
      if Entry(k, EMPTY_NODE_ID).Some? then Entry(k, EMPTY_NODE_ID).value.items else map[]
    }
  }

  function Contents(entry: Option<Snapshot>, t: TypeUrl): Index {
    if entry.Some? then entry.value.Resources(t) else map[]
  }

  /** Every node has a stream. */
  ghost predicate Inhabited(st: State) {
    forall n | n in st.nodes :: st.nodes[n].resources.Keys != {}
  }

  function InitState(localhost: bool): State {
    State(localhost, map[], map[], PerKind(map[], map[]), PerKind(0, 0), map[])
  }

  datatype Error = UnknownStream | NodeNotFound | StreamNotFound | NoFullSnapshot

  // ---------------------------------------------------------------------
  // Looking resources up

  /** The resource a stream gets for `name`: from the full snapshot, or made up in localhost mode. */
  function Find(localhost: bool, full: Items, t: TypeUrl, name: string): Option<Resource> {
    if localhost then (if KindOf(t).Some? then Some(Dummy(t, name)) else None)
    else if name in ItemsOf(full, t) then Some(ItemsOf(full, t)[name])
    else None
  }

  /** Names that cannot be found are skipped. */
  function Copies(localhost: bool, full: Items, t: TypeUrl, names: seq<string>): seq<Resource> {
    if names == [] then []
    else
      var found := Find(localhost, full, t, names[|names| - 1]);
      Copies(localhost, full, t, names[..|names| - 1]) + (if found.Some? then [found.value] else [])
  }

  predicate CanServe(st: State, k: Kind) {
    st.localhost || st.Entry(k, EMPTY_NODE_ID).Some?
  }

  // ---------------------------------------------------------------------
  // Aggregating what the streams of a node hold

  function Aggregated(streams: map<StreamId, Tracked>, order: seq<StreamId>, t: TypeUrl): seq<Resource>
    requires Within(order, streams.Keys)
  {
    if order == [] then []
    else Aggregated(streams, order[..|order| - 1], t) + streams[order[|order| - 1]].CopiesOf(t)
  }

  /** aggregateNodeResources, the streams visited in `order`: types nobody holds anything of are missing. */
  function Aggregate(k: Kind, streams: map<StreamId, Tracked>, order: seq<StreamId>): Lists
    requires Within(order, streams.Keys)
  {
    map t | t in TypesOf(k) && Aggregated(streams, order, t) != [] :: Aggregated(streams, order, t)
  }

  // ---------------------------------------------------------------------
  // Sections

  function EmptyTracked(k: Kind): Tracked {
    Tracked(map t | t in TypesOf(k) :: [], map t | t in TypesOf(k) :: [])
  }

  function EmptyResources(): StreamResources {
    PerKind(EmptyTracked(Services), EmptyTracked(Endpoints))
  }

  function AddOrUpdateNode(st: State, n: NodeId, address: string, s: StreamId): State {
    if n == EMPTY_NODE_ID then st
    else if n !in st.nodes then st.(nodes := st.nodes[n := Node(address, map[s := EmptyResources()], PerKind(0, 0))])
    else if s in st.nodes[n].resources then st
    else
      var node := st.nodes[n];
      st.(nodes := st.nodes[n := node.(resources := node.resources[s := EmptyResources()])])
  }

  function NeedToUpdate(st: State, n: NodeId, t: TypeUrl, s: StreamId, names: seq<string>): Result<bool, Error> {
    if n !in st.nodes then Ok(false)
    else if s !in st.nodes[n].resources then Err(StreamNotFound)
    else match KindOf(t)
      case None => Ok(false)
      case Some(k) => Ok(!ResourcesMatch(st.nodes[n].resources[s].Of(k).NamesOf(t), names))
  }

  function Bump(node: Node, k: Kind): Node {
    node.(versions := node.versions.With(k, Wrap32(node.versions.Of(k) + 1)))
  }

  /** The snapshot of a node whose counter has just been bumped. */
  function SnapshotOf(node: Node, k: Kind, order: seq<StreamId>): Snapshot
    requires Within(order, node.Half(k).Keys)
  {
    NewSnapshot(Itoa(node.versions.Of(k)), Aggregate(k, node.Half(k), order))
  }

  /** nodeServiceSnapshot and nodeEndpointsSnapshot */
  function SnapNode(st: State, k: Kind, n: NodeId, order: seq<StreamId>): State
    requires n in st.nodes && Within(order, st.nodes[n].resources.Keys)
  {
    var node := Bump(st.nodes[n], k);
    st.(nodes := st.nodes[n := node],
        caches := st.caches.With(k, st.caches.Of(k)[n := SnapshotOf(node, k, order)]))
  }

  /** The node after stream `s` recorded `names` and the copies found for them. */
  function Recorded(st: State, k: Kind, node: Node, t: TypeUrl, s: StreamId, names: seq<string>): Node
    requires s in node.resources
  {
    var tr := node.resources[s].Of(k);
    var tr' := Tracked(tr.names[t := names], tr.copies[t := Copies(st.localhost, st.Full(k), t, names)]);
    node.(resources := node.resources[s := node.resources[s].With(k, tr')])
  }

  /** updateStreamNodeResources: an error leaves the state as it was. */
  function UpdateStream(st: State, n: NodeId, t: TypeUrl, s: StreamId, names: seq<string>, order: seq<StreamId>)
    : Result<State, Error>
    requires n in st.nodes ==> Within(order, st.nodes[n].resources.Keys)
  {
    if n !in st.nodes then Err(NodeNotFound)
    else match KindOf(t)
      case None => Ok(st)
      case Some(k) =>
        if s !in st.nodes[n].resources then Err(StreamNotFound)
        else if !CanServe(st, k) then Err(NoFullSnapshot)
        else Ok(SnapNode(st.(nodes := st.nodes[n := Recorded(st, k, st.nodes[n], t, s, names)]), k, n, order))
  }

  /** deleteNodeStream: the last stream takes the node and its snapshots with it. */
  function DeleteStream(st: State, n: NodeId, s: StreamId, orders: PerKind<seq<StreamId>>): State
    requires n in st.nodes ==> forall k: Kind :: Within(orders.Of(k), st.nodes[n].resources.Keys - {s})
  {
    if n == EMPTY_NODE_ID || n !in st.nodes then st
    else
      var node := st.nodes[n].(resources := st.nodes[n].resources - {s});
      if node.resources == map[] then
        st.(nodes := st.nodes - {n}, caches := PerKind(st.caches.services - {n}, st.caches.endpoints - {n}))
      else
        var st' := st.(nodes := st.nodes[n := node]);
        assert Within(orders.Of(Services), node.resources.Keys) && Within(orders.Of(Endpoints), node.resources.Keys);
        SnapNode(SnapNode(st', Services, n, orders.services), Endpoints, n, orders.endpoints)
  }

  /** The first half of a snap: the full snapshot is replaced. */
  function Publish(st: State, k: Kind, lists: Lists): State {
    var v := Wrap32(st.versions.Of(k) + 1);
    st.(versions := st.versions.With(k, v),
        caches := st.caches.With(k, st.caches.Of(k)[EMPTY_NODE_ID := NewSnapshot(Itoa(v), lists)]))
  }

  function RefreshTracked(st: State, k: Kind, tr: Tracked): Tracked {
    if CanServe(st, k)
    then tr.(copies := tr.copies + (map t | t in tr.names :: Copies(st.localhost, st.Full(k), t, tr.names[t])))
    else tr
  }

  function RefreshNode(st: State, k: Kind, node: Node): Node {
    node.(resources := map s | s in node.resources ::
            node.resources[s].With(k, RefreshTracked(st, k, node.resources[s].Of(k))))
  }

  /** One visiting order of its streams for every node. */
  ghost predicate OrdersFor(st: State, orders: map<NodeId, seq<StreamId>>) {
    forall n | n in st.nodes :: n in orders && IsEnumeration(orders[n], st.nodes[n].resources.Keys)
  }

  function RefreshedNodes(st: State, k: Kind): map<NodeId, Node> {
    map n | n in st.nodes :: Bump(RefreshNode(st, k, st.nodes[n]), k)
  }

  ghost function RefreshedSnapshots(st: State, k: Kind, orders: map<NodeId, seq<StreamId>>): Cache
    requires OrdersFor(st, orders)
  {
    map n | n in st.nodes :: SnapshotOf(RefreshedNodes(st, k)[n], k, orders[n])
  }

  /** The second half of a snap: every stream of every node copies again, every node gets a new snapshot. */
  ghost function Refresh(st: State, k: Kind, orders: map<NodeId, seq<StreamId>>): State
    requires OrdersFor(st, orders)
  {
    st.(nodes := RefreshedNodes(st, k),
        caches := st.caches.With(k, st.caches.Of(k) + RefreshedSnapshots(st, k, orders)))
  }
}
