/**
  The concurrent snapshotter: a system whose steps are the atomic sections, interleaved as the mutexes
  of xds/snapshotter.go allow. A request holds the streams mutex for reading from its first to its last
  section, so streams open and close only while no request is in flight; a snap holds the snap mutex
  from publishing the full snapshot to refreshing the nodes, so snaps do not overlap.
 */
module Protocol {
  import opened Collections
  import opened Resources
  import opened Sections
  import opened Payloads

  datatype Request = Request(node: NodeId, t: TypeUrl, names: seq<string>)

  /** Where the handler of a stream is: in a request, or between the two halves of a close. */
  datatype Phase =
    | Started(r: Request)
    | Added(r: Request)
    | Checked(r: Request)
    | Closing(node: NodeId)

  datatype Snap = Idle | Snapping(k: Kind, pending: seq<TypeUrl>)

  datatype Sys = Sys(
    st: State,
    inflight: map<StreamId, Phase>,
    snap: Snap,
    // The server skips updates that change nothing. An unguarded one never does; it is there to compare with.
    guarded: bool,
    // The environment: stream ids ever opened, and the one node id each stream presents.
    used: set<StreamId>,
    bound: map<StreamId, NodeId>,
    // History: the replaced full snapshots, the last payloads, the last request completed
    // on each stream, and every snapshot put in a cache during the lifetime of its node.
    prev: PerKind<Items>,
    published: PerKind<Option<Payload>>,
    latest: map<(StreamId, TypeUrl), seq<string>>,
    log: PerKind<map<NodeId, seq<Snapshot>>>)
  {
    function Latest(s: StreamId, t: TypeUrl): seq<string> {
      if (s, t) in latest then latest[(s, t)] else []
    }

    /** The node id a closing stream reports: that of its requests, or none. */
    function NodeOf(s: StreamId): NodeId {
      if s in bound then bound[s] else EMPTY_NODE_ID
    }
  }

  function Init(localhost: bool, guarded: bool): Sys {
    Sys(InitState(localhost), map[], Idle, guarded, {}, map[], PerKind(map[], map[]), PerKind(None, None), map[], PerKind(map[], map[]))
  }

  datatype Event =
    | Open(s: StreamId, address: string)
    | Begin(s: StreamId, r: Request)
    | RateLimited(s: StreamId)
    | AddNode(s: StreamId)
    | Check(s: StreamId)
    | Update(s: StreamId, order: seq<StreamId>)
    | CloseFirst(s: StreamId)
    | CloseSecond(s: StreamId, orders: PerKind<seq<StreamId>>)
    | PublishFull(k: Kind, payload: Payload)
    | SyncDelta
    | RefreshNodes(visits: map<NodeId, seq<StreamId>>)

  ghost predicate NoRequests(y: Sys) {
    forall s | s in y.inflight :: y.inflight[s].Closing?
  }

  ghost predicate Enabled(y: Sys, e: Event) {
    match e
    case Open(s, _) => s !in y.used && NoRequests(y)
    case Begin(s, r) => s in y.st.streams && s !in y.inflight && (s in y.bound ==> y.bound[s] == r.node)
    case RateLimited(s) => s in y.inflight && y.inflight[s].Started?
    case AddNode(s) => s in y.inflight && y.inflight[s].Started? && s in y.st.streams
    case Check(s) => s in y.inflight && y.inflight[s].Added?
    case Update(s, order) =>
      && s in y.inflight && y.inflight[s].Checked?
      && var n := y.inflight[s].r.node; n in y.st.nodes ==> IsEnumeration(order, y.st.nodes[n].resources.Keys)
    case CloseFirst(s) => s in y.st.streams && s !in y.inflight && NoRequests(y)
    case CloseSecond(s, orders) =>
      && s in y.inflight && y.inflight[s].Closing?
      && var n := y.inflight[s].node;
         n in y.st.nodes ==> forall k: Kind :: IsEnumeration(orders.Of(k), y.st.nodes[n].resources.Keys - {s})
    case PublishFull(k, p) => y.snap.Idle? && p.lists.Keys == TypesOf(k) && p.deltas.Keys == SetOf(DeltaOrder(k))
    case SyncDelta => y.snap.Snapping? && y.snap.pending != [] && y.published.Of(y.snap.k).Some?
                      && y.snap.pending[0] in y.published.Of(y.snap.k).value.deltas
    case RefreshNodes(visits) => y.snap.Snapping? && y.snap.pending == [] && OrdersFor(y.st, visits)
  }

  /** The effect of a step on the snapshotter. */
  ghost function Effect(y: Sys, e: Event): State
    requires Enabled(y, e)
  {
    var st := y.st;
    match e
    case Open(s, address) => st.(streams := st.streams[s := address])
    case AddNode(s) => AddOrUpdateNode(st, y.inflight[s].r.node, st.streams[s], s)
    case Update(s, order) =>
      var r := y.inflight[s].r;
      var result := UpdateStream(st, r.node, r.t, s, r.names, order);
      if result.Ok? then result.value else st
    case CloseFirst(s) => st.(streams := st.streams - {s})
    case CloseSecond(s, orders) =>
      assert y.inflight[s].node in st.nodes ==>
          forall k: Kind :: Within(orders.Of(k), st.nodes[y.inflight[s].node].resources.Keys - {s});
      DeleteStream(st, y.inflight[s].node, s, orders)
    case PublishFull(k, p) => Publish(st, k, p.lists)
    case SyncDelta => var t := y.snap.pending[0];
                      st.(deltas := st.deltas[t := y.published.Of(y.snap.k).value.deltas[t]])
    case RefreshNodes(visits) => Refresh(st, y.snap.k, visits)
    case Begin(_, _) | RateLimited(_) | Check(_) => st
  }

  function LogHalf(log: map<NodeId, seq<Snapshot>>, c: Cache, c': Cache): map<NodeId, seq<Snapshot>> {
    map n | n in c' ::
      (if n in log then log[n] else []) + (if n in c && c[n] == c'[n] then [] else [c'[n]])
  }

  /** Every change of a cached snapshot is logged; the log of a node ends with its snapshot. */
  function LogAfter(log: PerKind<map<NodeId, seq<Snapshot>>>, st: State, st': State): PerKind<map<NodeId, seq<Snapshot>>> {
    PerKind(LogHalf(log.services, st.caches.services, st'.caches.services),
            LogHalf(log.endpoints, st.caches.endpoints, st'.caches.endpoints))
  }

  function Completed(y: Sys, s: StreamId): Sys
    requires s in y.inflight && !y.inflight[s].Closing?
  {
    var r := y.inflight[s].r;
    y.(inflight := y.inflight - {s},
       latest := if KindOf(r.t).Some? then y.latest[(s, r.t) := r.names] else y.latest)
  }

  /** The handler's own bookkeeping after a step. */
  ghost function Advance(y: Sys, e: Event): Sys
    requires Enabled(y, e)
  {
    match e
    case Open(s, _) => y.(used := y.used + {s})
    case Begin(s, r) => y.(inflight := y.inflight[s := Started(r)], bound := y.bound[s := r.node])
    case RateLimited(s) => y.(inflight := y.inflight - {s})
    case AddNode(s) =>
      var r := y.inflight[s].r;
      // A client without a node id is answered from the full snapshot alone.
      if r.node == EMPTY_NODE_ID then y.(inflight := y.inflight - {s})
      else y.(inflight := y.inflight[s := Added(r)])
    case Check(s) =>
      var r := y.inflight[s].r;
      var need := NeedToUpdate(y.st, r.node, r.t, s, r.names);
      if need.Err? then y.(inflight := y.inflight - {s})
      else if need.value || !y.guarded then y.(inflight := y.inflight[s := Checked(r)])
      else Completed(y, s)
    case Update(s, order) =>
      var r := y.inflight[s].r;
      if UpdateStream(y.st, r.node, r.t, s, r.names, order).Ok? then Completed(y, s)
      else y.(inflight := y.inflight - {s})
    case CloseFirst(s) => y.(inflight := y.inflight[s := Closing(y.NodeOf(s))])
    case CloseSecond(s, _) => y.(inflight := y.inflight - {s})
    case PublishFull(k, p) =>
      y.(snap := Snapping(k, DeltaOrder(k)), published := y.published.With(k, Some(p)))
    case SyncDelta => y.(snap := y.snap.(pending := y.snap.pending[1..]))
    case RefreshNodes(_) => y.(snap := Idle, prev := y.prev.With(y.snap.k, y.st.Full(y.snap.k)))
  }

  ghost function Step(y: Sys, e: Event): Sys
    requires Enabled(y, e)
  {
    var st' := Effect(y, e);
    Advance(y, e).(st := st', log := LogAfter(y.log, y.st, st'))
  }

  // ---------------------------------------------------------------------
  // Runs

  ghost predicate Legal(y: Sys, es: seq<Event>)
    decreases |es|
  {
    es != [] ==> Enabled(y, es[0]) && Legal(Step(y, es[0]), es[1..])
  }

  ghost function Run(y: Sys, es: seq<Event>): Sys
    requires Legal(y, es)
    decreases |es|
  {
    if es == [] then y else Run(Step(y, es[0]), es[1..])
  }

  /** Some interleaving leads the server from its initial state to `y`. */
  ghost predicate Reachable(y: Sys) {
    exists localhost: bool, es: seq<Event> | Legal(Init(localhost, true), es) :: Run(Init(localhost, true), es) == y
  }

  /** No snap of this half is between publishing and refreshing. */
  ghost predicate Quiescent(y: Sys, k: Kind) {
    y.snap.Snapping? ==> y.snap.k != k
  }

  predicate Registered(st: State, n: NodeId, s: StreamId) {
    n in st.nodes && s in st.nodes[n].resources
  }
}
