/** Who is registered where: what every step keeps about streams, nodes and requests in flight. */
module Registration {
  import opened Collections
  import opened Resources
  import opened Matching
  import opened Sections
  import opened Protocol

  datatype StreamNames = StreamNames(services: map<TypeUrl, seq<string>>, endpoints: map<TypeUrl, seq<string>>)

  function NamesIn(st: State, n: NodeId, s: StreamId): StreamNames
    requires Registered(st, n, s)
  {
    StreamNames(st.nodes[n].resources[s].services.names, st.nodes[n].resources[s].endpoints.names)
  }

  /** The names stream `s` of node `n` has recorded for type `t`. */
  function NamesAt(st: State, n: NodeId, s: StreamId, t: TypeUrl): seq<string>
    requires Registered(st, n, s) && KindOf(t).Some?
  {
    st.nodes[n].resources[s].Of(KindOf(t).value).NamesOf(t)
  }

  /** A section run for stream `x` leaves every other stream registered as it was, with the names it had. */
  ghost predicate OthersKept(st: State, st': State, x: StreamId) {
    forall n, s | s != x ::
      && (Registered(st', n, s) <==> Registered(st, n, s))
      && (Registered(st, n, s) ==> NamesIn(st', n, s) == NamesIn(st, n, s))
  }

  ghost predicate AllKept(st: State, st': State) {
    forall n, s ::
      && (Registered(st', n, s) <==> Registered(st, n, s))
      && (Registered(st, n, s) ==> NamesIn(st', n, s) == NamesIn(st, n, s))
  }

  /** A registered stream belongs to the node it presented, and is open or half closed. */
  ghost predicate OwnerOk(y: Sys, n: NodeId, s: StreamId) {
    && s in y.bound && y.bound[s] == n
    && (s in y.st.streams || (s in y.inflight && y.inflight[s].Closing?))
  }

  /** A request that has passed the add-node section is registered, and a pending update is still needed. */
  ghost predicate PhaseOk(y: Sys, s: StreamId, p: Phase) {
    match p
    case Started(r) => s in y.st.streams && s in y.bound && y.bound[s] == r.node
    case Added(r) => s in y.st.streams && r.node != EMPTY_NODE_ID && Registered(y.st, r.node, s)
    case Checked(r) =>
      && s in y.st.streams && r.node != EMPTY_NODE_ID && Registered(y.st, r.node, s)
      && (y.guarded ==> KindOf(r.t).Some? && !ResourcesMatch(NamesAt(y.st, r.node, s, r.t), r.names))
    case Closing(n) => s !in y.st.streams && n == y.NodeOf(s)
  }

  ghost predicate RegInv(y: Sys) {
    && Inhabited(y.st) && EMPTY_NODE_ID !in y.st.nodes
    && (forall n, s | Registered(y.st, n, s) :: OwnerOk(y, n, s))
    && (forall s | s in y.inflight :: PhaseOk(y, s, y.inflight[s]))
    && y.st.streams.Keys <= y.used && y.bound.Keys <= y.used && y.inflight.Keys <= y.used
  }

  // ---------------------------------------------------------------------
  // Sections

  lemma AddKeepsOthers(st: State, n: NodeId, address: string, s: StreamId)
    requires Inhabited(st) && EMPTY_NODE_ID !in st.nodes
    ensures var st' := AddOrUpdateNode(st, n, address, s);
            && OthersKept(st, st', s) && Inhabited(st') && EMPTY_NODE_ID !in st'.nodes && st'.streams == st.streams
            && (n != EMPTY_NODE_ID ==> Registered(st', n, s))
            && (forall m | Registered(st', m, s) :: m == n || Registered(st, m, s))
            && (Registered(st, n, s) ==> st' == st)
            && (n != EMPTY_NODE_ID && !Registered(st, n, s) ==>
                  forall t | KindOf(t).Some? :: NamesAt(st', n, s, t) == [])
  {
    EmptyNames();
    hide EmptyResources;
    var st' := AddOrUpdateNode(st, n, address, s);
    if n != EMPTY_NODE_ID {
      assert s in st'.nodes[n].resources.Keys;
    }
  }

  lemma EmptyNames()
    ensures forall t | KindOf(t).Some? :: EmptyResources().Of(KindOf(t).value).NamesOf(t) == []
  {
  }

  lemma SnapKeepsAll(st: State, k: Kind, n: NodeId, order: seq<StreamId>)
    requires n in st.nodes && Within(order, st.nodes[n].resources.Keys)
    ensures var st' := SnapNode(st, k, n, order);
            AllKept(st, st') && st'.streams == st.streams && st'.nodes.Keys == st.nodes.Keys
            && forall m | m in st.nodes :: st'.nodes[m].resources == st.nodes[m].resources
  {
    hide SnapshotOf;
  }

  lemma RecordKeepsOthers(st: State, k: Kind, n: NodeId, t: TypeUrl, s: StreamId, names: seq<string>)
    requires Registered(st, n, s) && KindOf(t) == Some(k)
    ensures var st' := st.(nodes := st.nodes[n := Recorded(st, k, st.nodes[n], t, s, names)]);
            && OthersKept(st, st', s) && (forall m :: Registered(st', m, s) <==> Registered(st, m, s))
            && NamesAt(st', n, s, t) == names
            && forall u | KindOf(u).Some? && u != t :: NamesAt(st', n, s, u) == NamesAt(st, n, s, u)
  {
    hide Copies;
    var st' := st.(nodes := st.nodes[n := Recorded(st, k, st.nodes[n], t, s, names)]);
    forall u | KindOf(u).Some? && u != t ensures NamesAt(st', n, s, u) == NamesAt(st, n, s, u) {
    }
  }

  /** A successful update records exactly the requested names of its own stream and type. */
  lemma UpdateKeepsOthers(st: State, n: NodeId, t: TypeUrl, s: StreamId, names: seq<string>, order: seq<StreamId>)
    requires Inhabited(st) && Registered(st, n, s) && KindOf(t).Some? && Within(order, st.nodes[n].resources.Keys)
    requires UpdateStream(st, n, t, s, names, order).Ok?
    ensures var st' := UpdateStream(st, n, t, s, names, order).value;
            && OthersKept(st, st', s) && Inhabited(st') && st'.nodes.Keys == st.nodes.Keys && st'.streams == st.streams
            && (forall m :: Registered(st', m, s) <==> Registered(st, m, s))
            && NamesAt(st', n, s, t) == names
            && forall u | KindOf(u).Some? && u != t :: NamesAt(st', n, s, u) == NamesAt(st, n, s, u)
  {
    hide SnapNode;
    var k := KindOf(t).value;
    RecordKeepsOthers(st, k, n, t, s, names);
    var st1 := st.(nodes := st.nodes[n := Recorded(st, k, st.nodes[n], t, s, names)]);
    assert s in st1.nodes[n].resources && st1.nodes[n].resources.Keys == st.nodes[n].resources.Keys;
    SnapKeepsAll(st1, k, n, order);
    hide Recorded;
    assert forall m | m in st.nodes && m != n :: st1.nodes[m] == st.nodes[m];
  }

  lemma UpdateOfOtherType(st: State, n: NodeId, t: TypeUrl, s: StreamId, names: seq<string>, order: seq<StreamId>)
    requires n in st.nodes && Within(order, st.nodes[n].resources.Keys) && KindOf(t).None?
    ensures UpdateStream(st, n, t, s, names, order) == Ok(st)
  {
  }

  lemma DropKeepsOthers(st: State, n: NodeId, s: StreamId)
    requires n in st.nodes
    ensures var node := st.nodes[n].(resources := st.nodes[n].resources - {s});
            && OthersKept(st, st.(nodes := st.nodes[n := node]), s)
            && (node.resources.Keys == {} ==> OthersKept(st, st.(nodes := st.nodes - {n}), s))
  {
    var node := st.nodes[n].(resources := st.nodes[n].resources - {s});
    assert forall x | x in st.nodes[n].resources && x != s :: x in node.resources.Keys;
  }

  lemma DeleteKeepsOthers(st: State, n: NodeId, s: StreamId, orders: PerKind<seq<StreamId>>)
    requires Inhabited(st) && EMPTY_NODE_ID !in st.nodes
    requires n in st.nodes ==> forall k: Kind :: Within(orders.Of(k), st.nodes[n].resources.Keys - {s})
    ensures var st' := DeleteStream(st, n, s, orders);
            && OthersKept(st, st', s) && Inhabited(st') && st'.nodes.Keys <= st.nodes.Keys && st'.streams == st.streams
            && (forall m | Registered(st', m, s) :: m != n && Registered(st, m, s))
  {
    hide SnapNode;
    if n in st.nodes {
      assert orders.Of(Services) == orders.services && orders.Of(Endpoints) == orders.endpoints;
      var node := st.nodes[n].(resources := st.nodes[n].resources - {s});
      DropKeepsOthers(st, n, s);
      if node.resources != map[] {
        assert node.resources.Keys != {};
        var st1 := st.(nodes := st.nodes[n := node]);
        SnapKeepsAll(st1, Services, n, orders.services);
        SnapKeepsAll(SnapNode(st1, Services, n, orders.services), Endpoints, n, orders.endpoints);
      }
    }
  }

  lemma RefreshKeepsNames(st: State, k: Kind, node: Node)
    ensures NodeKept(node, RefreshNode(st, k, node))
  {
  }

  lemma RefreshKeepsAll(st: State, k: Kind, visits: map<NodeId, seq<StreamId>>)
    requires OrdersFor(st, visits) && Inhabited(st)
    ensures var st' := Refresh(st, k, visits);
            AllKept(st, st') && Inhabited(st') && st'.nodes.Keys == st.nodes.Keys && st'.streams == st.streams
  {
    hide RefreshedSnapshots, RefreshNode, RefreshedNodes, NodeKept, AllKept, Inhabited;
    RefreshedKeys(st, k);
    forall n | n in st.nodes ensures NodeKept(st.nodes[n], Refresh(st, k, visits).nodes[n]) {
      RefreshKeepsNode(st, k, n);
    }
    hide Refresh;
    KeptByNodes(st, Refresh(st, k, visits));
  }

  lemma KeptByNodes(st: State, st': State)
    requires st'.nodes.Keys == st.nodes.Keys && forall n | n in st.nodes :: NodeKept(st.nodes[n], st'.nodes[n])
    ensures AllKept(st, st') && (Inhabited(st) ==> Inhabited(st'))
  {
    forall n, s | Registered(st, n, s) ensures Registered(st', n, s) && NamesIn(st', n, s) == NamesIn(st, n, s) {
      assert NodeKept(st.nodes[n], st'.nodes[n]);
    }
    forall n, s | Registered(st', n, s) ensures Registered(st, n, s) {
      assert NodeKept(st.nodes[n], st'.nodes[n]);
    }
  }

  ghost predicate NodeKept(node: Node, node': Node) {
    && node'.resources.Keys == node.resources.Keys
    && forall s | s in node.resources ::
         && node'.resources[s].services.names == node.resources[s].services.names
         && node'.resources[s].endpoints.names == node.resources[s].endpoints.names
  }

  lemma RefreshedKeys(st: State, k: Kind)
    ensures RefreshedNodes(st, k).Keys == st.nodes.Keys
  {
  }

  lemma RefreshKeepsNode(st: State, k: Kind, n: NodeId)
    requires n in st.nodes
    ensures n in RefreshedNodes(st, k) && NodeKept(st.nodes[n], RefreshedNodes(st, k)[n])
  {
    hide RefreshNode;
    RefreshKeepsNames(st, k, st.nodes[n]);
  }

  // ---------------------------------------------------------------------
  // Steps

  /** A step on behalf of stream `x` has only to account for `x`. */
  lemma RegFrame(y: Sys, y': Sys, x: StreamId)
    requires RegInv(y) && OthersKept(y.st, y'.st, x) && Inhabited(y'.st) && EMPTY_NODE_ID !in y'.st.nodes
    requires y'.guarded == y.guarded
    requires forall s | s != x ::
               && (s in y'.inflight <==> s in y.inflight) && (s in y.inflight ==> y'.inflight[s] == y.inflight[s])
               && (s in y'.bound <==> s in y.bound) && (s in y.bound ==> y'.bound[s] == y.bound[s])
               && (s in y'.st.streams <==> s in y.st.streams)
    requires forall n | Registered(y'.st, n, x) :: OwnerOk(y', n, x)
    requires x in y'.inflight ==> PhaseOk(y', x, y'.inflight[x])
    requires y'.st.streams.Keys <= y'.used && y'.bound.Keys <= y'.used && y'.inflight.Keys <= y'.used
    ensures RegInv(y')
  {
    forall n, s | Registered(y'.st, n, s) ensures OwnerOk(y', n, s) {
      assert s != x ==> Registered(y.st, n, s) && OwnerOk(y, n, s);
    }
    forall s | s in y'.inflight ensures PhaseOk(y', s, y'.inflight[s]) {
      if s != x {
        assert PhaseOk(y, s, y.inflight[s]);
        if y.inflight[s].Checked? {
          assert NamesIn(y'.st, y.inflight[s].r.node, s) == NamesIn(y.st, y.inflight[s].r.node, s);
        }
      }
    }
  }

  lemma RegSame(y: Sys, y': Sys)
    requires RegInv(y) && AllKept(y.st, y'.st) && Inhabited(y'.st) && y'.st.nodes.Keys == y.st.nodes.Keys
    requires y'.inflight == y.inflight && y'.bound == y.bound && y'.used == y.used && y'.st.streams == y.st.streams
    requires y'.guarded == y.guarded
    ensures RegInv(y')
  {
    forall n, s | Registered(y'.st, n, s) ensures OwnerOk(y', n, s) {
      assert OwnerOk(y, n, s);
    }
    forall s | s in y'.inflight ensures PhaseOk(y', s, y'.inflight[s]) {
      assert PhaseOk(y, s, y.inflight[s]);
      if y.inflight[s].Checked? {
        assert NamesIn(y'.st, y.inflight[s].r.node, s) == NamesIn(y.st, y.inflight[s].r.node, s);
      }
    }
  }

  lemma RegOpen(y: Sys, e: Event)
    requires RegInv(y) && e.Open? && Enabled(y, e)
    ensures RegInv(Step(y, e))
  {
    hide LogAfter;
    var y' := Step(y, e);
    forall n ensures !Registered(y'.st, n, e.s) {
      assert Registered(y.st, n, e.s) ==> OwnerOk(y, n, e.s);
    }
    assert e.s !in y.inflight.Keys && y'.st.streams.Keys == y.st.streams.Keys + {e.s};
    RegFrame(y, y', e.s);
  }

  lemma RegBegin(y: Sys, e: Event)
    requires RegInv(y) && (e.Begin? || e.RateLimited?) && Enabled(y, e)
    ensures RegInv(Step(y, e))
  {
    hide LogAfter;
    var y' := Step(y, e);
    forall n | Registered(y.st, n, e.s) ensures OwnerOk(y', n, e.s) {
      assert OwnerOk(y, n, e.s);
      assert e.RateLimited? ==> PhaseOk(y, e.s, y.inflight[e.s]);
    }
    RegFrame(y, y', e.s);
  }

  lemma RegAddNode(y: Sys, e: Event)
    requires RegInv(y) && e.AddNode? && Enabled(y, e)
    ensures RegInv(Step(y, e))
  {
    hide LogAfter, AddOrUpdateNode;
    var y', r := Step(y, e), y.inflight[e.s].r;
    assert PhaseOk(y, e.s, y.inflight[e.s]);
    AddKeepsOthers(y.st, r.node, y.st.streams[e.s], e.s);
    forall n | Registered(y'.st, n, e.s) ensures OwnerOk(y', n, e.s) {
      assert n != r.node ==> OwnerOk(y, n, e.s);
    }
    RegFrame(y, y', e.s);
  }

  lemma RegCheck(y: Sys, e: Event)
    requires RegInv(y) && e.Check? && Enabled(y, e)
    ensures RegInv(Step(y, e))
  {
    hide LogAfter, ResourcesMatch;
    var y' := Step(y, e);
    assert PhaseOk(y, e.s, y.inflight[e.s]);
    forall n | Registered(y.st, n, e.s) ensures OwnerOk(y', n, e.s) {
      assert OwnerOk(y, n, e.s);
    }
    RegFrame(y, y', e.s);
  }

  lemma RegUpdate(y: Sys, e: Event)
    requires RegInv(y) && e.Update? && Enabled(y, e)
    ensures RegInv(Step(y, e))
  {
    hide LogAfter, UpdateStream;
    var y', r := Step(y, e), y.inflight[e.s].r;
    assert PhaseOk(y, e.s, y.inflight[e.s]);
    EnumerationWithin(e.order, y.st.nodes[r.node].resources.Keys);
    if KindOf(r.t).None? {
      UpdateOfOtherType(y.st, r.node, r.t, e.s, r.names, e.order);
    } else if UpdateStream(y.st, r.node, r.t, e.s, r.names, e.order).Ok? {
      UpdateKeepsOthers(y.st, r.node, r.t, e.s, r.names, e.order);
    }
    forall n | Registered(y'.st, n, e.s) ensures OwnerOk(y', n, e.s) {
      assert OwnerOk(y, n, e.s);
    }
    RegFrame(y, y', e.s);
  }

  lemma RegCloseFirst(y: Sys, e: Event)
    requires RegInv(y) && e.CloseFirst? && Enabled(y, e)
    ensures RegInv(Step(y, e))
  {
    hide LogAfter;
    var y' := Step(y, e);
    forall n | Registered(y.st, n, e.s) ensures OwnerOk(y', n, e.s) {
      assert OwnerOk(y, n, e.s);
    }
    RegFrame(y, y', e.s);
  }

  lemma RegCloseSecond(y: Sys, e: Event)
    requires RegInv(y) && e.CloseSecond? && Enabled(y, e)
    ensures RegInv(Step(y, e))
  {
    hide LogAfter, DeleteStream;
    var y', n := Step(y, e), y.inflight[e.s].node;
    assert PhaseOk(y, e.s, y.inflight[e.s]);
    if n in y.st.nodes {
      EnumerationWithin(e.orders.Of(Services), y.st.nodes[n].resources.Keys - {e.s});
      EnumerationWithin(e.orders.Of(Endpoints), y.st.nodes[n].resources.Keys - {e.s});
      assert forall k: Kind :: Within(e.orders.Of(k), y.st.nodes[n].resources.Keys - {e.s});
    }
    DeleteKeepsOthers(y.st, n, e.s, e.orders);
    forall m ensures !Registered(y'.st, m, e.s) {
      assert Registered(y'.st, m, e.s) ==> m != n && OwnerOk(y, m, e.s);
    }
    RegFrame(y, y', e.s);
  }

  lemma RegSnap(y: Sys, e: Event)
    requires RegInv(y) && (e.PublishFull? || e.SyncDelta? || e.RefreshNodes?) && Enabled(y, e)
    ensures RegInv(Step(y, e))
  {
    hide LogAfter, Refresh, NewSnapshot;
    if e.RefreshNodes? {
      RefreshKeepsAll(y.st, y.snap.k, e.visits);
    }
    RegSame(y, Step(y, e));
  }

  lemma RegStep(y: Sys, e: Event)
    requires RegInv(y) && Enabled(y, e)
    ensures RegInv(Step(y, e))
  {
    hide *;
    match e
    case Open(_, _) => RegOpen(y, e);
    case Begin(_, _) => RegBegin(y, e);
    case RateLimited(_) => RegBegin(y, e);
    case AddNode(_) => RegAddNode(y, e);
    case Check(_) => RegCheck(y, e);
    case Update(_, _) => RegUpdate(y, e);
    case CloseFirst(_) => RegCloseFirst(y, e);
    case CloseSecond(_, _) => RegCloseSecond(y, e);
    case PublishFull(_, _) => RegSnap(y, e);
    case SyncDelta => RegSnap(y, e);
    case RefreshNodes(_) => RegSnap(y, e);
  }
}
