/** Snapshot versions: what clients can conclude from a version string, on every run. */
module Versions {
  import opened Collections
  import opened Names
  import opened Resources
  import opened Sections
  import opened Protocol
  import opened Registration

  /** The int32 counter behind the snapshots of `n`: the server's own for the full snapshot. */
  function Counter(st: State, k: Kind, n: NodeId): int
    requires n in st.nodes || n == EMPTY_NODE_ID
  {
    if n == EMPTY_NODE_ID then st.versions.Of(k) else st.nodes[n].versions.Of(k)
  }

  function Live(st: State): set<NodeId> {
    st.nodes.Keys + {EMPTY_NODE_ID}
  }

  /** Between two states the snapshot of a live node stays, or is replaced once under the next version. */
  ghost predicate NodeStep(st: State, st': State, k: Kind, n: NodeId)
    requires n in Live(st')
  {
    if n !in Live(st) then st'.Entry(k, n) == None && Counter(st', k, n) == 0
    else
      || (st'.Entry(k, n) == st.Entry(k, n) && Counter(st', k, n) == Counter(st, k, n))
      || (&& Counter(st', k, n) == Wrap32(Counter(st, k, n) + 1)
          && st'.Entry(k, n).Some? && st'.Entry(k, n).value.version == Itoa(Counter(st', k, n)))
  }

  ghost predicate VersionStep(st: State, st': State, k: Kind) {
    forall n | n in Live(st') :: NodeStep(st, st', k, n)
  }

  /** A log numbers its snapshots 1, 2, 3 and so on, in int32 arithmetic. */
  ghost predicate Numbered(log: seq<Snapshot>) {
    forall i | 0 <= i < |log| :: log[i].version == Itoa(Wrap32(i + 1))
  }

  /** The log of a node ends with its snapshot and has as many entries as its counter says. */
  ghost predicate LogOk(log: seq<Snapshot>, entry: Option<Snapshot>, counter: int) {
    && Numbered(log) && counter == Wrap32(|log|)
    && (if log == [] then entry == None else entry == Some(log[|log| - 1]))
  }

  function LogOf(log: map<NodeId, seq<Snapshot>>, n: NodeId): seq<Snapshot> {
    if n in log then log[n] else []
  }

  ghost predicate VersionHalf(y: Sys, k: Kind) {
    && y.st.caches.Of(k).Keys <= Live(y.st)
    && forall n | n in Live(y.st) :: LogOk(LogOf(y.log.Of(k), n), y.st.Entry(k, n), Counter(y.st, k, n))
  }

  ghost predicate VersionInv(y: Sys) {
    EMPTY_NODE_ID !in y.st.nodes && forall k: Kind :: VersionHalf(y, k)
  }

  lemma WrapNext(c: int)
    ensures Wrap32(Wrap32(c) + 1) == Wrap32(c + 1)
  {
  }

  lemma WrapSmall(a: nat)
    ensures a < 0x8000_0000 ==> Wrap32(a) == a
  {
  }

  lemma WrapEqual(a: int, b: int)
    ensures Wrap32(a) == Wrap32(b) <==> (a - b) % 0x1_0000_0000 == 0
  {
  }

  /** Logging a replaced snapshot keeps the log in step with the counter. */
  lemma LogGrows(log: seq<Snapshot>, entry: Option<Snapshot>, counter: int, snap: Snapshot)
    requires LogOk(log, entry, counter) && snap.version == Itoa(Wrap32(counter + 1))
    ensures LogOk(log + [snap], Some(snap), Wrap32(counter + 1)) && entry != Some(snap)
  {
    hide Itoa, Wrap32;
    WrapNext(|log|);
    VersionsDiffer(|log| + 1, |log|);
  }

  /** Two publications carry the same version exactly when their numbers agree modulo 2^32. */
  lemma VersionsDiffer(a: int, b: int)
    ensures Itoa(Wrap32(a)) == Itoa(Wrap32(b)) <==> (a - b) % 0x1_0000_0000 == 0
  {
    hide Itoa;
    WrapEqual(a, b);
    if Itoa(Wrap32(a)) == Itoa(Wrap32(b)) {
      ItoaInjective(Wrap32(a), Wrap32(b));
    }
  }

  lemma NumberedVersions(log: seq<Snapshot>, i: nat, j: nat)
    requires Numbered(log) && i < |log| && j < |log|
    ensures log[i].version == log[j].version <==> (i - j) % 0x1_0000_0000 == 0
    ensures Renders(log[i].version, (i + 1 + 0x8000_0000) % 0x1_0000_0000 - 0x8000_0000)
    ensures i + 1 < 0x8000_0000 ==> Renders(log[i].version, i + 1)
    ensures log[i].version != "" && log[j].version != ""
  {
    assert Wrap32(i + 1) == (i + 1 + 0x8000_0000) % 0x1_0000_0000 - 0x8000_0000;
    ItoaRenders(Wrap32(i + 1));
    hide Itoa, Wrap32, Renders;
    WrapSmall(i + 1);
    VersionsDiffer(i + 1, j + 1);
    ItoaShape(Wrap32(i + 1));
    ItoaShape(Wrap32(j + 1));
  }

  lemma LogNode(log: map<NodeId, seq<Snapshot>>, st: State, st': State, k: Kind, n: NodeId)
    requires n in Live(st) && n in Live(st') && NodeStep(st, st', k, n)
    requires LogOk(LogOf(log, n), st.Entry(k, n), Counter(st, k, n))
    ensures LogOk(LogOf(LogHalf(log, st.caches.Of(k), st'.caches.Of(k)), n), st'.Entry(k, n), Counter(st', k, n))
  {
    hide LogOk, Itoa, Wrap32;
    var before, after := LogOf(log, n), LogOf(LogHalf(log, st.caches.Of(k), st'.caches.Of(k)), n);
    if st'.Entry(k, n) != st.Entry(k, n) || Counter(st', k, n) != Counter(st, k, n) {
      LogGrows(before, st.Entry(k, n), Counter(st, k, n), st'.Entry(k, n).value);
      assert after == before + [st'.Entry(k, n).value];
    } else if st.Entry(k, n).Some? {
      assert after == before;
    } else {
      LogEmpty(before, Counter(st, k, n));
    }
  }

  lemma LogEmpty(log: seq<Snapshot>, counter: int)
    ensures LogOk(log, None, counter) ==> log == []
    ensures LogOk([], None, 0)
  {
  }

  lemma VersionHalfStep(y: Sys, y': Sys, k: Kind)
    requires VersionHalf(y, k) && VersionStep(y.st, y'.st, k)
    requires y'.log.Of(k) == LogHalf(y.log.Of(k), y.st.caches.Of(k), y'.st.caches.Of(k))
    requires y'.st.caches.Of(k).Keys <= Live(y'.st)
    ensures VersionHalf(y', k)
  {
    hide LogOk, Counter;
    forall n | n in Live(y'.st) ensures LogOk(LogOf(y'.log.Of(k), n), y'.st.Entry(k, n), Counter(y'.st, k, n)) {
      if n in Live(y.st) {
        LogNode(y.log.Of(k), y.st, y'.st, k, n);
      } else {
        LogEmpty([], 0);
        assert NodeStep(y.st, y'.st, k, n);
      }
    }
  }

  // ---------------------------------------------------------------------
  // Sections

  lemma SnapVersion(st: State, j: Kind, n: NodeId, order: seq<StreamId>, k: Kind)
    requires n in st.nodes && n != EMPTY_NODE_ID && Within(order, st.nodes[n].resources.Keys)
    ensures VersionStep(st, SnapNode(st, j, n, order), k)
    ensures j != k ==> forall m | m in Live(st) ::
              && SnapNode(st, j, n, order).Entry(k, m) == st.Entry(k, m)
              && Counter(SnapNode(st, j, n, order), k, m) == Counter(st, k, m)
    ensures SnapNode(st, j, n, order).nodes.Keys == st.nodes.Keys
  {
    hide Aggregate, Itoa, Wrap32;
  }

  lemma VersionSame(st: State, st': State, k: Kind)
    requires Live(st') <= Live(st)
    requires forall n | n in Live(st') :: st'.Entry(k, n) == st.Entry(k, n) && Counter(st', k, n) == Counter(st, k, n)
    ensures VersionStep(st, st', k)
  {
    hide Itoa, Wrap32;
  }

  lemma UpdateVersion(st: State, n: NodeId, t: TypeUrl, s: StreamId, names: seq<string>, order: seq<StreamId>, k: Kind)
    requires EMPTY_NODE_ID !in st.nodes && (n in st.nodes ==> Within(order, st.nodes[n].resources.Keys))
    requires UpdateStream(st, n, t, s, names, order).Ok?
    ensures VersionStep(st, UpdateStream(st, n, t, s, names, order).value, k)
  {
    hide Itoa, Wrap32, Aggregate, Copies, SnapNode;
    if KindOf(t).Some? {
      var j := KindOf(t).value;
      var st1 := st.(nodes := st.nodes[n := Recorded(st, j, st.nodes[n], t, s, names)]);
      assert st1.nodes[n].resources.Keys == st.nodes[n].resources.Keys;
      assert Live(st1) == Live(st);
      assert forall m | m in Live(st) :: st1.Entry(k, m) == st.Entry(k, m) && Counter(st1, k, m) == Counter(st, k, m);
      SnapVersion(st1, j, n, order, k);
    } else {
      VersionSame(st, st, k);
    }
  }

  lemma DeleteVersion(st: State, n: NodeId, s: StreamId, orders: PerKind<seq<StreamId>>, k: Kind)
    requires EMPTY_NODE_ID !in st.nodes
    requires n in st.nodes ==> forall j: Kind :: Within(orders.Of(j), st.nodes[n].resources.Keys - {s})
    ensures VersionStep(st, DeleteStream(st, n, s, orders), k)
  {
    hide Itoa, Wrap32, Aggregate, SnapNode;
    if n in st.nodes {
      assert orders.Of(Services) == orders.services && orders.Of(Endpoints) == orders.endpoints;
      var node := st.nodes[n].(resources := st.nodes[n].resources - {s});
      if node.resources == map[] {
        VersionSame(st, DeleteStream(st, n, s, orders), k);
      } else {
        DropVersion(st, n, s, orders, k);
      }
    } else {
      VersionSame(st, st, k);
    }
  }

  lemma DropVersion(st: State, n: NodeId, s: StreamId, orders: PerKind<seq<StreamId>>, k: Kind)
    requires EMPTY_NODE_ID !in st.nodes && n in st.nodes
    requires Within(orders.services, st.nodes[n].resources.Keys - {s}) && Within(orders.endpoints, st.nodes[n].resources.Keys - {s})
    ensures var st1 := st.(nodes := st.nodes[n := st.nodes[n].(resources := st.nodes[n].resources - {s})]);
            var st2 := SnapNode(st1, Services, n, orders.services);
            n in st2.nodes && Within(orders.endpoints, st2.nodes[n].resources.Keys)
            && VersionStep(st, SnapNode(st2, Endpoints, n, orders.endpoints), k)
  {
    hide Itoa, Wrap32, SnapNode, Counter, VersionStep;
    var st1 := st.(nodes := st.nodes[n := st.nodes[n].(resources := st.nodes[n].resources - {s})]);
    assert st1.nodes[n].resources.Keys == st.nodes[n].resources.Keys - {s};
    DroppedSame(st, n, s, k);
    var st2 := SnapNode(st1, Services, n, orders.services);
    SnapKeepsAll(st1, Services, n, orders.services);
    SnapVersion(st1, Services, n, orders.services, k);
    SnapVersion(st2, Endpoints, n, orders.endpoints, k);
    var st3 := SnapNode(st2, Endpoints, n, orders.endpoints);
    if k == Services {
      StepThenSame(st1, st2, st3, k);
      SameThenStep(st, st1, st3, k);
    } else {
      SameThenStep(st1, st2, st3, k);
      SameThenStep(st, st1, st3, k);
    }
  }

  ghost predicate SameVersions(st: State, st': State, k: Kind) {
    Live(st') == Live(st)
    && forall m | m in Live(st) :: st'.Entry(k, m) == st.Entry(k, m) && Counter(st', k, m) == Counter(st, k, m)
  }

  lemma DroppedSame(st: State, n: NodeId, s: StreamId, k: Kind)
    requires n in st.nodes
    ensures SameVersions(st, st.(nodes := st.nodes[n := st.nodes[n].(resources := st.nodes[n].resources - {s})]), k)
  {
  }

  lemma SameThenStep(a: State, b: State, c: State, k: Kind)
    requires SameVersions(a, b, k) && VersionStep(b, c, k)
    ensures VersionStep(a, c, k)
  {
    hide Itoa, Wrap32, Counter;
  }

  lemma StepThenSame(a: State, b: State, c: State, k: Kind)
    requires VersionStep(a, b, k) && SameVersions(b, c, k)
    ensures VersionStep(a, c, k)
  {
    hide Itoa, Wrap32, Counter;
  }

  lemma RefreshVersion(st: State, j: Kind, visits: map<NodeId, seq<StreamId>>, k: Kind)
    requires EMPTY_NODE_ID !in st.nodes && OrdersFor(st, visits)
    ensures VersionStep(st, Refresh(st, j, visits), k)
  {
    hide Itoa, Wrap32, RefreshedNodes, RefreshedSnapshots;
    RefreshedKeys(st, j);
    RefreshedSnapshotKeys(st, j, visits);
    var st' := Refresh(st, j, visits);
    forall n | n in Live(st') ensures NodeStep(st, st', k, n) {
      if n in st.nodes {
        RefreshedVersion(st, j, visits, n);
      }
    }
  }

  lemma RefreshedSnapshotKeys(st: State, j: Kind, visits: map<NodeId, seq<StreamId>>)
    requires OrdersFor(st, visits)
    ensures RefreshedSnapshots(st, j, visits).Keys == st.nodes.Keys
  {
  }

  lemma RefreshedVersion(st: State, j: Kind, visits: map<NodeId, seq<StreamId>>, n: NodeId)
    requires n in st.nodes && OrdersFor(st, visits)
    ensures n in RefreshedNodes(st, j) && n in RefreshedSnapshots(st, j, visits)
    ensures RefreshedNodes(st, j)[n].versions == st.nodes[n].versions.With(j, Wrap32(st.nodes[n].versions.Of(j) + 1))
    ensures RefreshedSnapshots(st, j, visits)[n].version == Itoa(Wrap32(st.nodes[n].versions.Of(j) + 1))
  {
    hide Itoa, Wrap32, Aggregate, RefreshTracked;
  }

  lemma AddVersion(st: State, n: NodeId, address: string, s: StreamId, k: Kind)
    requires EMPTY_NODE_ID !in st.nodes && st.caches.Of(k).Keys <= Live(st)
    ensures VersionStep(st, AddOrUpdateNode(st, n, address, s), k)
  {
    hide Itoa, Wrap32, EmptyResources;
  }

  lemma PublishVersion(st: State, j: Kind, lists: Lists, k: Kind)
    requires EMPTY_NODE_ID !in st.nodes
    ensures VersionStep(st, Publish(st, j, lists), k)
  {
    hide Itoa, Wrap32, IndexByName;
    var st' := Publish(st, j, lists);
    forall n | n in st.nodes ensures st'.Entry(k, n) == st.Entry(k, n) && Counter(st', k, n) == Counter(st, k, n) {
    }
    match k case Services => case Endpoints =>
  }

  lemma EffectVersion(y: Sys, e: Event, k: Kind)
    requires RegInv(y) && EMPTY_NODE_ID !in y.st.nodes && Enabled(y, e) && y.st.caches.Of(k).Keys <= Live(y.st)
    ensures VersionStep(y.st, Effect(y, e), k)
  {
    assert e.Update? ==> PhaseOk(y, e.s, y.inflight[e.s]);
    hide RegInv, VersionStep, UpdateStream, DeleteStream, Refresh, AddOrUpdateNode, Publish;
    match e
    case Update(s, order) =>
      var r := y.inflight[s].r;
      EnumerationWithin(order, y.st.nodes[r.node].resources.Keys);
      if UpdateStream(y.st, r.node, r.t, s, r.names, order).Ok? {
        UpdateVersion(y.st, r.node, r.t, s, r.names, order, k);
      } else {
        VersionSame(y.st, y.st, k);
      }
    case CloseSecond(s, orders) =>
      var n := y.inflight[s].node;
      if n in y.st.nodes {
        forall j: Kind ensures Within(orders.Of(j), y.st.nodes[n].resources.Keys - {s}) {
          EnumerationWithin(orders.Of(j), y.st.nodes[n].resources.Keys - {s});
        }
      }
      DeleteVersion(y.st, n, s, orders, k);
    case RefreshNodes(visits) =>
      RefreshVersion(y.st, y.snap.k, visits, k);
    case PublishFull(j, p) =>
      PublishVersion(y.st, j, p.lists, k);
    case AddNode(s) =>
      AddVersion(y.st, y.inflight[s].r.node, y.st.streams[s], s, k);
    case _ =>
      VersionSame(y.st, Effect(y, e), k);
  }

  lemma VersionInvStep(y: Sys, e: Event, k: Kind)
    requires RegInv(y) && VersionHalf(y, k) && Enabled(y, e)
    requires Step(y, e).st.caches.Of(k).Keys <= Live(Step(y, e).st)
    ensures VersionHalf(Step(y, e), k)
  {
    EffectVersion(y, e, k);
    hide VersionHalf, VersionStep, Effect, LogHalf;
    VersionHalfStep(y, Step(y, e), k);
  }
}
