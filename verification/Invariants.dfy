/** The remaining invariants of the protocol: agreement with the full snapshot, requests, payloads. */
module Invariants {
  import opened Collections
  import opened Resources
  import opened Matching
  import opened Sections
  import opened Payloads
  import opened Agreement
  import opened Protocol
  import opened Registration

  // ---------------------------------------------------------------------
  // Agreement

  ghost predicate AgreeHalf(y: Sys, k: Kind) {
    && HalfInv(y.st, k, y.prev.Of(k), {})
    && (if Quiescent(y, k) then y.prev.Of(k) == y.st.Full(k) else y.st.Entry(k, EMPTY_NODE_ID).Some?)
  }

  ghost predicate AgreeInv(y: Sys) {
    forall k: Kind :: AgreeHalf(y, k)
  }

  /** Only publishing touches the full snapshot. */
  lemma FullKept(y: Sys, e: Event, k: Kind)
    requires EMPTY_NODE_ID !in y.st.nodes && Enabled(y, e)
    requires e.PublishFull? ==> e.k != k
    ensures Effect(y, e).Entry(k, EMPTY_NODE_ID) == y.st.Entry(k, EMPTY_NODE_ID)
    ensures Effect(y, e).Full(k) == y.st.Full(k)
  {
    hide SnapshotOf, Recorded, NewSnapshot, RefreshedNodes, EmptyResources;
  }

  lemma AgreeUntouched(y: Sys, y': Sys, k: Kind)
    requires AgreeHalf(y, k) && y'.prev == y.prev && (Quiescent(y', k) <==> Quiescent(y, k))
    requires y'.st.localhost == y.st.localhost && y'.st.nodes == y.st.nodes && y'.st.caches.Of(k) == y.st.caches.Of(k)
    ensures AgreeHalf(y', k)
  {
    hide HalfInv;
    HalfFrame(y.st, y'.st, k, y.prev.Of(k), {});
  }

  lemma AgreeNodeEvent(y: Sys, e: Event, k: Kind)
    requires AgreeHalf(y, k) && Enabled(y, e) && (e.AddNode? || e.Update? || e.CloseSecond?)
    ensures AgreeHalf(Step(y, e), k)
  {
    hide HalfInv, LogAfter, Effect;
    NoEmptyNode(y.st, k, y.prev.Of(k));
    FullKept(y, e, k);
    EffectHalf(y, e, k);
    assert Step(y, e).st == Effect(y, e);
    assert Step(y, e).prev == y.prev && Step(y, e).snap == y.snap;
  }

  lemma EffectHalf(y: Sys, e: Event, k: Kind)
    requires HalfInv(y.st, k, y.prev.Of(k), {}) && Enabled(y, e) && (e.AddNode? || e.Update? || e.CloseSecond?)
    ensures HalfInv(Effect(y, e), k, y.prev.Of(k), {})
  {
    hide HalfInv, AddOrUpdateNode, UpdateStream, DeleteStream;
    match e
    case AddNode(s) =>
      AddHalf(y.st, k, y.prev.Of(k), y.inflight[s].r.node, y.st.streams[s], s);
    case Update(s, order) =>
      var r := y.inflight[s].r;
      UpdateHalf(y.st, k, y.prev.Of(k), r.node, r.t, s, r.names, order);
    case CloseSecond(s, orders) =>
      var n := y.inflight[s].node;
      if n in y.st.nodes {
        forall j: Kind ensures Within(orders.Of(j), y.st.nodes[n].resources.Keys - {s}) {
          EnumerationWithin(orders.Of(j), y.st.nodes[n].resources.Keys - {s});
        }
      }
      DeleteHalf(y.st, k, y.prev.Of(k), n, s, orders);
  }

  lemma AgreeSnapEvent(y: Sys, e: Event, k: Kind)
    requires AgreeHalf(y, k) && Enabled(y, e) && (e.PublishFull? || e.RefreshNodes?)
    ensures AgreeHalf(Step(y, e), k)
  {
    if e.PublishFull? {
      AgreePublish(y, e, k);
    } else {
      AgreeRefresh(y, e, k);
    }
  }

  lemma AgreePublish(y: Sys, e: Event, k: Kind)
    requires AgreeHalf(y, k) && Enabled(y, e) && e.PublishFull?
    ensures AgreeHalf(Step(y, e), k)
  {
    hide HalfInv, LogAfter, NewSnapshot;
    var y' := Step(y, e);
    if e.k == k {
      PublishHalf(y.st, k, e.payload.lists);
    } else {
      assert y'.st.caches.Of(k) == y.st.caches.Of(k);
      AgreeUntouched(y, y', k);
    }
  }

  lemma AgreeRefresh(y: Sys, e: Event, k: Kind)
    requires AgreeHalf(y, k) && Enabled(y, e) && e.RefreshNodes?
    ensures AgreeHalf(Step(y, e), k)
  {
    hide HalfInv, LogAfter, Refresh;
    NoEmptyNode(y.st, k, y.prev.Of(k));
    FullKept(y, e, k);
    if y.snap.k == k {
      RefreshHalf(y.st, k, y.prev.Of(k), e.visits);
    } else {
      RefreshOtherHalf(y.st, y.snap.k, k, y.prev.Of(k), e.visits);
      assert y.prev.With(y.snap.k, y.st.Full(y.snap.k)).Of(k) == y.prev.Of(k);
    }
  }

  lemma AgreeStep(y: Sys, e: Event)
    requires AgreeInv(y) && Enabled(y, e)
    ensures AgreeInv(Step(y, e))
  {
    forall k: Kind ensures AgreeHalf(Step(y, e), k) {
      assert AgreeHalf(y, k);
      hide AgreeHalf, Step, Enabled;
      if e.AddNode? || e.Update? || e.CloseSecond? {
        AgreeNodeEvent(y, e, k);
      } else if e.PublishFull? || e.RefreshNodes? {
        AgreeSnapEvent(y, e, k);
      } else {
        AgreeQuietEvent(y, e, k);
      }
    }
  }

  lemma AgreeQuietEvent(y: Sys, e: Event, k: Kind)
    requires AgreeHalf(y, k) && Enabled(y, e)
    requires !(e.AddNode? || e.Update? || e.CloseSecond? || e.PublishFull? || e.RefreshNodes?)
    ensures AgreeHalf(Step(y, e), k)
  {
    hide AgreeHalf, LogAfter, ResourcesMatch;
    AgreeUntouched(y, Step(y, e), k);
  }

  // ---------------------------------------------------------------------
  // Completed requests

  /** The names a stream has recorded are those of its last completed request, if that had no duplicates. */
  ghost predicate LatestOk(y: Sys, n: NodeId, s: StreamId, t: TypeUrl)
    requires Registered(y.st, n, s) && KindOf(t).Some?
  {
    NoDup(y.Latest(s, t)) ==> SetOf(NamesAt(y.st, n, s, t)) == SetOf(y.Latest(s, t)) && NoDup(NamesAt(y.st, n, s, t))
  }

  ghost predicate LatestInv(y: Sys) {
    && (forall s, t | (s, t) in y.latest :: s in y.used && (s in y.st.streams ==> s in y.bound && Registered(y.st, y.bound[s], s)))
    && (forall n, s, t | Registered(y.st, n, s) && KindOf(t).Some? :: LatestOk(y, n, s, t))
  }

  lemma LatestFrame(y: Sys, y': Sys, x: StreamId)
    requires LatestInv(y) && OthersKept(y.st, y'.st, x) && y.used <= y'.used
    requires forall s | s != x ::
               && (s in y'.bound <==> s in y.bound) && (s in y.bound ==> y'.bound[s] == y.bound[s])
               && (s in y'.st.streams <==> s in y.st.streams)
    requires forall s, t | s != x :: ((s, t) in y'.latest <==> (s, t) in y.latest) && y'.Latest(s, t) == y.Latest(s, t)
    requires forall t | (x, t) in y'.latest :: x in y'.used && (x in y'.st.streams ==> x in y'.bound && Registered(y'.st, y'.bound[x], x))
    requires forall n, t | Registered(y'.st, n, x) && KindOf(t).Some? :: LatestOk(y', n, x, t)
    ensures LatestInv(y')
  {
    forall n, s, t | Registered(y'.st, n, s) && KindOf(t).Some? ensures LatestOk(y', n, s, t) {
      if s != x {
        assert LatestOk(y, n, s, t);
        assert NamesIn(y'.st, n, s) == NamesIn(y.st, n, s);
      }
    }
  }

  lemma LatestSame(y: Sys, y': Sys)
    requires LatestInv(y) && AllKept(y.st, y'.st) && y'.used == y.used && y'.bound == y.bound
    requires y'.latest == y.latest && y'.st.streams.Keys <= y.st.streams.Keys
    ensures LatestInv(y')
  {
    forall n, s, t | Registered(y'.st, n, s) && KindOf(t).Some? ensures LatestOk(y', n, s, t) {
      assert LatestOk(y, n, s, t);
      assert NamesIn(y'.st, n, s) == NamesIn(y.st, n, s);
    }
  }

  lemma LatestOpenBegin(y: Sys, e: Event)
    requires RegInv(y) && LatestInv(y) && Enabled(y, e) && (e.Open? || e.Begin?)
    ensures LatestInv(Step(y, e))
  {
    hide LogAfter;
    var y' := Step(y, e);
    forall n, t | Registered(y'.st, n, e.s) && KindOf(t).Some? ensures LatestOk(y', n, e.s, t) {
      assert LatestOk(y, n, e.s, t);
    }
    LatestFrame(y, y', e.s);
  }

  lemma LatestAddNode(y: Sys, e: Event)
    requires RegInv(y) && LatestInv(y) && Enabled(y, e) && e.AddNode?
    ensures LatestInv(Step(y, e))
  {
    hide LogAfter, AddOrUpdateNode;
    var y', r := Step(y, e), y.inflight[e.s].r;
    assert PhaseOk(y, e.s, y.inflight[e.s]);
    AddKeepsOthers(y.st, r.node, y.st.streams[e.s], e.s);
    forall n, t | Registered(y'.st, n, e.s) && KindOf(t).Some? ensures LatestOk(y', n, e.s, t) {
      if Registered(y.st, n, e.s) {
        assert OwnerOk(y, n, e.s);
        assert LatestOk(y, n, e.s, t);
      } else {
        assert y.Latest(e.s, t) == [];
      }
    }
    LatestFrame(y, y', e.s);
  }

  lemma LatestCheck(y: Sys, e: Event)
    requires RegInv(y) && LatestInv(y) && Enabled(y, e) && e.Check?
    ensures LatestInv(Step(y, e))
  {
    hide LogAfter, ResourcesMatch;
    var y', r := Step(y, e), y.inflight[e.s].r;
    assert PhaseOk(y, e.s, y.inflight[e.s]);
    forall n, t | Registered(y'.st, n, e.s) && KindOf(t).Some? ensures LatestOk(y', n, e.s, t) {
      assert LatestOk(y, n, e.s, t) && OwnerOk(y, n, e.s) && OwnerOk(y, r.node, e.s);
      if t == r.t && (e.s, t) in y'.latest && y'.latest != y.latest && NoDup(r.names) {
        MatchNamesTheSame(NamesAt(y.st, n, e.s, t), r.names);
      }
    }
    assert OwnerOk(y, r.node, e.s);
    LatestFrame(y, y', e.s);
  }

  lemma LatestUpdate(y: Sys, e: Event)
    requires RegInv(y) && LatestInv(y) && Enabled(y, e) && e.Update?
    ensures LatestInv(Step(y, e))
  {
    hide LogAfter, UpdateStream, ResourcesMatch;
    var y', r := Step(y, e), y.inflight[e.s].r;
    assert PhaseOk(y, e.s, y.inflight[e.s]) && OwnerOk(y, r.node, e.s);
    EnumerationWithin(e.order, y.st.nodes[r.node].resources.Keys);
    if KindOf(r.t).None? {
      UpdateOfOtherType(y.st, r.node, r.t, e.s, r.names, e.order);
      LatestSame(y, y');
    } else if UpdateStream(y.st, r.node, r.t, e.s, r.names, e.order).Ok? {
      UpdateKeepsOthers(y.st, r.node, r.t, e.s, r.names, e.order);
      forall n, t | Registered(y'.st, n, e.s) && KindOf(t).Some? ensures LatestOk(y', n, e.s, t) {
        assert OwnerOk(y, n, e.s) && LatestOk(y, n, e.s, t);
      }
      LatestFrame(y, y', e.s);
    } else {
      LatestSame(y, y');
    }
  }

  lemma LatestCloseSecond(y: Sys, e: Event)
    requires RegInv(y) && LatestInv(y) && Enabled(y, e) && e.CloseSecond?
    ensures LatestInv(Step(y, e))
  {
    hide LogAfter, DeleteStream;
    var y', n := Step(y, e), y.inflight[e.s].node;
    assert PhaseOk(y, e.s, y.inflight[e.s]);
    if n in y.st.nodes {
      forall k: Kind ensures Within(e.orders.Of(k), y.st.nodes[n].resources.Keys - {e.s}) {
        EnumerationWithin(e.orders.Of(k), y.st.nodes[n].resources.Keys - {e.s});
      }
    }
    DeleteKeepsOthers(y.st, n, e.s, e.orders);
    forall m ensures !Registered(y'.st, m, e.s) {
      assert Registered(y'.st, m, e.s) ==> m != n && OwnerOk(y, m, e.s);
    }
    LatestFrame(y, y', e.s);
  }

  lemma LatestStep(y: Sys, e: Event)
    requires RegInv(y) && LatestInv(y) && Enabled(y, e)
    ensures LatestInv(Step(y, e))
  {
    if e.Open? || e.Begin? {
      LatestOpenBegin(y, e);
    } else if e.AddNode? {
      LatestAddNode(y, e);
    } else if e.Check? {
      LatestCheck(y, e);
    } else if e.Update? {
      LatestUpdate(y, e);
    } else if e.CloseSecond? {
      LatestCloseSecond(y, e);
    } else {
      hide LogAfter, Refresh, NewSnapshot, LatestInv;
      if e.RefreshNodes? {
        RefreshKeepsAll(y.st, y.snap.k, e.visits);
      }
      LatestSame(y, Step(y, e));
    }
  }

  // ---------------------------------------------------------------------
  // Payloads

  /** The caches hold the last payload, except for delta caches still waiting to be synced. */
  ghost predicate PublishedHalf(y: Sys, k: Kind) {
    match y.published.Of(k)
    case None => y.st.Entry(k, EMPTY_NODE_ID) == None && Quiescent(y, k)
    case Some(p) =>
      && p.lists.Keys == TypesOf(k) && p.deltas.Keys == SetOf(DeltaOrder(k))
      && y.st.Entry(k, EMPTY_NODE_ID).Some? && y.st.Full(k) == NewSnapshot("", p.lists).items
      && (forall t | t in p.deltas ::
            || (!Quiescent(y, k) && t in y.snap.pending)
            || (t in y.st.deltas && y.st.deltas[t] == p.deltas[t]))
      && (!Quiescent(y, k) ==> forall t | t in y.snap.pending :: t in p.deltas)
  }

  ghost predicate PublishedInv(y: Sys) {
    && EMPTY_NODE_ID !in y.st.nodes
    && forall k: Kind :: PublishedHalf(y, k)
  }

  lemma DeltaTypesApart(t: TypeUrl)
    ensures !(t in SetOf(DeltaOrder(Services)) && t in SetOf(DeltaOrder(Endpoints)))
  {
  }

  lemma PublishedFrame(y: Sys, y': Sys, k: Kind)
    requires PublishedHalf(y, k) && y'.published.Of(k) == y.published.Of(k)
    requires y'.st.Entry(k, EMPTY_NODE_ID) == y.st.Entry(k, EMPTY_NODE_ID)
    requires Quiescent(y', k) <==> Quiescent(y, k)
    requires !Quiescent(y, k) ==> y'.snap == y.snap
    requires forall t | t in SetOf(DeltaOrder(k)) && t in y.st.deltas :: t in y'.st.deltas && y'.st.deltas[t] == y.st.deltas[t]
    ensures PublishedHalf(y', k)
  {
    hide DeltaOrder, NewSnapshot;
  }

  lemma PublishedPublish(y: Sys, e: Event)
    requires e.PublishFull? && Enabled(y, e)
    ensures PublishedHalf(Step(y, e), e.k)
  {
    hide LogAfter, DeltaOrder, IndexByName;
    var y' := Step(y, e);
    assert y'.published.Of(e.k) == Some(e.payload);
    assert y'.st.Entry(e.k, EMPTY_NODE_ID).Some?;
  }

  lemma PublishedSync(y: Sys, e: Event)
    requires e.SyncDelta? && Enabled(y, e) && PublishedHalf(y, y.snap.k)
    ensures PublishedHalf(Step(y, e), y.snap.k)
  {
    hide LogAfter, DeltaOrder, NewSnapshot;
    var y', k := Step(y, e), y.snap.k;
    var p := y.published.Of(k).value;
    assert y'.st.Entry(k, EMPTY_NODE_ID) == y.st.Entry(k, EMPTY_NODE_ID);
    assert forall t | t in y.snap.pending && t != y.snap.pending[0] :: t in y'.snap.pending;
    assert forall t | t in y'.snap.pending :: t in y.snap.pending;
  }

  lemma SyncedTypeApart(y: Sys, e: Event, k: Kind)
    requires e.SyncDelta? && Enabled(y, e) && PublishedHalf(y, y.snap.k) && y.snap.k != k
    ensures y.snap.pending[0] !in SetOf(DeltaOrder(k))
  {
    DeltaTypesApart(y.snap.pending[0]);
    hide DeltaOrder;
  }

  lemma PublishedHalfStep(y: Sys, e: Event, k: Kind)
    requires EMPTY_NODE_ID !in y.st.nodes && PublishedHalf(y, k) && Enabled(y, e)
    requires e.SyncDelta? ==> PublishedHalf(y, y.snap.k)
    ensures PublishedHalf(Step(y, e), k)
  {
    hide LogAfter, DeltaOrder, NewSnapshot, PublishedHalf, AddOrUpdateNode, Refresh, UpdateStream, DeleteStream;
    if e.PublishFull? && e.k == k {
      PublishedPublish(y, e);
    } else if e.SyncDelta? && y.snap.k == k {
      PublishedSync(y, e);
    } else if e.RefreshNodes? && y.snap.k == k {
      PublishedRefresh(y, e);
    } else {
      FullKept(y, e, k);
      SnapKept(y, e, k);
      if e.SyncDelta? {
        SyncedTypeApart(y, e, k);
        SyncOnly(y, e);
      } else {
        DeltasKept(y, e);
      }
      hide Step, Effect, Enabled;
      PublishedFrame(y, Step(y, e), k);
    }
  }

  lemma SyncOnly(y: Sys, e: Event)
    requires e.SyncDelta? && Enabled(y, e)
    ensures forall t | t != y.snap.pending[0] && t in y.st.deltas :: t in Effect(y, e).deltas && Effect(y, e).deltas[t] == y.st.deltas[t]
  {
  }

  /** A step that is not part of a snap of half `k` leaves the snap state of that half alone. */
  lemma SnapKept(y: Sys, e: Event, k: Kind)
    requires Enabled(y, e)
    requires e.PublishFull? ==> e.k != k
    requires e.SyncDelta? || e.RefreshNodes? ==> y.snap.k != k
    ensures var y' := Step(y, e);
            && y'.st == Effect(y, e) && y'.published.Of(k) == y.published.Of(k)
            && (Quiescent(y', k) <==> Quiescent(y, k)) && (!Quiescent(y, k) ==> y'.snap == y.snap)
  {
    hide Effect, LogAfter, NeedToUpdate, UpdateStream, OrdersFor, IsEnumeration;
  }

  lemma PublishedRefresh(y: Sys, e: Event)
    requires EMPTY_NODE_ID !in y.st.nodes && e.RefreshNodes? && Enabled(y, e) && PublishedHalf(y, y.snap.k)
    ensures PublishedHalf(Step(y, e), y.snap.k)
  {
    FullKept(y, e, y.snap.k);
    hide LogAfter, DeltaOrder, NewSnapshot, RefreshedNodes, RefreshedSnapshots;
  }

  lemma DeltasKept(y: Sys, e: Event)
    requires Enabled(y, e) && !e.SyncDelta?
    ensures Effect(y, e).deltas == y.st.deltas
  {
    hide SnapshotOf, Recorded, NewSnapshot, RefreshedNodes, RefreshedSnapshots, EmptyResources;
  }

  lemma PublishedStep(y: Sys, e: Event)
    requires RegInv(y) && PublishedInv(y) && Enabled(y, e)
    ensures PublishedInv(Step(y, e))
  {
    RegStep(y, e);
    forall k: Kind ensures PublishedHalf(Step(y, e), k) {
      assert PublishedHalf(y, k) && PublishedHalf(y, Services) && PublishedHalf(y, Endpoints);
      hide PublishedHalf, LogAfter;
      PublishedHalfStep(y, e, k);
    }
  }
}
