/**
  The guarded server against one that updates on every request: every run of the first is matched by a run
  of the second with the same opens, closes, requests and snaps, and clients are served the same.
 */
module Refinement {
  import opened Collections
  import opened Resources
  import opened Matching
  import opened Sections
  import opened Agreement
  import opened Protocol
  import opened Registration
  import opened Invariants
  import opened Theorems

  // ---------------------------------------------------------------------
  // Matching states

  /** The same streams on the same nodes, each with the same set of names for every type. */
  ghost predicate NamesAlike(a: State, b: State) {
    forall n, s ::
      && (Registered(a, n, s) <==> Registered(b, n, s))
      && (Registered(a, n, s) ==> StreamAlike(a, b, n, s))
  }

  ghost predicate StreamAlike(a: State, b: State, n: NodeId, s: StreamId)
    requires Registered(a, n, s) && Registered(b, n, s)
  {
    forall t | KindOf(t).Some? :: SetOf(NamesAt(a, n, s, t)) == SetOf(NamesAt(b, n, s, t))
  }

  /** Everything but the nodes and their snapshots. */
  ghost predicate SharedAlike(a: State, b: State) {
    && a.localhost == b.localhost && a.streams == b.streams && a.versions == b.versions && a.deltas == b.deltas
    && forall k: Kind :: a.Entry(k, EMPTY_NODE_ID) == b.Entry(k, EMPTY_NODE_ID)
  }

  ghost predicate ControlAlike(y: Sys, z: Sys) {
    && y.inflight == z.inflight && y.snap == z.snap && y.used == z.used && y.bound == z.bound && y.published == z.published
  }

  ghost predicate Alike(y: Sys, z: Sys) {
    && y.guarded && !z.guarded
    && ControlAlike(y, z) && SharedAlike(y.st, z.st) && NamesAlike(y.st, z.st)
  }

  /** The requests in flight name nothing twice. */
  ghost predicate Tidy(y: Sys) {
    forall s | s in y.inflight && !y.inflight[s].Closing? :: NoDup(y.inflight[s].r.names)
  }

  ghost predicate TidyEvent(e: Event) {
    e.Begin? ==> NoDup(e.r.names)
  }

  lemma SameKeys(a: State, b: State)
    requires NamesAlike(a, b) && Inhabited(a) && Inhabited(b)
    ensures a.nodes.Keys == b.nodes.Keys
    ensures forall n | n in a.nodes :: a.nodes[n].resources.Keys == b.nodes[n].resources.Keys
  {
    hide StreamAlike;
    forall n | n in a.nodes ensures n in b.nodes {
      var order := EnumerationExists(a.nodes[n].resources.Keys);
      var s := order[0];
      assert Registered(a, n, s);
    }
    forall n | n in b.nodes ensures n in a.nodes {
      var order := EnumerationExists(b.nodes[n].resources.Keys);
      var s := order[0];
      assert Registered(b, n, s);
    }
    forall n | n in a.nodes ensures a.nodes[n].resources.Keys == b.nodes[n].resources.Keys {
      forall s ensures s in a.nodes[n].resources <==> s in b.nodes[n].resources {
        assert Registered(a, n, s) <==> Registered(b, n, s);
      }
    }
  }

  /** Matching states serve alike, in each half that is quiescent. */
  lemma AlikeServes(y: Sys, z: Sys, k: Kind, n: NodeId, t: TypeUrl)
    requires Inv(y) && Inv(z) && Alike(y, z) && Quiescent(y, k) && n in y.st.nodes && t in TypesOf(k)
    ensures n in z.st.nodes && y.st.Served(k, n, t) == z.st.Served(k, n, t)
  {
    hide HalfInv, Inv, NamesAlike, TypesOf;
    QuiescentHalf(y, k);
    QuiescentHalf(z, k);
    SameKeys(y.st, z.st);
    assert y.st.Entry(k, EMPTY_NODE_ID) == z.st.Entry(k, EMPTY_NODE_ID);
    assert y.st.Full(k) == z.st.Full(k);
    SameServed(y.st, z.st, k, n, t);
  }

  lemma SameServed(a: State, b: State, k: Kind, n: NodeId, t: TypeUrl)
    requires HalfInv(a, k, a.Full(k), {}) && HalfInv(b, k, b.Full(k), {})
    requires a.Full(k) == b.Full(k) && a.localhost == b.localhost && NamesAlike(a, b)
    requires n in a.nodes && n in b.nodes && t in TypesOf(k)
    ensures a.Served(k, n, t) == b.Served(k, n, t)
  {
    hide HalfInv, NamesAlike, Restriction, Requested, TypesOf;
    ServedIsRestriction(a, k, n, t);
    ServedIsRestriction(b, k, n, t);
    RequestedAlike(a, b, k, n, t);
    RequestedAlike(b, a, k, n, t);
    assert Requested(a.nodes[n].Half(k), t) == Requested(b.nodes[n].Half(k), t);
  }

  lemma QuiescentHalf(y: Sys, k: Kind)
    requires Inv(y) && Quiescent(y, k)
    ensures HalfInv(y.st, k, y.st.Full(k), {}) && Inhabited(y.st)
  {
    assert AgreeHalf(y, k);
    hide HalfInv;
  }

  lemma RequestedAlike(a: State, b: State, k: Kind, n: NodeId, t: TypeUrl)
    requires (NamesAlike(a, b) || NamesAlike(b, a)) && n in a.nodes && n in b.nodes && t in TypesOf(k)
    ensures Requested(a.nodes[n].Half(k), t) <= Requested(b.nodes[n].Half(k), t)
  {
    forall x | x in Requested(a.nodes[n].Half(k), t) ensures x in Requested(b.nodes[n].Half(k), t) {
      var s :| s in a.nodes[n].Half(k) && x in a.nodes[n].Half(k)[s].NamesOf(t);
      assert Registered(a, n, s) && Registered(b, n, s);
      assert StreamAlike(a, b, n, s) || StreamAlike(b, a, n, s);
      assert x in SetOf(NamesAt(a, n, s, t)) && x in SetOf(NamesAt(b, n, s, t));
      assert s in b.nodes[n].Half(k) && x in b.nodes[n].Half(k)[s].NamesOf(t);
    }
  }

  // ---------------------------------------------------------------------
  // What a step does to the shared part

  lemma EffectRest(y: Sys, e: Event)
    requires Enabled(y, e)
    ensures var st := Effect(y, e);
            && st.localhost == y.st.localhost
            && st.streams == (match e
                              case Open(s, address) => y.st.streams[s := address]
                              case CloseFirst(s) => y.st.streams - {s}
                              case _ => y.st.streams)
            && (!e.PublishFull? ==> st.versions == y.st.versions)
  {
    hide SnapshotOf, Recorded, NewSnapshot, RefreshedNodes, RefreshedSnapshots, EmptyResources, IsEnumeration;
  }

  lemma SharedStep(y: Sys, z: Sys, e: Event)
    requires Inv(y) && Inv(z) && SharedAlike(y.st, z.st) && ControlAlike(y, z) && Enabled(y, e) && Enabled(z, e)
    ensures SharedAlike(Effect(y, e), Effect(z, e))
  {
    assert EMPTY_NODE_ID !in y.st.nodes && EMPTY_NODE_ID !in z.st.nodes;
    hide Inv;
    EffectRest(y, e);
    EffectRest(z, e);
    if e.PublishFull? {
      PublishAlike(y.st, z.st, e.k, e.payload.lists);
    } else {
      forall k: Kind ensures Effect(y, e).Entry(k, EMPTY_NODE_ID) == Effect(z, e).Entry(k, EMPTY_NODE_ID) {
        FullKept(y, e, k);
        FullKept(z, e, k);
      }
      if e.SyncDelta? {
        hide Enabled;
      } else {
        DeltasKept(y, e);
        DeltasKept(z, e);
        hide Effect, Enabled;
      }
    }
  }

  lemma PublishAlike(a: State, b: State, k: Kind, lists: Lists)
    requires SharedAlike(a, b)
    ensures SharedAlike(Publish(a, k, lists), Publish(b, k, lists))
  {
    hide NewSnapshot;
    var a', b' := Publish(a, k, lists), Publish(b, k, lists);
    forall j: Kind ensures a'.Entry(j, EMPTY_NODE_ID) == b'.Entry(j, EMPTY_NODE_ID) {
      assert a.Entry(j, EMPTY_NODE_ID) == b.Entry(j, EMPTY_NODE_ID);
    }
  }

  // ---------------------------------------------------------------------
  // What a step does to the names

  lemma KeptAlike(a: State, b: State, a': State, b': State)
    requires NamesAlike(a, b) && AllKept(a, a') && AllKept(b, b')
    ensures NamesAlike(a', b')
  {
    forall n, s | Registered(a', n, s) ensures Registered(b', n, s) && StreamAlike(a', b', n, s) {
      assert Registered(a, n, s) && Registered(b, n, s) && StreamAlike(a, b, n, s);
      assert NamesIn(a', n, s) == NamesIn(a, n, s) && NamesIn(b', n, s) == NamesIn(b, n, s);
    }
    forall n, s | Registered(b', n, s) ensures Registered(a', n, s) {
      assert Registered(b, n, s);
    }
  }

  /** A section on behalf of stream `x` has only to account for `x`. */
  lemma OneAlike(a: State, b: State, a': State, b': State, x: StreamId)
    requires NamesAlike(a, b) && OthersKept(a, a', x) && OthersKept(b, b', x)
    requires forall n :: Registered(a', n, x) <==> Registered(b', n, x)
    requires forall n | Registered(a', n, x) :: Registered(b', n, x) && StreamAlike(a', b', n, x)
    ensures NamesAlike(a', b')
  {
    forall n, s | s != x && Registered(a', n, s) ensures Registered(b', n, s) && StreamAlike(a', b', n, s) {
      assert Registered(a, n, s) && Registered(b, n, s) && StreamAlike(a, b, n, s);
      assert NamesIn(a', n, s) == NamesIn(a, n, s) && NamesIn(b', n, s) == NamesIn(b, n, s);
    }
    forall n, s | s != x && Registered(b', n, s) ensures Registered(a', n, s) {
      assert Registered(b, n, s);
    }
  }

  lemma AddAlike(y: Sys, z: Sys, e: Event)
    requires RegInv(y) && RegInv(z) && Alike(y, z) && e.AddNode? && Enabled(y, e) && Enabled(z, e)
    ensures NamesAlike(Effect(y, e), Effect(z, e))
  {
    hide AddOrUpdateNode, SharedAlike;
    var s, r := e.s, y.inflight[e.s].r;
    var a, b := Effect(y, e), Effect(z, e);
    assert PhaseOk(y, s, y.inflight[s]) && PhaseOk(z, s, z.inflight[s]);
    AddKeepsOthers(y.st, r.node, y.st.streams[s], s);
    AddKeepsOthers(z.st, r.node, z.st.streams[s], s);
    forall n ensures Registered(y.st, n, s) ==> n == r.node {
      assert Registered(y.st, n, s) ==> OwnerOk(y, n, s);
    }
    forall n ensures Registered(z.st, n, s) ==> n == r.node {
      assert Registered(z.st, n, s) ==> OwnerOk(z, n, s);
    }
    assert Registered(y.st, r.node, s) <==> Registered(z.st, r.node, s);
    if r.node != EMPTY_NODE_ID {
      if Registered(y.st, r.node, s) {
        assert StreamAlike(y.st, z.st, r.node, s);
      }
      assert StreamAlike(a, b, r.node, s);
    }
    OneAlike(y.st, z.st, a, b, s);
  }

  lemma UpdateAlike(y: Sys, z: Sys, e: Event)
    requires RegInv(y) && RegInv(z) && Alike(y, z) && e.Update? && Enabled(y, e) && Enabled(z, e)
    ensures NamesAlike(Effect(y, e), Effect(z, e))
    ensures var r := y.inflight[e.s].r;
            && r.node in y.st.nodes && r.node in z.st.nodes
            && (UpdateStream(y.st, r.node, r.t, e.s, r.names, e.order).Ok? <==>
                  UpdateStream(z.st, r.node, r.t, e.s, r.names, e.order).Ok?)
  {
    var s, r := e.s, y.inflight[e.s].r;
    var a, b := Effect(y, e), Effect(z, e);
    assert PhaseOk(y, s, y.inflight[s]) && PhaseOk(z, s, z.inflight[s]);
    EnumerationWithin(e.order, y.st.nodes[r.node].resources.Keys);
    EnumerationWithin(e.order, z.st.nodes[r.node].resources.Keys);
    assert y.st.Entry(KindOf(r.t).value, EMPTY_NODE_ID) == z.st.Entry(KindOf(r.t).value, EMPTY_NODE_ID);
    OkWhenServable(y.st, r.node, r.t, s, r.names, e.order);
    OkWhenServable(z.st, r.node, r.t, s, r.names, e.order);
    hide UpdateStream;
    if UpdateStream(y.st, r.node, r.t, s, r.names, e.order).Ok? {
      UpdateKeepsOthers(y.st, r.node, r.t, s, r.names, e.order);
      UpdateKeepsOthers(z.st, r.node, r.t, s, r.names, e.order);
      forall m | Registered(y.st, m, s) ensures m == r.node {
        assert OwnerOk(y, m, s) && OwnerOk(y, r.node, s);
      }
      RecordedAlike(y.st, z.st, a, b, r.node, s, r.t);
    }
  }

  lemma OkWhenServable(st: State, n: NodeId, t: TypeUrl, s: StreamId, names: seq<string>, order: seq<StreamId>)
    requires Registered(st, n, s) && KindOf(t).Some? && Within(order, st.nodes[n].resources.Keys)
    ensures UpdateStream(st, n, t, s, names, order).Ok? <==> CanServe(st, KindOf(t).value)
  {
    hide SnapNode, Recorded;
  }

  /** Both sides record the same names for one type of one stream. */
  lemma RecordedAlike(a: State, b: State, a': State, b': State, n: NodeId, s: StreamId, t: TypeUrl)
    requires NamesAlike(a, b) && OthersKept(a, a', s) && OthersKept(b, b', s) && KindOf(t).Some?
    requires forall m :: Registered(a', m, s) <==> Registered(a, m, s)
    requires forall m :: Registered(b', m, s) <==> Registered(b, m, s)
    requires forall m | Registered(a, m, s) :: m == n
    requires Registered(a, n, s) && SetOf(NamesAt(a', n, s, t)) == SetOf(NamesAt(b', n, s, t))
    requires forall u | KindOf(u).Some? && u != t :: NamesAt(a', n, s, u) == NamesAt(a, n, s, u)
    requires forall u | KindOf(u).Some? && u != t :: NamesAt(b', n, s, u) == NamesAt(b, n, s, u)
    ensures NamesAlike(a', b')
  {
    assert Registered(b, n, s) && StreamAlike(a, b, n, s);
    forall u | KindOf(u).Some? ensures SetOf(NamesAt(a', n, s, u)) == SetOf(NamesAt(b', n, s, u)) {
    }
    assert StreamAlike(a', b', n, s);
    forall m ensures Registered(a', m, s) <==> Registered(b', m, s) {
      assert Registered(a, m, s) <==> Registered(b, m, s);
    }
    OneAlike(a, b, a', b', s);
  }

  lemma CloseAlike(y: Sys, z: Sys, e: Event)
    requires RegInv(y) && RegInv(z) && Alike(y, z) && e.CloseSecond? && Enabled(y, e) && Enabled(z, e)
    ensures NamesAlike(Effect(y, e), Effect(z, e))
  {
    hide DeleteStream, SharedAlike;
    ClosedOne(y, e);
    ClosedOne(z, e);
    OneAlike(y.st, z.st, Effect(y, e), Effect(z, e), e.s);
  }

  lemma ClosedOne(y: Sys, e: Event)
    requires RegInv(y) && e.CloseSecond? && Enabled(y, e)
    ensures OthersKept(y.st, Effect(y, e), e.s) && forall m :: !Registered(Effect(y, e), m, e.s)
  {
    hide DeleteStream;
    var n := y.inflight[e.s].node;
    assert PhaseOk(y, e.s, y.inflight[e.s]);
    if n in y.st.nodes {
      EnumerationWithin(e.orders.Of(Services), y.st.nodes[n].resources.Keys - {e.s});
      EnumerationWithin(e.orders.Of(Endpoints), y.st.nodes[n].resources.Keys - {e.s});
      assert forall k: Kind :: Within(e.orders.Of(k), y.st.nodes[n].resources.Keys - {e.s});
    }
    DeleteKeepsOthers(y.st, n, e.s, e.orders);
    forall m ensures !Registered(Effect(y, e), m, e.s) {
      assert Registered(Effect(y, e), m, e.s) ==> m != n && OwnerOk(y, m, e.s);
    }
  }

  lemma QuietAlike(y: Sys, z: Sys, e: Event)
    requires RegInv(y) && RegInv(z) && Alike(y, z) && Enabled(y, e) && Enabled(z, e)
    requires !e.AddNode? && !e.Update? && !e.CloseSecond?
    ensures NamesAlike(Effect(y, e), Effect(z, e))
  {
    hide NamesAlike, SharedAlike, Refresh, NewSnapshot;
    if e.RefreshNodes? {
      RefreshKeepsAll(y.st, y.snap.k, e.visits);
      RefreshKeepsAll(z.st, z.snap.k, e.visits);
    }
    KeptAlike(y.st, z.st, Effect(y, e), Effect(z, e));
  }

  // ---------------------------------------------------------------------
  // Steps

  /** The guarded server skips the update of this check. */
  ghost predicate Skips(y: Sys, e: Event)
    requires Enabled(y, e)
  {
    e.Check? && var r := y.inflight[e.s].r; NeedToUpdate(y.st, r.node, r.t, e.s, r.names) == Ok(false)
  }

  lemma EnabledAlike(y: Sys, z: Sys, e: Event)
    requires RegInv(y) && RegInv(z) && Alike(y, z) && Enabled(y, e)
    ensures Enabled(z, e)
  {
    SameKeys(y.st, z.st);
    hide NamesAlike, PhaseOk, OwnerOk;
  }

  lemma ControlStep(y: Sys, z: Sys, e: Event)
    requires RegInv(y) && RegInv(z) && Alike(y, z) && Enabled(y, e) && Enabled(z, e) && !Skips(y, e)
    requires e.Update? ==>
               var r := y.inflight[e.s].r;
               && r.node in y.st.nodes && r.node in z.st.nodes
               && (UpdateStream(y.st, r.node, r.t, e.s, r.names, e.order).Ok? <==>
                     UpdateStream(z.st, r.node, r.t, e.s, r.names, e.order).Ok?)
    ensures ControlAlike(Advance(y, e), Advance(z, e))
  {
    if e.Check? {
      assert PhaseOk(y, e.s, y.inflight[e.s]) && PhaseOk(z, e.s, z.inflight[e.s]);
    }
    hide NamesAlike, SharedAlike, UpdateStream, ResourcesMatch, RegInv;
  }

  /** Any step but a skip is matched by the same step. */
  lemma SameStep(y: Sys, z: Sys, e: Event)
    requires Inv(y) && Inv(z) && Alike(y, z) && Enabled(y, e) && !Skips(y, e)
    ensures Enabled(z, e) && Alike(Step(y, e), Step(z, e))
  {
    hide AgreeInv, LatestInv, PublishedInv;
    EnabledAlike(y, z, e);
    SharedStep(y, z, e);
    if e.AddNode? {
      AddAlike(y, z, e);
    } else if e.Update? {
      UpdateAlike(y, z, e);
    } else if e.CloseSecond? {
      CloseAlike(y, z, e);
    } else {
      QuietAlike(y, z, e);
    }
    ControlStep(y, z, e);
    GuardKept(y, e);
    GuardKept(z, e);
    StepParts(y, e);
    StepParts(z, e);
    hide Inv, Step, Effect, Advance, Enabled, NamesAlike, SharedAlike;
  }

  lemma StepParts(y: Sys, e: Event)
    requires Enabled(y, e)
    ensures Step(y, e).st == Effect(y, e)
    ensures var a, b := Step(y, e), Advance(y, e);
            a.inflight == b.inflight && a.snap == b.snap && a.used == b.used && a.bound == b.bound && a.published == b.published
  {
    hide Effect, Advance, LogAfter, Enabled;
  }

  /** A skip is matched by a check and an update. */
  lemma SkipStep(y: Sys, z: Sys, e: Event) returns (u: Event)
    requires Inv(y) && Inv(z) && Alike(y, z) && Enabled(y, e) && Skips(y, e) && Tidy(y)
    ensures u.Update? && Enabled(z, e) && Enabled(Step(z, e), u)
    ensures Alike(Step(y, e), Step(Step(z, e), u))
  {
    hide AgreeInv, LatestInv, PublishedInv;
    var s, r := e.s, y.inflight[e.s].r;
    EnabledAlike(y, z, e);
    assert PhaseOk(y, s, y.inflight[s]) && PhaseOk(z, s, z.inflight[s]);
    assert RegInv(y) && RegInv(z) && EMPTY_NODE_ID !in z.st.nodes;
    var z1 := Step(z, e);
    CheckUnguarded(z, e);
    var order := EnumerationExists(z.st.nodes[r.node].resources.Keys);
    u := Update(s, order);
    hide RegInv, Inv, PhaseOk;
    InvStep(z, e);
    UpdatedNames(y, z, z1, s, r, order);
    SkipControl(y, e);
    UpdateControl(z1, u);
    UpdateShared(z1, u);
    GuardKept(y, e);
    GuardKept(z, e);
    GuardKept(z1, u);
    StepParts(y, e);
    StepParts(z1, u);
    assert Effect(y, e) == y.st;
    hide Step, Effect, Advance, Enabled, NamesAlike;
  }

  lemma CheckUnguarded(z: Sys, e: Event)
    requires RegInv(z) && !z.guarded && e.Check? && Enabled(z, e)
    ensures var z' := Step(z, e);
            && z'.st == z.st && z'.inflight == z.inflight[e.s := Checked(z.inflight[e.s].r)]
            && z'.snap == z.snap && z'.used == z.used && z'.bound == z.bound && z'.published == z.published
  {
    assert PhaseOk(z, e.s, z.inflight[e.s]);
    hide LogAfter, ResourcesMatch;
  }

  lemma SkipControl(y: Sys, e: Event)
    requires y.guarded && Enabled(y, e) && Skips(y, e)
    ensures var y' := Advance(y, e);
            && y'.inflight == y.inflight - {e.s}
            && y'.snap == y.snap && y'.used == y.used && y'.bound == y.bound && y'.published == y.published
  {
    hide NeedToUpdate;
  }

  lemma UpdateControl(z: Sys, e: Event)
    requires e.Update? && Enabled(z, e)
    ensures var z' := Advance(z, e);
            && z'.inflight == z.inflight - {e.s}
            && z'.snap == z.snap && z'.used == z.used && z'.bound == z.bound && z'.published == z.published
  {
    hide UpdateStream;
  }

  lemma UpdateShared(z: Sys, e: Event)
    requires Inv(z) && e.Update? && Enabled(z, e)
    ensures SharedAlike(z.st, Effect(z, e))
  {
    assert EMPTY_NODE_ID !in z.st.nodes;
    hide Inv;
    EffectRest(z, e);
    DeltasKept(z, e);
    forall k: Kind ensures Effect(z, e).Entry(k, EMPTY_NODE_ID) == z.st.Entry(k, EMPTY_NODE_ID) {
      FullKept(z, e, k);
    }
    hide Effect, Enabled;
  }

  /** The update the guarded server skips would have recorded the names it already has. */
  lemma UpdatedNames(y: Sys, z: Sys, z1: Sys, s: StreamId, r: Request, order: seq<StreamId>)
    requires Inv(y) && Inv(z) && Alike(y, z) && z1.st == z.st && s in y.inflight && y.inflight[s] == Added(r) && NoDup(r.names)
    requires NeedToUpdate(y.st, r.node, r.t, s, r.names) == Ok(false)
    requires Registered(y.st, r.node, s) && Registered(z.st, r.node, s)
    requires IsEnumeration(order, z.st.nodes[r.node].resources.Keys)
    requires s in z1.inflight && z1.inflight[s] == Checked(r) && Enabled(z1, Update(s, order))
    ensures NamesAlike(y.st, Effect(z1, Update(s, order)))
  {
    var b := Effect(z1, Update(s, order));
    EnumerationWithin(order, z.st.nodes[r.node].resources.Keys);
    if KindOf(r.t).None? {
      UpdateOfOtherType(z.st, r.node, r.t, s, r.names, order);
    } else {
      MatchNamesTheSame(NamesAt(y.st, r.node, s, r.t), r.names);
      forall m | Registered(y.st, m, s) ensures m == r.node {
        assert OwnerOk(y, m, s) && OwnerOk(y, r.node, s);
      }
      assert Inhabited(z.st);
      hide UpdateStream, SharedAlike, Inv, ResourcesMatch;
      if UpdateStream(z.st, r.node, r.t, s, r.names, order).Ok? {
        UpdateKeepsOthers(z.st, r.node, r.t, s, r.names, order);
        assert OthersKept(y.st, y.st, s);
        RecordedAlike(y.st, z.st, y.st, b, r.node, s, r.t);
      }
    }
  }

  lemma TidyStep(y: Sys, e: Event)
    requires Tidy(y) && TidyEvent(e) && Enabled(y, e)
    ensures Tidy(Step(y, e))
  {
    StepParts(y, e);
    hide Step, NoDup;
    forall s | s in Advance(y, e).inflight && !Advance(y, e).inflight[s].Closing?
      ensures NoDup(Advance(y, e).inflight[s].r.names)
    {
      RequestOrigin(y, e, s);
      hide Advance;
    }
    hide Advance;
  }

  lemma RequestOrigin(y: Sys, e: Event, s: StreamId)
    requires Enabled(y, e) && s in Advance(y, e).inflight && !Advance(y, e).inflight[s].Closing?
    ensures var r := Advance(y, e).inflight[s].r;
            (e.Begin? && e.r == r) || (s in y.inflight && !y.inflight[s].Closing? && y.inflight[s].r == r)
  {
    hide UpdateStream, NeedToUpdate;
  }

  // ---------------------------------------------------------------------
  // Runs

  /** What happened, apart from updates. */
  function Schedule(es: seq<Event>): seq<Event> {
    if es == [] then [] else (if es[0].Update? then [] else [es[0]]) + Schedule(es[1..])
  }

  lemma {:induction false} SimulateRun(y: Sys, z: Sys, es: seq<Event>) returns (es': seq<Event>)
    requires Inv(y) && Inv(z) && Alike(y, z) && Tidy(y) && Legal(y, es)
    requires forall i | 0 <= i < |es| :: TidyEvent(es[i])
    ensures Legal(z, es') && Alike(Run(y, es), Run(z, es')) && Schedule(es') == Schedule(es)
    decreases |es|
  {
    if es == [] {
      es' := [];
    } else {
      hide Inv, Enabled, Step, Alike, Tidy, Legal, Run, Schedule, TidyEvent;
      var e := Uncons(y, es);
      assert TidyEvent(es[0]);
      InvStep(y, e);
      TidyStep(y, e);
      var head := SimulateStep(y, z, e);
      var rest := SimulateRun(Step(y, e), Run(z, head), es[1..]);
      es' := head + rest;
      Append(z, head, rest);
      Cons(y, e, es[1..]);
    }
  }

  lemma SimulateStep(y: Sys, z: Sys, e: Event) returns (head: seq<Event>)
    requires Inv(y) && Inv(z) && Alike(y, z) && Tidy(y) && Enabled(y, e)
    ensures Legal(z, head) && Inv(Run(z, head)) && Alike(Step(y, e), Run(z, head))
    ensures Schedule(head) == if e.Update? then [] else [e]
  {
    if Skips(y, e) {
      hide Inv, Enabled, Step, Alike, Tidy;
      var u := SkipStep(y, z, e);
      Cons(Step(z, e), u, []);
      Cons(z, e, [u] + []);
      head := [e] + ([u] + []);
    } else {
      hide Inv, Enabled, Step, Alike, Tidy, Skips;
      SameStep(y, z, e);
      Cons(z, e, []);
      head := [e] + [];
    }
    RunInv(z, head);
  }

  lemma {:induction false} Append(y: Sys, a: seq<Event>, b: seq<Event>)
    requires Legal(y, a) && Legal(Run(y, a), b)
    ensures Legal(y, a + b) && Run(y, a + b) == Run(Run(y, a), b) && Schedule(a + b) == Schedule(a) + Schedule(b)
    decreases |a|
  {
    if a == [] {
      hide Enabled, Step;
      assert a + b == b;
    } else {
      hide Enabled, Step, Legal, Run, Schedule;
      var e := Uncons(y, a);
      Cons(y, e, a[1..]);
      Append(Step(y, e), a[1..], b);
      Cons(y, e, a[1..] + b);
      assert a + b == [e] + (a[1..] + b);
    }
  }

  lemma Uncons(y: Sys, es: seq<Event>) returns (e: Event)
    requires Legal(y, es) && es != []
    ensures e == es[0] && es == [e] + es[1..] && Enabled(y, e) && Legal(Step(y, e), es[1..])
  {
    hide Enabled, Step;
    e := es[0];
  }

  lemma Cons(y: Sys, e: Event, rest: seq<Event>)
    requires Enabled(y, e) && Legal(Step(y, e), rest)
    ensures Legal(y, [e] + rest) && Run(y, [e] + rest) == Run(Step(y, e), rest)
    ensures Schedule([e] + rest) == (if e.Update? then [] else [e]) + Schedule(rest)
  {
    hide Enabled, Step;
    assert ([e] + rest)[1..] == rest;
  }

  /**
    Skipping is invisible over whole runs: for every run with duplicate-free requests there is a run of the
    unguarded server with the same schedule that ends with the same requests in flight, the same full
    snapshots and the same nodes, and every node is served the same in each half that is quiescent.
   */
  lemma SkippingIsInvisible(localhost: bool, es: seq<Event>) returns (es': seq<Event>)
    requires Legal(Init(localhost, true), es) && forall i | 0 <= i < |es| :: TidyEvent(es[i])
    ensures Legal(Init(localhost, false), es') && Schedule(es') == Schedule(es)
    ensures var y, z := Run(Init(localhost, true), es), Run(Init(localhost, false), es');
            && z.inflight == y.inflight && z.snap == y.snap && z.st.nodes.Keys == y.st.nodes.Keys
            && (forall k: Kind :: z.st.Full(k) == y.st.Full(k))
            && (forall k: Kind, n, t | Quiescent(y, k) && n in y.st.nodes && t in TypesOf(k) ::
                  z.st.Served(k, n, t) == y.st.Served(k, n, t))
  {
    var y0, z0 := Init(localhost, true), Init(localhost, false);
    InitInv(localhost, true);
    InitInv(localhost, false);
    assert Alike(y0, z0) && Tidy(y0);
    hide Inv, Alike, Tidy, Legal, Run, Init, Schedule, TidyEvent;
    es' := SimulateRun(y0, z0, es);
    RunInv(y0, es);
    RunInv(z0, es');
    var y, z := Run(y0, es), Run(z0, es');
    AlikeFacts(y, z);
    forall k: Kind, n, t | Quiescent(y, k) && n in y.st.nodes && t in TypesOf(k)
      ensures z.st.Served(k, n, t) == y.st.Served(k, n, t)
    {
      AlikeServes(y, z, k, n, t);
    }
  }

  lemma AlikeFacts(y: Sys, z: Sys)
    requires Inv(y) && Inv(z) && Alike(y, z)
    ensures z.inflight == y.inflight && z.snap == y.snap && z.st.nodes.Keys == y.st.nodes.Keys
    ensures forall k: Kind :: z.st.Full(k) == y.st.Full(k)
  {
    assert Inhabited(y.st) && Inhabited(z.st);
    hide Inv;
    SameKeys(y.st, z.st);
    hide NamesAlike;
    forall k: Kind ensures z.st.Full(k) == y.st.Full(k) {
      assert y.st.Entry(k, EMPTY_NODE_ID) == z.st.Entry(k, EMPTY_NODE_ID);
    }
  }
}
