/** What holds in every reachable state of the concurrent snapshotter. */
module Theorems {
  import opened Collections
  import opened Names
  import opened Resources
  import opened Matching
  import opened Sections
  import opened Payloads
  import opened Agreement
  import opened Protocol
  import opened Registration
  import opened Invariants
  import opened Versions

  ghost predicate Inv(y: Sys) {
    RegInv(y) && AgreeInv(y) && LatestInv(y) && PublishedInv(y) && VersionInv(y)
  }

  lemma InitInv(localhost: bool, guarded: bool)
    ensures Inv(Init(localhost, guarded))
  {
    InitOk(localhost);
    LogEmpty([], 0);
    var y := Init(localhost, guarded);
    forall k: Kind ensures AgreeHalf(y, k) && PublishedHalf(y, k) && VersionHalf(y, k) {
    }
  }

  lemma InvStep(y: Sys, e: Event)
    requires Inv(y) && Enabled(y, e)
    ensures Inv(Step(y, e))
  {
    RegStep(y, e);
    AgreeStep(y, e);
    LatestStep(y, e);
    PublishedStep(y, e);
    forall k: Kind ensures VersionHalf(Step(y, e), k) {
      CachesWithin(y, k);
      CachesWithin(Step(y, e), k);
      hide AgreeInv, LatestInv, PublishedInv, Step, VersionHalf;
      assert VersionHalf(y, k);
      VersionInvStep(y, e, k);
    }
    hide AgreeInv, LatestInv, PublishedInv, Step, VersionHalf;
  }

  lemma CachesWithin(y: Sys, k: Kind)
    requires AgreeInv(y)
    ensures y.st.caches.Of(k).Keys <= Live(y.st)
  {
    assert AgreeHalf(y, k);
    hide StreamsOk, EntryOk, ItemsOk;
  }

  lemma GuardKept(y: Sys, e: Event)
    requires Enabled(y, e)
    ensures Step(y, e).guarded == y.guarded
  {
    hide Effect, LogAfter;
  }

  lemma {:induction false} RunInv(y: Sys, es: seq<Event>)
    requires Inv(y) && Legal(y, es)
    ensures Inv(Run(y, es)) && Run(y, es).guarded == y.guarded
    decreases |es|
  {
    hide Inv, Enabled, Step;
    if es != [] {
      InvStep(y, es[0]);
      GuardKept(y, es[0]);
      RunInv(Step(y, es[0]), es[1..]);
    }
  }

  /** Every invariant holds after every legal interleaving of any length. */
  lemma ReachableInv(y: Sys)
    requires Reachable(y)
    ensures Inv(y) && y.guarded
  {
    hide Inv, Legal, Run;
    var localhost, es :| Legal(Init(localhost, true), es) && Run(Init(localhost, true), es) == y;
    InitInv(localhost, true);
    RunInv(Init(localhost, true), es);
  }

  // ---------------------------------------------------------------------
  // Agreement

  /**
    Whenever no snap of a half is between publishing and refreshing, every node is served exactly the
    full snapshot restricted to the names its streams have recorded, so a name requested while its
    resource was missing is served as soon as the resource appears.
   */
  lemma QuiescentServed(y: Sys, k: Kind, n: NodeId, t: TypeUrl)
    requires Reachable(y) && Quiescent(y, k) && n in y.st.nodes && t in TypesOf(k)
    ensures y.st.Served(k, n, t) == Restriction(y.st.localhost, y.st.Full(k), t, Requested(y.st.nodes[n].Half(k), t))
  {
    ReachableInv(y);
    assert AgreeHalf(y, k);
    hide HalfInv;
    ServedIsRestriction(y.st, k, n, t);
  }

  /**
    Resource by resource, outside localhost mode: a node is served `r` under the name `x` exactly when one of
    its streams has recorded `x` and `r` is what the full snapshot has under it. So a name recorded while it
    was missing is served once it appears, and one nobody asks for any more is not.
   */
  lemma ServedWhenAskedForAndPublished(y: Sys, k: Kind, n: NodeId, t: TypeUrl, x: string, r: Resource)
    requires Reachable(y) && Quiescent(y, k) && !y.st.localhost && n in y.st.nodes && t in TypesOf(k)
    ensures (x in y.st.Served(k, n, t) && y.st.Served(k, n, t)[x] == r)
       <==> && (exists s | Registered(y.st, n, s) :: x in NamesAt(y.st, n, s, t))
            && x in ItemsOf(y.st.Full(k), t) && ItemsOf(y.st.Full(k), t)[x] == r
  {
    QuiescentServed(y, k, n, t);
    hide Reachable, TypesOf, Restriction;
    var streams := y.st.nodes[n].Half(k);
    RestrictionPlain(y.st.Full(k), t, Requested(streams, t));
    assert x in Requested(streams, t) <==> exists s | Registered(y.st, n, s) :: x in NamesAt(y.st, n, s, t) by {
      if x in Requested(streams, t) {
        var s :| s in streams && x in streams[s].NamesOf(t);
        assert Registered(y.st, n, s);
      }
      if s :| Registered(y.st, n, s) && x in NamesAt(y.st, n, s, t) {
        assert s in streams;
      }
    }
  }

  /** The names of the last request each registered stream completed for type `t`. */
  ghost function LatestNames(y: Sys, n: NodeId, t: TypeUrl): set<string>
    requires n in y.st.nodes
  {
    set s, x | s in y.st.nodes[n].resources && x in y.Latest(s, t) :: x
  }

  lemma LatestIsRequested(y: Sys, k: Kind, n: NodeId, t: TypeUrl)
    requires LatestInv(y) && n in y.st.nodes && KindOf(t) == Some(k)
    requires forall s | s in y.st.nodes[n].resources :: NoDup(y.Latest(s, t))
    ensures Requested(y.st.nodes[n].Half(k), t) == LatestNames(y, n, t)
  {
    forall s | s in y.st.nodes[n].resources ensures SetOf(NamesAt(y.st, n, s, t)) == SetOf(y.Latest(s, t)) {
      assert Registered(y.st, n, s) && LatestOk(y, n, s, t);
    }
    var streams := y.st.nodes[n].Half(k);
    forall x | x in Requested(streams, t) ensures x in LatestNames(y, n, t) {
      var s :| s in streams && x in streams[s].NamesOf(t);
      assert x in SetOf(NamesAt(y.st, n, s, t));
    }
    forall x | x in LatestNames(y, n, t) ensures x in Requested(streams, t) {
      var s :| s in y.st.nodes[n].resources && x in y.Latest(s, t);
      assert x in SetOf(y.Latest(s, t));
      assert x in streams[s].NamesOf(t);
    }
  }

  /**
    Seen from the clients: although requests that change nothing are skipped, a node is served the full
    snapshot restricted to exactly the names last asked for on its streams.
   */
  lemma QuiescentServesLatest(y: Sys, k: Kind, n: NodeId, t: TypeUrl)
    requires Reachable(y) && Quiescent(y, k) && n in y.st.nodes && t in TypesOf(k)
    requires forall s | s in y.st.nodes[n].resources :: NoDup(y.Latest(s, t))
    ensures y.st.Served(k, n, t) == Restriction(y.st.localhost, y.st.Full(k), t, LatestNames(y, n, t))
  {
    ReachableInv(y);
    hide AgreeInv, RegInv, PublishedInv, VersionInv, Reachable;
    LatestIsRequested(y, k, n, t);
    QuiescentServed(y, k, n, t);
  }

  /**
    At every moment, also between publishing and refreshing, whatever a node is served was recorded by
    one of its streams and comes from the current full snapshot or from the one it just replaced.
   */
  lemma AlwaysServedCurrentOrPrevious(y: Sys, k: Kind, n: NodeId, t: TypeUrl, x: string)
    requires Reachable(y) && n in y.st.nodes && t in TypesOf(k) && x in y.st.Served(k, n, t)
    ensures x in Requested(y.st.nodes[n].Half(k), t)
    ensures var r := y.st.Served(k, n, t)[x];
            || Find(y.st.localhost, y.st.Full(k), t, x) == Some(r)
            || Find(y.st.localhost, y.prev.Of(k), t, x) == Some(r)
  {
    ReachableInv(y);
    assert AgreeHalf(y, k);
    var streams, r := y.st.nodes[n].Half(k), y.st.Served(k, n, t)[x];
    assert StreamsOk(y.st.localhost, k, streams, y.prev.Of(k), y.st.Full(k));
    assert r in Held(streams, t) && r.Name() == x by {
      assert EntryOk(k, streams, y.st.Entry(k, n));
      hide Held, TypesOf;
    }
    assert ItemsOk(y.prev.Of(k)) && ItemsOk(y.st.Full(k));
    hide HalfInv, AgreeInv, RegInv, LatestInv, PublishedInv, VersionInv, Reachable;
    var s :| s in streams && r in streams[s].CopiesOf(t);
    HeldOrigin(y.st.localhost, k, streams[s], t, y.prev.Of(k), y.st.Full(k), r);
  }

  lemma HeldOrigin(localhost: bool, k: Kind, tr: Tracked, t: TypeUrl, prev: Items, cur: Items, r: Resource)
    requires t in TypesOf(k) && TrackedOk(localhost, k, tr, prev, cur) && r in tr.CopiesOf(t)
    requires ItemsOk(prev) && ItemsOk(cur)
    ensures r.Name() in tr.NamesOf(t)
    ensures Find(localhost, cur, t, r.Name()) == Some(r) || Find(localhost, prev, t, r.Name()) == Some(r)
  {
    CopiesMembers(localhost, prev, t, tr.NamesOf(t));
    CopiesMembers(localhost, cur, t, tr.NamesOf(t));
    forall x: string
      ensures Find(localhost, prev, t, x).Some? ==> Find(localhost, prev, t, x).value.Name() == x
      ensures Find(localhost, cur, t, x).Some? ==> Find(localhost, cur, t, x).value.Name() == x
    {
      FindName(localhost, prev, t, x);
      FindName(localhost, cur, t, x);
    }
    hide Find, Copies, TypesOf;
  }

  // ---------------------------------------------------------------------
  // Requests

  /**
    Under any interleaving, a request that has passed the add-node section finds its node and its stream
    in every later section: outside localhost mode, and only there, it fails as long as nothing has been
    published for its type, and it has no other error left.
   */
  lemma RequestsFindTheirNode(y: Sys, s: StreamId, order: seq<StreamId>)
    requires Reachable(y) && s in y.inflight && (y.inflight[s].Added? || y.inflight[s].Checked?)
    ensures var r := y.inflight[s].r;
            && r.node in y.st.nodes && s in y.st.nodes[r.node].resources
            && NeedToUpdate(y.st, r.node, r.t, s, r.names).Ok?
            && (Within(order, y.st.nodes[r.node].resources.Keys) ==>
                  var result := UpdateStream(y.st, r.node, r.t, s, r.names, order);
                  && (result.Err? ==> result.error == NoFullSnapshot)
                  && (result.Err? <==> KindOf(r.t).Some? && !y.st.localhost && y.published.Of(KindOf(r.t).value).None?))
  {
    ReachableInv(y);
    assert PhaseOk(y, s, y.inflight[s]);
    if KindOf(y.inflight[s].r.t).Some? {
      var k := KindOf(y.inflight[s].r.t).value;
      assert PublishedHalf(y, k);
      assert y.st.Entry(k, EMPTY_NODE_ID).Some? <==> y.published.Of(k).Some?;
    }
    hide Reachable, RegInv, AgreeInv, LatestInv, PublishedInv, VersionInv, SnapNode, Recorded, NewSnapshot, ResourcesMatch;
  }

  /**
    What is skipped, seen from the client: among duplicate-free requests exactly those that ask, in whatever
    order, for the names last asked for on the stream and type.
   */
  lemma RepeatsAreSkipped(y: Sys, s: StreamId)
    requires Reachable(y) && s in y.inflight && y.inflight[s].Added? && KindOf(y.inflight[s].r.t).Some?
    requires NoDup(y.inflight[s].r.names) && NoDup(y.Latest(s, y.inflight[s].r.t))
    ensures var r := y.inflight[s].r;
            NeedToUpdate(y.st, r.node, r.t, s, r.names) == Ok(SetOf(r.names) != SetOf(y.Latest(s, r.t)))
  {
    ReachableInv(y);
    var r := y.inflight[s].r;
    assert PhaseOk(y, s, y.inflight[s]) && Registered(y.st, r.node, s);
    assert LatestOk(y, r.node, s, r.t);
    MatchExactly(NamesAt(y.st, r.node, s, r.t), r.names);
    hide Reachable, RegInv, AgreeInv, LatestInv, PublishedInv, VersionInv, ResourcesMatch;
  }

  /** The decision to update is still right when it is acted on, whatever happened in between. */
  lemma DecisionsStayRight(y: Sys, s: StreamId)
    requires Reachable(y) && s in y.inflight && y.inflight[s].Checked?
    ensures var r := y.inflight[s].r; NeedToUpdate(y.st, r.node, r.t, s, r.names) == Ok(true)
  {
    ReachableInv(y);
    assert PhaseOk(y, s, y.inflight[s]);
  }

  /**
    Skipping is a sound optimisation: when a duplicate-free request is skipped, updating anyway would
    have served every node exactly what it is served.
   */
  lemma SkippingIsSound(y: Sys, k: Kind, s: StreamId, order: seq<StreamId>, m: NodeId, u: TypeUrl)
    requires Reachable(y) && Quiescent(y, k) && s in y.inflight && y.inflight[s].Added?
    requires KindOf(y.inflight[s].r.t) == Some(k) && NoDup(y.inflight[s].r.names)
    requires NeedToUpdate(y.st, y.inflight[s].r.node, y.inflight[s].r.t, s, y.inflight[s].r.names) == Ok(false)
    requires y.inflight[s].r.node in y.st.nodes && IsEnumeration(order, y.st.nodes[y.inflight[s].r.node].resources.Keys)
    requires m in y.st.nodes && u in TypesOf(k)
    ensures var r := y.inflight[s].r;
            var forced := UpdateStream(y.st, r.node, r.t, s, r.names, order);
            forced.Ok? ==> m in forced.value.nodes && forced.value.Served(k, m, u) == y.st.Served(k, m, u)
  {
    ReachableInv(y);
    var r := y.inflight[s].r;
    assert PhaseOk(y, s, y.inflight[s]) && AgreeHalf(y, k) && EMPTY_NODE_ID !in y.st.nodes;
    var forced := UpdateStream(y.st, r.node, r.t, s, r.names, order);
    if forced.Ok? {
      ForcedUpdate(y.st, k, r.node, r.t, s, r.names, order, m, u);
    }
  }

  lemma ForcedUpdate(st: State, k: Kind, n: NodeId, t: TypeUrl, s: StreamId, names: seq<string>, order: seq<StreamId>,
                     m: NodeId, u: TypeUrl)
    requires HalfInv(st, k, st.Full(k), {}) && Inhabited(st) && Registered(st, n, s) && KindOf(t) == Some(k)
    requires NoDup(names) && ResourcesMatch(NamesAt(st, n, s, t), names)
    requires IsEnumeration(order, st.nodes[n].resources.Keys) && UpdateStream(st, n, t, s, names, order).Ok?
    requires m in st.nodes && u in TypesOf(k)
    ensures var st' := UpdateStream(st, n, t, s, names, order).value;
            m in st'.nodes && st'.Served(k, m, u) == st.Served(k, m, u)
  {
    var st' := UpdateStream(st, n, t, s, names, order).value;
    assert EMPTY_NODE_ID !in st.nodes;
    UpdateFull(st, k, n, t, s, names, order);
    hide HalfInv, UpdateStream, ResourcesMatch;
    UpdateHalf(st, k, st.Full(k), n, t, s, names, order);
    EnumerationWithin(order, st.nodes[n].resources.Keys);
    UpdateKeepsOthers(st, n, t, s, names, order);
    ServedIsRestriction(st, k, m, u);
    ServedIsRestriction(st', k, m, u);
    MatchNamesTheSame(NamesAt(st, n, s, t), names);
    SameRequested(st, st', k, n, t, s, m, u);
  }

  lemma SameRequested(st: State, st': State, k: Kind, n: NodeId, t: TypeUrl, s: StreamId, m: NodeId, u: TypeUrl)
    requires Registered(st, n, s) && Registered(st', n, s) && OthersKept(st, st', s)
    requires forall l :: Registered(st', l, s) <==> Registered(st, l, s)
    requires KindOf(t) == Some(k) && KindOf(u) == Some(k) && m in st.nodes && m in st'.nodes
    requires SetOf(NamesAt(st, n, s, t)) == SetOf(NamesAt(st', n, s, t))
    requires forall v | KindOf(v).Some? && v != t :: NamesAt(st', n, s, v) == NamesAt(st, n, s, v)
    requires m != n && Registered(st, m, s) ==> NamesAt(st', m, s, u) == NamesAt(st, m, s, u)
    ensures Requested(st'.nodes[m].Half(k), u) == Requested(st.nodes[m].Half(k), u)
  {
    forall x | Registered(st, m, x) ensures SetOf(NamesAt(st', m, x, u)) == SetOf(NamesAt(st, m, x, u)) {
      if x != s {
        assert NamesIn(st', m, x) == NamesIn(st, m, x);
      }
    }
    var a, b := st.nodes[m].Half(k), st'.nodes[m].Half(k);
    forall x | x in Requested(a, u) ensures x in Requested(b, u) {
      var i :| i in a && x in a[i].NamesOf(u);
      assert Registered(st, m, i) && x in SetOf(NamesAt(st, m, i, u));
      assert Registered(st', m, i) && x in SetOf(NamesAt(st', m, i, u));
      assert i in b && x in b[i].NamesOf(u);
    }
    forall x | x in Requested(b, u) ensures x in Requested(a, u) {
      var i :| i in b && x in b[i].NamesOf(u);
      assert Registered(st', m, i) && x in SetOf(NamesAt(st', m, i, u));
      assert Registered(st, m, i) && x in SetOf(NamesAt(st, m, i, u));
      assert i in a && x in a[i].NamesOf(u);
    }
  }

  // ---------------------------------------------------------------------
  // Leaks

  /**
    Nothing is leaked: a registered stream is open or half closed, every node has a stream, no node has the
    empty id, only live nodes and the full snapshot are cached, and with all streams closed no node is left.
   */
  lemma NoLeaks(y: Sys)
    requires Reachable(y)
    ensures forall n, s | Registered(y.st, n, s) ::
              n != "" && (s in y.st.streams || (s in y.inflight && y.inflight[s] == Closing(n)))
    ensures forall n | n in y.st.nodes :: exists s :: Registered(y.st, n, s)
    ensures forall k: Kind, n | n in y.st.caches.Of(k) :: n in y.st.nodes || n == ""
    ensures y.st.streams == map[] && y.inflight == map[] ==>
              y.st.nodes == map[] && forall k: Kind :: y.st.caches.Of(k).Keys <= {""}
  {
    ReachableInv(y);
    forall n, s | Registered(y.st, n, s)
      ensures n != EMPTY_NODE_ID && (s in y.st.streams || (s in y.inflight && y.inflight[s] == Closing(n)))
    {
      assert OwnerOk(y, n, s);
      if s in y.inflight {
        assert PhaseOk(y, s, y.inflight[s]);
      }
    }
    forall n | n in y.st.nodes ensures exists s :: Registered(y.st, n, s) {
      var order := EnumerationExists(y.st.nodes[n].resources.Keys);
      var s := order[0];
      assert Registered(y.st, n, s);
    }
    forall k: Kind ensures y.st.caches.Of(k).Keys <= Live(y.st) {
      CachesWithin(y, k);
    }
  }

  // ---------------------------------------------------------------------
  // Versions

  /**
    The publications of one lifetime of a node, or of the full snapshot: the last one is what is cached,
    two of them carry the same version exactly when their numbers agree modulo 2^32, and below 2^31
    their versions read 1, 2, 3 and so on, above in int32 arithmetic. A node that is removed and comes back starts again at 1.
   */
  lemma VersionsIdentifyPublications(y: Sys, k: Kind, n: NodeId)
    requires Reachable(y) && n in y.st.caches.Of(k)
    ensures var log := LogOf(y.log.Of(k), n);
            && log != [] && y.st.caches.Of(k)[n] == log[|log| - 1]
            && (forall i, j | 0 <= i < |log| && 0 <= j < |log| ::
                  log[i].version == log[j].version <==> (i - j) % 0x1_0000_0000 == 0)
            && (forall i | 0 <= i < |log| && i + 1 < 0x8000_0000 :: Renders(log[i].version, i + 1))
            && (forall i | 0 <= i < |log| ::
                  Renders(log[i].version, (i + 1 + 0x8000_0000) % 0x1_0000_0000 - 0x8000_0000))
  {
    hide Reachable, Numbered, Renders;
    LogFacts(y, k, n);
    var log := LogOf(y.log.Of(k), n);
    forall i, j | 0 <= i < |log| && 0 <= j < |log|
      ensures log[i].version == log[j].version <==> (i - j) % 0x1_0000_0000 == 0
    {
      NumberedVersions(log, i, j);
    }
    forall i | 0 <= i < |log|
      ensures Renders(log[i].version, (i + 1 + 0x8000_0000) % 0x1_0000_0000 - 0x8000_0000)
      ensures i + 1 < 0x8000_0000 ==> Renders(log[i].version, i + 1)
    {
      NumberedVersions(log, i, i);
    }
  }

  /** A client is shown the version of its node's snapshot for exactly the types it is served something of. */
  lemma VersionsShown(y: Sys, k: Kind, n: NodeId, t: TypeUrl)
    requires Reachable(y) && n in y.st.nodes && n in y.st.caches.Of(k)
    ensures var snap := y.st.caches.Of(k)[n];
            snap.version != "" && snap.Version(t) == if y.st.Served(k, n, t) == map[] then "" else snap.version
  {
    LogFacts(y, k, n);
    ReachableInv(y);
    assert AgreeHalf(y, k);
    var log := LogOf(y.log.Of(k), n);
    hide Reachable, Itoa, IsIndexOf, StreamsOk;
    NumberedVersions(log, |log| - 1, |log| - 1);
    assert EntryOk(k, y.st.nodes[n].Half(k), y.st.Entry(k, n));
  }

  lemma LogFacts(y: Sys, k: Kind, n: NodeId)
    requires Reachable(y) && n in y.st.caches.Of(k)
    ensures var log := LogOf(y.log.Of(k), n);
            Numbered(log) && log != [] && y.st.caches.Of(k)[n] == log[|log| - 1]
  {
    ReachableInv(y);
    CachesWithin(y, k);
    assert VersionHalf(y, k);
    hide AgreeInv, RegInv, LatestInv, PublishedInv, Reachable, Numbered;
    assert LogOk(LogOf(y.log.Of(k), n), y.st.Entry(k, n), Counter(y.st, k, n));
  }

  /** A client that sees the version it already has misses nothing, within 2^32 publications of a lifetime. */
  lemma SameVersionSameContents(y: Sys, k: Kind, n: NodeId, i: nat, j: nat, t: TypeUrl)
    requires Reachable(y) && n in y.st.caches.Of(k)
    requires var log := LogOf(y.log.Of(k), n);
             i < j < |log| && j - i < 0x1_0000_0000 && log[i].Version(t) == log[j].Version(t)
    ensures var log := LogOf(y.log.Of(k), n);
            log[i].Version(t) == "" && log[i].Resources(t) == map[] == log[j].Resources(t)
  {
    LogFacts(y, k, n);
    hide Reachable, Itoa, Numbered, Renders;
    NumberedVersions(LogOf(y.log.Of(k), n), i, j);
  }

  // ---------------------------------------------------------------------
  // Progress

  /**
    What may happen next, at any time: a snap starts whenever none is running, whatever is in flight; an idle
    open stream begins any request with its node id; and streams open and close, but not during requests.
   */
  lemma WhatMayHappen(y: Sys)
    ensures forall k: Kind, p: Payload | p.lists.Keys == TypesOf(k) && p.deltas.Keys == SetOf(DeltaOrder(k)) ::
              Enabled(y, PublishFull(k, p)) <==> y.snap == Idle
    ensures forall s, r :: Enabled(y, Begin(s, r)) <==> s in y.st.streams && s !in y.inflight && (s in y.bound ==> y.bound[s] == r.node)
    ensures forall s :: Enabled(y, RateLimited(s)) <==> s in y.inflight && y.inflight[s].Started?
    ensures var quiet := forall s | s in y.inflight :: y.inflight[s].Closing?;
            && (forall s, address :: Enabled(y, Open(s, address)) <==> s !in y.used && quiet)
            && (forall s :: Enabled(y, CloseFirst(s)) <==> s in y.st.streams && s !in y.inflight && quiet)
  {
  }

  /** No handler is ever stuck: a request or a half-done close can always take its next section. */
  lemma HandlersNeverStuck(y: Sys, s: StreamId) returns (e: Event)
    requires Reachable(y) && s in y.inflight
    ensures Enabled(y, e) && (e.AddNode? || e.Check? || e.Update? || e.CloseSecond?) && e.s == s
  {
    ReachableInv(y);
    assert PhaseOk(y, s, y.inflight[s]);
    hide AgreeInv, LatestInv, PublishedInv, VersionInv, Reachable;
    match y.inflight[s]
    case Started(_) =>
      e := AddNode(s);
    case Added(_) =>
      e := Check(s);
    case Checked(r) =>
      var order := EnumerationExists(y.st.nodes[r.node].resources.Keys);
      e := Update(s, order);
    case Closing(n) =>
      var keys := if n in y.st.nodes then y.st.nodes[n].resources.Keys - {s} else {};
      var order := EnumerationExists(keys);
      e := CloseSecond(s, PerKind(order, order));
  }

  /** A snap that has published can always go on, delta cache by delta cache, to its refresh. */
  lemma SnapsNeverStuck(y: Sys) returns (e: Event)
    requires Reachable(y) && y.snap.Snapping?
    ensures Enabled(y, e) && (e.SyncDelta? || e.RefreshNodes?)
  {
    ReachableInv(y);
    assert PublishedHalf(y, y.snap.k);
    hide RegInv, AgreeInv, LatestInv, PublishedInv, VersionInv, Reachable, NewSnapshot;
    if y.snap.pending != [] {
      e := SyncDelta;
    } else {
      var visits := VisitsExist(y.st, y.st.nodes.Keys);
      e := RefreshNodes(visits);
    }
  }

  lemma VisitsExist(st: State, ns: set<NodeId>) returns (visits: map<NodeId, seq<StreamId>>)
    requires ns <= st.nodes.Keys
    ensures forall n | n in ns :: n in visits && IsEnumeration(visits[n], st.nodes[n].resources.Keys)
  {
    if ns == {} {
      visits := map[];
    } else {
      var n :| n in ns;
      visits := VisitsExist(st, ns - {n});
      var order := EnumerationExists(st.nodes[n].resources.Keys);
      visits := visits[n := order];
    }
  }
}
