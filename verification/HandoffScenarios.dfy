/** Runs that reach the limits of the protocol, and the two exact statements they complete. */
module HandoffScenarios {
  import opened Prelude
  import opened Bundle
  import opened Engine
  import opened Handoff
  import opened HandoffSafety
  import opened HandoffRuns
  import Calls = HandoffCalls
  import Replication

  lemma Extend(regime: Regime, c: Cluster, e: Event)
    requires Reachable(regime, c) && Enabled(regime, c, e)
    ensures Reachable(regime, Step(c, e, regime))
  {
    var events, states :| Run(regime, events, states) && states[|events|] == c;
    var c' := Step(c, e, regime);
    assert Run(regime, events + [e], states + [c']) by {
      forall i | 0 <= i < |events + [e]|
        ensures Enabled(regime, (states + [c'])[i], (events + [e])[i])
        ensures (states + [c'])[i + 1] == Step((states + [c'])[i], (events + [e])[i], regime)
      {
        if i < |events| { assert states[i + 1] == Step(states[i], events[i], regime); }
      }
    }
    assert (states + [c'])[|events + [e]|] == c';
  }

  lemma StartReachable(regime: Regime)
    ensures Reachable(regime, START)
  {
    assert Run(regime, [], [START]);
  }

  // ----- Whole operations, played without interruption -----

  lemma {:induction false} Reaches(regime: Regime, c: Cluster, events: seq<Event>, c1: Cluster)
    requires Reachable(regime, c) && Calls.After(regime, c, events) == Some(c1)
    ensures Reachable(regime, c1)
  {
    if events != [] {
      var n := |events| - 1;
      var before := Calls.After(regime, c, events[..n]).value;
      Reaches(regime, c, events[..n], before);
      Extend(regime, before, events[n]);
    }
  }

  function PlainBundle(c: Cluster, n: NodeId): Payload {
    NextPayload(RoleOf(n), c.At(n).state, map[], None)
  }

  function Exported(c: Cluster, n: NodeId): Cluster {
    Calls.Exported(c, n, map[], Complete)
  }

  lemma PlayExport(regime: Regime, c: Cluster, n: NodeId, a: Actor)
    requires Reachable(regime, c) && MayBegin(regime, c.At(n), a) && Auth(c, n)
    ensures Reachable(regime, Exported(c, n))
  {
    var events := Calls.ExportCall(regime, c, n, a, map[], Complete);
    Reaches(regime, c, events, Exported(c, n));
  }

  /** An export whose authority was checked before. */
  lemma PlayReadyExport(regime: Regime, c: Cluster, n: NodeId, a: Actor)
    requires Reachable(regime, c) && a in c.At(n).ops && c.At(n).ops[a] == ExportReady(None) && regime.stale
    ensures Reachable(regime, Exported(c, n).With(n, Finish(Exported(c, n).At(n), a)))
  {
    Extend(regime, c, Event(n, a, Export(map[], Complete)));
  }

  function Preparation(c: Cluster, n: NodeId): Payload {
    Calls.Preparation(c, n, map[])
  }

  function Prepared(c: Cluster, n: NodeId): Cluster {
    Calls.Prepared(c, n, map[], Complete)
  }

  lemma PlayPrepare(regime: Regime, c: Cluster, n: NodeId)
    requires Reachable(regime, c) && Auth(c, n) && MayRequest(c.At(n).state)
    requires MayBegin(regime, c.At(n), SERVICE) && MayBegin(regime, c.At(n), 1)
    ensures Reachable(regime, Prepared(c, n))
  {
    hide Calls.After, Reachable;
    var events := Calls.RequestCall(regime, c, n, 1);
    var c1 := c.With(n, c.At(n).(state := c.At(n).state.(progress := Requested(n.Peer()))));
    Reaches(regime, c, events, c1);
    events := Calls.PrepareCall(regime, c1, n, map[], Complete);
    Reaches(regime, c1, events, Prepared(c1, n));
  }

  function Imported(c: Cluster, n: NodeId, p: Payload): Cluster {
    c.With(n, c.At(n).(state := RecordApplied(c.At(n).state, 0, p), imports := c.At(n).imports + [p]))
  }

  lemma PlayImport(regime: Regime, c: Cluster, n: NodeId, p: Payload)
    requires Reachable(regime, c) && MayBegin(regime, c.At(n), SERVICE) && !Auth(c, n)
    requires p in c.published && p.source == n.Peer() && Known(c.At(n).state) < p.sequence
    requires p.handoff == Some(Prepare(n.Peer(), n))
    ensures Reachable(regime, Imported(c, n, p))
  {
    hide Calls.After, Reachable;
    var events := Calls.ApplyCall(regime, c, n, SERVICE, p, Normal, 0, Applied, Replication.NoAccess, false);
    Reaches(regime, c, events, Imported(c, n, p));
  }

  function GrantOf(c: Cluster, n: NodeId, p: Payload): Payload {
    Calls.GrantOf(c, n, p)
  }

  function Granted(c: Cluster, n: NodeId, p: Payload): Cluster {
    Calls.HandedOver(c, n, p, Complete)
  }

  lemma PlayGrant(regime: Regime, c: Cluster, n: NodeId, p: Payload)
    requires Reachable(regime, c) && MayBegin(regime, c.At(n), SERVICE) && Auth(c, n)
    requires c.At(n).state.progress == WaitingForApply(n.Peer(), p)
    requires c.At(n.Peer()).state.appliedHash == Some(p)
    ensures Reachable(regime, Granted(c, n, p))
  {
    hide Calls.After, Reachable;
    var events := Calls.HandOverCall(regime, c, n, p, Complete);
    Reaches(regime, c, events, Granted(c, n, p));
  }

  function Waiting(c: Cluster, n: NodeId, a: Actor, g: Payload): Cluster {
    c.With(n, c.At(n).(ops := c.At(n).ops[a := AcceptReady(g)]))
  }

  /** A grant passes the import block: applied, or with conflicts where the regime allows it. */
  lemma PlayPending(regime: Regime, c: Cluster, n: NodeId, a: Actor, g: Payload, applied: bool)
    requires Reachable(regime, c) && MayBegin(regime, c.At(n), a) && !Auth(c, n)
    requires g in c.published && GrantTo(g, n) && g.handoff.value.source == g.source
    requires Known(c.At(n).state) < g.sequence
    requires c.At(n).state.appliedHash == Some(g.handoff.value.prepared) && c.At(n).state.source == Some(g.source)
    requires applied || regime.conflicted
    ensures Reachable(regime, Waiting(if applied then Imported(c, n, g) else c, n, a, g))
  {
    hide Calls.After, Reachable;
    var outcome := if applied then Applied else Conflicted;
    var events := Calls.ImportSteps(regime, c, n, a, g, Normal, 0, outcome);
    Reaches(regime, c, events, Waiting(if applied then Imported(c, n, g) else c, n, a, g));
  }

  function Taken(c: Cluster, n: NodeId, a: Actor): Cluster {
    c.With(n, Finish(c.At(n), a).(state := Engine.AcceptGrant(c.At(n).state, n.Peer()).(serving := false)))
  }

  lemma PlayAccept(regime: Regime, c: Cluster, n: NodeId, a: Actor)
    requires Reachable(regime, c) && a in c.At(n).ops && c.At(n).ops[a].AcceptReady?
    requires c.At(n).ops[a].grant.source == n.Peer()
    ensures Reachable(regime, Taken(c, n, a))
  {
    hide Calls.After, Reachable;
    var m, g := Finish(c.At(n), a), c.At(n).ops[a].grant;
    assert m.ops[a := AcceptReady(g)] == c.At(n).ops;
    var events := Calls.AcceptSteps(regime, c, n, a, m, g, Replication.NoAccess, false);
    Reaches(regime, c, events, Taken(c, n, a));
  }

  /** A planned handoff up to the published grant. */
  function HandedOver(c: Cluster, n: NodeId): Cluster {
    Granted(Imported(Prepared(c, n), n.Peer(), Preparation(c, n)), n, Preparation(c, n))
  }

  lemma PlayHandover(regime: Regime, c: Cluster, n: NodeId)
    requires Reachable(regime, c) && Auth(c, n) && !Auth(c, n.Peer()) && MayRequest(c.At(n).state)
    requires MayBegin(regime, c.At(n), SERVICE) && MayBegin(regime, c.At(n), 1)
    requires MayBegin(regime, c.At(n.Peer()), SERVICE)
    requires Known(c.At(n.Peer()).state) <= Known(c.At(n).state)
    ensures Reachable(regime, HandedOver(c, n))
  {
    hide Reachable;
    var p := Preparation(c, n);
    PlayPrepare(regime, c, n);
    PlayImport(regime, Prepared(c, n), n.Peer(), p);
    PlayGrant(regime, Imported(Prepared(c, n), n.Peer(), p), n, p);
  }

  // ----- The three limits -----

  const SINGLE_CONFLICT := Regime(false, true, false)
  const OVERLAPPING := Regime(true, false, true)
  const UNRESTRICTED := Regime(true, true, false)

  /** A first handoff up to the published grant, in any regime. */
  lemma FirstHandover(regime: Regime)
    ensures Reachable(regime, HandedOver(START, Left))
  {
    StartReachable(regime);
    PlayHandover(regime, START, Left);
  }

  /** A target that takes a conflicting grant starts counting below the grant's sequence. */
  lemma ConflictRepeatsSequence()
    ensures exists c :: Reachable(SINGLE_CONFLICT, c) && !Increasing(c.exports)
  {
    var r, c := SINGLE_CONFLICT, HandedOver(START, Left);
    FirstHandover(r);
    var g := GrantOf(Imported(Prepared(START, Left), Right, Preparation(START, Left)), Left, Preparation(START, Left));
    assert c.exports == [Preparation(START, Left), g];
    PlayPending(r, c, Right, SERVICE, g, false);
    PlayAccept(r, Waiting(c, Right, SERVICE, g), Right, SERVICE);
    var c2 := Taken(Waiting(c, Right, SERVICE, g), Right, SERVICE);
    PlayExport(r, c2, Right, SERVICE);
    var c3 := Exported(c2, Right);
    assert c3.exports[1].sequence == 2 && c3.exports[2].sequence == 2;
  }

  /** The start, with an export on the first node that has checked its authority. */
  function Overlapped(): Cluster {
    START.With(Left, BOOT.(ops := map[5 := ExportReady(None)]))
  }

  lemma OverlappedHandover()
    ensures Reachable(OVERLAPPING, HandedOver(Overlapped(), Left))
  {
    StartReachable(OVERLAPPING);
    Extend(OVERLAPPING, START, Event(Left, 5, BeginExport));
    assert BOOT.ops[5 := ExportReady(None)] == map[5 := ExportReady(None)];
    PlayHandover(OVERLAPPING, Overlapped(), Left);
  }

  /** The peer accepts the grant and exports its first bundle. */
  function TakenOver(g: Payload): Cluster {
    Taken(Waiting(Imported(HandedOver(Overlapped(), Left), Right, g), Right, SERVICE, g), Right, SERVICE)
  }

  lemma OverlappedTakeover(g: Payload)
    requires g == GrantOf(Imported(Prepared(Overlapped(), Left), Right, Preparation(Overlapped(), Left)),
                          Left, Preparation(Overlapped(), Left))
    ensures Reachable(OVERLAPPING, TakenOver(g))
  {
    var c := HandedOver(Overlapped(), Left);
    OverlappedHandover();
    PlayPending(OVERLAPPING, c, Right, SERVICE, g, true);
    PlayAccept(OVERLAPPING, Waiting(Imported(c, Right, g), Right, SERVICE, g), Right, SERVICE);
  }

  /** Two nodes that know equally much and both go on to export do so under one sequence. */
  lemma BothExport(regime: Regime, c: Cluster)
    requires Reachable(regime, c) && MayBegin(regime, c.At(Right), SERVICE) && Auth(c, Right) && regime.stale
    requires 5 in c.left.ops && c.left.ops[5] == ExportReady(None) && Known(c.left.state) == Known(c.right.state)
    ensures exists c' :: Reachable(regime, c') && !Increasing(c'.exports)
  {
    PlayExport(regime, c, Right, SERVICE);
    var q := PlainBundle(c, Right);
    var c1 := Exported(c, Right);
    PlayReadyExport(regime, c1, Left, 5);
    var q1 := PlainBundle(c1, Left);
    var c2 := Exported(c1, Left).With(Left, Finish(Exported(c1, Left).left, 5));
    var n := |c.exports|;
    assert c2.exports == c.exports + [q] + [q1];
    assert c2.exports[n] == q && c2.exports[n + 1] == q1 && q.sequence == q1.sequence;
  }

  /** An export whose authority was checked before the surrender still publishes after it. */
  lemma OverlapRepeatsSequence()
    ensures exists c :: Reachable(OVERLAPPING, c) && !Increasing(c.exports)
  {
    var p := Preparation(Overlapped(), Left);
    var g := GrantOf(Imported(Prepared(Overlapped(), Left), Right, p), Left, p);
    OverlappedTakeover(g);
    BothExport(OVERLAPPING, TakenOver(g));
  }

  /** After the first handoff: both of the target's operations let the same grant through with conflicts. */
  lemma TwoPending(g: Payload)
    requires
      g == GrantOf(Imported(Prepared(START, Left), Right, Preparation(START, Left)), Left, Preparation(START, Left))
    ensures Reachable(UNRESTRICTED, Waiting(Waiting(HandedOver(START, Left), Right, SERVICE, g), Right, 7, g))
  {
    var r, c := UNRESTRICTED, HandedOver(START, Left);
    FirstHandover(r);
    PlayPending(r, c, Right, SERVICE, g, false);
    PlayPending(r, Waiting(c, Right, SERVICE, g), Right, 7, g, false);
  }

  /** A reigning node with an acceptance still to come hands authority to its peer, and then accepts. */
  lemma LateAcceptance(c: Cluster)
    requires Reachable(UNRESTRICTED, c) && Auth(c, Right) && !Auth(c, Left) && MayRequest(c.right.state)
    requires c.left.ops == map[] && SERVICE !in c.right.ops && 1 !in c.right.ops
    requires Known(c.left.state) <= Known(c.right.state)
    requires 7 in c.right.ops && c.right.ops[7].AcceptReady? && c.right.ops[7].grant.source == Left
    ensures exists c' :: Reachable(UNRESTRICTED, c') && !AtMostOneAuthority(c')
  {
    var r, p, c1 := UNRESTRICTED, Preparation(c, Right), HandedOver(c, Right);
    PlayHandover(r, c, Right);
    var g := GrantOf(Imported(Prepared(c, Right), Left, p), Right, p);
    PlayPending(r, c1, Left, SERVICE, g, true);
    var c2 := Waiting(Imported(c1, Left, g), Left, SERVICE, g);
    PlayAccept(r, c2, Left, SERVICE);
    var c3 := Taken(c2, Left, SERVICE);
    assert c3.At(Right).ops == c.right.ops;
    PlayAccept(r, c3, Right, 7);
    assert !AtMostOneAuthority(Taken(c3, Right, 7));
  }

  /** The target accepts, exports, and hands authority back; the second acceptance is still to come. */
  lemma OverlapAndConflictSplitAuthority()
    ensures exists c :: Reachable(UNRESTRICTED, c) && !AtMostOneAuthority(c)
  {
    var r := UNRESTRICTED;
    var p0 := Preparation(START, Left);
    var g0 := GrantOf(Imported(Prepared(START, Left), Right, p0), Left, p0);
    TwoPending(g0);
    var c1 := Waiting(Waiting(HandedOver(START, Left), Right, SERVICE, g0), Right, 7, g0);
    PlayAccept(r, c1, Right, SERVICE);
    var c2 := Taken(c1, Right, SERVICE);
    PlayExport(r, c2, Right, SERVICE);
    LateAcceptance(Exported(c2, Right));
  }

  // ----- The exact statements -----

  /** At most one node is ever authoritative, exactly when a node runs one operation at a time or every
      accepted grant's import was applied. */
  lemma AuthorityIsExclusive(regime: Regime)
    ensures (forall c :: Reachable(regime, c) ==> AtMostOneAuthority(c)) <==> !(regime.concurrent && regime.conflicted)
  {
    if regime.concurrent && regime.conflicted {
      OverlapAndConflictSplitAuthority();
      var c :| Reachable(UNRESTRICTED, c) && !AtMostOneAuthority(c);
      Weaken(UNRESTRICTED, regime, c);
    } else {
      forall c | Reachable(regime, c) ensures AtMostOneAuthority(c) {
        ReachableInductive(regime, c);
        InductiveSafe(regime, c);
      }
    }
  }

  /** Every bundle either node creates, published or lost, has a higher sequence than all before it, exactly
      when every accepted grant's import was applied and no export takes its sequence after the authority it
      checked is gone. Operations that overlap otherwise do no harm. */
  lemma SequencesIncrease(regime: Regime)
    ensures (forall c :: Reachable(regime, c) ==> Increasing(c.exports)) <==> Ordered(regime)
  {
    if regime.conflicted {
      ConflictRepeatsSequence();
      var c :| Reachable(SINGLE_CONFLICT, c) && !Increasing(c.exports);
      Weaken(SINGLE_CONFLICT, regime, c);
    } else if regime.concurrent && regime.stale {
      OverlapRepeatsSequence();
      var c :| Reachable(OVERLAPPING, c) && !Increasing(c.exports);
      Weaken(OVERLAPPING, regime, c);
    } else {
      forall c | Reachable(regime, c) ensures Increasing(c.exports) {
        ReachableInductive(regime, c);
      }
    }
  }

  /** Where sequences increase, a bundle that follows one of the other node follows a grant. */
  lemma WritersChangeByGrant(regime: Regime, c: Cluster, i: nat)
    requires Reachable(regime, c) && Ordered(regime)
    requires i + 1 < |c.exports| && c.exports[i].source != c.exports[i + 1].source
    ensures IsGrant(c.exports[i]) && c.exports[i].sequence < c.exports[i + 1].sequence
  {
    ReachableInductive(regime, c);
  }

  /** At most one node ever reports itself ready for clients, where authority is exclusive. */
  lemma ClientsSeeOneNode(regime: Regime, c: Cluster)
    requires Reachable(regime, c) && !(regime.concurrent && regime.conflicted)
    ensures !(ClientReady(RoleOf(Left), c.left.state) && ClientReady(RoleOf(Right), c.right.state))
  {
    ReachableInductive(regime, c);
    InductiveSafe(regime, c);
  }

  /** A run of a regime is a run of every regime that allows more. */
  lemma Weaken(r1: Regime, r2: Regime, c: Cluster)
    requires Reachable(r1, c) && (r1.concurrent ==> r2.concurrent) && (r1.conflicted ==> r2.conflicted)
    requires r1.stale ==> r2.stale
    ensures Reachable(r2, c)
  {
    var events, states :| Run(r1, events, states) && states[|events|] == c;
    assert Run(r2, events, states) by {
      forall i | 0 <= i < |events|
        ensures Enabled(r2, states[i], events[i]) && states[i + 1] == Step(states[i], events[i], r2)
      {
        assert Enabled(r1, states[i], events[i]);
      }
    }
  }
}
