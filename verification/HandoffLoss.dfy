/** Authority that is lost: which events leave it nowhere, and that it never comes back. */
module HandoffLoss {
  import opened Prelude
  import opened Bundle
  import opened Engine
  import opened Handoff
  import opened HandoffSafety
  import opened HandoffRuns
  import opened HandoffScenarios

  /** Authority is somewhere: with a node, a surrendered service, a grant under way, or one to be accepted. */
  ghost predicate Held(c: Cluster) {
    exists t :: Holds(c, t)
  }

  /** What loses authority: an operation between surrender and grant, or between the import of a grant and
      its acceptance, that is cut short; a grant that cannot repeat its preparation, or goes no further than
      its reservation; an initialization from a bundle that is a grant. */
  predicate Loses(c: Cluster, e: Event)
    requires e.move.Abort? ==> e.actor in c.At(e.node).ops
    requires e.move.SendGrant? ==> e.actor in c.At(e.node).ops && c.At(e.node).ops[e.actor].Surrendered?
    requires e.move.Import? ==> e.actor in c.At(e.node).ops && c.At(e.node).ops[e.actor].ApplyReady?
  {
    var ops := c.At(e.node).ops;
    match e.move
    case Crash => exists a :: a in ops && (ops[a].Surrendered? || ops[a].AcceptReady?)
    case Abort => ops[e.actor].Surrendered? || ops[e.actor].AcceptReady?
    case SendGrant(reach) => c.At(e.node).outbound != Some(ops[e.actor].prepared) || reach.Reserved?
    case Import(g, _, outcome) => InFlight(c, g, e.node) && ops[e.actor].mode.Initialize? && outcome.Applied?
    case _ => false
  }

  // ----- Known sequences are sequences of bundles -----

  predicate Created(c: Cluster, sequence: nat) {
    sequence == 0 || exists p :: p in c.exports && p.sequence == sequence
  }

  predicate Grounded(c: Cluster) {
    forall n: NodeId :: Created(c, c.At(n).state.exported) && Created(c, c.At(n).state.applied)
  }

  lemma PublishGrounded(c: Cluster, e: Event, p: Payload, reach: Reach, next: Option<Pc>)
    requires Grounded(c)
    ensures Grounded(Publish(c, e, p, reach, next))
  {
    var c' := Publish(c, e, p, reach, next);
    assert p in c'.exports;
    forall n: NodeId ensures Created(c', c'.At(n).state.exported) && Created(c', c'.At(n).state.applied) {
      assert Created(c, c.At(n).state.exported) && Created(c, c.At(n).state.applied);
    }
  }

  lemma LocalSequences(c: Cluster, e: Event, regime: Regime)
    requires SoundCluster(c) && Enabled(regime, c, e) && !e.move.Export? && !e.move.SendGrant?
    ensures var st, st' := c.At(e.node).state, Local(c.At(e.node), e).state;
      && st'.exported == st.exported
      && (st'.applied == st.applied || (e.move.Import? && st'.applied == e.move.candidate.sequence))
  {
  }

  lemma StepGrounded(regime: Regime, c: Cluster, e: Event)
    requires SoundCluster(c) && Grounded(c) && Enabled(regime, c, e)
    ensures Grounded(Step(c, e, regime))
  {
    var n, m, c' := e.node, c.At(e.node), Step(c, e, regime);
    if e.move.Export? {
      var h := m.ops[e.actor].handoff;
      var p := NextPayload(RoleOf(n), m.state, e.move.domains, h);
      PublishGrounded(c, e, p, e.move.reach, if h.Some? then Some(PrepareSent(p)) else None);
    } else if e.move.SendGrant? && m.outbound == Some(m.ops[e.actor].prepared) {
      var prepared := m.ops[e.actor].prepared;
      var p := NextPayload(RoleOf(n), m.state, prepared.domains, Some(Grant(n, n.Peer(), prepared)));
      PublishGrounded(c, e, p, e.move.reach, Some(GrantSent(p)));
    } else {
      if !e.move.SendGrant? { LocalSequences(c, e, regime); }
      forall x: NodeId ensures Created(c', c'.At(x).state.exported) && Created(c', c'.At(x).state.applied) {
        assert Created(c, c.At(x).state.exported) && Created(c, c.At(x).state.applied);
      }
    }
  }

  lemma {:induction false} RunGrounded(regime: Regime, events: seq<Event>, states: seq<Cluster>, i: nat)
    requires Run(regime, events, states) && i < |states|
    ensures Grounded(states[i])
  {
    if i != 0 {
      RunGrounded(regime, events, states, i - 1);
      RunInductive(regime, events, states, i - 1);
      StepGrounded(regime, states[i - 1], events[i - 1]);
    }
  }

  /** No node knows more than the highest bundle. */
  lemma KnownIsCreated(c: Cluster, n: NodeId, level: nat)
    requires Grounded(c) && Topmost(c, level)
    ensures Known(c.At(n).state) <= level
  {
    assert Created(c, c.At(n).state.exported) && Created(c, c.At(n).state.applied);
  }

  // ----- Nothing brings authority back -----

  lemma NothingNew(regime: Regime, c: Cluster, e: Event, t: Token)
    requires OneToken(c) && Enabled(regime, c, e) && !regime.conflicted
    requires Holds(Step(c, e, regime), t) && !Holds(c, t)
    ensures Held(c)
  {
    var n, m := e.node, c.At(e.node);
    assert Sound(c, n);
    if e.actor in m.ops { assert GoodOp(c, n, e.actor, m.ops[e.actor]); }
    hide OneToken, Sound;
    if e.move.Export? {
      var h := m.ops[e.actor].handoff;
      var p := NextPayload(RoleOf(n), m.state, e.move.domains, h);
      PublishPlaces(c, e, p, e.move.reach, if h.Some? then Some(PrepareSent(p)) else None, t);
    } else if e.move.SendGrant? {
      assert Holds(c, Grantor(n));
    } else {
      LocalPlaces(c, e, regime, t);
      MovedHere(c, e, regime);
      assert Holds(c, MovedFrom(e));
    }
  }

  lemma StaysLost(regime: Regime, c: Cluster, e: Event)
    requires Inductive(regime, c) && Enabled(regime, c, e) && !regime.conflicted && !Held(c)
    ensures !Held(Step(c, e, regime))
  {
    assert OneToken(c);
    hide Holds, Step, Enabled, Inductive, OneToken;
    if t :| Holds(Step(c, e, regime), t) { NothingNew(regime, c, e, t); }
  }

  lemma HolderHolds(c: Cluster, n: NodeId)
    ensures Auth(c, n) ==> Held(c)
  {
    assert Auth(c, n) ==> Holds(c, Reign(n));
  }

  /** Where authority is nowhere, it stays nowhere: neither node is authoritative, then or ever after. */
  lemma {:induction false} LostForever(regime: Regime, events: seq<Event>, states: seq<Cluster>, i: nat, j: nat)
    requires Run(regime, events, states) && !regime.conflicted && i <= j < |states| && !Held(states[i])
    ensures !Held(states[j]) && !Auth(states[j], Left) && !Auth(states[j], Right)
    decreases j - i
  {
    hide Inductive, Held, Step, Enabled, Auth;
    if i < j {
      LostForever(regime, events, states, i, j - 1);
      RunInductive(regime, events, states, j - 1);
      StaysLost(regime, states[j - 1], events[j - 1]);
    }
    HolderHolds(states[j], Left);
    HolderHolds(states[j], Right);
  }

  // ----- When authority is lost, exactly -----

  /** What an exact answer is given for: one place of authority, sequences in order and drawn from bundles. */
  ghost predicate Settled(c: Cluster) {
    OneToken(c) && Ranked(c) && Grounded(c)
  }

  /** An export has the authority it checked. */
  predicate Authorized(c: Cluster, e: Event) {
    e.move.Export? ==> Auth(c, e.node)
  }

  lemma ReignStays(regime: Regime, c: Cluster, e: Event, n: NodeId)
    requires OneToken(c) && Enabled(regime, c, e) && Auth(c, n)
    ensures Held(Step(c, e, regime)) && !Loses(c, e)
  {
    var m, ops := c.At(e.node), c.At(e.node).ops;
    assert Holds(c, Reign(n)) && Sound(c, e.node);
    forall a | a in ops ensures !ops[a].AcceptReady? && !ops[a].Surrendered? {
      assert GoodOp(c, e.node, a, ops[a]);
      assert ops[a].AcceptReady? ==> Holds(c, Pending(e.node, a));
      assert ops[a].Surrendered? ==> Holds(c, Grantor(e.node));
    }
    assert e.move.Import? ==> (InFlight(c, e.move.candidate, e.node) ==> Holds(c, Flying(e.move.candidate, e.node)));
    if e.move.GiveUp? && e.node == n {
      assert GoodOp(c, e.node, e.actor, ops[e.actor]);
      assert Holds(Step(c, e, regime), Grantor(n));
    } else {
      if !e.move.Export? && !e.move.SendGrant? { LocalMonotone(c, e, regime); }
      assert Holds(Step(c, e, regime), Reign(n));
    }
  }

  /** A service that has given authority up passes it on with its grant. */
  lemma GrantIsFlying(c: Cluster, n: NodeId, reach: Reach, regime: Regime)
    requires Settled(c) && Holds(c, Grantor(n))
    requires c.At(n).outbound == Some(c.At(n).ops[SERVICE].prepared) && !reach.Reserved?
    requires Enabled(regime, c, Event(n, SERVICE, SendGrant(reach)))
    ensures Held(Step(c, Event(n, SERVICE, SendGrant(reach)), regime))
  {
    var m, y := c.At(n), n.Peer();
    var prepared := m.ops[SERVICE].prepared;
    var p := NextPayload(RoleOf(n), m.state, prepared.domains, Some(Grant(n, y, prepared)));
    KnownIsCreated(c, y, Known(m.state));
    assert Holds(Step(c, Event(n, SERVICE, SendGrant(reach)), regime), Flying(p, y));
  }

  /** Only the service does what follows a confirmation. */
  lemma ActorIsService(c: Cluster, e: Event)
    requires Settled(c)
    ensures var ops := c.At(e.node).ops;
      e.actor in ops && (ops[e.actor].Surrendered? || ops[e.actor].Fenced?) ==> e.actor == SERVICE
  {
    assert Sound(c, e.node);
    if e.actor in c.At(e.node).ops { assert GoodOp(c, e.node, e.actor, c.At(e.node).ops[e.actor]); }
  }

  /** Short of a crash, an event leaves the operations of other actors alone. */
  lemma OthersGoOn(regime: Regime, c: Cluster, e: Event, a: Actor)
    requires Enabled(regime, c, e) && !e.move.Crash? && a in c.At(e.node).ops && a != e.actor
    ensures a in Step(c, e, regime).At(e.node).ops && Step(c, e, regime).At(e.node).ops[a] == c.At(e.node).ops[a]
  {
  }

  lemma GrantorMoves(regime: Regime, c: Cluster, e: Event, n: NodeId)
    requires Settled(c) && Enabled(regime, c, e) && Holds(c, Grantor(n)) && !Loses(c, e)
    ensures Held(Step(c, e, regime))
  {
    ActorIsService(c, e);
    hide Settled, ImportBlock;
    if e.move.SendGrant? && e.node == n {
      GrantIsFlying(c, n, e.move.reach, regime);
    } else {
      if e.node != n {
        PeerGoesOn(regime, c, e);
      } else if e.actor != SERVICE {
        assert !e.move.Crash?;
        OthersGoOn(regime, c, e, SERVICE);
      }
      assert Holds(Step(c, e, regime), Grantor(n));
    }
  }

  lemma PeerGoesOn(regime: Regime, c: Cluster, e: Event)
    requires Enabled(regime, c, e)
    ensures Step(c, e, regime).At(e.node.Peer()) == c.At(e.node.Peer())
  {
  }

  lemma PendingMoves(regime: Regime, c: Cluster, e: Event, n: NodeId, a: Actor)
    requires OneToken(c) && Enabled(regime, c, e) && Holds(c, Pending(n, a)) && !Loses(c, e)
    ensures Held(Step(c, e, regime))
  {
    hide OneToken;
    if e.move.Accept? && e.node == n && e.actor == a {
      assert Holds(Step(c, e, regime), Reign(n));
    } else {
      assert Holds(Step(c, e, regime), Pending(n, a));
    }
  }

  lemma SettledFacts(c: Cluster, g: Payload, n: NodeId)
    requires Settled(c) && InFlight(c, g, n)
    ensures Increasing(c.exports) && Topmost(c, g.sequence)
    ensures forall p :: p in c.published ==> p in c.exports
  {
    assert Holds(c, Flying(g, n));
    assert Level(c, Flying(g, n)) == g.sequence;
  }

  /** The only bundle that can overtake a grant under way is the grant itself. */
  lemma GrantIsHighest(c: Cluster, g: Payload, n: NodeId, q: Payload)
    requires Settled(c) && InFlight(c, g, n) && q in c.published && g.sequence <= q.sequence
    ensures q == g
  {
    SettledFacts(c, g, n);
    hide Settled;
    var i :| 0 <= i < |c.exports| && c.exports[i] == q;
    var j :| 0 <= j < |c.exports| && c.exports[j] == g;
  }

  /** An import that neither takes the grant nor applies it leaves the grant ahead of all the node knows. */
  lemma GrantStaysAhead(m: Member, e: Event, g: Payload, n: NodeId)
    requires e.move.Import? && e.node == n && e.actor in m.ops && m.ops[e.actor].ApplyReady?
    requires !m.ops[e.actor].mode.Inspect? && Known(m.state) < g.sequence && GrantTo(g, n)
    requires e.move.candidate == g || e.move.candidate.sequence < g.sequence
    requires e.move.candidate == g ==> !(m.ops[e.actor].mode.Initialize? && e.move.outcome.Applied?)
    requires !ImportResult(m, e).followUp.TakeGrant?
    ensures Known(ImportResult(m, e).state) < g.sequence
  {
  }

  lemma ImportShape(m: Member, e: Event)
    requires e.move.Import? && e.actor in m.ops && m.ops[e.actor].ApplyReady?
    ensures AfterImport(m, e).state == ImportResult(m, e).state
    ensures ImportResult(m, e).followUp.TakeGrant? ==>
      e.actor in AfterImport(m, e).ops && AfterImport(m, e).ops[e.actor].AcceptReady?
  {
  }

  lemma FlyingImport(c: Cluster, e: Event, g: Payload)
    requires Settled(c) && InFlight(c, g, e.node) && e.move.Import? && e.move.candidate in c.published
    requires e.actor in c.At(e.node).ops && c.At(e.node).ops[e.actor].ApplyReady?
    requires e.move.candidate == g ==> !(c.At(e.node).ops[e.actor].mode.Initialize? && e.move.outcome.Applied?)
    ensures Held(c.With(e.node, AfterImport(c.At(e.node), e)))
  {
    hide Settled, ImportResult, AfterImport;
    var n, m, q := e.node, c.At(e.node), e.move.candidate;
    ImportMode(c, e);
    if g.sequence <= q.sequence { GrantIsHighest(c, g, n, q); }
    ImportShape(m, e);
    if ImportResult(m, e).followUp.TakeGrant? {
      assert Holds(c.With(n, AfterImport(m, e)), Pending(n, e.actor));
    } else {
      GrantStaysAhead(m, e, g, n);
      assert Holds(c.With(n, AfterImport(m, e)), Flying(g, n));
    }
  }

  lemma ImportMode(c: Cluster, e: Event)
    requires Settled(c) && e.actor in c.At(e.node).ops && c.At(e.node).ops[e.actor].ApplyReady?
    ensures !c.At(e.node).ops[e.actor].mode.Inspect?
  {
    assert Sound(c, e.node) && GoodOp(c, e.node, e.actor, c.At(e.node).ops[e.actor]);
  }

  /** While a grant is under way no node publishes. */
  lemma FlyingIsAlone(c: Cluster, g: Payload, n: NodeId, e: Event)
    requires OneToken(c) && InFlight(c, g, n) && Authorized(c, e)
    requires e.move.Export? || e.move.SendGrant? ==> e.actor in c.At(e.node).ops
    requires e.move.SendGrant? ==> c.At(e.node).ops[e.actor].Surrendered?
    ensures !e.move.Export? && !e.move.SendGrant?
  {
    assert Holds(c, Flying(g, n)) && Sound(c, e.node);
    assert e.actor in c.At(e.node).ops ==> GoodOp(c, e.node, e.actor, c.At(e.node).ops[e.actor]);
    assert e.move.Export? ==> Holds(c, Reign(e.node));
    assert e.move.SendGrant? ==> Holds(c, Grantor(e.node));
  }

  lemma FlyingMoves(regime: Regime, c: Cluster, e: Event, g: Payload, n: NodeId)
    requires Settled(c) && Enabled(regime, c, e) && Authorized(c, e)
    requires InFlight(c, g, n) && !Loses(c, e)
    ensures Held(Step(c, e, regime))
  {
    FlyingIsAlone(c, g, n, e);
    if e.move.Import? && e.node == n {
      FlyingImport(c, e, g);
    } else {
      if !e.move.Import? { LocalSequences(c, e, regime); }
      hide Settled, Loses, ImportBlock;
      assert Step(c, e, regime).published == c.published;
      assert Known(Step(c, e, regime).At(n).state) == Known(c.At(n).state);
      assert Holds(Step(c, e, regime), Flying(g, n));
    }
  }

  /** Where a local move takes authority from its one place and puts it nowhere, it is nowhere. */
  lemma TakenAway(regime: Regime, c: Cluster, e: Event, lost: Token, t: Token)
    requires OneToken(c) && Enabled(regime, c, e) && !e.move.Export? && !e.move.SendGrant?
    requires Holds(c, lost) && !Holds(Step(c, e, regime), lost) && !Holds(Step(c, e, regime), MovedTo(e))
    ensures !Holds(Step(c, e, regime), t)
  {
    assert Holds(c, t) ==> t == lost;
    hide OneToken, Holds;
    if Holds(Step(c, e, regime), t) { LocalPlaces(c, e, regime, t); }
  }

  lemma GrantLost(regime: Regime, c: Cluster, e: Event, t: Token)
    requires OneToken(c) && Enabled(regime, c, e) && e.move.SendGrant? && Loses(c, e)
    ensures !Holds(Step(c, e, regime), t)
  {
    var n, m, c' := e.node, c.At(e.node), Step(c, e, regime);
    assert Sound(c, n) && GoodOp(c, n, e.actor, m.ops[e.actor]);
    assert Holds(c, Grantor(n)) && !Holds(c', Grantor(n));
    assert Holds(c, t) ==> t == Grantor(n);
    if m.outbound != Some(m.ops[e.actor].prepared) {
      hide OneToken;
      assert c' == c.With(n, Finish(m, e.actor));
      assert Holds(c', t) ==> Holds(c, t);
    } else if Holds(c', t) {
      var prepared := m.ops[e.actor].prepared;
      var p := NextPayload(RoleOf(n), m.state, prepared.domains, Some(Grant(n, n.Peer(), prepared)));
      PublishPlaces(c, e, p, e.move.reach, Some(GrantSent(p)), t);
    }
  }

  /** The place a loss takes authority from. */
  lemma LostFrom(c: Cluster, e: Event, a: Actor) returns (lost: Token)
    requires SoundCluster(c) && a in c.At(e.node).ops
    requires c.At(e.node).ops[a].Surrendered? || c.At(e.node).ops[a].AcceptReady?
    ensures Holds(c, lost) && lost.node == e.node
    ensures lost == Pending(e.node, a) || (lost == Grantor(e.node) && a == SERVICE)
  {
    assert Sound(c, e.node) && GoodOp(c, e.node, a, c.At(e.node).ops[a]);
    lost := if c.At(e.node).ops[a].AcceptReady? then Pending(e.node, a) else Grantor(e.node);
  }

  /** A loss takes away the one place authority was in. */
  lemma LossTakes(regime: Regime, c: Cluster, e: Event, t: Token)
    requires OneToken(c) && Enabled(regime, c, e) && !regime.conflicted && Loses(c, e)
    ensures !Holds(Step(c, e, regime), t)
  {
    var n, ops := e.node, c.At(e.node).ops;
    match e.move
    case Crash =>
      var a :| a in ops && (ops[a].Surrendered? || ops[a].AcceptReady?);
      var lost := LostFrom(c, e, a);
      assert !Auth(c, n) by { assert Holds(c, Reign(n)) ==> Reign(n) == lost; }
      TakenAway(regime, c, e, lost, t);
    case Abort =>
      var lost := LostFrom(c, e, e.actor);
      assert !Auth(c, n) by { assert Holds(c, Reign(n)) ==> Reign(n) == lost; }
      TakenAway(regime, c, e, lost, t);
    case SendGrant(reach) => GrantLost(regime, c, e, t);
    case Import(g, _, _) =>
      assert Holds(c, Flying(g, n));
      TakenAway(regime, c, e, Flying(g, n), t);
    case _ =>
  }

  /** Authority is lost by exactly these events, wherever sequences are in order. */
  lemma LostExactly(regime: Regime, c: Cluster, e: Event)
    requires Ordered(regime) && Reachable(regime, c) && Enabled(regime, c, e) && Held(c)
    ensures !Held(Step(c, e, regime)) <==> Loses(c, e)
  {
    var t :| Holds(c, t);
    ReachableSettled(regime, c);
    ReachableAuthorized(regime, c, e);
    if Loses(c, e) {
      forall t' ensures !Holds(Step(c, e, regime), t') { LossTakes(regime, c, e, t'); }
    } else {
      match t
      case Reign(n) => ReignStays(regime, c, e, n);
      case Grantor(n) => GrantorMoves(regime, c, e, n);
      case Flying(g, n) => FlyingMoves(regime, c, e, g, n);
      case Pending(n, a) => PendingMoves(regime, c, e, n, a);
    }
  }

  lemma ReachableSettled(regime: Regime, c: Cluster)
    requires Ordered(regime) && Reachable(regime, c)
    ensures Settled(c)
  {
    var events, states :| Run(regime, events, states) && states[|events|] == c;
    RunInductive(regime, events, states, |events|);
    RunGrounded(regime, events, states, |events|);
  }

  lemma ReachableAuthorized(regime: Regime, c: Cluster, e: Event)
    requires Ordered(regime) && Reachable(regime, c) && Enabled(regime, c, e)
    ensures Authorized(c, e)
  {
    ReachableInductive(regime, c);
    if e.move.Export? && !regime.concurrent { assert Serial(c, e.node); }
  }

  // ----- A run that loses it -----

  /** A crash between surrender and grant, in any regime: from then on both nodes stay passive. */
  lemma CrashLosesAuthority(regime: Regime)
    ensures exists c :: Reachable(regime, c) && !Held(c)
  {
    hide Reachable, Calls.After;
    var p := Preparation(START, Left);
    StartReachable(regime);
    PlayPrepare(regime, START, Left);
    PlayImport(regime, Prepared(START, Left), Right, p);
    var c := Imported(Prepared(START, Left), Right, p);
    var events := Calls.SurrenderSteps(regime, c, Left, p);
    Reaches(regime, c, events, Calls.GivenUp(c, Left, p));
    var e := Event(Left, SERVICE, Crash);
    Extend(regime, Calls.GivenUp(c, Left, p), e);
    NothingLeft(Step(Calls.GivenUp(c, Left, p), e, regime), p);
  }

  lemma NothingLeft(c: Cluster, p: Payload)
    requires c.left.ops == map[] == c.right.ops && c.published == {p} && !IsGrant(p)
    requires !Auth(c, Left) && !Auth(c, Right)
    ensures !Held(c)
  {
    forall t ensures !Holds(c, t) {}
  }
}
