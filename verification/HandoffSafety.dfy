/** Safety of every run of the two-node protocol. */
module HandoffSafety {
  import opened Prelude
  import opened Bundle
  import opened Engine
  import opened Handoff

  // ----- Facts of every run -----

  predicate GrantTo(g: Payload, n: NodeId) {
    IsGrant(g) && g.source == n.Peer() && g.handoff.value.target == n
  }

  /** A grant repeats the bundle it was prepared with, which its issuer published earlier. */
  predicate GoodGrant(c: Cluster, g: Payload)
    requires IsGrant(g)
  {
    var h := g.handoff.value;
    && h.source == g.source && h.target == g.source.Peer()
    && h.prepared in c.published && h.prepared.source == g.source
    && h.prepared.sequence < g.sequence && h.prepared.domains == g.domains
  }

  predicate GoodOp(c: Cluster, n: NodeId, a: Actor, pc: Pc) {
    match pc
    case ExportReady(h) => h.None? || (h == Some(Prepare(n, n.Peer())) && a == SERVICE)
    case PrepareSent(_) => a == SERVICE
    case Confirmed(_) => a == SERVICE
    case Fenced(_) => a == SERVICE
    case Surrendered(_) => a == SERVICE
    case GrantSent(_) => a == SERVICE
    case AcceptReady(g) => g in c.published && GrantTo(g, n)
    case ApplyReady(mode) => !mode.Inspect?
    case _ => true
  }

  ghost predicate Sound(c: Cluster, n: NodeId) {
    var m := c.At(n);
    && (m.outbound.Some? ==> m.outbound.value in c.published && m.outbound.value.source == n)
    && (forall p :: p in c.exports && p.source == n ==> p.sequence <= m.state.exported)
    && (forall p :: p in c.published && p.source == n ==>
          m.outbound.Some? && p.sequence <= m.outbound.value.sequence)
    && (forall a :: a in m.ops ==> GoodOp(c, n, a, m.ops[a]))
  }

  ghost predicate SoundCluster(c: Cluster) {
    && Sound(c, Left) && Sound(c, Right)
    && (forall p :: p in c.published ==> p in c.exports)
    && (forall g :: g in c.exports && IsGrant(g) ==> GoodGrant(c, g))
  }

  /** Publishing keeps the other node sound. */
  lemma PeerStaysSound(c: Cluster, e: Event, p: Payload, reach: Reach, next: Option<Pc>)
    requires Sound(c, e.node.Peer()) && p.source == e.node
    ensures Sound(Publish(c, e, p, reach, next), e.node.Peer())
  {
    var c', y := Publish(c, e, p, reach, next), e.node.Peer();
    assert c'.At(y) == c.At(y);
    forall a | a in c.At(y).ops ensures GoodOp(c', y, a, c.At(y).ops[a]) { assert GoodOp(c, y, a, c.At(y).ops[a]); }
  }

  /** And its own, whose bundle is newer than all before. */
  lemma PublisherStaysSound(c: Cluster, e: Event, p: Payload, reach: Reach, next: Option<Pc>)
    requires Sound(c, e.node) && p.source == e.node && p.sequence == Known(c.At(e.node).state) + 1
    requires forall q :: q in c.published ==> q in c.exports
    requires next.Some? ==> GoodOp(c, e.node, e.actor, next.value)
    ensures Sound(Publish(c, e, p, reach, next), e.node)
  {
    var c', n := Publish(c, e, p, reach, next), e.node;
    forall a | a in c'.At(n).ops ensures GoodOp(c', n, a, c'.At(n).ops[a]) {
      if a in c.At(n).ops { assert GoodOp(c, n, a, c.At(n).ops[a]); }
    }
  }

  lemma PublishSound(c: Cluster, e: Event, p: Payload, reach: Reach, next: Option<Pc>)
    requires SoundCluster(c)
    requires p.source == e.node && p.sequence == Known(c.At(e.node).state) + 1
    requires IsGrant(p) ==> GoodGrant(c, p)
    requires next.Some? ==> GoodOp(c, e.node, e.actor, next.value)
    ensures SoundCluster(Publish(c, e, p, reach, next))
  {
    hide Sound;
    var c' := Publish(c, e, p, reach, next);
    assert Sound(c, e.node) && Sound(c, e.node.Peer());
    PeerStaysSound(c, e, p, reach, next);
    PublisherStaysSound(c, e, p, reach, next);
    forall g | g in c'.exports && IsGrant(g) ensures GoodGrant(c', g) { assert g in c.exports || g == p; }
  }

  /** What a move that publishes nothing can leave in flight. */
  lemma LocalKeeps(c: Cluster, e: Event, regime: Regime)
    requires SoundCluster(c) && Enabled(regime, c, e) && !e.move.Export? && !e.move.SendGrant?
    ensures var m, m' := c.At(e.node), Local(c.At(e.node), e);
      && m'.outbound == m.outbound && m'.state.exported == m.state.exported
      && forall a :: a in m'.ops ==>
           if a != e.actor then a in m.ops && m'.ops[a] == m.ops[a] else GoodOp(c, e.node, a, m'.ops[a])
  {
    var n, m := e.node, c.At(e.node);
    if e.actor in m.ops {
      assert Sound(c, n);
      assert GoodOp(c, n, e.actor, m.ops[e.actor]);
    }
  }

  lemma StepSound(c: Cluster, e: Event, regime: Regime)
    requires SoundCluster(c) && Enabled(regime, c, e)
    ensures SoundCluster(Step(c, e, regime))
  {
    var n, m := e.node, c.At(e.node);
    if e.move.Export? {
      var h := m.ops[e.actor].handoff;
      assert Sound(c, n) && GoodOp(c, n, e.actor, m.ops[e.actor]);
      var p := NextPayload(RoleOf(n), m.state, e.move.domains, h);
      PublishSound(c, e, p, e.move.reach, if h.Some? then Some(PrepareSent(p)) else None);
    } else if e.move.SendGrant? {
      var prepared := m.ops[e.actor].prepared;
      assert Sound(c, n) && GoodOp(c, n, e.actor, m.ops[e.actor]);
      if m.outbound == Some(prepared) {
        var p := NextPayload(RoleOf(n), m.state, prepared.domains, Some(Grant(n, n.Peer(), prepared)));
        PublishSound(c, e, p, e.move.reach, Some(GrantSent(p)));
      } else {
        ReplaceSound(c, n, Finish(m, e.actor));
      }
    } else {
      LocalKeeps(c, e, regime);
      assert Sound(c, n);
      ReplaceSound(c, n, Local(m, e));
    }
  }

  lemma ReplaceSound(c: Cluster, n: NodeId, m: Member)
    requires SoundCluster(c)
    requires m.outbound == c.At(n).outbound && m.state.exported == c.At(n).state.exported
    requires forall a :: a in m.ops ==> GoodOp(c, n, a, m.ops[a])
    ensures SoundCluster(c.With(n, m))
  {
    var c' := c.With(n, m);
    assert Sound(c, n) && Sound(c, n.Peer());
    assert Sound(c', n) && Sound(c', n.Peer());
  }

  // ----- One operation at a time on each node: safe whatever the imports report -----

  /** What authority an operation in flight was started with, and still has. */
  predicate OpStanding(c: Cluster, n: NodeId, pc: Pc) {
    match pc
    case ExportReady(_) => Auth(c, n)
    case PrepareSent(_) => Auth(c, n)
    case Confirmed(_) => Auth(c, n)
    case Fenced(_) => Auth(c, n)
    case RequestReady => Auth(c, n)
    case ApplyReady(_) => !Auth(c, n)
    case Surrendered(_) => !Auth(c, n)
    case GrantSent(_) => !Auth(c, n)
    case AcceptReady(g) => !Auth(c, n.Peer()) && c.At(n).state.exported < g.sequence
    case ServeReady => true
  }

  /** A grant its target could still import: the target knows nothing as new. */
  predicate InFlight(c: Cluster, g: Payload, n: NodeId) {
    g in c.published && GrantTo(g, n) && Known(c.At(n).state) < g.sequence
  }

  ghost predicate Serial(c: Cluster, n: NodeId) {
    var m := c.At(n);
    && (forall a, b :: a in m.ops && b in m.ops ==> a == b)
    && (forall a :: a in m.ops ==> OpStanding(c, n, m.ops[a]))
    && (forall g :: InFlight(c, g, n) ==> !Auth(c, n.Peer()))
  }

  ghost predicate SerialCluster(c: Cluster) {
    SoundCluster(c) && Serial(c, Left) && Serial(c, Right) && AtMostOneAuthority(c)
  }

  lemma PublishSerial(c: Cluster, e: Event, p: Payload, reach: Reach, next: Option<Pc>)
    requires SerialCluster(c) && SoundCluster(Publish(c, e, p, reach, next))
    requires e.actor in c.At(e.node).ops && !c.At(e.node).ops[e.actor].AcceptReady?
    requires p.source == e.node && p.sequence == Known(c.At(e.node).state) + 1
    requires IsGrant(p) ==> !Auth(c, e.node)
    requires next.Some? ==> !next.value.AcceptReady? && OpStanding(c, e.node, next.value)
    ensures SerialCluster(Publish(c, e, p, reach, next))
  {
    hide Sound, GoodOp;
    var c' := Publish(c, e, p, reach, next);
    var n := e.node;
    assert Serial(c, n) && Serial(c, n.Peer());
    assert forall x: NodeId :: Auth(c', x) == Auth(c, x);
    assert Serial(c', n.Peer()) by {
      forall g | InFlight(c', g, n.Peer()) ensures !Auth(c', n) {
        assert g == p || InFlight(c, g, n.Peer());
      }
    }
    assert Serial(c', n) by {
      forall g | InFlight(c', g, n) ensures !Auth(c', n.Peer()) {
        assert InFlight(c, g, n);
      }
    }
  }

  /** A node whose authority does not grow and whose known sequence does not shrink endangers nothing. */
  lemma LocalSerial(c: Cluster, n: NodeId, m: Member)
    requires SerialCluster(c) && SoundCluster(c.With(n, m))
    requires Authoritative(RoleOf(n), m.state) ==> Auth(c, n)
    requires Known(c.At(n).state) <= Known(m.state)
    requires forall a, b :: a in m.ops && b in m.ops ==> a == b
    requires forall a :: a in m.ops ==> OpStanding(c.With(n, m), n, m.ops[a])
    ensures SerialCluster(c.With(n, m))
  {
    var c' := c.With(n, m);
    assert Serial(c, n) && Serial(c, n.Peer());
    assert Auth(c', n.Peer()) == Auth(c, n.Peer());
    assert Serial(c', n) by {
      forall g | InFlight(c', g, n) ensures !Auth(c', n.Peer()) {
        assert InFlight(c, g, n);
      }
    }
    assert Serial(c', n.Peer()) by {
      forall g | InFlight(c', g, n.Peer()) ensures !Auth(c', n) {
        assert InFlight(c, g, n.Peer());
      }
    }
  }

  /** While a grant waits to be accepted, its issuer has no authority and nothing else to accept. */
  lemma PendingExcludes(c: Cluster, n: NodeId, a: Actor)
    requires SerialCluster(c) && a in c.At(n).ops && c.At(n).ops[a].AcceptReady?
    ensures !Auth(c, n.Peer())
    ensures forall h :: !InFlight(c, h, n.Peer())
    ensures forall b :: b in c.At(n.Peer()).ops ==> !c.At(n.Peer()).ops[b].AcceptReady?
  {
    var m, y := c.At(n), n.Peer();
    var g := m.ops[a].grant;
    assert Serial(c, n) && Serial(c, y) && Sound(c, n) && Sound(c, y);
    assert GoodOp(c, n, a, m.ops[a]) && OpStanding(c, n, m.ops[a]);
    assert m.state.exported < g.sequence <= c.At(y).state.exported;
    forall b | b in c.At(y).ops ensures !c.At(y).ops[b].AcceptReady? {
      assert GoodOp(c, y, b, c.At(y).ops[b]) && OpStanding(c, y, c.At(y).ops[b]);
    }
  }

  /** Whoever accepts a grant takes authority from an issuer that has none left to keep. */
  lemma AcceptSerial(c: Cluster, n: NodeId, a: Actor)
    requires SerialCluster(c) && a in c.At(n).ops && c.At(n).ops[a].AcceptReady?
    requires SoundCluster(c.With(n, Local(c.At(n), Event(n, a, Accept))))
    ensures SerialCluster(c.With(n, Local(c.At(n), Event(n, a, Accept))))
  {
    hide Sound, GoodOp;
    var m, y := c.At(n), n.Peer();
    var c' := c.With(n, Local(m, Event(n, a, Accept)));
    PendingExcludes(c, n, a);
    assert Serial(c, n) && Serial(c, y);
    assert c'.At(y) == c.At(y) && Auth(c', y) == Auth(c, y);
    assert Serial(c', y) by {
      forall h ensures !InFlight(c', h, y) {
        assert !InFlight(c, h, y);
      }
      forall b | b in c.At(y).ops ensures OpStanding(c', y, c.At(y).ops[b]) {
        assert OpStanding(c, y, c.At(y).ops[b]);
      }
    }
  }

  /** The import block lets a grant through only when it is new: its own hash is never the prepared one. */
  lemma GrantIsNew(m: Member, e: Event)
    requires e.move.Import? && e.actor in m.ops && m.ops[e.actor].ApplyReady?
    requires ImportResult(m, e).followUp.TakeGrant?
    ensures var g := e.move.candidate;
      && GrantTo(g, e.node) && Known(m.state) < g.sequence && m.ops[e.actor].mode.Normal?
      && m.state.appliedHash == Some(g.handoff.value.prepared)
  {
    NoSelfReference(e.move.candidate);
  }

  /** Every other local move keeps the standing of the one operation in flight. */
  lemma OrdinarySerial(c: Cluster, e: Event, regime: Regime)
    requires SerialCluster(c) && Enabled(regime, c, e) && !regime.concurrent
    requires !e.move.Export? && !e.move.SendGrant? && !e.move.Accept? && !e.move.Import?
    ensures var m, m' := c.At(e.node), Local(c.At(e.node), e);
      && (Authoritative(RoleOf(e.node), m'.state) ==> Auth(c, e.node))
      && Known(m'.state) == Known(m.state)
      && (forall a, b :: a in m'.ops && b in m'.ops ==> a == b)
      && (forall a :: a in m'.ops ==> OpStanding(c.With(e.node, m'), e.node, m'.ops[a]))
  {
    var n, m := e.node, c.At(e.node);
    assert Serial(c, n);
    forall a | a in m.ops ensures OpStanding(c, n, m.ops[a]) && (e.actor in m.ops ==> a == e.actor) {}
  }

  /** What an import block leaves: the same authority, no lower sequence, and at most a grant to accept. */
  lemma ImportLeaves(c: Cluster, e: Event, regime: Regime)
    requires Enabled(regime, c, e) && e.move.Import? && !c.At(e.node).ops[e.actor].mode.Inspect?
    requires forall a, b :: a in c.At(e.node).ops && b in c.At(e.node).ops ==> a == b
    ensures var m, m' := c.At(e.node), Local(c.At(e.node), e);
      && m'.state.authoritative == m.state.authoritative
      && Known(m.state) <= Known(m'.state) && m'.state.exported == m.state.exported
      && forall a :: a in m'.ops ==>
           a == e.actor && m'.ops[a] == AcceptReady(e.move.candidate) && ImportResult(m, e).followUp.TakeGrant?
  {
  }

  lemma ImportSerial(c: Cluster, e: Event, regime: Regime)
    requires SerialCluster(c) && Enabled(regime, c, e) && !regime.concurrent && e.move.Import?
    requires SoundCluster(c.With(e.node, Local(c.At(e.node), e)))
    ensures SerialCluster(c.With(e.node, Local(c.At(e.node), e)))
  {
    var n, m := e.node, c.At(e.node);
    assert Serial(c, n) && Sound(c, n);
    assert OpStanding(c, n, m.ops[e.actor]) && GoodOp(c, n, e.actor, m.ops[e.actor]);
    hide Sound, SoundCluster, ImportBlock, GoodOp, Local;
    ImportLeaves(c, e, regime);
    if ImportResult(m, e).followUp.TakeGrant? {
      GrantIsNew(m, e);
      assert InFlight(c, e.move.candidate, n);
    }
    LocalSerial(c, n, Local(m, e));
  }

  lemma ExportSerial(c: Cluster, e: Event, regime: Regime)
    requires SerialCluster(c) && Enabled(regime, c, e) && !regime.concurrent && e.move.Export?
    requires SoundCluster(Step(c, e, regime))
    ensures SerialCluster(Step(c, e, regime))
  {
    var n, m := e.node, c.At(e.node);
    var h := m.ops[e.actor].handoff;
    var p := NextPayload(RoleOf(n), m.state, e.move.domains, h);
    assert Serial(c, n) && Sound(c, n);
    assert OpStanding(c, n, m.ops[e.actor]) && GoodOp(c, n, e.actor, m.ops[e.actor]);
    PublishSerial(c, e, p, e.move.reach, if h.Some? then Some(PrepareSent(p)) else None);
  }

  lemma GrantSerial(c: Cluster, e: Event, regime: Regime)
    requires SerialCluster(c) && Enabled(regime, c, e) && !regime.concurrent && e.move.SendGrant?
    requires SoundCluster(Step(c, e, regime))
    ensures SerialCluster(Step(c, e, regime))
  {
    var n, m := e.node, c.At(e.node);
    var prepared := m.ops[e.actor].prepared;
    assert Serial(c, n) && OpStanding(c, n, m.ops[e.actor]);
    if m.outbound == Some(prepared) {
      var p := NextPayload(RoleOf(n), m.state, prepared.domains, Some(Grant(n, n.Peer(), prepared)));
      PublishSerial(c, e, p, e.move.reach, Some(GrantSent(p)));
    } else {
      LocalSerial(c, n, Finish(m, e.actor));
    }
  }

  lemma StepSerial(c: Cluster, e: Event, regime: Regime)
    requires SerialCluster(c) && Enabled(regime, c, e) && !regime.concurrent
    ensures SerialCluster(Step(c, e, regime))
  {
    StepSound(c, e, regime);
    if e.move.Export? {
      ExportSerial(c, e, regime);
    } else if e.move.SendGrant? {
      GrantSerial(c, e, regime);
    } else if e.move.Accept? {
      AcceptSerial(c, e.node, e.actor);
    } else if e.move.Import? {
      ImportSerial(c, e, regime);
    } else {
      OrdinarySerial(c, e, regime);
      LocalSerial(c, e.node, Local(c.At(e.node), e));
    }
  }

  // ----- Any number of operations at a time: safe when accepted grants were applied -----

  /** The places authority can be: a reigning node, a surrendered service about to send its grant,
      a grant under way, or a grant waiting to be accepted. */
  datatype Token =
    | Reign(node: NodeId)
    | Grantor(node: NodeId)
    | Flying(grant: Payload, node: NodeId)
    | Pending(node: NodeId, actor: Actor)

  predicate Holds(c: Cluster, t: Token) {
    match t
    case Reign(n) => Auth(c, n)
    case Grantor(n) => SERVICE in c.At(n).ops && c.At(n).ops[SERVICE].Surrendered?
    case Flying(g, n) => InFlight(c, g, n)
    case Pending(n, a) => a in c.At(n).ops && c.At(n).ops[a].AcceptReady?
  }

  /** Only the service gives authority up, so what it checked still holds. */
  predicate ServiceReigns(c: Cluster, n: NodeId) {
    SERVICE in c.At(n).ops &&
    (c.At(n).ops[SERVICE].PrepareSent? || c.At(n).ops[SERVICE].Confirmed? || c.At(n).ops[SERVICE].Fenced?)
    ==> Auth(c, n)
  }

  predicate ServiceExports(c: Cluster, n: NodeId) {
    SERVICE in c.At(n).ops && c.At(n).ops[SERVICE].ExportReady? ==> Auth(c, n)
  }

  ghost predicate OneToken(c: Cluster) {
    && SoundCluster(c)
    && (forall n: NodeId :: ServiceReigns(c, n) && ServiceExports(c, n))
    && (forall t1, t2 :: Holds(c, t1) && Holds(c, t2) ==> t1 == t2)
  }

  /** Authority moves from one place to another, or is lost. */
  lemma TokenMoves(c: Cluster, c': Cluster, from: Token, to: Token)
    requires OneToken(c) && SoundCluster(c')
    requires forall n: NodeId :: ServiceReigns(c', n) && ServiceExports(c', n)
    requires forall t :: Holds(c', t) ==> Holds(c, t) || t == to
    requires Holds(c', to) ==> Holds(c, to) || (Holds(c, from) && !Holds(c', from))
    ensures OneToken(c')
  {
  }

  /** Publishing puts authority nowhere but into the grant it publishes. */
  lemma PublishPlaces(c: Cluster, e: Event, p: Payload, reach: Reach, next: Option<Pc>, t: Token)
    requires e.actor in c.At(e.node).ops && p.source == e.node && p.sequence == Known(c.At(e.node).state) + 1
    requires next.Some? ==> next.value.GrantSent? || next.value.PrepareSent?
    requires Holds(Publish(c, e, p, reach, next), t)
    ensures Holds(c, t) || (IsGrant(p) && t == Flying(p, e.node.Peer()))
  {
  }

  lemma PublishToken(c: Cluster, e: Event, p: Payload, reach: Reach, next: Option<Pc>)
    requires OneToken(c) && SoundCluster(Publish(c, e, p, reach, next))
    requires e.actor in c.At(e.node).ops
    requires p.source == e.node && p.sequence == Known(c.At(e.node).state) + 1
    requires IsGrant(p) ==> e.actor == SERVICE && Holds(c, Grantor(e.node))
    requires next.Some? ==> next.value.GrantSent? || (next.value.PrepareSent? && Auth(c, e.node))
    ensures OneToken(Publish(c, e, p, reach, next))
  {
    var c' := Publish(c, e, p, reach, next);
    var n := e.node;
    PublishService(c, e, p, reach, next);
    forall t | Holds(c', t) ensures Holds(c, t) || t == Flying(p, n.Peer()) {
      PublishPlaces(c, e, p, reach, next, t);
    }
    TokenMoves(c, c', Grantor(n), Flying(p, n.Peer()));
  }

  lemma PublishService(c: Cluster, e: Event, p: Payload, reach: Reach, next: Option<Pc>)
    requires forall n: NodeId :: ServiceReigns(c, n) && ServiceExports(c, n)
    requires e.actor in c.At(e.node).ops
    requires next.Some? ==> next.value.GrantSent? || (next.value.PrepareSent? && Auth(c, e.node))
    ensures forall n: NodeId ::
      ServiceReigns(Publish(c, e, p, reach, next), n) && ServiceExports(Publish(c, e, p, reach, next), n)
  {
    var c' := Publish(c, e, p, reach, next);
    forall x: NodeId ensures ServiceReigns(c', x) && ServiceExports(c', x) {
      assert ServiceReigns(c, x) && ServiceExports(c, x);
      assert Auth(c', x) == Auth(c, x);
    }
  }

  lemma ImportMonotone(m: Member, e: Event, n: NodeId)
    requires e.move.Import? && e.actor in m.ops && m.ops[e.actor].ApplyReady? && e.node == n
    requires !m.ops[e.actor].mode.Inspect?
    ensures Known(m.state) <= Known(AfterImport(m, e).state)
    ensures AfterImport(m, e).state.authoritative == m.state.authoritative
  {
  }

  /** Known sequences never shrink, and only accepting a grant creates authority. */
  lemma LocalMonotone(c: Cluster, e: Event, regime: Regime)
    requires SoundCluster(c) && Enabled(regime, c, e) && !e.move.Export? && !e.move.SendGrant?
    ensures var m, m' := c.At(e.node), Local(c.At(e.node), e);
      && Known(m.state) <= Known(m'.state)
      && (Authoritative(RoleOf(e.node), m'.state) ==> Auth(c, e.node) || e.move.Accept?)
      && (Auth(c, e.node) ==> Authoritative(RoleOf(e.node), m'.state) || e.move.GiveUp?)
  {
    hide AfterImport;
    var n, m := e.node, c.At(e.node);
    assert Sound(c, n);
    if e.actor in m.ops {
      assert GoodOp(c, n, e.actor, m.ops[e.actor]);
    }
    hide Sound, SoundCluster, GoodOp;
    if e.move.Import? { ImportMonotone(m, e, n); }
  }

  /** Where the authority a move takes away was, and where the move puts it. */
  function MovedFrom(e: Event): Token {
    match e.move
    case Accept => Pending(e.node, e.actor)
    case Import(g, _, _) => Flying(g, e.node)
    case _ => Reign(e.node)
  }

  function MovedTo(e: Event): Token {
    match e.move
    case GiveUp => Grantor(e.node)
    case Import(_, _, _) => Pending(e.node, e.actor)
    case _ => Reign(e.node)
  }

  lemma LocalPending(c: Cluster, e: Event, regime: Regime, n: NodeId, a: Actor)
    requires Enabled(regime, c, e) && !e.move.Export? && !e.move.SendGrant?
    requires Holds(c.With(e.node, Local(c.At(e.node), e)), Pending(n, a))
    ensures Holds(c, Pending(n, a)) || (e.move.Import? && Pending(n, a) == MovedTo(e))
  {
  }

  lemma LocalGrantor(c: Cluster, e: Event, regime: Regime, n: NodeId)
    requires Enabled(regime, c, e) && !e.move.Export? && !e.move.SendGrant?
    requires Holds(c.With(e.node, Local(c.At(e.node), e)), Grantor(n))
    ensures Holds(c, Grantor(n)) || (e.move.GiveUp? && n == e.node)
  {
  }

  /** A local move puts authority in one place at most. */
  lemma LocalPlaces(c: Cluster, e: Event, regime: Regime, t: Token)
    requires OneToken(c) && Enabled(regime, c, e) && !e.move.Export? && !e.move.SendGrant?
    requires Holds(c.With(e.node, Local(c.At(e.node), e)), t)
    ensures Holds(c, t) || t == MovedTo(e)
  {
    match t
    case Pending(n, a) => LocalPending(c, e, regime, n, a);
    case Grantor(n) => LocalGrantor(c, e, regime, n);
    case _ => LocalMonotone(c, e, regime);
  }

  /** A service that surrenders reigned until then; the service of no other node is touched. */
  lemma LocalService(c: Cluster, e: Event, regime: Regime)
    requires OneToken(c) && Enabled(regime, c, e) && !e.move.Export? && !e.move.SendGrant?
    ensures var c' := c.With(e.node, Local(c.At(e.node), e));
      forall n: NodeId :: ServiceReigns(c', n) && ServiceExports(c', n)
  {
    var n, m := e.node, c.At(e.node);
    LocalMonotone(c, e, regime);
    assert Sound(c, n);
    if e.actor in m.ops {
      assert GoodOp(c, n, e.actor, m.ops[e.actor]);
    }
    var c' := c.With(n, Local(m, e));
    hide Sound, GoodOp, ImportBlock, ImportResult;
    forall x: NodeId ensures ServiceReigns(c', x) && ServiceExports(c', x) {
      assert ServiceReigns(c, x) && ServiceExports(c, x);
    }
  }

  /** Authority that arrives somewhere has left where the move takes it. */
  lemma MovedHere(c: Cluster, e: Event, regime: Regime)
    requires OneToken(c) && Enabled(regime, c, e) && !regime.conflicted && !e.move.Export? && !e.move.SendGrant?
    requires Holds(c.With(e.node, Local(c.At(e.node), e)), MovedTo(e)) && !Holds(c, MovedTo(e))
    ensures Holds(c, MovedFrom(e)) && !Holds(c.With(e.node, Local(c.At(e.node), e)), MovedFrom(e))
  {
    var n, m := e.node, c.At(e.node);
    if e.move.Import? && ImportResult(m, e).followUp.TakeGrant? { GrantIsNew(m, e); }
    if e.move.GiveUp? { assert ServiceReigns(c, n) && Sound(c, n) && GoodOp(c, n, e.actor, m.ops[e.actor]); }
  }

  lemma LocalToken(c: Cluster, e: Event, regime: Regime)
    requires OneToken(c) && Enabled(regime, c, e) && !regime.conflicted
    requires !e.move.Export? && !e.move.SendGrant?
    requires SoundCluster(c.With(e.node, Local(c.At(e.node), e)))
    ensures OneToken(c.With(e.node, Local(c.At(e.node), e)))
  {
    hide Holds, OneToken, SoundCluster, ServiceReigns, ServiceExports;
    var c' := c.With(e.node, Local(c.At(e.node), e));
    LocalService(c, e, regime);
    forall t | Holds(c', t) ensures Holds(c, t) || t == MovedTo(e) {
      LocalPlaces(c, e, regime, t);
    }
    if Holds(c', MovedTo(e)) && !Holds(c, MovedTo(e)) { MovedHere(c, e, regime); }
    TokenMoves(c, c', MovedFrom(e), MovedTo(e));
  }

  lemma ExportToken(c: Cluster, e: Event, regime: Regime)
    requires OneToken(c) && Enabled(regime, c, e) && e.move.Export? && SoundCluster(Step(c, e, regime))
    ensures OneToken(Step(c, e, regime))
  {
    var n, m := e.node, c.At(e.node);
    var h := m.ops[e.actor].handoff;
    var p := NextPayload(RoleOf(n), m.state, e.move.domains, h);
    assert Sound(c, n) && GoodOp(c, n, e.actor, m.ops[e.actor]) && ServiceExports(c, n);
    PublishToken(c, e, p, e.move.reach, if h.Some? then Some(PrepareSent(p)) else None);
  }

  lemma GrantToken(c: Cluster, e: Event, regime: Regime)
    requires OneToken(c) && Enabled(regime, c, e) && e.move.SendGrant? && SoundCluster(Step(c, e, regime))
    ensures OneToken(Step(c, e, regime))
  {
    var n, m := e.node, c.At(e.node);
    var prepared := m.ops[e.actor].prepared;
    assert Sound(c, n) && GoodOp(c, n, e.actor, m.ops[e.actor]);
    if m.outbound == Some(prepared) {
      var p := NextPayload(RoleOf(n), m.state, prepared.domains, Some(Grant(n, n.Peer(), prepared)));
      PublishToken(c, e, p, e.move.reach, Some(GrantSent(p)));
    } else {
      var c' := c.With(n, Finish(m, e.actor));
      forall x: NodeId ensures ServiceReigns(c', x) && ServiceExports(c', x) {
        assert ServiceReigns(c, x) && ServiceExports(c, x);
      }
      TokenMoves(c, c', Reign(n), Reign(n));
    }
  }

  lemma StepToken(c: Cluster, e: Event, regime: Regime)
    requires OneToken(c) && Enabled(regime, c, e) && !regime.conflicted
    ensures OneToken(Step(c, e, regime))
  {
    StepSound(c, e, regime);
    if e.move.Export? {
      ExportToken(c, e, regime);
    } else if e.move.SendGrant? {
      GrantToken(c, e, regime);
    } else {
      LocalToken(c, e, regime);
    }
  }

  // ----- Applied grants and exports with authority: sequences are unique across the cluster -----

  /** The highest sequence the holder of authority builds on. */
  function Level(c: Cluster, t: Token): nat {
    match t
    case Flying(g, _) => g.sequence
    case _ => Known(c.At(t.node).state)
  }

  ghost predicate Topmost(c: Cluster, level: nat) {
    forall p :: p in c.exports ==> p.sequence <= level
  }

  /** Between bundles of different nodes there is a grant. */
  predicate ChangesByGrant(exports: seq<Payload>) {
    forall i :: 0 <= i < |exports| - 1 && exports[i].source != exports[i + 1].source ==> IsGrant(exports[i])
  }

  /** The last bundle is the holder's own, or a grant. */
  predicate Follows(c: Cluster, n: NodeId) {
    c.exports != [] ==> c.exports[|c.exports| - 1].source == n || IsGrant(c.exports[|c.exports| - 1])
  }

  ghost predicate Ranked(c: Cluster) {
    && Increasing(c.exports) && ChangesByGrant(c.exports)
    && forall t :: Holds(c, t) ==> Topmost(c, Level(c, t)) && Follows(c, t.node)
  }

  ghost predicate Unique(c: Cluster) {
    forall t1, t2 :: Holds(c, t1) && Holds(c, t2) ==> t1 == t2
  }

  lemma PublishRanked(c: Cluster, e: Event, p: Payload, reach: Reach, next: Option<Pc>, from: Token)
    requires Ranked(c) && Unique(c) && Holds(c, from) && (from == Reign(e.node) || from == Grantor(e.node))
    requires from.Grantor? ==> e.actor == SERVICE && IsGrant(p)
    requires next.Some? ==> !next.value.AcceptReady? && !next.value.Surrendered?
    requires p.source == e.node && p.sequence == Known(c.At(e.node).state) + 1
    ensures Ranked(Publish(c, e, p, reach, next))
  {
    hide Sound, GoodOp;
    var c' := Publish(c, e, p, reach, next);
    assert Topmost(c, Level(c, from));
    assert Level(c, from) == p.sequence - 1 && Follows(c, e.node);
    assert ChangesByGrant(c'.exports) by {
      assert forall i :: 0 <= i < |c.exports| ==> c'.exports[i] == c.exports[i];
    }
    forall t | Holds(c', t) ensures Topmost(c', Level(c', t)) && Follows(c', t.node) {
      assert Holds(c, t) || t == Flying(p, e.node.Peer());
      assert p.sequence <= Level(c', t);
    }
  }

  lemma LocalRanked(c: Cluster, c': Cluster, from: Token, to: Token)
    requires Ranked(c) && c'.exports == c.exports
    requires forall n: NodeId :: Known(c.At(n).state) <= Known(c'.At(n).state)
    requires forall t :: Holds(c', t) ==> Holds(c, t) || t == to
    requires Holds(c', to) ==> Holds(c, to) || (Holds(c, from) && Level(c, from) <= Level(c', to))
    requires from.node == to.node
    ensures Ranked(c')
  {
    forall t | Holds(c', t) ensures Topmost(c', Level(c', t)) && Follows(c', t.node) {
      var t0 := if Holds(c, t) then t else from;
      assert Topmost(c, Level(c, t0)) && Level(c, t0) <= Level(c', t);
    }
  }

  /** Authority that arrives somewhere comes from where the move takes it, at no lower level. */
  lemma MovedLevel(c: Cluster, e: Event, regime: Regime)
    requires OneToken(c)
    requires Enabled(regime, c, e) && !regime.conflicted && !e.move.Export? && !e.move.SendGrant?
    requires Holds(c.With(e.node, Local(c.At(e.node), e)), MovedTo(e)) && !Holds(c, MovedTo(e))
    ensures Holds(c, MovedFrom(e))
    ensures Level(c, MovedFrom(e)) <= Level(c.With(e.node, Local(c.At(e.node), e)), MovedTo(e))
  {
    MovedHere(c, e, regime);
    hide OneToken, Sound;
    if e.move.Import? && ImportResult(c.At(e.node), e).followUp.TakeGrant? { GrantIsNew(c.At(e.node), e); }
  }

  lemma StepLocalRanked(c: Cluster, e: Event, regime: Regime)
    requires OneToken(c) && Ranked(c)
    requires Enabled(regime, c, e) && !regime.conflicted && !e.move.Export? && !e.move.SendGrant?
    ensures Ranked(c.With(e.node, Local(c.At(e.node), e)))
  {
    assert SoundCluster(c);
    hide Sound, SoundCluster, Ranked, Holds, OneToken;
    var c' := c.With(e.node, Local(c.At(e.node), e));
    LocalMonotone(c, e, regime);
    forall t | Holds(c', t) ensures Holds(c, t) || t == MovedTo(e) {
      LocalPlaces(c, e, regime, t);
    }
    if Holds(c', MovedTo(e)) && !Holds(c, MovedTo(e)) { MovedLevel(c, e, regime); }
    hide Local, Enabled;
    LocalRanked(c, c', MovedFrom(e), MovedTo(e));
  }

  lemma StepRanked(c: Cluster, e: Event, regime: Regime)
    requires OneToken(c) && Ranked(c)
    requires Enabled(regime, c, e) && !regime.conflicted && (e.move.Export? ==> Auth(c, e.node))
    ensures Ranked(Step(c, e, regime))
  {
    var n, m := e.node, c.At(e.node);
    if e.move.Export? {
      var h := m.ops[e.actor].handoff;
      var p := NextPayload(RoleOf(n), m.state, e.move.domains, h);
      PublishRanked(c, e, p, e.move.reach, if h.Some? then Some(PrepareSent(p)) else None, Reign(n));
    } else if e.move.SendGrant? {
      var prepared := m.ops[e.actor].prepared;
      assert Sound(c, n) && GoodOp(c, n, e.actor, m.ops[e.actor]);
      if m.outbound == Some(prepared) {
        var p := NextPayload(RoleOf(n), m.state, prepared.domains, Some(Grant(n, n.Peer(), prepared)));
        PublishRanked(c, e, p, e.move.reach, Some(GrantSent(p)), Grantor(n));
      } else {
        LocalRanked(c, c.With(n, Finish(m, e.actor)), Reign(n), Reign(n));
      }
    } else {
      StepLocalRanked(c, e, regime);
    }
  }

  // ----- Replays -----

  /** A node's imports: later ones have a higher sequence or are the very bundle applied before. */
  ghost predicate NoReplay(imports: seq<Payload>) {
    forall i, j :: 0 <= i < j < |imports| ==>
      imports[i].sequence < imports[j].sequence || imports[i] == imports[j]
  }

  ghost predicate Remembers(m: Member) {
    && NoReplay(m.imports)
    && (m.imports == [] ==> m.state.applied == 0 && m.state.appliedHash.None?)
    && (m.imports != [] ==>
          m.state.appliedHash == Some(m.imports[|m.imports| - 1]) &&
          m.state.applied == m.imports[|m.imports| - 1].sequence)
  }

  ghost predicate RemembersAll(c: Cluster) {
    Remembers(c.left) && Remembers(c.right)
  }

  /** The import block only takes a bundle that is new to the node, or the one it applied last. */
  lemma ImportIsNew(m: Member, e: Event)
    requires e.move.Import? && e.actor in m.ops && m.ops[e.actor].ApplyReady? && !m.ops[e.actor].mode.Inspect?
    requires ImportResult(m, e).taken
    ensures Known(m.state) < e.move.candidate.sequence || m.state.appliedHash == Some(e.move.candidate)
    ensures m.state.applied <= ImportResult(m, e).state.applied == e.move.candidate.sequence
  {
  }

  lemma AppendImport(imports: seq<Payload>, p: Payload)
    requires NoReplay(imports)
    requires imports != [] ==> imports[|imports| - 1].sequence < p.sequence || imports[|imports| - 1] == p
    ensures NoReplay(imports + [p])
  {
    var k := |imports|;
    forall i | 0 <= i < k ensures imports[i].sequence < p.sequence || imports[i] == p {
      assert i < k - 1 ==> imports[i].sequence < imports[k - 1].sequence || imports[i] == imports[k - 1];
    }
  }

  lemma StepKeepsHistory(c: Cluster, e: Event, regime: Regime)
    requires Enabled(regime, c, e) && !e.move.Import?
    ensures var c' := Step(c, e, regime); forall n: NodeId ::
      && c'.At(n).imports == c.At(n).imports
      && c'.At(n).state.applied == c.At(n).state.applied
      && c'.At(n).state.appliedHash == c.At(n).state.appliedHash
  {
  }

  lemma ImportRemembers(m: Member, e: Event)
    requires Remembers(m) && e.move.Import? && e.actor in m.ops && m.ops[e.actor].ApplyReady?
    requires !m.ops[e.actor].mode.Inspect?
    ensures Remembers(AfterImport(m, e)) && m.state.applied <= AfterImport(m, e).state.applied
  {
    if ImportResult(m, e).taken {
      ImportIsNew(m, e);
      AppendImport(m.imports, e.move.candidate);
    }
  }

  /** What an import does to its node, and only to it. */
  lemma ImportStepRemembers(c: Cluster, e: Event, regime: Regime)
    requires SoundCluster(c) && RemembersAll(c) && Enabled(regime, c, e) && e.move.Import?
    ensures var m' := Step(c, e, regime).At(e.node);
      Remembers(m') && c.At(e.node).state.applied <= m'.state.applied
    ensures Step(c, e, regime).At(e.node.Peer()) == c.At(e.node.Peer())
  {
    assert Sound(c, e.node) && GoodOp(c, e.node, e.actor, c.At(e.node).ops[e.actor]);
    ImportRemembers(c.At(e.node), e);
  }

  lemma KeptRemembers(c: Cluster, c': Cluster)
    requires RemembersAll(c)
    requires forall n: NodeId ::
      && c'.At(n).imports == c.At(n).imports
      && c'.At(n).state.applied == c.At(n).state.applied
      && c'.At(n).state.appliedHash == c.At(n).state.appliedHash
    ensures RemembersAll(c')
  {
    assert c'.At(Left) == c'.left && c'.At(Right) == c'.right && c.At(Left) == c.left && c.At(Right) == c.right;
  }

  lemma StepRemembers(c: Cluster, e: Event, regime: Regime)
    requires SoundCluster(c) && RemembersAll(c) && Enabled(regime, c, e)
    ensures RemembersAll(Step(c, e, regime))
    ensures forall n: NodeId :: c.At(n).state.applied <= Step(c, e, regime).At(n).state.applied
  {
    if e.move.Import? {
      ImportStepRemembers(c, e, regime);
      var c' := Step(c, e, regime);
      assert Remembers(c'.At(e.node)) && c'.At(e.node.Peer()) == c.At(e.node.Peer());
    } else {
      StepKeepsHistory(c, e, regime);
      KeptRemembers(c, Step(c, e, regime));
    }
  }
}
