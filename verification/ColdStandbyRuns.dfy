/** Runs of a cold-standby pair, and the exact statements they complete: when sequences repeat, when a node
    is promoted, and when a returning node follows the newer writer. */
module ColdStandbyRuns {
  import opened Prelude
  import opened Bundle
  import opened Engine
  import opened ColdStandby

  const SERVICE: Actor := 0
  const ALL_MET := Conditions(true, true, true, true)

  lemma Extend(r: Conditions, c: Pair, e: Event)
    requires Reachable(r, c) && Enabled(r, c, e)
    ensures Reachable(r, Step(c, e, r))
  {
    var events :| After(r, START, events) == Some(c);
    Then(r, START, events, c, e);
    assert After(r, START, events + [e]) == Some(Step(c, e, r));
  }

  lemma Reaches(r: Conditions, c: Pair, events: seq<Event>, c': Pair)
    requires Reachable(r, c) && After(r, c, events) == Some(c')
    ensures Reachable(r, c')
  {
    var before :| After(r, START, before) == Some(c);
    Joined(r, START, before, c, events);
    assert After(r, START, before + events) == Some(c');
  }

  lemma StartReachable(r: Conditions)
    ensures Reachable(r, START)
  {
    assert After(r, START, []) == Some(START);
  }

  // ----- Whole operations, played without interruption -----

  predicate Rests(c: Pair, n: NodeId) {
    c.site == On(n, Up, map[])
  }

  lemma PlayExport(r: Conditions, c: Pair, n: NodeId, kind: Kind, reach: Reach)
    requires Reachable(r, c) && Rests(c, n) && Auth(c, n) && (r.complete ==> reach.Complete?)
    ensures Reachable(r, Exported(c, n, map[], kind, reach)) && Rests(Exported(c, n, map[], kind, reach), n)
  {
    Extend(r, c, BeginExport(SERVICE, kind));
    var c1 := Step(c, BeginExport(SERVICE, kind), r);
    Extend(r, c1, Export(SERVICE, map[], reach));
    assert c1.site.ops - {SERVICE} == map[];
    assert Step(c1, Export(SERVICE, map[], reach), r) == Exported(c, n, map[], kind, reach);
  }

  /** What starting a node leaves before it imports anything. */
  function Booted(c: Pair, n: NodeId): Pair {
    (if SeesNewer(c, n) then c.With(n, StepDown(c.At(n))) else c).(site := On(n, Up, map[]))
  }

  lemma BootSteps(r: Conditions, c: Pair, n: NodeId) returns (events: seq<Event>)
    requires c.site.Off?
    ensures After(r, c, events) == Some(Booted(c, n))
  {
    hide After;
    Nothing(r, c);
    Then(r, c, [], c, Boot(n));
    var c1 := Step(c, Boot(n), r);
    Then(r, c, [] + [Boot(n)], c1, Event.Inspect(true));
    events := [] + [Boot(n)] + [Event.Inspect(true)];
    if SeesNewer(c, n) {
      Then(r, c, events, Step(c1, Event.Inspect(true), r), GiveUp);
      events := events + [GiveUp];
    }
  }

  lemma Nothing(r: Conditions, c: Pair)
    ensures After(r, c, []) == Some(c)
  {
  }

  /** A selection other than the one a bundle was applied with. */
  function OtherScope(st: NodeState): Scope {
    if st.appliedScope == Some(0) then 1 else 0
  }

  /** A node that has applied the newest bundle, the peer's shutdown, and accepted it. */
  function TakenOver(c: Pair, n: NodeId): Pair
    requires c.store != []
  {
    var p := c.store[|c.store| - 1];
    c.With(n, AcceptColdShutdown(RecordApplied(c.At(n), OtherScope(c.At(n)), p), p.source))
  }

  lemma TakeOverSteps(r: Conditions, c: Pair, n: NodeId) returns (events: seq<Event>)
    requires Rests(c, n) && !Auth(c, n) && Promotable(c, n)
    requires c.store[|c.store| - 1].source == n.Peer() && Remembers(c, n)
    ensures After(r, c, events) == Some(TakenOver(c, n))
  {
    hide After;
    var scope, p := OtherScope(c.At(n)), c.store[|c.store| - 1];
    var e1, e2, e3 := BeginApply(SERVICE, Normal), Event.Import(SERVICE, scope, Applied), Accept(SERVICE);
    Nothing(r, c);
    Then(r, c, [], c, e1);
    var c1 := Step(c, e1, r);
    Then(r, c, [] + [e1], c1, e2);
    var c2 := c.With(n, RecordApplied(c.At(n), scope, p)).(site := On(n, Up, map[SERVICE := AcceptReady(p)]));
    assert c1.site.ops[SERVICE := AcceptReady(p)] == map[SERVICE := AcceptReady(p)];
    assert Step(c1, e2, r) == c2;
    Then(r, c, [] + [e1] + [e2], c2, e3);
    assert c2.site.ops - {SERVICE} == map[];
    events := [] + [e1] + [e2] + [e3];
  }

  // ----- Promotion, exactly -----

  /** The events promote the node, and publish nothing. */
  ghost predicate PromotedBy(r: Conditions, c: Pair, events: seq<Event>, n: NodeId) {
    var after := After(r, c, events);
    after.Some? && after.value.store == c.store && Auth(after.value, n)
  }

  /** A passive node can become authoritative although nothing is published, exactly when it is promotable. */
  lemma PromotedExactly(r: Conditions, c: Pair, n: NodeId)
    requires Orderly(r) && Reachable(r, c) && !Auth(c, n)
    ensures (exists events :: PromotedBy(r, c, events, n)) <==> Promotable(c, n)
  {
    ReachableConsistent(r, c);
    if Promotable(c, n) {
      var events := PromotionSteps(r, c, n);
    }
    if events :| PromotedBy(r, c, events, n) {
      if !Promotable(c, n) { RemainsPassive(r, c, events, n); }
    }
  }

  lemma PromotionSteps(r: Conditions, c: Pair, n: NodeId) returns (events: seq<Event>)
    requires Consistent(c) && !Auth(c, n) && Promotable(c, n)
    ensures PromotedBy(r, c, events, n)
  {
    hide After;
    var off := c.(site := Off);
    events := [];
    Nothing(r, c);
    if c.site.On? {
      Then(r, c, [], c, Stop);
      events := [] + [Stop];
    }
    var boot := BootSteps(r, off, n);
    Joined(r, c, events, off, boot);
    var up := Booted(off, n);
    assert c.store[|c.store| - 1] in c.store;
    assert up.store == c.store && up.At(n).appliedHash == c.At(n).appliedHash && Remembers(c, n);
    var take := TakeOverSteps(r, up, n);
    Joined(r, c, events + boot, up, take);
    events := events + boot + take;
  }

  // ----- The first shutdown and the takeover -----

  const FIRST := Payload(Left, 1, map[], Some(ColdShutdown(Left, Right)))

  /** The first node has stopped gracefully, with one bundle published. */
  const STOPPED := Pair(FRESH.(exported := 1), FRESH, Off, [FIRST], [FIRST])

  lemma FirstStop(r: Conditions)
    ensures Reachable(r, STOPPED)
  {
    StartReachable(r);
    var boot := BootSteps(r, START, Left);
    Reaches(r, START, boot, Booted(START, Left));
    PlayExport(r, Booted(START, Left), Left, Shutdown, Complete);
    var c := Exported(Booted(START, Left), Left, map[], Shutdown, Complete);
    Extend(r, c, Stop);
    assert c.store == [FIRST] && c.begun == [FIRST];
  }

  /** The second node follows the first one's shutdown bundle and accepts it. */
  lemma SecondTakesOver(r: Conditions, c: Pair)
    requires Reachable(r, c) && c.site.Off? && c.store == [FIRST] && c.right == FRESH
    ensures Reachable(r, TakenOver(Booted(c, Right), Right))
    ensures var c' := TakenOver(Booted(c, Right), Right);
      Rests(c', Right) && Auth(c', Right) && Known(c'.right) == 1 && c'.left == c.left
      && c'.right.appliedHash == Some(FIRST)
  {
    var boot := BootSteps(r, c, Right);
    Reaches(r, c, boot, Booted(c, Right));
    var take := TakeOverSteps(r, Booted(c, Right), Right);
    Reaches(r, Booted(c, Right), take, TakenOver(Booted(c, Right), Right));
  }

  // ----- An abrupt stop that promotes -----

  /** The first node is started again; it is authoritative, and its shutdown bundle is still the newest. */
  const RETURNED := STOPPED.(site := On(Left, Up, map[]))

  lemma FirstReturns(r: Conditions)
    ensures Reachable(r, RETURNED)
  {
    FirstStop(r);
    var boot := BootSteps(r, STOPPED, Left);
    Reaches(r, STOPPED, boot, Booted(STOPPED, Left));
    assert Booted(STOPPED, Left) == RETURNED;
  }

  /** A writer that is killed after a restart, before it has published again, leaves its last shutdown bundle
      in force: the peer is promoted although it was stopped abruptly. */
  lemma AbruptStopPromotes(r: Conditions)
    requires Orderly(r)
    ensures Reachable(r, RETURNED) && Auth(RETURNED, Left) && !Auth(RETURNED, Right)
    ensures exists events :: PromotedBy(r, RETURNED, events, Right)
  {
    FirstReturns(r);
    PromotedExactly(r, RETURNED, Right);
  }

  // ----- The former writer returns -----

  /** A number of exports, each getting equally far. */
  function Exports(c: Pair, n: NodeId, k: nat, reach: Reach): Pair {
    if k == 0 then c else Exported(Exports(c, n, k - 1, reach), n, map[], Plain, reach)
  }

  lemma OneExport(c: Pair, n: NodeId, reach: Reach)
    requires !reach.Reserved?
    ensures var p, c' := NextPayload(RoleOf(n), c.At(n), map[], None), Exported(c, n, map[], Plain, reach);
      && c'.site == c.site && c'.At(n.Peer()) == c.At(n.Peer()) && Auth(c', n) == Auth(c, n)
      && c'.At(n) == c.At(n).(exported := Known(c.At(n)) + 1) && Known(c'.At(n)) == Known(c.At(n)) + 1
      && c'.store == (if reach.Complete? then c.store + [p] else c.store) && c'.begun == c.begun + [p]
      && p.source == n && p.sequence == Known(c.At(n)) + 1
  {
  }

  lemma {:induction false} PlayExports(r: Conditions, c: Pair, n: NodeId, k: nat, reach: Reach)
    returns (added: seq<Payload>)
    requires Reachable(r, c) && Rests(c, n) && Auth(c, n)
    requires !reach.Reserved? && (r.complete ==> reach.Complete?)
    ensures var c' := Exports(c, n, k, reach);
      && Reachable(r, c') && Rests(c', n) && Auth(c', n) && c'.At(n.Peer()) == c.At(n.Peer())
      && Known(c'.At(n)) == Known(c.At(n)) + k && c'.At(n).appliedHash == c.At(n).appliedHash
      && (k != 0 ==> c'.At(n).exported == Known(c.At(n)) + k)
      && c'.store == (if reach.Complete? then c.store + added else c.store) && c'.begun == c.begun + added
    ensures |added| == k
    ensures forall i :: 0 <= i < k ==> added[i].source == n && added[i].sequence == Known(c.At(n)) + 1 + i
  {
    if k == 0 {
      added := [];
    } else {
      hide Reachable, Exported, Auth, Known;
      var before := PlayExports(r, c, n, k - 1, reach);
      var c1 := Exports(c, n, k - 1, reach);
      PlayExport(r, c1, n, Plain, reach);
      OneExport(c1, n, reach);
      added := before + [NextPayload(RoleOf(n), c1.At(n), map[], None)];
    }
  }

  /** The second node takes over, publishes four bundles and stops; the first is started again, with its old
      role on record. */
  lemma FormerWriterReturns(r: Conditions) returns (c: Pair)
    ensures Reachable(r, c) && c.site == On(Left, Recovering, map[]) && c.left == FRESH.(exported := 1)
    ensures |c.store| == 5 && c.begun == c.store
    ensures forall i :: 0 <= i < 5 ==> c.store[i].sequence == i + 1
    ensures c.store[4].source == Right
    ensures Auth(c, Right) && Known(c.right) == 5 && c.right.appliedHash == Some(FIRST)
  {
    FirstStop(r);
    SecondTakesOver(r, STOPPED);
    var c1 := TakenOver(Booted(STOPPED, Right), Right);
    var added := PlayExports(r, c1, Right, 4, Complete);
    var c2 := Exports(c1, Right, 4, Complete);
    Extend(r, c2, Stop);
    c := Step(c2, Stop, r);
    Extend(r, c, Boot(Left));
    c := Step(c, Boot(Left), r);
    assert c.store == [FIRST] + added;
  }

  /** What a returning writer may publish when a condition is not met: a bundle under a sequence that the
      other node has used. */
  lemma ReturnRepeatsSequence(r: Conditions) returns (c: Pair)
    requires !Orderly(r)
    ensures Reachable(r, c) && |c.store| == 6 && c.begun == c.store && c.store[5].sequence == 2
    ensures c.site.On? && c.store[5].source == Left
    ensures Auth(c, Right) && Known(c.right) == 5 && c.right.appliedHash == Some(FIRST)
    ensures forall i :: 0 <= i < 5 ==> c.store[i].sequence == i + 1
  {
    c := FormerWriterReturns(r);
    if !r.readable {
      c := BlindReturn(r, c);
    } else {
      c := StaleReturn(r, c);
    }
  }

  /** It cannot read storage, keeps its role, and exports. */
  lemma BlindReturn(r: Conditions, c: Pair) returns (c': Pair)
    requires Reachable(r, c) && c.site == On(Left, Recovering, map[]) && c.left == FRESH.(exported := 1)
    requires !r.readable
    ensures Reachable(r, c') && c'.site.On? && c'.right == c.right
    ensures exists p: Payload ::
      p.source == Left && p.sequence == 2 && c'.store == c.store + [p] && c'.begun == c.begun + [p]
  {
    Extend(r, c, Event.Inspect(false));
    c' := Step(c, Event.Inspect(false), r);
    PlayExport(r, c', Left, Plain, Complete);
    var p := NextPayload(RoleOf(Left), c'.left, map[], None);
    c' := Exported(c', Left, map[], Plain, Complete);
    assert p.sequence == 2;
  }

  /** An export has checked its authority; recovery then sees the newer writer and gives authority up; the
      export publishes all the same. */
  lemma StaleReturn(r: Conditions, c: Pair) returns (c': Pair)
    requires Reachable(r, c) && c.site == On(Left, Recovering, map[]) && c.left == FRESH.(exported := 1)
    requires SeesNewer(c, Left) && !(r.settled && r.quiet)
    ensures Reachable(r, c') && c'.site.On? && c'.right == c.right
    ensures exists p: Payload ::
      p.source == Left && p.sequence == 2 && c'.store == c.store + [p] && c'.begun == c.begun + [p]
  {
    var kind := if r.quiet then Shutdown else Plain;
    var e1, e4 := BeginExport(SERVICE, kind), Export(SERVICE, map[], Complete);
    Extend(r, c, e1);
    var c1 := Step(c, e1, r);
    Extend(r, c1, Event.Inspect(true));
    var c2 := Step(c1, Event.Inspect(true), r);
    Extend(r, c2, GiveUp);
    var c3 := Step(c2, GiveUp, r);
    assert !Auth(c3, Left) && c3.site.ops[SERVICE] == ExportReady(kind, true);
    Extend(r, c3, e4);
    c' := Step(c3, e4, r);
    var p := NextPayload(RoleOf(Left), c3.left, map[], HandoffOf(Left, kind));
    assert p.sequence == 2;
  }

  /** Published sequences strictly increase over all runs, exactly when every start can read storage and
      neither a graceful stop nor any other export publishes on a check made before recovery had ended. */
  lemma PublishedSequencesIncrease(r: Conditions)
    ensures (forall c :: Reachable(r, c) ==> Increasing(c.store)) <==> Orderly(r)
  {
    if Orderly(r) {
      forall c | Reachable(r, c) ensures Increasing(c.store) {
        ReachableConsistent(r, c);
      }
    } else {
      var c := ReturnRepeatsSequence(r);
      assert c.store[1].sequence == c.store[5].sequence;
    }
  }

  // ----- Whether a returning node follows the newer writer -----

  /** The newest bundle is the node's own, or the one it applied last. */
  predicate Follows(c: Pair, n: NodeId) {
    c.store != [] ==> c.store[|c.store| - 1].source == n || c.At(n).appliedHash == Some(c.store[|c.store| - 1])
  }

  /** Every sequence a node has reserved was published. */
  predicate AllPublished(c: Pair, n: NodeId) {
    c.At(n).exported == 0 || exists p :: p in c.store && p.source == n && p.sequence == c.At(n).exported
  }

  ghost predicate Faithful(c: Pair) {
    && AllPublished(c, Left) && AllPublished(c, Right) && c.begun == c.store
    && (c.site.On? && c.site.phase.Up? && Auth(c, c.site.node) ==> Follows(c, c.site.node))
  }

  lemma SameSequence(c: Pair, p: Payload, q: Payload)
    requires Increasing(c.store) && p in c.store && q in c.store && p.sequence == q.sequence
    ensures p == q
  {
    var i :| 0 <= i < |c.store| && c.store[i] == p;
    var j :| 0 <= j < |c.store| && c.store[j] == q;
  }

  /** A node that knows the newest bundle published it or applied it. */
  lemma KnownIsFollowed(c: Pair, n: NodeId)
    requires Recorded(c) && AllPublished(c, n) && !SeesNewer(c, n)
    ensures Follows(c, n)
  {
    if c.store != [] && c.store[|c.store| - 1].source != n {
      var p := c.store[|c.store| - 1];
      assert p in c.store && p.sequence <= Known(c.At(n));
      if c.At(n).exported == Known(c.At(n)) {
        var q :| q in c.store && q.source == n && q.sequence == c.At(n).exported;
        NewestIsHighest(c, q);
        SameSequence(c, p, q);
      } else {
        RemembersBoth(c, n);
        var q := c.At(n).appliedHash.value;
        NewestIsHighest(c, q);
        SameSequence(c, p, q);
      }
    }
  }

  lemma ExportFaithful(r: Conditions, c: Pair, e: Event)
    requires Faithful(c) && Enabled(r, c, e) && e.Export? && r.complete
    ensures Faithful(Step(c, e, r))
  {
    var c', n := Step(c, e, r), c.site.node;
    var p := NextPayload(RoleOf(n), c.At(n), e.domains, HandoffOf(n, c.site.ops[e.actor].kind));
    assert c'.store == c.store + [p] && p in c'.store;
    assert AllPublished(c', n) && AllPublished(c', n.Peer()) by { assert AllPublished(c, n.Peer()); }
  }

  /** What publishes and reserves nothing leaves it that way. */
  lemma FaithfulKept(c: Pair, c': Pair)
    requires Faithful(c) && c'.store == c.store && c'.begun == c.begun
    requires c'.left.exported == c.left.exported && c'.right.exported == c.right.exported
    requires c'.site.On? && c'.site.phase.Up? && Auth(c', c'.site.node) ==> Follows(c', c'.site.node)
    ensures Faithful(c')
  {
    assert AllPublished(c', Left) && AllPublished(c', Right);
  }

  lemma RecoverFaithful(r: Conditions, c: Pair, e: Event)
    requires Orderly(r) && Recorded(c) && Faithful(c) && Enabled(r, c, e) && (e.Inspect? || e.GiveUp?)
    ensures Faithful(Step(c, e, r))
  {
    if e.Inspect? && !SeesNewer(c, c.site.node) { KnownIsFollowed(c, c.site.node); }
    hide Recorded, Faithful, AllPublished, SeesNewer;
    FaithfulKept(c, Step(c, e, r));
  }

  lemma ImportFaithful(r: Conditions, c: Pair, e: Event)
    requires Consistent(c) && Faithful(c) && Enabled(r, c, e) && e.Import?
    ensures Faithful(Step(c, e, r))
  {
    hide ImportBlock, AllPublished;
    var n := c.site.node;
    assert OpStanding(c, n, c.site.phase, c.site.ops[e.actor]);
    RemembersBoth(c, n);
    ImportLeaves(c, n, c.site.ops[e.actor].mode, e.scope, e.outcome);
    hide Recorded, OpStanding, InStep;
    FaithfulKept(c, Step(c, e, r));
  }

  lemma AcceptFaithful(r: Conditions, c: Pair, e: Event)
    requires InStep(c) && Faithful(c) && Enabled(r, c, e) && e.Accept?
    ensures Faithful(Step(c, e, r))
  {
    assert OpStanding(c, c.site.node, c.site.phase, c.site.ops[e.actor]);
    hide InStep, AllPublished;
    FaithfulKept(c, Step(c, e, r));
  }

  lemma StepFaithful(r: Conditions, c: Pair, e: Event)
    requires Orderly(r) && r.complete && Consistent(c) && Faithful(c) && Enabled(r, c, e)
    ensures Faithful(Step(c, e, r))
  {
    match e
    case Export(_, _, _) => ExportFaithful(r, c, e);
    case Inspect(_) => RecoverFaithful(r, c, e);
    case GiveUp => RecoverFaithful(r, c, e);
    case Import(_, _, _) => ImportFaithful(r, c, e);
    case Accept(_) => AcceptFaithful(r, c, e);
    case _ =>
      hide Recorded, InStep, AllPublished;
      FaithfulKept(c, Step(c, e, r));
  }

  lemma {:induction false} AfterFaithful(r: Conditions, events: seq<Event>)
    requires Orderly(r) && r.complete && After(r, START, events).Some?
    ensures Consistent(After(r, START, events).value) && Faithful(After(r, START, events).value)
  {
    if events != [] {
      var n := |events| - 1;
      AfterFaithful(r, events[..n]);
      StepConsistent(r, After(r, START, events[..n]).value, events[n]);
      StepFaithful(r, After(r, START, events[..n]).value, events[n]);
    }
  }

  lemma ReachableFaithful(r: Conditions, c: Pair)
    requires Orderly(r) && r.complete && Reachable(r, c)
    ensures Faithful(c)
  {
    var events :| After(r, START, events) == Some(c);
    AfterFaithful(r, events);
  }

  /** The first node restarts, reserves sequences whose publication gets no further than part of the way into
      storage, and is killed; the second takes over and publishes under the first of them. */
  lemma LostReservation(r: Conditions, k: nat) returns (c: Pair, lost: seq<Payload>)
    requires !r.complete && k != 0
    ensures Reachable(r, c) && Rests(c, Right) && Auth(c, Left) && Known(c.left) == k + 1
    ensures c.left.appliedHash == None
    ensures |c.store| == 2 && c.store[1].source == Right && c.store[1].sequence == 2
    ensures |lost| == k && c.begun == [FIRST] + lost + [c.store[1]] && c.store[0] == FIRST
    ensures forall i :: 0 <= i < k ==> lost[i].source == Left && lost[i].sequence == i + 2
  {
    FirstReturns(r);
    lost := PlayExports(r, RETURNED, Left, k, Outbound);
    var c1 := Exports(RETURNED, Left, k, Outbound);
    Extend(r, c1, Stop);
    var c2 := Step(c1, Stop, r);
    SecondTakesOver(r, c2);
    var c3 := TakenOver(Booted(c2, Right), Right);
    PlayExport(r, c3, Right, Plain, Complete);
    c := Exported(c3, Right, map[], Plain, Complete);
  }

  /** A node that is started knows as much as the newest bundle, without having read it, and keeps its role. */
  lemma KeepsRole(r: Conditions, c: Pair, n: NodeId)
    requires Reachable(r, c) && c.site.On? && c.store != [] && Auth(c, n)
    requires Newest(c) <= Known(c.At(n)) && !Follows(c, n)
    ensures Reachable(r, Booted(c.(site := Off), n))
    ensures var c' := Booted(c.(site := Off), n); Rests(c', n) && Auth(c', n) && !Follows(c', n)
  {
    Extend(r, c, Stop);
    var boot := BootSteps(r, c.(site := Off), n);
    Reaches(r, c.(site := Off), boot, Booted(c.(site := Off), n));
  }

  /** A node that is started keeps its authority next to a bundle it never read. */
  lemma ReturnIgnoresWriter(r: Conditions) returns (c: Pair)
    requires r != ALL_MET
    ensures Reachable(r, c) && c.site.On? && c.site.phase.Up? && Auth(c, c.site.node) && !Follows(c, c.site.node)
  {
    if !r.complete {
      var lost;
      c, lost := LostReservation(r, 1);
      KeepsRole(r, c, Left);
      c := Booted(c.(site := Off), Left);
    } else {
      c := ReturnRepeatsSequence(r);
      KeepsRole(r, c, Right);
      c := Booted(c.(site := Off), Right);
    }
  }

  /** A started node with authority has always read the newest bundle, its own or the peer's, exactly when
      all conditions are met: returning nodes begin as Followers of the newer authority only then. */
  lemma ReturnsFollow(r: Conditions)
    ensures (forall c :: Reachable(r, c) && c.site.On? && c.site.phase.Up? && Auth(c, c.site.node) ==>
      Follows(c, c.site.node)) <==> r == ALL_MET
  {
    if r == ALL_MET {
      forall c | Reachable(r, c) && c.site.On? && c.site.phase.Up? && Auth(c, c.site.node)
        ensures Follows(c, c.site.node)
      {
        ReachableFaithful(r, c);
      }
    } else {
      var c := ReturnIgnoresWriter(r);
    }
  }
}
