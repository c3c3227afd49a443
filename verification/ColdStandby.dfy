/** Cold standby: two nodes, one of which runs at a time, and the shared storage between them.

    A start first looks for a newer writer, a graceful stop ends with a shutdown bundle for the peer, and an
    abrupt stop can happen anywhere. Plugin actions overlap with the service and with each other. A reader
    gets the bundle published last. */
module ColdStandby {
  import opened Prelude
  import opened Bundle
  import opened Engine

  type Actor = nat

  /** What an export is for: a routine bundle, the preparation of a requested handoff, a graceful stop. */
  datatype Kind = Plain | Preparing | Shutdown

  /** What an operation in flight has checked outside the lock, and will do under it. */
  datatype Op =
    | ExportReady(kind: Kind, early: bool)  // authority was checked, `early` if recovery had not ended yet
    | ApplyReady(mode: Mode)                // passivity was checked; the import block is next
    | AcceptReady(shutdown: Payload)        // a shutdown bundle was applied; accepting it is next

  /** How far the start of the running node is. Where the service is not started it stays recovering. */
  datatype Phase =
    | Recovering    // about to compare the newest bundle with the known sequence
    | SteppingDown  // a newer writer was found; giving up authority is next
    | Up

  datatype Site = Off | On(node: NodeId, phase: Phase, ops: map<Actor, Op>)

  /** `store` lists the published bundles; `begun` also those whose publication was cut short after the
      reservation of the sequence. */
  datatype Pair = Pair(left: NodeState, right: NodeState, site: Site, store: seq<Payload>, begun: seq<Payload>) {
    function At(n: NodeId): NodeState {
      if n.Left? then left else right
    }
    function With(n: NodeId, st: NodeState): Pair {
      if n.Left? then this.(left := st) else this.(right := st)
    }
  }

  function RoleOf(n: NodeId): Role {
    Role(n, n.Left?, true)
  }

  predicate Auth(c: Pair, n: NodeId) {
    Authoritative(RoleOf(n), c.At(n))
  }

  const START := Pair(FRESH, FRESH, Off, [], [])

  function Newest(c: Pair): nat {
    if c.store == [] then 0 else c.store[|c.store| - 1].sequence
  }

  datatype Event =
    | Boot(node: NodeId)
    | Inspect(readable: bool)
    | GiveUp
    | BeginExport(actor: Actor, kind: Kind)
    | Export(actor: Actor, domains: Snapshot, reach: Reach)
    | BeginApply(actor: Actor, mode: Mode)
    | Import(actor: Actor, scope: Scope, outcome: Outcome)
    | Accept(actor: Actor)
    | Abort(actor: Actor)
    | Stop

  /** What a run can count on: every start can read storage; no graceful stop, and no other export, publishes
      on the word of a check made before recovery had ended; every publication gets through. */
  datatype Conditions = Conditions(readable: bool, settled: bool, quiet: bool, complete: bool)

  predicate Orderly(r: Conditions) {
    r.readable && r.settled && r.quiet
  }

  predicate MayPublish(r: Conditions, op: Op)
    requires op.ExportReady?
  {
    op.early ==> if op.kind.Shutdown? then !r.settled else !r.quiet
  }

  predicate Enabled(r: Conditions, c: Pair, e: Event) {
    if e.Boot? then c.site.Off?
    else
      && c.site.On?
      && match e
         case Boot(_) => false
         case Inspect(readable) => c.site.phase.Recovering? && (r.readable ==> readable)
         case GiveUp => c.site.phase.SteppingDown?
         case BeginExport(a, _) => a !in c.site.ops && Auth(c, c.site.node)
         case Export(a, _, reach) =>
           && a in c.site.ops && c.site.ops[a].ExportReady? && MayPublish(r, c.site.ops[a])
           && (r.complete ==> reach.Complete?)
         case BeginApply(a, mode) => a !in c.site.ops && !Auth(c, c.site.node) && !mode.Inspect?
         case Import(a, _, _) => a in c.site.ops && c.site.ops[a].ApplyReady? && c.store != []
         case Accept(a) => a in c.site.ops && c.site.ops[a].AcceptReady?
         case Abort(a) => a in c.site.ops
         case Stop => true
  }

  /** A newer bundle of the peer: what recovery steps down for. */
  predicate SeesNewer(c: Pair, n: NodeId) {
    c.store != [] && c.store[|c.store| - 1].source != n && Known(c.At(n)) < Newest(c)
  }

  function HandoffOf(n: NodeId, kind: Kind): Option<Handoff> {
    match kind
    case Plain => None
    case Preparing => Some(Prepare(n, n.Peer()))
    case Shutdown => Some(ColdShutdown(n, n.Peer()))
  }

  function Exported(c: Pair, n: NodeId, domains: Snapshot, kind: Kind, reach: Reach): Pair {
    var p := NextPayload(RoleOf(n), c.At(n), domains, HandoffOf(n, kind));
    c.With(n, Reserve(c.At(n), p)).(
      store := if reach.Complete? then c.store + [p] else c.store,
      begun := if reach.Reserved? then c.begun else c.begun + [p])
  }

  function Imported(c: Pair, n: NodeId, mode: Mode, scope: Scope, outcome: Outcome): Import
    requires c.store != []
  {
    ImportBlock(RoleOf(n), c.At(n), scope, c.store[|c.store| - 1], mode, outcome)
  }

  function Step(c: Pair, e: Event, r: Conditions): Pair
    requires Enabled(r, c, e)
  {
    if e.Boot? then c.(site := On(e.node, Recovering, map[]))
    else
      var n, phase, ops := c.site.node, c.site.phase, c.site.ops;
      match e
      case Boot(_) => c
      case Inspect(readable) => c.(site := On(n, if readable && SeesNewer(c, n) then SteppingDown else Up, ops))
      case GiveUp => c.With(n, StepDown(c.At(n))).(site := On(n, Up, ops))
      case BeginExport(a, kind) => c.(site := On(n, phase, ops[a := ExportReady(kind, !phase.Up?)]))
      case Export(a, domains, reach) =>
        Exported(c, n, domains, ops[a].kind, reach).(site := On(n, phase, ops - {a}))
      case BeginApply(a, mode) => c.(site := On(n, phase, ops[a := ApplyReady(mode)]))
      case Import(a, scope, outcome) =>
        var i := Imported(c, n, ops[a].mode, scope, outcome);
        c.With(n, i.state).(site := On(n, phase,
          if i.followUp.TakeOver? then ops[a := AcceptReady(c.store[|c.store| - 1])] else ops - {a}))
      case Accept(a) =>
        c.With(n, AcceptColdShutdown(c.At(n), ops[a].shutdown.source)).(site := On(n, phase, ops - {a}))
      case Abort(a) => c.(site := On(n, phase, ops - {a}))
      case Stop => c.(site := Off)
  }

  /** The pair after some events, if each is enabled in its turn. */
  function After(r: Conditions, c: Pair, events: seq<Event>): Option<Pair> {
    if events == [] then Some(c)
    else
      var n := |events| - 1;
      match After(r, c, events[..n])
      case None => None
      case Some(c1) => if Enabled(r, c1, events[n]) then Some(Step(c1, events[n], r)) else None
  }

  ghost predicate Reachable(r: Conditions, c: Pair) {
    exists events :: After(r, START, events) == Some(c)
  }

  lemma Then(r: Conditions, c: Pair, events: seq<Event>, c1: Pair, e: Event)
    requires After(r, c, events) == Some(c1) && Enabled(r, c1, e)
    ensures After(r, c, events + [e]) == Some(Step(c1, e, r))
  {
    assert (events + [e])[..|events|] == events;
  }

  lemma {:induction false} Joined(r: Conditions, c: Pair, before: seq<Event>, c1: Pair, events: seq<Event>)
    requires After(r, c, before) == Some(c1)
    ensures After(r, c, before + events) == After(r, c1, events)
  {
    if events == [] {
      assert before + events == before;
    } else {
      var n := |events| - 1;
      Joined(r, c, before, c1, events[..n]);
      assert (before + events)[..|before| + n] == before + events[..n];
    }
  }

  // ----- The invariant -----

  /** The node knows the newest bundle, so what it exports next is newer still. */
  predicate Current(c: Pair, n: NodeId) {
    Newest(c) <= Known(c.At(n))
  }

  predicate IsNewest(c: Pair, p: Payload) {
    c.store != [] && c.store[|c.store| - 1] == p
  }

  /** What an operation in flight was started with, and still has. */
  predicate OpStanding(c: Pair, n: NodeId, phase: Phase, op: Op) {
    match op
    case ExportReady(_, early) => early || (phase.Up? && Auth(c, n))
    case ApplyReady(mode) => !mode.Inspect?
    case AcceptReady(p) =>
      && p.handoff == Some(ColdShutdown(n.Peer(), n)) && Current(c, n)
      && ((phase.Up? && Auth(c, n)) || (IsNewest(c, p) && c.At(n).appliedHash == Some(p)))
  }

  predicate InStep(c: Pair) {
    c.site.On? ==>
      && (c.site.phase.Up? && Auth(c, c.site.node) ==> Current(c, c.site.node))
      && forall a :: a in c.site.ops ==> OpStanding(c, c.site.node, c.site.phase, c.site.ops[a])
  }

  /** Every published bundle was reserved, and its handoff is its writer's own. */
  ghost predicate Bounded(c: Pair) {
    forall p :: p in c.store ==>
      1 <= p.sequence <= c.At(p.source).exported && (p.handoff.Some? ==> p.handoff.value.source == p.source)
  }

  /** What a node applied last is a published bundle of the recorded sequence. */
  predicate Remembers(c: Pair, n: NodeId) {
    match c.At(n).appliedHash
    case None => c.At(n).applied == 0
    case Some(p) => p in c.store && p.sequence == c.At(n).applied
  }

  /** The record of what was published, reserved and applied. */
  ghost predicate Recorded(c: Pair) {
    && Increasing(c.store) && Bounded(c)
    && Remembers(c, Left) && Remembers(c, Right)
  }

  ghost predicate Consistent(c: Pair) {
    Recorded(c) && InStep(c)
  }

  /** Operations keep their standing while authority, knowledge and the newest bundle are not lost. */
  lemma InStepKept(c: Pair, c': Pair, n: NodeId)
    requires InStep(c) && c.site.On? && c'.site.On? && c.site.node == n == c'.site.node
    requires c.site.phase.Up? && Auth(c, n) ==> c'.site.phase.Up? && Auth(c', n)
    requires c'.site.phase.Up? && Auth(c', n) ==> Current(c', n)
    requires Current(c, n) ==> Current(c', n)
    requires (c.site.phase.Up? && Auth(c, n)) || (c'.store == c.store &&
      (c'.At(n).appliedHash == c.At(n).appliedHash ||
       (c.store != [] && c'.At(n).appliedHash == Some(c.store[|c.store| - 1]))))
    requires forall a :: a in c'.site.ops ==>
      (a in c.site.ops && c'.site.ops[a] == c.site.ops[a]) || OpStanding(c', n, c'.site.phase, c'.site.ops[a])
    ensures InStep(c')
  {
    hide Current, Authoritative;
    forall a | a in c'.site.ops ensures OpStanding(c', n, c'.site.phase, c'.site.ops[a]) {
      if a in c.site.ops { assert OpStanding(c, n, c.site.phase, c.site.ops[a]); }
    }
  }

  /** What leaves the sequences and hashes alone leaves the record alone. */
  lemma RecordKept(c: Pair, c': Pair)
    requires Recorded(c) && c'.store == c.store
    requires forall n: NodeId :: c'.At(n).exported == c.At(n).exported && c'.At(n).applied == c.At(n).applied
    requires forall n: NodeId :: c'.At(n).appliedHash == c.At(n).appliedHash
    ensures Recorded(c')
  {
    assert forall n: NodeId :: Remembers(c, n) <==> Remembers(c', n);
  }

  lemma AppendIncreasing(s: seq<Payload>, p: Payload)
    requires Increasing(s) && (s != [] ==> s[|s| - 1].sequence < p.sequence)
    ensures Increasing(s + [p])
  {
    forall i | 0 <= i < |s| ensures s[i].sequence <= s[|s| - 1].sequence {}
  }

  lemma ExportBounded(c: Pair, n: NodeId, domains: Snapshot, kind: Kind, reach: Reach)
    requires Bounded(c)
    ensures Bounded(Exported(c, n, domains, kind, reach))
  {
    var p, c' := NextPayload(RoleOf(n), c.At(n), domains, HandoffOf(n, kind)), Exported(c, n, domains, kind, reach);
    forall q | q in c'.store
      ensures 1 <= q.sequence <= c'.At(q.source).exported
      ensures q.handoff.Some? ==> q.handoff.value.source == q.source
    {
      assert q in c.store || q == p;
    }
  }

  lemma ExportIncreasing(c: Pair, n: NodeId, domains: Snapshot, kind: Kind, reach: Reach)
    requires Increasing(c.store) && Current(c, n)
    ensures Increasing(Exported(c, n, domains, kind, reach).store)
    ensures Current(Exported(c, n, domains, kind, reach), n)
  {
    AppendIncreasing(c.store, NextPayload(RoleOf(n), c.At(n), domains, HandoffOf(n, kind)));
  }

  lemma ExportRemembers(c: Pair, n: NodeId, domains: Snapshot, kind: Kind, reach: Reach, x: NodeId)
    requires Remembers(c, x)
    ensures Remembers(Exported(c, n, domains, kind, reach), x)
  {
  }

  /** A node that knows the newest bundle exports. */
  lemma ExportRecorded(c: Pair, n: NodeId, domains: Snapshot, kind: Kind, reach: Reach)
    requires Recorded(c) && Current(c, n)
    ensures Recorded(Exported(c, n, domains, kind, reach)) && Current(Exported(c, n, domains, kind, reach), n)
  {
    hide Increasing, Bounded, Remembers, Current, Exported;
    ExportIncreasing(c, n, domains, kind, reach);
    ExportBounded(c, n, domains, kind, reach);
    ExportRemembers(c, n, domains, kind, reach, Left);
    ExportRemembers(c, n, domains, kind, reach, Right);
  }

  lemma ExportConsistent(r: Conditions, c: Pair, e: Event)
    requires Orderly(r) && Consistent(c) && Enabled(r, c, e) && e.Export?
    ensures Consistent(Step(c, e, r))
  {
    var n, op := c.site.node, c.site.ops[e.actor];
    assert OpStanding(c, n, c.site.phase, op);
    ExportRecorded(c, n, e.domains, op.kind, e.reach);
    var c1, c' := Exported(c, n, e.domains, op.kind, e.reach), Step(c, e, r);
    assert Auth(c', n) && Current(c', n) by { hide Recorded; }
    hide Recorded, OpStanding;
    InStepKept(c, c', n);
    assert Recorded(c') by { RecordKept(c1, c'); }
  }

  /** Finishing an operation harms nothing. */
  lemma DropConsistent(c: Pair, a: Actor)
    requires Consistent(c) && c.site.On?
    ensures Consistent(c.(site := On(c.site.node, c.site.phase, c.site.ops - {a})))
  {
    hide Recorded, OpStanding;
    var c' := c.(site := On(c.site.node, c.site.phase, c.site.ops - {a}));
    RecordKept(c, c');
    InStepKept(c, c', c.site.node);
  }

  lemma BeginConsistent(r: Conditions, c: Pair, e: Event)
    requires Consistent(c) && Enabled(r, c, e) && (e.BeginExport? || e.BeginApply?)
    ensures Consistent(Step(c, e, r))
  {
    hide Recorded;
    RecordKept(c, Step(c, e, r));
    InStepKept(c, Step(c, e, r), c.site.node);
  }

  /** What recovery lets a node keep its authority for is known to the node. */
  lemma KeepsWhatItKnows(c: Pair, n: NodeId)
    requires Recorded(c) && !SeesNewer(c, n)
    ensures Current(c, n)
  {
    if c.store != [] { assert c.store[|c.store| - 1] in c.store; }
  }

  lemma StepDownKnows(st: NodeState)
    ensures Known(StepDown(st)) == Known(st)
  {
  }

  lemma RecoverConsistent(r: Conditions, c: Pair, e: Event)
    requires Orderly(r) && Consistent(c) && Enabled(r, c, e) && (e.Inspect? || e.GiveUp?)
    ensures Consistent(Step(c, e, r))
  {
    hide Recorded, OpStanding, SeesNewer, Known;
    if !SeesNewer(c, c.site.node) { KeepsWhatItKnows(c, c.site.node); }
    RecordKept(c, Step(c, e, r));
    StepDownKnows(c.At(c.site.node));
    hide InStep;
    InStepKept(c, Step(c, e, r), c.site.node);
  }

  /** What an import leaves: no lower sequence, the same authority and reservations, and if it applied
      anything, the newest bundle. */
  lemma ImportLeaves(c: Pair, n: NodeId, mode: Mode, scope: Scope, outcome: Outcome)
    requires c.store != [] && !mode.Inspect? && Remembers(c, n)
    ensures var i, p, st := Imported(c, n, mode, scope, outcome), c.store[|c.store| - 1], c.At(n);
      && i.state.exported == st.exported && i.state.authoritative == st.authoritative
      && Known(st) <= Known(i.state)
      && (i.state == st ||
          (i.state == RecordApplied(st, scope, p) && p.source == n.Peer() &&
           (Known(st) < p.sequence || st.appliedHash == Some(p))))
      && (i.followUp.TakeOver? ==>
           i.state == RecordApplied(st, scope, p) && p.handoff == Some(ColdShutdown(n.Peer(), n)))
  {
  }

  lemma ImportRecorded(c: Pair, n: NodeId, st: NodeState, scope: Scope)
    requires Recorded(c) && c.store != []
    requires st == c.At(n) || st == RecordApplied(c.At(n), scope, c.store[|c.store| - 1])
    ensures Recorded(c.With(n, st))
  {
    hide Increasing;
    var c' := c.With(n, st);
    assert c.store[|c.store| - 1] in c.store;
    assert Remembers(c', n) && Remembers(c', n.Peer()) by { assert Remembers(c, n) && Remembers(c, n.Peer()); }
  }

  lemma ImportInStep(c: Pair, c': Pair, a: Actor, st: NodeState, scope: Scope, takes: bool)
    requires InStep(c) && c.site.On? && c.store != []
    requires var n, p := c.site.node, c.store[|c.store| - 1];
      && (st == c.At(n) || st == RecordApplied(c.At(n), scope, p)) && Known(c.At(n)) <= Known(st)
      && (takes ==> st == RecordApplied(c.At(n), scope, p) && p.handoff == Some(ColdShutdown(n.Peer(), n)))
      && c' == c.With(n, st).(site := On(n, c.site.phase,
           if takes then c.site.ops[a := AcceptReady(p)] else c.site.ops - {a}))
    ensures InStep(c')
  {
    var n, p := c.site.node, c.store[|c.store| - 1];
    assert takes ==> OpStanding(c', n, c'.site.phase, AcceptReady(p));
    hide OpStanding;
    InStepKept(c, c', n);
  }

  lemma ImportConsistent(r: Conditions, c: Pair, e: Event)
    requires Consistent(c) && Enabled(r, c, e) && e.Import?
    ensures Consistent(Step(c, e, r))
  {
    hide ImportBlock, Recorded, Remembers;
    var c', n, mode := Step(c, e, r), c.site.node, c.site.ops[e.actor].mode;
    assert OpStanding(c, n, c.site.phase, c.site.ops[e.actor]);
    hide OpStanding, InStep;
    RemembersBoth(c, n);
    ImportLeaves(c, n, mode, e.scope, e.outcome);
    var i := Imported(c, n, mode, e.scope, e.outcome);
    ImportRecorded(c, n, i.state, e.scope);
    RecordKept(c.With(n, i.state), c');
    ImportInStep(c, c', e.actor, i.state, e.scope, i.followUp.TakeOver?);
  }

  lemma RemembersBoth(c: Pair, n: NodeId)
    requires Recorded(c)
    ensures Remembers(c, n)
  {
  }

  lemma AcceptConsistent(r: Conditions, c: Pair, e: Event)
    requires Consistent(c) && Enabled(r, c, e) && e.Accept?
    ensures Consistent(Step(c, e, r))
  {
    hide Recorded;
    var c', n := Step(c, e, r), c.site.node;
    assert OpStanding(c, n, c.site.phase, c.site.ops[e.actor]);
    assert Current(c, n);
    hide OpStanding;
    RecordKept(c, c');
    InStepKept(c, c', n);
  }

  /** A node that starts, or that is stopped, has nothing in flight. */
  lemma SiteConsistent(c: Pair, c': Pair)
    requires Consistent(c) && c' == c.(site := c'.site)
    requires c'.site.On? ==> c'.site.ops == map[] && c'.site.phase.Recovering?
    ensures Consistent(c')
  {
    hide Recorded, OpStanding;
    RecordKept(c, c');
  }

  lemma StepConsistent(r: Conditions, c: Pair, e: Event)
    requires Orderly(r) && Consistent(c) && Enabled(r, c, e)
    ensures Consistent(Step(c, e, r))
  {
    hide Consistent;
    match e
    case Boot(_) => SiteConsistent(c, Step(c, e, r));
    case Inspect(_) => RecoverConsistent(r, c, e);
    case GiveUp => RecoverConsistent(r, c, e);
    case BeginExport(_, _) => BeginConsistent(r, c, e);
    case Export(_, _, _) => ExportConsistent(r, c, e);
    case BeginApply(_, _) => BeginConsistent(r, c, e);
    case Import(_, _, _) => ImportConsistent(r, c, e);
    case Accept(_) => AcceptConsistent(r, c, e);
    case Abort(a) => DropConsistent(c, a);
    case Stop => SiteConsistent(c, Step(c, e, r));
  }

  lemma {:induction false} AfterConsistent(r: Conditions, c: Pair, events: seq<Event>)
    requires Orderly(r) && Consistent(c) && After(r, c, events).Some?
    ensures Consistent(After(r, c, events).value)
  {
    if events != [] {
      var n := |events| - 1;
      AfterConsistent(r, c, events[..n]);
      StepConsistent(r, After(r, c, events[..n]).value, events[n]);
    }
  }

  lemma ReachableConsistent(r: Conditions, c: Pair)
    requires Orderly(r) && Reachable(r, c)
    ensures Consistent(c)
  {
    var events :| After(r, START, events) == Some(c);
    AfterConsistent(r, START, events);
  }

  // ----- Main results about orderly runs -----

  lemma NewestIsHighest(c: Pair, p: Payload)
    requires Increasing(c.store) && p in c.store
    ensures p.sequence <= Newest(c)
  {
    var i :| 0 <= i < |c.store| && c.store[i] == p;
  }

  /** A started node with authority knows every published bundle, so what it exports next is newer still. */
  lemma WriterIsCurrent(r: Conditions, c: Pair)
    requires Orderly(r) && Reachable(r, c) && c.site.On? && c.site.phase.Up? && Auth(c, c.site.node)
    ensures forall p :: p in c.store ==> p.sequence <= Known(c.At(c.site.node))
  {
    ReachableConsistent(r, c);
    hide Increasing;
    forall p | p in c.store ensures p.sequence <= Known(c.At(c.site.node)) { NewestIsHighest(c, p); }
  }

  /** Authority is only gained from the peer's shutdown bundle, and only while that bundle is the newest. */
  lemma OnlyShutdownPromotes(r: Conditions, c: Pair, e: Event, n: NodeId)
    requires Orderly(r) && Reachable(r, c) && Enabled(r, c, e)
    requires !Auth(c, n) && Auth(Step(c, e, r), n)
    ensures c.site.On? && c.site.node == n && c.store != []
    ensures var p := c.store[|c.store| - 1];
      p.handoff == Some(ColdShutdown(n.Peer(), n)) && c.At(n).appliedHash == Some(p)
  {
    ReachableConsistent(r, c);
    if e.Import? {
      assert OpStanding(c, c.site.node, c.site.phase, c.site.ops[e.actor]);
      assert Remembers(c, c.site.node);
      ImportLeaves(c, c.site.node, c.site.ops[e.actor].mode, e.scope, e.outcome);
    }
    if e.Accept? { assert OpStanding(c, c.site.node, c.site.phase, c.site.ops[e.actor]); }
  }

  /** An export of a run carries what it was given: its rows, and the handoff of its kind. */
  lemma ExportCarries(r: Conditions, c: Pair, e: Event)
    requires Enabled(r, c, e) && e.Export? && !e.reach.Reserved?
    ensures var c', n, kind := Step(c, e, r), c.site.node, c.site.ops[e.actor].kind;
      && |c'.begun| == |c.begun| + 1 && c'.begun[..|c.begun|] == c.begun
      && var p := c'.begun[|c.begun|];
        && c'.store == (if e.reach.Complete? then c.store + [p] else c.store)
        && p.source == n && p.domains == e.domains && c'.At(n).exported == p.sequence
        && c.At(n).exported < p.sequence && c.At(n).applied < p.sequence
        && (p.sequence == c.At(n).exported + 1 || p.sequence == c.At(n).applied + 1)
        && p.handoff ==
             (match kind
              case Plain => None
              case Preparing => Some(Prepare(n, n.Peer()))
              case Shutdown => Some(ColdShutdown(n, n.Peer())))
  {
  }

  // ----- Promotion without a publication -----

  /** The newest bundle is the peer's shutdown bundle for the node, and the node has not got past it: it is
      newer than all the node knows, or the last one the node applied. */
  predicate Promotable(c: Pair, n: NodeId) {
    && c.store != []
    && var p := c.store[|c.store| - 1];
      && p.handoff == Some(ColdShutdown(n.Peer(), n))
      && (Known(c.At(n)) < p.sequence || c.At(n).appliedHash == Some(p))
  }

  /** Without a publication a passive node that cannot be promoted stays so. */
  lemma StaysPassive(r: Conditions, c: Pair, e: Event, n: NodeId)
    requires Orderly(r) && Consistent(c) && Enabled(r, c, e)
    requires !Auth(c, n) && !Promotable(c, n) && Step(c, e, r).store == c.store
    ensures !Auth(Step(c, e, r), n) && !Promotable(Step(c, e, r), n)
  {
    hide ImportBlock;
    if e.Import? || e.Export? || e.Accept? {
      assert OpStanding(c, c.site.node, c.site.phase, c.site.ops[e.actor]);
    }
    if e.Import? {
      assert Remembers(c, c.site.node);
      ImportLeaves(c, c.site.node, c.site.ops[e.actor].mode, e.scope, e.outcome);
    }
  }

  lemma StoreGrows(r: Conditions, c: Pair, e: Event)
    requires Enabled(r, c, e)
    ensures c.store <= Step(c, e, r).store && c.begun <= Step(c, e, r).begun
  {
  }

  lemma {:induction false} AfterStoreGrows(r: Conditions, c: Pair, events: seq<Event>)
    requires After(r, c, events).Some?
    ensures c.store <= After(r, c, events).value.store
  {
    if events != [] {
      var n := |events| - 1;
      AfterStoreGrows(r, c, events[..n]);
      StoreGrows(r, After(r, c, events[..n]).value, events[n]);
    }
  }

  lemma {:induction false} RemainsPassive(r: Conditions, c: Pair, events: seq<Event>, n: NodeId)
    requires Orderly(r) && Consistent(c) && !Auth(c, n) && !Promotable(c, n)
    requires After(r, c, events).Some? && After(r, c, events).value.store == c.store
    ensures !Auth(After(r, c, events).value, n) && !Promotable(After(r, c, events).value, n)
  {
    if events != [] {
      var k := |events| - 1;
      var c1 := After(r, c, events[..k]).value;
      AfterStoreGrows(r, c, events[..k]);
      StoreGrows(r, c1, events[k]);
      assert c1.store == c.store;
      RemainsPassive(r, c, events[..k], n);
      AfterConsistent(r, c, events[..k]);
      StaysPassive(r, c1, events[k], n);
    }
  }
}
