/** The two-node online protocol: every run of the two engines, at the grain of their locked blocks.

    Each node runs one elected background service (actor 0) and any number of plugin actions (other
    actors). What an operation remembers between two locked blocks is its program counter, which a
    crash loses. A candidate read from the peer or from storage is any bundle ever published. */
module Handoff {
  import opened Prelude
  import opened Bundle
  import opened Engine

  type Actor = nat
  const SERVICE: Actor := 0

  /** What an operation in flight has done so far and will do next. */
  datatype Pc =
    | ExportReady(handoff: Option<Bundle.Handoff>)  // authority was checked; the export block is next
    | PrepareSent(prepared: Payload)                // the preparation bundle is out; record it
    | Confirmed(prepared: Payload)                  // the peer reported the prepared hash as applied
    | Fenced(prepared: Payload)                     // the client endpoint is off; surrender is next
    | Surrendered(prepared: Payload)                // authority is given up; the grant is next
    | GrantSent(grant: Payload)                     // the grant is out; record it
    | RequestReady                                  // authority was checked; the request block is next
    | ApplyReady(mode: Mode)                        // passivity was checked; the import block is next
    | AcceptReady(grant: Payload)                   // a grant was let through; accepting it is next
    | ServeReady                                    // authority was accepted; enable client serving

  datatype Member = Member(
    state: NodeState, outbound: Option<Payload>, ops: map<Actor, Pc>, imports: seq<Payload>)

  /** `exports` is the history of every sequence-numbered bundle created, `published` what a reader may get. */
  datatype Cluster = Cluster(left: Member, right: Member, published: set<Payload>, exports: seq<Payload>) {
    function At(n: NodeId): Member {
      if n.Left? then left else right
    }
    function With(n: NodeId, m: Member): Cluster {
      if n.Left? then this.(left := m) else this.(right := m)
    }
  }

  /** Which interleavings a run may show: several operations at once on one node, a grant whose import
      reported conflicts, and an export whose authority was given up after it was checked. */
  datatype Regime = Regime(concurrent: bool, conflicted: bool, stale: bool)

  function RoleOf(n: NodeId): Role {
    Role(n, n.Left?, false)
  }

  predicate Auth(c: Cluster, n: NodeId) {
    Authoritative(RoleOf(n), c.At(n).state)
  }

  const BOOT := Member(FRESH, None, map[], [])
  const START := Cluster(BOOT, BOOT, {}, [])

  datatype Move =
    | BeginExport | BeginRequest | BeginPrepare | BeginApply(mode: Mode)
    | Export(domains: Snapshot, reach: Reach)
    | Request | RecordPrepare | Confirm | Fence | GiveUp | SendGrant(reach: Reach) | RecordGrant
    | Import(candidate: Payload, scope: Scope, outcome: Outcome)
    | Accept | Serve(ready: bool) | SetServing(ready: bool) | Abort | Crash

  datatype Event = Event(node: NodeId, actor: Actor, move: Move)

  /** An operation starts on a node that is idle, or on any node when operations may overlap. */
  predicate MayBegin(regime: Regime, m: Member, a: Actor) {
    a !in m.ops && (regime.concurrent || m.ops == map[])
  }

  function Begin(m: Member, a: Actor, pc: Pc): Member {
    m.(ops := m.ops[a := pc])
  }

  function Finish(m: Member, a: Actor): Member {
    m.(ops := m.ops - {a})
  }

  function Continue(m: Member, a: Actor, st: NodeState, pc: Pc): Member {
    m.(state := st, ops := m.ops[a := pc])
  }

  /** The export block: reserve the sequence, then write the outbound copy, then shared storage.
      Anything short of completion raises and ends the operation. */
  function Publish(c: Cluster, e: Event, p: Payload, reach: Reach, next: Option<Pc>): Cluster {
    var m := c.At(e.node);
    var ops := if reach.Complete? && next.Some? then m.ops[e.actor := next.value] else m.ops - {e.actor};
    var m' := m.(
      state := Engine.Reserve(m.state, p),
      outbound := if reach.Reserved? then m.outbound else Some(p),
      ops := ops);
    c.With(e.node, m').(
      exports := c.exports + [p],
      published := if reach.Reserved? then c.published else c.published + {p})
  }

  function StepExport(c: Cluster, e: Event, domains: Snapshot, reach: Reach): Cluster
    requires e.actor in c.At(e.node).ops && c.At(e.node).ops[e.actor].ExportReady?
  {
    var m := c.At(e.node);
    var h := m.ops[e.actor].handoff;
    var p := NextPayload(RoleOf(e.node), m.state, domains, h);
    Publish(c, e, p, reach, if h.Some? then Some(PrepareSent(p)) else None)
  }

  /** Export after surrender: the grant repeats the prepared bundle, if that is still the latest one. */
  function StepGrant(c: Cluster, e: Event, reach: Reach): Cluster
    requires e.actor in c.At(e.node).ops && c.At(e.node).ops[e.actor].Surrendered?
  {
    var m := c.At(e.node);
    var prepared := m.ops[e.actor].prepared;
    if m.outbound != Some(prepared) then c.With(e.node, Finish(m, e.actor))
    else
      var h := Grant(e.node, e.node.Peer(), prepared);
      var p := NextPayload(RoleOf(e.node), m.state, prepared.domains, Some(h));
      Publish(c, e, p, reach, Some(GrantSent(p)))
  }

  function ImportResult(m: Member, e: Event): Import
    requires e.move.Import? && e.actor in m.ops && m.ops[e.actor].ApplyReady?
  {
    ImportBlock(RoleOf(e.node), m.state, e.move.scope, e.move.candidate, m.ops[e.actor].mode, e.move.outcome)
  }

  function AfterImport(m: Member, e: Event): Member
    requires e.move.Import? && e.actor in m.ops && m.ops[e.actor].ApplyReady?
  {
    var r := ImportResult(m, e);
    var m' := m.(state := r.state, imports := if r.taken then m.imports + [e.move.candidate] else m.imports);
    if r.followUp.TakeGrant? then m'.(ops := m'.ops[e.actor := AcceptReady(e.move.candidate)])
    else Finish(m', e.actor)
  }

  /** A grant that was let through although its import reported conflicts. */
  predicate TakesConflictedGrant(m: Member, e: Event)
    requires e.move.Import? && e.actor in m.ops && m.ops[e.actor].ApplyReady?
  {
    e.move.outcome.Conflicted? && ImportResult(m, e).followUp.TakeGrant?
  }

  predicate Enabled(regime: Regime, c: Cluster, e: Event) {
    var m := c.At(e.node);
    var st := m.state;
    var a := e.actor;
    match e.move
    case BeginExport => MayBegin(regime, m, a) && Auth(c, e.node)
    case BeginRequest => MayBegin(regime, m, a) && a != SERVICE && Auth(c, e.node)
    case BeginPrepare => MayBegin(regime, m, a) && a == SERVICE && Auth(c, e.node) && st.progress.Requested?
    case Confirm =>
      && MayBegin(regime, m, a) && a == SERVICE && Auth(c, e.node) && st.progress.WaitingForApply?
      && c.At(e.node.Peer()).state.appliedHash == Some(st.progress.prepared)
    case BeginApply(mode) => MayBegin(regime, m, a) && !mode.Inspect? && !Auth(c, e.node)
    case Export(_, _) => a in m.ops && m.ops[a].ExportReady? && (regime.stale || Auth(c, e.node))
    case Request => a in m.ops && m.ops[a].RequestReady?
    case RecordPrepare => a in m.ops && m.ops[a].PrepareSent?
    case Fence => a in m.ops && m.ops[a].Confirmed?
    case GiveUp => a in m.ops && m.ops[a].Fenced?
    case SendGrant(_) => a in m.ops && m.ops[a].Surrendered?
    case RecordGrant => a in m.ops && m.ops[a].GrantSent?
    case Import(candidate, _, _) =>
      && a in m.ops && m.ops[a].ApplyReady?
      && candidate in c.published
      && (regime.conflicted || !TakesConflictedGrant(m, e))
    case Accept => a in m.ops && m.ops[a].AcceptReady?
    case Serve(_) => a in m.ops && m.ops[a].ServeReady?
    case SetServing(ready) => ready ==> regime.concurrent || Auth(c, e.node)
    case Abort => a in m.ops
    case Crash => true
  }

  /** A move that publishes nothing: it changes its own node only. */
  function Local(m: Member, e: Event): Member
    requires e.move.BeginPrepare? ==> m.state.progress.Requested?
    requires e.move.Confirm? ==> m.state.progress.WaitingForApply?
    requires e.move.RecordPrepare? ==> e.actor in m.ops && m.ops[e.actor].PrepareSent?
    requires e.move.Fence? ==> e.actor in m.ops && m.ops[e.actor].Confirmed?
    requires e.move.GiveUp? ==> e.actor in m.ops && m.ops[e.actor].Fenced?
    requires e.move.RecordGrant? ==> e.actor in m.ops && m.ops[e.actor].GrantSent?
    requires e.move.Import? ==> e.actor in m.ops && m.ops[e.actor].ApplyReady?
    requires e.move.Accept? ==> e.actor in m.ops && m.ops[e.actor].AcceptReady?
  {
    var st, n, a := m.state, e.node, e.actor;
    match e.move
    case BeginExport => Begin(m, a, ExportReady(None))
    case BeginRequest => Begin(m, a, RequestReady)
    case BeginPrepare => Begin(m, a, ExportReady(Some(Prepare(n, n.Peer()))))
    case Confirm => Begin(m, a, Confirmed(st.progress.prepared))
    case BeginApply(mode) => Begin(m, a, ApplyReady(mode))
    case Request =>
      Finish(m, a).(state := if MayRequest(st) then st.(progress := Requested(n.Peer())) else st)
    case RecordPrepare => Finish(m, a).(state := st.(progress := WaitingForApply(n.Peer(), m.ops[a].prepared)))
    case Fence => Continue(m, a, st.(serving := false), Fenced(m.ops[a].prepared))
    case GiveUp => Continue(m, a, Engine.Surrender(st, m.ops[a].prepared, n.Peer()), Surrendered(m.ops[a].prepared))
    case RecordGrant => Finish(m, a).(state := st.(progress := Issued(m.ops[a].grant)))
    case Import(_, _, _) => AfterImport(m, e)
    case Accept => Continue(m, a, Engine.AcceptGrant(st, m.ops[a].grant.source), ServeReady)
    case Serve(ready) => Finish(m, a).(state := st.(serving := ready))
    case SetServing(ready) => m.(state := st.(serving := ready))
    case Crash => m.(ops := map[])
    case Abort => Finish(m, a)
    case Export(_, _) => m
    case SendGrant(_) => m
  }

  function Step(c: Cluster, e: Event, regime: Regime): Cluster
    requires Enabled(regime, c, e)
  {
    match e.move
    case Export(domains, reach) => StepExport(c, e, domains, reach)
    case SendGrant(reach) => StepGrant(c, e, reach)
    case _ => c.With(e.node, Local(c.At(e.node), e))
  }

  /** `states` is a run of the protocol under `regime`. */
  ghost predicate Run(regime: Regime, events: seq<Event>, states: seq<Cluster>) {
    && |states| == |events| + 1
    && states[0] == START
    && forall i :: 0 <= i < |events| ==>
         Enabled(regime, states[i], events[i]) && states[i + 1] == Step(states[i], events[i], regime)
  }

  /** The cluster states some run reaches. */
  ghost predicate Reachable(regime: Regime, c: Cluster) {
    exists events, states :: Run(regime, events, states) && states[|events|] == c
  }

  predicate AtMostOneAuthority(c: Cluster) {
    !(Auth(c, Left) && Auth(c, Right))
  }
}
