/** The replication engine of one node: the state it persists, and each block it runs under its lock. */
module Engine {
  import opened Prelude
  import opened Bundle

  /** The fingerprint of the follower-local selection a bundle was applied with. */
  type Scope = nat

  /** The persisted `handoff` record; the record's `phase` is the constructor. */
  datatype Progress =
    | NoHandoff
    | Requested(target: NodeId)
    | WaitingForApply(target: NodeId, prepared: Payload)
    | Granting(target: NodeId, prepared: Payload)
    | Issued(grant: Payload)
    | Accepted(source: NodeId)
    | TookOver(source: NodeId)

  datatype NodeState = NodeState(
    authoritative: Option<bool>,
    exported: nat,
    applied: nat,
    appliedHash: Option<Payload>,
    appliedScope: Option<Scope>,
    source: Option<NodeId>,
    progress: Progress,
    serving: bool)

  const FRESH := NodeState(None, 0, 0, None, None, None, NoHandoff, false)

  /** Every choice of a node's configuration that the protocol looks at. */
  datatype Role = Role(node: NodeId, leader: bool, coldStandby: bool)

  predicate Authoritative(role: Role, st: NodeState) {
    st.authoritative.GetOr(role.leader)
  }

  predicate ClientReady(role: Role, st: NodeState) {
    Authoritative(role, st) && st.serving
  }

  function Known(st: NodeState): nat {
    if st.applied < st.exported then st.exported else st.applied
  }

  // ----- Exporting -----

  /** How far publication gets before an error or a crash ends it. The sequence is reserved first. */
  datatype Reach = Reserved | Outbound | Complete

  function NextPayload(role: Role, st: NodeState, domains: Snapshot, handoff: Option<Handoff>): Payload {
    Payload(role.node, Known(st) + 1, domains, handoff)
  }

  function Reserve(st: NodeState, p: Payload): NodeState {
    st.(exported := p.sequence)
  }

  // ----- Importing -----

  datatype Mode = Normal | Force | Initialize | Inspect

  datatype Admission = Admitted | OwnBundle | NotNewer

  /** Which verified candidate a node lets through, before looking at its contents. */
  function Admit(role: Role, st: NodeState, scope: Scope, p: Payload, mode: Mode): Admission {
    var samePayload := p.sequence == st.applied && st.appliedHash == Some(p);
    var sameScope := st.appliedScope == Some(scope);
    if p.source == role.node then OwnBundle
    else if mode.Force? then
      if samePayload && sameScope then Admitted else NotNewer
    else if !mode.Inspect? && p.sequence <= Known(st) && !(samePayload && !sameScope) then NotNewer
    else Admitted
  }

  datatype Effect = NoEffect | TakeGrant | TakeOver | Refuse

  /** What the handoff section of an admitted bundle asks of this node. */
  function HandoffEffect(role: Role, st: NodeState, p: Payload, mode: Mode): Effect {
    if mode.Initialize? || p.handoff.None? then NoEffect
    else
      var h := p.handoff.value;
      if h.source != p.source || h.target != role.node then Refuse
      else if !mode.Normal? then NoEffect
      else match h
        case Prepare(_, _) => NoEffect
        case Grant(_, _, prepared) =>
          if st.appliedHash != Some(prepared) || st.source != Some(p.source) then Refuse else TakeGrant
        case ColdShutdown(_, _) =>
          if role.coldStandby then TakeOver else Refuse
  }

  /** How the database import ends: a differing global hash key, an error, conflicts, or success. */
  datatype Outcome = Mismatched | Raised | Conflicted | Applied

  /** The new state, the handoff effect left to carry out, and whether the database took the bundle. */
  datatype Import = Import(state: NodeState, followUp: Effect, taken: bool)

  function RecordApplied(st: NodeState, scope: Scope, p: Payload): NodeState {
    st.(applied := p.sequence, appliedHash := Some(p), appliedScope := Some(scope), source := Some(p.source))
  }

  /** The locked block of `apply_latest` and of `initialize_follower`. */
  function ImportBlock(role: Role, st: NodeState, scope: Scope, p: Payload, mode: Mode, outcome: Outcome): Import {
    var effect := HandoffEffect(role, st, p, mode);
    if !Admit(role, st, scope, p, mode).Admitted? then Import(st, NoEffect, false)
    else match outcome
      case Mismatched => Import(st, NoEffect, false)
      case Raised => Import(st, NoEffect, false)
      case Conflicted =>
        if effect.Refuse? then Import(st, NoEffect, false)
        else Import(st, if effect.TakeGrant? then TakeGrant else NoEffect, false)
      case Applied =>
        if effect.Refuse? then Import(st, NoEffect, false)
        else Import(RecordApplied(st, scope, p), effect, true)
  }

  // ----- Handing over -----

  predicate MayRequest(st: NodeState) {
    st.progress.NoHandoff? || st.progress.Issued? || st.progress.Accepted?
  }

  function Surrender(st: NodeState, prepared: Payload, target: NodeId): NodeState {
    st.(authoritative := Some(false), progress := Granting(target, prepared))
  }

  function AcceptGrant(st: NodeState, source: NodeId): NodeState {
    st.(authoritative := Some(true), progress := Accepted(source))
  }

  function AcceptColdShutdown(st: NodeState, source: NodeId): NodeState {
    st.(authoritative := Some(true), progress := TookOver(source))
  }

  /** The startup block of a cold-standby node that finds a newer writer. */
  function StepDown(st: NodeState): NodeState {
    st.(authoritative := Some(false), serving := false)
  }
}
