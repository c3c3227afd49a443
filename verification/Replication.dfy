/** The engine as an object: its methods, with the state they persist, run without interruption.

    What lies outside is a parameter: the rows exported, the candidate read, how far publication gets, how
    the database import ends, what the peer reports and whether the network address could be taken. */
module Replication {
  import opened Prelude
  import opened Bundle
  import opened Engine

  datatype Access = NoAccess | ExternalProxy | PluginVip

  datatype Failure =
    | NotAuthoritative | NotPassive | NoPeer | InProgress | PublishFailed | WrongPeer | PreparedLost
    | NotAdmitted(why: Admission) | ImportFailed | HandoffRefused | SelfIssued | AddressRefused

  datatype Imported = Mismatch | Blocked | Done

  datatype Progressed = Idle | WaitingForPeer | GrantIssued(grant: Payload)

  /** The state after the client endpoint was enabled, or left as it was if the address was refused. */
  function Serving(st: NodeState, access: Access, address: bool): NodeState {
    match access
    case PluginVip => if address then st.(serving := true) else st
    case ExternalProxy => st.(serving := true)
    case NoAccess => st.(serving := false)
  }

  /** The state after an import block and the handoff effect it left to carry out. */
  function AfterImport(i: Import, source: NodeId, access: Access, address: bool): NodeState {
    match i.followUp
    case TakeGrant => Serving(AcceptGrant(i.state, source), access, address)
    case TakeOver => Serving(AcceptColdShutdown(i.state, source), access, address)
    case _ => i.state
  }

  /** What an import reports, errors included. */
  function ImportReport(
    role: Role, st: NodeState, scope: Scope, p: Payload, mode: Mode, outcome: Outcome): Result<Imported, Failure>
  {
    if !Admit(role, st, scope, p, mode).Admitted? then Err(NotAdmitted(Admit(role, st, scope, p, mode)))
    else match outcome
      case Mismatched => Ok(Mismatch)
      case Raised => Err(ImportFailed)
      case Conflicted => if HandoffEffect(role, st, p, mode).Refuse? then Err(HandoffRefused) else Ok(Blocked)
      case Applied => if HandoffEffect(role, st, p, mode).Refuse? then Err(HandoffRefused) else Ok(Done)
  }

  /** The state after publishing a preparation bundle: it is recorded only once it is out. */
  function Prepared(role: Role, st: NodeState, target: NodeId, domains: Snapshot, reach: Reach): NodeState {
    var p := NextPayload(role, st, domains, Some(Handoff.Prepare(role.node, target)));
    if reach.Complete? then Reserve(st, p).(progress := WaitingForApply(target, p)) else Reserve(st, p)
  }

  function GivenUp(st: NodeState, prepared: Payload, target: NodeId): NodeState {
    Surrender(st.(serving := false), prepared, target)
  }

  /** The grant for a prepared bundle, by a node that has given up authority. */
  function GrantFor(role: Role, st: NodeState, prepared: Payload, target: NodeId): Payload {
    NextPayload(
      role, GivenUp(st, prepared, target), prepared.domains, Some(Grant(role.node, role.node.Peer(), prepared)))
  }

  /** The state after handing over, as far as the grant got. */
  function HandedOver(
    role: Role, st: NodeState, outbound: Option<Payload>, prepared: Payload, target: NodeId, reach: Reach): NodeState
  {
    var given, g := GivenUp(st, prepared, target), GrantFor(role, st, prepared, target);
    if outbound != Some(prepared) then given
    else if reach.Complete? then Reserve(given, g).(progress := Issued(g))
    else Reserve(given, g)
  }

  /** An accepted handoff fails late when the network address is refused: authority stays, clients do not come. */
  predicate Refused(i: Import, access: Access, address: bool) {
    (i.followUp.TakeGrant? || i.followUp.TakeOver?) && access.PluginVip? && !address
  }

  /** The outbound copy and the stored bundle after a publication, as far as it got. */
  function OutboundAfter(before: Option<Payload>, p: Payload, reach: Reach): Option<Payload> {
    if reach.Reserved? then before else Some(p)
  }

  function StoredAfter(before: Option<Payload>, p: Payload, reach: Reach, shared: bool): Option<Payload> {
    if reach.Complete? && shared then Some(p) else before
  }

  // ----- What the calls mean for a caller -----

  /** Clients come at once behind a proxy, with the network address only if it was granted or serving was
      still on, and never without client access. */
  predicate ServesAtOnce(access: Access, address: bool, serving: bool) {
    access.ExternalProxy? || (access.PluginVip? && (address || serving))
  }

  lemma ReadyAfterAcceptance(role: Role, st: NodeState, source: NodeId, access: Access, address: bool)
    ensures ClientReady(role, Serving(AcceptGrant(st, source), access, address)) <==>
      ServesAtOnce(access, address, st.serving)
    ensures ClientReady(role, Serving(AcceptColdShutdown(st, source), access, address)) <==>
      ServesAtOnce(access, address, st.serving)
  {
  }

  /** The imports that earn authority: of a grant the node prepared for, whether or not it was applied, and of
      a shutdown bundle that was. */
  predicate Earns(role: Role, st: NodeState, scope: Scope, p: Payload, mode: Mode, outcome: Outcome) {
    && Admit(role, st, scope, p, mode).Admitted? && mode.Normal? && p.handoff.Some?
    && p.handoff.value.source == p.source && p.handoff.value.target == role.node
    && match p.handoff.value
       case Prepare(_, _) => false
       case Grant(_, _, prepared) =>
         && st.appliedHash == Some(prepared) && st.source == Some(p.source)
         && (outcome.Applied? || outcome.Conflicted?)
       case ColdShutdown(_, _) => role.coldStandby && outcome.Applied?
  }

  lemma AuthorityIsEarned(
    role: Role, st: NodeState, scope: Scope, p: Payload, mode: Mode, outcome: Outcome, access: Access, address: bool)
    requires !Authoritative(role, st)
    ensures
      Authoritative(role, AfterImport(ImportBlock(role, st, scope, p, mode, outcome), p.source, access, address)) <==>
      Earns(role, st, scope, p, mode, outcome)
  {
  }

  /** No import lowers a known sequence, and one that raises it leaves the node knowing the bundle. */
  lemma KnowledgeGrows(
    role: Role, st: NodeState, scope: Scope, p: Payload, mode: Mode, outcome: Outcome, access: Access, address: bool)
    requires !mode.Inspect?
    ensures var st' := AfterImport(ImportBlock(role, st, scope, p, mode, outcome), p.source, access, address);
      && Known(st) <= Known(st') && st.exported == st'.exported
      && (st'.applied != st.applied ==> st'.applied == p.sequence == Known(st') && st'.appliedHash == Some(p))
  {
  }

  /** A handoff section this node refuses: of another source or for another node, a grant it did not prepare
      for, or a cold shutdown online. */
  predicate UnfitHandoff(role: Role, st: NodeState, p: Payload, mode: Mode) {
    && p.handoff.Some?
    && var h := p.handoff.value;
      || h.source != p.source || h.target != role.node
      || (h.Grant? && mode.Normal? && !(st.appliedHash == Some(h.prepared) && st.source == Some(p.source)))
      || (h.ColdShutdown? && mode.Normal? && !role.coldStandby)
  }

  /** A node that has applied a bundle under a scope applies it again only by force under that scope, and
      without force only under another. */
  ghost predicate RememberedUnder(role: Role, st: NodeState, scope: Scope, p: Payload) {
    && st.appliedScope == Some(scope)
    && (forall other: Scope :: Admit(role, st, other, p, Force).Admitted? <==> other == scope)
    && (forall other: Scope :: Admit(role, st, other, p, Normal).Admitted? <==> other != scope)
    && Admit(role, st, scope, p, Normal).NotNewer?
  }

  /** What an import of a passive node leaves, and what it reports: a bundle that is not admitted, or whose
      handoff does not fit, changes nothing; an applied one is recorded with its scope; authority and the
      client endpoint change only where the bundle earns authority. */
  predicate Imports(
    role: Role, before: NodeState, scope: Scope, p: Payload, mode: Mode, outcome: Outcome, access: Access,
    address: bool, after: NodeState, r: Result<Imported, Failure>)
  {
    var verdict, earns := Admit(role, before, scope, p, mode), Earns(role, before, scope, p, mode, outcome);
    if !verdict.Admitted? then r == Err(NotAdmitted(verdict)) && after == before
    else if outcome.Mismatched? then r == Ok(Mismatch) && after == before
    else if outcome.Raised? then r == Err(ImportFailed) && after == before
    else if UnfitHandoff(role, before, p, mode) then r == Err(HandoffRefused) && after == before
    else
      && (if earns && access.PluginVip? && !address then r == Err(AddressRefused)
          else r == Ok(if outcome.Applied? then Done else Blocked))
      && (outcome.Applied? ==>
           after.applied == p.sequence && after.appliedHash == Some(p)
           && after.appliedScope == Some(scope) && after.source == Some(p.source))
      && (outcome.Conflicted? ==>
           after.applied == before.applied && after.appliedHash == before.appliedHash
           && after.appliedScope == before.appliedScope && after.source == before.source)
      && after.exported == before.exported
      && (if earns then
           && after.authoritative == Some(true)
           && after.progress == (if p.handoff.value.Grant? then Accepted(p.source) else TookOver(p.source))
           && (after.serving <==> ServesAtOnce(access, address, before.serving))
         else
           && after.authoritative == before.authoritative
           && after.progress == before.progress && after.serving == before.serving)
  }

  lemma ImportIsKept(
    role: Role, st: NodeState, scope: Scope, p: Payload, mode: Mode, outcome: Outcome, access: Access, address: bool)
    requires mode.Normal? || mode.Force?
    ensures var i := ImportBlock(role, st, scope, p, mode, outcome);
      var r :=
        if Refused(i, access, address) then Err(AddressRefused)
        else ImportReport(role, st, scope, p, mode, outcome);
      && Imports(role, st, scope, p, mode, outcome, access, address, AfterImport(i, p.source, access, address), r)
      && (r == Ok(Done) ==> RememberedUnder(role, AfterImport(i, p.source, access, address), scope, p))
  {
  }

  class ReplicationEngine {
    const role: Role
    const scope: Scope
    const access: Access
    const direct: bool          // the peer can be reached
    const shared: bool          // bundles also go to shared storage
    var state: NodeState
    var outbound: Option<Payload>
    var stored: Option<Payload> // the last bundle this node put into shared storage

    constructor (role: Role, scope: Scope, access: Access, direct: bool, shared: bool)
      ensures this.role == role && this.scope == scope && this.access == access
      ensures this.direct == direct && this.shared == shared
      ensures state == FRESH && outbound == None && stored == None
      ensures IsAuthoritative() <==> role.leader
      ensures state.exported == state.applied == 0 && state.appliedHash.None? && !state.serving
    {
      this.role, this.scope, this.access, this.direct, this.shared := role, scope, access, direct, shared;
      state, outbound, stored := FRESH, None, None;
    }

    predicate IsAuthoritative()
      reads this
    {
      Authoritative(role, state)
    }

    method IsClientReady() returns (ready: bool)
      ensures ready == ClientReady(role, state)
    {
      ready := IsAuthoritative() && state.serving;
    }

    // ----- Exporting -----

    /** Reserve the sequence, then write the outbound copy, then shared storage. */
    method Publish(p: Payload, reach: Reach) returns (ok: bool)
      modifies this
      ensures state == Reserve(old(state), p) && state.exported == p.sequence
      ensures outbound == OutboundAfter(old(outbound), p, reach)
      ensures stored == StoredAfter(old(stored), p, reach, shared)
      ensures outbound == old(outbound) || outbound == Some(p)
      ensures stored == old(stored) || stored == Some(p)
      ensures reach.Reserved? ==> outbound == old(outbound)
      ensures !reach.Reserved? ==> outbound == Some(p)
      ensures stored != old(stored) ==> reach.Complete? && shared
      ensures reach.Complete? && shared ==> stored == Some(p)
      ensures ok <==> reach.Complete?
    {
      state := state.(exported := p.sequence);
      if reach.Reserved? { return false; }
      outbound := Some(p);
      if reach.Outbound? { return false; }
      if shared { stored := Some(p); }
      return true;
    }

    method ExportNow(domains: Snapshot, handoff: Option<Handoff>, reach: Reach) returns (r: Result<Payload, Failure>)
      modifies this
      ensures !old(IsAuthoritative()) ==> r == Err(NotAuthoritative) && unchanged(this)
      ensures old(IsAuthoritative()) ==>
        var p := NextPayload(role, old(state), domains, handoff);
        && state == Reserve(old(state), p)
        && outbound == OutboundAfter(old(outbound), p, reach)
        && stored == StoredAfter(old(stored), p, reach, shared)
        && r == (if reach.Complete? then Ok(p) else Err(PublishFailed))
      ensures r.Ok? ==>
        && r.value.source == role.node && r.value.domains == domains && r.value.handoff == handoff
        && old(state).exported < r.value.sequence && old(state).applied < r.value.sequence
        && (r.value.sequence == old(state).exported + 1 || r.value.sequence == old(state).applied + 1)
        && outbound == Some(r.value) && stored == (if shared then Some(r.value) else old(stored))
      ensures old(IsAuthoritative()) ==>
        && state == old(state).(exported := state.exported)
        && old(state).exported < state.exported && old(state).applied < state.exported
        && (r.Ok? ==> state.exported == r.value.sequence)
        && (reach.Outbound? ==>
             && outbound.Some? && outbound.value.source == role.node && outbound.value.sequence == state.exported
             && outbound.value.domains == domains && outbound.value.handoff == handoff && stored == old(stored))
        && (reach.Reserved? ==> outbound == old(outbound) && stored == old(stored))
    {
      if !IsAuthoritative() { return Err(NotAuthoritative); }
      var sequence := Max(state.exported, state.applied) + 1;
      var p := Payload(role.node, sequence, domains, handoff);
      var ok := Publish(p, reach);
      return if ok then Ok(p) else Err(PublishFailed);
    }

    /** The grant repeats the prepared bundle, provided it is still the outbound one. */
    method ExportAfterSurrender(prepared: Payload, reach: Reach) returns (r: Result<Payload, Failure>)
      modifies this
      ensures old(outbound) != Some(prepared) ==> r == Err(PreparedLost) && unchanged(this)
      ensures old(outbound) == Some(prepared) ==>
        var p := NextPayload(role, old(state), prepared.domains, Some(Grant(role.node, role.node.Peer(), prepared)));
        && state == Reserve(old(state), p)
        && outbound == OutboundAfter(old(outbound), p, reach)
        && stored == StoredAfter(old(stored), p, reach, shared)
        && r == (if reach.Complete? then Ok(p) else Err(PublishFailed))
      ensures r.Ok? ==>
        && r.value.source == role.node && r.value.domains == prepared.domains
        && r.value.handoff == Some(Grant(role.node, role.node.Peer(), prepared))
        && old(state).exported < r.value.sequence && old(state).applied < r.value.sequence
        && (r.value.sequence == old(state).exported + 1 || r.value.sequence == old(state).applied + 1)
        && state.exported == r.value.sequence && outbound == Some(r.value)
    {
      var sequence := Max(state.exported, state.applied) + 1;
      if outbound != Some(prepared) { return Err(PreparedLost); }
      var p := Payload(role.node, sequence, outbound.value.domains, Some(Grant(role.node, role.node.Peer(), prepared)));
      var ok := Publish(p, reach);
      return if ok then Ok(p) else Err(PublishFailed);
    }

    // ----- Importing -----

    /** Accept a bundle by sequence and hash, as its mode asks. */
    method VerifiedCandidate(p: Payload, mode: Mode) returns (verdict: Admission)
      ensures verdict == Admit(role, state, scope, p, mode)
      ensures verdict.OwnBundle? <==> p.source == role.node
      ensures p.source != role.node && mode.Inspect? ==> verdict.Admitted?
      ensures p.source != role.node && mode.Force? ==> (verdict.Admitted? <==>
        p.sequence == state.applied && state.appliedHash == Some(p) && state.appliedScope == Some(scope))
      ensures p.source != role.node && (mode.Normal? || mode.Initialize?) ==> (verdict.Admitted? <==>
        || (state.exported < p.sequence && state.applied < p.sequence)
        || (p.sequence == state.applied && state.appliedHash == Some(p) && state.appliedScope != Some(scope)))
    {
      if p.source == role.node { return OwnBundle; }
      var known := Max(state.applied, state.exported);
      var samePayload := p.sequence == state.applied && state.appliedHash == Some(p);
      var sameScope := state.appliedScope == Some(scope);
      if mode.Force? {
        if !(samePayload && sameScope) { return NotNewer; }
      } else if !mode.Inspect? && p.sequence <= known {
        if !(samePayload && !sameScope) { return NotNewer; }
      }
      return Admitted;
    }

    method EnableClientServing(address: bool) returns (ok: bool)
      modifies this`state
      ensures state == Serving(old(state), access, address) && state == old(state).(serving := state.serving)
      ensures state.serving <==> ServesAtOnce(access, address, old(state).serving)
      ensures ok <==> !access.PluginVip? || address
    {
      ok := true;
      match access
      case PluginVip => if address { state := state.(serving := true); } else { ok := false; }
      case ExternalProxy => state := state.(serving := true);
      case NoAccess => state := state.(serving := false);
    }

    /** Become authoritative, then enable the client endpoint; a grant of one's own is refused. */
    method AcceptHandoffGrant(source: NodeId, address: bool) returns (r: Result<(), Failure>)
      modifies this`state
      ensures source == role.node ==> r == Err(SelfIssued) && state == old(state)
      ensures source != role.node ==>
        && state == Serving(AcceptGrant(old(state), source), access, address)
        && (ClientReady(role, state) <==> ServesAtOnce(access, address, old(state).serving))
        && state.authoritative == Some(true) && state.progress == Accepted(source)
        && r == if access.PluginVip? && !address then Err(AddressRefused) else Ok(())
    {
      if source == role.node { return Err(SelfIssued); }
      ReadyAfterAcceptance(role, state, source, access, address);
      state := state.(authoritative := Some(true), progress := Accepted(source));
      var ok := EnableClientServing(address);
      return if ok then Ok(()) else Err(AddressRefused);
    }

    method TakeOverCold(source: NodeId, address: bool) returns (r: Result<(), Failure>)
      modifies this`state
      ensures state == Serving(AcceptColdShutdown(old(state), source), access, address)
      ensures ClientReady(role, state) <==> ServesAtOnce(access, address, old(state).serving)
      ensures state.authoritative == Some(true) && state.progress == TookOver(source)
      ensures r == if access.PluginVip? && !address then Err(AddressRefused) else Ok(())
    {
      ReadyAfterAcceptance(role, state, source, access, address);
      state := state.(authoritative := Some(true), progress := TookOver(source));
      var ok := EnableClientServing(address);
      return if ok then Ok(()) else Err(AddressRefused);
    }

    /** Import a candidate and carry out its handoff; only a passive node does. */
    method ApplyLatest(p: Payload, force: bool, outcome: Outcome, address: bool)
      returns (r: Result<Imported, Failure>)
      modifies this`state
      ensures old(IsAuthoritative()) ==> r == Err(NotPassive) && state == old(state)
      ensures !old(IsAuthoritative()) ==>
        var mode := if force then Force else Normal;
        var i := ImportBlock(role, old(state), scope, p, mode, outcome);
        && r == (if Refused(i, access, address) then Err(AddressRefused)
          else ImportReport(role, old(state), scope, p, mode, outcome))
        && state == AfterImport(i, p.source, access, address)
        && (IsAuthoritative() <==> Earns(role, old(state), scope, p, mode, outcome))
        && Known(old(state)) <= Known(state) && state.exported == old(state).exported
        && (state.applied != old(state).applied ==>
             state.applied == p.sequence == Known(state) && state.appliedHash == Some(p))
      ensures !old(IsAuthoritative()) ==>
        Imports(role, old(state), scope, p, if force then Force else Normal, outcome, access, address, state, r)
      ensures r == Ok(Done) ==> RememberedUnder(role, state, scope, p)
    {
      if IsAuthoritative() { return Err(NotPassive); }
      AuthorityIsEarned(role, state, scope, p, if force then Force else Normal, outcome, access, address);
      KnowledgeGrows(role, state, scope, p, if force then Force else Normal, outcome, access, address);
      ImportIsKept(role, state, scope, p, if force then Force else Normal, outcome, access, address);
      hide Imports, RememberedUnder, UnfitHandoff, Earns;
      var mode := if force then Force else Normal;
      var verdict := VerifiedCandidate(p, mode);
      if !verdict.Admitted? { return Err(NotAdmitted(verdict)); }
      if outcome.Mismatched? { return Ok(Mismatch); }
      if outcome.Raised? { return Err(ImportFailed); }
      var grant, takeover := false, false;
      if p.handoff.Some? {
        var h := p.handoff.value;
        if h.source != p.source || h.target != role.node { return Err(HandoffRefused); }
        if h.Grant? && !force {
          if state.appliedHash != Some(h.prepared) || state.source != Some(p.source) { return Err(HandoffRefused); }
          grant := true;
        }
        if h.ColdShutdown? && !force {
          if !role.coldStandby { return Err(HandoffRefused); }
          takeover := true;
        }
      }
      if outcome.Applied? {
        state := state.(
          applied := p.sequence, appliedHash := Some(p), appliedScope := Some(scope), source := Some(p.source));
        r := Ok(Done);
      } else {
        r := Ok(Blocked);
      }
      var accepted: Result<(), Failure> := Ok(());
      if grant { accepted := AcceptHandoffGrant(p.source, address); }
      if takeover && outcome.Applied? { accepted := TakeOverCold(p.source, address); }
      if accepted.Err? { r := Err(accepted.error); }
    }

    /** Replace the selected records by a bundle's; a handoff in it has no effect. */
    method InitializeFollower(p: Payload, outcome: Outcome) returns (r: Result<Imported, Failure>)
      modifies this`state
      ensures old(IsAuthoritative()) ==> r == Err(NotPassive) && state == old(state)
      ensures !old(IsAuthoritative()) ==>
        && r == ImportReport(role, old(state), scope, p, Initialize, outcome)
        && state == ImportBlock(role, old(state), scope, p, Initialize, outcome).state
      ensures !old(IsAuthoritative()) ==>
        var verdict := Admit(role, old(state), scope, p, Initialize);
        if !verdict.Admitted? then r == Err(NotAdmitted(verdict)) && state == old(state)
        else match outcome
          case Mismatched => r == Ok(Mismatch) && state == old(state)
          case Raised => r == Err(ImportFailed) && state == old(state)
          case Conflicted => r == Ok(Blocked) && state == old(state)
          case Applied => r == Ok(Done) && state == old(state).(
            applied := p.sequence, appliedHash := Some(p), appliedScope := Some(scope), source := Some(p.source))
      ensures r == Ok(Done) ==> RememberedUnder(role, state, scope, p)
    {
      if IsAuthoritative() { return Err(NotPassive); }
      var verdict := VerifiedCandidate(p, Initialize);
      if !verdict.Admitted? { return Err(NotAdmitted(verdict)); }
      match outcome
      case Mismatched => return Ok(Mismatch);
      case Raised => return Err(ImportFailed);
      case Conflicted => return Ok(Blocked);
      case Applied =>
        state := state.(
          applied := p.sequence, appliedHash := Some(p), appliedScope := Some(scope), source := Some(p.source));
        return Ok(Done);
    }

    // ----- Handing over -----

    method RequestHandoff() returns (r: Result<(), Failure>)
      modifies this`state
      ensures r.Ok? <==> old(IsAuthoritative()) && direct && MayRequest(old(state))
      ensures r == Err(InProgress) <==>
        && old(IsAuthoritative()) && direct && !old(state).progress.NoHandoff?
        && !old(state).progress.Issued? && !old(state).progress.Accepted?
      ensures state == if r.Ok? then old(state).(progress := Requested(role.node.Peer())) else old(state)
    {
      if !IsAuthoritative() { return Err(NotAuthoritative); }
      if !direct { return Err(NoPeer); }
      if !state.progress.NoHandoff? && !state.progress.Issued? && !state.progress.Accepted? { return Err(InProgress); }
      state := state.(progress := Requested(role.node.Peer()));
      return Ok(());
    }

    /** The first half of a handoff: publish the preparation bundle and remember it. */
    method Prepare(target: NodeId, domains: Snapshot, reach: Reach) returns (r: Result<Progressed, Failure>)
      modifies this
      ensures !old(IsAuthoritative()) ==> r == Err(NotAuthoritative) && unchanged(this)
      ensures old(IsAuthoritative()) ==>
        && state == Prepared(role, old(state), target, domains, reach)
        && r == (if reach.Complete? then Ok(WaitingForPeer) else Err(PublishFailed))
        && var p := NextPayload(role, old(state), domains, Some(Handoff.Prepare(role.node, target)));
          && outbound == OutboundAfter(old(outbound), p, reach)
          && stored == StoredAfter(old(stored), p, reach, shared)
      ensures r.Ok? ==>
        && outbound.Some? && state.progress == WaitingForApply(target, outbound.value)
        && outbound.value.domains == domains && outbound.value.source == role.node
        && outbound.value.handoff == Some(Handoff.Prepare(role.node, target))
        && state.exported == outbound.value.sequence && old(state).exported < state.exported
        && old(state).applied < state.exported
      ensures r.Err? ==> state == old(state).(exported := state.exported)
    {
      var exported := ExportNow(domains, Some(Handoff.Prepare(role.node, target)), reach);
      if exported.Err? { return Err(exported.error); }
      state := state.(progress := WaitingForApply(target, exported.value));
      return Ok(WaitingForPeer);
    }

    /** The second half: fence the client endpoint, give up authority, and only then issue the grant. */
    method HandOver(target: NodeId, prepared: Payload, reach: Reach) returns (r: Result<Progressed, Failure>)
      modifies this
      ensures !IsAuthoritative() && !state.serving
      ensures state == HandedOver(role, old(state), old(outbound), prepared, target, reach)
      ensures r ==
        if old(outbound) != Some(prepared) then Err(PreparedLost)
        else if reach.Complete? then Ok(GrantIssued(GrantFor(role, old(state), prepared, target)))
        else Err(PublishFailed)
      ensures old(outbound) != Some(prepared) ==> outbound == old(outbound) && stored == old(stored)
      ensures old(outbound) == Some(prepared) ==>
        var g := GrantFor(role, old(state), prepared, target);
        && outbound == OutboundAfter(old(outbound), g, reach)
        && stored == StoredAfter(old(stored), g, reach, shared)
      ensures r.Err? ==> state.progress == Granting(target, prepared)
      ensures r.Ok? ==>
        && outbound.Some? && r.value == GrantIssued(outbound.value) && state.progress == Issued(outbound.value)
        && outbound.value.source == role.node && outbound.value.domains == prepared.domains
        && outbound.value.handoff == Some(Grant(role.node, role.node.Peer(), prepared))
        && state.exported == outbound.value.sequence && old(state).exported < state.exported
        && old(state).applied < state.exported
      ensures state == old(state).(
        exported := state.exported, authoritative := Some(false), serving := false, progress := state.progress)
    {
      state := state.(serving := false);
      state := state.(authoritative := Some(false), progress := Granting(target, prepared));
      var exported := ExportAfterSurrender(prepared, reach);
      if exported.Err? { return Err(exported.error); }
      state := state.(progress := Issued(exported.value));
      return Ok(GrantIssued(exported.value));
    }

    /** One turn of a handoff. What the peer reports decides when the second half begins; authority is asked
        for by the first half only. */
    method ProcessHandoff(domains: Snapshot, peer: NodeId, peerApplied: Option<Payload>, reach: Reach)
      returns (r: Result<Progressed, Failure>)
      modifies this
      ensures !old(state).progress.Requested? && !old(state).progress.WaitingForApply? ==>
        r == Ok(Idle) && unchanged(this)
      ensures old(state).progress.Requested? ==>
        if !old(IsAuthoritative()) then r == Err(NotAuthoritative) && unchanged(this)
        else
          && state == Prepared(role, old(state), old(state).progress.target, domains, reach) && IsAuthoritative()
          && r == (if reach.Complete? then Ok(WaitingForPeer) else Err(PublishFailed))
          && var p := NextPayload(
              role, old(state), domains, Some(Handoff.Prepare(role.node, old(state).progress.target)));
            && outbound == OutboundAfter(old(outbound), p, reach)
            && stored == StoredAfter(old(stored), p, reach, shared)
      ensures old(state).progress.WaitingForApply? ==>
        var target, prepared := old(state).progress.target, old(state).progress.prepared;
        if peer != target then r == Err(WrongPeer) && unchanged(this)
        else if peerApplied != Some(prepared) then r == Ok(WaitingForPeer) && unchanged(this)
        else
          && state == HandedOver(role, old(state), old(outbound), prepared, target, reach)
          && !IsAuthoritative() && !state.serving
          && var g := GrantFor(role, old(state), prepared, target);
            if old(outbound) != Some(prepared) then outbound == old(outbound) && stored == old(stored)
            else
              && outbound == OutboundAfter(old(outbound), g, reach)
              && stored == StoredAfter(old(stored), g, reach, shared)
      ensures r.Ok? && r.value.GrantIssued? ==>
        && old(state).progress.WaitingForApply? && peerApplied == Some(old(state).progress.prepared)
        && r.value.grant.sequence == Known(old(state)) + 1
        && r.value.grant.domains == old(state).progress.prepared.domains
        && r.value.grant.handoff == Some(Grant(role.node, role.node.Peer(), old(state).progress.prepared))
        && outbound == Some(r.value.grant)
        && state.progress == Issued(r.value.grant) && !IsAuthoritative() && !state.serving
    {
      match state.progress
      case Requested(target) => r := Prepare(target, domains, reach);
      case WaitingForApply(target, prepared) =>
        if peer != target { return Err(WrongPeer); }
        if peerApplied != Some(prepared) { return Ok(WaitingForPeer); }
        r := HandOver(target, prepared, reach);
      case _ => return Ok(Idle);
    }

    // ----- Cold standby -----

    /** The last export before a graceful stop; the stopping node keeps its authority. */
    method ExportOnShutdown(domains: Snapshot, hasPeer: bool, reach: Reach)
      returns (r: Option<Result<Payload, Failure>>)
      modifies this
      ensures !old(IsAuthoritative()) ==> r.None? && unchanged(this)
      ensures old(IsAuthoritative()) ==>
        var h := if role.coldStandby && hasPeer then Some(ColdShutdown(role.node, role.node.Peer())) else None;
        var p := NextPayload(role, old(state), domains, h);
        && state == Reserve(old(state), p) && IsAuthoritative()
        && outbound == OutboundAfter(old(outbound), p, reach)
        && stored == StoredAfter(old(stored), p, reach, shared)
        && r == Some(if reach.Complete? then Ok(p) else Err(PublishFailed))
      ensures r.Some? && r.value.Ok? ==>
        var p := r.value.value;
        && p.source == role.node && p.domains == domains
        && p.handoff == (if role.coldStandby && hasPeer then Some(ColdShutdown(role.node, role.node.Peer())) else None)
        && old(state).exported < p.sequence && old(state).applied < p.sequence
        && (p.sequence == old(state).exported + 1 || p.sequence == old(state).applied + 1)
        && outbound == Some(p) && stored == (if shared then Some(p) else old(stored))
        && state == old(state).(exported := p.sequence)
    {
      if !IsAuthoritative() { return None; }
      var h := None;
      if role.coldStandby && hasPeer { h := Some(ColdShutdown(role.node, role.node.Peer())); }
      var exported := ExportNow(domains, h, reach);
      return Some(exported);
    }

    /** Before serving, follow a newer writer: step down, then import what it published. `seen` is what was
        readable at first, `p` what the import reads. */
    method RecoverColdStandby(seen: Option<Payload>, p: Payload, outcome: Outcome, address: bool)
      returns (followed: bool)
      modifies this`state
      ensures followed <==>
        role.coldStandby && seen.Some? && seen.value.source != role.node
        && old(state).exported < seen.value.sequence && old(state).applied < seen.value.sequence
      ensures followed && !IsAuthoritative() ==> !state.serving && state.authoritative == Some(false)
      ensures followed && IsAuthoritative() ==> p.handoff.Some? && !p.handoff.value.Prepare?
      ensures !followed ==> state == old(state)
      ensures followed ==>
        state ==
          AfterImport(ImportBlock(role, StepDown(old(state)), scope, p, Normal, outcome), p.source, access, address)
    {
      if !role.coldStandby || seen.None? { return false; }
      var verdict := VerifiedCandidate(seen.value, Inspect);
      if !verdict.Admitted? { return false; }
      var known := Max(state.applied, state.exported);
      if seen.value.source == role.node || seen.value.sequence <= known { return false; }
      state := state.(authoritative := Some(false), serving := false);
      var imported := ApplyLatest(p, false, outcome, address);
      return true;
    }
  }
}
