/** Uninterrupted calls: each method of the engine, run through, is a sequence of enabled steps of the
    two-node machine, and ends in the state the method promises, wherever publication stops and however the
    database import ends. */
module HandoffCalls {
  import opened Prelude
  import opened Bundle
  import opened Engine
  import opened Handoff
  import Replication

  /** The cluster after some events, if each is enabled in its turn. */
  function After(regime: Regime, c: Cluster, events: seq<Event>): Option<Cluster> {
    if events == [] then Some(c)
    else
      var n := |events| - 1;
      match After(regime, c, events[..n])
      case None => None
      case Some(c1) => if Enabled(regime, c1, events[n]) then Some(Step(c1, events[n], regime)) else None
  }

  lemma Then(regime: Regime, c: Cluster, events: seq<Event>, c1: Cluster, e: Event)
    requires After(regime, c, events) == Some(c1) && Enabled(regime, c1, e)
    ensures After(regime, c, events + [e]) == Some(Step(c1, e, regime))
  {
    assert (events + [e])[..|events|] == events;
  }

  // ----- What the calls leave -----

  /** A node publishes a bundle, as far as it gets, and goes on in a new state. */
  function Published(c: Cluster, n: NodeId, st: NodeState, p: Payload, reach: Reach): Cluster {
    c.With(n, c.At(n).(state := st, outbound := if reach.Reserved? then c.At(n).outbound else Some(p))).(
      exports := c.exports + [p], published := if reach.Reserved? then c.published else c.published + {p})
  }

  function Exported(c: Cluster, n: NodeId, domains: Snapshot, reach: Reach): Cluster {
    var p := NextPayload(RoleOf(n), c.At(n).state, domains, None);
    Published(c, n, Reserve(c.At(n).state, p), p, reach)
  }

  function Preparation(c: Cluster, n: NodeId, domains: Snapshot): Payload {
    NextPayload(RoleOf(n), c.At(n).state, domains, Some(Prepare(n, n.Peer())))
  }

  function Prepared(c: Cluster, n: NodeId, domains: Snapshot, reach: Reach): Cluster {
    Published(
      c, n, Replication.Prepared(RoleOf(n), c.At(n).state, n.Peer(), domains, reach),
      Preparation(c, n, domains), reach)
  }

  function GrantOf(c: Cluster, n: NodeId, prepared: Payload): Payload {
    Replication.GrantFor(RoleOf(n), c.At(n).state, prepared, n.Peer())
  }

  function HandedOver(c: Cluster, n: NodeId, prepared: Payload, reach: Reach): Cluster {
    var m := c.At(n);
    var st := Replication.HandedOver(RoleOf(n), m.state, m.outbound, prepared, n.Peer(), reach);
    if m.outbound != Some(prepared) then c.With(n, m.(state := st))
    else Published(c, n, st, GrantOf(c, n, prepared), reach)
  }

  function Taken(m: Member, p: Payload, i: Import): seq<Payload> {
    if i.taken then m.imports + [p] else m.imports
  }

  function Applied(
    c: Cluster, n: NodeId, p: Payload, mode: Mode, scope: Scope, outcome: Outcome,
    access: Replication.Access, address: bool): Cluster
  {
    var m := c.At(n);
    var i := ImportBlock(RoleOf(n), m.state, scope, p, mode, outcome);
    c.With(n, m.(state := Replication.AfterImport(i, p.source, access, address), imports := Taken(m, p, i)))
  }

  // ----- The calls -----

  lemma AtOnce(regime: Regime, c: Cluster)
    ensures After(regime, c, []) == Some(c)
  {
  }

  /** An operation begins, on a node that may begin it, with a local step. */
  lemma Begins(regime: Regime, c: Cluster, e: Event, pc: Pc)
    requires Enabled(regime, c, e) && !e.move.Export? && !e.move.SendGrant?
    requires e.actor !in c.At(e.node).ops
    requires Local(c.At(e.node), e) == Begin(c.At(e.node), e.actor, pc)
    ensures var c1 := c.With(e.node, Begin(c.At(e.node), e.actor, pc));
      After(regime, c, [e]) == Some(c1) && c1.At(e.node).ops - {e.actor} == c.At(e.node).ops
  {
    AtOnce(regime, c);
    Then(regime, c, [], c, e);
    assert [] + [e] == [e];
    assert c.At(e.node).ops[e.actor := pc] - {e.actor} == c.At(e.node).ops;
  }

  /** `export_now`, published as far as it gets. */
  lemma ExportCall(regime: Regime, c: Cluster, n: NodeId, a: Actor, domains: Snapshot, reach: Reach)
    returns (events: seq<Event>)
    requires MayBegin(regime, c.At(n), a) && Auth(c, n)
    ensures After(regime, c, events) == Some(Exported(c, n, domains, reach))
  {
    hide After;
    var e1, e2 := Event(n, a, BeginExport), Event(n, a, Export(domains, reach));
    Begins(regime, c, e1, ExportReady(None));
    var c1 := c.With(n, Begin(c.At(n), a, ExportReady(None)));
    Then(regime, c, [e1], c1, e2);
    events := [e1] + [e2];
  }

  /** `request_handoff`, by anyone but the service. */
  lemma RequestCall(regime: Regime, c: Cluster, n: NodeId, a: Actor) returns (events: seq<Event>)
    requires MayBegin(regime, c.At(n), a) && Auth(c, n) && a != SERVICE && MayRequest(c.At(n).state)
    ensures After(regime, c, events) ==
      Some(c.With(n, c.At(n).(state := c.At(n).state.(progress := Requested(n.Peer())))))
  {
    hide After;
    var e1, e2 := Event(n, a, BeginRequest), Event(n, a, Request);
    Begins(regime, c, e1, RequestReady);
    Then(regime, c, [e1], c.With(n, Begin(c.At(n), a, RequestReady)), e2);
    events := [e1] + [e2];
  }

  /** The client endpoint is switched off anywhere, and on by the authority, whatever else is going on. */
  lemma ServingCall(regime: Regime, c: Cluster, n: NodeId, a: Actor, ready: bool) returns (events: seq<Event>)
    requires ready ==> Auth(c, n)
    ensures After(regime, c, events) == Some(c.With(n, c.At(n).(state := c.At(n).state.(serving := ready))))
  {
    events := [] + [Event(n, a, SetServing(ready))];
    AtOnce(regime, c);
    Then(regime, c, [], c, Event(n, a, SetServing(ready)));
  }

  /** The first half of `process_handoff`. */
  lemma PrepareCall(regime: Regime, c: Cluster, n: NodeId, domains: Snapshot, reach: Reach)
    returns (events: seq<Event>)
    requires MayBegin(regime, c.At(n), SERVICE) && Auth(c, n) && c.At(n).state.progress.Requested?
    ensures After(regime, c, events) == Some(Prepared(c, n, domains, reach))
  {
    hide After;
    var m, p := c.At(n), Preparation(c, n, domains);
    var pc := ExportReady(Some(Prepare(n, n.Peer())));
    var e1, e2 := Event(n, SERVICE, BeginPrepare), Event(n, SERVICE, Export(domains, reach));
    Begins(regime, c, e1, pc);
    var c1 := c.With(n, Begin(m, SERVICE, pc));
    Then(regime, c, [e1], c1, e2);
    events := [e1] + [e2];
    if reach.Complete? {
      var c2, e3 := Step(c1, e2, regime), Event(n, SERVICE, RecordPrepare);
      assert c2.At(n).ops == m.ops[SERVICE := pc][SERVICE := PrepareSent(p)];
      assert c2.At(n).ops - {SERVICE} == m.ops;
      Then(regime, c, events, c2, e3);
      events := events + [e3];
    }
  }

  /** The cluster once a service has fenced its endpoint and given up authority. */
  function GivenUp(c: Cluster, n: NodeId, p: Payload): Cluster {
    c.With(n, c.At(n).(
      state := Replication.GivenUp(c.At(n).state, p, n.Peer()), ops := c.At(n).ops[SERVICE := Surrendered(p)]))
  }

  /** The peer is seen to have applied the preparation; the endpoint goes first, authority second. */
  lemma SurrenderSteps(regime: Regime, c: Cluster, n: NodeId, p: Payload) returns (events: seq<Event>)
    requires MayBegin(regime, c.At(n), SERVICE) && Auth(c, n)
    requires c.At(n).state.progress == WaitingForApply(n.Peer(), p) && c.At(n.Peer()).state.appliedHash == Some(p)
    ensures After(regime, c, events) == Some(GivenUp(c, n, p))
  {
    hide After;
    var m := c.At(n);
    var e1, e2, e3 := Event(n, SERVICE, Confirm), Event(n, SERVICE, Fence), Event(n, SERVICE, GiveUp);
    Begins(regime, c, e1, Confirmed(p));
    var c1 := c.With(n, Begin(m, SERVICE, Confirmed(p)));
    Then(regime, c, [e1], c1, e2);
    var c2 := c.With(n, m.(state := m.state.(serving := false), ops := m.ops[SERVICE := Fenced(p)]));
    assert m.ops[SERVICE := Confirmed(p)][SERVICE := Fenced(p)] == m.ops[SERVICE := Fenced(p)];
    assert Step(c1, e2, regime) == c2;
    Then(regime, c, [e1] + [e2], c2, e3);
    assert m.ops[SERVICE := Fenced(p)][SERVICE := Surrendered(p)] == m.ops[SERVICE := Surrendered(p)];
    events := [e1] + [e2] + [e3];
  }

  /** The second half of `process_handoff`. */
  lemma HandOverCall(regime: Regime, c: Cluster, n: NodeId, p: Payload, reach: Reach) returns (events: seq<Event>)
    requires MayBegin(regime, c.At(n), SERVICE) && Auth(c, n)
    requires c.At(n).state.progress == WaitingForApply(n.Peer(), p) && c.At(n.Peer()).state.appliedHash == Some(p)
    ensures After(regime, c, events) == Some(HandedOver(c, n, p, reach))
  {
    hide After;
    var m, g := c.At(n), GrantOf(c, n, p);
    var before := SurrenderSteps(regime, c, n, p);
    var c1, e1 := GivenUp(c, n, p), Event(n, SERVICE, SendGrant(reach));
    assert c1.At(n).ops - {SERVICE} == m.ops;
    Then(regime, c, before, c1, e1);
    events := before + [e1];
    if m.outbound == Some(p) && reach.Complete? {
      var c2, e2 := Step(c1, e1, regime), Event(n, SERVICE, RecordGrant);
      assert c2.At(n).ops == c1.At(n).ops[SERVICE := GrantSent(g)];
      assert c2.At(n).ops - {SERVICE} == m.ops;
      Then(regime, c, events, c2, e2);
      events := events + [e2];
    }
  }

  // ----- Imports -----

  /** The import steps up to the acceptance of a grant. */
  function AfterBlock(c: Cluster, n: NodeId, p: Payload, i: Import): Member {
    c.At(n).(state := i.state, imports := Taken(c.At(n), p, i))
  }

  lemma ImportSteps(
    regime: Regime, c: Cluster, n: NodeId, a: Actor, p: Payload, mode: Mode, scope: Scope, outcome: Outcome)
    returns (events: seq<Event>)
    requires MayBegin(regime, c.At(n), a) && !Auth(c, n) && !mode.Inspect? && p in c.published
    requires var i := ImportBlock(RoleOf(n), c.At(n).state, scope, p, mode, outcome);
      regime.conflicted || !(outcome.Conflicted? && i.followUp.TakeGrant?)
    ensures var i := ImportBlock(RoleOf(n), c.At(n).state, scope, p, mode, outcome);
      var m := AfterBlock(c, n, p, i);
      After(regime, c, events) == Some(c.With(n,
        if i.followUp.TakeGrant? then m.(ops := m.ops[a := AcceptReady(p)]) else m))
  {
    hide After, ImportBlock;
    var m := c.At(n);
    var e1, e2 := Event(n, a, BeginApply(mode)), Event(n, a, Move.Import(p, scope, outcome));
    Begins(regime, c, e1, ApplyReady(mode));
    var c1 := c.With(n, Begin(m, a, ApplyReady(mode)));
    Then(regime, c, [e1], c1, e2);
    events := [e1] + [e2];
    assert m.ops[a := ApplyReady(mode)][a := AcceptReady(p)] == m.ops[a := AcceptReady(p)];
  }

  /** A waiting grant is accepted, and the endpoint enabled as the kind of client access allows. */
  lemma AcceptSteps(
    regime: Regime, c: Cluster, n: NodeId, a: Actor, m: Member, g: Payload, access: Replication.Access, address: bool)
    returns (events: seq<Event>)
    requires a !in m.ops && c.At(n) == m.(ops := m.ops[a := AcceptReady(g)])
    ensures After(regime, c, events) ==
      Some(c.With(n, m.(state := Replication.Serving(AcceptGrant(m.state, g.source), access, address))))
  {
    hide After;
    var e1 := Event(n, a, Accept);
    var e2 := Event(n, a, match access
      case PluginVip => if address then Serve(true) else Abort
      case ExternalProxy => Serve(true)
      case NoAccess => Serve(false));
    AtOnce(regime, c);
    Then(regime, c, [], c, e1);
    var c1 := Step(c, e1, regime);
    assert c1.At(n).ops == m.ops[a := AcceptReady(g)][a := ServeReady];
    assert c1.At(n).ops - {a} == m.ops;
    Then(regime, c, [] + [e1], c1, e2);
    events := [] + [e1] + [e2];
  }

  lemma {:induction false} Joined(regime: Regime, c: Cluster, before: seq<Event>, c1: Cluster, events: seq<Event>)
    requires After(regime, c, before) == Some(c1)
    ensures After(regime, c, before + events) == After(regime, c1, events)
  {
    if events == [] {
      assert before + events == before;
    } else {
      var n := |events| - 1;
      Joined(regime, c, before, c1, events[..n]);
      assert (before + events)[..|before| + n] == before + events[..n];
    }
  }

  /** `apply_latest`, forced or not, and `initialize_follower`: with any outcome of the database import, the
      handoff carried out. */
  lemma ApplyCall(
    regime: Regime, c: Cluster, n: NodeId, a: Actor, p: Payload, mode: Mode, scope: Scope, outcome: Outcome,
    access: Replication.Access, address: bool) returns (events: seq<Event>)
    requires MayBegin(regime, c.At(n), a) && !Auth(c, n) && !mode.Inspect? && p in c.published
    requires var i := ImportBlock(RoleOf(n), c.At(n).state, scope, p, mode, outcome);
      regime.conflicted || !(outcome.Conflicted? && i.followUp.TakeGrant?)
    ensures After(regime, c, events) == Some(Applied(c, n, p, mode, scope, outcome, access, address))
  {
    hide After;
    var i := ImportBlock(RoleOf(n), c.At(n).state, scope, p, mode, outcome);
    var m := AfterBlock(c, n, p, i);
    events := ImportSteps(regime, c, n, a, p, mode, scope, outcome);
    assert !i.followUp.TakeOver?;
    if i.followUp.TakeGrant? {
      var c1 := c.With(n, m.(ops := m.ops[a := AcceptReady(p)]));
      var rest := AcceptSteps(regime, c1, n, a, m, p, access, address);
      Joined(regime, c, events, c1, rest);
      events := events + rest;
    }
  }
}
