/** What holds in every reachable state of the two-node protocol, and exactly when. */
module HandoffRuns {
  import opened Prelude
  import opened Bundle
  import opened Engine
  import opened Handoff
  import opened HandoffSafety

  /** Every accepted grant was applied, and no export outlives the authority it checked: operations do not
      overlap, or authority is there when an export takes its sequence. */
  predicate Ordered(regime: Regime) {
    !regime.conflicted && !(regime.concurrent && regime.stale)
  }

  ghost predicate Inductive(regime: Regime, c: Cluster) {
    && SoundCluster(c) && RemembersAll(c)
    && (!regime.concurrent ==> SerialCluster(c))
    && (!regime.conflicted ==> OneToken(c))
    && (Ordered(regime) ==> Ranked(c))
  }

  lemma StartInductive(regime: Regime)
    ensures Inductive(regime, START)
  {
    assert Sound(START, Left) && Sound(START, Right);
    assert Serial(START, Left) && Serial(START, Right);
    forall t | Holds(START, t) ensures t == Reign(Left) {}
    forall n: NodeId ensures ServiceReigns(START, n) && ServiceExports(START, n) {}
  }

  lemma StepInductive(regime: Regime, c: Cluster, e: Event)
    requires Inductive(regime, c) && Enabled(regime, c, e)
    ensures Inductive(regime, Step(c, e, regime))
  {
    StepSound(c, e, regime);
    StepRemembers(c, e, regime);
    if !regime.concurrent { StepSerial(c, e, regime); }
    if !regime.conflicted { StepToken(c, e, regime); }
    if Ordered(regime) {
      if e.move.Export? && !regime.concurrent { assert Serial(c, e.node); }
      StepRanked(c, e, regime);
    }
  }

  lemma {:induction false} RunInductive(regime: Regime, events: seq<Event>, states: seq<Cluster>, i: nat)
    requires Run(regime, events, states) && i < |states|
    ensures Inductive(regime, states[i])
  {
    if i == 0 {
      StartInductive(regime);
    } else {
      RunInductive(regime, events, states, i - 1);
      StepInductive(regime, states[i - 1], events[i - 1]);
    }
  }

  lemma ReachableInductive(regime: Regime, c: Cluster)
    requires Reachable(regime, c)
    ensures Inductive(regime, c)
  {
    var events, states :| Run(regime, events, states) && states[|events|] == c;
    RunInductive(regime, events, states, |events|);
  }

  lemma InductiveSafe(regime: Regime, c: Cluster)
    requires Inductive(regime, c) && !(regime.concurrent && regime.conflicted)
    ensures AtMostOneAuthority(c)
  {
    if regime.concurrent {
      assert Holds(c, Reign(Left)) && Holds(c, Reign(Right)) ==> Reign(Left) == Reign(Right);
    }
  }

  // ----- Main results about single imports -----

  /** A grant is let through only right after its prepare was applied, and carries the same data. */
  lemma GrantMovesNoData(regime: Regime, c: Cluster, e: Event)
    requires Reachable(regime, c) && Enabled(regime, c, e) && e.move.Import?
    requires ImportResult(c.At(e.node), e).followUp.TakeGrant?
    ensures var m, g := c.At(e.node), e.move.candidate;
      && GrantTo(g, e.node) && Known(m.state) < g.sequence
      && m.imports != [] && m.imports[|m.imports| - 1] == g.handoff.value.prepared
      && m.imports[|m.imports| - 1].domains == g.domains
      && m.imports[|m.imports| - 1].source == g.source
  {
    ReachableInductive(regime, c);
    GrantIsNew(c.At(e.node), e);
    assert Remembers(c.At(e.node));
    assert GoodGrant(c, e.move.candidate);
  }

  /** A grant its target has not overtaken comes from a node without authority. */
  lemma GrantIssuerIsPassive(regime: Regime, c: Cluster, g: Payload, n: NodeId)
    requires Reachable(regime, c) && !(regime.concurrent && regime.conflicted)
    requires InFlight(c, g, n)
    ensures !Auth(c, n.Peer())
  {
    ReachableInductive(regime, c);
    if regime.concurrent {
      assert Holds(c, Flying(g, n));
      assert Holds(c, Reign(n.Peer())) ==> Reign(n.Peer()) == Flying(g, n);
    } else {
      assert Serial(c, n);
    }
  }

  lemma RunStepHistory(regime: Regime, events: seq<Event>, states: seq<Cluster>, j: nat, n: NodeId)
    requires Run(regime, events, states) && 0 < j < |states|
    ensures NoReplay(states[j].At(n).imports)
    ensures states[j - 1].At(n).state.applied <= states[j].At(n).state.applied
    ensures states[j - 1].At(n).imports <= states[j].At(n).imports
  {
    RunInductive(regime, events, states, j - 1);
    StepHistory(regime, states[j - 1], events[j - 1], n);
  }

  /** Applied sequences never go back, and no node applies two bundles under one sequence. */
  lemma {:induction false} ReplaySafety(
    regime: Regime, events: seq<Event>, states: seq<Cluster>, i: nat, j: nat, n: NodeId)
    requires Run(regime, events, states) && i <= j < |states|
    ensures NoReplay(states[j].At(n).imports)
    ensures states[i].At(n).state.applied <= states[j].At(n).state.applied
    ensures states[i].At(n).imports <= states[j].At(n).imports
    decreases j - i
  {
    if i < j {
      ReplaySafety(regime, events, states, i, j - 1, n);
      RunStepHistory(regime, events, states, j, n);
    } else if j == 0 {
      assert states[0] == START;
    } else {
      RunStepHistory(regime, events, states, j, n);
    }
  }

  lemma StepHistory(regime: Regime, c: Cluster, e: Event, n: NodeId)
    requires Inductive(regime, c) && Enabled(regime, c, e)
    ensures var c' := Step(c, e, regime);
      && NoReplay(c'.At(n).imports)
      && c.At(n).state.applied <= c'.At(n).state.applied
      && c.At(n).imports <= c'.At(n).imports
  {
    StepRemembers(c, e, regime);
    if !e.move.Import? { StepKeepsHistory(c, e, regime); }
  }

  /** Every bundle a run imports is newer than all its node exported or applied, or the last one applied. */
  lemma ImportsAreNew(regime: Regime, c: Cluster, e: Event)
    requires Reachable(regime, c) && Enabled(regime, c, e)
    requires c.At(e.node).imports != Step(c, e, regime).At(e.node).imports
    ensures e.move.Import?
    ensures var m := c.At(e.node);
      || Known(m.state) < e.move.candidate.sequence
      || (m.imports != [] && m.imports[|m.imports| - 1] == e.move.candidate)
  {
    ReachableInductive(regime, c);
    if !e.move.Import? {
      StepKeepsHistory(c, e, regime);
    } else {
      assert Sound(c, e.node) && GoodOp(c, e.node, e.actor, c.At(e.node).ops[e.actor]);
      ImportIsNew(c.At(e.node), e);
      assert Remembers(c.At(e.node));
    }
  }

  // ----- What the bundles of a run carry -----

  /** An export adds one bundle: the rows exported and the handoff of its operation, under the next sequence. */
  lemma ExportCarries(regime: Regime, c: Cluster, e: Event)
    requires Enabled(regime, c, e) && e.move.Export?
    ensures var c' := Step(c, e, regime);
      && |c'.exports| == |c.exports| + 1 && c'.exports[..|c.exports|] == c.exports
      && var p, st := c'.exports[|c.exports|], c.At(e.node).state;
        && p.source == e.node && p.domains == e.move.domains
        && p.handoff == c.At(e.node).ops[e.actor].handoff
        && st.exported < p.sequence && st.applied < p.sequence
        && (p.sequence == st.exported + 1 || p.sequence == st.applied + 1)
        && c'.At(e.node).state == st.(exported := p.sequence)
        && (p in c'.published <==> !e.move.reach.Reserved? || p in c.published)
  {
  }

  /** So does a grant: the rows of the preparation it names. */
  lemma GrantCarries(regime: Regime, c: Cluster, e: Event)
    requires Enabled(regime, c, e) && e.move.SendGrant?
    requires c.At(e.node).outbound == Some(c.At(e.node).ops[e.actor].prepared)
    ensures var c', prepared := Step(c, e, regime), c.At(e.node).ops[e.actor].prepared;
      && |c'.exports| == |c.exports| + 1 && c'.exports[..|c.exports|] == c.exports
      && var g, st := c'.exports[|c.exports|], c.At(e.node).state;
        && g.source == e.node && g.domains == prepared.domains
        && g.handoff == Some(Grant(e.node, e.node.Peer(), prepared))
        && st.exported < g.sequence && st.applied < g.sequence
        && (g.sequence == st.exported + 1 || g.sequence == st.applied + 1)
  {
  }

  /** A bundle the database takes is remembered with its scope, and taken again at once only by force under
      that scope, or without force under another. */
  lemma TakenAgain(regime: Regime, c: Cluster, e: Event, scope: Scope, mode: Mode)
    requires Enabled(regime, c, e) && e.move.Import? && ImportResult(c.At(e.node), e).taken && !mode.Inspect?
    ensures var st, p := Step(c, e, regime).At(e.node).state, e.move.candidate;
      && st.applied == p.sequence && st.appliedHash == Some(p)
      && st.appliedScope == Some(e.move.scope) && st.source == Some(p.source)
      && (Admit(RoleOf(e.node), st, scope, p, mode).Admitted? <==> (mode.Force? <==> scope == e.move.scope))
  {
  }
}
