/** The data side of a planned handoff: a grant finds its follower already holding everything it carries. */
module HandoffImport {
  import opened Prelude
  import opened Planner
  import opened Reimport
  import opened Handoff
  import opened HandoffRuns

  /** The bundle a node applied last. */
  function LastImport(m: Member): Option<Bundle.Payload> {
    if m.imports == [] then None else Some(m.imports[|m.imports| - 1])
  }

  /** In every reachable state, a grant that is let through plans nothing on a domain that is as the node's
      last import or initialization left it, with the settings that run left. */
  lemma GrantPlansNothing(regime: Regime, c: Cluster, e: Event, name: string, a: Again)
    requires Reachable(regime, c) && Enabled(regime, c, e) && e.move.Import?
    requires ImportResult(c.At(e.node), e).followUp.TakeGrant?
    requires LastImport(c.At(e.node)).Some? && name in LastImport(c.At(e.node)).value.domains
    requires a.Valid() && a.part.incoming == LastImport(c.At(e.node)).value.domains[name]
    requires a.cfg2 == Reloaded(a.part.cfg, a.Created())
    ensures name in e.move.candidate.domains
    ensures var carried := a.Repeat().(incoming := e.move.candidate.domains[name]);
      carried.Accepted() && carried.Plan() == EMPTY
  {
    GrantMovesNoData(regime, c, e);
    ReimportIsNoOp(a);
  }
}
