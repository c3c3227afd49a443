/** The import of all domains: plan each, stop at any conflict, else apply the plans in one transaction. */
module DomainImport {
  import opened Prelude
  import opened Records
  import opened Planner
  import opened Transaction
  import opened ImportSafety
  import opened Domains
  import Bundle

  /** A listing of a stored table: the database keeps its keys unique and its columns complete. */
  ghost predicate Stored(spec: Spec, current: seq<Row>, t: Table) {
    && Lists(current, t) && DistinctKeys(current, Keys(spec))
    && forall k :: 0 <= k < |current| ==> current[k].cols.Keys == spec.columns
  }

  /** A conflict-free import of one domain, and the goal its transaction reaches. */
  ghost predicate CleanImport(spec: Spec, cfg: Settings, current: seq<Row>, incoming: seq<Row>, g: Goal) {
    && Stored(spec, current, g.current)
    && Acceptable(spec, cfg, current, incoming)
    && g.desired == ById(Aim(spec, cfg, current, incoming)) && g.prune == cfg.prune
    && DomainPlan(spec, cfg, current, incoming).conflicts == []
  }

  // ----- Conflict-free plans -----

  lemma {:induction false} NoneLocked(rows: seq<Row>, ids: set<int>)
    requires LockedRows(rows, ids) == []
    ensures WithoutRows(rows, ids) == rows
  {
    if rows != [] { NoneLocked(rows[..|rows| - 1], ids); }
  }

  lemma {:induction false} NoneLockedUpdates(updates: seq<Update>, ids: set<int>)
    requires LockedUpdates(updates, ids) == []
    ensures WithoutUpdates(updates, ids) == updates
  {
    if updates != [] { NoneLockedUpdates(updates[..|updates| - 1], ids); }
  }

  /** Without conflicts nothing was held back or locked: the plan is the planner's own. */
  lemma CleanDomainPlan(spec: Spec, cfg: Settings, current: seq<Row>, incoming: seq<Row>)
    requires DomainPlan(spec, cfg, current, incoming).conflicts == []
    ensures var plan := PlanOf(current, Aim(spec, cfg, current, incoming), spec.natural, Keys(spec), cfg.prune);
      plan == DomainPlan(spec, cfg, current, incoming) && plan.conflicts == []
    ensures Blocked(cfg, current, incoming) == []
  {
    var plan := PlanOf(current, Aim(spec, cfg, current, incoming), spec.natural, Keys(spec), cfg.prune);
    var blocked, locked := Blocked(cfg, current, incoming), LockedIds(spec, current);
    var held := HoldBack(plan, blocked);
    assert |held.conflicts| == |plan.conflicts| + |blocked|;
    assert |held.conflicts| <= |Guard(held, locked).conflicts|;
    assert (set x | x in blocked) == {};
    WithoutNone(plan.create);
    NoneLocked(held.delete, locked);
    NoneLockedUpdates(held.update, locked);
  }

  lemma ImportIsPlanned(spec: Spec, cfg: Settings, current: seq<Row>, incoming: seq<Row>, g: Goal)
    requires CleanImport(spec, cfg, current, incoming, g)
    ensures Planned(current, Aim(spec, cfg, current, incoming), Keys(spec), g)
    ensures Keyed(g.current) && Keyed(g.desired)
  {
    IndexRows(current);
    IndexRows(Aim(spec, cfg, current, incoming));
  }

  /** The import reaches its goal, and leaves every key unique. */
  lemma ImportReaches(spec: Spec, cfg: Settings, current: seq<Row>, incoming: seq<Row>, g: Goal)
    requires CleanImport(spec, cfg, current, incoming, g)
    ensures Fits(DomainPlan(spec, cfg, current, incoming), g)
    ensures UniqueKeys(Final(g), Keys(spec))
    ensures forall key :: key in Keys(spec) ==>
      Compatible(g, key) && UniqueKey(g.current, key) && UniqueKey(g.desired, key)
  {
    var aim := Aim(spec, cfg, current, incoming);
    CleanDomainPlan(spec, cfg, current, incoming);
    ImportIsPlanned(spec, cfg, current, incoming, g);
    PlanFits(current, aim, spec.natural, Keys(spec), g);
    forall key | key in Keys(spec)
      ensures Compatible(g, key) && UniqueKey(g.current, key) && UniqueKey(g.desired, key) && UniqueKey(Final(g), key)
    {
      CleanPlanCompatible(current, aim, spec.natural, Keys(spec), g, key);
      MixtureUnique(g, Final(g), key);
    }
  }

  // ----- What an import leaves alone, and what it admits -----

  /** A protected stored row is desired as it is. */
  lemma ProtectedDesired(spec: Spec, cfg: Settings, current: seq<Row>, incoming: seq<Row>, t: Table, i: int)
    requires Lists(current, t) && DistinctIds(incoming) && i in t && i in cfg.protected
    ensures var d := ById(Desired(spec, cfg, current, incoming)); i in d && d[i] == t[i]
  {
    hide Desired, ById, Overridden, Admitted, Spared;
    var rows := Desired(spec, cfg, current, incoming);
    DesiredDistinct(spec, cfg, current, incoming);
    IndexRows(incoming);
    IndexRows(current);
    if i in ById(incoming) {
      var k :| 0 <= k < |incoming| && incoming[k] == ById(incoming)[i];
      DesiredAt(spec, cfg, current, incoming, k);
      ShelteredIsStored(cfg, t, Overridden(spec, cfg, incoming[k]));
      DistinctById(rows, k);
    } else {
      SparedRows(cfg, current, ById(incoming), t[i]);
      var k := SparedIndex(spec, cfg, current, incoming, t[i]);
      DistinctById(rows, k);
    }
  }

  lemma ShelteredIsStored(cfg: Settings, t: Table, r: Row)
    requires Keyed(t) && r.id in t && r.id in cfg.protected
    ensures Prepared(cfg, t, r) == t[r.id]
  {
  }

  lemma {:induction false} NotLocked(updates: seq<Update>, ids: set<int>, u: Update)
    requires LockedUpdates(updates, ids) == [] && u in updates
    ensures u.id !in ids
  {
    var n := |updates| - 1;
    if u in updates[..n] { NotLocked(updates[..n], ids, u); }
  }

  lemma {:induction false} NotLockedRow(rows: seq<Row>, ids: set<int>, r: Row)
    requires LockedRows(rows, ids) == [] && r in rows
    ensures r.id !in ids
  {
    var n := |rows| - 1;
    if r in rows[..n] { NotLockedRow(rows[..n], ids, r); }
  }

  lemma CleanLeavesLocked(spec: Spec, cfg: Settings, current: seq<Row>, incoming: seq<Row>)
    requires DomainPlan(spec, cfg, current, incoming).conflicts == []
    ensures var plan, locked := DomainPlan(spec, cfg, current, incoming), LockedIds(spec, current);
      LockedUpdates(plan.update, locked) == [] && LockedRows(plan.delete, locked) == []
  {
    CleanDomainPlan(spec, cfg, current, incoming);
  }

  /** A conflict-free import leaves every row locked in its column as it is. */
  lemma LockedKept(spec: Spec, cfg: Settings, current: seq<Row>, incoming: seq<Row>, g: Goal, i: int)
    requires CleanImport(spec, cfg, current, incoming, g) && i in g.current && HasLock(spec, g.current[i])
    ensures i in Final(g) && Final(g)[i] == g.current[i]
  {
    IndexRows(current);
    LockedExactly(spec, current);
    assert LockedRow(spec, current, i);
    hide HasLock, LockedIds;
    var plan, locked := DomainPlan(spec, cfg, current, incoming), LockedIds(spec, current);
    CleanLeavesLocked(spec, cfg, current, incoming);
    ImportReaches(spec, cfg, current, incoming, g);
    if i in g.desired && g.current[i] != g.desired[i] {
      var u :| u in plan.update && u.id == i;
      NotLocked(plan.update, locked, u);
    }
    if i !in g.desired && g.prune {
      var r :| r in plan.delete && r.id == i;
      NotLockedRow(plan.delete, locked, r);
    }
  }

  /** A conflict-free import leaves every protected row as it is, whether or not Main carries it. */
  lemma ProtectedKept(spec: Spec, cfg: Settings, current: seq<Row>, incoming: seq<Row>, g: Goal, i: int)
    requires CleanImport(spec, cfg, current, incoming, g) && !spec.surrogate
    requires i in g.current && i in cfg.protected
    ensures i in Final(g) && Final(g)[i] == g.current[i]
  {
    ProtectedDesired(spec, cfg, current, incoming, g.current, i);
  }

  /** A row that is the same before and after is the same in between. */
  lemma UntouchedBetween(goals: seq<Goal>, s: Tables, d: nat, i: int)
    requires Between(goals, s) && d < |goals| && i in goals[d].current
    requires i in Final(goals[d]) && Final(goals[d])[i] == goals[d].current[i]
    ensures d < |s| && i in s[d] && s[d][i] == goals[d].current[i]
  {
  }

  lemma {:induction false} NoneNew(t: Table, rows: seq<Row>, r: Row)
    requires NewIds(t, rows) == [] && r in rows
    ensures r.id in t
  {
    var n := |rows| - 1;
    if r in rows[..n] { NoneNew(t, rows[..n], r); }
  }

  /** An incoming row the follower lacks is prepared disabled under the disabling policy. */
  lemma PreparedDisabled(spec: Spec, cfg: Settings, current: seq<Row>, incoming: seq<Row>, k: nat)
    requires k < |incoming| && incoming[k].id !in ById(current) && cfg.policy == Some(Disabled)
    ensures var r := Desired(spec, cfg, current, incoming)[k];
      "is_active" in r.cols && r.cols["is_active"] == Flag(false)
  {
  }

  /** An id to be created comes from the bundle. */
  lemma NewIsIncoming(spec: Spec, cfg: Settings, current: seq<Row>, incoming: seq<Row>, k: nat)
    requires k < |Desired(spec, cfg, current, incoming)|
    requires Desired(spec, cfg, current, incoming)[k].id !in ById(current)
    ensures k < |incoming| && incoming[k].id == Desired(spec, cfg, current, incoming)[k].id
  {
    hide Desired, ById;
    if k < |incoming| {
      DesiredIdAt(spec, cfg, current, incoming, k);
    } else {
      SparedAt(spec, cfg, current, incoming, k);
    }
  }

  /** Records the follower lacks are created only as the policy allows: disabled under the disabling
      policy, and not at all under the blocking one. */
  lemma NewRecordsFollowPolicy(spec: Spec, cfg: Settings, current: seq<Row>, incoming: seq<Row>, g: Goal, i: int)
    requires CleanImport(spec, cfg, current, incoming, g) && !spec.surrogate
    requires i in g.desired && i !in g.current
    ensures i in ById(incoming) && cfg.policy != Some(Block)
    ensures cfg.policy == Some(Disabled) ==>
      "is_active" in g.desired[i].cols && g.desired[i].cols["is_active"] == Flag(false)
  {
    var rows := Desired(spec, cfg, current, incoming);
    CleanDomainPlan(spec, cfg, current, incoming);
    IndexRows(rows);
    IndexRows(incoming);
    var k :| 0 <= k < |rows| && rows[k] == g.desired[i];
    NewIsIncoming(spec, cfg, current, incoming, k);
    if cfg.policy == Some(Disabled) { PreparedDisabled(spec, cfg, current, incoming, k); }
    if cfg.policy == Some(Block) {
      SameMembers(incoming, incoming[k]);
      NoneNew(ById(current), SortById(incoming), incoming[k]);
    }
  }

  // ----- The import -----

  function GoalOf(spec: Spec, cfg: Settings, current: seq<Row>, incoming: seq<Row>): Goal {
    Goal(ById(current), ById(Aim(spec, cfg, current, incoming)), cfg.prune)
  }

  datatype Report = Rejected | Conflicts | Applied

  /** One domain of an import: its specification and settings, the rows stored and the rows of the bundle. */
  datatype Part = Part(spec: Spec, cfg: Settings, current: seq<Row>, incoming: seq<Row>) {
    predicate Accepted() { Acceptable(spec, cfg, current, incoming) }
    function Plan(): Plan { DomainPlan(spec, cfg, current, incoming) }
    function Goal(): Goal { GoalOf(spec, cfg, current, incoming) }
    ghost predicate Clean() { CleanImport(spec, cfg, current, incoming, Goal()) }
  }

  /** A part without conflicts has a plan that fits its goal. */
  lemma PartFits(part: Part, t: Table)
    requires Stored(part.spec, part.current, t) && part.Accepted() && part.Plan().conflicts == []
    ensures part.Clean() && Fits(part.Plan(), part.Goal()) && part.Goal().current == t
  {
    ImportReaches(part.spec, part.cfg, part.current, part.incoming, part.Goal());
  }

  /** Every key of every domain is unique. */
  ghost predicate AllUnique(parts: seq<Part>, s: Tables) {
    |s| == |parts| && forall d :: 0 <= d < |parts| ==> UniqueKeys(s[d], Keys(parts[d].spec))
  }

  function Goals(parts: seq<Part>): seq<Goal> {
    seq(|parts|, d requires 0 <= d < |parts| => parts[d].Goal())
  }

  lemma StatesUnique(parts: seq<Part>, s: Tables)
    requires forall d :: 0 <= d < |parts| ==> parts[d].Clean()
    requires Between(Goals(parts), s)
    ensures AllUnique(parts, s)
  {
    forall d, key | 0 <= d < |parts| && key in Keys(parts[d].spec) ensures UniqueKey(s[d], key) {
      ImportReaches(parts[d].spec, parts[d].cfg, parts[d].current, parts[d].incoming, parts[d].Goal());
      BetweenUnique(Goals(parts), s, d, key);
    }
  }

  predicate AllListed(parts: seq<Part>) {
    forall d :: 0 <= d < |parts| ==> DistinctIds(parts[d].current)
  }

  function PlanOrRefuse(part: Part): Option<Plan> {
    if part.Accepted() then Some(part.Plan()) else None
  }

  lemma AllPlanned(parts: seq<Part>, out: seq<Plan>)
    requires |out| == |parts| && forall d :: 0 <= d < |parts| ==> PlanOrRefuse(parts[d]) == Some(out[d])
    ensures AllAccepted(parts) && out == Plans(parts)
  {
  }

  lemma OneRefused(parts: seq<Part>, d: nat)
    requires d < |parts| && PlanOrRefuse(parts[d]).None?
    ensures !AllAccepted(parts)
  {
    assert !parts[d].Accepted();
  }

  method PlanPart(part: Part) returns (plan: Option<Plan>)
    requires DistinctIds(part.current)
    ensures plan == PlanOrRefuse(part)
  {
    plan := PlanDomain(part.spec, part.cfg, part.current, part.incoming);
  }

  /** Plan every domain, in order, or refuse the rows of one. */
  method PlanParts(parts: seq<Part>) returns (plans: Option<seq<Plan>>)
    requires AllListed(parts)
    ensures plans.Some? <==> AllAccepted(parts)
    ensures plans.Some? ==> plans.value == Plans(parts)
  {
    hide PlanOrRefuse;
    hide AllAccepted;
    var out: seq<Plan> := [];
    for d := 0 to |parts|
      invariant |out| == d && forall e :: 0 <= e < d ==> PlanOrRefuse(parts[e]) == Some(out[e])
    {
      var plan := PlanPart(parts[d]);
      if plan.None? {
        OneRefused(parts, d);
        return None;
      }
      out := out + [plan.value];
    }
    AllPlanned(parts, out);
    return Some(out);
  }

  // ----- A bundle and the follower it comes to -----

  /** One domain of the follower: its name, its specification and settings, and the rows stored. */
  datatype Local = Local(name: string, spec: Spec, cfg: Settings, current: seq<Row>)

  function Names(locals: seq<Local>): set<string> {
    set d | 0 <= d < |locals| :: locals[d].name
  }

  /** A bundle carries exactly the configured domains. */
  predicate InScope(locals: seq<Local>, bundle: Bundle.Snapshot) {
    bundle.Keys == Names(locals)
  }

  function PartOf(local: Local, bundle: Bundle.Snapshot): Part {
    Part(local.spec, local.cfg, local.current, if local.name in bundle then bundle[local.name] else [])
  }

  function Parts(locals: seq<Local>, bundle: Bundle.Snapshot): seq<Part> {
    seq(|locals|, d requires 0 <= d < |locals| => PartOf(locals[d], bundle))
  }

  /** The bundle lacks a configured domain. */
  predicate Missing(locals: seq<Local>, bundle: Bundle.Snapshot) {
    exists d :: 0 <= d < |locals| && locals[d].name !in bundle
  }

  /** The bundle has a domain that is not configured. */
  predicate Unexpected(locals: seq<Local>, bundle: Bundle.Snapshot) {
    exists name :: name in bundle && forall d :: 0 <= d < |locals| ==> locals[d].name != name
  }

  lemma InScopeExactly(locals: seq<Local>, bundle: Bundle.Snapshot)
    ensures InScope(locals, bundle) <==> !Missing(locals, bundle) && !Unexpected(locals, bundle)
  {
    if !Missing(locals, bundle) && !Unexpected(locals, bundle) {
      forall name ensures name in bundle <==> name in Names(locals) {}
    }
  }

  /** Pick each configured domain's rows out of a bundle that has no others. */
  method SelectDomains(locals: seq<Local>, bundle: Bundle.Snapshot) returns (parts: Option<seq<Part>>)
    ensures parts.Some? <==> InScope(locals, bundle)
    ensures parts.Some? ==> parts.value == Parts(locals, bundle)
    ensures parts.None? <==> Missing(locals, bundle) || Unexpected(locals, bundle)
    ensures parts.Some? ==> |parts.value| == |locals| && forall d :: 0 <= d < |locals| ==>
      && locals[d].name in bundle
      && parts.value[d] == Part(locals[d].spec, locals[d].cfg, locals[d].current, bundle[locals[d].name])
  {
    InScopeExactly(locals, bundle);
    var unexpected := bundle.Keys - Names(locals);
    if unexpected != {} {
      assert bundle.Keys != Names(locals);
      return None;
    }
    var out: seq<Part> := [];
    for d := 0 to |locals|
      invariant |out| == d && forall e :: 0 <= e < d ==> locals[e].name in bundle && out[e] == PartOf(locals[e], bundle)
    {
      if locals[d].name !in bundle {
        assert locals[d].name in Names(locals);
        return None;
      }
      out := out + [Part(locals[d].spec, locals[d].cfg, locals[d].current, bundle[locals[d].name])];
    }
    forall name | name in bundle ensures name in Names(locals) { assert name !in unexpected; }
    forall name | name in Names(locals) ensures name in bundle {
      var d :| 0 <= d < |locals| && locals[d].name == name;
    }
    return Some(out);
  }

  /** The records or settings of a domain are refused. */
  ghost predicate PartRefused(part: Part) {
    || Unfit(part.spec, part.incoming)
    || (exists k :: 0 <= k < |part.incoming| && Refused(part.spec, part.cfg, part.incoming[k]))
    || Unfit(part.spec, Aim(part.spec, part.cfg, part.current, part.incoming))
  }

  lemma RefusedExactly(part: Part)
    ensures part.Accepted() <==> !PartRefused(part)
  {
    UnfitExactly(part.spec, part.incoming);
    OverridesExactly(part.spec, part.cfg, part.incoming);
    UnfitExactly(part.spec, Aim(part.spec, part.cfg, part.current, part.incoming));
    hide Unfit, Refused, ValidRecords, AllUsable, Aim;
  }

  /** A bundle is refused exactly when a domain is missing or unexpected, or its rows are refused. */
  predicate Acceptance(locals: seq<Local>, bundle: Bundle.Snapshot) {
    InScope(locals, bundle) && AllAccepted(Parts(locals, bundle))
  }

  method PlanDomains(locals: seq<Local>, bundle: Bundle.Snapshot) returns (plans: Option<seq<Plan>>)
    requires AllListed(Parts(locals, bundle))
    ensures plans.Some? <==> Acceptance(locals, bundle)
    ensures plans.Some? ==> plans.value == Plans(Parts(locals, bundle))
    ensures plans.None? <==>
      || Missing(locals, bundle) || Unexpected(locals, bundle)
      || exists d :: 0 <= d < |locals| && PartRefused(PartOf(locals[d], bundle))
  {
    InScopeExactly(locals, bundle);
    forall d | 0 <= d < |locals|
      ensures Parts(locals, bundle)[d].Accepted() <==> !PartRefused(PartOf(locals[d], bundle))
    {
      RefusedExactly(PartOf(locals[d], bundle));
    }
    hide PartRefused, Missing, Unexpected, InScope;
    var parts := SelectDomains(locals, bundle);
    if parts.None? { return None; }
    plans := PlanParts(parts.value);
  }

  ghost predicate AllStored(parts: seq<Part>, s: Tables) {
    |parts| == |s| && forall d :: 0 <= d < |parts| ==> Stored(parts[d].spec, parts[d].current, s[d])
  }

  /** Every domain was imported: it went from its stored rows to its goal. */
  ghost predicate Imported(parts: seq<Part>, before: Tables, after: Tables) {
    && |parts| == |before| == |after|
    && forall d :: 0 <= d < |parts| ==>
         parts[d].Clean() && before[d] == parts[d].Goal().current && after[d] == Final(parts[d].Goal())
  }

  ghost predicate Ready(parts: seq<Part>, plans: seq<Plan>, s: Tables) {
    && |parts| == |plans| == |s|
    && forall d :: 0 <= d < |parts| ==>
         parts[d].Clean() && s[d] == Goals(parts)[d].current && Fits(plans[d], Goals(parts)[d])
  }

  lemma PlansReady(parts: seq<Part>, s: Tables)
    requires AllStored(parts, s) && AllAccepted(parts) && NoConflicts(Plans(parts))
    ensures Ready(parts, Plans(parts), s)
  {
    var plans := Plans(parts);
    forall d | 0 <= d < |parts|
      ensures parts[d].Clean() && s[d] == Goals(parts)[d].current && Fits(plans[d], Goals(parts)[d])
    {
      assert plans[d] == parts[d].Plan();
      PartFits(parts[d], s[d]);
    }
  }

  /** Every state recorded is a state of the transaction, and breaks no key. */
  ghost predicate SafeStates(parts: seq<Part>, h: seq<Tables>) {
    forall s :: s in h ==> Between(Goals(parts), s) && AllUnique(parts, s)
  }

  /** Every row that was locked is as it was. */
  ghost predicate LocksHold(parts: seq<Part>, before: Tables, s: Tables) {
    && |parts| == |before| == |s|
    && forall d :: 0 <= d < |parts| ==> forall i :: i in before[d] && HasLock(parts[d].spec, before[d][i]) ==>
         i in s[d] && s[d][i] == before[d][i]
  }

  lemma LocksHoldBetween(parts: seq<Part>, before: Tables, s: Tables)
    requires |before| == |parts| && Between(Goals(parts), s)
    requires forall d :: 0 <= d < |parts| ==> parts[d].Clean() && before[d] == parts[d].Goal().current
    ensures LocksHold(parts, before, s)
  {
    forall d, i | 0 <= d < |parts| && i in before[d] && HasLock(parts[d].spec, before[d][i])
      ensures i in s[d] && s[d][i] == before[d][i]
    {
      var part := parts[d];
      LockedKept(part.spec, part.cfg, part.current, part.incoming, part.Goal(), i);
      UntouchedBetween(Goals(parts), s, d, i);
    }
  }

  lemma HistoryHolds(parts: seq<Part>, before: Tables, h: seq<Tables>)
    requires |before| == |parts| && AllBetween(Goals(parts), h)
    requires forall d :: 0 <= d < |parts| ==> parts[d].Clean() && before[d] == parts[d].Goal().current
    ensures SafeStates(parts, h) && forall s :: s in h ==> LocksHold(parts, before, s)
  {
    hide Between, AllUnique, LocksHold;
    forall s | s in h ensures AllUnique(parts, s) && LocksHold(parts, before, s) {
      StatesUnique(parts, s);
      LocksHoldBetween(parts, before, s);
    }
  }

  /** The transaction of an import without conflicts, a row at a time. */
  method Commit(db: Database, parts: seq<Part>, plans: seq<Plan>)
    requires Ready(parts, plans, db.tables) && db.history == [] && db.Recorded()
    modifies db
    ensures Imported(parts, old(db.tables), db.tables)
    ensures db.Recorded() && db.origin == old(db.tables) && SafeStates(parts, db.history)
    ensures forall s :: s in db.history ==> LocksHold(parts, old(db.tables), s)
  {
    hide SafeStates, LocksHold;
    ghost var before := db.tables;
    db.Apply(Goals(parts), plans);
    HistoryHolds(parts, before, db.history);
  }

  predicate AllAccepted(parts: seq<Part>) {
    forall d :: 0 <= d < |parts| ==> parts[d].Accepted()
  }

  predicate NoConflicts(plans: seq<Plan>) {
    forall d :: 0 <= d < |plans| ==> plans[d].conflicts == []
  }

  /** The plans of all domains. */
  function Plans(parts: seq<Part>): seq<Plan> {
    seq(|parts|, d requires 0 <= d < |parts| => parts[d].Plan())
  }

  method CountConflicts(plans: seq<Plan>) returns (any: bool)
    ensures any <==> !NoConflicts(plans)
  {
    for d := 0 to |plans|
      invariant forall e :: 0 <= e < d ==> plans[e].conflicts == []
    {
      if plans[d].conflicts != [] { return true; }
    }
    return false;
  }

  /** Import a bundle: a rejected or conflicting one changes nothing; any other brings every table to its
      goal, a row at a time, and no row change leaves two rows with one non-null key value. */
  method ApplyDomains(db: Database, locals: seq<Local>, bundle: Bundle.Snapshot) returns (report: Report)
    requires AllStored(Parts(locals, bundle), db.tables) && db.history == [] && db.Recorded()
    modifies db
    ensures report.Rejected? <==> !Acceptance(locals, bundle)
    ensures report.Rejected? <==>
      || Missing(locals, bundle) || Unexpected(locals, bundle)
      || exists d :: 0 <= d < |locals| && PartRefused(PartOf(locals[d], bundle))
    ensures report.Conflicts? <==> Acceptance(locals, bundle) && !NoConflicts(Plans(Parts(locals, bundle)))
    ensures !report.Applied? ==> db.tables == old(db.tables) && db.history == []
    ensures report.Applied? ==> Imported(Parts(locals, bundle), old(db.tables), db.tables)
    ensures db.Recorded() && db.origin == old(db.tables)
    ensures SafeStates(Parts(locals, bundle), db.history)
    ensures forall s :: s in db.history ==> LocksHold(Parts(locals, bundle), old(db.tables), s)
  {
    hide Acceptance, NoConflicts, Imported, Ready, LocksHold, Missing, Unexpected, PartRefused;
    var plans := PlanDomains(locals, bundle);
    if plans.None? { return Rejected; }
    var conflicts := CountConflicts(plans.value);
    if conflicts { return Conflicts; }
    AcceptedParts(locals, bundle);
    PlansReady(Parts(locals, bundle), db.tables);
    Commit(db, Parts(locals, bundle), plans.value);
    return Applied;
  }

  lemma AcceptedParts(locals: seq<Local>, bundle: Bundle.Snapshot)
    requires Acceptance(locals, bundle)
    ensures AllAccepted(Parts(locals, bundle))
  {
  }
}
