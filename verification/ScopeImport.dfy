/** References across a whole import: from a bundle and a follower without dangling references, through every
    row change, exactly to an outcome without one. */
module ScopeImport {
  import opened Prelude
  import opened Records
  import opened Planner
  import opened Transaction
  import opened ImportSafety
  import opened Domains
  import opened DomainImport
  import opened DomainGraph

  /** A domain's incoming rows with the follower's overrides. */
  function Adapted(part: Part): seq<Row> {
    AllOverridden(part.spec, part.cfg, part.incoming)
  }

  /** The tables a bundle carries, and those the follower's overrides make of them. */
  function BundleTables(parts: seq<Part>): Tables {
    seq(|parts|, d requires 0 <= d < |parts| => ById(parts[d].incoming))
  }

  function AdaptedTables(parts: seq<Part>): Tables {
    seq(|parts|, d requires 0 <= d < |parts| => ById(Adapted(parts[d])))
  }

  /** Overrides leave the reference columns alone. */
  predicate KeepsReferences(part: Part, m: map<string, nat>) {
    forall k, c :: 0 <= k < |part.incoming| && c in m ==>
      Column(Overridden(part.spec, part.cfg, part.incoming[k]), c) == Column(part.incoming[k], c)
  }

  /** Where deletions are allowed: everywhere, or in the stream assignments alone. */
  predicate Deletions(domains: seq<Domain>, parts: seq<Part>, everywhere: bool, mirrored: bool)
    requires |parts| == |domains|
  {
    forall d :: 0 <= d < |parts| ==> parts[d].cfg.prune == (everywhere || (mirrored && domains[d].ChannelStreams?))
  }

  /** An import of a whole scope: its domains in adapter order with all their references, a conflict-free
      plan for each, surrogate ids for stream assignments only. */
  ghost predicate ScopeOf(refs: References, domains: seq<Domain>, parts: seq<Part>) {
    && DomainGraph.Ascending(domains) && Complete(refs, domains) && |parts| == |domains|
    && forall d :: 0 <= d < |parts| ==>
         && parts[d].Clean()
         && (parts[d].spec.surrogate ==> domains[d].ChannelStreams? && parts[d].cfg.protected == {})
  }

  /** Two rows agree in their reference columns. */
  predicate SameReferences(r: Row, q: Row, m: map<string, nat>) {
    forall c :: c in m ==> Column(r, c) == Column(q, c)
  }

  /** Reference columns are neither the id nor the activity flag. */
  predicate PlainColumns(m: map<string, nat>) {
    "id" !in m && "is_active" !in m
  }

  lemma ReferencesArePlain(m: map<string, nat>, domains: seq<Domain>, d: nat)
    requires d < |domains| && CompleteAt(m, domains, d)
    ensures PlainColumns(m)
  {
    forall c | c in m ensures c != "id" && c != "is_active" {
      var r :| r in ReferenceFields(domains[d]) && r.Name() == c && r.Target() == domains[m[c]];
      NameMark(r);
    }
  }

  /** Only stream assignments are referred to by nothing; no reference leads to them. */
  lemma NothingRefersToAssignments(m: map<string, nat>, domains: seq<Domain>, d: nat, c: string)
    requires d < |domains| && CompleteAt(m, domains, d) && c in m
    ensures m[c] < |domains| && !domains[m[c]].ChannelStreams?
  {
    var r :| r in ReferenceFields(domains[d]) && r.Name() == c && r.Target() == domains[m[c]];
  }

  // ----- Where a desired row comes from -----

  /** Preparing a row keeps its references, or puts a protected stored row in its place. */
  lemma PreparedOrigin(part: Part, m: map<string, nat>, k: nat)
    requires PlainColumns(m) && k < |part.incoming|
    ensures var t := ById(part.current);
      var o := Overridden(part.spec, part.cfg, part.incoming[k]);
      SameReferences(Prepared(part.cfg, t, o), o, m) ||
      (o.id in t && o.id in part.cfg.protected && Prepared(part.cfg, t, o) == t[o.id])
  {
    hide Overridden;
    IndexRows(part.current);
    var t, o := ById(part.current), Overridden(part.spec, part.cfg, part.incoming[k]);
    var r := Prepared(part.cfg, t, o);
    if !(o.id in t && o.id in part.cfg.protected) {
      forall c | c in m ensures Column(r, c) == Column(o, c) {}
    }
  }

  /** A prepared row has the references of an incoming row or of a protected stored one. */
  lemma DesiredOrigin(part: Part, m: map<string, nat>, k: nat)
    requires PlainColumns(m)
    requires k < |Desired(part.spec, part.cfg, part.current, part.incoming)|
    ensures var r := Desired(part.spec, part.cfg, part.current, part.incoming)[k];
      Incoming(part, r, m) || Protected(part, r, m)
  {
    hide Desired, ById, Overridden, Prepared;
    var t := ById(part.current);
    IndexRows(part.current);
    if k < |part.incoming| {
      DesiredAt(part.spec, part.cfg, part.current, part.incoming, k);
      PreparedOrigin(part, m, k);
      var o := Overridden(part.spec, part.cfg, part.incoming[k]);
      if SameReferences(Prepared(part.cfg, t, o), o, m) {
        assert o == Adapted(part)[k];
      } else {
        assert SameReferences(t[o.id], t[o.id], m);
      }
    } else {
      SparedAt(part.spec, part.cfg, part.current, part.incoming, k);
      var r := Desired(part.spec, part.cfg, part.current, part.incoming)[k];
      assert SameReferences(r, r, m);
    }
  }

  /** A row with the references of an incoming one, after overrides. */
  predicate Incoming(part: Part, r: Row, m: map<string, nat>) {
    exists q :: q in Adapted(part) && SameReferences(r, q, m)
  }

  /** A row with the references of a protected stored one. */
  predicate Protected(part: Part, r: Row, m: map<string, nat>) {
    exists q :: q in part.current && q.id in part.cfg.protected && SameReferences(r, q, m)
  }

  /** Reconciling ids leaves all other columns. */
  lemma AimOrigin(part: Part, m: map<string, nat>, k: nat)
    requires PlainColumns(m)
    requires k < |Aim(part.spec, part.cfg, part.current, part.incoming)|
    ensures var r := Aim(part.spec, part.cfg, part.current, part.incoming)[k];
      Incoming(part, r, m) || Protected(part, r, m)
  {
    hide Desired, Overridden;
    var d := Desired(part.spec, part.cfg, part.current, part.incoming);
    var r := Aim(part.spec, part.cfg, part.current, part.incoming)[k];
    DesiredOrigin(part, m, k);
    assert r.cols == d[k].cols;
    assert forall c :: c in m ==> Column(r, c) == Column(d[k], c);
    if Incoming(part, d[k], m) {
      var q :| q in Adapted(part) && SameReferences(d[k], q, m);
      assert SameReferences(r, q, m);
    } else {
      var q :| q in part.current && q.id in part.cfg.protected && SameReferences(d[k], q, m);
      assert SameReferences(r, q, m);
    }
  }

  lemma GoalOrigin(part: Part, m: map<string, nat>, i: int)
    requires PlainColumns(m) && i in part.Goal().desired
    ensures Incoming(part, part.Goal().desired[i], m) || Protected(part, part.Goal().desired[i], m)
  {
    hide Incoming, Protected;
    var rows := Aim(part.spec, part.cfg, part.current, part.incoming);
    IndexRows(rows);
    var k :| 0 <= k < |rows| && rows[k] == part.Goal().desired[i];
    AimOrigin(part, m, k);
  }

  /** A domain with ids of its own ends with the incoming ids, the protected stored ones and, unless
      deletions are allowed, all other stored ones. */
  lemma FinalIds(part: Part, i: int)
    requires !part.spec.surrogate
    ensures i in Final(part.Goal()) <==>
      || i in ById(part.incoming) || (i in part.cfg.protected && i in ById(part.current))
      || (!part.cfg.prune && i in ById(part.current))
  {
    hide Desired;
    DesiredIds(part.spec, part.cfg, part.current, part.incoming, i);
  }

  // ----- When an outcome is closed -----

  /** What a column refers to stays: it is null, or an id the bundle carries or the follower protects. */
  predicate TargetStays(v: Value, part: Part) {
    || v.Null?
    || (v.Num? && (
      v.num in ById(part.incoming) || (v.num in part.cfg.protected && v.num in ById(part.current))))
  }

  /** Every reference of every protected stored row leads to a row that stays. */
  predicate ProtectedTargetsStay(refs: References, parts: seq<Part>) {
    |refs| == |parts| && forall d :: 0 <= d < |parts| ==>
      forall q, c :: q in parts[d].current && q.id in parts[d].cfg.protected && c in refs[d] ==>
        refs[d][c] < |parts| && TargetStays(Column(q, c), parts[refs[d][c]])
  }

  lemma ReferenceTargets(refs: References, domains: seq<Domain>, parts: seq<Part>, d: nat, c: string)
    requires ScopeOf(refs, domains, parts) && d < |parts| && c in refs[d]
    ensures refs[d][c] < |parts| && !domains[refs[d][c]].ChannelStreams? && !parts[refs[d][c]].spec.surrogate
    ensures PlainColumns(refs[d])
  {
    assert CompleteAt(refs[d], domains, d);
    NothingRefersToAssignments(refs[d], domains, d, c);
    ReferencesArePlain(refs[d], domains, d);
  }

  /** A reference that resolves in the bundle resolves in the outcome. */
  lemma BundleTargetStays(part: Part, v: Value)
    requires !part.spec.surrogate && Points(v, ById(Adapted(part)))
    ensures Points(v, Final(part.Goal()))
  {
    hide Adapted, ById, Part.Goal;
    if v.Num? {
      AdaptedIds(part, v.num);
      FinalIds(part, v.num);
    }
  }

  /** A stored row's reference resolves in the outcome where nothing is deleted. */
  lemma StoredTargetStays(part: Part, v: Value)
    requires !part.spec.surrogate && Points(v, ById(part.current)) && !part.cfg.prune
    ensures Points(v, Final(part.Goal()))
  {
    if v.Num? { FinalIds(part, v.num); }
  }

  lemma KeptTargetStays(part: Part, v: Value)
    requires !part.spec.surrogate
    ensures TargetStays(v, part) ==> Points(v, Final(part.Goal()))
    ensures part.cfg.prune && Points(v, Final(part.Goal())) ==> TargetStays(v, part)
  {
    if v.Num? { FinalIds(part, v.num); }
  }

  /** A follower and a bundle, after overrides, without dangling references, in one scope. */
  ghost predicate ClosedScope(refs: References, parts: seq<Part>) {
    Closed(refs, CurrentTables(Goals(parts))) && Closed(refs, AdaptedTables(parts))
  }

  /** Overrides keep the ids. */
  lemma AdaptedIds(part: Part, i: int)
    ensures i in ById(Adapted(part)) <==> i in ById(part.incoming)
  {
    hide Overridden;
    IndexRows(Adapted(part));
    IndexRows(part.incoming);
    if i in ById(Adapted(part)) {
      var k :| 0 <= k < |part.incoming| && Adapted(part)[k] == ById(Adapted(part))[i];
      assert part.incoming[k].id == i;
    }
    if i in ById(part.incoming) {
      var k :| 0 <= k < |part.incoming| && part.incoming[k] == ById(part.incoming)[i];
      assert Adapted(part)[k].id == i;
    }
  }

  /** Overrides that leave the reference columns alone keep a bundle closed. */
  lemma AdaptedStaysClosed(refs: References, parts: seq<Part>)
    requires Closed(refs, BundleTables(parts)) && |refs| == |parts|
    requires forall d :: 0 <= d < |parts| ==> DistinctIds(parts[d].incoming) && KeepsReferences(parts[d], refs[d])
    ensures Closed(refs, AdaptedTables(parts))
  {
    hide Overridden, ById;
    var s := AdaptedTables(parts);
    forall d, i, c | 0 <= d < |s| && i in s[d] && c in refs[d]
      ensures refs[d][c] < |s| && Points(Column(s[d][i], c), s[refs[d][c]])
    {
      var part := parts[d];
      IndexRows(Adapted(part));
      var k :| 0 <= k < |part.incoming| && Adapted(part)[k] == s[d][i];
      DistinctById(part.incoming, k);
      var r := part.incoming[k];
      assert BundleTables(parts)[d][r.id] == r;
      assert Resolves(r, refs[d], BundleTables(parts));
      assert Column(s[d][i], c) == Column(r, c);
      if Column(r, c).Num? { AdaptedIds(parts[refs[d][c]], Column(r, c).num); }
    }
  }

  lemma BundleResolves(refs: References, parts: seq<Part>, d: nat, q: Row, c: string)
    requires Closed(refs, AdaptedTables(parts)) && d < |parts| && DistinctIds(parts[d].incoming)
    requires q in Adapted(parts[d]) && c in refs[d]
    ensures refs[d][c] < |parts| && Points(Column(q, c), ById(Adapted(parts[refs[d][c]])))
  {
    hide Overridden, ById;
    var rows := Adapted(parts[d]);
    var k :| 0 <= k < |rows| && rows[k] == q;
    DistinctById(rows, k);
    assert AdaptedTables(parts)[d][q.id] == q;
    assert Resolves(q, refs[d], AdaptedTables(parts));
  }

  lemma StoredResolves(refs: References, parts: seq<Part>, d: nat, q: Row, c: string)
    requires Closed(refs, CurrentTables(Goals(parts))) && d < |parts| && DistinctIds(parts[d].current)
    requires q in parts[d].current && c in refs[d]
    ensures refs[d][c] < |parts| && Points(Column(q, c), ById(parts[refs[d][c]].current))
  {
    var k :| 0 <= k < |parts[d].current| && parts[d].current[k] == q;
    DistinctById(parts[d].current, k);
    assert Resolves(CurrentTables(Goals(parts))[d][q.id], refs[d], CurrentTables(Goals(parts)));
  }

  lemma CleanLists(part: Part)
    requires part.Clean()
    ensures DistinctIds(part.current) && DistinctIds(part.incoming)
  {
  }

  /** A final row's reference resolves: an incoming row's in the bundle, a stored one's where nothing is
      deleted, a protected one's because its target stays. */
  lemma ReferenceResolves(
    refs: References, domains: seq<Domain>, parts: seq<Part>, everywhere: bool, mirrored: bool, d: nat, i: int,
    c: string)
    requires ScopeOf(refs, domains, parts) && Deletions(domains, parts, everywhere, mirrored)
    requires ClosedScope(refs, parts) && (everywhere ==> ProtectedTargetsStay(refs, parts))
    requires d < |parts| && c in refs[d] && i in Final(parts[d].Goal())
    ensures refs[d][c] < |parts|
    ensures Points(Column(Final(parts[d].Goal())[i], c), Final(parts[refs[d][c]].Goal()))
  {
    hide Part.Clean, Closed, Incoming, Protected, Points, TargetStays, GoalOf, CompleteAt, Adapted;
    var r, m := Final(parts[d].Goal())[i], refs[d];
    ReferenceTargets(refs, domains, parts, d, c);
    CleanLists(parts[d]);
    var target := parts[m[c]];
    assert target.cfg.prune == everywhere;
    if i in parts[d].Goal().desired {
      GoalOrigin(parts[d], m, i);
      if Incoming(parts[d], r, m) {
        var q := IncomingOf(parts[d], r, m);
        BundleResolves(refs, parts, d, q, c);
        BundleTargetStays(target, Column(q, c));
      } else {
        var q := ProtectedOf(parts[d], r, m);
        if everywhere {
          KeptTargetStays(target, Column(q, c));
        } else {
          StoredResolves(refs, parts, d, q, c);
          StoredTargetStays(target, Column(q, c));
        }
      }
    } else {
      StoredRow(parts[d], i);
      StoredResolves(refs, parts, d, r, c);
      StoredTargetStays(target, Column(r, c));
    }
  }

  lemma IncomingOf(part: Part, r: Row, m: map<string, nat>) returns (q: Row)
    requires Incoming(part, r, m)
    ensures q in Adapted(part) && SameReferences(r, q, m)
  {
    q :| q in Adapted(part) && SameReferences(r, q, m);
  }

  lemma ProtectedOf(part: Part, r: Row, m: map<string, nat>) returns (q: Row)
    requires Protected(part, r, m)
    ensures q in part.current && q.id in part.cfg.protected && SameReferences(r, q, m)
  {
    q :| q in part.current && q.id in part.cfg.protected && SameReferences(r, q, m);
  }

  /** A final row that is not desired was stored, and its domain deletes nothing. */
  lemma StoredRow(part: Part, i: int)
    requires i in Final(part.Goal()) && i !in part.Goal().desired
    ensures Final(part.Goal())[i] in part.current && !part.cfg.prune
  {
    IndexRows(part.current);
  }

  /** A protected row's target stays wherever the outcome is closed and deletions are allowed. */
  lemma ProtectedNeeds(
    refs: References, domains: seq<Domain>, parts: seq<Part>, d: nat, q: Row, c: string)
    requires ScopeOf(refs, domains, parts) && Deletions(domains, parts, true, false)
    requires Closed(refs, FinalTables(Goals(parts)))
    requires d < |parts| && q in parts[d].current && q.id in parts[d].cfg.protected && c in refs[d]
    ensures refs[d][c] < |parts| && TargetStays(Column(q, c), parts[refs[d][c]])
  {
    hide CompleteAt, GoalOf, TargetStays, Part.Clean, Part.Goal, Final, Points;
    var p := parts[d];
    ReferenceTargets(refs, domains, parts, d, c);
    ProtectedIsFinal(p, q);
    assert Resolves(FinalTables(Goals(parts))[d][q.id], refs[d], FinalTables(Goals(parts)));
    KeptTargetStays(parts[refs[d][c]], Column(q, c));
  }

  lemma ProtectedIsFinal(p: Part, q: Row)
    requires p.Clean() && !p.spec.surrogate && q in p.current && q.id in p.cfg.protected
    ensures q.id in Final(p.Goal()) && Final(p.Goal())[q.id] == q
  {
    hide Acceptable, DomainPlan;
    var k :| 0 <= k < |p.current| && p.current[k] == q;
    DistinctById(p.current, k);
    ProtectedKept(p.spec, p.cfg, p.current, p.incoming, p.Goal(), q.id);
  }

  // ----- Main results -----

  /** From a follower and a bundle, after overrides, without dangling references, an import ends without one,
      exactly when deletions are not allowed everywhere or every protected row's references lead to rows that
      stay. */
  lemma OutcomeClosed(refs: References, domains: seq<Domain>, parts: seq<Part>, everywhere: bool, mirrored: bool)
    requires ScopeOf(refs, domains, parts) && Deletions(domains, parts, everywhere, mirrored)
    requires ClosedScope(refs, parts)
    ensures Closed(refs, FinalTables(Goals(parts))) <==> (everywhere ==> ProtectedTargetsStay(refs, parts))
  {
    hide CompleteAt, GoalOf, TargetStays, Points, Part.Clean, ClosedScope;
    var final := FinalTables(Goals(parts));
    if everywhere ==> ProtectedTargetsStay(refs, parts) {
      forall d, i | 0 <= d < |final| && i in final[d] ensures Resolves(final[d][i], refs[d], final) {
        forall c | c in refs[d] ensures refs[d][c] < |final| && Points(Column(final[d][i], c), final[refs[d][c]]) {
          ReferenceResolves(refs, domains, parts, everywhere, mirrored, d, i, c);
        }
      }
    } else if Closed(refs, final) {
      forall d, q, c | 0 <= d < |parts| && q in parts[d].current && q.id in parts[d].cfg.protected && c in refs[d]
        ensures refs[d][c] < |parts| && TargetStays(Column(q, c), parts[refs[d][c]])
      {
        ProtectedNeeds(refs, domains, parts, d, q, c);
      }
    }
  }

  /** And then no row change on the way leaves a dangling reference: creations, updates and deletions
      included, in a scope with all its references, protected rows and overrides in play. */
  lemma ScopeStaysClosed(refs: References, domains: seq<Domain>, parts: seq<Part>, everywhere: bool, mirrored: bool)
    requires ScopeOf(refs, domains, parts) && Deletions(domains, parts, everywhere, mirrored)
    requires ClosedScope(refs, parts) && parts != []
    ensures (forall s :: Between(Goals(parts), s) ==> Closed(refs, s)) <==>
      (everywhere ==> ProtectedTargetsStay(refs, parts))
  {
    hide CompleteAt, GoalOf, ProtectedTargetsStay, Part.Clean;
    ReferencesGoBack(refs, domains);
    OutcomeClosed(refs, domains, parts, everywhere, mirrored);
    NoDanglingReference(refs, Goals(parts));
  }

  /** An import from one coherent database into another, under overrides that leave the reference columns
      alone: without deletions, or without protected rows, every state on the way is free of dangling
      references. */
  lemma CoherentImport(
    refs: References, domains: seq<Domain>, parts: seq<Part>, everywhere: bool, mirrored: bool,
    main: map<Domain, Table>, follower: map<Domain, Table>, s: Tables)
    requires ScopeOf(refs, domains, parts) && Deletions(domains, parts, everywhere, mirrored)
    requires forall d :: d in domains ==> d in main && d in follower
    requires Coherent(main) && BundleTables(parts) == Scope(main, domains)
    requires Coherent(follower) && CurrentTables(Goals(parts)) == Scope(follower, domains)
    requires forall d :: 0 <= d < |parts| ==> KeepsReferences(parts[d], refs[d])
    requires everywhere ==> forall d :: 0 <= d < |parts| ==> parts[d].cfg.protected == {}
    requires Between(Goals(parts), s)
    ensures Closed(refs, s)
  {
    hide KeepsReferences, GoalOf, CompleteAt, Coherent;
    forall d | 0 <= d < |parts| ensures DistinctIds(parts[d].incoming) { CleanLists(parts[d]); }
    hide Part.Clean;
    ExportClosed(main, refs, domains);
    AdaptedStaysClosed(refs, parts);
    ExportClosed(follower, refs, domains);
    ScopeStaysClosed(refs, domains, parts, everywhere, mirrored);
  }

  // ----- A protected row whose target Main does not carry -----

  /** One stored row and an empty bundle: a protected row is kept, any other deleted. */
  function Alone(spec: Spec, cfg: Settings, r: Row): Part {
    Part(spec, cfg, [r], [])
  }

  predicate Plain(spec: Spec, r: Row) {
    !spec.surrogate && ValidRow(spec, r) && !Truthy(Column(r, "locked"))
  }

  lemma {:induction false} NoLocks(rows: seq<Row>, updates: seq<Update>)
    ensures LockedRows(rows, {}) == [] && LockedUpdates(updates, {}) == []
    decreases |rows| + |updates|
  {
    if rows != [] {
      NoLocks(rows[..|rows| - 1], updates);
    } else if updates != [] {
      NoLocks(rows, updates[..|updates| - 1]);
    }
  }

  lemma AloneTables(spec: Spec, cfg: Settings, r: Row)
    requires !spec.surrogate
    ensures Aim(spec, cfg, [r], []) == if r.id in cfg.protected then [r] else []
    ensures ById([r]) == map[r.id := r] && DistinctIds([r]) && DistinctKeys([r], Keys(spec))
  {
    assert [r][..0] == [];
    assert ById([]) == map[];
    assert Spared(cfg, [], map[]) == [];
    assert AllOverridden(spec, cfg, []) == [];
    assert Desired(spec, cfg, [r], []) == Spared(cfg, [r], map[]);
  }

  lemma AloneIsClean(spec: Spec, cfg: Settings, r: Row)
    requires Plain(spec, r)
    ensures Alone(spec, cfg, r).Clean()
    ensures Alone(spec, cfg, r).Goal() ==
      Goal(map[r.id := r], if r.id in cfg.protected then map[r.id := r] else map[], cfg.prune)
  {
    var aim := Aim(spec, cfg, [r], []);
    AloneTables(spec, cfg, r);
    assert ById([]) == map[];
    assert Blocked(cfg, [r], []) == [];
    assert LockedIds(spec, [r]) == {};
    var plan := PlanOf([r], aim, spec.natural, Keys(spec), cfg.prune);
    CleanExactly([r], aim, spec.natural, Keys(spec), Alone(spec, cfg, r).Goal());
    NoLocks(plan.delete, plan.update);
    assert plan.conflicts == [];
    assert HoldBack(plan, []).conflicts == [];
  }

  const USER_AGENT_SPEC := Spec(
    {"name", "user_agent", "description", "is_active"}, ["name"], [["user_agent"]], false, false, None)
  const STREAM_PROFILE_SPEC := Spec(
    {"name", "command", "parameters", "locked", "is_active", "user_agent_id"}, ["name"], [], true, false, None)
  const PLAYER := Row(1, map[
    "name" := Text("VLC"), "user_agent" := Text("VLC/3"), "description" := Text(""), "is_active" := Flag(true)])
  const LOCAL_PROFILE := Row(5, map[
    "name" := Text("local"), "command" := Text("ffmpeg"), "parameters" := Text(""), "locked" := Flag(false),
    "is_active" := Flag(true), "user_agent_id" := Num(1)])
  const TWO_DOMAINS := [UserAgents, StreamProfiles]
  const TWO_REFERENCES: References := [map[], map["user_agent_id" := 0]]
  const TWO_PARTS := [
    Alone(USER_AGENT_SPEC, Settings(map[], {}, None, true), PLAYER),
    Alone(STREAM_PROFILE_SPEC, Settings(map[], {5}, Some(Disabled), true), LOCAL_PROFILE)]

  lemma TwoReferences()
    ensures Complete(TWO_REFERENCES, TWO_DOMAINS) && DomainGraph.Ascending(TWO_DOMAINS)
  {
    assert UserAgentId in ReferenceFields(StreamProfiles) && UserAgentId.Name() == "user_agent_id";
    assert Leads(StreamProfiles, "user_agent_id", UserAgents);
    assert CompleteAt(TWO_REFERENCES[0], TWO_DOMAINS, 0);
    assert CompleteAt(TWO_REFERENCES[1], TWO_DOMAINS, 1);
  }

  lemma PlayerIsPlain()
    ensures Plain(USER_AGENT_SPEC, PLAYER)
  {
    assert |"name"| == 4 && |"user_agent"| == 10 && |"description"| == 11 && |"is_active"| == 9 && |"locked"| == 6;
    assert Column(PLAYER, "name") == Text("VLC") && Column(PLAYER, "user_agent") == Text("VLC/3");
    assert "VLC"[0] == 'V';
    assert !Blank(Text("VLC"));
    assert USER_AGENT_SPEC.natural == ["name"];
    assert Keys(USER_AGENT_SPEC) == [["name"], ["user_agent"]];
  }

  lemma LocalProfileIsPlain()
    ensures Plain(STREAM_PROFILE_SPEC, LOCAL_PROFILE)
  {
    assert |"name"| == 4 && |"command"| == 7 && |"parameters"| == 10 && |"locked"| == 6 && |"is_active"| == 9;
    assert |"user_agent_id"| == 13;
    assert Column(LOCAL_PROFILE, "name") == Text("local") && Column(LOCAL_PROFILE, "locked") == Flag(false);
    assert "local"[0] == 'l';
    assert !Blank(Text("local"));
    assert Keys(STREAM_PROFILE_SPEC) == [["name"]];
  }

  lemma TwoClean()
    ensures forall d :: 0 <= d < 2 ==> TWO_PARTS[d].Clean()
    ensures Goals(TWO_PARTS) == [Goal(map[1 := PLAYER], map[], true),
      Goal(map[5 := LOCAL_PROFILE], map[5 := LOCAL_PROFILE], true)]
  {
    hide Part.Clean, Part.Goal;
    PlayerIsPlain();
    LocalProfileIsPlain();
    AloneIsClean(USER_AGENT_SPEC, TWO_PARTS[0].cfg, PLAYER);
    AloneIsClean(STREAM_PROFILE_SPEC, TWO_PARTS[1].cfg, LOCAL_PROFILE);
  }

  /** The condition can fail: Main has dropped a user agent that a protected stream profile refers to, and
      deletions are allowed. Follower and bundle are closed, the outcome is not. */
  lemma ProtectedRowDangles()
    ensures ScopeOf(TWO_REFERENCES, TWO_DOMAINS, TWO_PARTS) && Deletions(TWO_DOMAINS, TWO_PARTS, true, false)
    ensures ClosedScope(TWO_REFERENCES, TWO_PARTS) && !ProtectedTargetsStay(TWO_REFERENCES, TWO_PARTS)
    ensures !Closed(TWO_REFERENCES, FinalTables(Goals(TWO_PARTS)))
  {
    hide Part.Clean, CompleteAt, Complete, GoalOf;
    TwoReferences();
    TwoClean();
    assert AdaptedTables(TWO_PARTS) == [map[], map[]];
    assert Column(LOCAL_PROFILE, "user_agent_id") == Num(1);
    assert CurrentTables(Goals(TWO_PARTS)) == [map[1 := PLAYER], map[5 := LOCAL_PROFILE]];
    assert FinalTables(Goals(TWO_PARTS)) == [map[], map[5 := LOCAL_PROFILE]];
    var final := FinalTables(Goals(TWO_PARTS));
    assert final[1][5] == LOCAL_PROFILE && "user_agent_id" in TWO_REFERENCES[1];
    assert !Points(Column(LOCAL_PROFILE, "user_agent_id"), final[0]);
    assert !Resolves(final[1][5], TWO_REFERENCES[1], final);
    assert LOCAL_PROFILE in TWO_PARTS[1].current;
  }
}
