/** First-time initialization: the selected tables are emptied, save for the rows kept local, and filled
    with the desired rows under Main's ids. */
module Initialize {
  import opened Prelude
  import opened Records
  import opened Transaction
  import opened Reconcile
  import opened Domains
  import opened DomainImport
  import opened Remap

  function DesiredRows(part: Part): seq<Row> {
    Desired(part.spec, part.cfg, part.current, part.incoming)
  }

  // ----- Rows that stay -----

  /** A locked row that Main carries unchanged. */
  predicate Agrees(current: Table, desired: Table, i: int) {
    i in current && i in desired && desired[i] == current[i]
  }

  /** The ids kept: those protected locally, and those of locked rows Main carries unchanged. */
  function Kept(part: Part): set<int> {
    var t, d, locked := ById(part.current), ById(DesiredRows(part)), LockedIds(part.spec, part.current);
    set i | i in t && (i in part.cfg.protected || (i in locked && Agrees(t, d, i)))
  }

  /** Locked rows that would change. */
  function Changing(part: Part): set<int> {
    LockedIds(part.spec, part.current) - Kept(part)
  }

  /** One of the first rows has this id and is locked. */
  predicate LockedAmong(rows: seq<Row>, n: nat, i: int)
    requires n <= |rows|
  {
    exists j :: 0 <= j < n && rows[j].id == i && Truthy(Column(rows[j], "locked"))
  }

  /** What the pass over the first rows has found: rows kept, and locked rows in the way. */
  ghost predicate Found(part: Part, n: nat, kept: set<int>, conflicts: set<int>)
    requires n <= |part.current|
  {
    var t, d := ById(part.current), ById(DesiredRows(part));
    && (forall i :: i in kept <==>
          (i in t && i in part.cfg.protected) || (Agrees(t, d, i) && LockedAmong(part.current, n, i)))
    && (forall i :: i in conflicts <==>
          !Agrees(t, d, i) && i !in part.cfg.protected && LockedAmong(part.current, n, i))
  }

  lemma LockedOneMore(rows: seq<Row>, n: nat, i: int)
    requires n < |rows|
    ensures LockedAmong(rows, n + 1, i) <==>
      LockedAmong(rows, n, i) || (rows[n].id == i && Truthy(Column(rows[n], "locked")))
  {
  }

  lemma FoundMore(part: Part, n: nat, kept: set<int>, conflicts: set<int>)
    requires n < |part.current| && DistinctIds(part.current) && Found(part, n, kept, conflicts)
    ensures var r, t, d := part.current[n], ById(part.current), ById(DesiredRows(part));
      var locked := Truthy(Column(r, "locked"));
      && (Agrees(t, d, r.id) <==> r.id in d && d[r.id] == r)
      && Found(part, n + 1,
           if locked && Agrees(t, d, r.id) then kept + {r.id} else kept,
           if locked && !Agrees(t, d, r.id) && r.id !in kept then conflicts + {r.id} else conflicts)
  {
    hide DesiredRows, ById, LockedAmong, Truthy;
    var r := part.current[n];
    DistinctById(part.current, n);
    forall i ensures LockedAmong(part.current, n + 1, i) <==>
      LockedAmong(part.current, n, i) || (r.id == i && Truthy(Column(r, "locked")))
    {
      LockedOneMore(part.current, n, i);
    }
  }

  lemma FoundNone(part: Part, kept: set<int>)
    requires kept == set i | i in part.cfg.protected && i in ById(part.current)
    ensures Found(part, 0, kept, {})
  {
  }

  lemma FoundAll(part: Part, kept: set<int>, conflicts: set<int>)
    requires part.spec.lockable && Found(part, |part.current|, kept, conflicts)
    ensures kept == Kept(part) && conflicts == Changing(part)
  {
    IndexRows(part.current);
    var locked := LockedIds(part.spec, part.current);
    forall i ensures LockedAmong(part.current, |part.current|, i) <==> i in locked {}
    assert forall i :: i in kept <==> i in Kept(part);
    assert forall i :: i in conflicts <==> i in Changing(part);
  }

  lemma NothingLocked(part: Part, kept: set<int>)
    requires !part.spec.lockable && kept == set i | i in part.cfg.protected && i in ById(part.current)
    ensures kept == Kept(part) && Changing(part) == {}
  {
    assert LockedIds(part.spec, part.current) == {};
  }

  /** The stored row is kept: it is protected, or locked and desired as it is. */
  predicate Stays(part: Part, r: Row) {
    r.id in part.cfg.protected || (HasLock(part.spec, r) && r in DesiredRows(part))
  }

  lemma KeptExactly(part: Part, k: nat)
    requires DistinctIds(part.current) && DistinctIds(DesiredRows(part)) && k < |part.current|
    ensures part.current[k].id in Kept(part) <==> Stays(part, part.current[k])
    ensures part.current[k].id in Changing(part) <==>
      HasLock(part.spec, part.current[k]) && !Stays(part, part.current[k])
  {
    hide DesiredRows, HasLock, LockedIds;
    var r, rows := part.current[k], DesiredRows(part);
    DistinctById(part.current, k);
    LockedExactly(part.spec, part.current);
    assert HasLock(part.spec, r) <==> LockedRow(part.spec, part.current, r.id);
    IndexRows(rows);
    if r in rows {
      var j :| 0 <= j < |rows| && rows[j] == r;
      DistinctById(rows, j);
    }
  }

  /** Of the stored rows exactly those that stay are kept, and exactly the other locked ones are in the way. */
  predicate Preserves(part: Part, kept: set<int>, conflicts: set<int>) {
    forall k :: 0 <= k < |part.current| ==>
      var r := part.current[k];
      (r.id in kept <==> Stays(part, r)) && (r.id in conflicts <==> HasLock(part.spec, r) && !Stays(part, r))
  }

  lemma PreservesExactly(part: Part)
    requires DistinctIds(part.current) && DistinctIds(DesiredRows(part))
    ensures Preserves(part, Kept(part), Changing(part))
  {
    forall k | 0 <= k < |part.current|
      ensures var r := part.current[k];
        && (r.id in Kept(part) <==> Stays(part, r))
        && (r.id in Changing(part) <==> HasLock(part.spec, r) && !Stays(part, r))
    {
      KeptExactly(part, k);
    }
  }

  /** The source's pass over the stored rows. */
  method PreservedIds(part: Part) returns (kept: set<int>, conflicts: set<int>)
    requires DistinctIds(part.current) && DistinctIds(DesiredRows(part))
    ensures kept == Kept(part) && conflicts == Changing(part)
    ensures Preserves(part, kept, conflicts)
  {
    hide Kept, Changing, Preserves, Found, DesiredRows, ById, Truthy, Column;
    PreservesExactly(part);
    var d := ById(DesiredRows(part));
    kept, conflicts := set i | i in part.cfg.protected && i in ById(part.current), {};
    if !part.spec.lockable {
      NothingLocked(part, kept);
      return;
    }
    FoundNone(part, kept);
    for k := 0 to |part.current|
      invariant Found(part, k, kept, conflicts)
    {
      FoundMore(part, k, kept, conflicts);
      var row := part.current[k];
      if Truthy(Column(row, "locked")) {
        if row.id in d && d[row.id] == row {
          kept := kept + {row.id};
        } else if row.id !in kept {
          conflicts := conflicts + {row.id};
        }
      }
    }
    FoundAll(part, kept, conflicts);
  }

  /** Records and settings the initialization accepts. */
  predicate Usables(part: Part) {
    && ValidRecords(part.spec, part.incoming) && AllUsable(part.spec, part.cfg, part.incoming)
    && ValidRecords(part.spec, DesiredRows(part))
  }

  predicate Undisputed(part: Part) {
    Blocked(part.cfg, part.current, part.incoming) == [] && Changing(part) == {}
  }

  /** A row the follower protects or has locked. */
  predicate Local(part: Part, r: Row) {
    r.id in part.cfg.protected || HasLock(part.spec, r)
  }

  /** Kept rows are among the desired ones, unchanged; protected and locked rows are kept. */
  lemma KeptAgree(part: Part, t: Table)
    requires Stored(part.spec, part.current, t) && Usables(part) && Undisputed(part)
    ensures forall i :: i in Kept(part) ==> Agrees(t, ById(DesiredRows(part)), i)
    ensures forall i :: i in t && Local(part, t[i]) ==> i in Kept(part)
  {
    IndexRows(part.current);
    forall i | i in t && i in part.cfg.protected ensures Agrees(t, ById(DesiredRows(part)), i) {
      ProtectedDesired(part.spec, part.cfg, part.current, part.incoming, t, i);
    }
    LockedExactly(part.spec, part.current);
    forall i | i in t && HasLock(part.spec, t[i]) ensures i in Kept(part) {
      assert LockedRow(part.spec, part.current, i);
      assert i !in Changing(part);
    }
  }

  // ----- Replacing the tables -----

  /** What becomes of one table. */
  datatype Swap = Swap(current: Table, desired: Table, kept: set<int>)

  predicate Consistent(w: Swap) {
    && Keyed(w.current) && Keyed(w.desired)
    && forall i :: i in w.kept ==> Agrees(w.current, w.desired, i)
  }

  /** Rows of one version of the table, all kept rows among them. */
  predicate Within(w: Swap, whole: Table, t: Table) {
    && (forall i :: i in t ==> i in whole && t[i] == whole[i])
    && (forall i :: i in w.kept ==> i in t)
  }

  /** A state of the replacement: each table has only old rows or only desired ones. */
  predicate Midway(swaps: seq<Swap>, s: Tables) {
    && |s| == |swaps|
    && forall d :: 0 <= d < |s| ==> Within(swaps[d], swaps[d].current, s[d]) || Within(swaps[d], swaps[d].desired, s[d])
  }

  ghost predicate AllMidway(swaps: seq<Swap>, h: seq<Tables>) {
    forall s :: s in h ==> Midway(swaps, s)
  }

  lemma OneMoreMidway(swaps: seq<Swap>, h: seq<Tables>, s: Tables)
    requires AllMidway(swaps, h) && Midway(swaps, s)
    ensures AllMidway(swaps, h + [s])
  {
  }

  function KeptRows(w: Swap): Table {
    map i | i in w.current && i in w.kept :: w.current[i]
  }

  lemma Emptied(w: Swap, t: Table)
    requires Consistent(w) && Within(w, w.current, t) && t.Keys - w.kept == {}
    ensures t == KeptRows(w)
  {
    forall i | i in t ensures i in w.kept { assert i !in t.Keys - w.kept; }
    assert forall i :: i in t <==> i in KeptRows(w);
    assert forall i :: i in t ==> t[i] == KeptRows(w)[i];
    assert t.Keys == KeptRows(w).Keys;
  }

  lemma Filled(w: Swap, t: Table)
    requires Within(w, w.desired, t) && forall i :: i in w.desired ==> i in t
    ensures t == w.desired
  {
    assert forall i :: i in t <==> i in w.desired;
    assert forall i :: i in t ==> t[i] == w.desired[i];
    assert t.Keys == w.desired.Keys;
  }

  /** Delete all rows of one table but the kept ones, in any order. */
  method Empty(db: Database, swaps: seq<Swap>, d: nat)
    requires Midway(swaps, db.tables) && d < |swaps| && Consistent(swaps[d]) && db.tables[d] == swaps[d].current
    requires db.Recorded() && AllMidway(swaps, db.history)
    modifies db
    ensures db.tables == old(db.tables)[d := KeptRows(swaps[d])]
    ensures Midway(swaps, db.tables)
    ensures db.Recorded() && db.origin == old(db.origin) && AllMidway(swaps, db.history)
  {
    var w := swaps[d];
    var todo: set<int> := db.tables[d].Keys - w.kept;
    while todo != {}
      invariant |db.tables| == |swaps| && todo == db.tables[d].Keys - w.kept
      invariant forall e :: 0 <= e < |swaps| && e != d ==> db.tables[e] == old(db.tables)[e]
      invariant Within(w, w.current, db.tables[d])
      invariant db.Recorded() && db.origin == old(db.origin) && AllMidway(swaps, db.history)
      decreases todo
    {
      HasMember(todo);
      var id :| id in todo;
      db.Delete(d, id);
      todo := todo - {id};
    }
    Emptied(w, db.tables[d]);
  }

  /** Insert the desired rows that were not kept; each id is free when its row comes. */
  method Fill(db: Database, swaps: seq<Swap>, d: nat, rows: seq<Row>)
    requires Midway(swaps, db.tables) && d < |swaps| && Consistent(swaps[d]) && db.tables[d] == KeptRows(swaps[d])
    requires Lists(rows, swaps[d].desired)
    requires db.Recorded() && AllMidway(swaps, db.history)
    modifies db
    ensures db.tables == old(db.tables)[d := swaps[d].desired]
    ensures Midway(swaps, db.tables)
    ensures db.Recorded() && db.origin == old(db.origin) && AllMidway(swaps, db.history)
  {
    hide ById, AllMidway;
    var w := swaps[d];
    for k := 0 to |rows|
      invariant |db.tables| == |swaps|
      invariant forall e :: 0 <= e < |swaps| && e != d ==> db.tables[e] == old(db.tables)[e]
      invariant Within(w, w.desired, db.tables[d])
      invariant forall j :: 0 <= j < k ==> rows[j].id in db.tables[d]
      invariant forall j :: k <= j < |rows| && rows[j].id !in w.kept ==> rows[j].id !in db.tables[d]
      invariant db.Recorded() && db.origin == old(db.origin) && AllMidway(swaps, db.history)
    {
      DistinctById(rows, k);
      if rows[k].id !in w.kept {
        ghost var before := db.history;
        db.Insert(d, rows[k]);
        OneMoreMidway(swaps, before, db.tables);
      }
    }
    IndexRows(rows);
    forall i | i in w.desired ensures i in db.tables[d] {
      var j :| 0 <= j < |rows| && rows[j] == w.desired[i];
    }
    Filled(w, db.tables[d]);
  }

  /** Replace all tables: empty them in reverse order, then fill them in order. */
  method Replace(db: Database, swaps: seq<Swap>, rows: seq<seq<Row>>)
    requires |swaps| == |rows| == |db.tables| && db.history == [] && db.Recorded()
    requires forall d :: 0 <= d < |swaps| ==>
      Consistent(swaps[d]) && db.tables[d] == swaps[d].current && Lists(rows[d], swaps[d].desired)
    modifies db
    ensures |db.tables| == |swaps| && forall d :: 0 <= d < |swaps| ==> db.tables[d] == swaps[d].desired
    ensures db.Recorded() && db.origin == old(db.origin) && AllMidway(swaps, db.history)
  {
    var d := |swaps|;
    while 0 < d
      invariant 0 <= d <= |swaps| && Midway(swaps, db.tables)
      invariant forall e :: 0 <= e < d ==> db.tables[e] == swaps[e].current
      invariant forall e :: d <= e < |swaps| ==> db.tables[e] == KeptRows(swaps[e])
      invariant db.Recorded() && db.origin == old(db.origin) && AllMidway(swaps, db.history)
    {
      d := d - 1;
      Empty(db, swaps, d);
    }
    while d < |swaps|
      invariant 0 <= d <= |swaps| && Midway(swaps, db.tables)
      invariant forall e :: 0 <= e < d ==> db.tables[e] == swaps[e].desired
      invariant forall e :: d <= e < |swaps| ==> db.tables[e] == KeptRows(swaps[e])
      invariant db.Recorded() && db.origin == old(db.origin) && AllMidway(swaps, db.history)
    {
      Fill(db, swaps, d, rows[d]);
      d := d + 1;
    }
  }

  // ----- Main results -----

  function SwapOf(part: Part): Swap {
    Swap(ById(part.current), ById(DesiredRows(part)), Kept(part))
  }

  function Swaps(parts: seq<Part>): seq<Swap> {
    seq(|parts|, d requires 0 <= d < |parts| => SwapOf(parts[d]))
  }

  /** The part can be initialized from its stored rows. */
  ghost predicate Initializable(part: Part, t: Table) {
    Stored(part.spec, part.current, t) && Usables(part) && Undisputed(part)
  }

  lemma SwapFits(part: Part, t: Table)
    requires Initializable(part, t)
    ensures Consistent(SwapOf(part)) && SwapOf(part).current == t && Lists(DesiredRows(part), SwapOf(part).desired)
  {
    KeptAgree(part, t);
    IndexRows(part.current);
    IndexRows(DesiredRows(part));
  }

  /** No state of an initialization breaks a unique key, or touches a protected or locked row. */
  lemma MidwaySafe(parts: seq<Part>, before: Tables, s: Tables, d: nat)
    requires |before| == |parts| && d < |parts| && Initializable(parts[d], before[d])
    requires Midway(Swaps(parts), s)
    ensures d < |s| && UniqueKeys(s[d], Keys(parts[d].spec))
    ensures forall i :: i in before[d] && Local(parts[d], before[d][i]) ==> i in s[d] && s[d][i] == before[d][i]
  {
    var part := parts[d];
    SwapFits(part, before[d]);
    KeptAgree(part, before[d]);
    forall key | key in Keys(part.spec) ensures UniqueKey(s[d], key) {
      ListingKeys(part.current, before[d], key);
      ListingKeys(DesiredRows(part), ById(DesiredRows(part)), key);
      assert Within(SwapOf(part), before[d], s[d]) || Within(SwapOf(part), ById(DesiredRows(part)), s[d]);
    }
    assert Swaps(parts)[d] == SwapOf(part);
  }

  // ----- The whole initialization -----

  datatype Report = Rejected | Disputed | ReferencesInWay | Initialized

  /** The records outside the scope that refer to each domain, relation by relation. */
  type External = seq<seq<Relation>>

  function Deleted(part: Part): set<int> {
    ById(part.current).Keys - Kept(part)
  }

  ghost predicate PartDecided(part: Part, relations: seq<Relation>, actions: seq<Action>) {
    |actions| == |relations| && forall k :: 0 <= k < |relations| ==>
      Decided(relations[k], Deleted(part), ById(part.current), DesiredRows(part), part.spec.natural, actions[k])
  }

  ghost predicate AllDecided(parts: seq<Part>, external: External, actions: seq<seq<Action>>) {
    |actions| == |external| == |parts| &&
    forall d :: 0 <= d < |parts| ==> PartDecided(parts[d], external[d], actions[d])
  }

  predicate Clear(actions: seq<Action>) {
    forall k :: 0 <= k < |actions| ==> actions[k] != Action.Conflict
  }

  predicate NoConflict(actions: seq<seq<Action>>) {
    forall d :: 0 <= d < |actions| ==> Clear(actions[d])
  }

  function Outcomes(relations: seq<Relation>, actions: seq<Action>): seq<Relation>
    requires |relations| == |actions|
  {
    seq(|relations|, k requires 0 <= k < |relations| => Outcome(relations[k], actions[k]))
  }

  method PlanPart(part: Part, relations: seq<Relation>, kept: set<int>) returns (actions: seq<Action>, ok: bool)
    requires kept == Kept(part)
    ensures PartDecided(part, relations, actions)
    ensures ok <==> Clear(actions)
  {
    actions, ok := [], true;
    for k := 0 to |relations|
      invariant |actions| == k && forall j :: 0 <= j < k ==>
        Decided(relations[j], Deleted(part), ById(part.current), DesiredRows(part), part.spec.natural, actions[j])
      invariant ok <==> Clear(actions)
    {
      var action := PlanRelation(
        relations[k], ById(part.current).Keys - kept, ById(part.current), DesiredRows(part), part.spec.natural);
      ghost var before := actions;
      actions := actions + [action];
      assert actions[k] == action && forall j :: 0 <= j < k ==> actions[j] == before[j];
      ok := ok && action != Action.Conflict;
    }
  }

  lemma OneMore(actions: seq<seq<Action>>, planned: seq<Action>)
    ensures NoConflict(actions + [planned]) <==> NoConflict(actions) && Clear(planned)
  {
    var longer := actions + [planned];
    assert longer[|actions|] == planned;
    assert forall d :: 0 <= d < |actions| ==> longer[d] == actions[d];
  }

  lemma NoneYet()
    ensures NoConflict([])
  {
  }

  method PlanExternal(parts: seq<Part>, external: External) returns (actions: seq<seq<Action>>, ok: bool)
    requires |external| == |parts|
    ensures AllDecided(parts, external, actions)
    ensures ok <==> NoConflict(actions)
  {
    hide PartDecided, Kept, Clear, NoConflict;
    NoneYet();
    actions, ok := [], true;
    for d := 0 to |parts|
      invariant |actions| == d && forall e :: 0 <= e < d ==> PartDecided(parts[e], external[e], actions[e])
      invariant ok <==> NoConflict(actions)
    {
      var planned, clean := PlanPart(parts[d], external[d], Kept(parts[d]));
      OneMore(actions, planned);
      actions := actions + [planned];
      ok := ok && clean;
    }
  }

  method CarryOutAll(relations: seq<Relation>, actions: seq<Action>) returns (moved: seq<Relation>)
    requires |relations| == |actions|
    ensures moved == Outcomes(relations, actions)
  {
    moved := [];
    for k := 0 to |relations|
      invariant |moved| == k && forall j :: 0 <= j < k ==> moved[j] == Outcome(relations[j], actions[j])
    {
      var r := CarryOut(relations[k], actions[k]);
      moved := moved + [r];
    }
  }

  predicate AllUsables(parts: seq<Part>) {
    forall d :: 0 <= d < |parts| ==> Usables(parts[d])
  }

  predicate AllUndisputed(parts: seq<Part>) {
    forall d :: 0 <= d < |parts| ==> Undisputed(parts[d])
  }

  /** Records or settings an initialization refuses. */
  ghost predicate Inadmissible(part: Part) {
    || Unfit(part.spec, part.incoming)
    || (exists k :: 0 <= k < |part.incoming| && Refused(part.spec, part.cfg, part.incoming[k]))
    || Unfit(part.spec, DesiredRows(part))
  }

  /** A record waits for a decision, or a locked row would change. */
  ghost predicate InDispute(part: Part) {
    || (exists i :: Waits(part.cfg, part.current, part.incoming, i))
    || (exists k :: 0 <= k < |part.current| && HasLock(part.spec, part.current[k]) && !Stays(part, part.current[k]))
  }

  lemma NoneAmong(s: seq<int>)
    ensures s == [] <==> forall i :: i !in s
  {
    if s != [] {
      var i := s[0];
      assert i in s;
    }
  }

  lemma InDisputeExactly(part: Part)
    requires DistinctIds(part.current) && DistinctIds(DesiredRows(part))
    ensures Undisputed(part) <==> !InDispute(part)
  {
    var blocked := Blocked(part.cfg, part.current, part.incoming);
    forall i ensures i in blocked <==> Waits(part.cfg, part.current, part.incoming, i) {
      BlockedExactly(part.cfg, part.current, part.incoming, i);
    }
    forall k | 0 <= k < |part.current|
      ensures part.current[k].id in Changing(part) <==>
        HasLock(part.spec, part.current[k]) && !Stays(part, part.current[k])
    {
      KeptExactly(part, k);
    }
    ChangingAmong(part);
    hide Changing, Blocked, Waits, HasLock, Stays, DesiredRows;
    NoneAmong(blocked);
    assert (exists i :: Waits(part.cfg, part.current, part.incoming, i)) <==> blocked != [];
  }

  lemma ChangingAmong(part: Part)
    ensures Changing(part) != {} ==> exists k :: 0 <= k < |part.current| && part.current[k].id in Changing(part)
  {
    if Changing(part) != {} {
      HasMember(Changing(part));
      var i :| i in Changing(part);
      assert i in LockedIds(part.spec, part.current);
    }
  }

  method InspectPart(part: Part) returns (usable: bool, undisputed: bool)
    requires DistinctIds(part.current)
    ensures usable == Usables(part)
    ensures usable <==> !Inadmissible(part)
    ensures usable ==> undisputed == Undisputed(part)
    ensures usable ==> (undisputed <==> !InDispute(part))
  {
    UnfitExactly(part.spec, DesiredRows(part));
    hide AllUsable, Kept, Changing, Desired, AllPrepared, Refused, Unfit, Blocked, InDispute, HasLock, Stays;
    undisputed := false;
    usable := ValidateRecords(part.spec, part.incoming);
    if !usable { return; }
    var prepared := PrepareDesired(part.spec, part.cfg, part.current, part.incoming);
    if prepared.None? { return false, false; }
    usable := ValidateRecords(part.spec, prepared.value);
    if !usable { return; }
    InDisputeExactly(part);
    var kept, changing := PreservedIds(part);
    undisputed := Blocked(part.cfg, part.current, part.incoming) == [] && changing == {};
  }

  /** Validate every domain and collect what stands in its way. */
  method Inspect(parts: seq<Part>) returns (usable: bool, undisputed: bool)
    requires AllListed(parts)
    ensures usable <==> AllUsables(parts)
    ensures usable <==> forall d :: 0 <= d < |parts| ==> !Inadmissible(parts[d])
    ensures usable ==> (undisputed <==> AllUndisputed(parts))
    ensures usable ==> (undisputed <==> forall d :: 0 <= d < |parts| ==> !InDispute(parts[d]))
  {
    hide Usables, Undisputed, Inadmissible, InDispute;
    undisputed := true;
    for d := 0 to |parts|
      invariant forall e :: 0 <= e < d ==> Usables(parts[e]) && !Inadmissible(parts[e])
      invariant undisputed <==> forall e :: 0 <= e < d ==> Undisputed(parts[e])
      invariant undisputed <==> forall e :: 0 <= e < d ==> !InDispute(parts[e])
    {
      var ok, clear := InspectPart(parts[d]);
      if !ok { return false, false; }
      undisputed := undisputed && clear;
    }
    usable := true;
  }

  /** Every stored row set is initialized: its domain qualified, and its table is the desired one. */
  ghost predicate AllInitialized(parts: seq<Part>, before: Tables, after: Tables) {
    && |parts| == |before| == |after|
    && forall d :: 0 <= d < |parts| ==>
         Initializable(parts[d], before[d]) && after[d] == ById(DesiredRows(parts[d]))
  }

  // ----- What becomes of the records outside the scope -----

  /** A stored row that initialization deletes: neither protected nor locked. */
  predicate Replaced(part: Part, i: int) {
    exists k :: 0 <= k < |part.current| && part.current[k].id == i && !Local(part, part.current[k])
  }

  lemma ReplacedExactly(part: Part, t: Table)
    requires Initializable(part, t)
    ensures forall i :: i in Deleted(part) <==> Replaced(part, i)
  {
    hide DesiredRows, Usables;
    KeptAgree(part, t);
    IndexRows(part.current);
    forall k | 0 <= k < |part.current| ensures t[part.current[k].id] == part.current[k] {
      DistinctById(part.current, k);
    }
    forall i | i in Kept(part) ensures Local(part, t[i]) {
      LockedExactly(part.spec, part.current);
      hide HasLock, LockedIds;
    }
    hide Kept, Local, Undisputed;
  }

  /** A desired row stands for a stored one: it has its natural identity, and this id. */
  predicate StandsFor(part: Part, i: int, j: int) {
    exists k, l :: 0 <= k < |part.current| && 0 <= l < |DesiredRows(part)| &&
      part.current[k].id == i && DesiredRows(part)[l].id == j &&
      Identity(part.current[k], part.spec.natural) == Identity(DesiredRows(part)[l], part.spec.natural)
  }

  /** A relation can be carried along: no record in it refers to a replaced row, or all of them can go, or it is
      history that finds a desired row for each. */
  ghost predicate InWay(part: Part, rel: Relation) {
    exists r :: r in rel.refs && Replaced(part, rel.refs[r]) && !rel.kind.Derived? &&
      (rel.kind.Other? || rel.unique || forall j :: !StandsFor(part, rel.refs[r], j))
  }

  /** Two replaced rows that are referred to: the first is replaced by a row under the id of the second. */
  ghost predicate TradesIds(part: Part, rel: Relation) {
    exists r, s :: r in rel.refs && s in rel.refs && rel.refs[r] != rel.refs[s] &&
      Replaced(part, rel.refs[r]) && Replaced(part, rel.refs[s]) &&
      StandsFor(part, rel.refs[r], rel.refs[s]) && !StandsFor(part, rel.refs[s], rel.refs[s])
  }

  /** What becomes of a relation: derived records of replaced rows go and no others do; a reference to any other
      row stays; and each record of history that referred to a replaced row refers to a desired one, the one that
      stands for it unless ids are traded. */
  ghost predicate CarriedAlong(part: Part, rel: Relation, rel': Relation) {
    && rel'.kind == rel.kind && rel'.unique == rel.unique
    && (forall r :: r in rel'.refs <==> r in rel.refs && !(rel.kind.Derived? && Replaced(part, rel.refs[r])))
    && (forall r :: r in rel'.refs && !Replaced(part, rel.refs[r]) ==> rel'.refs[r] == rel.refs[r])
    && (forall r :: r in rel'.refs && Replaced(part, rel.refs[r]) ==> HasId(DesiredRows(part), rel'.refs[r]))
    && (forall r :: r in rel'.refs && Replaced(part, rel.refs[r]) && !TradesIds(part, rel) ==>
          StandsFor(part, rel.refs[r], rel'.refs[r]))
  }

  lemma StoredAt(part: Part, t: Table, k: nat)
    requires Initializable(part, t) && k < |part.current|
    ensures part.current[k].id in t && t[part.current[k].id] == part.current[k]
  {
    DistinctById(part.current, k);
  }

  /** The planner's replacement is a desired row that stands for the stored one, if there is one. */
  lemma TargetStands(part: Part, t: Table, i: int)
    requires Initializable(part, t)
    ensures var target := Target(t, DesiredRows(part), part.spec.natural, i);
      if target.Some? then StandsFor(part, i, target.value) else forall j :: !StandsFor(part, i, j)
  {
    hide DesiredRows, Usables, Undisputed;
    var rows, natural := DesiredRows(part), part.spec.natural;
    ByNaturalSound(rows, natural);
    IndexRows(part.current);
    forall k | 0 <= k < |part.current| ensures part.current[k].id in t && t[part.current[k].id] == part.current[k] {
      StoredAt(part, t, k);
    }
    hide ById, ByNatural;
    if i in t {
      var k :| 0 <= k < |part.current| && part.current[k] == t[i];
    }
  }

  /** Where two ids collide, they are traded. */
  lemma CollidesMeansTraded(part: Part, t: Table, rel: Relation)
    requires Initializable(part, t) && Collides(rel, Deleted(part), t, DesiredRows(part), part.spec.natural)
    ensures TradesIds(part, rel)
  {
    var rows, natural := DesiredRows(part), part.spec.natural;
    ReplacedExactly(part, t);
    assert DistinctIds(rows);
    hide DesiredRows, Usables, Undisputed, Deleted, Replaced;
    var a, b :| a in Touched(rel, Deleted(part)) && b in Touched(rel, Deleted(part)) && a != b &&
      Target(t, rows, natural, a) == Some(b) && Target(t, rows, natural, b) != Some(b);
    var r :| r in rel.refs && rel.refs[r] == a;
    var s :| s in rel.refs && rel.refs[s] == b;
    TargetStands(part, t, a);
    if StandsFor(part, b, b) {
      SameTarget(part, t, a, b);
      assert false;
    }
  }

  /** Two stored rows one desired row stands for have the same replacement. */
  lemma SameTarget(part: Part, t: Table, a: int, b: int)
    requires Initializable(part, t) && StandsFor(part, a, b) && StandsFor(part, b, b)
    ensures Target(t, DesiredRows(part), part.spec.natural, a) == Target(t, DesiredRows(part), part.spec.natural, b)
  {
    var rows, natural := DesiredRows(part), part.spec.natural;
    hide DesiredRows, Undisputed;
    var k, l :| 0 <= k < |part.current| && 0 <= l < |rows| && part.current[k].id == a && rows[l].id == b &&
      Identity(part.current[k], natural) == Identity(rows[l], natural);
    var m, n :| 0 <= m < |part.current| && 0 <= n < |rows| && part.current[m].id == b && rows[n].id == b &&
      Identity(part.current[m], natural) == Identity(rows[n], natural);
    assert l == n;
    StoredAt(part, t, k);
    StoredAt(part, t, m);
  }

  /** A relation is in the way exactly when some record of it can neither go nor follow. */
  lemma InWayExactly(part: Part, t: Table, rel: Relation, action: Action)
    requires Initializable(part, t)
    requires Decided(rel, Deleted(part), t, DesiredRows(part), part.spec.natural, action)
    ensures action == Action.Conflict <==> InWay(part, rel)
  {
    ReplacedExactly(part, t);
    forall i ensures var target := Target(t, DesiredRows(part), part.spec.natural, i);
      if target.Some? then StandsFor(part, i, target.value) else forall j :: !StandsFor(part, i, j)
    {
      TargetStands(part, t, i);
    }
    hide Initializable, DesiredRows, Deleted, Replaced, Target, StandsFor;
    var touched := Touched(rel, Deleted(part));
    forall i ensures i in touched <==> exists r :: r in rel.refs && rel.refs[r] == i && Replaced(part, i) {}
    hide Touched;
    if InWay(part, rel) {
      var r :| r in rel.refs && Replaced(part, rel.refs[r]) && !rel.kind.Derived? &&
        (rel.kind.Other? || rel.unique || forall j :: !StandsFor(part, rel.refs[r], j));
      assert rel.refs[r] in touched;
    }
  }

  /** What becomes of one reference. */
  lemma ReferenceFollows(part: Part, t: Table, rel: Relation, m: Mapping, r: int)
    requires Initializable(part, t) && r in rel.refs
    requires Covers(rel, Deleted(part), t, DesiredRows(part), part.spec.natural, m)
    ensures var i, j := rel.refs[r], Sequential(m, rel.refs[r]);
      && (!Replaced(part, i) ==> j == i)
      && (Replaced(part, i) ==> HasId(DesiredRows(part), j))
      && (Replaced(part, i) && !TradesIds(part, rel) ==> StandsFor(part, i, j))
  {
    var i, natural := rel.refs[r], part.spec.natural;
    ReplacedExactly(part, t);
    IdsIndexed(DesiredRows(part), Sequential(m, i));
    hide DesiredRows, Usables, Undisputed, Deleted, HasId, Replaced, Target;
    if i in Deleted(part) {
      assert i in Touched(rel, Deleted(part));
      MovedIsDesired(m, t, DesiredRows(part), natural, i);
      if !TradesIds(part, rel) {
        if Collides(rel, Deleted(part), t, DesiredRows(part), natural) { CollidesMeansTraded(part, t, rel); }
        HistoryFollows(rel, Deleted(part), t, DesiredRows(part), natural, m, r);
        HistoryStands(part, t, i, Sequential(m, i));
      }
    } else {
      assert i !in Sources(m);
      OthersStay(m, i);
    }
  }

  lemma HistoryStands(part: Part, t: Table, i: int, j: int)
    requires Initializable(part, t) && i in t
    requires exists k ::
      0 <= k < |DesiredRows(part)| && DesiredRows(part)[k].id == j &&
      Identity(DesiredRows(part)[k], part.spec.natural) == Identity(t[i], part.spec.natural)
    ensures StandsFor(part, i, j)
  {
    hide DesiredRows, Usables, Undisputed;
    IndexRows(part.current);
    var k :| 0 <= k < |part.current| && part.current[k] == t[i];
  }

  lemma MoveCarries(part: Part, t: Table, rel: Relation, m: Mapping)
    requires Initializable(part, t) && !rel.kind.Derived?
    requires Covers(rel, Deleted(part), t, DesiredRows(part), part.spec.natural, m)
    ensures CarriedAlong(part, rel, Outcome(rel, Move(m)))
  {
    forall r | r in rel.refs
      ensures var i, j := rel.refs[r], Sequential(m, rel.refs[r]);
        && (!Replaced(part, i) ==> j == i)
        && (Replaced(part, i) ==> HasId(DesiredRows(part), j))
        && (Replaced(part, i) && !TradesIds(part, rel) ==> StandsFor(part, i, j))
    {
      ReferenceFollows(part, t, rel, m, r);
    }
    hide Initializable, DesiredRows, HasId, Replaced, Target, StandsFor, TradesIds, Sequential;
  }

  lemma Carries(part: Part, t: Table, rel: Relation, action: Action)
    requires Initializable(part, t) && action != Action.Conflict
    requires Decided(rel, Deleted(part), t, DesiredRows(part), part.spec.natural, action)
    ensures CarriedAlong(part, rel, Outcome(rel, action))
  {
    if action.Move? {
      MoveCarries(part, t, rel, action.mapping);
    } else {
      ReplacedExactly(part, t);
      hide Initializable, DesiredRows, Deleted, HasId, Replaced, Target, StandsFor, TradesIds, Sequential;
      forall r | r in rel.refs ensures rel.refs[r] in Deleted(part) ==> rel.refs[r] in Touched(rel, Deleted(part)) {}
    }
  }

  ghost predicate AnyInWay(parts: seq<Part>, external: External) {
    exists d, k :: 0 <= d < |parts| && d < |external| && 0 <= k < |external[d]| && InWay(parts[d], external[d][k])
  }

  ghost predicate AllCarriedAlong(parts: seq<Part>, external: External, external': External) {
    && |external'| == |external| == |parts|
    && forall d :: 0 <= d < |parts| ==>
         && |external'[d]| == |external[d]|
         && forall k :: 0 <= k < |external[d]| ==> CarriedAlong(parts[d], external[d][k], external'[d][k])
  }

  lemma ClearExactly(parts: seq<Part>, s: Tables, external: External, actions: seq<seq<Action>>)
    requires |s| == |parts| && forall d :: 0 <= d < |parts| ==> Initializable(parts[d], s[d])
    requires AllDecided(parts, external, actions)
    ensures NoConflict(actions) <==> !AnyInWay(parts, external)
  {
    hide Initializable, InWay, Decided;
    forall d, k | 0 <= d < |parts| && 0 <= k < |external[d]|
      ensures PartDecided(parts[d], external[d], actions[d])
      ensures k < |actions[d]| && (actions[d][k] == Action.Conflict <==> InWay(parts[d], external[d][k]))
    {
      IndexOfStored(parts[d], s[d]);
      InWayExactly(parts[d], s[d], external[d][k], actions[d][k]);
    }
    if NoConflict(actions) {
      forall d | 0 <= d < |actions| ensures Clear(actions[d]) {}
    } else {
      var d :| 0 <= d < |actions| && !Clear(actions[d]);
      var k :| 0 <= k < |actions[d]| && actions[d][k] == Action.Conflict;
      assert PartDecided(parts[d], external[d], actions[d]);
    }
  }

  lemma IndexOfStored(part: Part, t: Table)
    requires Initializable(part, t)
    ensures ById(part.current) == t
  {
  }

  lemma AllCarry(parts: seq<Part>, s: Tables, external: External, actions: seq<seq<Action>>)
    requires |s| == |parts| && forall d :: 0 <= d < |parts| ==> Initializable(parts[d], s[d])
    requires AllDecided(parts, external, actions) && NoConflict(actions)
    requires |external| == |actions| && forall d :: 0 <= d < |external| ==> |external[d]| == |actions[d]|
    ensures AllCarriedAlong(parts, external, AllOutcomes(external, actions))
  {
    hide Initializable, CarriedAlong, Decided, Outcome;
    forall d, k | 0 <= d < |parts| && 0 <= k < |external[d]|
      ensures CarriedAlong(parts[d], external[d][k], Outcome(external[d][k], actions[d][k]))
    {
      assert PartDecided(parts[d], external[d], actions[d]) && Clear(actions[d]);
      IndexOfStored(parts[d], s[d]);
      Carries(parts[d], s[d], external[d][k], actions[d][k]);
    }
  }

  function AllOutcomes(external: External, actions: seq<seq<Action>>): External
    requires |external| == |actions| && forall d :: 0 <= d < |external| ==> |external[d]| == |actions[d]|
  {
    seq(|external|, d requires 0 <= d < |external| => Outcomes(external[d], actions[d]))
  }

  method CarryOutParts(external: External, actions: seq<seq<Action>>) returns (moved: External)
    requires |external| == |actions| && forall d :: 0 <= d < |external| ==> |external[d]| == |actions[d]|
    ensures moved == AllOutcomes(external, actions)
  {
    moved := [];
    for d := 0 to |external|
      invariant |moved| == d && forall e :: 0 <= e < d ==> moved[e] == Outcomes(external[e], actions[e])
    {
      var relations := CarryOutAll(external[d], actions[d]);
      moved := moved + [relations];
    }
  }

  /** Bundles and settings an initialization accepts. */
  predicate Admissible(locals: seq<Local>, bundle: Bundle.Snapshot) {
    InScope(locals, bundle) && AllUsables(Parts(locals, bundle))
  }

  lemma StoredInitializable(parts: seq<Part>, s: Tables)
    requires AllStored(parts, s) && AllUsables(parts) && AllUndisputed(parts)
    ensures forall d :: 0 <= d < |parts| ==> Initializable(parts[d], s[d])
  {
  }

  /** The tables of all domains become their desired ones; locks hold on the way. */
  method ReplaceParts(db: Database, parts: seq<Part>)
    requires AllStored(parts, db.tables) && AllUsables(parts) && AllUndisputed(parts)
    requires db.history == [] && db.Recorded()
    modifies db
    ensures AllInitialized(parts, old(db.tables), db.tables)
    ensures db.Recorded() && db.origin == old(db.tables) && AllMidway(Swaps(parts), db.history)
    ensures forall s :: s in db.history ==> LocksHold(parts, old(db.tables), s)
  {
    hide Consistent, AllUsables, AllUndisputed, Initializable, LocksHold, Midway;
    ghost var before := db.tables;
    SwapsFit(parts, before);
    Replace(db, Swaps(parts), seq(|parts|, d requires 0 <= d < |parts| => DesiredRows(parts[d])));
    forall s | s in db.history ensures LocksHold(parts, before, s) { LocksHoldMidway(parts, before, s); }
  }

  /** A domain is missing or unexpected, or its records or settings are refused. */
  ghost predicate Rejects(locals: seq<Local>, bundle: Bundle.Snapshot) {
    || Missing(locals, bundle) || Unexpected(locals, bundle)
    || exists d :: 0 <= d < |locals| && Inadmissible(Parts(locals, bundle)[d])
  }

  /** Initialize the follower: unless the bundle is rejected, a row is disputed or a reference is in the
      way, every table becomes exactly its desired rows, a row at a time, and the outside references are
      carried along. */
  method InitializeDomains(db: Database, locals: seq<Local>, bundle: Bundle.Snapshot, external: External)
    returns (report: Report, actions: seq<seq<Action>>, external': External)
    requires AllStored(Parts(locals, bundle), db.tables) && db.history == [] && db.Recorded()
    requires |external| == |locals|
    modifies db
    ensures report.Rejected? <==> !Admissible(locals, bundle)
    ensures report.Disputed? <==> Admissible(locals, bundle) && !AllUndisputed(Parts(locals, bundle))
    ensures report.Rejected? <==> Rejects(locals, bundle)
    ensures report.Disputed? <==>
      !Rejects(locals, bundle) && exists d :: 0 <= d < |locals| && InDispute(Parts(locals, bundle)[d])
    ensures !report.Rejected? && !report.Disputed? ==>
      AllDecided(Parts(locals, bundle), external, actions) && (report.Initialized? <==> NoConflict(actions))
    ensures !report.Initialized? ==> db.tables == old(db.tables) && db.history == [] && external' == external
    ensures report.Initialized? ==>
      && AllInitialized(Parts(locals, bundle), old(db.tables), db.tables)
      && external' == AllOutcomes(external, actions)
    ensures db.Recorded() && db.origin == old(db.tables) && AllMidway(Swaps(Parts(locals, bundle)), db.history)
    ensures forall s :: s in db.history ==> LocksHold(Parts(locals, bundle), old(db.tables), s)
    ensures report.ReferencesInWay? <==>
      Admissible(locals, bundle) && AllUndisputed(Parts(locals, bundle)) && AnyInWay(Parts(locals, bundle), external)
    ensures report.Initialized? ==> AllCarriedAlong(Parts(locals, bundle), external, external')
  {
    hide AllUsables, AllUndisputed, PartDecided, Consistent, Usables, Undisputed, Kept, Changing, Clear, AnyInWay,
      AllCarriedAlong, LocksHold, InWay;
    hide Inadmissible, InDispute, Missing, Unexpected, AllDecided, AllInitialized, Initializable;
    actions, external' := [], external;
    var selected := SelectDomains(locals, bundle);
    if selected.None? { return Report.Rejected, actions, external; }
    var parts := selected.value;
    var usable, undisputed := Inspect(parts);
    if !usable { return Report.Rejected, actions, external; }
    if !undisputed { return Disputed, actions, external; }
    var clear;
    actions, clear := PlanExternal(parts, external);
    StoredInitializable(parts, db.tables);
    ClearExactly(parts, db.tables, external, actions);
    if !clear { return ReferencesInWay, actions, external; }
    DecidedLengths(parts, external, actions);
    AllCarry(parts, db.tables, external, actions);
    external' := CarryOutParts(external, actions);
    ReplaceParts(db, parts);
    return Initialized, actions, external';
  }

  lemma LocksHoldMidway(parts: seq<Part>, before: Tables, s: Tables)
    requires |before| == |parts| && forall d :: 0 <= d < |parts| ==> Initializable(parts[d], before[d])
    requires Midway(Swaps(parts), s)
    ensures LocksHold(parts, before, s)
  {
    hide Initializable, Midway, HasLock;
    MidwayLength(parts, s);
    forall d, i | 0 <= d < |parts| && i in before[d] && HasLock(parts[d].spec, before[d][i])
      ensures i in s[d] && s[d][i] == before[d][i]
    {
      MidwaySafe(parts, before, s, d);
      assert Local(parts[d], before[d][i]);
    }
  }

  lemma MidwayLength(parts: seq<Part>, s: Tables)
    requires Midway(Swaps(parts), s)
    ensures |s| == |parts|
  {
  }

  lemma DecidedLengths(parts: seq<Part>, external: External, actions: seq<seq<Action>>)
    requires AllDecided(parts, external, actions)
    ensures |external| == |actions| && forall d :: 0 <= d < |external| ==> |external[d]| == |actions[d]|
  {
    forall d | 0 <= d < |external| ensures |external[d]| == |actions[d]| {
      assert PartDecided(parts[d], external[d], actions[d]);
    }
  }

  lemma SwapsFit(parts: seq<Part>, s: Tables)
    requires AllStored(parts, s) && AllUsables(parts) && AllUndisputed(parts)
    ensures forall d :: 0 <= d < |parts| ==>
      && Initializable(parts[d], s[d]) && Consistent(Swaps(parts)[d]) && s[d] == Swaps(parts)[d].current
      && Lists(DesiredRows(parts[d]), Swaps(parts)[d].desired)
  {
    forall d | 0 <= d < |parts|
      ensures Initializable(parts[d], s[d]) && Consistent(Swaps(parts)[d]) && s[d] == Swaps(parts)[d].current
      ensures Lists(DesiredRows(parts[d]), Swaps(parts)[d].desired)
    {
      SwapFits(parts[d], s[d]);
    }
  }

  /** After an initialization no record outside the scope refers to a row that is gone. */
  lemma NoReferenceLost(part: Part, t: Table, relations: seq<Relation>, actions: seq<Action>, k: nat, r: int)
    requires Initializable(part, t) && PartDecided(part, relations, actions) && Clear(actions) && k < |relations|
    requires forall x :: x in relations[k].refs ==> relations[k].refs[x] in t
    requires r in Outcome(relations[k], actions[k]).refs
    ensures r in relations[k].refs
    ensures Outcome(relations[k], actions[k]).refs[r] in ById(DesiredRows(part))
  {
    hide DesiredRows, Usables, Undisputed;
    KeptAgree(part, t);
    forall id | id in t && id !in Deleted(part) ensures id in ById(DesiredRows(part)) {
      assert Agrees(t, ById(DesiredRows(part)), id);
    }
    Remap.NoReferenceLost(relations[k], Deleted(part), t, DesiredRows(part), part.spec.natural, actions[k], r);
  }
}
