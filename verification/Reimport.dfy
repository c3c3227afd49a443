/** Importing the same bundle again, after an import or an initialization: with the configuration the first
    run left it changes nothing, and with an older one exactly when no record created disabled would be
    switched on. */
module Reimport {
  import opened Prelude
  import opened Records
  import opened Planner
  import opened Transaction
  import opened ImportSafety
  import opened Domains
  import opened DomainImport
  import Initialize

  /** A relation with surrogate ids: nothing of it is protected or waits for a policy, its natural key is
      its only key, and neither names the id nor is null. */
  predicate Relation(spec: Spec, cfg: Settings, incoming: seq<Row>) {
    && cfg.protected == {} && cfg.policy.None? && spec.uniques == [] && "id" !in spec.natural
    && forall k :: 0 <= k < |incoming| ==> !Nullable(Identity(Overridden(spec, cfg, incoming[k]), spec.natural))
  }

  /** The configuration an engine built afterwards reads: what was created disabled is protected. */
  function Reloaded(cfg: Settings, created: set<int>): Settings {
    cfg.(protected := cfg.protected + if cfg.policy == Some(Disabled) then created else {})
  }

  function Off(r: Row): Row {
    Row(r.id, r.cols["is_active" := Flag(false)])
  }

  /** A first run, an import or an initialization, and an import of the same bundle into what it left. The
      second runs under settings that protect at least what the first did, and at most what a reload would. */
  datatype Again = Again(part: Part, initialized: bool, cfg2: Settings, current2: seq<Row>) {
    /** The rows the first run aimed for, and the table it left. */
    function First(): seq<Row> {
      if initialized then Initialize.DesiredRows(part) else Aim(part.spec, part.cfg, part.current, part.incoming)
    }
    function Left(): Table {
      if initialized then ById(Initialize.DesiredRows(part)) else Final(part.Goal())
    }
    function Created(): set<int> { ById(First()).Keys - ById(part.current).Keys }

    function Repeat(): Part { Part(part.spec, cfg2, current2, part.incoming) }
    function Second(): seq<Row> { Desired(part.spec, cfg2, current2, part.incoming) }

    ghost predicate Valid() {
      && (if initialized then Initialize.Initializable(part, ById(part.current)) else part.Clean())
      && (part.spec.surrogate ==> Relation(part.spec, part.cfg, part.incoming))
      && Lists(current2, Left()) && Resettled()
    }

    predicate Resettled() {
      && cfg2 == part.cfg.(protected := cfg2.protected)
      && part.cfg.protected <= cfg2.protected <= Reloaded(part.cfg, Created()).protected
    }

    /** If the bundle's k-th record was created disabled, it is protected now or disabled at its source. */
    predicate StaysOff(k: nat)
      requires k < |part.incoming|
    {
      var r := Overridden(part.spec, part.cfg, part.incoming[k]);
      part.cfg.policy == Some(Disabled) && r.id !in ById(part.current) ==> r.id in cfg2.protected || Off(r) == r
    }

    /** What either kind of first run leaves behind. */
    ghost predicate Standing() {
      && ValidRecords(part.spec, part.incoming) && AllUsable(part.spec, part.cfg, part.incoming)
      && ValidRecords(part.spec, First()) && Keyed(ById(part.current))
      && (forall k :: 0 <= k < |First()| ==> First()[k].id in Left() && Left()[First()[k].id] == First()[k])
      && (forall i :: i in Left() ==>
            i in ById(First()) || (i in ById(part.current) && Left()[i] == ById(part.current)[i]))
      && (part.cfg.prune ==> Left().Keys <= ById(First()).Keys)
      && UniqueKeys(Left(), Keys(part.spec))
      && Blocked(part.cfg, part.current, part.incoming) == []
      && (part.spec.surrogate ==> Relation(part.spec, part.cfg, part.incoming))
      && Lists(current2, Left()) && Resettled()
    }
  }

  /** A conflict-free import leaves its rows, besides stored ones it had no part in, and every key unique. */
  lemma CleanLeaves(p: Part)
    requires p.Clean()
    ensures var g := p.Goal();
      && Keyed(g.current) && UniqueKeys(Final(g), Keys(p.spec))
      && (forall i :: i in g.desired ==> i in Final(g) && Final(g)[i] == g.desired[i])
      && (forall i :: i in Final(g) ==> i in g.desired || (i in g.current && Final(g)[i] == g.current[i]))
      && (g.prune ==> Final(g).Keys <= g.desired.Keys)
    ensures Blocked(p.cfg, p.current, p.incoming) == []
  {
    hide Acceptable, DomainPlan, Stored;
    ImportReaches(p.spec, p.cfg, p.current, p.incoming, p.Goal());
    CleanDomainPlan(p.spec, p.cfg, p.current, p.incoming);
    IndexRows(p.current);
  }

  lemma ImportStands(a: Again)
    requires a.Valid() && !a.initialized
    ensures a.Standing()
  {
    hide DomainPlan, ValidRecords, AllUsable, Blocked, Aim;
    CleanLeaves(a.part);
    forall k | 0 <= k < |a.First()|
      ensures a.First()[k].id in ById(a.First()) && ById(a.First())[a.First()[k].id] == a.First()[k]
    {
      Listed(a.First(), a.part.spec, k);
    }
  }

  lemma Listed(rows: seq<Row>, spec: Spec, k: nat)
    requires ValidRecords(spec, rows) && k < |rows|
    ensures rows[k].id in ById(rows) && ById(rows)[rows[k].id] == rows[k]
  {
    DistinctById(rows, k);
  }

  lemma InitializationStands(a: Again)
    requires a.Valid() && a.initialized
    ensures a.Standing()
  {
    var rows := a.First();
    IndexRows(a.part.current);
    IndexRows(rows);
    forall k | 0 <= k < |rows| ensures ById(rows)[rows[k].id] == rows[k] { DistinctById(rows, k); }
    forall key | key in Keys(a.part.spec) ensures UniqueKey(ById(rows), key) { ListingKeys(rows, ById(rows), key); }
  }

  lemma Stands(a: Again)
    requires a.Valid()
    ensures a.Standing()
  {
    if a.initialized { InitializationStands(a); } else { ImportStands(a); }
  }

  /** What an import remembers as local are the ids it plans to create. */
  lemma CreatedArePlanned(a: Again)
    requires a.Valid() && !a.initialized
    ensures a.Created() == set k | 0 <= k < |a.part.Plan().create| :: a.part.Plan().create[k].id
  {
    var p := a.part;
    var create := p.Plan().create;
    ImportReaches(p.spec, p.cfg, p.current, p.incoming, p.Goal());
    forall i | i in a.Created() ensures i in set k | 0 <= k < |create| :: create[k].id {
      assert p.Goal().desired[i] in create;
    }
    forall k | 0 <= k < |create| ensures create[k].id in a.Created() { assert create[k] in create; }
  }

  // ----- Planning rows that are already there -----

  /** A row the table already holds is kept. */
  lemma SettledRow(current: seq<Row>, t: Table, r: Row, natural: Key, keys: seq<Key>)
    requires Lists(current, t) && UniqueKeys(t, keys) && r.id in t && t[r.id] == r
    ensures Judge(current, natural, keys, r) == Keep
  {
    forall key | key in keys ensures DistinctKey(current, key) && Free(current, key, r) {
      ListingKeys(current, t, key);
      forall k | 0 <= k < |current| && current[k].id != r.id ensures !Clash(current[k], r, key) {
        DistinctById(current, k);
        assert !Clash(t[current[k].id], t[r.id], key);
      }
    }
    TakenMeansClash(current, keys, r);
    assert Changes(r, r) == map[];
  }

  /** Nothing is left over when every id is covered. */
  lemma {:induction false} NothingLeft(rows: seq<Row>, index: Table)
    requires forall k :: 0 <= k < |rows| ==> rows[k].id in index
    ensures Leftover(rows, index) == []
  {
    if rows != [] { NothingLeft(rows[..|rows| - 1], index); }
  }

  /** Rows that all equal the table's own rows plan to nothing. */
  lemma SettledPlan(current: seq<Row>, t: Table, rows: seq<Row>, natural: Key, keys: seq<Key>, allowDeletes: bool)
    requires Lists(current, t) && UniqueKeys(t, keys)
    requires forall k :: 0 <= k < |rows| ==> rows[k].id in t && t[rows[k].id] == rows[k]
    requires allowDeletes ==> t.Keys <= ById(rows).Keys
    ensures PlanOf(current, rows, natural, keys, allowDeletes) == EMPTY
  {
    forall r | r in SortById(rows) ensures Judge(current, natural, keys, r) == Keep {
      SameMembers(rows, r);
      SettledRow(current, t, r, natural, keys);
    }
    KeepsPlan(current, natural, keys, SortById(rows));
    if allowDeletes {
      var sorted := SortById(current);
      forall k | 0 <= k < |sorted| ensures sorted[k].id in ById(rows) {
        SameMembers(current, sorted[k]);
        var j :| 0 <= j < |current| && current[j] == sorted[k];
        DistinctById(current, j);
      }
      NothingLeft(sorted, ById(rows));
    }
  }

  lemma {:induction false} KeepsPlan(current: seq<Row>, natural: Key, keys: seq<Key>, rows: seq<Row>)
    requires forall r :: r in rows ==> Judge(current, natural, keys, r) == Keep
    ensures Judged(current, natural, keys, rows) == EMPTY
  {
    if rows != [] {
      KeepsPlan(current, natural, keys, rows[..|rows| - 1]);
      assert rows[|rows| - 1] in rows;
    }
  }

  // ----- The second preparation -----

  /** Rows that are exactly a table's. */
  ghost predicate Settled(rows: seq<Row>, t: Table) {
    && (forall k :: 0 <= k < |rows| ==> rows[k].id in t && t[rows[k].id] == rows[k])
    && t.Keys <= ById(rows).Keys
  }

  /** A row prepared once and stored is prepared to itself exactly unless it was created disabled, is not
      protected and is enabled at its source. */
  lemma PreparedTwice(cfg: Settings, cfg2: Settings, t: Table, t2: Table, r: Row)
    requires Keyed(t) && cfg2 == cfg.(protected := cfg2.protected) && cfg.protected <= cfg2.protected
    requires r.id in t2 && t2[r.id] == Prepared(cfg, t, r)
    ensures Prepared(cfg2, t2, r) == Prepared(cfg, t, r) <==>
      (cfg.policy == Some(Disabled) && r.id !in t ==> r.id in cfg2.protected || Off(r) == r)
    ensures Prepared(cfg2, t2, r) == Prepared(cfg, t, r) ||
      (Prepared(cfg2, t2, r) == r && Prepared(cfg, t, r) == Off(r))
  {
  }

  lemma FirstDesired(a: Again)
    requires !a.part.spec.surrogate
    ensures a.First() == Desired(a.part.spec, a.part.cfg, a.part.current, a.part.incoming)
  {
  }

  /** What the k-th record prepares to, the second time. */
  lemma IncomingAgain(a: Again, k: nat)
    requires a.Standing() && !a.part.spec.surrogate && k < |a.part.incoming|
    ensures k < |a.First()| && k < |a.Second()|
    ensures a.Second()[k].id == a.First()[k].id == a.part.incoming[k].id
    ensures a.Second()[k] == a.First()[k] <==> a.StaysOff(k)
    ensures a.Second()[k] == a.First()[k] || a.First()[k] == Off(a.Second()[k])
    ensures a.Second()[k] != a.First()[k] ==>
      a.Second()[k] == Overridden(a.part.spec, a.part.cfg, a.part.incoming[k])
  {
    var p := a.part;
    FirstDesired(a);
    DesiredAt(p.spec, p.cfg, p.current, p.incoming, k);
    DesiredAt(p.spec, a.cfg2, a.current2, p.incoming, k);
    PreparedTwice(p.cfg, a.cfg2, ById(p.current), a.Left(), Overridden(p.spec, p.cfg, p.incoming[k]));
  }

  /** A protected row Main does not carry was already among the first run's desired rows. */
  lemma SparedSettles(a: Again, r: Row)
    requires a.Standing() && !a.part.spec.surrogate && r in Spared(a.cfg2, a.current2, ById(a.part.incoming))
    ensures r.id in ById(a.First()) && ById(a.First())[r.id] == r
  {
    var p := a.part;
    SparedRows(a.cfg2, a.current2, ById(p.incoming), r);
    var k :| 0 <= k < |a.current2| && a.current2[k] == r;
    DistinctById(a.current2, k);
    IndexRows(a.First());
    if r.id !in ById(a.First()) {
      FirstDesired(a);
      IndexRows(p.current);
      SparedRows(p.cfg, p.current, ById(p.incoming), r);
      var j := SparedIndex(p.spec, p.cfg, p.current, p.incoming, r);
    }
  }

  /** Every desired id of the first run is aimed for again. */
  lemma DesiredCovered(a: Again, i: int)
    requires a.Standing() && !a.part.spec.surrogate && i in ById(a.First())
    ensures i in ById(a.Second())
  {
    var p := a.part;
    FirstDesired(a);
    IndexRows(a.First());
    DesiredIds(p.spec, p.cfg, p.current, p.incoming, i);
    DesiredIds(p.spec, a.cfg2, a.current2, p.incoming, i);
  }

  predicate AllStayOff(a: Again) {
    forall k :: 0 <= k < |a.part.incoming| ==> a.StaysOff(k)
  }

  lemma FirstListed(a: Again, k: nat)
    requires a.Standing() && k < |a.First()|
    ensures a.First()[k].id in ById(a.First()) && ById(a.First())[a.First()[k].id] == a.First()[k]
  {
    DistinctById(a.First(), k);
  }

  /** Records with ids of their own: the second import prepares exactly the first one's desired rows. */
  lemma RecordsSettle(a: Again)
    requires a.Standing() && !a.part.spec.surrogate && AllStayOff(a)
    ensures Settled(a.Second(), ById(a.First()))
  {
    hide Again.Standing;
    var rows, t, spared := a.Second(), ById(a.First()), Spared(a.cfg2, a.current2, ById(a.part.incoming));
    forall k | 0 <= k < |rows| ensures rows[k].id in t && t[rows[k].id] == rows[k] {
      if k < |a.part.incoming| {
        assert a.StaysOff(k);
        IncomingAgain(a, k);
        FirstListed(a, k);
      } else {
        assert rows[k] == spared[k - |a.part.incoming|];
        SparedSettles(a, rows[k]);
      }
    }
    forall i | i in t ensures i in ById(rows) { DesiredCovered(a, i); }
  }

  /** A relation without protection or policy prepares to its overridden rows. */
  lemma RelationDesired(spec: Spec, cfg: Settings, current: seq<Row>, incoming: seq<Row>)
    requires cfg.protected == {} && cfg.policy.None?
    ensures Desired(spec, cfg, current, incoming) == AllOverridden(spec, cfg, incoming)
  {
    var spared := Spared(cfg, current, ById(incoming));
    assert spared == [] by {
      if spared != [] { SparedRows(cfg, current, ById(incoming), spared[0]); }
    }
  }

  /** A listed row with a non-null identity is the one its identity finds. */
  lemma SettledIdentity(current: seq<Row>, t: Table, natural: Key, r: Row)
    requires Lists(current, t) && DistinctKey(current, natural) && r.id in t && t[r.id] == r
    requires !Nullable(Identity(r, natural))
    ensures Identity(r, natural) in Reconcile.ByNatural(current, natural)
    ensures Reconcile.ByNatural(current, natural)[Identity(r, natural)] == r.id
  {
    IndexRows(current);
    var j :| 0 <= j < |current| && current[j] == r;
    Reconcile.ByNaturalSound(current, natural);
    var x := Reconcile.KnownRow(current, natural, Identity(r, natural));
    assert current[x].id == current[j].id;
  }

  /** A relation's rows, each under the id the first run gave it. */
  lemma RelationFirst(a: Again, k: nat)
    requires a.Standing() && a.part.spec.surrogate && k < |a.part.incoming|
    ensures |a.First()| == |a.part.incoming|
    ensures a.First()[k].cols == Overridden(a.part.spec, a.part.cfg, a.part.incoming[k]).cols
  {
    RelationDesired(a.part.spec, a.part.cfg, a.part.current, a.part.incoming);
  }

  /** A relation's second preparation finds every row under the id the first run gave it. */
  lemma RelationSettles(a: Again)
    requires a.Standing() && a.part.spec.surrogate
    ensures Aim(a.part.spec, a.cfg2, a.current2, a.part.incoming) == a.First()
  {
    var p := a.part;
    var natural, rows := p.spec.natural, AllOverridden(p.spec, p.cfg, p.incoming);
    var first, second := a.First(), Aim(p.spec, a.cfg2, a.current2, p.incoming);
    assert a.cfg2 == p.cfg;
    RelationDesired(p.spec, p.cfg, a.current2, p.incoming);
    RelationDesired(p.spec, p.cfg, p.current, p.incoming);
    assert natural in Keys(p.spec);
    ListingKeys(a.current2, a.Left(), natural);
    forall k | 0 <= k < |rows| ensures second[k] == first[k] {
      RelationFirst(a, k);
      Reconcile.IdentityKept(rows[k], first[k].id, natural);
      SettledIdentity(a.current2, a.Left(), natural, first[k]);
    }
  }

  lemma Settles(a: Again)
    requires a.Standing() && AllStayOff(a)
    ensures var rows := Aim(a.part.spec, a.cfg2, a.current2, a.part.incoming);
      Settled(rows, ById(a.First())) && DistinctIds(rows)
  {
    if a.part.spec.surrogate {
      RelationSettles(a);
      forall k | 0 <= k < |a.First()|
        ensures a.First()[k].id in ById(a.First()) && ById(a.First())[a.First()[k].id] == a.First()[k]
      {
        FirstListed(a, k);
      }
    } else {
      RecordsSettle(a);
      DesiredDistinct(a.part.spec, a.cfg2, a.current2, a.part.incoming);
    }
  }

  /** Rows that settle are valid, and list the table again. */
  lemma SettledValid(spec: Spec, rows: seq<Row>, aim: seq<Row>)
    requires Settled(rows, ById(aim)) && DistinctIds(rows) && ValidRecords(spec, aim)
    ensures Lists(rows, ById(aim)) && ValidRecords(spec, rows)
  {
    var t, desired := ById(rows), ById(aim);
    IndexRows(rows);
    IndexRows(aim);
    forall i | i in t ensures i in desired && t[i] == desired[i] {}
    assert forall i :: i in desired ==> i in t;
    assert t.Keys == desired.Keys;
    assert t == desired;
    forall key | key in Keys(spec) ensures DistinctKey(rows, key) {
      ListingKeys(aim, desired, key);
      ListingKeys(rows, desired, key);
    }
    forall k | 0 <= k < |rows| ensures ValidRow(spec, rows[k]) { assert desired[rows[k].id] in aim; }
  }

  lemma {:induction false} NothingNew(t: Table, rows: seq<Row>)
    requires forall r :: r in rows ==> r.id in t
    ensures NewIds(t, rows) == []
  {
    if rows != [] {
      assert rows[|rows| - 1] in rows;
      NothingNew(t, rows[..|rows| - 1]);
    }
  }

  /** After the first run no incoming record waits for a decision. */
  lemma NothingBlocked(a: Again)
    requires a.Standing()
    ensures Blocked(a.cfg2, a.current2, a.part.incoming) == []
  {
    hide SortById, ById;
    if a.part.cfg.policy == Some(Block) {
      forall r | r in SortById(a.part.incoming) ensures r.id in a.Left() {
        SameMembers(a.part.incoming, r);
        var k :| 0 <= k < |a.part.incoming| && a.part.incoming[k] == r;
        IncomingAgain(a, k);
      }
      NothingNew(a.Left(), SortById(a.part.incoming));
    }
  }

  lemma SameUsable(spec: Spec, cfg: Settings, cfg2: Settings, rows: seq<Row>)
    requires AllUsable(spec, cfg, rows) && cfg2.overrides == cfg.overrides
    ensures AllUsable(spec, cfg2, rows)
  {
    forall k | 0 <= k < |rows| ensures Usable(spec, OverrideFor(spec, cfg2, rows[k])) {
      assert OverrideFor(spec, cfg2, rows[k]) == OverrideFor(spec, cfg, rows[k]);
    }
  }

  /** Where every record created disabled stays off, the second import is accepted and plans nothing. */
  lemma SettledImport(a: Again)
    requires a.Standing() && AllStayOff(a)
    ensures a.Repeat().Accepted() && a.Repeat().Plan() == EMPTY
  {
    var p := a.part;
    var rows := Aim(p.spec, a.cfg2, a.current2, p.incoming);
    Settles(a);
    SettledValid(p.spec, rows, a.First());
    SameUsable(p.spec, p.cfg, a.cfg2, p.incoming);
    IndexRows(a.First());
    SettledPlan(a.current2, a.Left(), rows, p.spec.natural, Keys(p.spec), p.cfg.prune);
    NothingBlocked(a);
  }

  // ----- Records that would be switched on -----

  /** A row that is not kept leaves a trace in the plan. */
  lemma NotKept(current: seq<Row>, natural: Key, keys: seq<Key>, rows: seq<Row>, r: Row)
    requires r in rows && Judge(current, natural, keys, r) != Keep
    ensures var p := Judged(current, natural, keys, rows); p.create != [] || p.update != [] || p.conflicts != []
  {
    JudgedHolds(current, natural, keys, rows);
    var v := Judge(current, natural, keys, r);
    if v.Change? { assert Update(r.id, v.changes) in Judged(current, natural, keys, rows).update; }
  }

  lemma {:induction false} GuardKeeps(updates: seq<Update>, ids: set<int>)
    requires updates != []
    ensures WithoutUpdates(updates, ids) != [] || LockedUpdates(updates, ids) != []
  {
  }

  /** Planning a row whose stored version is switched off, but which is not, changes or refuses it. */
  lemma SwitchedOn(current: seq<Row>, natural: Key, keys: seq<Key>, r: Row)
    requires r.id in ById(current) && ById(current)[r.id] == Off(r) && Off(r) != r && "is_active" in r.cols
    ensures Judge(current, natural, keys, r) != Keep
  {
    assert "is_active" in Changes(ById(current)[r.id], r) by {
      assert r.cols["is_active"] == Flag(false) ==> r.cols["is_active" := Flag(false)] == r.cols;
    }
  }

  lemma OverriddenColumns(spec: Spec, cfg: Settings, r: Row, c: string)
    requires c in r.cols
    ensures c in Overridden(spec, cfg, r).cols
  {
  }

  /** A record that does not stay off shows in the second plan. */
  lemma SwitchedOnImport(a: Again, k: nat)
    requires a.Standing() && k < |a.part.incoming| && !a.StaysOff(k)
    ensures a.Repeat().Plan() != EMPTY
  {
    var spec, rows := a.part.spec, a.Second();
    IncomingAgain(a, k);
    assert ValidRow(spec, a.First()[k]);
    OverriddenColumns(spec, a.part.cfg, a.part.incoming[k], "is_active");
    SwitchedOn(a.current2, spec.natural, Keys(spec), rows[k]);
    SameMembers(rows, rows[k]);
    NotKept(a.current2, spec.natural, Keys(spec), SortById(rows), rows[k]);
    ShownPlan(PlanOf(a.current2, rows, spec.natural, Keys(spec), a.cfg2.prune), [], LockedIds(spec, a.current2));
  }

  lemma ShownPlan(plan: Plan, none: seq<int>, locked: set<int>)
    requires none == []
    requires plan.create != [] || plan.update != [] || plan.conflicts != []
    ensures Guard(HoldBack(plan, none), locked) != EMPTY
  {
    assert (set x | x in none) == {};
    WithoutNone(plan.create);
    if plan.update != [] { GuardKeeps(plan.update, locked); }
  }

  // ----- Main results -----

  /** After an import or an initialization, importing the same bundle plans nothing exactly when every
      record created disabled is protected by then or disabled at its source. */
  lemma ReimportExactly(a: Again)
    requires a.Valid()
    ensures a.Repeat().Plan() == EMPTY <==> AllStayOff(a)
  {
    Stands(a);
    if AllStayOff(a) {
      SettledImport(a);
    } else {
      var k :| 0 <= k < |a.part.incoming| && !a.StaysOff(k);
      SwitchedOnImport(a, k);
    }
  }

  /** What was created under the disabling policy is protected on reload. */
  lemma CreatedIsProtected(a: Again, k: nat)
    requires a.Standing() && !a.part.spec.surrogate && k < |a.part.incoming|
    requires a.part.cfg.policy == Some(Disabled) && a.part.incoming[k].id !in ById(a.part.current)
    ensures a.part.incoming[k].id in Reloaded(a.part.cfg, a.Created()).protected
  {
    IncomingAgain(a, k);
    FirstListed(a, k);
  }

  /** Under the configuration the first run left, importing the bundle again is accepted and plans
      nothing: no creation, update, deletion or conflict. */
  lemma ReimportIsNoOp(a: Again)
    requires a.Valid() && a.cfg2 == Reloaded(a.part.cfg, a.Created())
    ensures a.Repeat().Accepted() && a.Repeat().Plan() == EMPTY
  {
    Stands(a);
    forall k | 0 <= k < |a.part.incoming| ensures a.StaysOff(k) {
      if a.part.cfg.policy == Some(Disabled) && a.part.incoming[k].id !in ById(a.part.current) {
        CreatedIsProtected(a, k);
      }
    }
    SettledImport(a);
  }

  /** The parts of a bundle some run left behind, and their repetition. */
  ghost predicate Repeats(parts: seq<Part>, initialized: bool, after: Tables, again: seq<Part>) {
    && |again| == |parts| == |after|
    && forall d :: 0 <= d < |parts| ==>
         && (parts[d].spec.surrogate ==> Relation(parts[d].spec, parts[d].cfg, parts[d].incoming))
         && Lists(again[d].current, after[d])
         && again[d] == Again(parts[d], initialized, again[d].cfg, again[d].current).Repeat()
         && again[d].cfg ==
           Reloaded(parts[d].cfg, Again(parts[d], initialized, again[d].cfg, again[d].current).Created())
  }

  /** The same for all domains: after an import every one of them plans nothing. */
  lemma ReimportAll(parts: seq<Part>, before: Tables, after: Tables, again: seq<Part>)
    requires Imported(parts, before, after) && Repeats(parts, false, after, again)
    ensures AllAccepted(again) && forall d :: 0 <= d < |again| ==> again[d].Plan() == EMPTY
  {
    forall d | 0 <= d < |again| ensures again[d].Accepted() && again[d].Plan() == EMPTY {
      ReimportIsNoOp(Again(parts[d], false, again[d].cfg, again[d].current));
    }
  }

  /** And after an initialization. */
  lemma ImportAfterInitialization(parts: seq<Part>, before: Tables, after: Tables, again: seq<Part>)
    requires Initialize.AllInitialized(parts, before, after) && Repeats(parts, true, after, again)
    ensures AllAccepted(again) && forall d :: 0 <= d < |again| ==> again[d].Plan() == EMPTY
  {
    forall d | 0 <= d < |again| ensures again[d].Accepted() && again[d].Plan() == EMPTY {
      ReimportIsNoOp(Again(parts[d], true, again[d].cfg, again[d].current));
    }
  }

  // ----- A background service with its old configuration -----

  const PROFILES := Spec({"name", "is_active"}, ["id"], [], false, false, None)
  const DISABLING := Settings(map[], {}, Some(Disabled), false)
  const ENABLED := Row(1, map["name" := Text("HD"), "is_active" := Flag(true)])
  const STALE := Again(Part(PROFILES, DISABLING, [], [ENABLED]), false, DISABLING, [Off(ENABLED)])

  lemma SingleRow(r: Row)
    ensures ById([r]) == map[r.id := r] && DistinctIds([r]) && SortById([r]) == [r]
  {
    assert [r][..0] == [];
    assert SortById([]) == [];
  }

  lemma SingleKeys(rows: seq<Row>, keys: seq<Key>)
    requires |rows| == 1
    ensures DistinctKeys(rows, keys)
  {
  }

  lemma SinglePlan(none: seq<Row>, natural: Key, keys: seq<Key>, r: Row)
    requires none == []
    ensures Judged(none, natural, keys, [r]) == Plan([r], [], [], [])
  {
    assert [r][..0] == [];
    TakenMeansClash(none, keys, r);
  }

  lemma StaleRecordsValid()
    ensures ValidRecords(PROFILES, [ENABLED]) && ValidRecords(PROFILES, [Off(ENABLED)])
  {
    SingleRow(ENABLED);
    SingleRow(Off(ENABLED));
    SingleKeys([ENABLED], Keys(PROFILES));
    SingleKeys([Off(ENABLED)], Keys(PROFILES));
  }

  lemma NoOverride(r: Row)
    ensures OverrideFor(PROFILES, DISABLING, r) == Null && Overridden(PROFILES, DISABLING, r) == r
  {
  }

  lemma StalePlan()
    ensures STALE.First() == [Off(ENABLED)] && STALE.part.Plan().conflicts == []
  {
    NoOverride(ENABLED);
    assert STALE.First() == [Off(ENABLED)];
    SingleRow(Off(ENABLED));
    SinglePlan([], ["id"], Keys(PROFILES), Off(ENABLED));
  }

  lemma StaleFinal()
    ensures STALE.Left() == map[1 := Off(ENABLED)] && Lists([Off(ENABLED)], STALE.Left())
  {
    StalePlan();
    SingleRow(Off(ENABLED));
    assert STALE.Left() == map[1 := Off(ENABLED)];
  }

  lemma StaleAccepted()
    ensures STALE.part.Accepted()
  {
    NoOverride(ENABLED);
    StaleRecordsValid();
    StalePlan();
  }

  lemma StaleClean()
    ensures STALE.part.Clean()
  {
    hide Acceptable, DomainPlan;
    StaleAccepted();
    StalePlan();
    assert Stored(PROFILES, [], STALE.part.Goal().current);
  }

  lemma StaleValid()
    ensures STALE.Valid()
  {
    hide CleanImport, Desired;
    StaleFinal();
    StaleClean();
    assert DISABLING == DISABLING.(protected := {});
  }

  lemma StaleSwitches()
    ensures !STALE.StaysOff(0)
  {
    NoOverride(ENABLED);
    assert ENABLED.cols["is_active"] == Flag(true) && Off(ENABLED).cols["is_active"] == Flag(false);
  }

  /** A record created disabled is switched on by the next import of a service that still runs with the
      settings of before: one record, an empty follower, the disabling policy. */
  lemma StaleSettingsSwitchOn()
    ensures STALE.Valid() && STALE.Left() == map[1 := Off(ENABLED)] && STALE.Repeat().Plan() != EMPTY
  {
    StaleValid();
    StaleFinal();
    StaleSwitches();
    Stands(STALE);
    SwitchedOnImport(STALE, 0);
  }
}
