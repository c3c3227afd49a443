/** The import transaction: creates and updates table by table, deletes in reverse, one row at a time. */
module Transaction {
  import opened History
  import opened Records
  import opened Planner

  /** The tables of all domains, in dependency order. */
  type Tables = seq<Table>

  /** What one domain's plan has to do with its current and desired rows. */
  datatype Goal = Goal(current: Table, desired: Table, prune: bool)

  function Patched(r: Row, changes: Columns): Row {
    Row(r.id, r.cols + changes)
  }

  predicate PatchFits(g: Goal, u: Update) {
    && u.id in g.current && u.id in g.desired
    && Patched(g.current[u.id], u.changes) == g.desired[u.id]
    && Patched(g.desired[u.id], u.changes) == g.desired[u.id]
  }

  /** A plan that takes the current rows exactly to the goal. */
  ghost predicate Fits(p: Plan, g: Goal) {
    && Keyed(g.current) && Keyed(g.desired)
    && DistinctIds(p.create)
    && (forall r :: r in p.create ==> r.id in g.desired && r.id !in g.current && g.desired[r.id] == r)
    && (forall u :: u in p.update ==> PatchFits(g, u))
    && (forall i :: i in g.desired && i !in g.current ==> g.desired[i] in p.create)
    && (forall i :: i in g.desired && i in g.current && g.current[i] != g.desired[i] ==>
      exists u :: u in p.update && u.id == i)
    && (forall r :: r in p.delete ==> r.id in g.current && r.id !in g.desired)
    && (forall i :: g.prune && i in g.current && i !in g.desired ==> exists r :: r in p.delete && r.id == i)
    && (!g.prune ==> p.delete == [])
  }

  function Merged(g: Goal): Table {
    g.current + g.desired
  }

  function Final(g: Goal): Table {
    if g.prune then g.desired else Merged(g)
  }

  /** Each row is the current or the desired one. */
  predicate Mixed(g: Goal, t: Table) {
    forall i :: i in t ==> (i in g.current && t[i] == g.current[i]) || (i in g.desired && t[i] == g.desired[i])
  }

  /** A table on its way from the current to the merged rows. */
  predicate Growing(g: Goal, t: Table) {
    g.current.Keys <= t.Keys && Mixed(g, t)
  }

  /** A table on its way from the merged to the final rows. */
  predicate Shrinking(g: Goal, t: Table) {
    && (forall i :: i in t ==> i in Merged(g) && t[i] == Merged(g)[i])
    && (forall i :: i in Final(g) ==> i in t)
  }

  predicate Upgrading(goals: seq<Goal>, s: Tables, k: nat) {
    && k < |goals| == |s|
    && (forall d :: 0 <= d < k ==> s[d] == Merged(goals[d]))
    && Growing(goals[k], s[k])
    && (forall d :: k < d < |goals| ==> s[d] == goals[d].current)
  }

  predicate Pruning(goals: seq<Goal>, s: Tables, k: nat) {
    && k < |goals| == |s|
    && (forall d :: 0 <= d < k ==> s[d] == Merged(goals[d]))
    && Shrinking(goals[k], s[k])
    && (forall d :: k < d < |goals| ==> s[d] == Final(goals[d]))
  }

  /** An intermediate state of the transaction. */
  ghost predicate Between(goals: seq<Goal>, s: Tables) {
    exists k :: 0 <= k < |goals| && (Upgrading(goals, s, k) || Pruning(goals, s, k))
  }

  lemma UpgradingIsBetween(goals: seq<Goal>, s: Tables, k: nat)
    requires Upgrading(goals, s, k)
    ensures Between(goals, s)
  {
  }

  lemma PruningIsBetween(goals: seq<Goal>, s: Tables, k: nat)
    requires Pruning(goals, s, k)
    ensures Between(goals, s)
  {
  }

  /** A patched row becomes the desired one, whether or not it was patched before. */
  lemma PatchReaches(g: Goal, t: Table, u: Update)
    requires Growing(g, t) && PatchFits(g, u) && Keyed(g.current) && Keyed(g.desired)
    ensures u.id in t && Patched(t[u.id], u.changes) == g.desired[u.id]
    ensures Growing(g, t[u.id := Patched(t[u.id], u.changes)])
  {
  }

  /** A row that has its desired columns. */
  predicate Reached(g: Goal, t: Table, i: int) {
    i in g.desired && i in t && t[i] == g.desired[i]
  }

  lemma GrownUp(g: Goal, t: Table)
    requires Growing(g, t) && forall i :: i in g.desired ==> i in t && t[i] == g.desired[i]
    ensures t == Merged(g)
  {
    assert forall i :: i in t <==> i in Merged(g);
    assert forall i :: i in t ==> t[i] == Merged(g)[i];
    assert t.Keys == Merged(g).Keys;
  }

  lemma ShrunkDown(g: Goal, t: Table)
    requires Shrinking(g, t) && forall i :: i in g.current && i !in g.desired ==> !g.prune || i !in t
    requires !g.prune ==> t == Merged(g)
    ensures t == Final(g)
  {
    assert forall i :: i in t <==> i in Final(g);
    assert forall i :: i in t ==> t[i] == Final(g)[i];
    assert t.Keys == Final(g).Keys;
  }

  /** A table that differs at one id at most: a row inserted, changed or deleted. */
  predicate ChangedAt(t: Table, t': Table, id: int) {
    && (forall i :: i in t && i != id ==> i in t' && t'[i] == t[i])
    && (forall i :: i in t' && i != id ==> i in t)
  }

  /** One row of one table changed. */
  ghost predicate OneRow(s: Tables, s': Tables) {
    |s| == |s'| && exists d, id :: 0 <= d < |s| && s' == s[d := s'[d]] && ChangedAt(s[d], s'[d], id)
  }

  lemma RowChanges(s: Tables, d: nat, t: Table, id: int)
    requires d < |s| && ChangedAt(s[d], t, id)
    ensures OneRow(s, s[d := t])
  {
    var s' := s[d := t];
    assert s' == s[d := s'[d]] && ChangedAt(s[d], s'[d], id);
  }

  // ----- The loops, state by state -----

  /** One table's first `k` new rows are in. */
  ghost predicate Inserted(goals: seq<Goal>, s: Tables, d: nat, plan: Plan, k: nat) {
    && Upgrading(goals, s, d) && k <= |plan.create|
    && (forall j :: 0 <= j < k ==> plan.create[j].id in s[d])
    && (forall j :: k <= j < |plan.create| ==> plan.create[j].id !in s[d])
    && (forall i :: i in goals[d].current && i !in goals[d].desired ==> s[d][i] == goals[d].current[i])
  }

  /** One table's new rows are in, and its first `k` updates done. */
  ghost predicate Updated(goals: seq<Goal>, s: Tables, d: nat, plan: Plan, k: nat) {
    && Upgrading(goals, s, d) && k <= |plan.update|
    && (forall i :: i in goals[d].desired && i !in goals[d].current ==> i in s[d])
    && (forall j :: 0 <= j < k ==> Reached(goals[d], s[d], plan.update[j].id))
    && (forall i :: i in goals[d].current && i !in goals[d].desired ==> s[d][i] == goals[d].current[i])
  }

  /** One table's first `k` deletions are done. */
  ghost predicate Deleted(goals: seq<Goal>, s: Tables, d: nat, plan: Plan, k: nat) {
    && Pruning(goals, s, d) && k <= |plan.delete|
    && (forall j :: 0 <= j < k ==> plan.delete[j].id !in s[d])
    && (plan.delete == [] ==> s[d] == Merged(goals[d]))
  }

  lemma InsertStarts(goals: seq<Goal>, s: Tables, d: nat, plan: Plan)
    requires d < |goals| == |s| && Fits(plan, goals[d])
    requires forall e :: 0 <= e < d ==> s[e] == Merged(goals[e])
    requires forall e :: d <= e < |goals| ==> s[e] == goals[e].current
    ensures Inserted(goals, s, d, plan, 0)
  {
    forall j | 0 <= j < |plan.create| ensures plan.create[j].id !in s[d] { assert plan.create[j] in plan.create; }
  }

  lemma InsertStep(goals: seq<Goal>, s: Tables, d: nat, plan: Plan, k: nat)
    requires d < |goals| && Fits(plan, goals[d]) && Inserted(goals, s, d, plan, k) && k < |plan.create|
    ensures d < |s| && plan.create[k].id !in s[d]
    ensures var r := plan.create[k]; var s' := s[d := s[d][r.id := r]];
      Inserted(goals, s', d, plan, k + 1) && Between(goals, s')
  {
    assert plan.create[k] in plan.create;
    UpgradingIsBetween(goals, s[d := s[d][plan.create[k].id := plan.create[k]]], d);
  }

  lemma InsertEnds(goals: seq<Goal>, s: Tables, d: nat, plan: Plan)
    requires d < |goals| && Fits(plan, goals[d]) && Inserted(goals, s, d, plan, |plan.create|)
    ensures Updated(goals, s, d, plan, 0)
  {
    forall i | i in goals[d].desired && i !in goals[d].current ensures i in s[d] {
      var j :| 0 <= j < |plan.create| && plan.create[j] == goals[d].desired[i];
      assert plan.create[j].id in s[d];
    }
  }

  /** One update brings its row to the goal and leaves all others. */
  lemma UpdateReaches(g: Goal, plan: Plan, t: Table, k: nat)
    requires Fits(plan, g) && Growing(g, t) && k < |plan.update|
    ensures plan.update[k].id in t
    ensures var u := plan.update[k]; var t' := t[u.id := Patched(t[u.id], u.changes)];
      && Growing(g, t') && Reached(g, t', u.id)
      && (forall i :: Reached(g, t, i) ==> Reached(g, t', i))
      && (forall i :: i in t' && i !in g.desired ==> i in t && t'[i] == t[i])
      && (forall i :: i in t ==> i in t')
  {
    assert plan.update[k] in plan.update;
    PatchReaches(g, t, plan.update[k]);
  }

  lemma UpdateStep(goals: seq<Goal>, s: Tables, d: nat, plan: Plan, k: nat)
    requires d < |goals| && Fits(plan, goals[d]) && Updated(goals, s, d, plan, k) && k < |plan.update|
    ensures d < |s| && plan.update[k].id in s[d]
    ensures var u := plan.update[k]; var s' := s[d := s[d][u.id := Patched(s[d][u.id], u.changes)]];
      Updated(goals, s', d, plan, k + 1) && Between(goals, s')
  {
    hide Fits;
    UpdateReaches(goals[d], plan, s[d], k);
    var u := plan.update[k];
    UpgradingIsBetween(goals, s[d := s[d][u.id := Patched(s[d][u.id], u.changes)]], d);
  }

  /** Once every update is done, nothing of the desired rows is missing. */
  lemma UpdateEnds(goals: seq<Goal>, s: Tables, d: nat, plan: Plan)
    requires d < |goals| && Fits(plan, goals[d]) && Updated(goals, s, d, plan, |plan.update|)
    ensures d < |s| && s[d] == Merged(goals[d])
  {
    var g := goals[d];
    forall i | i in g.desired ensures i in s[d] && s[d][i] == g.desired[i] {
      if i in g.current && g.current[i] != g.desired[i] {
        var u :| u in plan.update && u.id == i;
        var j :| 0 <= j < |plan.update| && plan.update[j] == u;
        assert Reached(g, s[d], plan.update[j].id);
      }
    }
    GrownUp(g, s[d]);
  }

  lemma DeleteStarts(goals: seq<Goal>, s: Tables, d: nat, plan: Plan)
    requires d < |goals| == |s|
    requires forall e :: 0 <= e <= d ==> s[e] == Merged(goals[e])
    requires forall e :: d < e < |goals| ==> s[e] == Final(goals[e])
    ensures Deleted(goals, s, d, plan, 0)
  {
  }

  lemma DeleteStep(goals: seq<Goal>, s: Tables, d: nat, plan: Plan, k: nat)
    requires d < |goals| && Fits(plan, goals[d]) && Deleted(goals, s, d, plan, k) && k < |plan.delete|
    ensures d < |s|
    ensures var s' := s[d := s[d] - {plan.delete[k].id}]; Deleted(goals, s', d, plan, k + 1) && Between(goals, s')
  {
    assert plan.delete[k] in plan.delete;
    PruningIsBetween(goals, s[d := s[d] - {plan.delete[k].id}], d);
  }

  /** Once every deletion is done, the table is final. */
  lemma DeleteEnds(goals: seq<Goal>, s: Tables, d: nat, plan: Plan)
    requires d < |goals| && Fits(plan, goals[d]) && Deleted(goals, s, d, plan, |plan.delete|)
    ensures d < |s| && s[d] == Final(goals[d])
  {
    var g := goals[d];
    forall i | g.prune && i in g.current && i !in g.desired ensures i !in s[d] {
      var r :| r in plan.delete && r.id == i;
      var j :| 0 <= j < |plan.delete| && plan.delete[j] == r;
    }
    ShrunkDown(g, s[d]);
  }

  /** The states recorded so far are states of the transaction. */
  ghost predicate AllBetween(goals: seq<Goal>, h: seq<Tables>) {
    forall s :: s in h ==> Between(goals, s)
  }

  class Database {
    var tables: Tables
    ghost var origin: Tables        // the state in which recording began
    ghost var history: seq<Tables>  // the state after every row change since

    constructor (tables: Tables)
      ensures this.tables == tables && origin == tables && history == [] && Recorded()
    {
      this.tables, origin, history := tables, tables, [];
    }

    /** The history leads from the first state to the present one, a row at a time. */
    ghost predicate Recorded()
      reads this
    {
      Chain(OneRow, origin, history, tables)
    }

    /** Change one row of one table, and record the new state. */
    method Put(d: nat, t: Table, ghost id: int)
      requires d < |tables| && ChangedAt(tables[d], t, id) && Recorded()
      modifies this
      ensures tables == old(tables)[d := t]
      ensures history == old(history) + [tables] && origin == old(origin) && Recorded()
    {
      RowChanges(tables, d, t, id);
      ChainGrows(OneRow, origin, history, tables, tables[d := t]);
      tables := tables[d := t];
      history := history + [tables];
    }

    /** A new row needs an id no row of its table has. */
    method Insert(d: nat, r: Row)
      requires d < |tables| && r.id !in tables[d] && Recorded()
      modifies this
      ensures tables == old(tables)[d := old(tables)[d][r.id := r]]
      ensures history == old(history) + [tables] && origin == old(origin) && Recorded()
    {
      Put(d, tables[d][r.id := r], r.id);
    }

    method Update(d: nat, id: int, changes: Columns)
      requires d < |tables| && id in tables[d] && Recorded()
      modifies this
      ensures tables == old(tables)[d := old(tables)[d][id := Patched(old(tables)[d][id], changes)]]
      ensures history == old(history) + [tables] && origin == old(origin) && Recorded()
    {
      Put(d, tables[d][id := Patched(tables[d][id], changes)], id);
    }

    method Delete(d: nat, id: int)
      requires d < |tables| && Recorded()
      modifies this
      ensures tables == old(tables)[d := old(tables)[d] - {id}]
      ensures history == old(history) + [tables] && origin == old(origin) && Recorded()
    {
      Put(d, tables[d] - {id}, id);
    }

    /** Insert one table's new rows. */
    method InsertAll(goals: seq<Goal>, d: nat, plan: Plan)
      requires d < |goals| == |tables| && Fits(plan, goals[d])
      requires forall e :: 0 <= e < d ==> tables[e] == Merged(goals[e])
      requires forall e :: d <= e < |goals| ==> tables[e] == goals[e].current
      requires Recorded() && AllBetween(goals, history)
      modifies this
      ensures Updated(goals, tables, d, plan, 0) && |tables| == |goals|
      ensures tables == old(tables)[d := tables[d]]
      ensures Recorded() && origin == old(origin) && AllBetween(goals, history)
    {
      hide Fits, Inserted, Updated, Between, Chain;
      InsertStarts(goals, tables, d, plan);
      for i := 0 to |plan.create|
        invariant |tables| == |goals| && Inserted(goals, tables, d, plan, i)
        invariant tables == old(tables)[d := tables[d]]
        invariant Recorded() && origin == old(origin) && AllBetween(goals, history)
      {
        InsertStep(goals, tables, d, plan, i);
        Insert(d, plan.create[i]);
      }
      InsertEnds(goals, tables, d, plan);
    }

    /** Update one table's changed rows, after its new rows are in. */
    method UpdateAll(goals: seq<Goal>, d: nat, plan: Plan)
      requires d < |goals| == |tables| && Fits(plan, goals[d]) && Updated(goals, tables, d, plan, 0)
      requires Recorded() && AllBetween(goals, history)
      modifies this
      ensures tables == old(tables)[d := Merged(goals[d])]
      ensures Recorded() && origin == old(origin) && AllBetween(goals, history)
    {
      hide Fits, Updated, Between, Chain;
      for i := 0 to |plan.update|
        invariant |tables| == |goals| && Updated(goals, tables, d, plan, i)
        invariant tables == old(tables)[d := tables[d]]
        invariant Recorded() && origin == old(origin) && AllBetween(goals, history)
      {
        UpdateStep(goals, tables, d, plan, i);
        Update(d, plan.update[i].id, plan.update[i].changes);
      }
      UpdateEnds(goals, tables, d, plan);
    }

    /** Bring one table from the merged rows to its final rows. */
    method Prune(goals: seq<Goal>, d: nat, plan: Plan)
      requires d < |goals| == |tables| && Fits(plan, goals[d])
      requires forall e :: 0 <= e <= d ==> tables[e] == Merged(goals[e])
      requires forall e :: d < e < |goals| ==> tables[e] == Final(goals[e])
      requires Recorded() && AllBetween(goals, history)
      modifies this
      ensures tables == old(tables)[d := Final(goals[d])]
      ensures Recorded() && origin == old(origin) && AllBetween(goals, history)
    {
      hide Fits, Deleted, Between, Chain;
      DeleteStarts(goals, tables, d, plan);
      for i := 0 to |plan.delete|
        invariant |tables| == |goals| && Deleted(goals, tables, d, plan, i)
        invariant tables == old(tables)[d := tables[d]]
        invariant Recorded() && origin == old(origin) && AllBetween(goals, history)
      {
        DeleteStep(goals, tables, d, plan, i);
        Delete(d, plan.delete[i].id);
      }
      DeleteEnds(goals, tables, d, plan);
    }

    /** Apply conflict-free plans: every table ends at its final rows, one row change after the other, and
        every state on the way is one the safety lemmas cover. */
    method Apply(goals: seq<Goal>, plans: seq<Plan>)
      requires |plans| == |goals| == |tables|
      requires forall d :: 0 <= d < |goals| ==> tables[d] == goals[d].current && Fits(plans[d], goals[d])
      requires history == [] && Recorded()
      modifies this
      ensures |tables| == |goals|
      ensures forall d :: 0 <= d < |goals| ==> tables[d] == Final(goals[d])
      ensures Recorded() && origin == old(tables) && AllBetween(goals, history)
    {
      hide Fits, Updated, Between;
      var d := 0;
      while d < |goals|
        invariant 0 <= d <= |goals| && |tables| == |goals|
        invariant forall e :: 0 <= e < d ==> tables[e] == Merged(goals[e])
        invariant forall e :: d <= e < |goals| ==> tables[e] == goals[e].current
        invariant Recorded() && origin == old(tables) && AllBetween(goals, history)
      {
        InsertAll(goals, d, plans[d]);
        UpdateAll(goals, d, plans[d]);
        d := d + 1;
      }
      while 0 < d
        invariant 0 <= d <= |goals| && |tables| == |goals|
        invariant forall e :: 0 <= e < d ==> tables[e] == Merged(goals[e])
        invariant forall e :: d <= e < |goals| ==> tables[e] == Final(goals[e])
        invariant Recorded() && origin == old(tables) && AllBetween(goals, history)
      {
        d := d - 1;
        Prune(goals, d, plans[d]);
      }
    }
  }
}
