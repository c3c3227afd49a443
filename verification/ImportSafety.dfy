/** Conflict-free plans: they reach the desired rows, and no state on the way breaks a unique key or,
    exactly when the outcome is closed, leaves a dangling reference. */
module ImportSafety {
  import opened Records
  import opened Planner
  import opened Transaction

  // ----- What a plan holds -----

  lemma {:induction false} JudgedHolds(current: seq<Row>, natural: Key, keys: seq<Key>, rows: seq<Row>)
    ensures var p := Judged(current, natural, keys, rows);
      && p.delete == []
      && (forall r :: r in p.create <==> r in rows && Judge(current, natural, keys, r).Create?)
      && (forall u :: u in p.update <==>
            exists r :: r in rows && r.id == u.id && Judge(current, natural, keys, r) == Change(u.changes))
      && (p.conflicts == [] <==> forall r :: r in rows ==> !Judge(current, natural, keys, r).Refuse?)
  {
    if rows != [] {
      var n := |rows| - 1;
      var last, p, q := rows[n], Judged(current, natural, keys, rows[..n]), Judged(current, natural, keys, rows);
      JudgedHolds(current, natural, keys, rows[..n]);
      assert rows == rows[..n] + [last];
      forall u ensures u in q.update <==>
        exists r :: r in rows && r.id == u.id && Judge(current, natural, keys, r) == Change(u.changes)
      {
        if u in q.update && u !in p.update { assert last in rows; }
      }
    }
  }

  lemma {:induction false} JudgedConflicts(current: seq<Row>, natural: Key, keys: seq<Key>, rows: seq<Row>)
    ensures forall c :: c in Judged(current, natural, keys, rows).conflicts <==>
      exists r :: r in rows && Judge(current, natural, keys, r) == Refuse(c)
  {
    if rows != [] {
      var n := |rows| - 1;
      JudgedConflicts(current, natural, keys, rows[..n]);
      assert rows == rows[..n] + [rows[n]];
      hide Judge;
      forall c ensures c in Judged(current, natural, keys, rows).conflicts <==>
        exists r :: r in rows && Judge(current, natural, keys, r) == Refuse(c)
      {
        if r :| r in rows && Judge(current, natural, keys, r) == Refuse(c) { assert r in rows[..n] || r == rows[n]; }
      }
    }
  }

  /** No id is created twice. */
  lemma {:induction false} CreatesDistinct(current: seq<Row>, natural: Key, keys: seq<Key>, rows: seq<Row>)
    requires DistinctIds(rows)
    ensures DistinctIds(Judged(current, natural, keys, rows).create)
  {
    if rows != [] {
      var n := |rows| - 1;
      var p := Judged(current, natural, keys, rows[..n]);
      CreatesDistinct(current, natural, keys, rows[..n]);
      JudgedHolds(current, natural, keys, rows[..n]);
      forall k | 0 <= k < |p.create| ensures p.create[k].id != rows[n].id { assert p.create[k] in rows[..n]; }
    }
  }

  lemma {:induction false} LeftoverHolds(rows: seq<Row>, index: Table, r: Row)
    ensures r in Leftover(rows, index) <==> r in rows && r.id !in index
  {
    if rows != [] {
      LeftoverHolds(rows[..|rows| - 1], index, r);
      assert rows == rows[..|rows| - 1] + [rows[|rows| - 1]];
    }
  }

  /** Two versions of a row have the same columns. */
  predicate SameShape(current: Table, desired: Table) {
    forall i :: i in current && i in desired ==> current[i].cols.Keys == desired[i].cols.Keys
  }

  lemma ChangesReach(a: Row, b: Row)
    requires a.id == b.id && a.cols.Keys == b.cols.Keys
    ensures Patched(a, Changes(a, b)) == b && Patched(b, Changes(a, b)) == b
    ensures Changes(a, b) == map[] ==> a == b
  {
    assert a.cols + Changes(a, b) == b.cols;
    assert b.cols + Changes(a, b) == b.cols;
    if Changes(a, b) == map[] {
      forall c | c in b.cols ensures a.cols[c] == b.cols[c] {
        assert c !in Changes(a, b);
      }
      assert a.cols == b.cols;
    }
  }

  /** The inputs the planner accepts, and the tables they list. */
  predicate Planned(current: seq<Row>, incoming: seq<Row>, keys: seq<Key>, g: Goal) {
    && Lists(current, g.current) && Lists(incoming, g.desired)
    && DistinctKeys(current, keys) && DistinctKeys(incoming, keys)
    && SameShape(g.current, g.desired)
  }

  /** An incoming row that is not refused takes its place. */
  lemma JudgeFits(current: seq<Row>, incoming: seq<Row>, natural: Key, keys: seq<Key>, g: Goal, k: nat)
    requires Planned(current, incoming, keys, g) && k < |incoming|
    requires !Judge(current, natural, keys, incoming[k]).Refuse?
    ensures var r := incoming[k]; var v := Judge(current, natural, keys, r);
      && r.id in g.desired && g.desired[r.id] == r
      && (v.Create? <==> r.id !in g.current)
      && (v.Keep? ==> g.current[r.id] == r)
      && (v.Change? ==> PatchFits(g, Update(r.id, v.changes)))
  {
    var r := incoming[k];
    DistinctById(incoming, k);
    IndexRows(current);
    if r.id in g.current { ChangesReach(g.current[r.id], r); }
  }

  /** What the planner decides about a row takes it to its desired state. */
  predicate RowFits(current: seq<Row>, natural: Key, keys: seq<Key>, g: Goal, r: Row) {
    && r.id in g.desired && g.desired[r.id] == r
    && var v := Judge(current, natural, keys, r);
      && !v.Refuse? && (v.Create? <==> r.id !in g.current)
      && (v.Keep? ==> r.id in g.current && g.current[r.id] == r)
      && (v.Change? ==> PatchFits(g, Update(r.id, v.changes)))
  }

  lemma SortedRowFits(current: seq<Row>, incoming: seq<Row>, natural: Key, keys: seq<Key>, g: Goal, r: Row)
    requires Planned(current, incoming, keys, g) && r in SortById(incoming)
    requires PlanOf(current, incoming, natural, keys, g.prune).conflicts == []
    ensures r in incoming && RowFits(current, natural, keys, g, r)
  {
    IndexRows(current);
    IndexRows(incoming);
    JudgedHolds(current, natural, keys, SortById(incoming));
    SameMembers(incoming, r);
    var k :| 0 <= k < |incoming| && incoming[k] == r;
    JudgeFits(current, incoming, natural, keys, g, k);
  }

  /** A plan without conflicts takes the current rows exactly to the desired ones. */
  lemma PlanFits(current: seq<Row>, incoming: seq<Row>, natural: Key, keys: seq<Key>, g: Goal)
    requires Planned(current, incoming, keys, g)
    requires PlanOf(current, incoming, natural, keys, g.prune).conflicts == []
    ensures Fits(PlanOf(current, incoming, natural, keys, g.prune), g)
  {
    hide Judge, ById, SortById, DistinctKeys;
    var p := PlanOf(current, incoming, natural, keys, g.prune);
    var rows := SortById(incoming);
    JudgedHolds(current, natural, keys, rows);
    SortDistinct(incoming);
    CreatesDistinct(current, natural, keys, rows);
    IndexRows(current);
    IndexRows(incoming);
    forall r | r in rows ensures r in incoming && RowFits(current, natural, keys, g, r) {
      SortedRowFits(current, incoming, natural, keys, g, r);
    }
    forall i | i in g.desired ensures g.desired[i] in rows {
      SameMembers(incoming, g.desired[i]);
    }
    forall i | i in g.desired && i in g.current && g.current[i] != g.desired[i]
      ensures exists u :: u in p.update && u.id == i
    {
      assert Update(i, Judge(current, natural, keys, g.desired[i]).changes) in p.update;
    }
    DeletesFit(current, g);
  }

  lemma DeletesFit(current: seq<Row>, g: Goal)
    requires Lists(current, g.current)
    ensures var delete := Leftover(SortById(current), g.desired);
      && (forall r :: r in delete ==> r.id in g.current && r.id !in g.desired)
      && (forall i :: i in g.current && i !in g.desired ==> exists r :: r in delete && r.id == i)
  {
    var delete := Leftover(SortById(current), g.desired);
    IndexRows(current);
    forall r ensures r in delete <==> r in current && r.id !in g.desired {
      LeftoverHolds(SortById(current), g.desired, r);
      SameMembers(current, r);
    }
    forall i | i in g.current && i !in g.desired ensures exists r :: r in delete && r.id == i {
      assert g.current[i] in delete;
    }
  }

  // ----- Unique keys -----

  /** No desired row clashes with another id's current row. */
  predicate Compatible(g: Goal, key: Key) {
    forall i, j :: i in g.current && j in g.desired && i != j ==> !Clash(g.current[i], g.desired[j], key)
  }

  /** Conflict-free plans have compatible goals. */
  lemma CleanPlanCompatible(current: seq<Row>, incoming: seq<Row>, natural: Key, keys: seq<Key>, g: Goal, key: Key)
    requires Planned(current, incoming, keys, g) && key in keys
    requires PlanOf(current, incoming, natural, keys, g.prune).conflicts == []
    ensures Compatible(g, key) && UniqueKey(g.current, key) && UniqueKey(g.desired, key)
  {
    JudgedHolds(current, natural, keys, SortById(incoming));
    ListingKeys(current, g.current, key);
    ListingKeys(incoming, g.desired, key);
    IndexRows(current);
    IndexRows(incoming);
    forall i, j | i in g.current && j in g.desired && i != j ensures !Clash(g.current[i], g.desired[j], key) {
      var r := g.desired[j];
      SameMembers(incoming, r);
      assert Taken(current, keys, r).None?;
      TakenMeansClash(current, keys, r);
      assert Free(current, key, r);
      var k :| 0 <= k < |current| && current[k] == g.current[i];
    }
  }

  /** Stored ids keep their natural identity. */
  predicate NaturalKept(g: Goal, natural: Key) {
    forall i :: i in g.current && i in g.desired ==> Identity(g.current[i], natural) == Identity(g.desired[i], natural)
  }

  /** A desired row is refused exactly when it clashes with another id's stored row, or would give its own
      id another natural identity. */
  lemma RefusedExactly(current: seq<Row>, incoming: seq<Row>, natural: Key, keys: seq<Key>, g: Goal, j: int)
    requires Planned(current, incoming, keys, g) && j in g.desired
    ensures Judge(current, natural, keys, g.desired[j]).Refuse? <==>
      || (exists key, i :: key in keys && i in g.current && i != j && Clash(g.current[i], g.desired[j], key))
      || (j in g.current && Identity(g.current[j], natural) != Identity(g.desired[j], natural))
  {
    var r := g.desired[j];
    IndexRows(current);
    IndexRows(incoming);
    TakenMeansClash(current, keys, r);
    if Taken(current, keys, r).Some? {
      var key :| key in keys && !Free(current, key, r);
      var k :| 0 <= k < |current| && current[k].id != r.id && Clash(current[k], r, key);
      DistinctById(current, k);
      assert Clash(g.current[current[k].id], g.desired[j], key);
    }
    if key, i :| key in keys && i in g.current && i != j && Clash(g.current[i], g.desired[j], key) {
      var k :| 0 <= k < |current| && current[k] == g.current[i];
      assert !Free(current, key, r);
    }
  }

  // ----- The whole plan, conflicts included -----

  /** A stored row of another id holds the desired row's value of a key. */
  predicate Contested(g: Goal, key: Key, j: int) {
    j in g.desired && exists i :: i in g.current && i != j && Clash(g.current[i], g.desired[j], key)
  }

  /** Nothing stands in the way of a desired row. */
  predicate Unopposed(g: Goal, natural: Key, keys: seq<Key>, j: int) {
    && j in g.desired
    && (forall key :: key in keys ==> !Contested(g, key, j))
    && (j in g.current ==> Identity(g.current[j], natural) == Identity(g.desired[j], natural))
  }

  /** What stands in the way of a desired row: the holder of the first key value that is taken, or else the natural
      identity its id has. */
  ghost predicate Opposes(g: Goal, natural: Key, keys: seq<Key>, c: Conflict) {
    && c.id in g.desired
    && match c
       case KeyTaken(j, key, holder) =>
         && holder in g.current && holder != j && Clash(g.current[holder], g.desired[j], key)
         && exists n :: 0 <= n < |keys| && keys[n] == key && forall m :: 0 <= m < n ==> !Contested(g, keys[m], j)
       case Renamed(j) =>
         && (forall key :: key in keys ==> !Contested(g, key, j))
         && j in g.current && Identity(g.current[j], natural) != Identity(g.desired[j], natural)
       case _ => false
  }

  /** The desired values of the columns in which two versions of a row differ. */
  predicate Differences(a: Row, b: Row, changes: Columns) {
    && changes.Keys <= b.cols.Keys
    && forall c :: c in b.cols ==>
         (c in changes <==> c !in a.cols || a.cols[c] != b.cols[c]) && (c in changes ==> changes[c] == b.cols[c])
  }

  /** A plan: it creates the desired rows that are not stored, changes the stored ones that differ, in the columns
      that do, deletes the others if that is allowed, and reports what stands in the way of the rest. */
  ghost predicate IsPlanFor(g: Goal, natural: Key, keys: seq<Key>, p: Plan) {
    && (forall r :: r in p.create <==>
          r.id in g.desired && g.desired[r.id] == r && r.id !in g.current && Unopposed(g, natural, keys, r.id))
    && (forall u :: u in p.update <==>
          && u.id in g.current && u.id in g.desired && Unopposed(g, natural, keys, u.id)
          && g.current[u.id] != g.desired[u.id] && Differences(g.current[u.id], g.desired[u.id], u.changes))
    && (forall r :: r in p.delete <==> g.prune && r.id in g.current && g.current[r.id] == r && r.id !in g.desired)
    && (forall c :: c in p.conflicts <==> Opposes(g, natural, keys, c))
  }

  lemma FreeMeansUncontested(current: seq<Row>, incoming: seq<Row>, keys: seq<Key>, g: Goal, key: Key, j: int)
    requires Planned(current, incoming, keys, g) && j in g.desired
    ensures Free(current, key, g.desired[j]) <==> !Contested(g, key, j)
    ensures forall i :: HeldBy(current, key, g.desired[j], i) <==>
      i in g.current && i != j && Clash(g.current[i], g.desired[j], key)
  {
    IndexRows(current);
    IndexRows(incoming);
    forall k | 0 <= k < |current| ensures current[k].id in g.current && g.current[current[k].id] == current[k] {
      DistinctById(current, k);
    }
    hide Clash, ById;
    forall i | i in g.current ensures exists k :: 0 <= k < |current| && current[k] == g.current[i] {}
  }

  /** What a refusal for a taken key value names. */
  lemma TakenOpposes(current: seq<Row>, incoming: seq<Row>, natural: Key, keys: seq<Key>, g: Goal, j: int)
    requires Planned(current, incoming, keys, g) && j in g.desired
    ensures var taken := Taken(current, keys, g.desired[j]);
      && (taken.None? <==> forall key :: key in keys ==> !Contested(g, key, j))
      && (taken.Some? ==> taken.value.KeyTaken? && taken.value.id == j && Opposes(g, natural, keys, taken.value))
  {
    var r := g.desired[j];
    IndexRows(incoming);
    TakenMeansClash(current, keys, r);
    forall key
      ensures Free(current, key, r) <==> !Contested(g, key, j)
      ensures forall i :: HeldBy(current, key, r, i) <==> i in g.current && i != j && Clash(g.current[i], r, key)
    {
      FreeMeansUncontested(current, incoming, keys, g, key, j);
    }
    hide Free, Contested, HeldBy, Holders;
    if Taken(current, keys, r).Some? {
      var n := TakenNames(current, keys, r);
      var c := Taken(current, keys, r).value;
      forall m | 0 <= m < n ensures !Contested(g, keys[m], j) { assert Free(current, keys[m], r); }
      assert c.key == keys[n] && HeldBy(current, keys[n], r, c.existing);
    }
  }

  /** A key's first holder is the only one. */
  lemma OneOpposes(
    current: seq<Row>, incoming: seq<Row>, natural: Key, keys: seq<Key>, g: Goal, c: Conflict, d: Conflict)
    requires Planned(current, incoming, keys, g) && c.id == d.id
    requires Opposes(g, natural, keys, c) && Opposes(g, natural, keys, d)
    ensures c == d
  {
    assert c.KeyTaken? ==> c.key in keys && Contested(g, c.key, c.id);
    assert d.KeyTaken? ==> d.key in keys && Contested(g, d.key, d.id);
    if c.KeyTaken? && d.KeyTaken? {
      var m :| 0 <= m < |keys| && keys[m] == c.key && forall l :: 0 <= l < m ==> !Contested(g, keys[l], c.id);
      var n :| 0 <= n < |keys| && keys[n] == d.key && forall l :: 0 <= l < n ==> !Contested(g, keys[l], c.id);
      assert Contested(g, keys[m], c.id) && Contested(g, keys[n], c.id);
      ListingKeys(current, g.current, c.key);
    }
  }

  /** The verdict on one desired row. */
  lemma JudgedExactly(current: seq<Row>, incoming: seq<Row>, natural: Key, keys: seq<Key>, g: Goal, j: int)
    requires Planned(current, incoming, keys, g) && j in g.desired
    ensures g.desired[j].id == j
    ensures var v := Judge(current, natural, keys, g.desired[j]);
      && (v.Create? <==> j !in g.current && Unopposed(g, natural, keys, j))
      && (v.Change? <==> j in g.current && Unopposed(g, natural, keys, j) && g.current[j] != g.desired[j])
      && (v.Change? ==> Differences(g.current[j], g.desired[j], v.changes))
      && (v.Refuse? ==> v.conflict.id == j && Opposes(g, natural, keys, v.conflict))
      && (!v.Refuse? ==> Unopposed(g, natural, keys, j))
  {
    TakenOpposes(current, incoming, natural, keys, g, j);
    IndexRows(current);
    IndexRows(incoming);
    hide Contested, Taken;
    if j in g.current { ChangesReach(g.current[j], g.desired[j]); }
  }

  lemma SortedListing(rows: seq<Row>, t: Table, r: Row)
    requires Lists(rows, t)
    ensures r in SortById(rows) <==> r.id in t && t[r.id] == r
  {
    SameMembers(rows, r);
    IndexRows(rows);
    if r in rows {
      var k :| 0 <= k < |rows| && rows[k] == r;
      DistinctById(rows, k);
    }
  }

  lemma PlansDeletion(current: seq<Row>, incoming: seq<Row>, natural: Key, keys: seq<Key>, g: Goal, r: Row)
    requires Planned(current, incoming, keys, g)
    ensures r in PlanOf(current, incoming, natural, keys, g.prune).delete <==>
      g.prune && r.id in g.current && g.current[r.id] == r && r.id !in g.desired
  {
    JudgedHolds(current, natural, keys, SortById(incoming));
    SortedListing(current, g.current, r);
    LeftoverHolds(SortById(current), ById(incoming), r);
  }

  lemma PlansCreation(current: seq<Row>, incoming: seq<Row>, natural: Key, keys: seq<Key>, g: Goal, r: Row)
    requires Planned(current, incoming, keys, g)
    ensures r in PlanOf(current, incoming, natural, keys, g.prune).create <==>
      r.id in g.desired && g.desired[r.id] == r && r.id !in g.current && Unopposed(g, natural, keys, r.id)
  {
    JudgedHolds(current, natural, keys, SortById(incoming));
    SortedListing(incoming, g.desired, r);
    if r.id in g.desired { JudgedExactly(current, incoming, natural, keys, g, r.id); }
    hide Judge, Judged, Unopposed, ById, SortById;
  }

  lemma SameDifferences(a: Row, b: Row, changes: Columns, changes': Columns)
    requires Differences(a, b, changes) && Differences(a, b, changes')
    ensures changes == changes'
  {
  }

  lemma PlansUpdate(current: seq<Row>, incoming: seq<Row>, natural: Key, keys: seq<Key>, g: Goal, u: Update)
    requires Planned(current, incoming, keys, g)
    ensures u in PlanOf(current, incoming, natural, keys, g.prune).update <==>
      && u.id in g.current && u.id in g.desired && Unopposed(g, natural, keys, u.id)
      && g.current[u.id] != g.desired[u.id] && Differences(g.current[u.id], g.desired[u.id], u.changes)
  {
    var rows := SortById(incoming);
    JudgedHolds(current, natural, keys, rows);
    forall r: Row | r.id == u.id ensures r in rows <==> r.id in g.desired && g.desired[r.id] == r {
      SortedListing(incoming, g.desired, r);
    }
    if u.id in g.desired {
      var v := Judge(current, natural, keys, g.desired[u.id]);
      JudgedExactly(current, incoming, natural, keys, g, u.id);
      if v.Change? && Differences(g.current[u.id], g.desired[u.id], u.changes) {
        SameDifferences(g.current[u.id], g.desired[u.id], u.changes, v.changes);
      }
    }
    hide Judge, Judged, Unopposed, Differences, ById, SortById;
  }

  lemma PlansConflict(current: seq<Row>, incoming: seq<Row>, natural: Key, keys: seq<Key>, g: Goal, c: Conflict)
    requires Planned(current, incoming, keys, g)
    ensures c in PlanOf(current, incoming, natural, keys, g.prune).conflicts <==> Opposes(g, natural, keys, c)
  {
    var rows := SortById(incoming);
    JudgedConflicts(current, natural, keys, rows);
    forall r ensures r in rows <==> r.id in g.desired && g.desired[r.id] == r {
      SortedListing(incoming, g.desired, r);
    }
    if r :| r in rows && Judge(current, natural, keys, r) == Refuse(c) {
      JudgedExactly(current, incoming, natural, keys, g, r.id);
    }
    if Opposes(g, natural, keys, c) {
      var v := Judge(current, natural, keys, g.desired[c.id]);
      JudgedExactly(current, incoming, natural, keys, g, c.id);
      OpposedMeansOpposed(g, natural, keys, c);
      OneOpposes(current, incoming, natural, keys, g, c, v.conflict);
    }
    hide Judge, Judged, Unopposed, Opposes, ById, SortById;
  }

  lemma OpposedMeansOpposed(g: Goal, natural: Key, keys: seq<Key>, c: Conflict)
    requires Opposes(g, natural, keys, c)
    ensures !Unopposed(g, natural, keys, c.id)
  {
  }

  /** Every part of a plan is in order of ids. */
  predicate InIdOrder(p: Plan) {
    && Ascending(p.create) && Ascending(p.delete)
    && (forall i, j :: 0 <= i < j < |p.update| ==> p.update[i].id <= p.update[j].id)
    && (forall i, j :: 0 <= i < j < |p.conflicts| ==> p.conflicts[i].id <= p.conflicts[j].id)
  }

  /** A refusal concerns the row refused. */
  lemma {:induction false} RefusalId(current: seq<Row>, natural: Key, keys: seq<Key>, r: Row)
    ensures Judge(current, natural, keys, r).Refuse? ==> Judge(current, natural, keys, r).conflict.id == r.id
  {
    TakenId(current, keys, r);
  }

  lemma {:induction false} TakenId(current: seq<Row>, keys: seq<Key>, r: Row)
    ensures Taken(current, keys, r).Some? ==> Taken(current, keys, r).value.id == r.id
  {
    if keys != [] { TakenId(current, keys[1..], r); }
  }

  predicate AllBelow(p: Plan, top: int) {
    && (forall k :: 0 <= k < |p.create| ==> p.create[k].id <= top)
    && (forall k :: 0 <= k < |p.update| ==> p.update[k].id <= top)
    && (forall k :: 0 <= k < |p.conflicts| ==> p.conflicts[k].id <= top)
  }

  lemma JudgedBelow(current: seq<Row>, natural: Key, keys: seq<Key>, rows: seq<Row>, top: int)
    requires forall r :: r in rows ==> r.id <= top
    ensures AllBelow(Judged(current, natural, keys, rows), top)
  {
    var p := Judged(current, natural, keys, rows);
    JudgedHolds(current, natural, keys, rows);
    JudgedConflicts(current, natural, keys, rows);
    forall c | c in p.conflicts ensures c.id <= top {
      var r :| r in rows && Judge(current, natural, keys, r) == Refuse(c);
      RefusalId(current, natural, keys, r);
    }
    hide Judge, Judged;
    forall k | 0 <= k < |p.create| ensures p.create[k].id <= top { assert p.create[k] in p.create; }
    forall k | 0 <= k < |p.update| ensures p.update[k].id <= top { assert p.update[k] in p.update; }
    forall k | 0 <= k < |p.conflicts| ensures p.conflicts[k].id <= top { assert p.conflicts[k] in p.conflicts; }
  }

  lemma AddInOrder(p: Plan, v: Verdict, r: Row)
    requires InIdOrder(p) && AllBelow(p, r.id) && (v.Refuse? ==> v.conflict.id == r.id)
    ensures InIdOrder(Add(p, v, r))
  {
  }

  lemma {:induction false} JudgedInOrder(current: seq<Row>, natural: Key, keys: seq<Key>, rows: seq<Row>)
    requires Ascending(rows)
    ensures InIdOrder(Judged(current, natural, keys, rows))
  {
    if rows != [] {
      var n := |rows| - 1;
      JudgedInOrder(current, natural, keys, rows[..n]);
      forall r | r in rows[..n] ensures r.id <= rows[n].id {
        var k :| 0 <= k < n && rows[k] == r;
      }
      JudgedBelow(current, natural, keys, rows[..n], rows[n].id);
      RefusalId(current, natural, keys, rows[n]);
      AddInOrder(
        Judged(current, natural, keys, rows[..n]), Judge(current, natural, keys, rows[n]), rows[n]);
    }
  }

  lemma {:induction false} LeftoverInOrder(rows: seq<Row>, index: Table)
    requires Ascending(rows)
    ensures Ascending(Leftover(rows, index))
  {
    if rows != [] {
      var n := |rows| - 1;
      var rest := Leftover(rows[..n], index);
      LeftoverInOrder(rows[..n], index);
      forall k | 0 <= k < |rest| ensures rest[k].id <= rows[n].id {
        LeftoverHolds(rows[..n], index, rest[k]);
        var j :| 0 <= j < n && rows[j] == rest[k];
      }
    }
  }

  lemma PlanInOrder(current: seq<Row>, incoming: seq<Row>, natural: Key, keys: seq<Key>, allowDeletes: bool)
    ensures InIdOrder(PlanOf(current, incoming, natural, keys, allowDeletes))
  {
    SortSorts(current);
    SortSorts(incoming);
    JudgedInOrder(current, natural, keys, SortById(incoming));
    LeftoverInOrder(SortById(current), ById(incoming));
  }

  /** The planner's plan is exactly this. */
  lemma PlanExactly(current: seq<Row>, incoming: seq<Row>, natural: Key, keys: seq<Key>, g: Goal)
    requires Planned(current, incoming, keys, g)
    ensures IsPlanFor(g, natural, keys, PlanOf(current, incoming, natural, keys, g.prune))
  {
    hide PlanOf, Planned, Unopposed, Opposes, Differences;
    var p := PlanOf(current, incoming, natural, keys, g.prune);
    forall r ensures r in p.create <==>
      r.id in g.desired && g.desired[r.id] == r && r.id !in g.current && Unopposed(g, natural, keys, r.id)
    {
      PlansCreation(current, incoming, natural, keys, g, r);
    }
    forall u ensures u in p.update <==>
      && u.id in g.current && u.id in g.desired && Unopposed(g, natural, keys, u.id)
      && g.current[u.id] != g.desired[u.id] && Differences(g.current[u.id], g.desired[u.id], u.changes)
    {
      PlansUpdate(current, incoming, natural, keys, g, u);
    }
    forall r ensures r in p.delete <==> g.prune && r.id in g.current && g.current[r.id] == r && r.id !in g.desired {
      PlansDeletion(current, incoming, natural, keys, g, r);
    }
    forall c ensures c in p.conflicts <==> Opposes(g, natural, keys, c) {
      PlansConflict(current, incoming, natural, keys, g, c);
    }
  }

  /** A plan is free of conflicts exactly when no desired row clashes with another id's stored row and no
      stored id changes its natural identity. */
  lemma CleanExactly(current: seq<Row>, incoming: seq<Row>, natural: Key, keys: seq<Key>, g: Goal)
    requires Planned(current, incoming, keys, g)
    ensures PlanOf(current, incoming, natural, keys, g.prune).conflicts == [] <==>
      NaturalKept(g, natural) && forall key :: key in keys ==> Compatible(g, key)
  {
    JudgedHolds(current, natural, keys, SortById(incoming));
    IndexRows(incoming);
    forall j | j in g.desired
      ensures Judge(current, natural, keys, g.desired[j]).Refuse? <==>
        || (exists key, i :: key in keys && i in g.current && i != j && Clash(g.current[i], g.desired[j], key))
        || (j in g.current && Identity(g.current[j], natural) != Identity(g.desired[j], natural))
      ensures g.desired[j] in SortById(incoming)
    {
      RefusedExactly(current, incoming, natural, keys, g, j);
      SameMembers(incoming, g.desired[j]);
    }
    forall r | r in SortById(incoming) ensures r.id in g.desired && g.desired[r.id] == r {
      SameMembers(incoming, r);
      var k :| 0 <= k < |incoming| && incoming[k] == r;
      DistinctById(incoming, k);
    }
  }

  /** A plan updates exactly the stored rows that differ, in exactly the columns that do. */
  lemma PlanIsMinimal(current: seq<Row>, incoming: seq<Row>, natural: Key, keys: seq<Key>, g: Goal, u: Update)
    requires Planned(current, incoming, keys, g)
    requires u in PlanOf(current, incoming, natural, keys, g.prune).update
    ensures u.id in g.current && u.id in g.desired && g.current[u.id] != g.desired[u.id]
    ensures forall c :: c in u.changes <==>
      c in g.desired[u.id].cols && g.current[u.id].cols[c] != g.desired[u.id].cols[c]
  {
    JudgedHolds(current, natural, keys, SortById(incoming));
    var r :| r in SortById(incoming) && r.id == u.id && Judge(current, natural, keys, r) == Change(u.changes);
    SameMembers(incoming, r);
    var k :| 0 <= k < |incoming| && incoming[k] == r;
    DistinctById(incoming, k);
    assert u.changes != map[] && exists c :: c in u.changes;
  }

  /** Any mixture of current and desired rows keeps the key unique. */
  lemma MixtureUnique(g: Goal, t: Table, key: Key)
    requires Mixed(g, t) && Compatible(g, key) && UniqueKey(g.current, key) && UniqueKey(g.desired, key)
    ensures UniqueKey(t, key)
  {
    forall i, j | i in t && j in t && i != j ensures !Clash(t[i], t[j], key) {
      if i in g.current && t[i] == g.current[i] {
        if j in g.desired && t[j] == g.desired[j] { assert !Clash(g.current[i], g.desired[j], key); }
      } else if j in g.current && t[j] == g.current[j] {
        assert !Clash(g.current[j], g.desired[i], key);
      }
    }
  }

  /** In every state of the transaction each non-null key value has at most one holder. */
  lemma BetweenUnique(goals: seq<Goal>, s: Tables, d: nat, key: Key)
    requires Between(goals, s) && d < |goals|
    requires Compatible(goals[d], key) && UniqueKey(goals[d].current, key) && UniqueKey(goals[d].desired, key)
    ensures d < |s| && UniqueKey(s[d], key)
  {
    assert Mixed(goals[d], s[d]);
    MixtureUnique(goals[d], s[d], key);
  }

  // ----- References -----

  /** Which columns of each domain refer to which earlier domain. */
  type References = seq<map<string, nat>>

  /** Every reference points to a domain earlier in dependency order. */
  predicate Backward(refs: References) {
    forall d, c :: 0 <= d < |refs| && c in refs[d] ==> refs[d][c] < d
  }

  predicate Points(v: Value, t: Table) {
    v.Null? || (v.Num? && v.num in t)
  }

  /** A row's references resolve: each is null or the id of a row there. */
  predicate Resolves(r: Row, refs: map<string, nat>, s: Tables) {
    forall c :: c in refs ==> refs[c] < |s| && Points(Column(r, c), s[refs[c]])
  }

  predicate Closed(refs: References, s: Tables) {
    |s| == |refs| && forall d, i :: 0 <= d < |s| && i in s[d] ==> Resolves(s[d][i], refs[d], s)
  }

  function CurrentTables(goals: seq<Goal>): Tables {
    seq(|goals|, d requires 0 <= d < |goals| => goals[d].current)
  }

  function MergedTables(goals: seq<Goal>): Tables {
    seq(|goals|, d requires 0 <= d < |goals| => Merged(goals[d]))
  }

  function FinalTables(goals: seq<Goal>): Tables {
    seq(|goals|, d requires 0 <= d < |goals| => Final(goals[d]))
  }

  /** References survive when the tables they point to only gain ids. */
  lemma ResolvesGrow(r: Row, refs: map<string, nat>, s: Tables, s': Tables)
    requires Resolves(r, refs, s) && |s| == |s'|
    requires forall c :: c in refs ==> s[refs[c]].Keys <= s'[refs[c]].Keys
    ensures Resolves(r, refs, s')
  {
  }

  /** On the way up every row's references resolve: current rows lose no target, and a desired row's
      targets are merged before it. */
  lemma UpgradingClosed(refs: References, goals: seq<Goal>, s: Tables, k: nat)
    requires Backward(refs) && |refs| == |goals| && Upgrading(goals, s, k)
    requires Closed(refs, CurrentTables(goals))
    requires forall d, i :: 0 <= d < |goals| && i in goals[d].desired ==>
      Resolves(goals[d].desired[i], refs[d], MergedTables(goals))
    ensures Closed(refs, s)
  {
    forall d, i | 0 <= d < |s| && i in s[d] ensures Resolves(s[d][i], refs[d], s) {
      if i in goals[d].current && s[d][i] == goals[d].current[i] {
        assert Resolves(CurrentTables(goals)[d][i], refs[d], CurrentTables(goals));
        ResolvesGrow(s[d][i], refs[d], CurrentTables(goals), s);
      } else {
        ResolvesGrow(s[d][i], refs[d], MergedTables(goals), s);
      }
    }
  }

  /** On the way down, rows above the pruned table are final and rows below it are untouched. */
  lemma PruningClosed(refs: References, goals: seq<Goal>, s: Tables, k: nat)
    requires Backward(refs) && |refs| == |goals| && Pruning(goals, s, k)
    requires Closed(refs, MergedTables(goals)) && Closed(refs, FinalTables(goals))
    ensures Closed(refs, s)
  {
    forall t | 0 <= t < |s| ensures FinalTables(goals)[t].Keys <= s[t].Keys {
      forall i | i in Final(goals[t]) ensures i in s[t] {
        assert i in Merged(goals[t]);
      }
    }
    forall d, i | 0 <= d < |s| && i in s[d] ensures Resolves(s[d][i], refs[d], s) {
      if d <= k {
        assert Resolves(MergedTables(goals)[d][i], refs[d], MergedTables(goals));
        ResolvesGrow(s[d][i], refs[d], MergedTables(goals), s);
      } else {
        assert Resolves(FinalTables(goals)[d][i], refs[d], FinalTables(goals));
        ResolvesGrow(s[d][i], refs[d], FinalTables(goals), s);
      }
    }
  }

  /** The merged tables are a state of every transaction; they are closed once desired rows resolve there. */
  lemma MergedClosed(refs: References, goals: seq<Goal>)
    requires |refs| == |goals| && Closed(refs, CurrentTables(goals))
    ensures Closed(refs, MergedTables(goals)) <==>
      forall d, i :: 0 <= d < |goals| && i in goals[d].desired ==>
        Resolves(goals[d].desired[i], refs[d], MergedTables(goals))
  {
    var s := MergedTables(goals);
    forall d, i | 0 <= d < |s| && i in s[d] && i !in goals[d].desired ensures Resolves(s[d][i], refs[d], s) {
      assert CurrentTables(goals)[d] == goals[d].current;
      assert Resolves(CurrentTables(goals)[d][i], refs[d], CurrentTables(goals));
      ResolvesGrow(s[d][i], refs[d], CurrentTables(goals), s);
    }
    forall d, i | 0 <= d < |goals| && i in goals[d].desired ensures i in s[d] && s[d][i] == goals[d].desired[i] {}
  }

  /** Every state of the transaction is free of dangling references exactly when its outcome is. */
  lemma NoDanglingReference(refs: References, goals: seq<Goal>)
    requires Backward(refs) && |refs| == |goals| && 0 < |goals|
    requires Closed(refs, CurrentTables(goals))
    ensures (forall s :: Between(goals, s) ==> Closed(refs, s)) <==> Closed(refs, FinalTables(goals))
  {
    var final := FinalTables(goals);
    if Closed(refs, final) {
      forall d, i | 0 <= d < |goals| && i in goals[d].desired
        ensures Resolves(goals[d].desired[i], refs[d], MergedTables(goals))
      {
        assert i in final[d] && final[d][i] == goals[d].desired[i];
        assert Resolves(final[d][i], refs[d], final);
        ResolvesGrow(final[d][i], refs[d], final, MergedTables(goals));
      }
      MergedClosed(refs, goals);
      forall s | Between(goals, s) ensures Closed(refs, s) {
        var k :| 0 <= k < |goals| && (Upgrading(goals, s, k) || Pruning(goals, s, k));
        if Upgrading(goals, s, k) { UpgradingClosed(refs, goals, s, k); } else { PruningClosed(refs, goals, s, k); }
      }
    }
    assert Pruning(goals, final[0 := final[0]], 0);
    assert final[0 := final[0]] == final;
    PruningIsBetween(goals, final, 0);
  }
}
