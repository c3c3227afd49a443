/** The record planner: what turns the current rows of one table into the incoming ones, and what
    stands in the way. */
module Planner {
  import opened Prelude
  import opened Records

  datatype Conflict =
    | KeyTaken(id: int, key: Key, existing: int)  // a unique value is held by another id
    | Renamed(id: int)                            // the id has a different natural key
    | Locked(id: int)
    | Undecided(id: int)                          // a new record waits for a decision

  datatype Update = Update(id: int, changes: Columns)

  datatype Plan = Plan(create: seq<Row>, update: seq<Update>, delete: seq<Row>, conflicts: seq<Conflict>)

  const EMPTY := Plan([], [], [], [])

  datatype PlanError = DuplicateCurrentIds | DuplicateIncomingIds | DuplicateIncoming(key: Key)

  // ----- Rows in order of their ids -----

  function Insert(r: Row, rows: seq<Row>): seq<Row> {
    if rows == [] || r.id < rows[0].id then [r] + rows else [rows[0]] + Insert(r, rows[1..])
  }

  function SortById(rows: seq<Row>): seq<Row> {
    if rows == [] then [] else Insert(rows[0], SortById(rows[1..]))
  }

  predicate Ascending(rows: seq<Row>) {
    forall i, j :: 0 <= i < j < |rows| ==> rows[i].id <= rows[j].id
  }

  lemma {:induction false} InsertMembers(r: Row, rows: seq<Row>)
    ensures multiset(Insert(r, rows)) == multiset(rows) + multiset{r}
  {
    if rows != [] && rows[0].id <= r.id {
      InsertMembers(r, rows[1..]);
      assert rows == [rows[0]] + rows[1..];
    }
  }

  lemma {:induction false} InsertSorts(r: Row, rows: seq<Row>)
    requires Ascending(rows)
    ensures Ascending(Insert(r, rows))
  {
    if rows != [] && rows[0].id <= r.id {
      InsertSorts(r, rows[1..]);
      InsertMembers(r, rows[1..]);
      var tail := Insert(r, rows[1..]);
      forall k | 0 <= k < |tail| ensures rows[0].id <= tail[k].id {
        assert tail[k] in multiset(tail);
        assert tail[k] == r || tail[k] in rows[1..];
      }
    }
  }

  /** Sorting by id is a permutation in ascending order. */
  lemma {:induction false} SortSorts(rows: seq<Row>)
    ensures Ascending(SortById(rows))
    ensures multiset(SortById(rows)) == multiset(rows)
  {
    if rows != [] {
      SortSorts(rows[1..]);
      InsertSorts(rows[0], SortById(rows[1..]));
      InsertMembers(rows[0], SortById(rows[1..]));
      assert rows == [rows[0]] + rows[1..];
    }
  }

  lemma {:induction false} InsertDistinct(r: Row, rows: seq<Row>)
    requires DistinctIds(rows) && forall k :: 0 <= k < |rows| ==> rows[k].id != r.id
    ensures DistinctIds(Insert(r, rows))
  {
    if rows != [] && rows[0].id <= r.id {
      InsertDistinct(r, rows[1..]);
      InsertMembers(r, rows[1..]);
      var tail := Insert(r, rows[1..]);
      forall k | 0 <= k < |tail| ensures rows[0].id != tail[k].id {
        assert tail[k] in multiset(tail);
        assert tail[k] == r || tail[k] in rows[1..];
      }
    }
  }

  /** Sorting keeps ids distinct. */
  lemma {:induction false} SortDistinct(rows: seq<Row>)
    requires DistinctIds(rows)
    ensures DistinctIds(SortById(rows))
  {
    if rows != [] {
      var sorted := SortById(rows[1..]);
      SortDistinct(rows[1..]);
      forall k | 0 <= k < |sorted| ensures sorted[k].id != rows[0].id { SameMembers(rows[1..], sorted[k]); }
      InsertDistinct(rows[0], sorted);
    }
  }

  lemma SameMembers(rows: seq<Row>, r: Row)
    ensures r in SortById(rows) <==> r in rows
  {
    SortSorts(rows);
    assert r in multiset(SortById(rows)) <==> r in SortById(rows);
    assert r in multiset(rows) <==> r in rows;
  }

  // ----- Values already taken -----

  /** Which id holds each non-null value of a key; a later row replaces an earlier one. */
  function Holders(rows: seq<Row>, key: Key): map<seq<Value>, int> {
    if rows == [] then map[]
    else
      var r, m := rows[|rows| - 1], Holders(rows[..|rows| - 1], key);
      if Nullable(Identity(r, key)) then m else m[Identity(r, key) := r.id]
  }

  lemma {:induction false} HoldersSound(rows: seq<Row>, key: Key)
    ensures forall v :: v in Holders(rows, key) ==>
      !Nullable(v) && exists k :: 0 <= k < |rows| && Identity(rows[k], key) == v && rows[k].id == Holders(rows, key)[v]
    ensures forall k :: 0 <= k < |rows| && !Nullable(Identity(rows[k], key)) ==>
      Identity(rows[k], key) in Holders(rows, key)
  {
    if rows != [] {
      var n := |rows| - 1;
      HoldersSound(rows[..n], key);
      forall v | v in Holders(rows, key)
        ensures !Nullable(v) && exists k ::
          0 <= k < |rows| && Identity(rows[k], key) == v && rows[k].id == Holders(rows, key)[v]
      {
        if v == Identity(rows[n], key) && !Nullable(v) {
          assert rows[n].id == Holders(rows, key)[v];
        } else {
          var k :| 0 <= k < n && Identity(rows[..n][k], key) == v && rows[..n][k].id == Holders(rows[..n], key)[v];
          assert rows[k] == rows[..n][k];
        }
      }
      forall k | 0 <= k < |rows| && !Nullable(Identity(rows[k], key))
        ensures Identity(rows[k], key) in Holders(rows, key)
      {
        if k < n { assert rows[..n][k] == rows[k]; }
      }
    }
  }

  /** The first key of a row whose value another current id holds. */
  function Taken(current: seq<Row>, keys: seq<Key>, r: Row): Option<Conflict> {
    if keys == [] then None
    else
      var v, holders := Identity(r, keys[0]), Holders(current, keys[0]);
      if v in holders && holders[v] != r.id then Some(KeyTaken(r.id, keys[0], holders[v]))
      else Taken(current, keys[1..], r)
  }

  /** No current row with another id clashes with `r` on `key`. */
  predicate Free(current: seq<Row>, key: Key, r: Row) {
    forall k :: 0 <= k < |current| && current[k].id != r.id ==> !Clash(current[k], r, key)
  }

  lemma HolderMeansClash(current: seq<Row>, key: Key, r: Row)
    requires DistinctIds(current) && DistinctKey(current, key)
    ensures Free(current, key, r) <==>
      !(Identity(r, key) in Holders(current, key) && Holders(current, key)[Identity(r, key)] != r.id)
  {
    var v, holders := Identity(r, key), Holders(current, key);
    HoldersSound(current, key);
    if v in holders {
      var k :| 0 <= k < |current| && Identity(current[k], key) == v && current[k].id == holders[v];
      assert Clash(current[k], r, key);
      forall j | 0 <= j < |current| && Clash(current[j], r, key) ensures j == k { OneHolder(current, key, j, k); }
    }
  }

  lemma OneHolder(rows: seq<Row>, key: Key, j: nat, k: nat)
    requires DistinctKey(rows, key) && j < |rows| && k < |rows|
    requires Clash(rows[j], rows[k], key)
    ensures j == k
  {
    assert Clash(rows[k], rows[j], key);
  }

  /** A row is refused exactly when some current row with another id clashes with it. */
  lemma {:induction false} TakenMeansClash(current: seq<Row>, keys: seq<Key>, r: Row)
    requires DistinctIds(current) && DistinctKeys(current, keys)
    ensures Taken(current, keys, r).None? <==> forall key :: key in keys ==> Free(current, key, r)
  {
    if keys != [] {
      HolderMeansClash(current, keys[0], r);
      assert forall key :: key in keys <==> key == keys[0] || key in keys[1..];
      TakenMeansClash(current, keys[1..], r);
    }
  }

  /** A current row with another id holds the row's value of a key. */
  predicate HeldBy(current: seq<Row>, key: Key, r: Row, holder: int) {
    holder != r.id && exists k :: 0 <= k < |current| && current[k].id == holder && Clash(current[k], r, key)
  }

  /** The conflict reported names the first key whose value is held, and who holds it. */
  lemma {:induction false} TakenNames(current: seq<Row>, keys: seq<Key>, r: Row) returns (n: nat)
    requires DistinctIds(current) && DistinctKeys(current, keys) && Taken(current, keys, r).Some?
    ensures n < |keys| && forall m :: 0 <= m < n ==> Free(current, keys[m], r)
    ensures var c := Taken(current, keys, r).value;
      c.KeyTaken? && c.id == r.id && c.key == keys[n] && HeldBy(current, keys[n], r, c.existing)
  {
    HolderMeansClash(current, keys[0], r);
    HoldersSound(current, keys[0]);
    var v, holders := Identity(r, keys[0]), Holders(current, keys[0]);
    if v in holders && holders[v] != r.id {
      n := 0;
      var k :| 0 <= k < |current| && Identity(current[k], keys[0]) == v && current[k].id == holders[v];
    } else {
      var rest := TakenNames(current, keys[1..], r);
      n := rest + 1;
      forall m | 0 <= m < n ensures Free(current, keys[m], r) {
        if m != 0 { assert keys[m] == keys[1..][m - 1]; }
      }
    }
  }

  // ----- One incoming row -----

  datatype Verdict = Create | Keep | Change(changes: Columns) | Refuse(conflict: Conflict)

  function Changes(existing: Row, desired: Row): Columns {
    map c | c in desired.cols && (c !in existing.cols || existing.cols[c] != desired.cols[c]) :: desired.cols[c]
  }

  function Judge(current: seq<Row>, natural: Key, keys: seq<Key>, r: Row): Verdict {
    var taken := Taken(current, keys, r);
    var byId := ById(current);
    if taken.Some? then Refuse(taken.value)
    else if r.id !in byId then Create
    else if Identity(byId[r.id], natural) != Identity(r, natural) then Refuse(Renamed(r.id))
    else if Changes(byId[r.id], r) == map[] then Keep
    else Change(Changes(byId[r.id], r))
  }

  function Add(p: Plan, v: Verdict, r: Row): Plan {
    match v
    case Create => p.(create := p.create + [r])
    case Keep => p
    case Change(changes) => p.(update := p.update + [Update(r.id, changes)])
    case Refuse(conflict) => p.(conflicts := p.conflicts + [conflict])
  }

  function Judged(current: seq<Row>, natural: Key, keys: seq<Key>, rows: seq<Row>): Plan {
    if rows == [] then EMPTY
    else
      var r := rows[|rows| - 1];
      Add(Judged(current, natural, keys, rows[..|rows| - 1]), Judge(current, natural, keys, r), r)
  }

  /** The rows whose ids an index lacks. */
  function Leftover(rows: seq<Row>, index: Table): seq<Row> {
    if rows == [] then []
    else
      var r := rows[|rows| - 1];
      Leftover(rows[..|rows| - 1], index) + if r.id in index then [] else [r]
  }

  function PlanOf(current: seq<Row>, incoming: seq<Row>, natural: Key, keys: seq<Key>, allowDeletes: bool): Plan {
    var p := Judged(current, natural, keys, SortById(incoming));
    if allowDeletes then p.(delete := Leftover(SortById(current), ById(incoming))) else p
  }

  // ----- Duplicate detection -----

  function Values(rows: seq<Row>, key: Key): seq<seq<Value>> {
    if rows == [] then []
    else
      var v := Identity(rows[|rows| - 1], key);
      Values(rows[..|rows| - 1], key) + if Nullable(v) then [] else [v]
  }

  lemma {:induction false} ValuesMembers(rows: seq<Row>, key: Key, v: seq<Value>)
    ensures v in Values(rows, key) <==> !Nullable(v) && exists k :: 0 <= k < |rows| && Identity(rows[k], key) == v
  {
    if rows != [] {
      var n := |rows| - 1;
      ValuesMembers(rows[..n], key, v);
      if !Nullable(v) {
        if k :| 0 <= k < |rows| && Identity(rows[k], key) == v {
          if k < n { assert rows[..n][k] == rows[k]; }
        }
        if k :| 0 <= k < n && Identity(rows[..n][k], key) == v { assert rows[k] == rows[..n][k]; }
      }
    }
  }

  lemma ValueSetGrows(s: seq<seq<Value>>, v: seq<Value>)
    ensures |set x | x in s + [v]| == |set x | x in s| + if v in s then 0 else 1
  {
    var before := set x | x in s;
    assert (set x | x in s + [v]) == before + {v};
  }

  /** Counting values finds duplicates: the set of values is as large as the list exactly when the key
      is distinct. */
  lemma {:induction false} ValueCount(rows: seq<Row>, key: Key)
    ensures |set v | v in Values(rows, key)| <= |Values(rows, key)|
    ensures |set v | v in Values(rows, key)| == |Values(rows, key)| <==> DistinctKey(rows, key)
  {
    if rows == [] {
      assert (set v | v in Values(rows, key)) == {};
    } else {
      var n := |rows| - 1;
      var v := Identity(rows[n], key);
      ValueCount(rows[..n], key);
      ValuesMembers(rows[..n], key, v);
      KeySplit(rows, key, n);
      if Nullable(v) {
        assert Values(rows, key) == Values(rows[..n], key);
      } else {
        ValueSetGrows(Values(rows[..n], key), v);
        assert forall k :: 0 <= k < n ==> rows[..n][k] == rows[k];
      }
    }
  }

  lemma KeySplit(rows: seq<Row>, key: Key, n: nat)
    requires |rows| == n + 1
    ensures DistinctKey(rows, key) <==>
      DistinctKey(rows[..n], key) && forall k :: 0 <= k < n ==> !Clash(rows[k], rows[n], key)
  {
    assert forall i :: 0 <= i < n ==> rows[..n][i] == rows[i];
  }

  // ----- The planner -----

  method FirstTaken(current: seq<Row>, keys: seq<Key>, r: Row) returns (c: Option<Conflict>)
    ensures c == Taken(current, keys, r)
  {
    c := None;
    var i := 0;
    while i < |keys|
      invariant 0 <= i <= |keys|
      invariant c.None? && Taken(current, keys, r) == Taken(current, keys[i..], r)
    {
      var v := Identity(r, keys[i]);
      var holders := Holders(current, keys[i]);
      if !Nullable(v) && v in holders && holders[v] != r.id {
        return Some(KeyTaken(r.id, keys[i], holders[v]));
      }
      HoldersSound(current, keys[i]);
      assert keys[i..][1..] == keys[i + 1..];
      i := i + 1;
    }
  }

  /** Refuse incoming rows that repeat a value of a key. */
  method FindDuplicate(incoming: seq<Row>, keys: seq<Key>) returns (key: Option<Key>)
    ensures key.None? <==> DistinctKeys(incoming, keys)
    ensures key.Some? ==> key.value in keys && !DistinctKey(incoming, key.value)
  {
    for i := 0 to |keys|
      invariant forall k :: 0 <= k < i ==> DistinctKey(incoming, keys[k])
    {
      var values := Values(incoming, keys[i]);
      ValueCount(incoming, keys[i]);
      if |set v | v in values| != |values| { return Some(keys[i]); }
    }
    return None;
  }

  /** Sort each incoming row into creations, updates and conflicts. */
  method JudgeRows(current: seq<Row>, natural: Key, keys: seq<Key>, rows: seq<Row>) returns (plan: Plan)
    ensures plan == Judged(current, natural, keys, rows)
  {
    var byId := ById(current);
    plan := EMPTY;
    for i := 0 to |rows|
      invariant plan == Judged(current, natural, keys, rows[..i])
    {
      var desired := rows[i];
      assert rows[..i + 1][..i] == rows[..i];
      var taken := FirstTaken(current, keys, desired);
      if taken.Some? {
        plan := plan.(conflicts := plan.conflicts + [taken.value]);
      } else if desired.id !in byId {
        plan := plan.(create := plan.create + [desired]);
      } else if Identity(byId[desired.id], natural) != Identity(desired, natural) {
        plan := plan.(conflicts := plan.conflicts + [Renamed(desired.id)]);
      } else {
        var changes := Changes(byId[desired.id], desired);
        if changes != map[] { plan := plan.(update := plan.update + [Update(desired.id, changes)]); }
      }
    }
    assert rows[..|rows|] == rows;
  }

  method FindLeftover(rows: seq<Row>, index: Table) returns (delete: seq<Row>)
    ensures delete == Leftover(rows, index)
  {
    delete := [];
    for i := 0 to |rows|
      invariant delete == Leftover(rows[..i], index)
    {
      assert rows[..i + 1][..i] == rows[..i];
      if rows[i].id !in index { delete := delete + [rows[i]]; }
    }
    assert rows[..|rows|] == rows;
  }

  method PlanRecords(current: seq<Row>, incoming: seq<Row>, natural: Key, keys: seq<Key>, allowDeletes: bool)
    returns (r: Result<Plan, PlanError>)
    ensures r == Err(DuplicateCurrentIds) <==> !DistinctIds(current)
    ensures r == Err(DuplicateIncomingIds) <==> DistinctIds(current) && !DistinctIds(incoming)
    ensures r.Err? && r.error.DuplicateIncoming? ==> r.error.key in keys && !DistinctKey(incoming, r.error.key)
    ensures r.Ok? <==> DistinctIds(current) && DistinctIds(incoming) && DistinctKeys(incoming, keys)
    ensures r.Ok? ==> r.value == PlanOf(current, incoming, natural, keys, allowDeletes)
  {
    IndexSize(current);
    IndexSize(incoming);
    if |ById(current)| != |current| { return Err(DuplicateCurrentIds); }
    if |ById(incoming)| != |incoming| { return Err(DuplicateIncomingIds); }
    var repeated := FindDuplicate(incoming, keys);
    if repeated.Some? { return Err(DuplicateIncoming(repeated.value)); }
    var plan := JudgeRows(current, natural, keys, SortById(incoming));
    if allowDeletes {
      var delete := FindLeftover(SortById(current), ById(incoming));
      plan := plan.(delete := delete);
    }
    return Ok(plan);
  }
}
