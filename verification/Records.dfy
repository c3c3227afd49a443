/** JSON-like column values and rows, and the identities (natural and unique keys) read off them. */
module Records {

  datatype Value =
    | Null
    | Flag(flag: bool)
    | Num(num: int)
    | Text(text: string)
    | List(items: seq<Value>)
    | Obj(fields: map<string, Value>)

  type Columns = map<string, Value>

  /** A record: its primary key and every other column. */
  datatype Row = Row(id: int, cols: Columns)

  /** A database table: rows by primary key. */
  type Table = map<int, Row>

  /** An identity key: one column or a tuple of columns; "id" names the primary key. */
  type Key = seq<string>

  function Column(row: Row, name: string): Value {
    if name == "id" then Num(row.id)
    else if name in row.cols then row.cols[name]
    else Null
  }

  function Identity(row: Row, key: Key): seq<Value> {
    seq(|key|, i requires 0 <= i < |key| => Column(row, key[i]))
  }

  /** An identity with a null part is never compared for uniqueness. */
  predicate Nullable(identity: seq<Value>) {
    Null in identity
  }

  /** Two rows hold the same non-null value of a key. */
  predicate Clash(a: Row, b: Row, key: Key) {
    Identity(a, key) == Identity(b, key) && !Nullable(Identity(a, key))
  }

  predicate DistinctIds(rows: seq<Row>) {
    forall i, j :: 0 <= i < j < |rows| ==> rows[i].id != rows[j].id
  }

  predicate DistinctKey(rows: seq<Row>, key: Key) {
    forall i, j :: 0 <= i < j < |rows| ==> !Clash(rows[i], rows[j], key)
  }

  predicate DistinctKeys(rows: seq<Row>, keys: seq<Key>) {
    forall key :: key in keys ==> DistinctKey(rows, key)
  }

  /** Every row sits under its own id. */
  predicate Keyed(t: Table) {
    forall i :: i in t ==> t[i].id == i
  }

  predicate UniqueKey(t: Table, key: Key) {
    forall i, j :: i in t && j in t && i != j ==> !Clash(t[i], t[j], key)
  }

  predicate UniqueKeys(t: Table, keys: seq<Key>) {
    forall key :: key in keys ==> UniqueKey(t, key)
  }

  /** Rows indexed by id; a later row replaces an earlier one. */
  function ById(rows: seq<Row>): Table {
    if rows == [] then map[]
    else ById(rows[..|rows| - 1])[rows[|rows| - 1].id := rows[|rows| - 1]]
  }

  /** The index holds the listed rows, each under its id, and every listed id. */
  lemma {:induction false} IndexRows(rows: seq<Row>)
    ensures Keyed(ById(rows))
    ensures forall i :: i in ById(rows) ==> ById(rows)[i] in rows
    ensures forall k :: 0 <= k < |rows| ==> rows[k].id in ById(rows)
  {
    if rows != [] {
      IndexRows(rows[..|rows| - 1]);
    }
  }

  predicate HasId(rows: seq<Row>, i: int) {
    exists k :: 0 <= k < |rows| && rows[k].id == i
  }

  lemma IdsIndexed(rows: seq<Row>, i: int)
    ensures HasId(rows, i) <==> i in ById(rows)
  {
    IndexRows(rows);
  }

  /** `rows` lists table `t`, in some order. */
  predicate Lists(rows: seq<Row>, t: Table) {
    DistinctIds(rows) && ById(rows) == t
  }

  lemma {:induction false} DistinctById(rows: seq<Row>, k: nat)
    requires DistinctIds(rows) && k < |rows|
    ensures rows[k].id in ById(rows) && ById(rows)[rows[k].id] == rows[k]
  {
    var n := |rows| - 1;
    if k < n {
      assert rows[..n][k] == rows[k];
      DistinctById(rows[..n], k);
    }
  }

  lemma DistinctSplit(rows: seq<Row>, n: nat)
    requires |rows| == n + 1
    ensures DistinctIds(rows) <==> DistinctIds(rows[..n]) && rows[n].id !in ById(rows[..n])
  {
    var prefix := rows[..n];
    IndexRows(prefix);
    if rows[n].id in ById(prefix) {
      var i :| 0 <= i < n && prefix[i] == ById(prefix)[rows[n].id];
      assert rows[i].id == rows[n].id;
    } else {
      assert forall i :: 0 <= i < n ==> prefix[i] == rows[i];
    }
  }

  lemma TableGrows(t: Table, r: Row)
    ensures |t[r.id := r]| == if r.id in t then |t| else |t| + 1
  {
    var t' := t[r.id := r];
    assert t'.Keys == t.Keys + {r.id};
    if r.id in t { assert t'.Keys == t.Keys; }
  }

  /** The index has one entry a row exactly when no id repeats. */
  lemma {:induction false} IndexSize(rows: seq<Row>)
    ensures |ById(rows)| <= |rows|
    ensures |ById(rows)| == |rows| <==> DistinctIds(rows)
  {
    if rows != [] {
      var n := |rows| - 1;
      IndexSize(rows[..n]);
      DistinctSplit(rows, n);
      TableGrows(ById(rows[..n]), rows[n]);
    }
  }

  /** A listing and its table agree on which keys are unique. */
  lemma ListingKeys(rows: seq<Row>, t: Table, key: Key)
    requires Lists(rows, t)
    ensures DistinctKey(rows, key) <==> UniqueKey(t, key)
  {
    IndexRows(rows);
    forall i | 0 <= i < |rows| ensures rows[i].id in t && t[rows[i].id] == rows[i] {
      DistinctById(rows, i);
    }
    if DistinctKey(rows, key) {
      forall i, j | i in t && j in t && i != j ensures !Clash(t[i], t[j], key) {
        var x :| 0 <= x < |rows| && rows[x] == t[i];
        var y :| 0 <= y < |rows| && rows[y] == t[j];
        assert x != y;
        assert !Clash(rows[if x < y then x else y], rows[if x < y then y else x], key);
      }
    }
  }
}
