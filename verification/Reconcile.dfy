/** Surrogate ids: a relation whose ids mean nothing elsewhere keeps the follower's own ids. */
module Reconcile {
  import opened Prelude
  import opened Records
  import opened Planner
  import opened Transaction
  import opened ImportSafety

  /** Which id holds each natural identity, null parts included; a later row replaces an earlier one. */
  function ByNatural(rows: seq<Row>, natural: Key): map<seq<Value>, int> {
    if rows == [] then map[]
    else
      var r := rows[|rows| - 1];
      ByNatural(rows[..|rows| - 1], natural)[Identity(r, natural) := r.id]
  }

  lemma {:induction false} ByNaturalSound(rows: seq<Row>, natural: Key)
    ensures forall v :: v in ByNatural(rows, natural) ==>
      exists k :: 0 <= k < |rows| && Identity(rows[k], natural) == v && rows[k].id == ByNatural(rows, natural)[v]
    ensures forall k :: 0 <= k < |rows| ==> Identity(rows[k], natural) in ByNatural(rows, natural)
  {
    if rows != [] {
      var n := |rows| - 1;
      ByNaturalSound(rows[..n], natural);
      forall v | v in ByNatural(rows, natural)
        ensures exists k ::
          0 <= k < |rows| && Identity(rows[k], natural) == v && rows[k].id == ByNatural(rows, natural)[v]
      {
        if v == Identity(rows[n], natural) {
          assert rows[n].id == ByNatural(rows, natural)[v];
        } else {
          var k :| 0 <= k < n && Identity(rows[..n][k], natural) == v
            && rows[..n][k].id == ByNatural(rows[..n], natural)[v];
          assert rows[k] == rows[..n][k];
        }
      }
      forall k | 0 <= k < |rows| ensures Identity(rows[k], natural) in ByNatural(rows, natural) {
        if k < n { assert rows[..n][k] == rows[k]; }
      }
    }
  }

  function Ids(rows: seq<Row>): set<int> {
    set k | 0 <= k < |rows| :: rows[k].id
  }

  /** The highest id of a list of rows, or zero. */
  function MaxId(rows: seq<Row>): int {
    if rows == [] then 0 else Max(rows[|rows| - 1].id, MaxId(rows[..|rows| - 1]))
  }

  lemma {:induction false} MaxIdBounds(rows: seq<Row>)
    ensures forall k :: 0 <= k < |rows| ==> rows[k].id <= MaxId(rows)
  {
    if rows != [] {
      MaxIdBounds(rows[..|rows| - 1]);
      assert forall k :: 0 <= k < |rows| - 1 ==> rows[..|rows| - 1][k] == rows[k];
    }
  }

  /** The allocation loop: the first id from `next` on that is neither occupied nor given out. */
  method SkipTaken(next: int, occupied: set<int>, given: set<int>) returns (id: int)
    ensures next <= id && id !in occupied && id !in given
    ensures forall x :: next <= x < id ==> x in occupied || x in given
  {
    id := next;
    while id in occupied || id in given
      invariant next <= id
      invariant forall x :: next <= x < id ==> x in occupied || x in given
      decreases set x | x in occupied + given && id <= x
    {
      ghost var above := set x | x in occupied + given && id <= x;
      assert id in above;
      assert (set x | x in occupied + given && id + 1 <= x) == above - {id};
      id := id + 1;
    }
  }

  /** How many of the rows collide with a local id under a natural identity unknown locally. */
  function Displaced(known: map<seq<Value>, int>, occupied: set<int>, rows: seq<Row>, natural: Key): nat {
    if rows == [] then 0
    else
      var r := rows[|rows| - 1];
      Displaced(known, occupied, rows[..|rows| - 1], natural) +
      if Identity(r, natural) !in known && r.id in occupied then 1 else 0
  }

  lemma {:induction false} DisplacedGrows(
    known: map<seq<Value>, int>, occupied: set<int>, rows: seq<Row>, natural: Key, j: nat, k: nat)
    requires j <= k <= |rows|
    ensures Displaced(known, occupied, rows[..j], natural) <= Displaced(known, occupied, rows[..k], natural)
    decreases k
  {
    if j < k {
      assert rows[..k][..k - 1] == rows[..k - 1];
      DisplacedGrows(known, occupied, rows, natural, j, k - 1);
    }
  }

  /** The id of one incoming row: the local one for a known identity, its own when free, else the next
      above every id of either side. */
  function NewId(current: seq<Row>, incoming: seq<Row>, natural: Key, k: nat): int
    requires k < |incoming|
  {
    var known, v := ByNatural(current, natural), Identity(incoming[k], natural);
    if v in known then known[v]
    else if incoming[k].id !in Ids(current) then incoming[k].id
    else MaxId(current + incoming) + 1 + Displaced(known, Ids(current), incoming[..k], natural)
  }

  function Reconciled(current: seq<Row>, incoming: seq<Row>, natural: Key): seq<Row> {
    seq(|incoming|, k requires 0 <= k < |incoming| => Row(NewId(current, incoming, natural, k), incoming[k].cols))
  }

  lemma MaxIdOfBoth(current: seq<Row>, incoming: seq<Row>)
    ensures forall k :: 0 <= k < |current| ==> current[k].id <= MaxId(current + incoming)
    ensures forall k :: 0 <= k < |incoming| ==> incoming[k].id <= MaxId(current + incoming)
    ensures forall x :: x in Ids(current) ==> x <= MaxId(current + incoming)
  {
    var both := current + incoming;
    MaxIdBounds(both);
    forall k | 0 <= k < |incoming| ensures incoming[k].id <= MaxId(both) {
      assert both[|current| + k] == incoming[k];
    }
    forall k | 0 <= k < |current| ensures current[k].id <= MaxId(both) {
      assert both[k] == current[k];
    }
  }

  /** Known identities get a local id; all others get an id no local row and no earlier new row has. */
  lemma NewIdIsFree(current: seq<Row>, incoming: seq<Row>, natural: Key, j: nat, k: nat)
    requires DistinctIds(incoming) && j < k < |incoming|
    requires Identity(incoming[j], natural) !in ByNatural(current, natural) ||
             Identity(incoming[k], natural) !in ByNatural(current, natural)
    ensures NewId(current, incoming, natural, j) != NewId(current, incoming, natural, k)
  {
    var known, occupied := ByNatural(current, natural), Ids(current);
    MaxIdOfBoth(current, incoming);
    ByNaturalSound(current, natural);
    DisplacedGrows(known, occupied, incoming, natural, j + 1, k);
    assert incoming[..j + 1][..j] == incoming[..j];
  }

  // ----- Which id each row gets -----

  /** A stored row has this natural identity and this id. */
  predicate Held(current: seq<Row>, natural: Key, v: seq<Value>, i: int) {
    exists k :: 0 <= k < |current| && Identity(current[k], natural) == v && current[k].id == i
  }

  /** A row whose identity no stored row has, but whose id one has. */
  ghost predicate MovesUp(current: seq<Row>, natural: Key, r: Row) {
    HasId(current, r.id) && forall i :: !Held(current, natural, Identity(r, natural), i)
  }

  /** A row gets the id of a stored row with its identity, else its own if no stored row has it, else the next one
      above all ids of either side and all given out before. */
  ghost predicate GetsId(current: seq<Row>, incoming: seq<Row>, natural: Key, out: seq<Row>, k: nat)
    requires k < |incoming| == |out|
  {
    var r, id := incoming[k], out[k].id;
    && out[k].cols == r.cols
    && ((exists i :: Held(current, natural, Identity(r, natural), i)) ==>
          Held(current, natural, Identity(r, natural), id))
    && ((forall i :: !Held(current, natural, Identity(r, natural), i)) && !HasId(current, r.id) ==> id == r.id)
    && (MovesUp(current, natural, r) ==>
          && (forall i :: HasId(current, i) || HasId(incoming, i) ==> i < id)
          && (id - 1 == 0 || HasId(current, id - 1) || HasId(incoming, id - 1) ||
                exists j :: 0 <= j < k && MovesUp(current, natural, incoming[j]) && out[j].id == id - 1))
  }

  lemma {:induction false} MaxIdReached(rows: seq<Row>)
    ensures MaxId(rows) == 0 || HasId(rows, MaxId(rows))
  {
    if rows != [] {
      var n := |rows| - 1;
      MaxIdReached(rows[..n]);
      if k :| 0 <= k < n && rows[..n][k].id == MaxId(rows[..n]) { assert rows[k].id == MaxId(rows[..n]); }
      assert rows[n].id <= MaxId(rows);
    }
  }

  lemma KnownMeansHeld(current: seq<Row>, natural: Key, v: seq<Value>)
    ensures v in ByNatural(current, natural) ==> Held(current, natural, v, ByNatural(current, natural)[v])
    ensures v in ByNatural(current, natural) <==> exists i :: Held(current, natural, v, i)
  {
    ByNaturalSound(current, natural);
  }

  /** The last displaced row before a given one. */
  lemma {:induction false} DisplacedBefore(current: seq<Row>, incoming: seq<Row>, natural: Key, k: nat)
    requires k <= |incoming| && Displaced(ByNatural(current, natural), Ids(current), incoming[..k], natural) != 0
    ensures exists j ::
      0 <= j < k && MovesUp(current, natural, incoming[j]) &&
      Displaced(ByNatural(current, natural), Ids(current), incoming[..j], natural) + 1 ==
      Displaced(ByNatural(current, natural), Ids(current), incoming[..k], natural)
    decreases k
  {
    var r := incoming[k - 1];
    assert incoming[..k][..k - 1] == incoming[..k - 1];
    KnownMeansHeld(current, natural, Identity(r, natural));
    if !MovesUp(current, natural, r) { DisplacedBefore(current, incoming, natural, k - 1); }
  }

  lemma NewIdExactly(current: seq<Row>, incoming: seq<Row>, natural: Key, k: nat)
    requires k < |incoming|
    ensures GetsId(current, incoming, natural, Reconciled(current, incoming, natural), k)
  {
    var out, both, r := Reconciled(current, incoming, natural), current + incoming, incoming[k];
    KnownMeansHeld(current, natural, Identity(r, natural));
    if MovesUp(current, natural, r) {
      MaxIdOfBoth(current, incoming);
      MaxIdReached(both);
      var top, count := MaxId(both), Displaced(ByNatural(current, natural), Ids(current), incoming[..k], natural);
      if top != 0 {
        var x :| 0 <= x < |both| && both[x].id == top;
        assert if x < |current| then current[x].id == top else incoming[x - |current|].id == top;
        assert HasId(current, top) || HasId(incoming, top);
      }
      assert out[k].id == top + 1 + count;
      if count != 0 {
        DisplacedBefore(current, incoming, natural, k);
        var j :| 0 <= j < k && MovesUp(current, natural, incoming[j]) &&
          Displaced(ByNatural(current, natural), Ids(current), incoming[..j], natural) + 1 == count;
        KnownMeansHeld(current, natural, Identity(incoming[j], natural));
        assert out[j].id == top + count;
      }
    }
  }

  /** The allocation with its search loop and bookkeeping computes the plain allocation: every id below
      `next` may be taken, but none from `next` on is. */
  method ReconcileSurrogateIds(current: seq<Row>, incoming: seq<Row>, natural: Key) returns (out: seq<Row>)
    requires DistinctIds(incoming)
    ensures out == Reconciled(current, incoming, natural)
    ensures |out| == |incoming| && forall k :: 0 <= k < |out| ==> GetsId(current, incoming, natural, out, k)
  {
    forall k | 0 <= k < |incoming|
      ensures GetsId(current, incoming, natural, Reconciled(current, incoming, natural), k)
    {
      NewIdExactly(current, incoming, natural, k);
    }
    hide GetsId;
    var known, occupied := ByNatural(current, natural), Ids(current);
    var next := MaxId(current + incoming) + 1;
    MaxIdOfBoth(current, incoming);
    ByNaturalSound(current, natural);
    var given: set<int> := {};
    out := [];
    var i := 0;
    while i < |incoming|
      invariant 0 <= i == |out| <= |incoming|
      invariant out == Reconciled(current, incoming, natural)[..i]
      invariant next == MaxId(current + incoming) + 1 + Displaced(known, occupied, incoming[..i], natural)
      invariant forall x :: x in given ==> x < next
      invariant forall x :: x in given ==> exists j :: 0 <= j < i && NewId(current, incoming, natural, j) == x
    {
      var source := incoming[i];
      var id: int;
      assert incoming[..i + 1][..i] == incoming[..i];
      if Identity(source, natural) in known {
        id := known[Identity(source, natural)];
      } else {
        id := source.id;
        assert id in given ==> id in occupied by {
          if j :| 0 <= j < i && NewId(current, incoming, natural, j) == id {
            NewIdIsFree(current, incoming, natural, j, i);
          }
        }
        if id in occupied || id in given {
          assert next !in occupied && next !in given;
          id := SkipTaken(next, occupied, given);  // the search stops at once, at `next`
          next := id + 1;
        }
      }
      assert id == NewId(current, incoming, natural, i);
      given := given + {id};
      out := out + [Row(id, source.cols)];
      i := i + 1;
    }
  }

  // ----- Main results -----

  /** Two rows with one natural identity that is known locally. */
  predicate SharesLocalRow(current: seq<Row>, incoming: seq<Row>, natural: Key, j: nat, k: nat)
    requires j < |incoming| && k < |incoming|
  {
    Identity(incoming[j], natural) == Identity(incoming[k], natural) &&
    Identity(incoming[j], natural) in ByNatural(current, natural)
  }

  /** Reconciled ids are pairwise distinct exactly when no two incoming rows claim one local row. */
  lemma ReconciledIdsDistinct(current: seq<Row>, incoming: seq<Row>, natural: Key)
    requires DistinctIds(current) && DistinctIds(incoming)
    ensures DistinctIds(Reconciled(current, incoming, natural)) <==>
      forall j, k :: 0 <= j < k < |incoming| ==> !SharesLocalRow(current, incoming, natural, j, k)
  {
    var out := Reconciled(current, incoming, natural);
    ByNaturalSound(current, natural);
    forall j, k | 0 <= j < k < |incoming|
      ensures out[j].id == out[k].id <==> SharesLocalRow(current, incoming, natural, j, k)
    {
      var known, v, w := ByNatural(current, natural), Identity(incoming[j], natural), Identity(incoming[k], natural);
      if v in known && w in known {
        var x :| 0 <= x < |current| && Identity(current[x], natural) == v && current[x].id == known[v];
        var y :| 0 <= y < |current| && Identity(current[y], natural) == w && current[y].id == known[w];
        assert x < y ==> current[x].id != current[y].id;
        assert y < x ==> current[y].id != current[x].id;
      } else {
        NewIdIsFree(current, incoming, natural, j, k);
      }
    }
  }

  lemma IdentityKept(r: Row, id: int, key: Key)
    requires "id" !in key
    ensures Identity(Row(id, r.cols), key) == Identity(r, key)
  {
    forall i | 0 <= i < |key| ensures Column(Row(id, r.cols), key[i]) == Column(r, key[i]) {
      assert key[i] in key;
    }
  }

  /** Planning reconciled rows never conflicts: each row either is the local row of its identity or new. */
  lemma ReconciledNeverConflicts(current: seq<Row>, incoming: seq<Row>, natural: Key, allowDeletes: bool)
    requires DistinctIds(current) && DistinctKey(current, natural) && "id" !in natural
    ensures PlanOf(current, Reconciled(current, incoming, natural), natural, [natural], allowDeletes).conflicts == []
  {
    var out := Reconciled(current, incoming, natural);
    forall r | r in SortById(out) ensures !Judge(current, natural, [natural], r).Refuse? {
      SameMembers(out, r);
      var k :| 0 <= k < |out| && out[k] == r;
      ReconciledRowAccepted(current, incoming, natural, k);
    }
    JudgedHolds(current, natural, [natural], SortById(out));
  }

  /** A row under a known identity gets that local row's id. */
  lemma KnownRow(current: seq<Row>, natural: Key, v: seq<Value>) returns (x: nat)
    requires DistinctIds(current) && DistinctKey(current, natural) && v in ByNatural(current, natural)
    ensures x < |current| && Identity(current[x], natural) == v && current[x].id == ByNatural(current, natural)[v]
    ensures current[x].id in ById(current) && ById(current)[current[x].id] == current[x]
    ensures forall y :: 0 <= y < |current| && current[y].id != current[x].id ==>
      Identity(current[y], natural) != v || Nullable(v)
  {
    ByNaturalSound(current, natural);
    x :| 0 <= x < |current| && Identity(current[x], natural) == v && current[x].id == ByNatural(current, natural)[v];
    DistinctById(current, x);
    forall y | 0 <= y < |current| && current[y].id != current[x].id
      ensures Identity(current[y], natural) != v || Nullable(v)
    {
      assert x < y ==> !Clash(current[x], current[y], natural);
      assert y < x ==> !Clash(current[y], current[x], natural);
    }
  }

  lemma ReconciledRowAccepted(current: seq<Row>, incoming: seq<Row>, natural: Key, k: nat)
    requires DistinctIds(current) && DistinctKey(current, natural) && "id" !in natural && k < |incoming|
    ensures !Judge(current, natural, [natural], Reconciled(current, incoming, natural)[k]).Refuse?
  {
    var r := Reconciled(current, incoming, natural)[k];
    var v := Identity(incoming[k], natural);
    IdentityKept(incoming[k], r.id, natural);
    if v in ByNatural(current, natural) {
      var x := KnownRow(current, natural, v);
      assert Free(current, natural, r);
    } else {
      NewRowIsNew(current, incoming, natural, k);
    }
    TakenMeansClash(current, [natural], r);
  }

  lemma NewRowIsNew(current: seq<Row>, incoming: seq<Row>, natural: Key, k: nat)
    requires k < |incoming| && Identity(incoming[k], natural) !in ByNatural(current, natural) && "id" !in natural
    ensures var r := Reconciled(current, incoming, natural)[k]; r.id !in ById(current) && Free(current, natural, r)
  {
    var r := Reconciled(current, incoming, natural)[k];
    IdentityKept(incoming[k], r.id, natural);
    ByNaturalSound(current, natural);
    MaxIdOfBoth(current, incoming);
    IndexRows(current);
    assert r.id !in Ids(current);
  }

  /** The contents of a table, ids aside. */
  function Contents(t: Table): set<Columns> {
    set i | i in t :: t[i].cols
  }

  function Rows(rows: seq<Row>): set<Columns> {
    set k | 0 <= k < |rows| :: rows[k].cols
  }

  lemma ListedContents(rows: seq<Row>, t: Table)
    requires Lists(rows, t)
    ensures Contents(t) == Rows(rows)
  {
    forall cols ensures cols in Contents(t) <==> cols in Rows(rows) { ListedColumns(rows, t, cols); }
  }

  lemma ListedColumns(rows: seq<Row>, t: Table, cols: Columns)
    requires Lists(rows, t)
    ensures cols in Contents(t) <==> cols in Rows(rows)
  {
    IndexRows(rows);
    if cols in Contents(t) {
      var i :| i in t && t[i].cols == cols;
      assert t[i] in rows;
    }
    if cols in Rows(rows) {
      var k :| 0 <= k < |rows| && rows[k].cols == cols;
      DistinctById(rows, k);
      assert t[rows[k].id].cols == cols;
    }
  }

  /** Mirrored, the relation ends with exactly the incoming contents, whatever ids they came with. */
  lemma MirroredContents(current: seq<Row>, incoming: seq<Row>, natural: Key, g: Goal)
    requires Lists(Reconciled(current, incoming, natural), g.desired) && g.prune
    ensures Contents(Final(g)) == Rows(incoming)
  {
    var out := Reconciled(current, incoming, natural);
    ListedContents(out, g.desired);
    assert forall k :: 0 <= k < |out| ==> out[k].cols == incoming[k].cols;
  }
}
