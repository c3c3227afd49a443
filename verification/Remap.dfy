/** References from records outside the replication scope, when initialization replaces the rows they
    point to: derived caches are cleared, history moves to the new ids, anything else is a conflict. */
module Remap {
  import opened Prelude
  import opened Records
  import opened Reconcile

  /** Old ids and their replacements, in the order they are carried out; an old id appears once. */
  type Mapping = seq<(int, int)>

  predicate Functional(m: Mapping) {
    forall i, j :: 0 <= i < j < |m| ==> m[i].0 != m[j].0
  }

  /** One bulk update: every reference to the old id becomes the new one; an identity entry is skipped. */
  function Moved(entry: (int, int), v: int): int {
    if entry.0 != entry.1 && v == entry.0 then entry.1 else v
  }

  /** Where the bulk updates, one after the other, take a reference. */
  function Sequential(m: Mapping, v: int): int {
    if m == [] then v else Sequential(m[1..], Moved(m[0], v))
  }

  /** A target that is the source of a later update: references moved there are moved again. */
  predicate Chained(m: Mapping) {
    exists i, j :: 0 <= i < j < |m| && m[i].0 != m[i].1 && m[j].0 != m[j].1 && m[i].1 == m[j].0
  }

  /** References no update from `i` on looks for stay. */
  lemma {:induction false} Untouched(m: Mapping, v: int)
    requires forall j :: 0 <= j < |m| && m[j].0 != m[j].1 ==> m[j].0 != v
    ensures Sequential(m, v) == v
  {
    if m != [] { Untouched(m[1..], v); }
  }

  lemma {:induction false} SkipAhead(m: Mapping, i: nat, v: int)
    requires i <= |m| && forall j :: 0 <= j < i ==> m[j].0 != v
    ensures Sequential(m, v) == Sequential(m[i..], v)
    decreases i
  {
    if i != 0 {
      SkipAhead(m[1..], i - 1, v);
      assert m[1..][i - 1..] == m[i..];
    } else {
      assert m[i..] == m;
    }
  }

  /** A source moves to its target first, and from there wherever the later updates take it. */
  lemma SourceMoves(m: Mapping, i: nat)
    requires Functional(m) && i < |m|
    ensures Sequential(m, m[i].0) == Sequential(m[i + 1..], m[i].1)
  {
    SkipAhead(m, i, m[i].0);
    assert m[i..][1..] == m[i + 1..];
  }

  /** Updating one old id after the other moves every reference to its own replacement exactly when no
      target is the source of a later update. */
  lemma SequentialIsSimultaneous(m: Mapping)
    requires Functional(m)
    ensures (forall i :: 0 <= i < |m| ==> Sequential(m, m[i].0) == m[i].1) <==> !Chained(m)
  {
    if Chained(m) {
      var i, j :| 0 <= i < j < |m| && m[i].0 != m[i].1 && m[j].0 != m[j].1 && m[i].1 == m[j].0;
      SourceMoves(m, i);
      SkipAhead(m, i + 1, m[j].0);
      assert Sequential(m, m[i].0) == Sequential(m, m[j].0);
    } else {
      forall i | 0 <= i < |m| ensures Sequential(m, m[i].0) == m[i].1 {
        SourceMoves(m, i);
        var rest := m[i + 1..];
        forall j | 0 <= j < |rest| && rest[j].0 != rest[j].1 ensures rest[j].0 != m[i].1 {
          assert rest[j] == m[i + 1 + j];
        }
        Untouched(rest, m[i].1);
      }
    }
  }

  // ----- Planning the references of one relation -----

  /** What is known of the records that refer to a domain from outside the scope. */
  datatype Kind = Derived | History | Other

  /** A relation's rows and the id each refers to; `unique` if each id may be referred to once only. */
  datatype Relation = Relation(kind: Kind, unique: bool, refs: map<int, int>)

  datatype Action = Nothing | Purge(ids: set<int>) | Move(mapping: Mapping) | Conflict

  /** The replaced ids some record refers to. */
  function Touched(rel: Relation, deleted: set<int>): set<int> {
    set r | r in rel.refs && rel.refs[r] in deleted :: rel.refs[r]
  }

  /** The replacement of a current id: the desired row with its natural identity. */
  function Target(current: Table, desired: seq<Row>, natural: Key, id: int): Option<int> {
    if id !in current then None
    else
      var v, found := Identity(current[id], natural), ByNatural(desired, natural);
      if v in found then Some(found[v]) else None
  }

  /** Every listed old id has its replacement. */
  predicate Targets(current: Table, desired: seq<Row>, natural: Key, m: Mapping) {
    forall i :: 0 <= i < |m| ==> Target(current, desired, natural, m[i].0) == Some(m[i].1)
  }

  /** The mapping covers the replaced ids some record refers to, and sends each to its replacement. */
  ghost predicate Covers(
    rel: Relation, deleted: set<int>, current: Table, desired: seq<Row>, natural: Key, m: Mapping)
  {
    && Functional(m) && Targets(current, desired, natural, m)
    && Sources(m) == Touched(rel, deleted)
  }

  function Sources(m: Mapping): set<int> {
    set i | 0 <= i < |m| :: m[i].0
  }

  lemma SourcesGrow(m: Mapping, entry: (int, int))
    ensures Sources(m + [entry]) == Sources(m) + {entry.0}
    ensures entry.0 !in Sources(m) && Functional(m) ==> Functional(m + [entry])
  {
    var longer := m + [entry];
    assert longer[|m|] == entry;
    forall id | id in Sources(m) ensures id in Sources(longer) {
      var i :| 0 <= i < |m| && m[i].0 == id;
      assert longer[i].0 == id;
    }
    forall i | 0 <= i < |m| ensures m[i].0 in Sources(m) {}
  }

  /** What is done about one relation: nothing without references to replaced rows, a purge of derived
      records, a move of history whose every target is known, and otherwise a conflict. */
  ghost predicate Decided(
    rel: Relation, deleted: set<int>, current: Table, desired: seq<Row>, natural: Key, action: Action)
  {
    var touched := Touched(rel, deleted);
    if touched == {} then action == Nothing
    else if rel.kind.Derived? then action == Purge(deleted)
    else if rel.kind.History? && !rel.unique
      && forall id :: id in touched ==> Target(current, desired, natural, id).Some? then
      action.Move? && Covers(rel, deleted, current, desired, natural, action.mapping)
    else action == Conflict
  }

  lemma HasMember(s: set<int>)
    requires s != {}
    ensures exists x :: x in s
  {
    assert (forall x :: x !in s) ==> s <= {};
  }

  /** Plan one relation. The ids are visited in an arbitrary order. */
  method PlanRelation(rel: Relation, deleted: set<int>, current: Table, desired: seq<Row>, natural: Key)
    returns (action: Action)
    ensures Decided(rel, deleted, current, desired, natural, action)
  {
    var touched := Touched(rel, deleted);
    if touched == {} { return Nothing; }
    if rel.kind.Derived? { return Purge(deleted); }
    if !rel.kind.History? || rel.unique { return Conflict; }
    var todo: set<int>, mapping: Mapping, missing := touched, [], false;
    while todo != {}
      invariant todo <= touched
      invariant Functional(mapping) && Targets(current, desired, natural, mapping)
      invariant Sources(mapping) <= touched - todo
      invariant !missing ==> Sources(mapping) == touched - todo
      invariant forall id :: id in Sources(mapping) ==> Target(current, desired, natural, id).Some?
      invariant missing ==> exists id :: id in touched && Target(current, desired, natural, id).None?
      decreases todo
    {
      HasMember(todo);
      var id :| id in todo;
      todo := todo - {id};
      var target := Target(current, desired, natural, id);
      if target.None? {
        missing := true;
      } else {
        SourcesGrow(mapping, (id, target.value));
        mapping := mapping + [(id, target.value)];
      }
    }
    return if missing then Conflict else Move(mapping);
  }

  function AllMoved(refs: map<int, int>, mapping: Mapping): map<int, int> {
    map r | r in refs :: Sequential(mapping, refs[r])
  }

  /** The references after an action: purged records go; moved ones follow the bulk updates. */
  function Outcome(rel: Relation, action: Action): Relation {
    match action
    case Purge(ids) => rel.(refs := map r | r in rel.refs && rel.refs[r] !in ids :: rel.refs[r])
    case Move(mapping) => rel.(refs := AllMoved(rel.refs, mapping))
    case _ => rel
  }

  method MoveReferences(refs: map<int, int>, mapping: Mapping) returns (moved: map<int, int>)
    ensures moved == AllMoved(refs, mapping)
  {
    moved := refs;
    for i := 0 to |mapping|
      invariant moved.Keys == refs.Keys
      invariant forall r :: r in moved ==> Sequential(mapping, refs[r]) == Sequential(mapping[i..], moved[r])
    {
      ghost var before := moved;
      var oldId, newId := mapping[i].0, mapping[i].1;
      if oldId != newId { moved := map r | r in moved :: if moved[r] == oldId then newId else moved[r]; }
      assert mapping[i..][0] == mapping[i] && mapping[i..][1..] == mapping[i + 1..];
      assert forall r :: r in moved ==> moved[r] == Moved(mapping[i], before[r]);
    }
    assert mapping[|mapping|..] == [];
    assert forall r :: r in moved ==> moved[r] == AllMoved(refs, mapping)[r];
    assert moved.Keys == AllMoved(refs, mapping).Keys;
  }

  method CarryOut(rel: Relation, action: Action) returns (rel': Relation)
    ensures rel' == Outcome(rel, action)
  {
    match action
    case Purge(ids) =>
      rel' := rel.(refs := map r | r in rel.refs && rel.refs[r] !in ids :: rel.refs[r]);
    case Move(mapping) =>
      var moved := MoveReferences(rel.refs, mapping);
      rel' := rel.(refs := moved);
    case _ => rel' := rel;
  }

  // ----- When moving one id after the other is safe -----

  /** A replaced id that is referred to moves to a different id, itself replaced, referred to and moving on. */
  predicate Collides(rel: Relation, deleted: set<int>, current: Table, desired: seq<Row>, natural: Key) {
    exists a, b :: a in Touched(rel, deleted) && b in Touched(rel, deleted) && a != b &&
      Target(current, desired, natural, a) == Some(b) && Target(current, desired, natural, b) != Some(b)
  }

  /** Each replaced id that is referred to ends at its own replacement. */
  predicate Carried(m: Mapping) {
    forall i :: 0 <= i < |m| ==> Sequential(m, m[i].0) == m[i].1
  }

  /** The ids in some order, each with its replacement. */
  lemma {:induction false} MappingFor(ids: set<int>, current: Table, desired: seq<Row>, natural: Key)
    returns (m: Mapping)
    requires forall id :: id in ids ==> Target(current, desired, natural, id).Some?
    ensures Functional(m) && Targets(current, desired, natural, m) && Sources(m) == ids
    decreases ids
  {
    if ids == {} {
      m := [];
    } else {
      HasMember(ids);
      var id :| id in ids;
      var rest := MappingFor(ids - {id}, current, desired, natural);
      SourcesGrow(rest, (id, Target(current, desired, natural, id).value));
      m := rest + [(id, Target(current, desired, natural, id).value)];
    }
  }

  lemma SourcesStart(m: Mapping, entry: (int, int))
    requires entry.0 !in Sources(m) && Functional(m)
    ensures Sources([entry] + m) == {entry.0} + Sources(m) && Functional([entry] + m)
  {
    var longer := [entry] + m;
    forall i | 0 <= i < |m| ensures longer[i + 1] == m[i] && m[i].0 in Sources(m) {}
    forall id | id in Sources(m) ensures id in Sources(longer) {
      var i :| 0 <= i < |m| && m[i].0 == id;
      assert longer[i + 1].0 == id;
    }
    assert longer[0].0 == entry.0;
  }

  /** An order in which a given id comes first. */
  lemma MappingFrom(rel: Relation, deleted: set<int>, current: Table, desired: seq<Row>, natural: Key, a: int)
    returns (m: Mapping)
    requires forall id :: id in Touched(rel, deleted) ==> Target(current, desired, natural, id).Some?
    requires a in Touched(rel, deleted)
    ensures Covers(rel, deleted, current, desired, natural, m) && m != [] && m[0].0 == a
  {
    var rest := MappingFor(Touched(rel, deleted) - {a}, current, desired, natural);
    var entry := (a, Target(current, desired, natural, a).value);
    SourcesStart(rest, entry);
    m := [entry] + rest;
  }

  /** A chained mapping shows a collision. */
  lemma ChainedCollides(rel: Relation, deleted: set<int>, current: Table, desired: seq<Row>, natural: Key, m: Mapping)
    requires Covers(rel, deleted, current, desired, natural, m) && Chained(m)
    ensures Collides(rel, deleted, current, desired, natural)
  {
    var i, j :| 0 <= i < j < |m| && m[i].0 != m[i].1 && m[j].0 != m[j].1 && m[i].1 == m[j].0;
    assert m[i].0 in Sources(m) && m[j].0 in Sources(m);
  }

  /** A collision makes some order chained. */
  lemma CollisionChains(rel: Relation, deleted: set<int>, current: Table, desired: seq<Row>, natural: Key)
    returns (m: Mapping)
    requires forall id :: id in Touched(rel, deleted) ==> Target(current, desired, natural, id).Some?
    requires Collides(rel, deleted, current, desired, natural)
    ensures Covers(rel, deleted, current, desired, natural, m) && Chained(m)
  {
    var a, b :| a in Touched(rel, deleted) && b in Touched(rel, deleted) && a != b &&
      Target(current, desired, natural, a) == Some(b) && Target(current, desired, natural, b) != Some(b);
    m := MappingFrom(rel, deleted, current, desired, natural, a);
    assert b in Sources(m);
    var j :| 0 <= j < |m| && m[j].0 == b;
    assert m[0].1 == b && 0 < j;
  }

  /** Whatever order the ids are visited in, every reference ends at its own replacement, exactly when no
      moving id's replacement is itself an id that moves. */
  lemma MovesAreSafe(rel: Relation, deleted: set<int>, current: Table, desired: seq<Row>, natural: Key)
    requires forall id :: id in Touched(rel, deleted) ==> Target(current, desired, natural, id).Some?
    ensures (forall m :: Covers(rel, deleted, current, desired, natural, m) ==> Carried(m)) <==>
      !Collides(rel, deleted, current, desired, natural)
  {
    if Collides(rel, deleted, current, desired, natural) {
      var m := CollisionChains(rel, deleted, current, desired, natural);
      SequentialIsSimultaneous(m);
    } else {
      forall m | Covers(rel, deleted, current, desired, natural, m) ensures Carried(m) {
        SequentialIsSimultaneous(m);
        if Chained(m) { ChainedCollides(rel, deleted, current, desired, natural, m); }
      }
    }
  }

  // ----- Two rows that trade their ids -----

  const NAMED: Key := ["name"]
  const SWAP_CURRENT: Table := map[1 := Row(1, map["name" := Text("x")]), 2 := Row(2, map["name" := Text("y")])]
  const SWAP_DESIRED: seq<Row> := [Row(1, map["name" := Text("y")]), Row(2, map["name" := Text("x")])]
  const SWAP_HISTORY := Relation(History, false, map[10 := 1, 11 := 2])
  const SWAP: Mapping := [(1, 2), (2, 1)]

  lemma SwapTargets()
    ensures Target(SWAP_CURRENT, SWAP_DESIRED, NAMED, 1) == Some(2)
    ensures Target(SWAP_CURRENT, SWAP_DESIRED, NAMED, 2) == Some(1)
  {
    var a, b := SWAP_DESIRED[0], SWAP_DESIRED[1];
    assert Identity(a, NAMED) == [Text("y")] && Identity(b, NAMED) == [Text("x")];
    assert SWAP_DESIRED[..1] == [a] && [a][..0] == [];
    assert ByNatural([a], NAMED) == map[[Text("y")] := 1];
    assert ByNatural(SWAP_DESIRED, NAMED) == map[[Text("y")] := 1, [Text("x")] := 2];
    assert Identity(SWAP_CURRENT[1], NAMED) == [Text("x")] && Identity(SWAP_CURRENT[2], NAMED) == [Text("y")];
  }

  /** The planner's own mapping for two rows that trade ids sends the history of both to one of them. */
  lemma SwapCollapses()
    ensures Covers(SWAP_HISTORY, {1, 2}, SWAP_CURRENT, SWAP_DESIRED, NAMED, SWAP)
    ensures Decided(SWAP_HISTORY, {1, 2}, SWAP_CURRENT, SWAP_DESIRED, NAMED, Move(SWAP))
    ensures Outcome(SWAP_HISTORY, Move(SWAP)).refs == map[10 := 1, 11 := 1]
  {
    SwapTargets();
    assert SWAP_HISTORY.refs[10] == 1 && SWAP_HISTORY.refs[11] == 2;
    assert SWAP[0].0 == 1 && SWAP[1].0 == 2;
    assert Touched(SWAP_HISTORY, {1, 2}) == {1, 2};
    assert Sources(SWAP) == {1, 2};
    assert SWAP[1..] == [(2, 1)] && SWAP[1..][1..] == [];
    assert Sequential(SWAP, 1) == Sequential(SWAP[1..], 2) == Sequential(SWAP[1..][1..], 1) == 1;
    assert Sequential(SWAP, 2) == Sequential(SWAP[1..], 2) == 1;
  }

  /** A moved reference is one of the replacements, or was never moved. */
  lemma {:induction false} MovesToTargets(m: Mapping, v: int)
    ensures (Sequential(m, v) == v && forall i :: 0 <= i < |m| ==> m[i].0 != v || m[i].1 == v) ||
      exists i :: 0 <= i < |m| && m[i].1 == Sequential(m, v)
  {
    if m != [] {
      var rest := m[1..];
      MovesToTargets(rest, Moved(m[0], v));
      if i :| 0 <= i < |rest| && rest[i].1 == Sequential(rest, Moved(m[0], v)) { assert m[i + 1] == rest[i]; }
      assert forall i :: 1 <= i < |m| ==> m[i] == rest[i - 1];
    }
  }

  /** A moved id ends at the id of a desired row. */
  lemma MovedIsDesired(m: Mapping, current: Table, desired: seq<Row>, natural: Key, id: int)
    requires Targets(current, desired, natural, m) && id in Sources(m)
    ensures Sequential(m, id) in ById(desired)
  {
    var i :| 0 <= i < |m| && m[i].0 == id;
    MovesToTargets(m, id);
    var j :| 0 <= j < |m| && m[j].1 == Sequential(m, id);
    TargetIsDesired(current, desired, natural, m[j].0, m[j].1);
  }

  lemma TargetIsDesired(current: Table, desired: seq<Row>, natural: Key, id: int, target: int)
    requires Target(current, desired, natural, id) == Some(target)
    ensures target in ById(desired)
  {
    IndexRows(desired);
    ByNaturalSound(desired, natural);
  }

  /** An id that is not replaced stays. */
  lemma OthersStay(m: Mapping, id: int)
    requires id !in Sources(m)
    ensures Sequential(m, id) == id
  {
    forall i | 0 <= i < |m| ensures m[i].0 != id { assert m[i].0 in Sources(m); }
    Untouched(m, id);
  }

  /** Once a relation is carried out, no record refers to a row that is gone: what referred to a stored row
      refers to a desired one, or was purged. */
  lemma NoReferenceLost(
    rel: Relation, deleted: set<int>, current: Table, desired: seq<Row>, natural: Key, action: Action, r: int)
    requires Decided(rel, deleted, current, desired, natural, action) && action != Action.Conflict
    requires forall x :: x in rel.refs ==> rel.refs[x] in current
    requires forall id :: id in current && id !in deleted ==> id in ById(desired)
    requires r in Outcome(rel, action).refs
    ensures r in rel.refs && Outcome(rel, action).refs[r] in ById(desired)
  {
    hide ById, Target;
    var id := rel.refs[r];
    if id in deleted { assert id in Touched(rel, deleted); }
    if action.Move? {
      if id in Sources(action.mapping) {
        MovedIsDesired(action.mapping, current, desired, natural, id);
      } else {
        OthersStay(action.mapping, id);
      }
    }
  }

  /** History is never lost: every record stays, and, unless ids collide, each one that referred to a
      replaced row refers to the desired row with the same natural identity, in whatever order ids move. */
  lemma HistoryFollows(
    rel: Relation, deleted: set<int>, current: Table, desired: seq<Row>, natural: Key, m: Mapping, r: int)
    requires Covers(rel, deleted, current, desired, natural, m)
    requires !Collides(rel, deleted, current, desired, natural) && r in rel.refs
    ensures var v := Sequential(m, rel.refs[r]);
      if rel.refs[r] in deleted then
        && rel.refs[r] in current
        && exists k :: 0 <= k < |desired| && desired[k].id == v &&
             Identity(desired[k], natural) == Identity(current[rel.refs[r]], natural)
      else v == rel.refs[r]
  {
    var id := rel.refs[r];
    if id in deleted {
      assert id in Touched(rel, deleted);
      assert id in Sources(m);
      var i :| 0 <= i < |m| && m[i].0 == id;
      if Chained(m) { ChainedCollides(rel, deleted, current, desired, natural, m); }
      SequentialIsSimultaneous(m);
      ByNaturalSound(desired, natural);
    } else {
      forall i | 0 <= i < |m| ensures m[i].0 != id {
        assert m[i].0 in Sources(m);
      }
      Untouched(m, id);
    }
  }
}
