/** One domain's import: overrides, local protection, new-record policy, validation and planning. */
module Domains {
  import opened Prelude
  import opened Records
  import opened Planner
  import Merge
  import Reconcile
  import Spelling

  /** What the import knows of a domain: its columns besides the id, its keys, and its special rules. For
      a domain with lifecycle columns it says which texts are times with a zone. */
  datatype Spec = Spec(
    columns: set<string>, natural: Key, uniques: seq<Key>, lockable: bool, surrogate: bool,
    lifecycle: Option<string -> bool>)

  function Keys(spec: Spec): seq<Key> {
    [spec.natural] + spec.uniques
  }

  /** What happens to records Main has and the follower lacks, in the domains that have such a policy. */
  datatype Policy = Disabled | Source | Block

  /** One domain's share of the follower configuration. */
  datatype Settings = Settings(
    overrides: map<string, Value>, protected: set<int>, policy: Option<Policy>, prune: bool)

  // ----- Local overrides -----

  function Lookup(m: map<string, Value>, k: string): Value {
    if k in m then m[k] else Null
  }

  /** An override is found under the row's id first, and under its natural identity second. */
  function OverrideFor(spec: Spec, cfg: Settings, r: Row): Value {
    var byId := Lookup(cfg.overrides, Spelling.Decimal(r.id));
    if byId.Null? then Lookup(cfg.overrides, Spelling.IdentityText(Identity(r, spec.natural))) else byId
  }

  /** A usable override is absent, or an object over known columns other than the id. */
  predicate Usable(spec: Spec, over: Value) {
    over.Null? || (over.Obj? && over.fields.Keys <= spec.columns && "id" !in over.fields)
  }

  /** The key under which a row's override stands: its id's decimal spelling, whatever stands elsewhere, and
      its natural identity's spelling only when nothing stands under the id. */
  predicate Stands(spec: Spec, cfg: Settings, r: Row, key: string) {
    var id, name := Spelling.Decimal(r.id), Spelling.IdentityText(Identity(r, spec.natural));
    && key in cfg.overrides && cfg.overrides[key] != Null
    && (key == id || (key == name && (id !in cfg.overrides || cfg.overrides[id] == Null)))
  }

  /** One row after its local override: an object that stands for it is merged into its columns, and without
      one the row is unchanged. */
  ghost predicate OverriddenAs(spec: Spec, cfg: Settings, r: Row, o: Row) {
    && o.id == r.id
    && (forall key :: Stands(spec, cfg, r, key) ==>
          cfg.overrides[key].Obj? ==> Merge.Merges(r.cols, cfg.overrides[key].fields, o.cols))
    && ((forall key :: !Stands(spec, cfg, r, key)) ==> o == r)
  }

  /** An override that stands for a row is refused unless it is an object over known columns. */
  ghost predicate Refused(spec: Spec, cfg: Settings, r: Row) {
    exists key :: Stands(spec, cfg, r, key) &&
      (!cfg.overrides[key].Obj? || "id" in cfg.overrides[key].fields ||
        exists c :: c in cfg.overrides[key].fields && c !in spec.columns)
  }

  function Overridden(spec: Spec, cfg: Settings, r: Row): (o: Row)
    ensures o.id == r.id
  {
    var over := OverrideFor(spec, cfg, r);
    if over.Obj? then Row(r.id, Merge.Merged(r.cols, over.fields)) else r
  }

  function AllOverridden(spec: Spec, cfg: Settings, rows: seq<Row>): seq<Row> {
    seq(|rows|, k requires 0 <= k < |rows| => Overridden(spec, cfg, rows[k]))
  }

  predicate AllUsable(spec: Spec, cfg: Settings, rows: seq<Row>) {
    forall k :: 0 <= k < |rows| ==> Usable(spec, OverrideFor(spec, cfg, rows[k]))
  }

  lemma OneStands(spec: Spec, cfg: Settings, r: Row)
    ensures OverrideFor(spec, cfg, r).Null? <==> forall key :: !Stands(spec, cfg, r, key)
    ensures forall key :: Stands(spec, cfg, r, key) ==> cfg.overrides[key] == OverrideFor(spec, cfg, r)
  {
    var id, name := Spelling.Decimal(r.id), Spelling.IdentityText(Identity(r, spec.natural));
    assert Stands(spec, cfg, r, id) || Stands(spec, cfg, r, name) || OverrideFor(spec, cfg, r).Null?;
  }

  lemma OverriddenExactly(spec: Spec, cfg: Settings, r: Row)
    ensures OverriddenAs(spec, cfg, r, Overridden(spec, cfg, r)) || !OverrideFor(spec, cfg, r).Obj?
    ensures OverrideFor(spec, cfg, r).Null? ==> OverriddenAs(spec, cfg, r, Overridden(spec, cfg, r))
    ensures Usable(spec, OverrideFor(spec, cfg, r)) <==> !Refused(spec, cfg, r)
  {
    OneStands(spec, cfg, r);
    var over := OverrideFor(spec, cfg, r);
    if over.Obj? { Merge.MergedMerges(r.cols, over.fields); }
    if !over.Null? {
      var key :| Stands(spec, cfg, r, key);
      hide OverrideFor, Stands, Merge.Merges, Merge.Merged;
      assert Refused(spec, cfg, r) <==> !Usable(spec, over);
    }
  }

  lemma OverridesExactly(spec: Spec, cfg: Settings, rows: seq<Row>)
    ensures !AllUsable(spec, cfg, rows) <==> exists k :: 0 <= k < |rows| && Refused(spec, cfg, rows[k])
    ensures AllUsable(spec, cfg, rows) ==>
      forall k :: 0 <= k < |rows| ==> OverriddenAs(spec, cfg, rows[k], AllOverridden(spec, cfg, rows)[k])
  {
    hide OverrideFor, OverriddenAs, Refused, Overridden;
    forall k | 0 <= k < |rows|
      ensures Usable(spec, OverrideFor(spec, cfg, rows[k])) <==> !Refused(spec, cfg, rows[k])
      ensures Usable(spec, OverrideFor(spec, cfg, rows[k])) ==>
        OverriddenAs(spec, cfg, rows[k], Overridden(spec, cfg, rows[k]))
    {
      OverriddenExactly(spec, cfg, rows[k]);
    }
  }

  method FindOverride(spec: Spec, cfg: Settings, r: Row) returns (over: Value)
    ensures over == OverrideFor(spec, cfg, r)
    ensures over.Null? <==> forall key :: !Stands(spec, cfg, r, key)
    ensures forall key :: Stands(spec, cfg, r, key) ==> cfg.overrides[key] == over
  {
    OneStands(spec, cfg, r);
    over := Lookup(cfg.overrides, Spelling.Decimal(r.id));
    if over.Null? { over := Lookup(cfg.overrides, Spelling.IdentityText(Identity(r, spec.natural))); }
  }

  method ApplyLocalOverrides(spec: Spec, cfg: Settings, rows: seq<Row>) returns (r: Option<seq<Row>>)
    ensures r.Some? <==> AllUsable(spec, cfg, rows)
    ensures r.Some? ==> r.value == AllOverridden(spec, cfg, rows)
    ensures r.None? <==> exists k :: 0 <= k < |rows| && Refused(spec, cfg, rows[k])
    ensures r.Some? ==>
      |r.value| == |rows| && forall k :: 0 <= k < |rows| ==> OverriddenAs(spec, cfg, rows[k], r.value[k])
  {
    OverridesExactly(spec, cfg, rows);
    hide OverrideFor, Merge.Merged, Merge.Merges, Refused, OverriddenAs, Stands;
    var out: seq<Row> := [];
    for i := 0 to |rows|
      invariant out == AllOverridden(spec, cfg, rows[..i])
      invariant forall k :: 0 <= k < i ==> Usable(spec, OverrideFor(spec, cfg, rows[k]))
    {
      var over := FindOverride(spec, cfg, rows[i]);
      if over.Null? {
        out := out + [rows[i]];
      } else {
        if !over.Obj? || "id" in over.fields || !(over.fields.Keys <= spec.columns) { return None; }
        var cols := Merge.DeepMerge(rows[i].cols, over.fields);
        out := out + [Row(rows[i].id, cols)];
      }
    }
    assert rows[..|rows|] == rows;
    return Some(out);
  }

  // ----- Preparing the desired rows -----

  /** A protected row the follower has stays as it is. */
  function Sheltered(cfg: Settings, current: Table, r: Row): Row {
    if r.id in cfg.protected && r.id in current then current[r.id] else r
  }

  /** A record the follower lacks arrives disabled when the policy says so. */
  function Admitted(cfg: Settings, current: Table, r: Row): Row {
    if cfg.policy == Some(Disabled) && r.id !in current then Row(r.id, r.cols["is_active" := Flag(false)]) else r
  }

  /** Protected rows that Main does not carry. */
  function Spared(cfg: Settings, current: seq<Row>, incoming: Table): seq<Row> {
    if current == [] then []
    else
      var r := current[|current| - 1];
      Spared(cfg, current[..|current| - 1], incoming) +
      if r.id in cfg.protected && r.id !in incoming then [r] else []
  }

  function Desired(spec: Spec, cfg: Settings, current: seq<Row>, incoming: seq<Row>): seq<Row> {
    var rows, t := AllOverridden(spec, cfg, incoming), ById(current);
    seq(|rows|, k requires 0 <= k < |rows| => Admitted(cfg, t, Sheltered(cfg, t, rows[k]))) +
    Spared(cfg, current, ById(incoming))
  }

  /** The ids the follower lacks, in the order of `rows`. */
  function NewIds(current: Table, rows: seq<Row>): seq<int> {
    if rows == [] then []
    else
      var r := rows[|rows| - 1];
      NewIds(current, rows[..|rows| - 1]) + if r.id in current then [] else [r.id]
  }

  function Blocked(cfg: Settings, current: seq<Row>, incoming: seq<Row>): seq<int> {
    if cfg.policy == Some(Block) then NewIds(ById(current), SortById(incoming)) else []
  }

  // ----- Validation -----

  predicate Blank(v: Value) {
    v.Text? && forall i :: 0 <= i < |v.text| ==> v.text[i] in " \t\n\r"
  }

  predicate Hashable(v: Value) {
    !v.List? && !v.Obj?
  }

  /** A record's staleness is a flag, and it was last seen at a time with a zone. */
  predicate ValidLifecycle(r: Row, isTime: string -> bool) {
    && Column(r, "is_stale").Flag?
    && Column(r, "last_seen").Text?
    && (var seen := Column(r, "last_seen").text; 'T' in seen && isTime(seen))
  }

  predicate ValidRow(spec: Spec, r: Row) {
    && r.cols.Keys == spec.columns
    && (spec.lifecycle.Some? ==> ValidLifecycle(r, spec.lifecycle.value))
    && 1 <= r.id
    && (forall i :: 0 <= i < |spec.natural| ==> !Blank(Column(r, spec.natural[i])))
    && (forall k :: 0 <= k < |Keys(spec)| ==>
          forall i :: 0 <= i < |Keys(spec)[k]| ==> Hashable(Column(r, Keys(spec)[k][i])))
  }

  predicate ValidRecords(spec: Spec, rows: seq<Row>) {
    && (forall k :: 0 <= k < |rows| ==> ValidRow(spec, rows[k]))
    && DistinctIds(rows) && DistinctKeys(rows, Keys(spec))
  }

  /** The values of one key seen in the first rows. */
  ghost predicate Seen(rows: seq<Row>, key: Key, seen: set<seq<Value>>) {
    forall v :: v in seen <==> !Nullable(v) && exists k :: 0 <= k < |rows| && Identity(rows[k], key) == v
  }

  lemma SeenGrows(rows: seq<Row>, n: nat, key: Key, seen: set<seq<Value>>)
    requires n < |rows| && Seen(rows[..n], key, seen)
    ensures var v := Identity(rows[n], key); Seen(rows[..n + 1], key, if Nullable(v) then seen else seen + {v})
    ensures DistinctKey(rows[..n + 1], key) <==> DistinctKey(rows[..n], key) && Identity(rows[n], key) !in seen
  {
    var v, prefix, next := Identity(rows[n], key), rows[..n], rows[..n + 1];
    var seen' := if Nullable(v) then seen else seen + {v};
    assert next[..n] == prefix && next[n] == rows[n];
    assert forall k :: 0 <= k < n ==> next[k] == prefix[k];
    KeySplit(next, key, n);
    forall w ensures w in seen' <==> !Nullable(w) && exists k :: 0 <= k < |next| && Identity(next[k], key) == w {
      if !Nullable(w) && w in seen {
        var k :| 0 <= k < n && Identity(prefix[k], key) == w;
        assert Identity(next[k], key) == w;
      }
      if w == v { assert Identity(next[n], key) == w; }
      if k :| 0 <= k < |next| && Identity(next[k], key) == w {
        if k < n { assert Identity(prefix[k], key) == w; }
      }
    }
    if v in seen {
      var k :| 0 <= k < n && Identity(prefix[k], key) == v;
      assert Clash(next[k], next[n], key);
    }
  }

  /** The values of every key seen in the first rows, none of them twice. */
  ghost predicate SeenAll(rows: seq<Row>, keys: seq<Key>, seen: seq<set<seq<Value>>>) {
    && |seen| == |keys|
    && forall j :: 0 <= j < |keys| ==> Seen(rows, keys[j], seen[j]) && DistinctKey(rows, keys[j])
  }

  /** Record one more row's key values, unless one of them was seen before. */
  method Remember(rows: seq<Row>, n: nat, keys: seq<Key>, seen: seq<set<seq<Value>>>)
    returns (ok: bool, seen': seq<set<seq<Value>>>)
    requires n < |rows| && SeenAll(rows[..n], keys, seen)
    ensures ok <==> DistinctKeys(rows[..n + 1], keys)
    ensures ok ==> SeenAll(rows[..n + 1], keys, seen')
  {
    seen' := seen;
    for j := 0 to |keys|
      invariant |seen'| == |keys| && seen'[j..] == seen[j..]
      invariant forall k :: 0 <= k < j ==> Seen(rows[..n + 1], keys[k], seen'[k]) && DistinctKey(rows[..n + 1], keys[k])
    {
      assert seen'[j] == seen'[j..][0] == seen[j];
      SeenGrows(rows, n, keys[j], seen[j]);
      var v := Identity(rows[n], keys[j]);
      if !Nullable(v) {
        if v in seen'[j] { return false, seen'; }
        seen' := seen'[j := seen'[j] + {v}];
      }
    }
    return true, seen';
  }

  lemma PrefixKeys(rows: seq<Row>, n: nat, keys: seq<Key>)
    requires n <= |rows|
    ensures DistinctKeys(rows, keys) ==> DistinctKeys(rows[..n], keys)
  {
  }

  /** A key column holds what cannot be compared. */
  ghost predicate Incomparable(spec: Spec, r: Row) {
    exists c :: (c in spec.natural || exists key :: key in spec.uniques && c in key) &&
      (Column(r, c).List? || Column(r, c).Obj?)
  }

  /** A column of the natural key is left blank. */
  ghost predicate Nameless(spec: Spec, r: Row) {
    exists c :: c in spec.natural && Column(r, c).Text? &&
      forall x :: x in Column(r, c).text ==> x in [' ', '\t', '\n', '\r']
  }

  /** A lifecycle column is not what it should be. */
  predicate OutOfLife(r: Row, isTime: string -> bool) {
    || Column(r, "is_stale") !in [Flag(true), Flag(false)]
    || !Column(r, "last_seen").Text?
    || 'T' !in Column(r, "last_seen").text || !isTime(Column(r, "last_seen").text)
  }

  /** What makes one record invalid: a column too many or missing, a wrong lifecycle, an id below one, a blank
      name, or a key column that cannot be compared. */
  ghost predicate Faulty(spec: Spec, r: Row) {
    || (exists c :: c in r.cols.Keys + spec.columns && !(c in r.cols && c in spec.columns))
    || (spec.lifecycle.Some? && OutOfLife(r, spec.lifecycle.value))
    || r.id < 1 || Nameless(spec, r) || Incomparable(spec, r)
  }

  /** What makes a list of records invalid: an invalid record, an id or a non-null key value that repeats. */
  ghost predicate Unfit(spec: Spec, rows: seq<Row>) {
    || (exists k :: 0 <= k < |rows| && Faulty(spec, rows[k]))
    || (exists j, k :: 0 <= j < k < |rows| && rows[j].id == rows[k].id)
    || (exists key :: (key == spec.natural || key in spec.uniques) && Repeats(rows, key))
  }

  /** Two rows have the same value of a key, no part of it null. */
  predicate Repeats(rows: seq<Row>, key: Key) {
    exists j, k :: 0 <= j < k < |rows| &&
      Identity(rows[j], key) == Identity(rows[k], key) && Null !in Identity(rows[j], key)
  }

  lemma RepeatsExactly(rows: seq<Row>, key: Key)
    ensures Repeats(rows, key) <==> !DistinctKey(rows, key)
  {
    if j, k :| 0 <= j < k < |rows| && Clash(rows[j], rows[k], key) { assert Repeats(rows, key); }
  }

  lemma NamelessExactly(spec: Spec, r: Row)
    ensures !Nameless(spec, r) <==> forall i :: 0 <= i < |spec.natural| ==> !Blank(Column(r, spec.natural[i]))
  {
    if Nameless(spec, r) {
      var c :| c in spec.natural && Column(r, c).Text? &&
        forall x :: x in Column(r, c).text ==> x in [' ', '\t', '\n', '\r'];
      var i :| 0 <= i < |spec.natural| && spec.natural[i] == c;
      forall j | 0 <= j < |Column(r, c).text| ensures Column(r, c).text[j] in " \t\n\r" {
        assert Column(r, c).text[j] in Column(r, c).text;
      }
      assert Blank(Column(r, spec.natural[i]));
    }
  }

  lemma IncomparableExactly(spec: Spec, r: Row)
    ensures !Incomparable(spec, r) <==> forall k :: 0 <= k < |Keys(spec)| ==>
      forall i :: 0 <= i < |Keys(spec)[k]| ==> Hashable(Column(r, Keys(spec)[k][i]))
  {
    var keys := Keys(spec);
    assert keys[0] == spec.natural && keys[1..] == spec.uniques;
    assert forall key :: key in keys <==> key == spec.natural || key in spec.uniques;
    if Incomparable(spec, r) {
      var c :| (c in spec.natural || exists key :: key in spec.uniques && c in key) && !Hashable(Column(r, c));
      var key :| key in keys && c in key;
    }
    if k, i :| 0 <= k < |keys| && 0 <= i < |keys[k]| && !Hashable(Column(r, keys[k][i])) {
      assert keys[k] in keys && keys[k][i] in keys[k];
    }
  }

  lemma FaultyExactly(spec: Spec, r: Row)
    ensures ValidRow(spec, r) <==> !Faulty(spec, r)
  {
    NamelessExactly(spec, r);
    IncomparableExactly(spec, r);
    hide Keys, Blank, Hashable, Nameless, Incomparable;
    assert (exists c :: c in r.cols.Keys + spec.columns && !(c in r.cols && c in spec.columns)) <==>
      r.cols.Keys != spec.columns;
    assert spec.lifecycle.Some? ==> (ValidLifecycle(r, spec.lifecycle.value) <==> !OutOfLife(r, spec.lifecycle.value));
  }

  lemma UnfitExactly(spec: Spec, rows: seq<Row>)
    ensures ValidRecords(spec, rows) <==> !Unfit(spec, rows)
  {
    forall k | 0 <= k < |rows| ensures ValidRow(spec, rows[k]) <==> !Faulty(spec, rows[k]) {
      FaultyExactly(spec, rows[k]);
    }
    forall key ensures Repeats(rows, key) <==> !DistinctKey(rows, key) { RepeatsExactly(rows, key); }
    assert forall key :: key in Keys(spec) <==> key == spec.natural || key in spec.uniques;
    hide ValidRow, Faulty, Repeats, DistinctKey, Keys;
  }

  /** One pass over the rows with the values seen so far finds every invalid or duplicate record. */
  method ValidateRecords(spec: Spec, rows: seq<Row>) returns (ok: bool)
    ensures ok == ValidRecords(spec, rows)
    ensures ok <==> !Unfit(spec, rows)
  {
    UnfitExactly(spec, rows);
    hide ValidRow, Unfit;
    var keys := Keys(spec);
    var seenIds: set<int> := {};
    var seen: seq<set<seq<Value>>> := seq(|keys|, _ => {});
    for i := 0 to |rows|
      invariant forall k :: 0 <= k < i ==> ValidRow(spec, rows[k])
      invariant forall x :: x in seenIds <==> exists k :: 0 <= k < i && rows[k].id == x
      invariant forall j, k :: 0 <= j < k < i ==> rows[j].id != rows[k].id
      invariant SeenAll(rows[..i], keys, seen)
    {
      if !ValidRow(spec, rows[i]) { return false; }
      if rows[i].id in seenIds { return false; }
      var unseen: bool;
      unseen, seen := Remember(rows, i, keys, seen);
      if !unseen {
        PrefixKeys(rows, i + 1, keys);
        return false;
      }
      seenIds := seenIds + {rows[i].id};
    }
    assert rows[..|rows|] == rows;
    return true;
  }

  // ----- Planning -----

  predicate Truthy(v: Value) {
    match v
    case Null => false
    case Flag(b) => b
    case Num(n) => n != 0
    case Text(s) => s != ""
    case List(items) => items != []
    case Obj(fields) => fields != map[]
  }

  function LockedIds(spec: Spec, current: seq<Row>): set<int> {
    set k | 0 <= k < |current| && spec.lockable && Truthy(Column(current[k], "locked")) :: current[k].id
  }

  /** A stored row is locked in a domain with locks when its column holds anything but null, false, zero, or an
      empty text, list or object. */
  predicate HasLock(spec: Spec, r: Row) {
    spec.lockable && Column(r, "locked") !in [Null, Flag(false), Num(0), Text(""), List([]), Obj(map[])]
  }

  lemma TruthyExactly(spec: Spec, r: Row)
    ensures HasLock(spec, r) <==> spec.lockable && Truthy(Column(r, "locked"))
    ensures spec.lockable && "locked" in r.cols && r.cols["locked"] == Flag(true) ==> HasLock(spec, r)
    ensures "locked" in r.cols && r.cols["locked"] == Flag(false) ==> !HasLock(spec, r)
  {
  }

  /** A stored row with this id is locked. */
  predicate LockedRow(spec: Spec, current: seq<Row>, i: int) {
    exists k :: 0 <= k < |current| && current[k].id == i && HasLock(spec, current[k])
  }

  lemma LockedExactly(spec: Spec, current: seq<Row>)
    ensures forall i :: i in LockedIds(spec, current) <==> LockedRow(spec, current, i)
  {
    forall k | 0 <= k < |current|
      ensures HasLock(spec, current[k]) <==> spec.lockable && Truthy(Column(current[k], "locked"))
    {
      TruthyExactly(spec, current[k]);
    }
    hide Truthy, HasLock;
    forall i ensures i in LockedIds(spec, current) <==> LockedRow(spec, current, i) {}
  }

  function HoldBack(plan: Plan, blocked: seq<int>): Plan {
    plan.(
      create := WithoutRows(plan.create, set x | x in blocked),
      conflicts := plan.conflicts + seq(|blocked|, k requires 0 <= k < |blocked| => Undecided(blocked[k])))
  }

  function WithoutRows(rows: seq<Row>, ids: set<int>): seq<Row> {
    if rows == [] then []
    else WithoutRows(rows[..|rows| - 1], ids) + if rows[|rows| - 1].id in ids then [] else [rows[|rows| - 1]]
  }

  function WithoutUpdates(updates: seq<Update>, ids: set<int>): seq<Update> {
    if updates == [] then []
    else
      WithoutUpdates(updates[..|updates| - 1], ids) +
      if updates[|updates| - 1].id in ids then [] else [updates[|updates| - 1]]
  }

  function LockedUpdates(updates: seq<Update>, ids: set<int>): seq<Conflict> {
    if updates == [] then []
    else
      LockedUpdates(updates[..|updates| - 1], ids) +
      if updates[|updates| - 1].id in ids then [Locked(updates[|updates| - 1].id)] else []
  }

  function LockedRows(rows: seq<Row>, ids: set<int>): seq<Conflict> {
    if rows == [] then []
    else LockedRows(rows[..|rows| - 1], ids) + if rows[|rows| - 1].id in ids then [Locked(rows[|rows| - 1].id)] else []
  }

  /** Updates and deletes of locked rows become conflicts. */
  function Guard(plan: Plan, locked: set<int>): Plan {
    plan.(
      update := WithoutUpdates(plan.update, locked), delete := WithoutRows(plan.delete, locked),
      conflicts := plan.conflicts + LockedUpdates(plan.update, locked) + LockedRows(plan.delete, locked))
  }

  /** The rows a domain's import aims for, with surrogate ids reconciled. */
  function Aim(spec: Spec, cfg: Settings, current: seq<Row>, incoming: seq<Row>): seq<Row> {
    var desired := Desired(spec, cfg, current, incoming);
    if spec.surrogate then Reconcile.Reconciled(current, desired, spec.natural) else desired
  }

  /** Bundles and configurations the import accepts for a domain. */
  predicate Acceptable(spec: Spec, cfg: Settings, current: seq<Row>, incoming: seq<Row>) {
    && ValidRecords(spec, incoming) && AllUsable(spec, cfg, incoming)
    && ValidRecords(spec, Aim(spec, cfg, current, incoming))
  }

  function DomainPlan(spec: Spec, cfg: Settings, current: seq<Row>, incoming: seq<Row>): Plan {
    var plan := PlanOf(current, Aim(spec, cfg, current, incoming), spec.natural, Keys(spec), cfg.prune);
    Guard(HoldBack(plan, Blocked(cfg, current, incoming)), LockedIds(spec, current))
  }

  lemma {:induction false} WithoutMore(rows: seq<Row>, ids: set<int>, id: int)
    ensures WithoutRows(rows, ids + {id}) == WithoutRows(WithoutRows(rows, ids), {id})
  {
    if rows != [] {
      var n := |rows| - 1;
      WithoutMore(rows[..n], ids, id);
      var inner := WithoutRows(rows[..n], ids);
      if rows[n].id !in ids {
        assert (inner + [rows[n]])[..|inner|] == inner;
      } else {
        assert inner + [] == inner;
      }
    }
  }

  lemma HoldBackOne(plan: Plan, blocked: seq<int>, i: nat)
    requires i < |blocked|
    ensures var p := HoldBack(plan, blocked[..i]);
      HoldBack(plan, blocked[..i + 1]) ==
        p.(create := WithoutRows(p.create, {blocked[i]}), conflicts := p.conflicts + [Undecided(blocked[i])])
  {
    var taken := blocked[..i + 1];
    var before := set x | x in blocked[..i];
    WithoutMore(plan.create, before, blocked[i]);
    assert taken == blocked[..i] + [blocked[i]];
    assert (set x | x in taken) == before + {blocked[i]};
  }

  /** New records that wait for a decision leave the plan and become conflicts, one after the other. */
  method HoldBackBlocked(plan: Plan, blocked: seq<int>) returns (p: Plan)
    ensures p == HoldBack(plan, blocked)
  {
    p := plan;
    WithoutNone(plan.create);
    assert (set x | x in blocked[..0]) == {};
    for i := 0 to |blocked|
      invariant p == HoldBack(plan, blocked[..i])
    {
      HoldBackOne(plan, blocked, i);
      p := p.(create := WithoutRows(p.create, {blocked[i]}), conflicts := p.conflicts + [Undecided(blocked[i])]);
    }
    assert blocked[..|blocked|] == blocked;
  }

  lemma {:induction false} WithoutNone(rows: seq<Row>)
    ensures WithoutRows(rows, {}) == rows
  {
    if rows != [] { WithoutNone(rows[..|rows| - 1]); }
  }

  /** Locked rows stay: their updates and deletes leave the plan and become conflicts. */
  method GuardLocked(plan: Plan, locked: set<int>) returns (p: Plan)
    ensures p == Guard(plan, locked)
  {
    var update, delete, conflicts := [], [], plan.conflicts;
    for i := 0 to |plan.update|
      invariant update == WithoutUpdates(plan.update[..i], locked)
      invariant conflicts == plan.conflicts + LockedUpdates(plan.update[..i], locked)
    {
      assert plan.update[..i + 1][..i] == plan.update[..i];
      if plan.update[i].id in locked {
        conflicts := conflicts + [Locked(plan.update[i].id)];
      } else {
        update := update + [plan.update[i]];
      }
    }
    assert plan.update[..|plan.update|] == plan.update;
    for i := 0 to |plan.delete|
      invariant delete == WithoutRows(plan.delete[..i], locked)
      invariant conflicts == plan.conflicts + LockedUpdates(plan.update, locked) + LockedRows(plan.delete[..i], locked)
    {
      assert plan.delete[..i + 1][..i] == plan.delete[..i];
      if plan.delete[i].id in locked {
        conflicts := conflicts + [Locked(plan.delete[i].id)];
      } else {
        delete := delete + [plan.delete[i]];
      }
    }
    assert plan.delete[..|plan.delete|] == plan.delete;
    p := plan.(update := update, delete := delete, conflicts := conflicts);
  }

  // ----- What stays of the planner's own plan -----

  lemma {:induction false} LeftRows(rows: seq<Row>, ids: set<int>)
    ensures forall r :: r in WithoutRows(rows, ids) <==> r in rows && r.id !in ids
    ensures forall c :: c in LockedRows(rows, ids) <==>
      c.Locked? && c.id in ids && exists r :: r in rows && r.id == c.id
  {
    if rows != [] {
      var n := |rows| - 1;
      LeftRows(rows[..n], ids);
      assert rows == rows[..n] + [rows[n]];
      forall c ensures c in LockedRows(rows, ids) <==>
        c.Locked? && c.id in ids && exists r :: r in rows && r.id == c.id
      {
        if c in LockedRows(rows[..n], ids) {
          var r :| r in rows[..n] && r.id == c.id;
          assert r in rows;
        }
        if r :| r in rows && r.id == c.id { assert r in rows[..n] || r == rows[n]; }
      }
    }
  }

  lemma {:induction false} LeftUpdates(updates: seq<Update>, ids: set<int>)
    ensures forall u :: u in WithoutUpdates(updates, ids) <==> u in updates && u.id !in ids
    ensures forall c :: c in LockedUpdates(updates, ids) <==>
      c.Locked? && c.id in ids && exists u :: u in updates && u.id == c.id
  {
    if updates != [] {
      var n := |updates| - 1;
      LeftUpdates(updates[..n], ids);
      assert updates == updates[..n] + [updates[n]];
      forall c ensures c in LockedUpdates(updates, ids) <==>
        c.Locked? && c.id in ids && exists u :: u in updates && u.id == c.id
      {
        if c in LockedUpdates(updates[..n], ids) {
          var u :| u in updates[..n] && u.id == c.id;
          assert u in updates;
        }
        if u :| u in updates && u.id == c.id { assert u in updates[..n] || u == updates[n]; }
      }
    }
  }

  lemma {:induction false} NewExactly(t: Table, rows: seq<Row>)
    ensures forall i :: i in NewIds(t, rows) <==> i !in t && exists r :: r in rows && r.id == i
  {
    if rows != [] {
      var n := |rows| - 1;
      NewExactly(t, rows[..n]);
      assert rows == rows[..n] + [rows[n]];
      forall i ensures i in NewIds(t, rows) <==> i !in t && exists r :: r in rows && r.id == i {
        if i in NewIds(t, rows[..n]) {
          var r :| r in rows[..n] && r.id == i;
          assert r in rows;
        }
        if r :| r in rows && r.id == i { assert r in rows[..n] || r == rows[n]; }
      }
    }
  }

  /** A record the follower lacks, where such records wait for a decision. */
  predicate Waits(cfg: Settings, current: seq<Row>, incoming: seq<Row>, i: int) {
    cfg.policy == Some(Block) && HasId(incoming, i) && !HasId(current, i)
  }

  lemma BlockedExactly(cfg: Settings, current: seq<Row>, incoming: seq<Row>, i: int)
    ensures i in Blocked(cfg, current, incoming) <==> Waits(cfg, current, incoming, i)
  {
    NewExactly(ById(current), SortById(incoming));
    IdsIndexed(current, i);
    forall r ensures r in SortById(incoming) <==> r in incoming { SameMembers(incoming, r); }
    assert (exists r :: r in SortById(incoming) && r.id == i) <==> HasId(incoming, i);
  }

  /** What the planner, left alone, would change. */
  predicate Touches(update: seq<Update>, delete: seq<Row>, i: int) {
    (exists u :: u in update && u.id == i) || (exists r :: r in delete && r.id == i)
  }

  /** A domain's plan is the planner's own, without changes to locked rows and creations that wait for a decision,
      each of which is a conflict. */
  ghost predicate Restrains(spec: Spec, cfg: Settings, current: seq<Row>, incoming: seq<Row>, own: Plan, p: Plan) {
    && (forall u :: u in p.update <==> u in own.update && !LockedRow(spec, current, u.id))
    && (forall r :: r in p.delete <==> r in own.delete && !LockedRow(spec, current, r.id))
    && (forall r :: r in p.create <==> r in own.create && !Waits(cfg, current, incoming, r.id))
    && (forall i :: Locked(i) in p.conflicts <==> LockedRow(spec, current, i) && Touches(own.update, own.delete, i))
    && (forall i :: Undecided(i) in p.conflicts <==> Waits(cfg, current, incoming, i))
    && (forall c :: c in p.conflicts && !c.Locked? && !c.Undecided? <==> c in own.conflicts)
  }

  lemma {:induction false} OwnConflicts(current: seq<Row>, natural: Key, keys: seq<Key>, rows: seq<Row>)
    ensures forall c :: c in Judged(current, natural, keys, rows).conflicts ==> c.KeyTaken? || c.Renamed?
  {
    if rows != [] {
      OwnConflicts(current, natural, keys, rows[..|rows| - 1]);
      TakenKind(current, keys, rows[|rows| - 1]);
    }
  }

  lemma {:induction false} TakenKind(current: seq<Row>, keys: seq<Key>, r: Row)
    ensures Taken(current, keys, r).Some? ==> Taken(current, keys, r).value.KeyTaken?
  {
    if keys != [] { TakenKind(current, keys[1..], r); }
  }

  lemma HeldBack(plan: Plan, blocked: seq<int>)
    ensures var p := HoldBack(plan, blocked);
      && p.update == plan.update && p.delete == plan.delete
      && (forall r :: r in p.create <==> r in plan.create && r.id !in blocked)
      && (forall c :: c in p.conflicts <==> c in plan.conflicts || (c.Undecided? && c.id in blocked))
  {
    LeftRows(plan.create, set x | x in blocked);
    var waiting := seq(|blocked|, k requires 0 <= k < |blocked| => Undecided(blocked[k]));
    forall i | i in blocked ensures Undecided(i) in waiting {
      var k :| 0 <= k < |blocked| && blocked[k] == i;
      assert waiting[k] == Undecided(i);
    }
  }

  lemma Guarded(plan: Plan, locked: set<int>)
    ensures var p := Guard(plan, locked);
      && p.create == plan.create
      && (forall u :: u in p.update <==> u in plan.update && u.id !in locked)
      && (forall r :: r in p.delete <==> r in plan.delete && r.id !in locked)
      && (forall c :: c in p.conflicts <==>
            c in plan.conflicts || (c.Locked? && c.id in locked && Touches(plan.update, plan.delete, c.id)))
  {
    LeftUpdates(plan.update, locked);
    LeftRows(plan.delete, locked);
  }

  lemma PlannersConflicts(current: seq<Row>, aim: seq<Row>, natural: Key, keys: seq<Key>, prune: bool)
    ensures forall c :: c in PlanOf(current, aim, natural, keys, prune).conflicts ==> c.KeyTaken? || c.Renamed?
  {
    OwnConflicts(current, natural, keys, SortById(aim));
  }

  lemma PlanRestrains(spec: Spec, cfg: Settings, current: seq<Row>, incoming: seq<Row>)
    ensures Restrains(spec, cfg, current, incoming,
      PlanOf(current, Aim(spec, cfg, current, incoming), spec.natural, Keys(spec), cfg.prune),
      DomainPlan(spec, cfg, current, incoming))
  {
    hide PlanOf, HoldBack, Guard, LockedIds, LockedRow, Blocked, Waits, Aim, Keys, Touches;
    var own := PlanOf(current, Aim(spec, cfg, current, incoming), spec.natural, Keys(spec), cfg.prune);
    var blocked := Blocked(cfg, current, incoming);
    PlannersConflicts(current, Aim(spec, cfg, current, incoming), spec.natural, Keys(spec), cfg.prune);
    HeldBack(own, blocked);
    Guarded(HoldBack(own, blocked), LockedIds(spec, current));
    LockedExactly(spec, current);
    forall i ensures i in blocked <==> Waits(cfg, current, incoming, i) { BlockedExactly(cfg, current, incoming, i); }
  }

  // ----- Ids of the desired rows -----

  lemma {:induction false} SparedRows(cfg: Settings, current: seq<Row>, incoming: Table, r: Row)
    ensures r in Spared(cfg, current, incoming) <==> r in current && r.id in cfg.protected && r.id !in incoming
  {
    if current != [] {
      SparedRows(cfg, current[..|current| - 1], incoming, r);
      assert current == current[..|current| - 1] + [current[|current| - 1]];
    }
  }

  lemma {:induction false} SparedDistinct(cfg: Settings, current: seq<Row>, incoming: Table)
    requires DistinctIds(current)
    ensures DistinctIds(Spared(cfg, current, incoming))
  {
    if current != [] {
      var n := |current| - 1;
      SparedDistinct(cfg, current[..n], incoming);
      forall k | 0 <= k < |Spared(cfg, current[..n], incoming)|
        ensures Spared(cfg, current[..n], incoming)[k].id != current[n].id
      {
        SparedRows(cfg, current[..n], incoming, Spared(cfg, current[..n], incoming)[k]);
      }
    }
  }

  /** Preparing keeps the incoming ids in place and appends other, protected ids. */
  lemma DesiredDistinct(spec: Spec, cfg: Settings, current: seq<Row>, incoming: seq<Row>)
    requires DistinctIds(current) && DistinctIds(incoming)
    ensures var rows := Desired(spec, cfg, current, incoming);
      && DistinctIds(rows) && |incoming| <= |rows|
      && forall k :: 0 <= k < |incoming| ==> rows[k].id == incoming[k].id
  {
    var rows, spared := Desired(spec, cfg, current, incoming), Spared(cfg, current, ById(incoming));
    IndexRows(current);
    IndexRows(incoming);
    SparedDistinct(cfg, current, ById(incoming));
    forall k | 0 <= k < |incoming| ensures rows[k].id == incoming[k].id {}
    forall k | 0 <= k < |spared| ensures spared[k].id !in ById(incoming) {
      SparedRows(cfg, current, ById(incoming), spared[k]);
    }
  }

  function Prepared(cfg: Settings, current: Table, r: Row): Row {
    Admitted(cfg, current, Sheltered(cfg, current, r))
  }

  lemma DesiredAt(spec: Spec, cfg: Settings, current: seq<Row>, incoming: seq<Row>, k: nat)
    requires k < |incoming|
    ensures k < |Desired(spec, cfg, current, incoming)|
    ensures Desired(spec, cfg, current, incoming)[k] == Prepared(cfg, ById(current), Overridden(spec, cfg, incoming[k]))
  {
  }

  /** What one incoming row is prepared to: the stored row with its id if that is protected; else the row after
      its override, disabled if the follower lacks it and the policy says so. */
  ghost predicate PreparedAs(spec: Spec, cfg: Settings, current: seq<Row>, r: Row, d: Row) {
    && d.id == r.id
    && (HasId(current, r.id) && r.id in cfg.protected ==> d in current)
    && (HasId(current, r.id) && r.id !in cfg.protected ==> OverriddenAs(spec, cfg, r, d))
    && (!HasId(current, r.id) && cfg.policy != Some(Disabled) ==> OverriddenAs(spec, cfg, r, d))
    && (!HasId(current, r.id) && cfg.policy == Some(Disabled) ==>
          exists o :: OverriddenAs(spec, cfg, r, o) && d.cols == o.cols["is_active" := Flag(false)])
  }

  /** The desired rows: the incoming ones as prepared, then the protected stored ones Main does not carry. */
  ghost predicate AllPrepared(spec: Spec, cfg: Settings, current: seq<Row>, incoming: seq<Row>, rows: seq<Row>) {
    && |incoming| <= |rows|
    && (forall k :: 0 <= k < |incoming| ==> PreparedAs(spec, cfg, current, incoming[k], rows[k]))
    && (forall r :: r in rows[|incoming|..] <==> r in current && r.id in cfg.protected && !HasId(incoming, r.id))
  }

  lemma DesiredExactly(spec: Spec, cfg: Settings, current: seq<Row>, incoming: seq<Row>)
    requires AllUsable(spec, cfg, incoming)
    ensures AllPrepared(spec, cfg, current, incoming, Desired(spec, cfg, current, incoming))
  {
    var rows := Desired(spec, cfg, current, incoming);
    IndexRows(current);
    forall k | 0 <= k < |incoming| ensures PreparedAs(spec, cfg, current, incoming[k], rows[k]) {
      DesiredAt(spec, cfg, current, incoming, k);
      OverriddenExactly(spec, cfg, incoming[k]);
      IdsIndexed(current, incoming[k].id);
      hide OverriddenAs, OverrideFor, Overridden, Desired, ById, HasId;
      assert OverriddenAs(spec, cfg, incoming[k], Overridden(spec, cfg, incoming[k]));
    }
    assert rows[|incoming|..] == Spared(cfg, current, ById(incoming));
    forall r ensures r in rows[|incoming|..] <==> r in current && r.id in cfg.protected && !HasId(incoming, r.id) {
      SparedRows(cfg, current, ById(incoming), r);
      IdsIndexed(incoming, r.id);
    }
  }

  /** After the incoming rows come the spared ones. */
  lemma SparedAt(spec: Spec, cfg: Settings, current: seq<Row>, incoming: seq<Row>, k: nat)
    requires |incoming| <= k < |Desired(spec, cfg, current, incoming)|
    ensures var r := Desired(spec, cfg, current, incoming)[k];
      r in current && r.id in cfg.protected && r.id !in ById(incoming) && r.id in ById(current)
  {
    hide ById, Overridden, Admitted, Sheltered;
    IndexRows(current);
    SparedRows(cfg, current, ById(incoming), Spared(cfg, current, ById(incoming))[k - |incoming|]);
  }

  lemma SparedIndex(spec: Spec, cfg: Settings, current: seq<Row>, incoming: seq<Row>, r: Row) returns (k: nat)
    requires r in Spared(cfg, current, ById(incoming))
    ensures k < |Desired(spec, cfg, current, incoming)| && Desired(spec, cfg, current, incoming)[k] == r
  {
    var spared := Spared(cfg, current, ById(incoming));
    var j :| 0 <= j < |spared| && spared[j] == r;
    k := |incoming| + j;
  }

  lemma DesiredIdAt(spec: Spec, cfg: Settings, current: seq<Row>, incoming: seq<Row>, k: nat)
    requires k < |incoming|
    ensures var rows := Desired(spec, cfg, current, incoming);
      k < |rows| && rows[k].id == incoming[k].id && rows[k].id in ById(rows) && incoming[k].id in ById(incoming)
  {
    DesiredAt(spec, cfg, current, incoming, k);
    IndexRows(current);
    IndexRows(incoming);
    IndexRows(Desired(spec, cfg, current, incoming));
  }

  /** A prepared row is an incoming one or a protected stored one. */
  lemma OnlyDesired(spec: Spec, cfg: Settings, current: seq<Row>, incoming: seq<Row>, k: nat)
    requires k < |Desired(spec, cfg, current, incoming)|
    ensures var i := Desired(spec, cfg, current, incoming)[k].id;
      i in ById(incoming) || (i in cfg.protected && i in ById(current))
  {
    hide Desired, ById;
    if k < |incoming| {
      DesiredIdAt(spec, cfg, current, incoming, k);
    } else {
      SparedAt(spec, cfg, current, incoming, k);
    }
  }

  lemma SparedIsDesired(spec: Spec, cfg: Settings, current: seq<Row>, incoming: seq<Row>, i: int)
    requires i !in ById(incoming) && i in cfg.protected && i in ById(current)
    ensures i in ById(Desired(spec, cfg, current, incoming))
  {
    hide Desired, ById, Spared;
    var r := ById(current)[i];
    IndexRows(current);
    SparedRows(cfg, current, ById(incoming), r);
    var k := SparedIndex(spec, cfg, current, incoming, r);
    IndexRows(Desired(spec, cfg, current, incoming));
  }

  /** Preparation aims for the incoming ids and the follower's protected ones, and no others. */
  lemma DesiredIds(spec: Spec, cfg: Settings, current: seq<Row>, incoming: seq<Row>, i: int)
    ensures i in ById(Desired(spec, cfg, current, incoming)) <==>
      i in ById(incoming) || (i in cfg.protected && i in ById(current))
  {
    hide Desired, ById;
    var rows := Desired(spec, cfg, current, incoming);
    if i in ById(rows) {
      IndexRows(rows);
      var k :| 0 <= k < |rows| && rows[k] == ById(rows)[i];
      OnlyDesired(spec, cfg, current, incoming, k);
    } else if i in ById(incoming) {
      IndexRows(incoming);
      var k :| 0 <= k < |incoming| && incoming[k] == ById(incoming)[i];
      DesiredIdAt(spec, cfg, current, incoming, k);
    } else if i in cfg.protected && i in ById(current) {
      SparedIsDesired(spec, cfg, current, incoming, i);
    }
  }

  // ----- Planning one domain -----

  /** Overrides, protection and the policy on new records give the desired rows, unless an override is refused. */
  method PrepareDesired(spec: Spec, cfg: Settings, current: seq<Row>, incoming: seq<Row>) returns (r: Option<seq<Row>>)
    requires DistinctIds(current)
    ensures r.Some? <==> AllUsable(spec, cfg, incoming)
    ensures r.None? <==> exists k :: 0 <= k < |incoming| && Refused(spec, cfg, incoming[k])
    ensures r.Some? ==> r.value == Desired(spec, cfg, current, incoming)
    ensures r.Some? ==> AllPrepared(spec, cfg, current, incoming, r.value)
  {
    var overridden := ApplyLocalOverrides(spec, cfg, incoming);
    if overridden.None? { return None; }
    DesiredExactly(spec, cfg, current, incoming);
    hide Refused, AllPrepared, AllUsable, OverriddenAs;
    var t := ById(current);
    return Some(
      seq(|overridden.value|, k requires 0 <= k < |overridden.value| =>
        Admitted(cfg, t, Sheltered(cfg, t, overridden.value[k]))) +
      Spared(cfg, current, ById(incoming)));
  }

  /** Plan one domain, or refuse its records. */
  method PlanDomain(spec: Spec, cfg: Settings, current: seq<Row>, incoming: seq<Row>) returns (r: Option<Plan>)
    requires DistinctIds(current)
    ensures r.Some? <==> Acceptable(spec, cfg, current, incoming)
    ensures r.Some? ==> r.value == DomainPlan(spec, cfg, current, incoming)
    ensures r.None? <==>
      || Unfit(spec, incoming) || (exists k :: 0 <= k < |incoming| && Refused(spec, cfg, incoming[k]))
      || Unfit(spec, Aim(spec, cfg, current, incoming))
    ensures r.Some? ==>
      Restrains(spec, cfg, current, incoming,
        PlanOf(current, Aim(spec, cfg, current, incoming), spec.natural, Keys(spec), cfg.prune), r.value)
  {
    PlanRestrains(spec, cfg, current, incoming);
    UnfitExactly(spec, Aim(spec, cfg, current, incoming));
    var ok := ValidateRecords(spec, incoming);
    if !ok { return None; }
    var prepared := PrepareDesired(spec, cfg, current, incoming);
    if prepared.None? { return None; }
    var desired := prepared.value;
    DesiredDistinct(spec, cfg, current, incoming);
    hide Unfit, Refused, Restrains, AllUsable, PlanOf, Desired, AllPrepared;
    if spec.surrogate { desired := Reconcile.ReconcileSurrogateIds(current, desired, spec.natural); }
    ok := ValidateRecords(spec, desired);
    if !ok { return None; }
    var planned := PlanRecords(current, desired, spec.natural, Keys(spec), cfg.prune);
    var p := HoldBackBlocked(planned.value, Blocked(cfg, current, incoming));
    p := GuardLocked(p, LockedIds(spec, current));
    return Some(p);
  }
}
