/** Recursive merging of an override into a record. */
module Merge {
  import opened Prelude
  import opened Records

  /** Objects merge column by column; anything else is replaced. */
  function MergeValue(base: Value, over: Value): Value
    decreases over
  {
    if base.Obj? && over.Obj? then
      Obj(map k | k in base.fields.Keys + over.fields.Keys ::
        if k !in over.fields then base.fields[k]
        else if k !in base.fields then over.fields[k]
        else MergeValue(base.fields[k], over.fields[k]))
    else over
  }

  function Merged(base: Columns, over: Columns): Columns {
    MergeValue(Obj(base), Obj(over)).fields
  }

  lemma MergedAt(base: Columns, over: Columns, k: string)
    requires k in over
    ensures k in Merged(base, over)
    ensures Merged(base, over)[k] == if k in base then MergeValue(base[k], over[k]) else over[k]
  {
  }

  // ----- What a merge contains -----

  /** What stands at the end of a path of column names. */
  function At(v: Value, path: seq<string>): Option<Value> {
    if path == [] then Some(v)
    else if v.Obj? && path[0] in v.fields then At(v.fields[path[0]], path[1..])
    else None
  }

  /** A path that leads the override to anything but an object. */
  predicate Replaces(over: Value, path: seq<string>) {
    At(over, path).Some? && !At(over, path).value.Obj?
  }

  predicate IsObject(v: Value, path: seq<string>) {
    At(v, path).Some? && At(v, path).value.Obj?
  }

  /** Whatever the override gives is in the merge, at its place. */
  lemma {:induction false} OverrideWins(base: Value, over: Value, path: seq<string>)
    requires At(over, path).Some?
    ensures Replaces(over, path) ==> At(MergeValue(base, over), path) == At(over, path)
    ensures IsObject(over, path) ==> IsObject(MergeValue(base, over), path)
    decreases path
  {
    if path != [] && base.Obj? && path[0] in base.fields {
      OverrideWins(base.fields[path[0]], over.fields[path[0]], path[1..]);
    }
  }

  /** Whatever the base has and the override does not touch is in the merge as well. */
  lemma {:induction false} BaseRemains(base: Value, over: Value, path: seq<string>)
    requires At(over, path).None? && forall n :: 0 <= n < |path| ==> !Replaces(over, path[..n])
    ensures At(MergeValue(base, over), path) == At(base, path)
    decreases path
  {
    assert !Replaces(over, path[..0]);
    if base.Obj? && path[0] in base.fields && path[0] in over.fields {
      forall n | 0 <= n < |path[1..]| ensures !Replaces(over.fields[path[0]], path[1..][..n]) {
        assert path[..n + 1][1..] == path[1..][..n];
        assert !Replaces(over, path[..n + 1]);
      }
      BaseRemains(base.fields[path[0]], over.fields[path[0]], path[1..]);
    }
  }

  /** One set of columns is another with an override merged into it. */
  ghost predicate Merges(base: Columns, over: Columns, result: Columns) {
    && result.Keys == base.Keys + over.Keys
    && forall path :: path != [] ==>
         && (Replaces(Obj(over), path) ==> At(Obj(result), path) == At(Obj(over), path))
         && (IsObject(Obj(over), path) ==> IsObject(Obj(result), path))
         && (At(Obj(over), path).None? && (forall n :: 0 <= n < |path| ==> !Replaces(Obj(over), path[..n])) ==>
               At(Obj(result), path) == At(Obj(base), path))
  }

  lemma MergedMerges(base: Columns, over: Columns)
    ensures Merges(base, over, Merged(base, over))
  {
    var b, o := Obj(base), Obj(over);
    assert Obj(Merged(base, over)) == MergeValue(b, o);
    forall path | At(o, path).Some?
      ensures Replaces(o, path) ==> At(MergeValue(b, o), path) == At(o, path)
      ensures IsObject(o, path) ==> IsObject(MergeValue(b, o), path)
    {
      OverrideWins(b, o, path);
    }
    forall path | At(o, path).None? && forall n :: 0 <= n < |path| ==> !Replaces(o, path[..n])
      ensures At(MergeValue(b, o), path) == At(b, path)
    {
      BaseRemains(b, o, path);
    }
  }

  /** The source's loop: copy the base, then merge or replace one overridden column after the other. */
  method DeepMerge(base: Columns, over: Columns) returns (result: Columns)
    ensures result == Merged(base, over)
    ensures Merges(base, over, result)
    decreases Obj(over)
  {
    hide Merges;
    result := base;
    var todo := over.Keys;
    while todo != {}
      invariant todo <= over.Keys
      invariant result.Keys == base.Keys + (over.Keys - todo)
      invariant forall k :: k in result ==>
        result[k] == if k in todo || k !in over then base[k] else Merged(base, over)[k]
      decreases todo
    {
      var k :| k in todo;
      MergedAt(base, over, k);
      if over[k].Obj? && k in result && result[k].Obj? {
        assert over[k] < Obj(over);
        var inner := DeepMerge(result[k].fields, over[k].fields);
        assert MergeValue(base[k], over[k]) == Obj(inner);
        result := result[k := Obj(inner)];
      } else {
        result := result[k := over[k]];
      }
      todo := todo - {k};
    }
    MergedMerges(base, over);
  }

  /** Merging the same override again changes nothing. */
  lemma {:induction false} MergeTwice(base: Value, over: Value)
    ensures MergeValue(MergeValue(base, over), over) == MergeValue(base, over)
    decreases over
  {
    if over.Obj? {
      var once := MergeValue(base, over);
      if base.Obj? {
        forall k | k in over.fields
          ensures MergeValue(once.fields[k], over.fields[k]) == once.fields[k]
        {
          if k in base.fields { MergeTwice(base.fields[k], over.fields[k]); } else { MergeSelf(over.fields[k]); }
        }
        assert MergeValue(once, over).fields == once.fields;
      } else {
        MergeSelf(over);
      }
    }
  }

  lemma {:induction false} MergeSelf(v: Value)
    ensures MergeValue(v, v) == v
    decreases v
  {
    if v.Obj? {
      forall k | k in v.fields ensures MergeValue(v.fields[k], v.fields[k]) == v.fields[k] {
        MergeSelf(v.fields[k]);
      }
      assert MergeValue(v, v).fields == v.fields;
    }
  }
}
