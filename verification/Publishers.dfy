/** Several writers and one shared storage: the file operations of their publications, interleaved. A writer
    publishes one bundle at a time, under its own lock; nothing keeps two writers apart. */
module Publishers {
  import opened Prelude
  import opened Bundle
  import opened BundleNames
  import opened BundleStore

  datatype Publication = Publication(writer: NodeId, envelope: Envelope)

  /** What a publication in progress has done. */
  datatype Stage =
    | Begun                        // nothing yet
    | FileWritten                  // the bundle file is in place
    | PointerMoved                 // latest.json names it
    | Pruning(todo: set<string>)   // the directory was listed; these files are to be removed

  /** The storage, how many publications have begun, and those in progress. */
  datatype Disk = Disk(store: Store, begun: nat, open: map<nat, Stage>)

  const BLANK := Disk(EMPTY, 0, map[])

  /** One file operation, or the beginning or the end of a publication; it may end anywhere. */
  datatype Operation =
    | Begin
    | WriteFile(index: nat)
    | MovePointer(index: nat)
    | List(index: nat)
    | Remove(index: nat, name: string)
    | End(index: nat)

  /** Publications begin in order; one may begin while another writer's is in progress only where they overlap. */
  predicate Enabled(overlap: bool, ps: seq<Publication>, d: Disk, op: Operation) {
    if op.Begin? then
      && d.begun < |ps|
      && forall i :: i in d.open ==> overlap && i < |ps| && ps[i].writer != ps[d.begun].writer
    else
      && op.index in d.open && op.index < |ps|
      && match op
         case Begin => false
         case WriteFile(i) => d.open[i].Begun?
         case MovePointer(i) => d.open[i].FileWritten?
         case List(i) => d.open[i].PointerMoved?
         case Remove(i, name) => d.open[i].Pruning? && name in d.open[i].todo
         case End(_) => true
  }

  function Step(ps: seq<Publication>, d: Disk, op: Operation): Disk
    requires op.Begin? || (op.index in d.open && op.index < |ps|)
    requires op.Remove? ==> d.open[op.index].Pruning?
  {
    if op.Begin? then d.(begun := d.begun + 1, open := d.open[d.begun := Begun])
    else
      var i, e := op.index, ps[op.index].envelope;
      match op
      case Begin => d
      case WriteFile(_) => d.(store := Put(d.store, e), open := d.open[i := FileWritten])
      case MovePointer(_) =>
        d.(store := d.store.(latest := Some(Object(NameOf(e)))), open := d.open[i := PointerMoved])
      case List(_) => d.(open := d.open[i := Pruning(Prunable(d.store.bundles.Keys))])
      case Remove(_, name) =>
        d.(store := d.store.(bundles := d.store.bundles - {name}),
           open := d.open[i := Pruning(d.open[i].todo - {name})])
      case End(_) => d.(open := d.open - {i})
  }

  /** The disk after some operations, if each is enabled in its turn. */
  function After(overlap: bool, ps: seq<Publication>, ops: seq<Operation>): Option<Disk> {
    if ops == [] then Some(BLANK)
    else
      var n := |ops| - 1;
      match After(overlap, ps, ops[..n])
      case None => None
      case Some(d) => if Enabled(overlap, ps, d, ops[n]) then Some(Step(ps, d, ops[n])) else None
  }

  lemma Then(overlap: bool, ps: seq<Publication>, ops: seq<Operation>, d: Disk, op: Operation)
    requires After(overlap, ps, ops) == Some(d) && Enabled(overlap, ps, d, op)
    ensures After(overlap, ps, ops + [op]) == Some(Step(ps, d, op))
  {
    assert (ops + [op])[..|ops|] == ops;
  }

  function Envelopes(ps: seq<Publication>): seq<Envelope> {
    seq(|ps|, i requires 0 <= i < |ps| => ps[i].envelope)
  }

  // ----- Publications that do not overlap -----

  /** How far a publication of `e` over `base` has brought the storage. */
  ghost predicate Progress(base: Store, e: Envelope, stage: Stage, s: Store) {
    match stage
    case Begun => s == base
    case FileWritten => s == Put(base, e)
    case PointerMoved => s == Pointed(base, e)
    case Pruning(todo) => Thinned(Pointed(base, e), s) && todo <= Prunable(Pointed(base, e).bundles.Keys)
  }

  lemma ProgressIsReached(base: Store, e: Envelope, stage: Stage, s: Store)
    requires Progress(base, e, stage, s)
    ensures Reached(base, e, s)
  {
    if stage.PointerMoved? { assert s == s.(bundles := s.bundles - {}); }
  }

  /** What a reader gets meanwhile. */
  lemma ProgressReads(base: Store, e: Envelope, stage: Stage, s: Store)
    requires Progress(base, e, stage, s) && Resolves(base) && AllBefore(base, e)
    ensures Read(s) == if stage.Begun? || stage.FileWritten? then Read(base) else Some(e)
  {
    var n := NameOf(e);
    LessOnce(n, n);
    forall m ensures m !in Above(Put(base, e).bundles.Keys, n) {
      if m in base.bundles { LessOnce(m, n); }
    }
    assert Above(Put(base, e).bundles.Keys, n) == {};
  }

  /** The publications so far are a run of interrupted ones, one after the other, and the last of them has
      got as far as the disk says. */
  ghost predicate InTurn(ps: seq<Publication>, d: Disk, states: seq<Store>) {
    && d.begun <= |ps| && |states| == d.begun + 1 && states[d.begun] == d.store
    && Publishing(Envelopes(ps)[..d.begun], states)
    && (forall i :: i in d.open ==> i + 1 == d.begun && Progress(states[i], ps[i].envelope, d.open[i], d.store))
  }

  /** One writer, or publications kept apart. */
  predicate KeptApart(overlap: bool, ps: seq<Publication>) {
    overlap ==> forall i, j :: 0 <= i < |ps| && 0 <= j < |ps| ==> ps[i].writer == ps[j].writer
  }

  lemma BeginInTurn(ps: seq<Publication>, d: Disk, states: seq<Store>)
    requires InTurn(ps, d, states) && d.begun < |ps| && d.open == map[]
    ensures InTurn(ps, Step(ps, d, Begin), states + [d.store])
  {
    var es, next := Envelopes(ps), states + [d.store];
    assert forall i :: 0 <= i < d.begun ==> es[..d.begun + 1][i] == es[..d.begun][i];
    assert Publishing(es[..d.begun + 1], next);
  }

  lemma AdvanceInTurn(ps: seq<Publication>, d: Disk, d': Disk, states: seq<Store>, i: nat)
    requires InTurn(ps, d, states) && i in d.open && d'.begun == d.begun
    requires d'.open.Keys <= {i}
    requires i in d'.open ==> Progress(states[i], ps[i].envelope, d'.open[i], d'.store)
    requires i !in d'.open ==> d'.store == d.store
    ensures InTurn(ps, d', states[d.begun := d'.store])
  {
    var es, next := Envelopes(ps)[..d.begun], states[d.begun := d'.store];
    if i in d'.open { ProgressIsReached(states[i], ps[i].envelope, d'.open[i], d'.store); }
    assert es[i] == ps[i].envelope;
    forall k | 0 <= k < d.begun ensures Reached(next[k], es[k], next[k + 1]) {
      assert Reached(states[k], es[k], states[k + 1]);
    }
  }

  /** A file operation advances the publication it belongs to. */
  lemma OperationProgresses(base: Store, e: Envelope, stage: Stage, s: Store, name: string)
    requires Progress(base, e, stage, s)
    ensures stage.Begun? ==> Progress(base, e, FileWritten, Put(s, e))
    ensures stage.FileWritten? ==> Progress(base, e, PointerMoved, s.(latest := Some(Object(NameOf(e)))))
    ensures stage.PointerMoved? ==> Progress(base, e, Pruning(Prunable(s.bundles.Keys)), s)
    ensures stage.Pruning? && name in stage.todo ==>
      Progress(base, e, Pruning(stage.todo - {name}), s.(bundles := s.bundles - {name}))
  {
    if stage.PointerMoved? {
      assert s == s.(bundles := s.bundles - {});
      assert Thinned(Pointed(base, e), s);
    }
    if stage.Pruning? && name in stage.todo {
      var p := Pointed(base, e);
      var gone: set<string> :| gone <= Prunable(p.bundles.Keys) && s == p.(bundles := p.bundles - gone);
      assert p.bundles - gone - {name} == p.bundles - (gone + {name});
      assert Thinned(p, s.(bundles := s.bundles - {name}));
    }
  }

  lemma StepInTurn(overlap: bool, ps: seq<Publication>, d: Disk, op: Operation, states: seq<Store>)
    returns (next: seq<Store>)
    requires KeptApart(overlap, ps) && InTurn(ps, d, states) && Enabled(overlap, ps, d, op)
    ensures InTurn(ps, Step(ps, d, op), next)
  {
    if op.Begin? {
      assert forall i :: i in d.open ==> i < |ps|;
      assert d.open == map[] by { assert forall i :: i !in d.open; }
      BeginInTurn(ps, d, states);
      next := states + [d.store];
    } else {
      var i := op.index;
      OperationProgresses(states[i], ps[i].envelope, d.open[i], d.store, if op.Remove? then op.name else "");
      hide Progress;
      AdvanceInTurn(ps, d, Step(ps, d, op), states, i);
      next := states[d.begun := Step(ps, d, op).store];
    }
  }

  /** Where publications are kept apart, every run of file operations is a run of interrupted publications. */
  lemma {:induction false} KeptApartIsInTurn(overlap: bool, ps: seq<Publication>, ops: seq<Operation>)
    returns (states: seq<Store>)
    requires KeptApart(overlap, ps) && After(overlap, ps, ops).Some?
    ensures InTurn(ps, After(overlap, ps, ops).value, states)
  {
    if ops == [] {
      states := [EMPTY];
      assert Envelopes(ps)[..0] == [];
    } else {
      var n := |ops| - 1;
      var before := KeptApartIsInTurn(overlap, ps, ops[..n]);
      states := StepInTurn(overlap, ps, After(overlap, ps, ops[..n]).value, ops[n], before);
    }
  }

  lemma NumberedPrefix(es: seq<Envelope>, n: nat)
    requires Numbered(es) && n <= |es|
    ensures Numbered(es[..n])
  {
  }

  /** Then the pointer resolves, and no operation takes a reader back. */
  lemma InTurnReads(overlap: bool, ps: seq<Publication>, d: Disk, op: Operation, states: seq<Store>)
    requires Numbered(Envelopes(ps)) && KeptApart(overlap, ps) && InTurn(ps, d, states) && Enabled(overlap, ps, d, op)
    ensures Resolves(d.store) && ReadSequence(d.store) <= ReadSequence(Step(ps, d, op).store)
  {
    var es := Envelopes(ps)[..d.begun];
    NumberedPrefix(Envelopes(ps), d.begun);
    StorageIsACell(es, states, d.begun);
    if !op.Begin? && !op.End? && !op.List? {
      var i, e := op.index, ps[op.index].envelope;
      assert es[i] == e;
      StorageIsACell(es, states, i);
      RunBefore(es, i, states[i]);
      ReadIsEarlier(es, i, states[i]);
      OperationProgresses(states[i], e, d.open[i], d.store, if op.Remove? then op.name else "");
      ProgressReads(states[i], e, d.open[i], d.store);
      var d' := Step(ps, d, op);
      ProgressReads(states[i], e, d'.open[i], d'.store);
    }
  }

  /** Every pointer resolves, whatever the operations. */
  ghost predicate AlwaysResolves(overlap: bool, ps: seq<Publication>) {
    forall ops :: After(overlap, ps, ops).Some? ==> Resolves(After(overlap, ps, ops).value.store)
  }

  function ReadAfter(overlap: bool, ps: seq<Publication>, ops: seq<Operation>): int
    requires After(overlap, ps, ops).Some?
  {
    ReadSequence(After(overlap, ps, ops).value.store)
  }

  lemma {:induction false} Prefix(overlap: bool, ps: seq<Publication>, ops: seq<Operation>, k: nat)
    requires After(overlap, ps, ops).Some? && k <= |ops|
    ensures After(overlap, ps, ops[..k]).Some?
  {
    if k == |ops| {
      assert ops[..k] == ops;
    } else {
      var n := |ops| - 1;
      Prefix(overlap, ps, ops[..n], k);
      assert ops[..n][..k] == ops[..k];
    }
  }

  /** Readers never see an older bundle after a newer one. */
  ghost predicate NeverGoesBack(overlap: bool, ps: seq<Publication>) {
    forall ops, k :: After(overlap, ps, ops).Some? && 0 <= k <= |ops| && After(overlap, ps, ops[..k]).Some? ==>
      ReadAfter(overlap, ps, ops[..k]) <= ReadAfter(overlap, ps, ops)
  }

  lemma {:induction false} ReadsForward(overlap: bool, ps: seq<Publication>, ops: seq<Operation>, k: nat)
    requires Numbered(Envelopes(ps)) && KeptApart(overlap, ps) && After(overlap, ps, ops).Some? && k <= |ops|
    requires After(overlap, ps, ops[..k]).Some?
    ensures ReadAfter(overlap, ps, ops[..k]) <= ReadAfter(overlap, ps, ops)
  {
    if k == |ops| {
      assert ops[..k] == ops;
    } else {
      var n := |ops| - 1;
      assert ops[..n][..k] == ops[..k];
      ReadsForward(overlap, ps, ops[..n], k);
      var states := KeptApartIsInTurn(overlap, ps, ops[..n]);
      InTurnReads(overlap, ps, After(overlap, ps, ops[..n]).value, ops[n], states);
    }
  }

  /** Kept apart, publications keep the storage readable and readers moving forward. */
  lemma KeptApartIsReadable(overlap: bool, ps: seq<Publication>)
    requires Numbered(Envelopes(ps)) && KeptApart(overlap, ps)
    ensures AlwaysResolves(overlap, ps) && NeverGoesBack(overlap, ps)
  {
    forall ops | After(overlap, ps, ops).Some? ensures Resolves(After(overlap, ps, ops).value.store) {
      var d := After(overlap, ps, ops).value;
      var states := KeptApartIsInTurn(overlap, ps, ops);
      NumberedPrefix(Envelopes(ps), d.begun);
      StorageIsACell(Envelopes(ps)[..d.begun], states, d.begun);
    }
    forall ops, k | After(overlap, ps, ops).Some? && 0 <= k <= |ops| && After(overlap, ps, ops[..k]).Some?
      ensures ReadAfter(overlap, ps, ops[..k]) <= ReadAfter(overlap, ps, ops)
    {
      ReadsForward(overlap, ps, ops, k);
    }
  }

  // ----- Publications that overlap -----

  lemma {:induction false} Skipped(overlap: bool, ps: seq<Publication>, i: nat) returns (ops: seq<Operation>)
    requires i <= |ps|
    ensures After(overlap, ps, ops) == Some(Disk(EMPTY, i, map[]))
  {
    if i == 0 {
      ops := [];
    } else {
      ops := Skipped(overlap, ps, i - 1);
      var d := Disk(EMPTY, i - 1, map[]);
      Then(overlap, ps, ops, d, Begin);
      Then(overlap, ps, ops + [Begin], Step(ps, d, Begin), End(i - 1));
      assert map[i - 1 := Begun] - {i - 1} == map[];
      ops := ops + [Begin] + [End(i - 1)];
    }
  }

  /** A writer has put its file in place, and stands before the pointer. */
  function Late(e: Envelope, i: nat): Disk {
    Disk(Put(EMPTY, e), i + 1, map[i := FileWritten])
  }

  lemma BecomesLate(ps: seq<Publication>, i: nat) returns (ops: seq<Operation>)
    requires i < |ps|
    ensures After(true, ps, ops) == Some(Late(ps[i].envelope, i))
  {
    hide After;
    ops := Skipped(true, ps, i);
    var d := Disk(EMPTY, i, map[]);
    Then(true, ps, ops, d, Begin);
    var d1 := Step(ps, d, Begin);
    assert d1 == Disk(EMPTY, i + 1, map[i := Begun]);
    Then(true, ps, ops + [Begin], d1, WriteFile(i));
    assert d1.open[i := FileWritten] == map[i := FileWritten];
    ops := ops + [Begin] + [WriteFile(i)];
  }

  /** Another writer publishes meanwhile: file and pointer. */
  lemma PublishesMeanwhile(ps: seq<Publication>, ops: seq<Operation>, d: Disk, i: nat) returns (next: seq<Operation>)
    requires After(true, ps, ops) == Some(d) && i < d.begun < |ps| && d.open == map[i := FileWritten]
    requires ps[i].writer != ps[d.begun].writer
    ensures After(true, ps, next) == Some(Disk(Pointed(d.store, ps[d.begun].envelope), d.begun + 1,
      map[i := FileWritten, d.begun := PointerMoved]))
    ensures |ops| <= |next| && next[..|ops|] == ops
  {
    hide After;
    var k, e := d.begun, ps[d.begun].envelope;
    Then(true, ps, ops, d, Begin);
    var d1 := Disk(d.store, k + 1, map[i := FileWritten, k := Begun]);
    assert Step(ps, d, Begin) == d1;
    Then(true, ps, ops + [Begin], d1, WriteFile(k));
    var d2 := Disk(Put(d.store, e), k + 1, map[i := FileWritten, k := FileWritten]);
    assert d1.open[k := FileWritten] == d2.open;
    Then(true, ps, ops + [Begin] + [WriteFile(k)], d2, MovePointer(k));
    assert d2.open[k := PointerMoved] == map[i := FileWritten, k := PointerMoved];
    next := ops + [Begin] + [WriteFile(k)] + [MovePointer(k)];
  }

  lemma EndsMeanwhile(ps: seq<Publication>, ops: seq<Operation>, d: Disk, i: nat, k: nat, stage: Stage)
    requires After(true, ps, ops) == Some(d) && i < k < |ps| && d.open == map[i := FileWritten, k := stage]
    ensures After(true, ps, ops + [End(k)]) == Some(d.(open := map[i := FileWritten]))
  {
    hide After;
    Then(true, ps, ops, d, End(k));
    assert d.open - {k} == map[i := FileWritten];
  }

  lemma DifferentNames(e: Envelope, f: Envelope)
    requires e.sequence < f.sequence < Limit() && IsDigest(e.digest) && IsDigest(f.digest)
    ensures Less(NameOf(e), NameOf(f)) && NameOf(e) != NameOf(f)
  {
    NamesSort(e.sequence, e.digest, f.sequence, f.digest);
    LessOnce(NameOf(e), NameOf(f));
  }

  /** A writer that moves the pointer after the next one has published takes readers back to its own bundle. */
  lemma LateWriterGoesBack(ps: seq<Publication>, i: nat)
    requires Numbered(Envelopes(ps)) && i + 1 < |ps| && ps[i].writer != ps[i + 1].writer
    ensures !NeverGoesBack(true, ps)
  {
    var es := Envelopes(ps);
    var e, f := ps[i].envelope, ps[i + 1].envelope;
    assert es[i] == e && es[i + 1] == f;
    DifferentNames(e, f);
    var ops := BecomesLate(ps, i);
    var d := Late(e, i);
    var before := PublishesMeanwhile(ps, ops, d, i);
    var d1 := Disk(Pointed(d.store, f), i + 2, map[i := FileWritten, i + 1 := PointerMoved]);
    Then(true, ps, before, d1, MovePointer(i));
    var after := before + [MovePointer(i)];
    assert after[..|before|] == before;
    assert ReadAfter(true, ps, before) == f.sequence;
    assert ReadAfter(true, ps, after) == e.sequence;
    assert After(true, ps, after[..|before|]).Some?;
  }

  lemma {:induction false} WriterChanges(ps: seq<Publication>, i: nat, j: nat) returns (k: nat)
    requires i < j < |ps| && ps[i].writer != ps[j].writer
    ensures k + 1 < |ps| && ps[k].writer != ps[k + 1].writer
    decreases j - i
  {
    if ps[j - 1].writer != ps[j].writer {
      k := j - 1;
    } else {
      k := WriterChanges(ps, i, j - 1);
    }
  }

  /** Readers never see an older bundle after a newer one, exactly when no publication begins while another
      writer's is in progress, or there is only one writer. */
  lemma ForwardExactly(overlap: bool, ps: seq<Publication>)
    requires Numbered(Envelopes(ps))
    ensures NeverGoesBack(overlap, ps) <==> KeptApart(overlap, ps)
  {
    if KeptApart(overlap, ps) {
      KeptApartIsReadable(overlap, ps);
    } else {
      var i, j :| 0 <= i < |ps| && 0 <= j < |ps| && ps[i].writer != ps[j].writer;
      var k := WriterChanges(ps, if i < j then i else j, if i < j then j else i);
      LateWriterGoesBack(ps, k);
    }
  }

  /** One whole publication meanwhile, too early to prune anything. */
  lemma FinishesMeanwhile(ps: seq<Publication>, ops: seq<Operation>, d: Disk, i: nat) returns (next: seq<Operation>)
    requires After(true, ps, ops) == Some(d) && i < d.begun < |ps| && d.open == map[i := FileWritten]
    requires ps[i].writer != ps[d.begun].writer
    ensures After(true, ps, next) ==
      Some(Disk(Pointed(d.store, ps[d.begun].envelope), d.begun + 1, map[i := FileWritten]))
  {
    hide After;
    var before := PublishesMeanwhile(ps, ops, d, i);
    var d1 := Disk(Pointed(d.store, ps[d.begun].envelope), d.begun + 1,
      map[i := FileWritten, d.begun := PointerMoved]);
    EndsMeanwhile(ps, before, d1, i, d.begun, PointerMoved);
    next := before + [End(d.begun)];
  }

  /** What is stored when three later bundles have been published beside the late one. */
  function Beside(e: Envelope, f1: Envelope, f2: Envelope, f3: Envelope): Store {
    Pointed(Pointed(Pointed(Put(EMPTY, e), f1), f2), f3)
  }

  lemma BesideAbove(e: Envelope, f1: Envelope, f2: Envelope, f3: Envelope)
    requires e.sequence < f1.sequence < f2.sequence < f3.sequence < Limit()
    requires IsDigest(e.digest) && IsDigest(f1.digest) && IsDigest(f2.digest) && IsDigest(f3.digest)
    ensures var names := Beside(e, f1, f2, f3).bundles.Keys;
      NameOf(e) in names && |Above(names, NameOf(e))| >= RETENTION
  {
    DifferentNames(e, f1);
    DifferentNames(e, f2);
    DifferentNames(e, f3);
    DifferentNames(f1, f2);
    DifferentNames(f1, f3);
    DifferentNames(f2, f3);
    hide Less, NameOf;
    ThreeAbove(Beside(e, f1, f2, f3).bundles.Keys, NameOf(e), NameOf(f1), NameOf(f2), NameOf(f3));
  }

  /** Three bundles came in between: the late pointer names a file that is gone. */
  lemma LateWriterDangles(ps: seq<Publication>, i: nat) returns (ops: seq<Operation>)
    requires Numbered(Envelopes(ps)) && i + 3 < |ps|
    requires forall k :: i < k <= i + 3 ==> ps[k].writer != ps[i].writer
    ensures After(true, ps, ops).Some? && !Resolves(After(true, ps, ops).value.store)
  {
    hide After, Pointed, Put;
    var es, e := Envelopes(ps), ps[i].envelope;
    var f1, f2, f3 := ps[i + 1].envelope, ps[i + 2].envelope, ps[i + 3].envelope;
    assert es[i] == e && es[i + 1] == f1 && es[i + 2] == f2 && es[i + 3] == f3;
    BesideAbove(e, f1, f2, f3);
    ops := BecomesLate(ps, i);
    var s0 := Put(EMPTY, e);
    ops := FinishesMeanwhile(ps, ops, Late(e, i), i);
    var s1 := Pointed(s0, f1);
    ops := FinishesMeanwhile(ps, ops, Disk(s1, i + 2, map[i := FileWritten]), i);
    var s2 := Pointed(s1, f2);
    ops := PublishesMeanwhile(ps, ops, Disk(s2, i + 3, map[i := FileWritten]), i);
    ops := LateAfterPruning(ps, ops, i, Pointed(s2, f3));
  }

  lemma LateAfterPruning(ps: seq<Publication>, ops: seq<Operation>, i: nat, s: Store) returns (next: seq<Operation>)
    requires i + 3 < |ps| && NameOf(ps[i].envelope) in s.bundles
    requires After(true, ps, ops) == Some(Disk(s, i + 4, map[i := FileWritten, i + 3 := PointerMoved]))
    requires |Above(s.bundles.Keys, NameOf(ps[i].envelope))| >= RETENTION
    ensures After(true, ps, next).Some? && !Resolves(After(true, ps, next).value.store)
  {
    hide After;
    var k, name, d := i + 3, NameOf(ps[i].envelope), Disk(s, i + 4, map[i := FileWritten, i + 3 := PointerMoved]);
    Then(true, ps, ops, d, List(k));
    var d1 := Step(ps, d, List(k));
    Then(true, ps, ops + [List(k)], d1, Remove(k, name));
    var d2 := Step(ps, d1, Remove(k, name));
    Then(true, ps, ops + [List(k)] + [Remove(k, name)], d2, MovePointer(i));
    next := ops + [List(k)] + [Remove(k, name)] + [MovePointer(i)];
  }
}
