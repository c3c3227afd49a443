/** Shared storage: immutable bundle files, a pointer to the latest, and pruning, taken one file operation
    at a time. A crash may come between any two operations; a single operation is atomic. */
module BundleStore {
  import opened Prelude
  import opened BundleNames
  import opened History

  /** A bundle as stored; the digest stands for all of its payload but the sequence. */
  datatype Envelope = Envelope(sequence: nat, digest: nat)

  function NameOf(e: Envelope): string {
    FileName(e.sequence, e.digest)
  }

  /** What latest.json holds: the name of a bundle file, or, in an old layout, the bundle itself. */
  datatype Pointer = Object(name: string) | Legacy(envelope: Envelope)

  type Files = map<string, Envelope>

  datatype Store = Store(bundles: Files, latest: Option<Pointer>)

  const EMPTY := Store(map[], None)
  const RETENTION: nat := 3

  // ----- Reading -----

  /** The bundle the pointer leads to; none when the pointer or its file is missing. */
  function Read(s: Store): Option<Envelope> {
    match s.latest
    case None => None
    case Some(Legacy(e)) => Some(e)
    case Some(Object(name)) => if name in s.bundles then Some(s.bundles[name]) else None
  }

  predicate Resolves(s: Store) {
    s.latest.Some? ==> Read(s).Some?
  }

  // ----- Names in order -----

  function NamesIn(names: seq<string>): set<string> {
    set x | x in names
  }

  /** The names after `n`. */
  function Above(names: set<string>, n: string): set<string> {
    set m | m in names && Less(n, m)
  }

  /** The names pruning removes: those with enough later ones. */
  function Prunable(names: set<string>): set<string> {
    set n | n in names && |Above(names, n)| >= RETENTION
  }

  predicate Newest(names: set<string>, n: string) {
    n in names && Above(names, n) == {}
  }

  function InsertName(n: string, names: seq<string>): seq<string> {
    if names == [] || !Less(names[0], n) then [n] + names else [names[0]] + InsertName(n, names[1..])
  }

  function SortNames(names: seq<string>): seq<string> {
    if names == [] then [] else InsertName(names[0], SortNames(names[1..]))
  }

  predicate Sorted(names: seq<string>) {
    forall i, j :: 0 <= i < j < |names| ==> Less(names[i], names[j])
  }

  predicate Distinct(names: seq<string>) {
    forall i, j :: 0 <= i < j < |names| ==> names[i] != names[j]
  }

  lemma {:induction false} InsertNameSorts(n: string, names: seq<string>)
    requires Sorted(names) && n !in names
    ensures Sorted(InsertName(n, names))
    ensures |InsertName(n, names)| == |names| + 1
    ensures forall x :: x in InsertName(n, names) <==> x == n || x in names
  {
    if names != [] {
      LessOnce(names[0], n);
      assert names == [names[0]] + names[1..];
      if Less(names[0], n) {
        InsertNameSorts(n, names[1..]);
        var tail := InsertName(n, names[1..]);
        forall k | 0 <= k < |tail| ensures Less(names[0], tail[k]) { assert tail[k] in tail; }
      } else {
        forall k | 0 <= k < |names| ensures Less(n, names[k]) {
          if k != 0 { LessTransitive(n, names[0], names[k]); }
        }
      }
    }
  }

  lemma {:induction false} SortNamesSorts(names: seq<string>)
    requires Distinct(names)
    ensures Sorted(SortNames(names)) && |SortNames(names)| == |names|
    ensures forall x :: x in SortNames(names) <==> x in names
  {
    if names != [] {
      SortNamesSorts(names[1..]);
      InsertNameSorts(names[0], SortNames(names[1..]));
      assert names == [names[0]] + names[1..];
    }
  }

  lemma {:induction false} DistinctCount(names: seq<string>)
    requires Distinct(names)
    ensures |NamesIn(names)| == |names|
  {
    if names == [] {
      assert NamesIn(names) == {};
    } else {
      DistinctCount(names[1..]);
      assert names == [names[0]] + names[1..];
      assert NamesIn(names) == {names[0]} + NamesIn(names[1..]);
    }
  }

  /** In a sorted list, the names after one are those further on. */
  lemma AboveInSorted(sorted: seq<string>, names: set<string>, k: nat)
    requires Sorted(sorted) && k < |sorted| && names == NamesIn(sorted)
    ensures |Above(names, sorted[k])| == |sorted| - 1 - k
  {
    var rest := sorted[k + 1..];
    forall i, j | 0 <= i < j < |sorted| ensures sorted[i] != sorted[j] { LessOnce(sorted[i], sorted[i]); }
    forall x ensures x in Above(names, sorted[k]) <==> x in rest {
      if x in Above(names, sorted[k]) {
        var j :| 0 <= j < |sorted| && sorted[j] == x;
        LessOnce(sorted[k], x);
        assert k < j && rest[j - k - 1] == x;
      }
    }
    assert Above(names, sorted[k]) == NamesIn(rest);
    DistinctCount(rest);
  }

  /** Dropping the last three sorted names leaves exactly the prunable ones. */
  method RetainedBundleNames(names: seq<string>) returns (removable: seq<string>)
    requires Distinct(names)
    ensures Sorted(removable)
    ensures NamesIn(removable) == Prunable(NamesIn(names))
  {
    var sorted := SortNames(names);
    ghost var all := NamesIn(names);
    SortNamesSorts(names);
    assert all == NamesIn(sorted);
    var keep := if |sorted| < RETENTION then 0 else |sorted| - RETENTION;
    removable := sorted[..keep];
    forall n ensures n in removable <==> n in Prunable(all) {
      if n in sorted {
        var k :| 0 <= k < |sorted| && sorted[k] == n;
        AboveInSorted(sorted, all, k);
        assert k < keep ==> removable[k] == n;
        if n in removable {
          var j :| 0 <= j < keep && sorted[j] == n;
          AboveInSorted(sorted, all, j);
        }
      }
    }
  }

  /** The last sorted name is the newest one. */
  method NewestName(names: seq<string>) returns (n: string)
    requires Distinct(names) && names != []
    ensures Newest(NamesIn(names), n)
  {
    var sorted := SortNames(names);
    SortNamesSorts(names);
    n := sorted[|sorted| - 1];
    assert NamesIn(names) == NamesIn(sorted);
    AboveInSorted(sorted, NamesIn(names), |sorted| - 1);
  }

  // ----- Writing -----

  /** The bundle file is in place; an existing file of that name stays. */
  function Put(s: Store, e: Envelope): Store {
    if NameOf(e) in s.bundles then s else s.(bundles := s.bundles[NameOf(e) := e])
  }

  /** latest.json names the bundle. */
  function Pointed(s: Store, e: Envelope): Store {
    Put(s, e).(latest := Some(Object(NameOf(e))))
  }

  /** All older bundles are gone. */
  function Written(s: Store, e: Envelope): Store {
    var p := Pointed(s, e);
    p.(bundles := p.bundles - Prunable(p.bundles.Keys))
  }

  /** A state in which publishing `e` may be cut short; pruning removes one file after the other. */
  ghost predicate Reached(s: Store, e: Envelope, s': Store) {
    s' == s || s' == Put(s, e) || Thinned(Pointed(s, e), s')
  }

  /** One file operation: one bundle file written or removed, or the pointer replaced. */
  ghost predicate OneOperation(s: Store, s': Store) {
    (s'.latest == s.latest && exists n :: OtherwiseSame(s.bundles, s'.bundles, n)) || s'.bundles == s.bundles
  }

  predicate OtherwiseSame(files: Files, files': Files, n: string) {
    && (forall m :: m in files && m != n ==> m in files' && files'[m] == files[m])
    && (forall m :: m in files' && m != n ==> m in files)
  }

  /** A state that pruning from `s` may have reached. */
  ghost predicate Thinned(s: Store, s': Store) {
    exists gone: set<string> :: gone <= Prunable(s.bundles.Keys) && s' == s.(bundles := s.bundles - gone)
  }

  class FilesystemBundleStore {
    var bundles: Files
    var latest: Option<Pointer>
    ghost var origin: Store      // the state in which recording began
    ghost var trace: seq<Store>  // the state after every file operation since

    function State(): Store
      reads this
    {
      Store(bundles, latest)
    }

    /** The trace leads from the first state to the present one, a file operation at a time. */
    ghost predicate Recorded()
      reads this
    {
      Chain(OneOperation, origin, trace, State())
    }

    constructor ()
      ensures State() == EMPTY == origin && trace == [] && Recorded()
    {
      bundles, latest, trace := map[], None, [];
      origin := EMPTY;
    }

    method WriteBundle(name: string, e: Envelope)
      requires Recorded()
      modifies this
      ensures State() == old(State()).(bundles := old(bundles)[name := e])
      ensures trace == old(trace) + [State()] && origin == old(origin) && Recorded()
    {
      assert OtherwiseSame(bundles, bundles[name := e], name);
      ChainGrows(OneOperation, origin, trace, State(), Store(bundles[name := e], latest));
      bundles := bundles[name := e];
      trace := trace + [State()];
    }

    method WritePointer(name: string)
      requires Recorded()
      modifies this
      ensures State() == old(State()).(latest := Some(Object(name)))
      ensures trace == old(trace) + [State()] && origin == old(origin) && Recorded()
    {
      ChainGrows(OneOperation, origin, trace, State(), Store(bundles, Some(Object(name))));
      latest := Some(Object(name));
      trace := trace + [State()];
    }

    method Unlink(name: string)
      requires Recorded()
      modifies this
      ensures State() == old(State()).(bundles := old(bundles) - {name})
      ensures trace == old(trace) + [State()] && origin == old(origin) && Recorded()
    {
      assert OtherwiseSame(bundles, bundles - {name}, name);
      ChainGrows(OneOperation, origin, trace, State(), Store(bundles - {name}, latest));
      bundles := bundles - {name};
      trace := trace + [State()];
    }

    /** Remove the removable bundles one by one, oldest first. */
    method Prune(names: seq<string>)
      requires Distinct(names) && NamesIn(names) == bundles.Keys && Recorded()
      modifies this
      ensures State() == old(State()).(bundles := old(bundles) - Prunable(old(bundles).Keys))
      ensures old(trace) <= trace && origin == old(origin) && Recorded()
      ensures forall i :: |old(trace)| <= i < |trace| ==> Thinned(old(State()), trace[i])
    {
      hide Chain, Prunable;
      var removable := RetainedBundleNames(names);
      ghost var start := State();
      ghost var gone: set<string> := {};
      assert start.bundles - gone == start.bundles;
      for k := 0 to |removable|
        invariant gone == NamesIn(removable[..k])
        invariant State() == start.(bundles := start.bundles - gone)
        invariant old(trace) <= trace && origin == old(origin) && Recorded()
        invariant forall i :: |old(trace)| <= i < |trace| ==> Thinned(start, trace[i])
      {
        ghost var next := removable[..k + 1];
        assert next == removable[..k] + [removable[k]];
        Unlink(removable[k]);
        gone := gone + {removable[k]};
        assert removable[k] in NamesIn(removable);
        assert bundles == start.bundles - gone;
        assert Thinned(start, State());
      }
      assert removable[..|removable|] == removable;
    }

    /** Publish: write the bundle file, move the pointer, prune. `listing` is the directory read for pruning. */
    method WriteLatest(e: Envelope, listing: seq<string>)
      requires Distinct(listing) && NamesIn(listing) == bundles.Keys + {NameOf(e)} && Recorded()
      modifies this
      ensures State() == Written(old(State()), e)
      ensures old(trace) <= trace && origin == old(origin) && Recorded()
      ensures forall i :: |old(trace)| <= i < |trace| ==> Reached(old(State()), e, trace[i])
    {
      hide Chain, Prunable;
      ghost var start := State();
      var name := NameOf(e);
      if name !in bundles { WriteBundle(name, e); }
      assert State() == Put(start, e);
      WritePointer(name);
      assert State() == Pointed(start, e);
      ghost var pointed := State();
      assert pointed == pointed.(bundles := pointed.bundles - {});
      assert bundles.Keys == start.bundles.Keys + {name};
      Prune(listing);
    }

    method ReadLatest() returns (r: Option<Envelope>)
      ensures r == Read(State())
    {
      match latest
      case None => return None;
      case Some(Legacy(e)) => return Some(e);
      case Some(Object(name)) =>
        if name in bundles { return Some(bundles[name]); }
        return None;
    }

    /** Readers that tolerate a missing pointer or file take the newest complete bundle instead. */
    method ReadOrNewest(listing: seq<string>) returns (r: Option<Envelope>)
      requires Distinct(listing) && NamesIn(listing) == bundles.Keys
      ensures Read(State()).Some? ==> r == Read(State())
      ensures Read(State()).None? ==>
        if bundles == map[] then r.None? else exists n :: Newest(bundles.Keys, n) && r == Some(bundles[n])
    {
      r := ReadLatest();
      if r.None? && listing != [] {
        var n := NewestName(listing);
        r := Some(bundles[n]);
        assert listing[0] in NamesIn(listing);
      }
    }
  }

  // ----- Main results -----

  lemma AboveUnchanged(names: set<string>, n: string)
    ensures Above(names + {n}, n) == Above(names, n)
  {
    LessOnce(n, n);
  }

  /** After publication the pointer resolves exactly when fewer than three stored names sort after the new one. */
  lemma PointerResolves(s: Store, e: Envelope)
    ensures Resolves(Written(s, e)) <==> |Above(s.bundles.Keys, NameOf(e))| < RETENTION
  {
    var n := NameOf(e);
    assert Put(s, e).bundles.Keys == s.bundles.Keys + {n};
    AboveUnchanged(s.bundles.Keys, n);
  }

  /** Every stored bundle sorts before `e`. */
  predicate AllBefore(s: Store, e: Envelope) {
    forall n :: n in s.bundles ==> Less(n, NameOf(e))
  }

  /** Publishing a bundle newer than all stored ones is a write to one atomic cell: wherever it is cut
      short, the pointer resolves and reads give the previous bundle or the new one. */
  lemma AtomicPublication(s: Store, e: Envelope, s': Store)
    requires Resolves(s) && AllBefore(s, e) && Reached(s, e, s')
    ensures Resolves(s') && (Read(s') == Read(s) || Read(s') == Some(e))
    ensures Read(Written(s, e)) == Some(e)
  {
    var n := NameOf(e);
    LessOnce(n, n);
    assert n !in s.bundles;
    forall m ensures m !in Above(Put(s, e).bundles.Keys, n) {
      if m in s.bundles { LessOnce(m, n); }
    }
    assert Above(Put(s, e).bundles.Keys, n) == {};
  }

  /** A run of publications, each cut short anywhere. */
  ghost predicate Publishing(es: seq<Envelope>, states: seq<Store>) {
    && |states| == |es| + 1 && states[0] == EMPTY
    && forall i :: 0 <= i < |es| ==> Reached(states[i], es[i], states[i + 1])
  }

  /** Ever higher sequences, all within the width of a name. */
  predicate Numbered(es: seq<Envelope>) {
    && (forall i :: 0 <= i < |es| ==> es[i].sequence < Limit() && IsDigest(es[i].digest))
    && forall i, j :: 0 <= i < j < |es| ==> es[i].sequence < es[j].sequence
  }

  /** What is stored after `i` publications: only bundles of theirs, each under its name. */
  predicate FromRun(es: seq<Envelope>, i: nat, s: Store)
    requires i <= |es|
  {
    && (forall n :: n in s.bundles ==> s.bundles[n] in es[..i] && NameOf(s.bundles[n]) == n)
    && (s.latest.Some? ==> s.latest.value.Object?)
  }

  lemma StepFromRun(es: seq<Envelope>, i: nat, s: Store, s': Store)
    requires i < |es| && FromRun(es, i, s) && Reached(s, es[i], s')
    ensures FromRun(es, i + 1, s')
  {
    assert es[..i + 1] == es[..i] + [es[i]];
  }

  lemma RunBefore(es: seq<Envelope>, i: nat, s: Store)
    requires Numbered(es) && i < |es| && FromRun(es, i, s)
    ensures AllBefore(s, es[i])
  {
    forall n | n in s.bundles ensures Less(n, NameOf(es[i])) {
      var j :| 0 <= j < i && es[j] == s.bundles[n];
      NamesSort(es[j].sequence, es[j].digest, es[i].sequence, es[i].digest);
    }
  }

  lemma CellStep(es: seq<Envelope>, i: nat, s: Store, s': Store)
    requires Numbered(es) && i < |es| && FromRun(es, i, s) && Resolves(s) && Reached(s, es[i], s')
    ensures FromRun(es, i + 1, s') && Resolves(s')
    ensures Read(s') == Read(s) || Read(s') == Some(es[i])
  {
    StepFromRun(es, i, s, s');
    RunBefore(es, i, s);
    AtomicPublication(s, es[i], s');
  }

  /** A run of interrupted publications refines one atomic cell: at every point the pointer resolves, and
      each publication leaves the cell alone or sets it to the new bundle. */
  lemma {:induction false} StorageIsACell(es: seq<Envelope>, states: seq<Store>, i: nat)
    requires Numbered(es) && Publishing(es, states) && i <= |es|
    ensures FromRun(es, i, states[i]) && Resolves(states[i])
    ensures i < |es| ==> Read(states[i + 1]) == Read(states[i]) || Read(states[i + 1]) == Some(es[i])
  {
    if i != 0 {
      StorageIsACell(es, states, i - 1);
      CellStep(es, i - 1, states[i - 1], states[i]);
    }
    if i < |es| { CellStep(es, i, states[i], states[i + 1]); }
  }

  function ReadSequence(s: Store): int {
    if Read(s).Some? then Read(s).value.sequence else -1
  }

  lemma ReadIsEarlier(es: seq<Envelope>, i: nat, s: Store)
    requires Numbered(es) && i < |es| && FromRun(es, i, s)
    ensures ReadSequence(s) < es[i].sequence
  {
    if Read(s).Some? {
      var j :| 0 <= j < i && es[j] == Read(s).value;
    }
  }

  /** Readers never go back to an older bundle. */
  lemma {:induction false} ReadersNeverGoBack(es: seq<Envelope>, states: seq<Store>, i: nat, k: nat)
    requires Numbered(es) && Publishing(es, states) && i <= k <= |es|
    ensures ReadSequence(states[i]) <= ReadSequence(states[k])
    decreases k - i
  {
    if i < k {
      ReadersNeverGoBack(es, states, i, k - 1);
      StorageIsACell(es, states, k - 1);
      ReadIsEarlier(es, k - 1, states[k - 1]);
    }
  }

  /** The newest stored name holds the highest stored sequence: falling back to it never reads less than
      the pointer would give. */
  lemma NewestIsHighest(es: seq<Envelope>, states: seq<Store>, i: nat, n: string)
    requires Numbered(es) && Publishing(es, states) && i <= |es| && Newest(states[i].bundles.Keys, n)
    ensures forall m :: m in states[i].bundles ==> states[i].bundles[m].sequence <= states[i].bundles[n].sequence
    ensures ReadSequence(states[i]) <= states[i].bundles[n].sequence
  {
    var s := states[i];
    StorageIsACell(es, states, i);
    forall m | m in s.bundles ensures s.bundles[m].sequence <= s.bundles[n].sequence {
      var x, y := s.bundles[m], s.bundles[n];
      assert x in es && y in es;
      assert m !in Above(s.bundles.Keys, n);
      NamesSort(y.sequence, y.digest, x.sequence, x.digest);
    }
  }

  lemma AboveGrows(s: Store, e: Envelope, s': Store, n: string)
    requires Reached(s, e, s')
    ensures |Above(s'.bundles.Keys, n)| <= |Above(s.bundles.Keys, n)| + 1
  {
    var before, after := Above(s.bundles.Keys, n), Above(s'.bundles.Keys, n);
    assert after <= before + {NameOf(e)};
    SubsetSize(after, before + {NameOf(e)});
  }

  lemma {:induction false} SubsetSize(a: set<string>, b: set<string>)
    requires a <= b
    ensures |a| <= |b|
  {
    if a != {} {
      var x :| x in a;
      SubsetSize(a - {x}, b - {x});
    }
  }

  lemma ThreeAbove(names: set<string>, n: string, a: string, b: string, c: string)
    requires a in names && b in names && c in names && a != b && a != c && b != c
    requires Less(n, a) && Less(n, b) && Less(n, c)
    ensures |Above(names, n)| >= 3
  {
    SubsetSize({a, b, c}, Above(names, n));
    assert |{a, b, c}| == 3;
  }

  /** A file is pruned by a publication exactly when three names sort after it. */
  lemma PrunedExactly(s: Store, e: Envelope, n: string)
    requires n in s.bundles
    ensures n in Written(s, e).bundles <==> |Above(s.bundles.Keys + {NameOf(e)}, n)| < RETENTION
  {
    assert Put(s, e).bundles.Keys == s.bundles.Keys + {NameOf(e)};
  }

  /** A reader that has read the pointer still finds the file as long as the names after it and the
      publications in between number at most two. */
  lemma {:induction false} ReaderSurvives(es: seq<Envelope>, states: seq<Store>, i: nat, k: nat, n: string)
    requires Publishing(es, states) && i <= k <= |es| && n in states[i].bundles
    requires |Above(states[i].bundles.Keys, n)| + (k - i) < RETENTION
    ensures n in states[k].bundles && states[k].bundles[n] == states[i].bundles[n]
    ensures |Above(states[k].bundles.Keys, n)| <= |Above(states[i].bundles.Keys, n)| + (k - i)
    decreases k - i
  {
    if i < k {
      ReaderSurvives(es, states, i, k - 1, n);
      var s, e := states[k - 1], es[k - 1];
      AboveGrows(s, e, states[k], n);
      AboveGrows(s, e, Put(s, e), n);
      assert n !in Prunable(Pointed(s, e).bundles.Keys);
    }
  }
}
