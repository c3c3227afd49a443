/** Where cold standby and the storage meet: one node runs at a time and exports under its lock, so its
    publications follow one another; what keeps the storage readable are the conditions on starts. */
module ColdStorage {
  import opened Bundle
  import opened ColdStandby
  import opened ColdStandbyRuns
  import opened BundleNames
  import opened BundleStore

  /** The storage while the bundles of a run were written: a published bundle's publication went through, any
      other was cut short. */
  ghost predicate WrittenAs(c: Pair, es: seq<Envelope>, states: seq<Store>) {
    && |es| == |c.begun| && Publishing(es, states)
    && (forall i :: 0 <= i < |es| ==>
         es[i].sequence == c.begun[i].sequence && es[i].sequence < Limit() && IsDigest(es[i].digest))
    && (forall i :: 0 <= i < |es| && c.begun[i] in c.store ==> states[i + 1] == Written(states[i], es[i]))
  }

  /** The pointer always resolves, and readers never see an older bundle after a newer one. */
  ghost predicate StaysReadable(states: seq<Store>) {
    && (forall i :: 0 <= i < |states| ==> Resolves(states[i]))
    && (forall i, k :: 0 <= i <= k < |states| ==> ReadSequence(states[i]) <= ReadSequence(states[k]))
  }

  lemma ConditionsKeepReadable(c: Pair, es: seq<Envelope>, states: seq<Store>)
    requires Reachable(ALL_MET, c) && WrittenAs(c, es, states)
    ensures StaysReadable(states)
  {
    ReachableFaithful(ALL_MET, c);
    ReachableConsistent(ALL_MET, c);
    assert Numbered(es) by {
      assert Increasing(c.begun);
    }
    forall i | 0 <= i < |states| ensures Resolves(states[i]) { StorageIsACell(es, states, i); }
    forall i, k | 0 <= i <= k < |states| ensures ReadSequence(states[i]) <= ReadSequence(states[k]) {
      ReadersNeverGoBack(es, states, i, k);
    }
  }

  // ----- Conditions that are not met -----

  lemma SmallNames()
    ensures 5 < Limit() && IsDigest(0) && IsDigest(1)
  {
    PowerPositive(10, SEQUENCE_WIDTH - 1);
    PowerPositive(16, DIGEST_WIDTH - 1);
  }

  /** A bundle whose name sorts before three others prunes its own file. */
  lemma LowBundleDangles(s: Store)
    requires forall q: nat :: 3 <= q <= 5 ==> NameOf(Envelope(q, 0)) in s.bundles
    ensures !Resolves(Written(s, Envelope(2, 1)))
  {
    SmallNames();
    var e, f3, f4, f5 := Envelope(2, 1), Envelope(3, 0), Envelope(4, 0), Envelope(5, 0);
    NamesSort(2, 1, 3, 0);
    NamesSort(2, 1, 4, 0);
    NamesSort(2, 1, 5, 0);
    NamesSort(3, 0, 4, 0);
    NamesSort(3, 0, 5, 0);
    NamesSort(4, 0, 5, 0);
    hide Less;
    ThreeAbove(s.bundles.Keys, NameOf(e), NameOf(f3), NameOf(f4), NameOf(f5));
    PointerResolves(s, e);
  }

  /** Five bundles under the first five numbers. */
  const FIVE: seq<Envelope> := [Envelope(1, 0), Envelope(2, 0), Envelope(3, 0), Envelope(4, 0), Envelope(5, 0)]

  lemma WrittenIsReached(s: Store, e: Envelope)
    ensures Reached(s, e, Written(s, e)) && Reached(s, e, Put(s, e))
  {
    assert Thinned(Pointed(s, e), Written(s, e));
  }

  /** The storage after each of the five, written through or cut short before the pointer. */
  function Fills(through: bool, k: nat): Store
    requires k <= 5
  {
    if k == 0 then EMPTY
    else if through || k == 1 then Written(Fills(through, k - 1), FIVE[k - 1])
    else Put(Fills(through, k - 1), FIVE[k - 1])
  }

  function FillStates(through: bool): seq<Store> {
    seq(6, k requires 0 <= k < 6 => Fills(through, k))
  }

  lemma FiveNumbered()
    ensures Numbered(FIVE)
  {
    SmallNames();
    hide Limit, IsDigest;
    assert forall i :: 0 <= i < 5 ==> FIVE[i] == Envelope(i + 1, 0);
  }

  lemma FillsPublish(through: bool)
    ensures Publishing(FIVE, FillStates(through)) && Numbered(FIVE)
  {
    hide Written, Put, Reached, Numbered;
    FiveNumbered();
    var states := FillStates(through);
    forall k | 0 <= k < 5 ensures Reached(states[k], FIVE[k], states[k + 1]) {
      WrittenIsReached(states[k], FIVE[k]);
    }
  }

  lemma BeforeNext(through: bool, k: nat)
    requires k < 5
    ensures AllBefore(Fills(through, k), FIVE[k])
  {
    hide AllBefore, Publishing, Numbered, FromRun;
    FillsPublish(through);
    StorageIsACell(FIVE, FillStates(through), k);
    RunBefore(FIVE, k, FillStates(through)[k]);
  }

  lemma NextIsThere(through: bool, k: nat)
    requires k < 5
    ensures NameOf(FIVE[k]) in Fills(through, k + 1).bundles
    ensures Above(Fills(through, k + 1).bundles.Keys, NameOf(FIVE[k])) == {}
  {
    hide Above, AllBefore, Written, Put, NameOf;
    BeforeNext(through, k);
    NewestStays(Fills(through, k), FIVE[k]);
  }

  /** The last three of five bundles are in storage, pruning or not. */
  lemma LastThreeStay(through: bool, k: nat)
    requires 2 <= k < 5
    ensures NameOf(FIVE[k]) in Fills(through, 5).bundles
  {
    hide Above, Publishing, Numbered, NameOf, Fills;
    FillsPublish(through);
    NextIsThere(through, k);
    ReaderSurvives(FIVE, FillStates(through), k + 1, 5, NameOf(FIVE[k]));
  }

  /** A new highest name is there afterwards, pruned or not, with none above it. */
  lemma NewestStays(s: Store, e: Envelope)
    requires AllBefore(s, e)
    ensures NameOf(e) in Put(s, e).bundles && Above(Put(s, e).bundles.Keys, NameOf(e)) == {}
    ensures NameOf(e) in Written(s, e).bundles && Above(Written(s, e).bundles.Keys, NameOf(e)) == {}
  {
    var n := NameOf(e);
    LessOnce(n, n);
    forall m ensures m !in Above(Put(s, e).bundles.Keys, n) {
      if m in s.bundles { LessOnce(m, n); }
    }
    assert Above(Put(s, e).bundles.Keys, n) == {};
    assert Above(Written(s, e).bundles.Keys, n) <= Above(Put(s, e).bundles.Keys, n);
  }

  lemma LowAfterFive(through: bool)
    ensures !Resolves(Written(Fills(through, 5), Envelope(2, 1)))
  {
    LastThreeStay(through, 2);
    LastThreeStay(through, 3);
    LastThreeStay(through, 4);
    LowBundleDangles(Fills(through, 5));
  }

  /** A run whose six bundles have the sequences 1 to 5 and then 2 may leave the pointer to a pruned file. */
  lemma LowRunDangles(c: Pair, through: bool) returns (es: seq<Envelope>, states: seq<Store>)
    requires |c.begun| == 6 && c.begun[5].sequence == 2 && c.begun[0] in c.store
    requires forall i :: 0 <= i < 5 ==> c.begun[i].sequence == i + 1
    requires !through ==> forall i :: 1 <= i < 5 ==> c.begun[i] !in c.store
    ensures WrittenAs(c, es, states) && !StaysReadable(states)
  {
    hide Written, Put, Pointed, Resolves, Thinned, Limit, IsDigest;
    SmallNames();
    FillsPublish(through);
    LowAfterFive(through);
    es := FIVE + [Envelope(2, 1)];
    states := FillStates(through) + [Written(Fills(through, 5), Envelope(2, 1))];
    WrittenIsReached(Fills(through, 5), Envelope(2, 1));
    forall i | 0 <= i < 6 ensures Reached(states[i], es[i], states[i + 1]) {
      if i < 5 { assert Reached(FillStates(through)[i], FIVE[i], FillStates(through)[i + 1]); }
    }
    assert !Resolves(states[6]);
  }

  lemma LostIsNotStored(c: Pair, lost: seq<Payload>)
    requires |c.store| == 2 && c.store[0] == FIRST && c.store[1].source == Right && c.store[1].sequence == 2
    requires |lost| == 4 && c.begun == [FIRST] + lost + [c.store[1]]
    requires forall i :: 0 <= i < 4 ==> lost[i].source == Left && lost[i].sequence == i + 2
    ensures |c.begun| == 6 && c.begun[5].sequence == 2 && c.begun[0] in c.store
    ensures forall i :: 0 <= i < 5 ==> c.begun[i].sequence == i + 1
    ensures forall i :: 1 <= i < 5 ==> c.begun[i] !in c.store
  {
    assert c.begun[0] == FIRST && c.begun[5] == c.store[1];
    assert forall i :: 1 <= i < 5 ==> c.begun[i] == lost[i - 1];
  }

  /** Shared storage stays readable over all runs of a cold-standby pair, exactly when every condition is met. */
  lemma ColdStorageReadable(r: Conditions)
    ensures (forall c, es, states :: Reachable(r, c) && WrittenAs(c, es, states) ==> StaysReadable(states)) <==>
      r == ALL_MET
  {
    hide Reachable, WrittenAs, StaysReadable, Exported;
    if r == ALL_MET {
      forall c, es, states | Reachable(r, c) && WrittenAs(c, es, states) ensures StaysReadable(states) {
        ConditionsKeepReadable(c, es, states);
      }
    } else if !Orderly(r) {
      var c := ReturnRepeatsSequence(r);
      var es, states := LowRunDangles(c, true);
    } else {
      var c, lost := LostReservation(r, 4);
      LostIsNotStored(c, lost);
      var es, states := LowRunDangles(c, false);
    }
  }
}
