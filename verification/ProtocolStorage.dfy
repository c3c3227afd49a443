/** Where the online protocol and the storage meet. An export block writes the outbound copy before shared
    storage, and the peer reads that copy without the issuer's lock: so a grant can be taken, and the next
    writer can publish, while the issuer is still writing the grant into storage. */
module ProtocolStorage {
  import opened Bundle
  import opened Engine
  import opened Handoff
  import opened HandoffRuns
  import opened HandoffScenarios
  import opened BundleNames
  import opened BundleStore
  import opened Publishers

  /** The publications of a run: its bundles in the order of their export, each by the node that made it. */
  predicate Publishes(ps: seq<Publication>, exports: seq<Payload>) {
    && |ps| == |exports|
    && forall i :: 0 <= i < |ps| ==>
         && ps[i].writer == exports[i].source && ps[i].envelope.sequence == exports[i].sequence
         && ps[i].envelope.sequence < Limit() && IsDigest(ps[i].envelope.digest)
  }

  lemma RunIsNumbered(regime: Regime, c: Cluster, ps: seq<Publication>)
    requires Ordered(regime) && Reachable(regime, c) && Publishes(ps, c.exports)
    ensures Numbered(Envelopes(ps))
  {
    ReachableInductive(regime, c);
    assert Increasing(c.exports);
  }

  /** Where sequences increase and every publication ends, or is cut short, before the next begins, shared
      storage always resolves its pointer and readers of either node never see an older bundle after a newer. */
  lemma RunsKeepStorageReadable(regime: Regime, c: Cluster, ps: seq<Publication>)
    requires Ordered(regime) && Reachable(regime, c) && Publishes(ps, c.exports)
    ensures AlwaysResolves(false, ps) && NeverGoesBack(false, ps)
  {
    RunIsNumbered(regime, c, ps);
    KeptApartIsReadable(false, ps);
  }

  /** Where publications overlap, readers can be taken back exactly when authority has changed hands, and the
      late publication is then a grant's. */
  lemma HandoverTakesReadersBack(regime: Regime, c: Cluster, ps: seq<Publication>)
    requires Ordered(regime) && Reachable(regime, c) && Publishes(ps, c.exports)
    ensures !NeverGoesBack(true, ps) <==>
      exists i :: 0 <= i < |c.exports| - 1 && c.exports[i].source != c.exports[i + 1].source && IsGrant(c.exports[i])
  {
    RunIsNumbered(regime, c, ps);
    ForwardExactly(true, ps);
    if i, j :| 0 <= i < |ps| && 0 <= j < |ps| && ps[i].writer != ps[j].writer {
      var k := WriterChanges(ps, if i < j then i else j, if i < j then j else i);
      WritersChangeByGrant(regime, c, k);
      assert c.exports[k].source != c.exports[k + 1].source;
    }
  }

  // ----- The late grant -----

  const PLAIN := Regime(false, false, false)

  function Prepared1(): Cluster {
    Imported(Prepared(START, Left), Right, Preparation(START, Left))
  }

  function Grant1(): Payload {
    GrantOf(Prepared1(), Left, Preparation(START, Left))
  }

  /** The first node is still inside the block that publishes its grant. */
  function Granting1(): Cluster {
    Handoff.Step(
      Calls.GivenUp(Prepared1(), Left, Preparation(START, Left)), Event(Left, SERVICE, SendGrant(Complete)), PLAIN)
  }

  lemma GrantIsOut()
    ensures Reachable(PLAIN, Granting1()) && Granting1().exports == [Preparation(START, Left), Grant1()]
    ensures SERVICE in Granting1().left.ops && Granting1().left.ops[SERVICE] == GrantSent(Grant1())
    ensures Grant1() in Granting1().published && Granting1().right == Prepared1().right
  {
    var p := Preparation(START, Left);
    StartReachable(PLAIN);
    PlayPrepare(PLAIN, START, Left);
    PlayImport(PLAIN, Prepared(START, Left), Right, p);
    var events := Calls.SurrenderSteps(PLAIN, Prepared1(), Left, p);
    Reaches(PLAIN, Prepared1(), events, Calls.GivenUp(Prepared1(), Left, p));
    Extend(PLAIN, Calls.GivenUp(Prepared1(), Left, p), Event(Left, SERVICE, SendGrant(Complete)));
  }

  /** The second node has taken the grant and accepted it. */
  function TakenOver1(): Cluster {
    Taken(Waiting(Imported(Granting1(), Right, Grant1()), Right, SERVICE, Grant1()), Right, SERVICE)
  }

  lemma GrantIsTaken()
    ensures Reachable(PLAIN, TakenOver1()) && TakenOver1().left == Granting1().left
    ensures TakenOver1().exports == Granting1().exports
    ensures Auth(TakenOver1(), Right) && MayBegin(PLAIN, TakenOver1().right, SERVICE)
    ensures Known(TakenOver1().right.state) == 2
  {
    GrantIsOut();
    PlayPending(PLAIN, Granting1(), Right, SERVICE, Grant1(), true);
    PlayAccept(PLAIN, Waiting(Imported(Granting1(), Right, Grant1()), Right, SERVICE, Grant1()), Right, SERVICE);
  }

  /** It publishes three bundles. The first node is still inside its block. */
  lemma OvertakenGrant() returns (c: Cluster)
    ensures Reachable(PLAIN, c) && |c.exports| == 5
    ensures SERVICE in c.left.ops && c.left.ops[SERVICE] == GrantSent(c.exports[1])
    ensures forall i :: 0 <= i < 5 ==> c.exports[i].sequence == i + 1
    ensures forall i :: 0 <= i < 5 ==> c.exports[i].source == if i < 2 then Left else Right
  {
    GrantIsOut();
    GrantIsTaken();
    hide Reachable;
    var c0 := TakenOver1();
    PlayExport(PLAIN, c0, Right, SERVICE);
    var c1 := Exported(c0, Right);
    PlayExport(PLAIN, c1, Right, SERVICE);
    var c2 := Exported(c1, Right);
    PlayExport(PLAIN, c2, Right, SERVICE);
    c := Exported(c2, Right);
  }

  lemma SmallSequences()
    ensures 5 < Limit() && IsDigest(0)
  {
    PowerPositive(10, SEQUENCE_WIDTH - 1);
    PowerPositive(16, DIGEST_WIDTH);
  }

  function FiveEnvelopes(c: Cluster): seq<Publication>
    requires |c.exports| == 5
  {
    seq(5, i requires 0 <= i < 5 => Publication(c.exports[i].source, Envelope(c.exports[i].sequence, 0)))
  }

  /** The peer takes the grant from the outbound copy and publishes; the issuer's late pointer then leads
      readers back to the grant, and after three bundles to a file that was pruned. No operations overlap on
      either node, and the grant was applied. */
  lemma LateGrant() returns (c: Cluster, ps: seq<Publication>)
    ensures Reachable(PLAIN, c) && Publishes(ps, c.exports)
    ensures |c.exports| == 5 && SERVICE in c.left.ops && c.left.ops[SERVICE] == GrantSent(c.exports[1])
    ensures !NeverGoesBack(true, ps) && !AlwaysResolves(true, ps)
  {
    c := OvertakenGrant();
    SmallSequences();
    ps := FiveEnvelopes(c);
    LateWriterGoesBack(ps, 1);
    var ops := LateWriterDangles(ps, 1);
  }

  /** Shared storage stays readable, and readers move forward, over all runs in which sequences increase,
      exactly when no publication begins before the one before has ended or been cut short. */
  lemma StorageIsReadableExactly(regime: Regime, overlap: bool)
    requires Ordered(regime)
    ensures (forall c, ps :: Reachable(regime, c) && Publishes(ps, c.exports) ==>
      AlwaysResolves(overlap, ps) && NeverGoesBack(overlap, ps)) <==> !overlap
  {
    if overlap {
      var c, ps := LateGrant();
      Weaken(PLAIN, regime, c);
    } else {
      forall c, ps | Reachable(regime, c) && Publishes(ps, c.exports)
        ensures AlwaysResolves(overlap, ps) && NeverGoesBack(overlap, ps)
      {
        RunsKeepStorageReadable(regime, c, ps);
      }
    }
  }
}
