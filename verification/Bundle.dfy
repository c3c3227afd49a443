/** Signed snapshot bundles.

    The payload hash is collision free and a hash can only be embedded in a payload made later, so a
    hash is represented by the payload it stands for; the message authentication code is unforgeable,
    so a bundle that verifies is one that some node exported. */
module Bundle {
  import opened Prelude
  import opened Records

  datatype NodeId = Left | Right {
    function Peer(): NodeId {
      if Left? then Right else Left
    }
  }

  type Snapshot = map<string, seq<Row>>

  datatype Handoff =
    | Prepare(source: NodeId, target: NodeId)
    | Grant(source: NodeId, target: NodeId, prepared: Payload)
    | ColdShutdown(source: NodeId, target: NodeId)

  datatype Payload = Payload(source: NodeId, sequence: nat, domains: Snapshot, handoff: Option<Handoff>)

  predicate IsGrant(p: Payload) {
    p.handoff.Some? && p.handoff.value.Grant?
  }

  /** Every bundle has a higher sequence than those before it. */
  predicate Increasing(s: seq<Payload>) {
    forall i, j :: 0 <= i < j < |s| ==> s[i].sequence < s[j].sequence
  }

  /** A bundle never contains its own hash. */
  lemma NoSelfReference(p: Payload)
    requires IsGrant(p)
    ensures p.handoff.value.prepared != p
  {
    assert p.handoff.value.prepared < p.handoff.value < p.handoff < p;
  }
}
