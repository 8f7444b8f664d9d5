/** Receipts round-trip, and an accepted receipt is the one the ledger would build. */
module ReceiptProofs {
  import opened Wrappers
  import opened Hashing
  import opened Merkle
  import opened Consistency
  import opened ConsistencyProofs
  import opened Domain
  import opened Sealing
  import opened Protocol
  import opened Runs
  import opened Receipts

  // The events checkpoint i covers, and the proof that links it to its predecessor.
  ghost function Covered(db: Tables, i: nat): seq<Event>
    requires i < |db.checkpoints|
  {
    Upto(db.events, db.checkpoints[i].payload.lastSequence)
  }

  ghost function TheBundle(c: Crypto, db: Tables, i: nat): Option<ConsistencyBundle>
    requires i < |db.checkpoints|
  {
    if i == 0 then None
    else
      var p, q := db.checkpoints[i].payload, db.checkpoints[i - 1].payload;
      match ConsistencyProof(c.sha, Leaves(c, Covered(db, i)), q.leafCount)
      case Err(_) => None
      case Ok(hashes) => Some(ConsistencyBundle(db.checkpoints[i - 1], p.checkpointId, q.leafCount, p.leafCount,
          hashes))
  }

  // The receipt of covered event k at checkpoint i.
  ghost function TheReceipt(c: Crypto, db: Tables, i: nat, k: nat): Receipt
    requires i < |db.checkpoints| && k < |Covered(db, i)|
  {
    SealedReceipt(c, Covered(db, i)[k], k, db.checkpoints[i], Leaves(c, Covered(db, i)), TheBundle(c, db, i))
  }

  // The keyring holds the key versions of checkpoint i and of its predecessor.
  predicate KeysFor(db: Tables, i: nat, keyring: Keyring)
    requires i < |db.checkpoints|
  {
    && db.checkpoints[i].payload.keyVersion in keyring
    && (i > 0 ==> db.checkpoints[i - 1].payload.keyVersion in keyring)
  }

  // A sealed prefix validates in every later state, or its key version is unknown.
  lemma PrefixValidates(c: Crypto, master: Keyring, base: Tables, db: Tables, i: nat, keyring: Keyring)
    requires Chain(c, master, base) && Extends(base, db) && Agrees(keyring, master) && i < |base.checkpoints|
    ensures ValidatedPrefix(c, db, base.checkpoints[i], keyring)
         == if base.checkpoints[i].payload.keyVersion in keyring then Ok(Covered(base, i))
             else Err(Ledger(UnknownKeyVersion))
    ensures |Covered(base, i)| == base.checkpoints[i].payload.leafCount > 0
    ensures base.checkpoints[i].payload.rootHash == MerkleRoot(c.sha, Leaves(c, Covered(base, i)))
  {
    SealedPrefix(c, master, base);
    assert ChainLink(c, master, base, i);
    UptoIsPrefix(base.events, base.checkpoints[i].payload.lastSequence);
    assert LeavesMatch(c, Covered(base, i));
    hide Upto, MerkleRoot, Leaves, LeavesMatch, Chain;
  }

  lemma PredecessorFound(c: Crypto, master: Keyring, base: Tables, db: Tables, i: nat)
    requires Chain(c, master, base) && Chain(c, master, db) && Extends(base, db) && 0 < i < |base.checkpoints|
    ensures var p, q := base.checkpoints[i].payload, base.checkpoints[i - 1];
      && p.previousId.Some? && CheckpointById(db.checkpoints, p.previousId.value) == Some(q)
      && p.previousRoot == Some(q.payload.rootHash)
  {
    assert ChainLink(c, master, base, i);
    assert db.checkpoints[i - 1] == base.checkpoints[i - 1];
    CheckpointByIdFinds(db.checkpoints, i - 1);
  }

  lemma BundleBuilt(c: Crypto, master: Keyring, base: Tables, r: Reads, i: nat, keyring: Keyring)
    requires Chain(c, master, base) && Chain(c, master, r.previous) && Agrees(keyring, master) && i < |base.checkpoints|
    requires Extends(base, r.previous) && Extends(base, r.previousPrefix)
    ensures BuildBundle(c, r, base.checkpoints[i], Leaves(c, Covered(base, i)), keyring)
         == if i > 0 && base.checkpoints[i - 1].payload.keyVersion !in keyring then Err(Ledger(UnknownKeyVersion))
             else Ok(TheBundle(c, base, i))
    ensures i > 0 ==> TheBundle(c, base, i).Some?
  {
    hide Chain, Covered, MerkleRoot, Leaves, ValidatedPrefix, CheckpointById, Extends, Subproof, Agrees;
    Neighbours(c, master, base, i);
    if i > 0 {
      PredecessorFound(c, master, base, r.previous, i);
      PrefixValidates(c, master, base, r.previousPrefix, i - 1, keyring);
    }
  }

  lemma TheInclusionVerifies(c: Crypto, master: Keyring, db: Tables, i: nat, k: nat)
    requires Chain(c, master, db) && i < |db.checkpoints| && k < |Covered(db, i)|
    ensures var leaves := Leaves(c, Covered(db, i));
      && Covered(db, i)[k].leafHash == leaves[k] == EventLeaf(c, Covered(db, i)[k].commitment)
      && InclusionVerdict(c, leaves[k], db.checkpoints[i],
          InclusionView(k, db.checkpoints[i].payload.leafCount, Walk(c.sha, leaves, k))) == None
  {
    var leaves := Leaves(c, Covered(db, i));
    assert ChainLink(c, master, db, i);
    UptoIsPrefix(db.events, db.checkpoints[i].payload.lastSequence);
    assert Covered(db, i)[k] == db.events[k];
    InclusionComplete(c.sha, leaves, k);
    WalkIsDigests(c.sha, leaves, k);
    hide Upto, MerkleRoot, Leaves, Included, Walk;
  }

  lemma ThePredecessorVerifies(c: Crypto, master: Keyring, db: Tables, i: nat, keyring: Keyring)
    requires Chain(c, master, db) && Agrees(keyring, master) && i < |db.checkpoints| && KeysFor(db, i, keyring)
    ensures PredecessorVerdict(c, db.checkpoints[i], TheBundle(c, db, i), keyring) == Valid(true)
  {
    hide Chain, Covered, MerkleRoot, Leaves, Consistent, Subproof, Agrees;
    Neighbours(c, master, db, i);
    if i > 0 {
      var leaves, q := Leaves(c, Covered(db, i)), db.checkpoints[i - 1].payload;
      CheckpointSigned(c, master, db, i - 1, keyring);
      ConsistencyComplete(c.sha, leaves, q.leafCount);
    }
  }

  // How a checkpoint names the one before it, and what the two roots are of.
  lemma Neighbours(c: Crypto, master: Keyring, db: Tables, i: nat)
    requires Chain(c, master, db) && i < |db.checkpoints|
    ensures i == 0 ==> db.checkpoints[i].payload.previousId == None && db.checkpoints[i].payload.previousRoot == None
    ensures i > 0 ==>
      var p, q, leaves := db.checkpoints[i].payload, db.checkpoints[i - 1].payload, Leaves(c, Covered(db, i));
      && p.previousId == Some(q.checkpointId) && p.previousRoot == Some(q.rootHash)
      && 0 < q.leafCount < p.leafCount == |leaves|
      && p.rootHash == MerkleRoot(c.sha, leaves) && q.rootHash == MerkleRoot(c.sha, leaves[..q.leafCount])
      && IsDigest(q.rootHash)
  {
    hide Upto, MerkleRoot, Leaves;
    assert ChainLink(c, master, db, i);
    if i > 0 {
      EarlierRootIsPrefixRoot(c, master, db, i - 1, i);
    }
  }

  lemma CheckpointSigned(c: Crypto, master: Keyring, db: Tables, i: nat, keyring: Keyring)
    requires Chain(c, master, db) && Agrees(keyring, master) && i < |db.checkpoints|
    requires db.checkpoints[i].payload.keyVersion in keyring
    ensures CheckSignature(c, db.checkpoints[i], keyring) == None
  {
    assert ChainLink(c, master, db, i);
  }

  // The receipt built for a covered event verifies with any keyring that has the two keys.
  lemma TheReceiptVerifies(c: Crypto, master: Keyring, db: Tables, i: nat, k: nat, keyring: Keyring)
    requires Chain(c, master, db) && Agrees(keyring, master)
    requires i < |db.checkpoints| && k < |Covered(db, i)| && KeysFor(db, i, keyring)
    ensures ReceiptVerdict(c, TheReceipt(c, db, i, k), keyring) == Valid(true)
  {
    TheInclusionVerifies(c, master, db, i, k);
    ThePredecessorVerifies(c, master, db, i, keyring);
    CheckpointSigned(c, master, db, i, keyring);
    hide Chain, Covered, Upto, MerkleRoot, Leaves, InclusionVerdict, PredecessorVerdict, TheBundle, Walk;
  }

  lemma {:induction false} WalkIsDigests(sha: Hasher, leaves: seq<Digest>, k: nat)
    requires k < |leaves|
    ensures forall i | 0 <= i < |Walk(sha, leaves, k)| :: IsDigest(Walk(sha, leaves, k)[i].hash)
    decreases |leaves|
  {
    hide Split, MerkleRoot;
    if |leaves| <= 1 {
    } else {
      if k < Split(|leaves|) {
        WalkIsDigests(sha, leaves[..Split(|leaves|)], k);
      } else {
        WalkIsDigests(sha, leaves[Split(|leaves|)..], k - Split(|leaves|));
      }
    }
  }

  ghost predicate UniqueIds(events: seq<Event>) {
    forall e, f | e in events && f in events && e.commitment.eventId == f.commitment.eventId :: e == f
  }

  // Every snapshot of the request is a later state of the ledger than the one before.
  ghost predicate InOrder(c: Crypto, master: Keyring, r: Reads) {
    && Chain(c, master, r.event) && Chain(c, master, r.checkpoint) && Chain(c, master, r.previous)
    && UniqueIds(r.event.events) && UniqueIds(r.checkpoint.events)
    && Extends(r.event, r.checkpoint) && Extends(r.checkpoint, r.prefix)
    && Extends(r.prefix, r.previous) && Extends(r.previous, r.previousPrefix)
  }

  lemma CoveredIndex(db: Tables, i: nat, e: Event)
    requires UniqueIds(db.events) && i < |db.checkpoints| && e in db.events
        && e.sequence <= db.checkpoints[i].payload.lastSequence
    ensures var k := IndexOf(Covered(db, i), e.commitment.eventId);
      k.Some? && k.value < |Covered(db, i)| && Covered(db, i)[k.value] == e
  {
    UptoMembers(db.events, db.checkpoints[i].payload.lastSequence);
    IndexOfFirst(Covered(db, i), e.commitment.eventId);
    var k := IndexOf(Covered(db, i), e.commitment.eventId);
    assert e in Covered(db, i);
    assert Covered(db, i)[k.value] in Covered(db, i);
  }

  // Reading an event at its checkpoint gives the receipt of that checkpoint, or lacks a key.
  lemma ReceiptAtBuilt(c: Crypto, master: Keyring, base: Tables, r: Reads, e: Event, i: nat, keyring: Keyring)
    requires Chain(c, master, base) && Chain(c, master, r.previous) && Agrees(keyring, master) && UniqueIds(base.events)
    requires Extends(base, r.prefix) && Extends(base, r.previous) && Extends(base, r.previousPrefix)
    requires i < |base.checkpoints| && e in base.events && e.sequence <= base.checkpoints[i].payload.lastSequence
    ensures var k := IndexOf(Covered(base, i), e.commitment.eventId);
      && k.Some? && k.value < |Covered(base, i)| && Covered(base, i)[k.value] == e
      && BuildReceiptAt(c, r, e, base.checkpoints[i], keyring)
           == if KeysFor(base, i, keyring) then Ok(TheReceipt(c, base, i, k.value)) else Err(Ledger(UnknownKeyVersion))
  {
    CoveredIndex(base, i, e);
    PrefixValidates(c, master, base, r.prefix, i, keyring);
    BundleBuilt(c, master, base, r, i, keyring);
    hide Chain, Extends, Covered, Upto, MerkleRoot, Leaves, ValidatedPrefix, BuildBundle, TheBundle, Walk, IndexOf;
  }

  // Receipts round-trip: for every committed event, read while the ledger keeps growing, the
  // request fails only when the keyring lacks the chosen checkpoint's key version or its
  // predecessor's; otherwise the receipt verifies, and it is witnessed exactly when some
  // checkpoint covered the event when the checkpoint was chosen.
  lemma ReceiptRoundTrip(c: Crypto, master: Keyring, r: Reads, e: Event, keyring: Keyring)
    requires InOrder(c, master, r) && Agrees(keyring, master) && e in r.event.events
    ensures var db := r.checkpoint;
      var built := BuildReceipt(c, r, e.commitment.eventId, keyring);
      var covered := exists i | 0 <= i < |db.checkpoints| :: db.checkpoints[i].payload.lastSequence >= e.sequence;
      && (covered && !KeysFor(db, |db.checkpoints| - 1, keyring) ==> built == Err(Ledger(UnknownKeyVersion)))
      && (!covered || KeysFor(db, |db.checkpoints| - 1, keyring) ==>
          built.Ok? && built.value.event == e && ReceiptVerdict(c, built.value, keyring) == Valid(covered))
  {
    hide BuildReceiptAt, TheReceipt, Covered, LatestCovering, FindEvent;
    var db := r.checkpoint;
    FindEventFound(r.event.events, e.commitment.eventId);
    SealedPrefix(c, master, db);
    LatestCoveringIsLast(db.checkpoints, e.sequence);
    LeafStored(c, r.event.events, e);
    ExtendsTransitive(db, r.prefix, r.previous);
    ExtendsTransitive(db, r.previous, r.previousPrefix);
    var last := |db.checkpoints| - 1;
    if db.checkpoints != [] && db.checkpoints[last].payload.lastSequence >= e.sequence {
      ReceiptAtBuilt(c, master, db, r, e, last, keyring);
      if KeysFor(db, last, keyring) {
        TheReceiptVerifies(c, master, db, last, IndexOf(Covered(db, last), e.commitment.eventId).value, keyring);
      }
      hide Chain, Extends, ReceiptVerdict;
      ReceiptKeepsEvent(c, db, last, IndexOf(Covered(db, last), e.commitment.eventId).value);
    }
  }

  // The snapshots any request takes during a run are in order.
  lemma RunReadsInOrder(c: Crypto, master: Keyring, first: seq<Step>, gaps: seq<seq<Step>>)
    requires Trusted(master, first) && |gaps| == 4 && forall i | 0 <= i < 4 :: Trusted(master, gaps[i])
    ensures var s0 := Exec(c, INIT, first);
      var s1 := Exec(c, s0, gaps[0]);
      var s2 := Exec(c, s1, gaps[1]);
      var s3 := Exec(c, s2, gaps[2]);
      var s4 := Exec(c, s3, gaps[3]);
      InOrder(c, master, Reads(s0.db, s1.db, s2.db, s3.db, s4.db))
  {
    hide Exec, Next, Chain, Extends;
    InitInv(c, master);
    RunKeepsInv(c, master, INIT, first);
    var s := Exec(c, INIT, first);
    InvUniqueIds(c, master, s);
    RunKeepsInv(c, master, s, gaps[0]);
    var s1 := Exec(c, s, gaps[0]);
    InvUniqueIds(c, master, s1);
    RunKeepsInv(c, master, s1, gaps[1]);
    var s2 := Exec(c, s1, gaps[1]);
    RunKeepsInv(c, master, s2, gaps[2]);
    RunKeepsInv(c, master, Exec(c, s2, gaps[2]), gaps[3]);
  }

  lemma InvUniqueIds(c: Crypto, master: Keyring, s: System)
    requires Inv(c, master, s)
    ensures UniqueIds(s.db.events)
  {
    forall e, f | e in s.db.events && f in s.db.events && e.commitment.eventId == f.commitment.eventId ensures e == f {
      assert IsRow(s, e) && IsRow(s, f) && Clash(e, f);
    }
  }

  lemma LeafStored(c: Crypto, events: seq<Event>, e: Event)
    requires LeavesMatch(c, events) && e in events
    ensures e.leafHash == EventLeaf(c, e.commitment)
  {
    var j :| 0 <= j < |events| && events[j] == e;
  }

  lemma ReceiptKeepsEvent(c: Crypto, db: Tables, i: nat, k: nat)
    requires i < |db.checkpoints| && k < |Covered(db, i)|
    ensures TheReceipt(c, db, i, k).event == Covered(db, i)[k]
  {
  }

  // ---- Soundness ----

  // The signer signed exactly the checkpoints of the ledger: a signature over other bytes is
  // not one of its own.
  ghost predicate SignedBySealer(c: Crypto, db: Tables, checkpoint: Checkpoint) {
    exists i | 0 <= i < |db.checkpoints| ::
        c.checkpointJson(db.checkpoints[i].payload) == c.checkpointJson(checkpoint.payload)
  }

  ghost predicate CanonicalJson(c: Crypto) {
    && (forall p, q | c.checkpointJson(p) == c.checkpointJson(q) :: p == q)
    && (forall m, n | c.eventJson(m) == c.eventJson(n) :: m == n)
  }

  // Every string hashed while verifying this receipt, or for checkpoint i of the ledger.
  ghost predicate HashedWithin(c: Crypto, db: Tables, i: nat, receipt: Receipt, inputs: set<Bytes>)
    requires i < |db.checkpoints| && receipt.inclusion.Some?
  {
    var leaves, leaf := Leaves(c, Covered(db, i)), EventLeaf(c, receipt.event.commitment);
    && TreeInputs(c.sha, leaves) <= inputs
    && ClimbInputs(c.sha, leaf, receipt.inclusion.value.path) <= inputs
    && LeafInput(c.eventJson(receipt.event.commitment)) in inputs
    && (forall k | 0 <= k < |Covered(db, i)| :: LeafInput(c.eventJson(Covered(db, i)[k].commitment)) in inputs)
    && (receipt.consistency.Some? ==>
        var b := receipt.consistency.value;
        1 <= b.oldSize <= |leaves| ==>
            VerifierInputs(c.sha, b.oldSize, |leaves|, b.oldCheckpoint.payload.rootHash, b.hashes) <= inputs)
  }

  lemma AcceptedInclusion(c: Crypto, master: Keyring, db: Tables, i: nat, receipt: Receipt, inputs: set<Bytes>)
    requires Chain(c, master, db) && i < |db.checkpoints| && CanonicalJson(c) && CollisionFree(c.sha, inputs)
    requires receipt.inclusion.Some? && HashedWithin(c, db, i, receipt, inputs)
    requires InclusionVerdict(c, EventLeaf(c, receipt.event.commitment), db.checkpoints[i], receipt.inclusion.value)
        == None
    ensures var view, k := receipt.inclusion.value, receipt.inclusion.value.leafIndex;
      && 0 <= k < |Covered(db, i)|
      && receipt.event.commitment == Covered(db, i)[k].commitment
      && view == InclusionView(k, db.checkpoints[i].payload.leafCount, Walk(c.sha, Leaves(c, Covered(db, i)), k))
  {
    var view, leaf, leaves := receipt.inclusion.value, EventLeaf(c, receipt.event.commitment),
        Leaves(c, Covered(db, i));
    assert ChainLink(c, master, db, i);
    InclusionSound(c.sha, leaves, leaf, view.leafIndex, view.path, inputs);
    LeafHashInjective(c.sha, inputs, c.eventJson(receipt.event.commitment),
        c.eventJson(Covered(db, i)[view.leafIndex].commitment));
  }

  lemma AcceptedPredecessor(c: Crypto, master: Keyring, db: Tables, i: nat, receipt: Receipt, keyring: Keyring,
      inputs: set<Bytes>)
    requires Chain(c, master, db) && i < |db.checkpoints| && CanonicalJson(c) && Agrees(keyring, master)
        && CollisionFree(c.sha, inputs)
    requires receipt.inclusion.Some? && HashedWithin(c, db, i, receipt, inputs)
    requires PredecessorVerdict(c, db.checkpoints[i], receipt.consistency, keyring) == Valid(true)
    requires receipt.consistency.Some? ==> SignedBySealer(c, db, receipt.consistency.value.oldCheckpoint)
    ensures receipt.consistency == TheBundle(c, db, i)
  {
    assert ChainLink(c, master, db, i);
    if i > 0 {
      var b, q, leaves := receipt.consistency.value, db.checkpoints[i - 1].payload, Leaves(c, Covered(db, i));
      var j :| 0 <= j < |db.checkpoints|
          && c.checkpointJson(db.checkpoints[j].payload) == c.checkpointJson(b.oldCheckpoint.payload);
      assert db.checkpoints[j].payload == b.oldCheckpoint.payload;
      assert j == i - 1;
      assert ChainLink(c, master, db, i - 1);
      assert b.oldCheckpoint == db.checkpoints[i - 1];
      EarlierRootIsPrefixRoot(c, master, db, i - 1, i);
      assert 1 <= q.leafCount < |leaves|;
      hide Chain, Covered, Upto, MerkleRoot, Leaves, Consistent, Subproof, TreeInputs, VerifierInputs, CollisionFree;
      FewerInputs(c.sha, inputs, TreeInputs(c.sha, leaves)
          + VerifierInputs(c.sha, q.leafCount, |leaves|, q.rootHash, b.hashes));
      ConsistencyExact(c.sha, leaves, q.leafCount, q.rootHash, b.hashes);
    }
  }

  // Receipt soundness and uniqueness: an accepted witnessed receipt whose checkpoints the
  // sealer signed is, but for its sequence number, the receipt the ledger itself builds for
  // the committed event at its leaf index; so its event commitment is that committed leaf and
  // its consistency proof the one between the two chained checkpoints.
  lemma ReceiptSound(c: Crypto, master: Keyring, db: Tables, receipt: Receipt, keyring: Keyring, i: nat,
      inputs: set<Bytes>)
    requires Chain(c, master, db) && CanonicalJson(c) && Agrees(keyring, master) && CollisionFree(c.sha, inputs)
    requires ReceiptVerdict(c, receipt, keyring) == Valid(true)
    requires i < |db.checkpoints|
        && c.checkpointJson(db.checkpoints[i].payload) == c.checkpointJson(receipt.checkpoint.value.payload)
    requires receipt.consistency.Some? ==> SignedBySealer(c, db, receipt.consistency.value.oldCheckpoint)
    requires HashedWithin(c, db, i, receipt, inputs)
    ensures receipt.checkpoint == Some(db.checkpoints[i])
    ensures var k := receipt.inclusion.value.leafIndex;
      && 0 <= k < |Covered(db, i)| && receipt.event.commitment == Covered(db, i)[k].commitment
      && receipt.(event := receipt.event.(sequence := Covered(db, i)[k].sequence)) == TheReceipt(c, db, i, k)
  {
    assert db.checkpoints[i].payload == receipt.checkpoint.value.payload;
    assert ChainLink(c, master, db, i);
    assert receipt.checkpoint.value == db.checkpoints[i];
    AcceptedInclusion(c, master, db, i, receipt, inputs);
    AcceptedPredecessor(c, master, db, i, receipt, keyring, inputs);
    TheInclusionVerifies(c, master, db, i, receipt.inclusion.value.leafIndex);
    hide Chain, ChainLink, Covered, Upto, MerkleRoot, Leaves, InclusionVerdict, PredecessorVerdict, TheBundle, Walk,
        HashedWithin;
  }

  // The sequence number is not part of what an event leaf commits to: verification never
  // looks at it.
  lemma SequenceIsNotBound(c: Crypto, receipt: Receipt, keyring: Keyring, sequence: int)
    ensures ReceiptVerdict(c, receipt.(event := receipt.event.(sequence := sequence)), keyring)
        == ReceiptVerdict(c, receipt, keyring)
  {
  }
}
