/** What sealers and receipts do with tables that may have been tampered with: whatever they
    hold, a sealer seals only on a sound base and a receipt that is handed out verifies
    (src/ledger/sealing.py:59-153, src/ledger/proofs.py:160-323). */
module Corruption {
  import opened Wrappers
  import opened Hashing
  import opened Merkle
  import opened Consistency
  import opened ConsistencyProofs
  import opened Domain
  import opened Sealing
  import opened Protocol
  import opened Runs
  import opened Receipts
  import opened ReceiptProofs

  // ---- Sealing ----

  // The last checkpoint counts and signs exactly the rows up to its last sequence.
  ghost predicate SoundBase(c: Crypto, db: Tables, keyring: Keyring) {
    match Latest(db.checkpoints)
    case None => Upto(db.events, 0) == []
    case Some(q) =>
      && q.payload.leafCount == |Upto(db.events, q.payload.lastSequence)|
      && MerkleRoot(c.sha, Leaves(c, Upto(db.events, q.payload.lastSequence))) == q.payload.rootHash
      && q.payload.keyVersion in keyring && Sign(c, q.payload, keyring[q.payload.keyVersion]) == q.signature
  }

  lemma AnyBatch(db: Tables, batchSize: Positive)
    requires Sorted(db.events) && NextBatch(db, batchSize) != []
    ensures var (batch, low) := (NextBatch(db, batchSize), LastSequence(Latest(db.checkpoints)));
      var target := batch[|batch| - 1].sequence;
      && target > low
      && Upto(db.events, target) == Upto(db.events, low) + batch
  {
    hide Upto, After, Latest;
    var low := LastSequence(Latest(db.checkpoints));
    var (rest, batch, n) := (After(db.events, low), NextBatch(db, batchSize), |Upto(db.events, low)|);
    UptoIsPrefix(db.events, low);
    AfterIsRest(db.events, low);
    assert rest == db.events[n..] && batch == db.events[n..n + |batch|];
    var target := batch[|batch| - 1].sequence;
    assert target == db.events[n + |batch| - 1].sequence;
    UptoIsPrefix(db.events, target);
    var k := |Upto(db.events, target)|;
    assert k < |db.events| ==> db.events[k].sequence > target;
    assert n + |batch| < |db.events| ==> db.events[n + |batch|].sequence > target;
    assert db.events[..n + |batch|] == db.events[..n] + batch;
  }

  lemma PreviousIsBase(c: Crypto, low: seq<Event>, batch: seq<Event>, previous: Checkpoint, keyring: Keyring)
    requires previous.payload.leafCount == |low|
    ensures CheckPrevious(c, previous, Leaves(c, low + batch), keyring) == None <==>
      && MerkleRoot(c.sha, Leaves(c, low)) == previous.payload.rootHash
      && previous.payload.keyVersion in keyring
      && Sign(c, previous.payload, keyring[previous.payload.keyVersion]) == previous.signature
  {
    hide MerkleRoot, Leaves, Sign;
    BaseLeaves(c, low, batch);
  }

  // Whatever the tables hold, an attempt is idle exactly when no row follows the last
  // checkpoint, and seals exactly when that checkpoint is sound, every row it would cover has
  // the hash of its fields, and it has a key to sign with.
  lemma SealsOnSoundBase(c: Crypto, db: Tables, config: SealerConfig, id: Uuid, now: Time)
    requires Sorted(db.events)
    ensures var (result, batch) := (PlanSeal(c, db, config, id, now), NextBatch(db, config.batchSize));
      && (result.Idle? <==> forall e | e in db.events :: e.sequence <= LastSequence(Latest(db.checkpoints)))
      && (result.Sealed? <==>
          && batch != [] && SoundBase(c, db, config.keyring)
          && LeavesMatch(c, Upto(db.events, batch[|batch| - 1].sequence))
          && config.currentKeyVersion in config.keyring)
      && result != Busy
  {
    hide Upto, After, Latest, MerkleRoot, Leaves, LeavesMatch, CheckPrevious, Sign, NextBatch;
    var (batch, low) := (NextBatch(db, config.batchSize), LastSequence(Latest(db.checkpoints)));
    PendingIsBatch(db, config.batchSize);
    if batch != [] {
      AnyBatch(db, config.batchSize);
      if Latest(db.checkpoints).Some? && CoveredLeaves(Latest(db.checkpoints)) == |Upto(db.events, low)| {
        PreviousIsBase(c, Upto(db.events, low), batch, Latest(db.checkpoints).value, config.keyring);
      }
    }
  }

  lemma PendingIsBatch(db: Tables, batchSize: Positive)
    ensures NextBatch(db, batchSize) == [] <==>
      forall e | e in db.events :: e.sequence <= LastSequence(Latest(db.checkpoints))
  {
    hide Latest;
    AfterMembers(db.events, LastSequence(Latest(db.checkpoints)));
    var rest := After(db.events, LastSequence(Latest(db.checkpoints)));
    if rest != [] {
      assert rest[0] in rest;
    }
  }

  lemma {:induction false} AfterMembers(events: seq<Event>, bound: int)
    ensures forall e :: e in After(events, bound) <==> e in events && e.sequence > bound
  {
    if events == [] {
    } else {
      var n := |events| - 1;
      AfterMembers(events[..n], bound);
      assert events == events[..n] + [events[n]];
    }
  }

  // What a new checkpoint says, whatever the tables hold.
  lemma SealSays(c: Crypto, db: Tables, config: SealerConfig, id: Uuid, now: Time)
    requires Sorted(db.events) && PlanSeal(c, db, config, id, now).Sealed?
    ensures var (cp, previous) := (PlanSeal(c, db, config, id, now).checkpoint, Latest(db.checkpoints));
      var p := cp.payload;
      && p.checkpointId == id && p.createdAt == now && p.keyVersion == config.currentKeyVersion
      && p.keyVersion in config.keyring && cp.signature == Sign(c, p, config.keyring[p.keyVersion])
      && p.leafCount == |Upto(db.events, p.lastSequence)|
      && p.rootHash == MerkleRoot(c.sha, Leaves(c, Upto(db.events, p.lastSequence)))
      && p.leafCount - CoveredLeaves(previous) == |NextBatch(db, config.batchSize)| <= config.batchSize
      && (previous.None? ==> p.previousId == None && p.previousRoot == None)
      && (previous.Some? ==>
          p.previousId == Some(previous.value.payload.checkpointId)
          && p.previousRoot == Some(previous.value.payload.rootHash))
  {
    hide Upto, After, Latest, MerkleRoot, Leaves, LeavesMatch, CheckPrevious, Sign;
  }

  // ---- Tampering with sealed rows ----

  function Commitments(events: seq<Event>): seq<Commitment> {
    seq(|events|, i requires 0 <= i < |events| => events[i].commitment)
  }

  // Everything hashed for the root of these rows, leaves included.
  ghost function RowInputs(c: Crypto, events: seq<Event>): set<Bytes> {
    TreeInputs(c.sha, Leaves(c, events)) + set m | m in Commitments(events) :: LeafInput(c.eventJson(m))
  }

  lemma RootBindsRows(c: Crypto, a: seq<Event>, b: seq<Event>)
    requires CanonicalJson(c) && CollisionFree(c.sha, RowInputs(c, a) + RowInputs(c, b))
    requires |a| == |b| && MerkleRoot(c.sha, Leaves(c, a)) == MerkleRoot(c.sha, Leaves(c, b))
    ensures Commitments(a) == Commitments(b)
  {
    hide MerkleRoot, TreeInputs, LeafInput;
    var inputs := RowInputs(c, a) + RowInputs(c, b);
    RootBindsLeaves(c.sha, Leaves(c, a), Leaves(c, b), inputs);
    forall i | 0 <= i < |a| ensures Commitments(a)[i] == Commitments(b)[i] {
      var (m, n) := (Commitments(a)[i], Commitments(b)[i]);
      assert m in Commitments(a) && n in Commitments(b);
      assert Leaves(c, a)[i] == Leaves(c, b)[i];
      LeafHashInjective(c.sha, inputs, c.eventJson(m), c.eventJson(n));
    }
  }

  // Nobody seals on top of sealed rows that were changed, removed or added to: on a chain whose
  // rows were tampered with an attempt seals nothing, unless two hashed strings collide.
  lemma SealingDetectsTampering(c: Crypto, master: Keyring, db: Tables, events: seq<Event>, config: SealerConfig,
      id: Uuid, now: Time)
    requires Chain(c, master, db) && db.checkpoints != [] && Sorted(events) && CanonicalJson(c)
    requires CollisionFree(c.sha, RowInputs(c, Upto(db.events, LastOf(db))) + RowInputs(c, Upto(events, LastOf(db))))
    requires Commitments(Upto(events, LastOf(db))) != Commitments(Upto(db.events, LastOf(db)))
    ensures !PlanSeal(c, db.(events := events), config, id, now).Sealed?
  {
    hide Upto, MerkleRoot, Leaves, PlanSeal, NextBatch, CollisionFree, Sign, LeavesMatch, Commitments, RowInputs;
    var p := db.checkpoints[|db.checkpoints| - 1].payload;
    LatestOfChain(c, master, db);
    SealsOnSoundBase(c, db.(events := events), config, id, now);
    if PlanSeal(c, db.(events := events), config, id, now).Sealed? {
      RootBindsRows(c, Upto(db.events, LastOf(db)), Upto(events, LastOf(db)));
    }
  }

  lemma LatestOfChain(c: Crypto, master: Keyring, db: Tables)
    requires Chain(c, master, db) && db.checkpoints != []
    ensures var last := db.checkpoints[|db.checkpoints| - 1];
      && Latest(db.checkpoints) == Some(last) && last.payload.lastSequence == LastOf(db)
      && last.payload.leafCount == |Upto(db.events, LastOf(db))|
      && last.payload.rootHash == MerkleRoot(c.sha, Leaves(c, Upto(db.events, LastOf(db))))
  {
    hide Upto, MerkleRoot, Leaves;
    SealedPrefix(c, master, db);
    assert ChainLink(c, master, db, |db.checkpoints| - 1);
  }

  // ---- Validating a prefix ----

  // Rows pass exactly when the checkpoint counts and signs them and each has the hash of its
  // fields; a wrong count, a row's hash, the root, the key and the signature are looked at in
  // this order.
  lemma ValidationMeans(c: Crypto, db: Tables, checkpoint: Checkpoint, keyring: Keyring)
    ensures var (p, events) := (checkpoint.payload, Upto(db.events, checkpoint.payload.lastSequence));
      var result := ValidatedPrefix(c, db, checkpoint, keyring);
      var counted := |events| == p.leafCount > 0;
      var rooted := counted && LeavesMatch(c, events) && MerkleRoot(c.sha, Leaves(c, events)) == p.rootHash;
      && (result.Ok? ==> result.value == events)
      && (result.Ok? <==>
          rooted && p.keyVersion in keyring && Sign(c, p, keyring[p.keyVersion]) == checkpoint.signature)
      && (result == Err(Ledger(MerkleNodeCorrupt)) <==> counted && !LeavesMatch(c, events))
      && (result == Err(Ledger(UnknownKeyVersion)) <==> rooted && p.keyVersion !in keyring)
      && (result == Err(Ledger(CheckpointCorrupt)) <==> !counted || (LeavesMatch(c, events) && !rooted))
      && (result == Err(Ledger(CheckpointSignatureInvalid)) <==>
          rooted && p.keyVersion in keyring && Sign(c, p, keyring[p.keyVersion]) != checkpoint.signature)
  {
    hide Upto, MerkleRoot, Leaves, LeavesMatch, Sign;
  }

  // Rows that pass for a checkpoint of the chain are the sealed ones.
  lemma ValidationDetectsTampering(c: Crypto, master: Keyring, db: Tables, i: nat, tampered: Tables, keyring: Keyring)
    requires Chain(c, master, db) && i < |db.checkpoints| && CanonicalJson(c)
    requires CollisionFree(c.sha, RowInputs(c, Covered(db, i))
        + RowInputs(c, Upto(tampered.events, db.checkpoints[i].payload.lastSequence)))
    requires ValidatedPrefix(c, tampered, db.checkpoints[i], keyring).Ok?
    ensures Commitments(ValidatedPrefix(c, tampered, db.checkpoints[i], keyring).value)
        == Commitments(Covered(db, i))
  {
    hide Upto, MerkleRoot, Leaves, LeavesMatch, CollisionFree, Sign, Commitments, RowInputs, ValidatedPrefix;
    assert ChainLink(c, master, db, i);
    ValidationMeans(c, tampered, db.checkpoints[i], keyring);
    RootBindsRows(c, Covered(db, i), ValidatedPrefix(c, tampered, db.checkpoints[i], keyring).value);
  }

  // ---- Built receipts verify ----

  ghost predicate UniqueEvents(events: seq<Event>) {
    forall i, j | 0 <= i < j < |events| :: events[i].commitment.eventId != events[j].commitment.eventId
  }

  // The checkpoints' own fields are those a sealer writes: a first one names no predecessor's
  // root, and a predecessor does not end after its successor.
  ghost predicate Placed(checkpoints: seq<Checkpoint>) {
    forall cp | cp in checkpoints ::
      && (cp.payload.previousId.None? ==> cp.payload.previousRoot.None?)
      && forall q | q in checkpoints && Some(q.payload.checkpointId) == cp.payload.previousId ::
          q.payload.lastSequence <= cp.payload.lastSequence
  }

  lemma BuiltInclusionVerifies(c: Crypto, db: Tables, checkpoint: Checkpoint, keyring: Keyring, k: nat)
    requires ValidatedPrefix(c, db, checkpoint, keyring).Ok?
    requires k < |ValidatedPrefix(c, db, checkpoint, keyring).value|
    ensures var leaves := Leaves(c, ValidatedPrefix(c, db, checkpoint, keyring).value);
      InclusionVerdict(c, leaves[k], checkpoint, InclusionView(k, checkpoint.payload.leafCount,
          Walk(c.sha, leaves, k))) == None
  {
    hide Upto, MerkleRoot, LeavesMatch, Sign, Included, Walk, ValidatedPrefix;
    ValidationMeans(c, db, checkpoint, keyring);
    var leaves := Leaves(c, ValidatedPrefix(c, db, checkpoint, keyring).value);
    InclusionComplete(c.sha, leaves, k);
    WalkIsDigests(c.sha, leaves, k);
  }

  lemma PrefixOfPrefix(c: Crypto, events: seq<Event>, low: int, high: int)
    requires Sorted(events) && low <= high
    ensures var (a, b) := (Upto(events, low), Upto(events, high));
      |a| <= |b| && Leaves(c, a) == Leaves(c, b)[..|a|]
  {
    hide Upto;
    UptoNested(events, low, high);
    LeavesOfPrefix(c, Upto(events, high), |Upto(events, low)|);
  }

  lemma BuiltBundleVerifies(c: Crypto, db: Tables, checkpoint: Checkpoint, keyring: Keyring)
    requires Sorted(db.events) && Placed(db.checkpoints) && checkpoint in db.checkpoints
    requires ValidatedPrefix(c, db, checkpoint, keyring).Ok?
    requires var leaves := Leaves(c, ValidatedPrefix(c, db, checkpoint, keyring).value);
      BuildBundle(c, Reads(db, db, db, db, db), checkpoint, leaves, keyring).Ok?
    ensures var leaves := Leaves(c, ValidatedPrefix(c, db, checkpoint, keyring).value);
      PredecessorVerdict(c, checkpoint, BuildBundle(c, Reads(db, db, db, db, db), checkpoint, leaves, keyring).value,
          keyring) == Valid(true)
  {
    hide Upto, MerkleRoot, LeavesMatch, Leaves, Sign, ValidatedPrefix, Consistent, ConsistencyProof;
    var p := checkpoint.payload;
    ValidationMeans(c, db, checkpoint, keyring);
    if p.previousId.Some? {
      CheckpointByIdFound(db.checkpoints, p.previousId.value);
      var previous := CheckpointById(db.checkpoints, p.previousId.value).value;
      var q := previous.payload;
      assert previous in db.checkpoints;
      ValidationMeans(c, db, previous, keyring);
      PrefixOfPrefix(c, db.events, q.lastSequence, p.lastSequence);
      var leaves := Leaves(c, Upto(db.events, p.lastSequence));
      ConsistencyComplete(c.sha, leaves, q.leafCount);
      ProofIsDigests(ConsistencyProof(c.sha, leaves, q.leafCount).value);
    }
  }

  lemma ProofIsDigests(hashes: seq<Digest>)
    ensures forall i | 0 <= i < |hashes| :: IsDigest(hashes[i])
  {
  }

  // Whatever has been done to the stored fields, hashes and signatures: a receipt that is
  // handed out from one state of the tables shows the row asked for and verifies with the
  // keyring it was built with, witnessed exactly when some checkpoint ends at or after it.
  lemma BuiltReceiptsVerify(c: Crypto, db: Tables, eventId: Uuid, keyring: Keyring)
    requires Sorted(db.events) && UniqueEvents(db.events) && Placed(db.checkpoints)
    requires BuildReceipt(c, Reads(db, db, db, db, db), eventId, keyring).Ok?
    ensures var receipt := BuildReceipt(c, Reads(db, db, db, db, db), eventId, keyring).value;
      && receipt.event in db.events && receipt.event.commitment.eventId == eventId
      && ReceiptVerdict(c, receipt, keyring) == Valid(LatestCovering(db.checkpoints, receipt.event.sequence).Some?)
      && (receipt.status.Witnessed? <==>
          exists cp | cp in db.checkpoints :: cp.payload.lastSequence >= receipt.event.sequence)
  {
    hide Upto, MerkleRoot, LeavesMatch, Leaves, Sign, ValidatedPrefix, LatestCovering, FindEvent, IndexOf, BuildBundle,
        InclusionVerdict, PredecessorVerdict, UniqueEvents, Placed, Walk;
    var r := Reads(db, db, db, db, db);
    FindEventFound(db.events, eventId);
    var event := FindEvent(db.events, eventId).value;
    CoveringIs(db.checkpoints, event.sequence);
    var covering := LatestCovering(db.checkpoints, event.sequence);
    if covering.Some? {
      var checkpoint := covering.value;
      ValidationMeans(c, db, checkpoint, keyring);
      var events := ValidatedPrefix(c, db, checkpoint, keyring).value;
      IndexOfFirst(events, eventId);
      var k := IndexOf(events, eventId).value;
      UptoMembers(db.events, checkpoint.payload.lastSequence);
      assert events[k] in events;
      SameRow(db.events, event, events[k]);
      BuiltInclusionVerifies(c, db, checkpoint, keyring, k);
      BuiltBundleVerifies(c, db, checkpoint, keyring);
      LeafAt(c, events, k);
    }
  }

  lemma LeafAt(c: Crypto, events: seq<Event>, k: nat)
    requires k < |events|
    ensures Leaves(c, events)[k] == EventLeaf(c, events[k].commitment)
  {
  }

  lemma SameRow(events: seq<Event>, e: Event, f: Event)
    requires UniqueEvents(events) && e in events && f in events && e.commitment.eventId == f.commitment.eventId
    ensures e == f
  {
    var i :| 0 <= i < |events| && events[i] == e;
    var j :| 0 <= j < |events| && events[j] == f;
    assert !(i < j) && !(j < i);
  }

  lemma {:induction false} CoveringIs(checkpoints: seq<Checkpoint>, sequence: int)
    ensures match LatestCovering(checkpoints, sequence)
      case None => forall cp | cp in checkpoints :: cp.payload.lastSequence < sequence
      case Some(best) =>
        && best in checkpoints && best.payload.lastSequence >= sequence
        && forall cp | cp in checkpoints && cp.payload.lastSequence >= sequence ::
            cp.payload.leafCount <= best.payload.leafCount
  {
    if checkpoints == [] {
    } else {
      var n := |checkpoints| - 1;
      CoveringIs(checkpoints[..n], sequence);
      assert checkpoints == checkpoints[..n] + [checkpoints[n]];
    }
  }

  // ---- What is refused ----

  // A receipt is not found exactly when the event is not; a row that does not have the hash of
  // its fields gets none; and one that no checkpoint has reached gets a pending one.
  lemma WhatReceiptRefuses(c: Crypto, r: Reads, eventId: Uuid, keyring: Keyring)
    ensures var (found, result) := (FindEvent(r.event.events, eventId), BuildReceipt(c, r, eventId, keyring));
      && (result == Err(Ledger(NotFound)) <==> forall e | e in r.event.events :: e.commitment.eventId != eventId)
      && (found.Some? && found.value.leafHash != EventLeaf(c, found.value.commitment) ==>
          result == Err(Ledger(MerkleNodeCorrupt)))
      && (found.Some? && found.value.leafHash == EventLeaf(c, found.value.commitment)
          && (forall cp | cp in r.checkpoint.checkpoints :: cp.payload.lastSequence < found.value.sequence) ==>
          result == Ok(Receipt(found.value, Pending, None, None, None)))
  {
    hide FindEvent, LatestCovering, BuildReceiptAt, EventLeaf;
    FindEventFound(r.event.events, eventId);
    var found := FindEvent(r.event.events, eventId);
    if found.Some? {
      CoveringIs(r.checkpoint.checkpoints, found.value.sequence);
      var covering := LatestCovering(r.checkpoint.checkpoints, found.value.sequence);
      if covering.Some? {
        NeverNotFound(c, r, found.value, covering.value, keyring);
      }
    }
  }

  lemma NeverNotFound(c: Crypto, r: Reads, event: Event, checkpoint: Checkpoint, keyring: Keyring)
    ensures BuildReceiptAt(c, r, event, checkpoint, keyring) != Err(Ledger(NotFound))
  {
    hide MerkleRoot, Leaves, LeavesMatch, Upto, Sign, Walk, ConsistencyProof, CheckpointById, IndexOf;
  }

  // A validated prefix that lacks the event is a corrupt checkpoint.
  lemma ReceiptOfStranger(c: Crypto, r: Reads, event: Event, checkpoint: Checkpoint, keyring: Keyring)
    requires ValidatedPrefix(c, r.prefix, checkpoint, keyring).Ok?
    requires forall e | e in ValidatedPrefix(c, r.prefix, checkpoint, keyring).value ::
      e.commitment.eventId != event.commitment.eventId
    ensures BuildReceiptAt(c, r, event, checkpoint, keyring) == Err(Ledger(CheckpointCorrupt))
  {
    hide ValidatedPrefix, BuildBundle, Walk;
    IndexOfFirst(ValidatedPrefix(c, r.prefix, checkpoint, keyring).value, event.commitment.eventId);
  }

  // A predecessor that is missing, or does not have the root that was linked to, breaks the
  // chain; any other defect of its prefix is reported as such.
  lemma WhatBundleRefuses(c: Crypto, r: Reads, checkpoint: Checkpoint, leaves: seq<Digest>, keyring: Keyring)
    requires checkpoint.payload.previousId.Some?
    ensures var (p, result) := (checkpoint.payload, BuildBundle(c, r, checkpoint, leaves, keyring));
      var previous := CheckpointById(r.previous.checkpoints, p.previousId.value);
      && (IdUnused(r.previous, p.previousId.value) ==> result == Err(Ledger(CheckpointChainBroken)))
      && (previous.Some? ==>
          var validated := ValidatedPrefix(c, r.previousPrefix, previous.value, keyring);
          var linked := p.previousRoot == Some(previous.value.payload.rootHash);
          && (validated.Err? ==> result == Err(validated.error))
          && (validated.Ok? && !linked ==> result == Err(Ledger(CheckpointChainBroken)))
          && (validated.Ok? && linked && !(1 <= previous.value.payload.leafCount <= |leaves|) ==>
              result == Err(OutsideTree)))
  {
    hide ValidatedPrefix, Subproof;
    CheckpointByIdFound(r.previous.checkpoints, checkpoint.payload.previousId.value);
  }

  // Why an attempt fails, whatever the tables hold, in the order in which it looks: the count of
  // the rows, their hashes, the last checkpoint's root, its key and signature, and its own key.
  lemma WhatSealingRefuses(c: Crypto, db: Tables, config: SealerConfig, id: Uuid, now: Time)
    requires Sorted(db.events) && NextBatch(db, config.batchSize) != []
    ensures var (result, batch) := (PlanSeal(c, db, config, id, now), NextBatch(db, config.batchSize));
      var (previous, base) := (Latest(db.checkpoints), Upto(db.events, LastSequence(Latest(db.checkpoints))));
      var counted := CoveredLeaves(previous) == |base|;
      var matched := counted && LeavesMatch(c, Upto(db.events, batch[|batch| - 1].sequence));
      var rooted := previous.Some? ==> MerkleRoot(c.sha, Leaves(c, base)) == previous.value.payload.rootHash;
      var keyed := previous.Some? ==> previous.value.payload.keyVersion in config.keyring;
      var signed := previous.Some? && keyed ==>
          Sign(c, previous.value.payload, config.keyring[previous.value.payload.keyVersion])
              == previous.value.signature;
      && (result == Failed(EventSequenceCorrupt) <==> !counted)
      && (result == Failed(MerkleNodeCorrupt) <==> counted && !matched)
      && (result == Failed(CheckpointCorrupt) <==> matched && !rooted)
      && (result == Failed(CheckpointSignatureInvalid) <==> matched && rooted && keyed && !signed)
      && (result == Failed(UnknownKeyVersion) <==>
          matched && rooted && (!keyed || (signed && config.currentKeyVersion !in config.keyring)))
  {
    hide Upto, After, Latest, MerkleRoot, Leaves, LeavesMatch, Sign, NextBatch;
    var (batch, previous) := (NextBatch(db, config.batchSize), Latest(db.checkpoints));
    var base := Upto(db.events, LastSequence(previous));
    AnyBatch(db, config.batchSize);
    if previous.Some? && CoveredLeaves(previous) == |base| {
      BaseLeaves(c, base, batch);
    }
  }

  lemma BaseLeaves(c: Crypto, base: seq<Event>, batch: seq<Event>)
    ensures Slice(Leaves(c, base + batch), |base|) == Leaves(c, base)
  {
    LeavesOfPrefix(c, base + batch, |base|);
    assert (base + batch)[..|base|] == base;
  }
}
