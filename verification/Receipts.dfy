/** Receipts of src/ledger/proofs.py: how they are built from the tables, read statement by
    statement while the ledger grows, and how they are verified without it. */
module Receipts {
  import opened Wrappers
  import opened Hashing
  import opened Merkle
  import opened Consistency
  import opened Domain
  import opened Sealing
  import opened Protocol

  datatype WitnessStatus = Pending | Witnessed | Unknown(text: string)
  datatype InclusionView = InclusionView(leafIndex: int, treeSize: int, path: seq<InclusionStep>)
  datatype ConsistencyBundle = ConsistencyBundle(oldCheckpoint: Checkpoint, newCheckpointId: Uuid, oldSize: int,
      newSize: int, hashes: seq<Bytes>)

  // The event view is the whole row: its sequence number, its public fields and its leaf hash.
  datatype Receipt = Receipt(
    event: Event, status: WitnessStatus, checkpoint: Option<Checkpoint>,
    inclusion: Option<InclusionView>, consistency: Option<ConsistencyBundle>)

  // ---- Offline verification ----

  datatype Verdict = Valid(witnessed: bool) | InvalidProof | UnknownKey

  // None when the checkpoint's signature is right, or the reason why not.
  function CheckSignature(c: Crypto, checkpoint: Checkpoint, keyring: Keyring): Option<Verdict> {
    var p := checkpoint.payload;
    if p.keyVersion !in keyring then Some(UnknownKey)
    else if Sign(c, p, keyring[p.keyVersion]) != checkpoint.signature then Some(InvalidProof)
    else None
  }

  ghost function InclusionVerdict(c: Crypto, leaf: Digest, checkpoint: Checkpoint,
      inclusion: InclusionView): Option<Verdict> {
    var root := checkpoint.payload.rootHash;
    if !IsDigest(root) || (exists i | 0 <= i < |inclusion.path| :: !IsDigest(inclusion.path[i].hash))
        then Some(InvalidProof)
    else if inclusion.treeSize != checkpoint.payload.leafCount then Some(InvalidProof)
    else if !Included(c.sha, leaf, inclusion.leafIndex, inclusion.treeSize, inclusion.path, root)
        then Some(InvalidProof)
    else None
  }

  ghost function PredecessorVerdict(c: Crypto, checkpoint: Checkpoint, consistency: Option<ConsistencyBundle>,
      keyring: Keyring): Verdict {
    var p := checkpoint.payload;
    if p.previousId.None? then
      if p.previousRoot.Some? || consistency.Some? then InvalidProof else Valid(true)
    else if consistency.None? then InvalidProof
    else
      var b := consistency.value;
      var q := b.oldCheckpoint.payload;
      var signature := CheckSignature(c, b.oldCheckpoint, keyring);
      if signature.Some? then signature.value
      else if q.checkpointId != p.previousId.value || p.previousRoot != Some(q.rootHash)
          || b.newCheckpointId != p.checkpointId then InvalidProof
      else if exists i | 0 <= i < |b.hashes| :: !IsDigest(b.hashes[i]) then InvalidProof
      else if b.oldSize != q.leafCount || b.newSize != p.leafCount || !IsDigest(q.rootHash) then InvalidProof
      else if !Consistent(c.sha, b.oldSize, b.newSize, q.rootHash, p.rootHash, b.hashes) then InvalidProof
      else Valid(true)
  }

  ghost function ReceiptVerdict(c: Crypto, receipt: Receipt, keyring: Keyring): Verdict {
    var leaf := EventLeaf(c, receipt.event.commitment);
    if receipt.event.leafHash != leaf then InvalidProof
    else if receipt.status.Pending? then
      if receipt.checkpoint.Some? || receipt.inclusion.Some? then InvalidProof else Valid(false)
    else if receipt.status.Unknown? || receipt.checkpoint.None? then InvalidProof
    else
      var checkpoint := receipt.checkpoint.value;
      var signature := CheckSignature(c, checkpoint, keyring);
      if signature.Some? then signature.value
      else if receipt.inclusion.None? then InvalidProof
      else
        var inclusion := InclusionVerdict(c, leaf, checkpoint, receipt.inclusion.value);
        if inclusion.Some? then inclusion.value
        else PredecessorVerdict(c, checkpoint, receipt.consistency, keyring)
  }

  method VerifyReceipt(c: Crypto, receipt: Receipt, keyring: Keyring) returns (verdict: Verdict)
    ensures verdict == ReceiptVerdict(c, receipt, keyring)
  {
    var leaf := EventLeaf(c, receipt.event.commitment);
    if !IsDigest(receipt.event.leafHash) || receipt.event.leafHash != leaf {
      return InvalidProof;
    }
    if receipt.status.Pending? {
      return if receipt.checkpoint.Some? || receipt.inclusion.Some? then InvalidProof else Valid(false);
    }
    if !receipt.status.Witnessed? || receipt.checkpoint.None? {
      return InvalidProof;
    }
    var checkpoint := receipt.checkpoint.value;
    var p := checkpoint.payload;
    var signature := CheckSignature(c, checkpoint, keyring);
    if signature.Some? {
      return signature.value;
    }
    if receipt.inclusion.None? {
      return InvalidProof;
    }
    var inclusion := receipt.inclusion.value;
    if !IsDigest(p.rootHash) || (exists i | 0 <= i < |inclusion.path| :: !IsDigest(inclusion.path[i].hash)) {
      return InvalidProof;
    }
    if inclusion.treeSize != p.leafCount {
      return InvalidProof;
    }
    var included := VerifyInclusion(c.sha, leaf, inclusion.leafIndex, inclusion.treeSize, inclusion.path, p.rootHash);
    if !included {
      return InvalidProof;
    }
    if p.previousId.None? {
      return if p.previousRoot.Some? || receipt.consistency.Some? then InvalidProof else Valid(true);
    }
    if receipt.consistency.None? {
      return InvalidProof;
    }
    var b := receipt.consistency.value;
    var q := b.oldCheckpoint.payload;
    signature := CheckSignature(c, b.oldCheckpoint, keyring);
    if signature.Some? {
      return signature.value;
    }
    if q.checkpointId != p.previousId.value || p.previousRoot != Some(q.rootHash)
        || b.newCheckpointId != p.checkpointId {
      return InvalidProof;
    }
    if exists i | 0 <= i < |b.hashes| :: !IsDigest(b.hashes[i]) {
      return InvalidProof;
    }
    if b.oldSize != q.leafCount || b.newSize != p.leafCount || !IsDigest(q.rootHash) {
      return InvalidProof;
    }
    var consistent := VerifyConsistency(c.sha, b.oldSize, b.newSize, q.rootHash, p.rootHash, b.hashes);
    return if consistent then Valid(true) else InvalidProof;
  }

  // ---- Building receipts ----

  datatype Error = Ledger(error: LedgerError) | OutsideTree

  function ValidatedPrefix(c: Crypto, db: Tables, checkpoint: Checkpoint, keyring: Keyring): Result<seq<Event>, Error> {
    var p := checkpoint.payload;
    var events := Upto(db.events, p.lastSequence);
    if |events| != p.leafCount || events == [] then Err(Ledger(CheckpointCorrupt))
    else if !LeavesMatch(c, events) then Err(Ledger(MerkleNodeCorrupt))
    else if MerkleRoot(c.sha, Leaves(c, events)) != p.rootHash then Err(Ledger(CheckpointCorrupt))
    else if p.keyVersion !in keyring then Err(Ledger(UnknownKeyVersion))
    else if Sign(c, p, keyring[p.keyVersion]) != checkpoint.signature then Err(Ledger(CheckpointSignatureInvalid))
    else Ok(events)
  }

  method ValidatePrefix(c: Crypto, db: Tables, checkpoint: Checkpoint, keyring: Keyring)
    returns (result: Result<seq<Event>, Error>, leaves: seq<Digest>)
    ensures result == ValidatedPrefix(c, db, checkpoint, keyring)
    ensures result.Ok? ==> leaves == Leaves(c, result.value)
  {
    var p := checkpoint.payload;
    var events := Upto(db.events, p.lastSequence);
    leaves := [];
    if |events| != p.leafCount || |events| == 0 {
      return Err(Ledger(CheckpointCorrupt)), leaves;
    }
    for i := 0 to |events|
      invariant LeavesMatch(c, events[..i])
      invariant leaves == Leaves(c, events[..i])
    {
      var calculated := EventLeaf(c, events[i].commitment);
      if calculated != events[i].leafHash {
        return Err(Ledger(MerkleNodeCorrupt)), leaves;
      }
      leaves := leaves + [calculated];
      assert events[..i + 1] == events[..i] + [events[i]];
    }
    assert events[..|events|] == events;
    if MerkleRoot(c.sha, leaves) != p.rootHash {
      return Err(Ledger(CheckpointCorrupt)), leaves;
    }
    if p.keyVersion !in keyring {
      return Err(Ledger(UnknownKeyVersion)), leaves;
    }
    if Sign(c, p, keyring[p.keyVersion]) != checkpoint.signature {
      return Err(Ledger(CheckpointSignatureInvalid)), leaves;
    }
    return Ok(events), leaves;
  }

  // The tables as each statement of a receipt request sees them; every statement takes its
  // own snapshot.
  datatype Reads = Reads(event: Tables, checkpoint: Tables, prefix: Tables, previous: Tables, previousPrefix: Tables)

  function BuildBundle(c: Crypto, r: Reads, checkpoint: Checkpoint, leaves: seq<Digest>,
      keyring: Keyring): Result<Option<ConsistencyBundle>, Error> {
    var p := checkpoint.payload;
    if p.previousId.None? then Ok(None)
    else
      var previous := CheckpointById(r.previous.checkpoints, p.previousId.value);
      if previous.None? then Err(Ledger(CheckpointChainBroken))
      else
        var q := previous.value.payload;
        var validated := ValidatedPrefix(c, r.previousPrefix, previous.value, keyring);
        if validated.Err? then Err(validated.error)
        else if Some(q.rootHash) != p.previousRoot then Err(Ledger(CheckpointChainBroken))
        else
          match ConsistencyProof(c.sha, leaves, q.leafCount)
          case Err(_) => Err(OutsideTree)
          case Ok(hashes) => Ok(Some(ConsistencyBundle(previous.value, p.checkpointId, q.leafCount, p.leafCount,
              hashes)))
  }

  function IndexOf(events: seq<Event>, id: Uuid): Option<nat> {
    if events == [] then None
    else
      var n := |events| - 1;
      match IndexOf(events[..n], id)
      case Some(i) => Some(i)
      case None => if events[n].commitment.eventId == id then Some(n) else None
  }

  lemma {:induction false} IndexOfFirst(events: seq<Event>, id: Uuid)
    ensures match IndexOf(events, id)
      case Some(i) =>
        && i < |events| && events[i].commitment.eventId == id
        && forall j | 0 <= j < i :: events[j].commitment.eventId != id
      case None => forall e | e in events :: e.commitment.eventId != id
  {
    if events == [] {
    } else {
      var n := |events| - 1;
      IndexOfFirst(events[..n], id);
      assert forall j | 0 <= j < n :: events[..n][j] == events[j] && events[..n][j] in events[..n];
      assert events == events[..n] + [events[n]];
    }
  }

  function SealedReceipt(c: Crypto, event: Event, index: nat, checkpoint: Checkpoint, leaves: seq<Digest>,
      bundle: Option<ConsistencyBundle>): Receipt
    requires index < |leaves|
  {
    Receipt(event, Witnessed, Some(checkpoint),
        Some(InclusionView(index, checkpoint.payload.leafCount, Walk(c.sha, leaves, index))), bundle)
  }

  function BuildReceiptAt(c: Crypto, r: Reads, event: Event, checkpoint: Checkpoint, keyring: Keyring): Result<Receipt,
      Error> {
    var validated := ValidatedPrefix(c, r.prefix, checkpoint, keyring);
    if validated.Err? then Err(validated.error)
    else
      var events, leaves := validated.value, Leaves(c, validated.value);
      var index := IndexOf(events, event.commitment.eventId);
      IndexOfFirst(events, event.commitment.eventId);
      if index.None? then Err(Ledger(CheckpointCorrupt))
      else
        var bundle := BuildBundle(c, r, checkpoint, leaves, keyring);
        if bundle.Err? then Err(bundle.error)
        else Ok(SealedReceipt(c, event, index.value, checkpoint, leaves, bundle.value))
  }

  function BuildReceipt(c: Crypto, r: Reads, eventId: Uuid, keyring: Keyring): Result<Receipt, Error> {
    var event := FindEvent(r.event.events, eventId);
    if event.None? then Err(Ledger(NotFound))
    else if EventLeaf(c, event.value.commitment) != event.value.leafHash then Err(Ledger(MerkleNodeCorrupt))
    else
      match LatestCovering(r.checkpoint.checkpoints, event.value.sequence)
      case None => Ok(Receipt(event.value, Pending, None, None, None))
      case Some(checkpoint) => BuildReceiptAt(c, r, event.value, checkpoint, keyring)
  }
}
