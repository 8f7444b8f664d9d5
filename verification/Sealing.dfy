/** What one sealing attempt of src/ledger/sealing.py decides from the two tables, and the
    chain of checkpoints those decisions build. */
module Sealing {
  import opened Wrappers
  import opened Hashing
  import opened Merkle
  import opened Domain

  datatype Tables = Tables(events: seq<Event>, checkpoints: seq<Checkpoint>)

  type Positive = n: int | n >= 1 witness 1
  datatype SealerConfig = SealerConfig(keyring: Keyring, currentKeyVersion: string, batchSize: Positive)

  datatype SealResult = Busy | Idle | Sealed(checkpoint: Checkpoint) | Failed(error: LedgerError)

  predicate LeavesMatch(c: Crypto, events: seq<Event>) {
    forall i | 0 <= i < |events| :: events[i].leafHash == EventLeaf(c, events[i].commitment)
  }

  // A slice up to n, which may lie outside the sequence.
  function Slice<T>(s: seq<T>, n: int): seq<T> {
    if n >= |s| then s else if n >= 0 then s[..n] else if |s| + n >= 0 then s[..|s| + n] else []
  }

  function LastSequence(previous: Option<Checkpoint>): int {
    if previous.Some? then previous.value.payload.lastSequence else 0
  }

  function CoveredLeaves(previous: Option<Checkpoint>): int {
    if previous.Some? then previous.value.payload.leafCount else 0
  }

  // The next events to seal: at most one batch after the last sealed sequence.
  function NextBatch(db: Tables, batchSize: Positive): seq<Event> {
    Slice(After(db.events, LastSequence(Latest(db.checkpoints))), batchSize)
  }

  function CheckPrevious(c: Crypto, previous: Checkpoint, leaves: seq<Digest>, keyring: Keyring): Option<LedgerError> {
    if MerkleRoot(c.sha, Slice(leaves, previous.payload.leafCount)) != previous.payload.rootHash
        then Some(CheckpointCorrupt)
    else if previous.payload.keyVersion !in keyring then Some(UnknownKeyVersion)
    else if Sign(c, previous.payload, keyring[previous.payload.keyVersion]) != previous.signature
        then Some(CheckpointSignatureInvalid)
    else None
  }

  function NewPayload(c: Crypto, previous: Option<Checkpoint>, prefix: seq<Event>, lastSequence: int,
      keyVersion: string, id: Uuid, now: Time): Payload {
    Payload(id, |prefix|, lastSequence, MerkleRoot(c.sha, Leaves(c, prefix)),
            if previous.Some? then Some(previous.value.payload.checkpointId) else None,
            if previous.Some? then Some(previous.value.payload.rootHash) else None,
            keyVersion, now)
  }

  function PlanSeal(c: Crypto, db: Tables, config: SealerConfig, id: Uuid, now: Time): SealResult {
    var previous := Latest(db.checkpoints);
    var batch := NextBatch(db, config.batchSize);
    if batch == [] then Idle
    else
      var target := batch[|batch| - 1].sequence;
      var prefix := Upto(db.events, target);
      if |prefix| != CoveredLeaves(previous) + |batch| then Failed(EventSequenceCorrupt)
      else if !LeavesMatch(c, prefix) then Failed(MerkleNodeCorrupt)
      else
        var broken := if previous.Some? then CheckPrevious(c, previous.value, Leaves(c, prefix), config.keyring)
            else None;
        if broken.Some? then Failed(broken.value)
        else if config.currentKeyVersion !in config.keyring then Failed(UnknownKeyVersion)
        else
          var payload := NewPayload(c, previous, prefix, target, config.currentKeyVersion, id, now);
          Sealed(Checkpoint(payload, Sign(c, payload, config.keyring[config.currentKeyVersion])))
  }

  // ---- The checkpoint chain ----

  // Checkpoint i of the chain signs exactly the events up to its last sequence, that event
  // included, and links to checkpoint i - 1.
  ghost predicate ChainLink(c: Crypto, master: Keyring, db: Tables, i: nat)
    requires i < |db.checkpoints|
  {
    var p := db.checkpoints[i].payload;
    var prefix := Upto(db.events, p.lastSequence);
    && 0 < p.leafCount == |prefix| && prefix[|prefix| - 1].sequence == p.lastSequence
    && p.rootHash == MerkleRoot(c.sha, Leaves(c, prefix))
    && p.keyVersion in master && db.checkpoints[i].signature == Sign(c, p, master[p.keyVersion])
    && (i == 0 ==> p.previousId == None && p.previousRoot == None)
    && (i > 0 ==>
        var q := db.checkpoints[i - 1].payload;
        p.previousId == Some(q.checkpointId) && p.previousRoot == Some(q.rootHash))
  }

  ghost predicate Chain(c: Crypto, master: Keyring, db: Tables) {
    && Sorted(db.events) && (forall i | 0 <= i < |db.events| :: db.events[i].sequence >= 1)
    && LeavesMatch(c, db.events)
    && Growing(db.checkpoints)
    && forall i | 0 <= i < |db.checkpoints| :: ChainLink(c, master, db, i)
  }

  // A keyring that never gives a version another key than the one it was issued with.
  ghost predicate Agrees(keyring: Keyring, master: Keyring) {
    forall v | v in keyring :: v in master && keyring[v] == master[v]
  }

  predicate IdUnused(db: Tables, id: Uuid) {
    forall i | 0 <= i < |db.checkpoints| :: db.checkpoints[i].payload.checkpointId != id
  }

  function LastOf(db: Tables): int {
    if db.checkpoints == [] then 0 else db.checkpoints[|db.checkpoints| - 1].payload.lastSequence
  }

  lemma SealedPrefix(c: Crypto, master: Keyring, db: Tables)
    requires Chain(c, master, db)
    ensures Latest(db.checkpoints) == if db.checkpoints == [] then None else Some(db.checkpoints[|db.checkpoints| - 1])
    ensures LastSequence(Latest(db.checkpoints)) == LastOf(db)
    ensures CoveredLeaves(Latest(db.checkpoints)) == |Upto(db.events, LastOf(db))|
    ensures forall i | 0 <= i < |db.checkpoints| :: db.checkpoints[i].payload.lastSequence <= LastOf(db)
  {
    LatestIsLast(db.checkpoints);
    UptoIsPrefix(db.events, LastOf(db));
    if db.checkpoints == [] {
      assert db.events != [] ==> db.events[0].sequence >= 1;
    } else {
      assert ChainLink(c, master, db, |db.checkpoints| - 1);
    }
  }

  // The batch continues the sealed prefix without a gap in the table.
  lemma BatchExtendsPrefix(c: Crypto, master: Keyring, db: Tables, batchSize: Positive)
    requires Chain(c, master, db) && NextBatch(db, batchSize) != []
    ensures var batch, n := NextBatch(db, batchSize), |Upto(db.events, LastOf(db))|;
      var target := batch[|batch| - 1].sequence;
      && target > LastOf(db)
      && n + |batch| <= |db.events|
      && batch == db.events[n..n + |batch|]
      && Upto(db.events, target) == db.events[..n + |batch|]
  {
    hide Upto, After, Latest, ChainLink, LeavesMatch, Growing;
    SealedPrefix(c, master, db);
    UptoIsPrefix(db.events, LastOf(db));
    AfterIsRest(db.events, LastOf(db));
    var rest, batch, n := After(db.events, LastOf(db)), NextBatch(db, batchSize), |Upto(db.events, LastOf(db))|;
    assert rest == db.events[n..];
    assert batch == db.events[n..n + |batch|];
    var target := batch[|batch| - 1].sequence;
    assert target == db.events[n + |batch| - 1].sequence;
    UptoIsPrefix(db.events, target);
    var k := |Upto(db.events, target)|;
    assert k < |db.events| ==> db.events[k].sequence > target;
    assert n + |batch| < |db.events| ==> db.events[n + |batch|].sequence > target;
  }

  // The re-check of the previous checkpoint against any longer prefix can only miss its key.
  lemma PreviousStillHolds(c: Crypto, master: Keyring, db: Tables, keyring: Keyring, bound: int)
    requires Chain(c, master, db) && Agrees(keyring, master) && db.checkpoints != [] && bound >= LastOf(db)
    ensures var previous := db.checkpoints[|db.checkpoints| - 1];
      CheckPrevious(c, previous, Leaves(c, Upto(db.events, bound)), keyring)
        == if previous.payload.keyVersion in keyring then None else Some(UnknownKeyVersion)
  {
    var last := |db.checkpoints| - 1;
    var p := db.checkpoints[last].payload;
    assert ChainLink(c, master, db, last);
    UptoNested(db.events, p.lastSequence, bound);
    var leaves := Leaves(c, Upto(db.events, bound));
    LeavesOfPrefix(c, Upto(db.events, bound), p.leafCount);
    hide MerkleRoot, Leaves, Upto;
    assert Slice(leaves, p.leafCount) == leaves[..p.leafCount];
  }

  predicate KeysKnown(db: Tables, config: SealerConfig) {
    && config.currentKeyVersion in config.keyring
    && (db.checkpoints != [] ==> db.checkpoints[|db.checkpoints| - 1].payload.keyVersion in config.keyring)
  }

  // On a sound chain a sealing attempt never reports corruption and never rejects a signature:
  // it is idle when nothing is pending, fails only for a key its keyring lacks, and otherwise
  // seals exactly the old prefix and the batch.
  lemma SealOutcome(c: Crypto, master: Keyring, db: Tables, config: SealerConfig, id: Uuid, now: Time)
    requires Chain(c, master, db) && Agrees(config.keyring, master)
    ensures var batch, n := NextBatch(db, config.batchSize), |Upto(db.events, LastOf(db))|;
      && n + |batch| <= |db.events|
      && PlanSeal(c, db, config, id, now) ==
           if batch == [] then Idle
           else if !KeysKnown(db, config) then Failed(UnknownKeyVersion)
           else
             var payload := NewPayload(c, Latest(db.checkpoints), db.events[..n + |batch|],
                 batch[|batch| - 1].sequence, config.currentKeyVersion, id, now);
             Sealed(Checkpoint(payload, Sign(c, payload, config.keyring[config.currentKeyVersion])))
  {
    hide MerkleRoot, Leaves, Upto, After, Latest, NextBatch, Chain, CheckPrevious, LeavesMatch, Agrees;
    SealedPrefix(c, master, db);
    PrefixMatches(c, master, db, LastOf(db));
    var batch := NextBatch(db, config.batchSize);
    if batch != [] {
      BatchExtendsPrefix(c, master, db, config.batchSize);
      var target := batch[|batch| - 1].sequence;
      PrefixMatches(c, master, db, target);
      if db.checkpoints != [] {
        PreviousStillHolds(c, master, db, config.keyring, target);
      }
    }
  }

  lemma PrefixMatches(c: Crypto, master: Keyring, db: Tables, bound: int)
    requires Chain(c, master, db)
    ensures |Upto(db.events, bound)| <= |db.events| && LeavesMatch(c, Upto(db.events, bound))
  {
    hide Upto;
    UptoIsPrefix(db.events, bound);
  }

  function WithCheckpoint(db: Tables, cp: Checkpoint): Tables {
    db.(checkpoints := db.checkpoints + [cp])
  }

  // This checkpoint is linked to the last one and covers more.
  ghost predicate Linked(c: Crypto, master: Keyring, db: Tables, cp: Checkpoint) {
    && ChainLink(c, master, WithCheckpoint(db, cp), |db.checkpoints|)
    && cp.payload.lastSequence > LastOf(db)
  }

  ghost predicate Continues(c: Crypto, master: Keyring, db: Tables, cp: Checkpoint) {
    Linked(c, master, db, cp) && IdUnused(db, cp.payload.checkpointId)
  }

  lemma SealIsLinked(c: Crypto, master: Keyring, db: Tables, config: SealerConfig, id: Uuid, now: Time)
    requires Chain(c, master, db) && Agrees(config.keyring, master)
    requires PlanSeal(c, db, config, id, now).Sealed?
    ensures Linked(c, master, db, PlanSeal(c, db, config, id, now).checkpoint)
  {
    hide PlanSeal, NextBatch, MerkleRoot, Leaves, Upto, Latest, Chain;
    SealedPrefix(c, master, db);
    SealOutcome(c, master, db, config, id, now);
    if NextBatch(db, config.batchSize) != [] {
      BatchExtendsPrefix(c, master, db, config.batchSize);
    }
  }

  lemma AppendKeepsGrowing(checkpoints: seq<Checkpoint>, cp: Checkpoint)
    requires Growing(checkpoints)
    requires forall i | 0 <= i < |checkpoints| ::
      && checkpoints[i].payload.leafCount < cp.payload.leafCount
      && checkpoints[i].payload.lastSequence < cp.payload.lastSequence
      && checkpoints[i].payload.checkpointId != cp.payload.checkpointId
    ensures Growing(checkpoints + [cp])
  {
  }

  lemma OldLinkStays(c: Crypto, master: Keyring, db: Tables, cp: Checkpoint, i: nat)
    requires Chain(c, master, db) && Continues(c, master, db, cp) && i < |db.checkpoints|
    ensures ChainLink(c, master, WithCheckpoint(db, cp), i)
    ensures db.checkpoints[i].payload.leafCount < cp.payload.leafCount
  {
    SealedPrefix(c, master, db);
    hide MerkleRoot, Leaves, Upto;
    assert ChainLink(c, master, db, i);
    var bound := db.checkpoints[i].payload.lastSequence;
    UptoNested(db.events, bound, cp.payload.lastSequence);
    UptoIsPrefix(db.events, bound);
  }

  lemma AppendKeepsChain(c: Crypto, master: Keyring, db: Tables, cp: Checkpoint)
    requires Chain(c, master, db) && Continues(c, master, db, cp)
    ensures Chain(c, master, WithCheckpoint(db, cp)) && LastOf(WithCheckpoint(db, cp)) > LastOf(db)
  {
    hide ChainLink, LeavesMatch, Sorted, Growing;
    SealedPrefix(c, master, db);
    forall i | 0 <= i <= |db.checkpoints|
      ensures ChainLink(c, master, WithCheckpoint(db, cp), i)
      ensures i < |db.checkpoints| ==> db.checkpoints[i].payload.leafCount < cp.payload.leafCount
    {
      if i < |db.checkpoints| {
        OldLinkStays(c, master, db, cp, i);
      }
    }
    AppendKeepsGrowing(db.checkpoints, cp);
  }

  // Every earlier root, not only the adjacent one, is the root of a prefix of every later
  // checkpoint's leaves.
  lemma EarlierRootIsPrefixRoot(c: Crypto, master: Keyring, db: Tables, i: nat, j: nat)
    requires Chain(c, master, db) && i <= j < |db.checkpoints|
    ensures var p, q := db.checkpoints[i].payload, db.checkpoints[j].payload;
      var leaves := Leaves(c, Upto(db.events, q.lastSequence));
      && 0 < p.leafCount <= |leaves| == q.leafCount
      && Leaves(c, Upto(db.events, p.lastSequence)) == leaves[..p.leafCount]
      && p.rootHash == MerkleRoot(c.sha, leaves[..p.leafCount])
      && q.rootHash == MerkleRoot(c.sha, leaves)
  {
    var p, q := db.checkpoints[i].payload, db.checkpoints[j].payload;
    assert ChainLink(c, master, db, i) && ChainLink(c, master, db, j);
    assert p.lastSequence <= q.lastSequence;
    UptoNested(db.events, p.lastSequence, q.lastSequence);
    LeavesOfPrefix(c, Upto(db.events, q.lastSequence), p.leafCount);
  }

  // One genesis, and a unique successor for every other checkpoint: only the next checkpoint
  // in the chain names this one as its predecessor.
  lemma UniqueSuccessor(c: Crypto, master: Keyring, db: Tables, i: nat, j: nat)
    requires Chain(c, master, db) && i < |db.checkpoints| && j < |db.checkpoints|
    ensures db.checkpoints[j].payload.previousId == None <==> j == 0
    ensures db.checkpoints[j].payload.previousId == Some(db.checkpoints[i].payload.checkpointId) <==> j == i + 1
  {
    assert ChainLink(c, master, db, j);
    if j > 0 && j != i + 1 {
      assert db.checkpoints[j - 1].payload.checkpointId != db.checkpoints[i].payload.checkpointId;
    }
  }
}
