/** The sealer as it runs: one attempt against the database, and attempts repeated until
    nothing is pending (src/ledger/sealing.py:59-153). */
module SealerService {
  import opened Wrappers
  import opened Hashing
  import opened Merkle
  import opened Domain
  import opened Sealing
  import opened Protocol
  import opened Runs
  import opened LedgerDatabase

  datatype Attempt = Decided(result: SealResult) | DuplicateId

  class CheckpointSealer {
    const crypto: Crypto
    const config: SealerConfig

    constructor (crypto: Crypto, config: SealerConfig)
      ensures this.crypto == crypto && this.config == config
    {
      this.crypto, this.config := crypto, config;
    }

    // What an attempt that holds the lock decides from the tables.
    method Plan(db: Tables, id: Uuid, now: Time) returns (result: SealResult)
      ensures result == PlanSeal(crypto, db, config, id, now)
    {
      hide MerkleRoot, Leaves, LeavesMatch, Upto, After, Latest, EventLeaf, Sign;
      var previous := Latest(db.checkpoints);
      var lastSequence := if previous.Some? then previous.value.payload.lastSequence else 0;
      var batch := Slice(After(db.events, lastSequence), config.batchSize);
      if |batch| == 0 {
        return Idle;
      }
      var target := batch[|batch| - 1].sequence;
      var events := Upto(db.events, target);
      var expected := (if previous.Some? then previous.value.payload.leafCount else 0) + |batch|;
      if |events| != expected {
        return Failed(EventSequenceCorrupt);
      }
      var leaves: seq<Digest> := [];
      NoLeaves(crypto, events[..0]);
      for i := 0 to |events|
        invariant LeavesMatch(crypto, events[..i])
        invariant leaves == Leaves(crypto, events[..i])
      {
        OneMoreLeaf(crypto, events, i);
        var calculated := EventLeaf(crypto, events[i].commitment);
        if calculated != events[i].leafHash {
          return Failed(MerkleNodeCorrupt);
        }
        leaves := leaves + [calculated];
      }
      assert events[..|events|] == events;
      if previous.Some? {
        var p := previous.value.payload;
        if MerkleRoot(crypto.sha, Slice(leaves, p.leafCount)) != p.rootHash {
          return Failed(CheckpointCorrupt);
        }
        if p.keyVersion !in config.keyring {
          return Failed(UnknownKeyVersion);
        }
        if Sign(crypto, p, config.keyring[p.keyVersion]) != previous.value.signature {
          return Failed(CheckpointSignatureInvalid);
        }
      }
      var payload := Payload(
        id, |events|, target, MerkleRoot(crypto.sha, leaves),
        if previous.Some? then Some(previous.value.payload.checkpointId) else None,
        if previous.Some? then Some(previous.value.payload.rootHash) else None,
        config.currentKeyVersion, now);
      if config.currentKeyVersion !in config.keyring {
        return Failed(UnknownKeyVersion);
      }
      return Sealed(Checkpoint(payload, Sign(crypto, payload, config.keyring[config.currentKeyVersion])));
    }

    // A whole attempt is three steps of the protocol: lock, read, commit. When the lock is
    // taken or nothing can be sealed the tables stay as they are.
    method SealOnce(db: Database, id: Uuid, now: Time) returns (attempt: Attempt)
      modifies db
      ensures db.State() == Exec(crypto, old(db.State()),
                if old(db.sealer.None? && db.writers == map[])
                    then [SealLock, SealRead(config, id, now), SealCommit] else [])
      ensures attempt ==
        if old(db.sealer.Some? || db.writers != map[]) then Decided(Busy)
        else
          var planned := PlanSeal(crypto, old(db.State().db), config, id, now);
          if planned.Sealed? && !IdUnused(old(db.State().db), id) then DuplicateId else Decided(planned)
      ensures attempt.Decided? && attempt.result.Sealed? ==>
          db.checkpoints == old(db.checkpoints) + [attempt.result.checkpoint]
      ensures !(attempt.Decided? && attempt.result.Sealed?) ==> db.State() == old(db.State())
      ensures db.events == old(db.events)
    {
      hide PlanSeal, Exec, IdUnused;
      NoSteps(crypto, db.State());
      if db.sealer.Some? || db.writers != map[] {
        return Decided(Busy);
      }
      AttemptSteps(crypto, db.State(), config, id, now);
      var planned := Plan(Tables(db.events, db.checkpoints), id, now);
      if !planned.Sealed? {
        return Decided(planned);
      }
      if !IdUnused(Tables(db.events, db.checkpoints), id) {
        return DuplicateId;
      }
      db.checkpoints := db.checkpoints + [planned.checkpoint];
      return Decided(planned);
    }
  }

  lemma NoLeaves(c: Crypto, events: seq<Event>)
    requires events == []
    ensures LeavesMatch(c, events) && Leaves(c, events) == []
  {
  }

  lemma OneMoreLeaf(c: Crypto, events: seq<Event>, i: nat)
    requires i < |events|
    ensures Leaves(c, events[..i + 1]) == Leaves(c, events[..i]) + [EventLeaf(c, events[i].commitment)]
    ensures LeavesMatch(c, events[..i + 1]) <==>
        LeavesMatch(c, events[..i]) && events[i].leafHash == EventLeaf(c, events[i].commitment)
    ensures events[i].leafHash != EventLeaf(c, events[i].commitment) ==> !LeavesMatch(c, events)
  {
    assert events[..i + 1] == events[..i] + [events[i]];
    assert forall j | 0 <= j < i :: events[..i + 1][j] == events[..i][j];
  }

  lemma NoSteps(c: Crypto, s: System)
    ensures Exec(c, s, []) == s
  {
  }

  // What the three steps of an undisturbed attempt leave behind.
  lemma AttemptSteps(c: Crypto, s: System, config: SealerConfig, id: Uuid, now: Time)
    requires s.sealer.None? && s.writers == map[]
    ensures var planned := PlanSeal(c, s.db, config, id, now);
      Exec(c, s, [SealLock, SealRead(config, id, now), SealCommit])
        == if planned.Sealed? && IdUnused(s.db, id) then s.(db := WithCheckpoint(s.db, planned.checkpoint)) else s
  {
    hide PlanSeal, IdUnused, Exec;
    PlannedId(c, s.db, config, id, now);
    RunOfThree(c, s, [SealLock, SealRead(config, id, now), SealCommit]);
    assert Next(c, s, SealLock) == s.(sealer := Some(Locked));
  }

  lemma PlannedId(c: Crypto, db: Tables, config: SealerConfig, id: Uuid, now: Time)
    ensures var planned := PlanSeal(c, db, config, id, now); planned.Sealed? ==>
        planned.checkpoint.payload.checkpointId == id
  {
  }

  // ---- Progress ----

  type Mint = nat -> (Uuid, Time)

  // The uuids still to be drawn are new and pairwise different.
  ghost predicate FreshFrom(db: Tables, mint: Mint, k: nat) {
    && (forall j | j >= k :: IdUnused(db, mint(j).0))
    && (forall i, j | k <= i < j :: mint(i).0 != mint(j).0)
  }

  ghost function PendingCount(db: Tables): nat {
    |After(db.events, LastOf(db))|
  }

  ghost predicate CanSeal(c: Crypto, master: Keyring, db: Tables, config: SealerConfig) {
    Chain(c, master, db) && Agrees(config.keyring, master) && KeysKnown(db, config)
  }

  // A successful attempt takes one batch off the pending events and can be repeated.
  lemma OneSeal(c: Crypto, master: Keyring, db: Tables, config: SealerConfig, mint: Mint, k: nat)
    requires CanSeal(c, master, db, config) && FreshFrom(db, mint, k)
    ensures var planned := PlanSeal(c, db, config, mint(k).0, mint(k).1);
      && (planned.Sealed? <==> PendingCount(db) > 0) && (!planned.Sealed? ==> planned == Idle)
      && (planned.Sealed? ==>
          var db' := WithCheckpoint(db, planned.checkpoint);
          && CanSeal(c, master, db', config) && FreshFrom(db', mint, k + 1)
          && PendingCount(db') == if PendingCount(db) <= config.batchSize then 0
              else PendingCount(db) - config.batchSize)
  {
    hide PlanSeal, Chain, After, Upto, Linked, NextBatch, Latest, Sign, MerkleRoot, Leaves;
    var id, now := mint(k).0, mint(k).1;
    var planned := PlanSeal(c, db, config, id, now);
    BatchSizes(c, master, db, config.batchSize);
    SealOutcome(c, master, db, config, id, now);
    if planned.Sealed? {
      SealIsLinked(c, master, db, config, id, now);
      AppendKeepsChain(c, master, db, planned.checkpoint);
    }
  }

  // How many events are pending, are in the next batch, and stay pending after it.
  lemma BatchSizes(c: Crypto, master: Keyring, db: Tables, batchSize: Positive)
    requires Chain(c, master, db)
    ensures var batch, pending := NextBatch(db, batchSize), PendingCount(db);
      && |batch| == (if pending <= batchSize then pending else batchSize)
      && (batch != [] ==> |After(db.events, batch[|batch| - 1].sequence)| == pending - |batch|)
  {
    SealedPrefix(c, master, db);
    AfterIsRest(db.events, LastOf(db));
    var batch := NextBatch(db, batchSize);
    if batch != [] {
      BatchExtendsPrefix(c, master, db, batchSize);
      AfterIsRest(db.events, batch[|batch| - 1].sequence);
    }
    hide Upto, After, NextBatch, Chain, Latest;
  }

  // Attempts repeated without new writes until one is idle: the tables then, and how many
  // attempts sealed.
  ghost function SealUntilIdle(c: Crypto, master: Keyring, db: Tables, config: SealerConfig, mint: Mint,
      k: nat): (Tables, nat)
    requires CanSeal(c, master, db, config) && FreshFrom(db, mint, k)
    decreases PendingCount(db)
  {
    OneSeal(c, master, db, config, mint, k);
    var planned := PlanSeal(c, db, config, mint(k).0, mint(k).1);
    if planned.Sealed? then
      var (db', n) := SealUntilIdle(c, master, WithCheckpoint(db, planned.checkpoint), config, mint, k + 1);
      (db', n + 1)
    else (db, 0)
  }

  // The number of batches that pending events fill, the last one perhaps not fully.
  ghost predicate FillsBatches(pending: nat, batchSize: Positive, n: nat) {
    pending <= n * batchSize && (n > 0 ==> (n - 1) * batchSize < pending)
  }

  // Sealing progresses by exactly one batch an attempt and then stays idle; the events are
  // untouched, and the last root is the root of all leaves whatever the batch size.
  lemma {:induction false} SealingProgress(c: Crypto, master: Keyring, db: Tables, config: SealerConfig, mint: Mint,
      k: nat)
    requires CanSeal(c, master, db, config) && FreshFrom(db, mint, k)
    ensures var (db', n) := SealUntilIdle(c, master, db, config, mint, k);
      && FillsBatches(PendingCount(db), config.batchSize, n)
      && CanSeal(c, master, db', config) && PendingCount(db') == 0
      && |db'.checkpoints| == |db.checkpoints| + n
      && db'.events == db.events
      && (db.events != [] ==>
          db'.checkpoints != [] && db'.checkpoints[|db'.checkpoints| - 1].payload.rootHash
          == MerkleRoot(c.sha, Leaves(c, db.events)))
    decreases PendingCount(db)
  {
    var planned := PlanSeal(c, db, config, mint(k).0, mint(k).1);
    hide PlanSeal, CanSeal, FreshFrom, PendingCount, Leaves, MerkleRoot;
    OneSeal(c, master, db, config, mint, k);
    if planned.Sealed? {
      SealingProgress(c, master, WithCheckpoint(db, planned.checkpoint), config, mint, k + 1);
      var n := SealUntilIdle(c, master, WithCheckpoint(db, planned.checkpoint), config, mint, k + 1).1;
      OneMoreBatch(PendingCount(db), config.batchSize, n);
    } else {
      AllSealedRoot(c, master, db, config);
    }
  }

  lemma OneMoreBatch(pending: nat, batchSize: Positive, n: nat)
    requires pending > 0 && FillsBatches(if pending <= batchSize then 0 else pending - batchSize, batchSize, n)
    ensures FillsBatches(pending, batchSize, n + 1)
  {
    assert (n + 1) * batchSize == n * batchSize + batchSize;
    if n > 0 {
      assert n * batchSize == (n - 1) * batchSize + batchSize;
    }
  }

  lemma AllSealedRoot(c: Crypto, master: Keyring, db: Tables, config: SealerConfig)
    requires CanSeal(c, master, db, config) && PendingCount(db) == 0
    ensures db.events != [] ==>
        db.checkpoints != [] && db.checkpoints[|db.checkpoints| - 1].payload.rootHash
        == MerkleRoot(c.sha, Leaves(c, db.events))
  {
    assert db.events != [] ==> db.events[0].sequence >= 1;
    AfterIsRest(db.events, LastOf(db));
    assert Upto(db.events, LastOf(db)) == db.events;
    if db.checkpoints == [] {
      UptoIsPrefix(db.events, 0);
    } else {
      assert ChainLink(c, master, db, |db.checkpoints| - 1);
    }
  }

  // Two sealers with different batch sizes end with the same root.
  lemma BatchSizeIrrelevant(c: Crypto, master: Keyring, db: Tables, one: SealerConfig, other: SealerConfig, mint: Mint,
      mint': Mint)
    requires CanSeal(c, master, db, one) && CanSeal(c, master, db, other) && FreshFrom(db, mint, 0)
        && FreshFrom(db, mint', 0)
    ensures var a, b := SealUntilIdle(c, master, db, one, mint, 0).0, SealUntilIdle(c, master, db, other, mint', 0).0;
      LastRoot(a) == LastRoot(b)
  {
    SealedRoot(c, master, db, one, mint);
    SealedRoot(c, master, db, other, mint');
    hide *;
  }

  lemma SealedRoot(c: Crypto, master: Keyring, db: Tables, config: SealerConfig, mint: Mint)
    requires CanSeal(c, master, db, config) && FreshFrom(db, mint, 0)
    ensures LastRoot(SealUntilIdle(c, master, db, config, mint, 0).0) == if db.events == [] then None
        else Some(MerkleRoot(c.sha, Leaves(c, db.events)))
  {
    hide CanSeal, FreshFrom, SealUntilIdle, MerkleRoot, Leaves, PendingCount, FillsBatches;
    SealingProgress(c, master, db, config, mint, 0);
    NothingSealed(c, master, SealUntilIdle(c, master, db, config, mint, 0).0, config);
  }

  function LastRoot(db: Tables): Option<Bytes> {
    if db.checkpoints == [] then None else Some(db.checkpoints[|db.checkpoints| - 1].payload.rootHash)
  }

  lemma NothingSealed(c: Crypto, master: Keyring, db: Tables, config: SealerConfig)
    requires CanSeal(c, master, db, config)
    ensures db.checkpoints != [] ==> db.events != []
  {
    if db.checkpoints != [] {
      assert ChainLink(c, master, db, 0);
    }
  }
}
