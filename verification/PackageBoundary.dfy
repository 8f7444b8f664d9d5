/** The fixed boundary of a package: what it holds never changes, so neither does the bundle. */
module PackageBoundary {
  import opened Wrappers
  import opened Merkle
  import opened Domain
  import opened Sealing
  import opened Runs
  import opened Receipts
  import opened ReceiptProofs
  import opened Packages
  import opened PackageMachine

  // The ledger as checkpoint i sealed it.
  ghost function SealedAt(db: Tables, i: nat): Tables
    requires i < |db.checkpoints|
  {
    Tables(Covered(db, i), db.checkpoints[..i + 1])
  }

  ghost predicate Known(db: Tables, checkpointId: Uuid) {
    CheckpointIndex(db.checkpoints, checkpointId).Some?
  }

  ghost function Base(db: Tables, checkpointId: Uuid): (b: Tables)
    requires Known(db, checkpointId)
    ensures b.checkpoints != []
  {
    SealedAt(db, CheckpointIndex(db.checkpoints, checkpointId).value)
  }

  // A sealed ledger that ends with its own last checkpoint.
  ghost predicate Whole(c: Crypto, master: Keyring, b: Tables) {
    Chain(c, master, b) && b.checkpoints != [] && Covered(b, |b.checkpoints| - 1) == b.events && UniqueIds(b.events)
  }

  function Boundary(b: Tables): Checkpoint
    requires b.checkpoints != []
  {
    b.checkpoints[|b.checkpoints| - 1]
  }

  // ---- The boundary does not move ----

  lemma {:induction false} UptoUpto(events: seq<Event>, low: int, high: int)
    requires low <= high
    ensures Upto(Upto(events, high), low) == Upto(events, low)
  {
    if events == [] {
    } else {
      var n := |events| - 1;
      UptoUpto(events[..n], low, high);
      if events[n].sequence <= high {
        assert Upto(events, high)[..|Upto(events[..n], high)|] == Upto(events[..n], high);
      } else {
        assert Upto(events, high) == Upto(events[..n], high);
      }
    }
  }

  lemma SealedAtIsWhole(c: Crypto, master: Keyring, db: Tables, i: nat)
    requires Chain(c, master, db) && UniqueIds(db.events) && i < |db.checkpoints|
    ensures Whole(c, master, SealedAt(db, i)) && Extends(SealedAt(db, i), db)
        && Boundary(SealedAt(db, i)) == db.checkpoints[i]
  {
    SealedAtExtends(c, master, db, i);
    SealedAtSorted(c, master, db, i);
    hide Covered, Sorted, LeavesMatch, Extends;
    forall j | 0 <= j < |SealedAt(db, i).checkpoints| ensures ChainLink(c, master, SealedAt(db, i), j) {
      SealedAtLinks(c, master, db, i, j);
    }
    hide ChainLink;
  }

  lemma SealedAtExtends(c: Crypto, master: Keyring, db: Tables, i: nat)
    requires Chain(c, master, db) && i < |db.checkpoints|
    ensures Extends(SealedAt(db, i), db) && Covered(SealedAt(db, i), i) == SealedAt(db, i).events
    ensures forall e | e in SealedAt(db, i).events :: e in db.events
  {
    UptoMembers(db.events, db.checkpoints[i].payload.lastSequence);
    SealedPrefix(c, master, db);
    SealedAtReads(db, i);
    hide Upto, Chain;
  }

  lemma SealedAtSorted(c: Crypto, master: Keyring, db: Tables, i: nat)
    requires Chain(c, master, db) && i < |db.checkpoints|
    ensures var events := SealedAt(db, i).events;
      Sorted(events) && LeavesMatch(c, events) && forall j | 0 <= j < |events| :: events[j].sequence >= 1
  {
    UptoIsPrefix(db.events, db.checkpoints[i].payload.lastSequence);
  }

  lemma SealedAtReads(db: Tables, i: nat)
    requires i < |db.checkpoints|
    ensures forall low | low <= db.checkpoints[i].payload.lastSequence ::
        Upto(SealedAt(db, i).events, low) == Upto(db.events, low)
  {
    forall low | low <= db.checkpoints[i].payload.lastSequence ensures Upto(SealedAt(db, i).events, low)
        == Upto(db.events, low) {
      UptoUpto(db.events, low, db.checkpoints[i].payload.lastSequence);
    }
  }

  lemma SealedAtLinks(c: Crypto, master: Keyring, db: Tables, i: nat, j: nat)
    requires Chain(c, master, db) && j <= i < |db.checkpoints|
    ensures ChainLink(c, master, SealedAt(db, i), j)
  {
    hide Upto, MerkleRoot, Leaves;
    SealedAtReads(db, i);
    assert ChainLink(c, master, db, j);
    assert j < i ==> db.checkpoints[j].payload.lastSequence < db.checkpoints[i].payload.lastSequence;
  }

  lemma BaseIsWhole(c: Crypto, master: Keyring, db: Tables, checkpointId: Uuid)
    requires Chain(c, master, db) && UniqueIds(db.events) && Known(db, checkpointId)
    ensures var b := Base(db, checkpointId);
      && Whole(c, master, b) && Extends(b, db)
      && Boundary(b).payload.checkpointId == checkpointId
          && CheckpointById(db.checkpoints, checkpointId) == Some(Boundary(b))
      && b.events == Upto(db.events, Boundary(b).payload.lastSequence)
  {
    SealedAtIsWhole(c, master, db, CheckpointIndex(db.checkpoints, checkpointId).value);
  }

  // However the ledger grows, a boundary's base stays what it was.
  lemma BaseStays(c: Crypto, master: Keyring, db: Tables, db': Tables, checkpointId: Uuid)
    requires Chain(c, master, db) && Chain(c, master, db') && Extends(db, db') && Known(db, checkpointId)
    ensures Known(db', checkpointId) && Base(db', checkpointId) == Base(db, checkpointId)
  {
    var i := CheckpointIndex(db.checkpoints, checkpointId).value;
    assert db'.checkpoints[i] == db.checkpoints[i];
    CheckpointByIdFinds(db'.checkpoints, i);
    SealedPrefix(c, master, db);
  }

  // ---- The bundle of a boundary ----

  ghost function TheEvents(b: Tables, instrumentId: string): seq<Event>
    requires b.checkpoints != []
  {
    InstrumentEvents(b.events, Boundary(b), instrumentId)
  }

  ghost function TheEntry(c: Crypto, b: Tables, e: Event): ReceiptEntry
    requires b.checkpoints != [] && e in Covered(b, |b.checkpoints| - 1)
  {
    var i := |b.checkpoints| - 1;
    IndexOfFirst(Covered(b, i), e.commitment.eventId);
    ReceiptEntry(e.sequence, TheReceipt(c, b, i, IndexOf(Covered(b, i), e.commitment.eventId).value))
  }

  ghost function TheEntries(c: Crypto, b: Tables, events: seq<Event>): (entries: seq<ReceiptEntry>)
    requires b.checkpoints != [] && (forall e | e in events :: e in Covered(b, |b.checkpoints| - 1))
    ensures |entries| == |events| && forall k | 0 <= k < |events| ::
        events[k] in events && entries[k] == TheEntry(c, b, events[k])
  {
    seq(|events|, k requires 0 <= k < |events| => (assert events[k] in events; TheEntry(c, b, events[k])))
  }

  lemma {:induction false} OfInstrumentMembers(events: seq<Event>, instrumentId: string)
    ensures forall e :: e in OfInstrument(events, instrumentId) <==>
        e in events && e.commitment.instrumentId == instrumentId
  {
    if events == [] {
    } else {
      var n := |events| - 1;
      OfInstrumentMembers(events[..n], instrumentId);
      assert events == events[..n] + [events[n]];
    }
  }

  // The package's events are exactly the instrument's events up to its boundary, which every
  // later state of the ledger still has.
  lemma TheEventsAre(c: Crypto, master: Keyring, b: Tables, db: Tables, instrumentId: string)
    requires Whole(c, master, b) && Extends(b, db)
    ensures TheEvents(b, instrumentId) == InstrumentEvents(db.events, Boundary(b), instrumentId)
    ensures forall e :: e in TheEvents(b, instrumentId) <==>
      e in db.events && e.sequence <= Boundary(b).payload.lastSequence && e.commitment.instrumentId == instrumentId
    ensures forall e | e in TheEvents(b, instrumentId) :: e in Covered(b, |b.checkpoints| - 1)
  {
    var last := Boundary(b).payload.lastSequence;
    assert LastOf(b) == last;
    UptoMembers(db.events, last);
    UptoMembers(b.events, last);
    OfInstrumentMembers(Upto(b.events, last), instrumentId);
  }

  ghost function TheBundleOf(c: Crypto, master: Keyring, b: Tables, p: Package): PackageBundle
    requires Whole(c, master, b)
  {
    ExtendsItself(b);
    TheEventsAre(c, master, b, b, p.instrumentId);
    BundleFor(p, Boundary(b), TheEntries(c, b, TheEvents(b, p.instrumentId)))
  }

  // Whatever snapshots a receipt is read from, its entry is the boundary's entry, or the
  // worker lacks one of the two keys.
  lemma EntryMade(c: Crypto, master: Keyring, b: Tables, r: Reads, e: Event, keyring: Keyring)
    requires Whole(c, master, b) && Agrees(keyring, master) && Chain(c, master, r.previous)
    requires Extends(b, r.prefix) && Extends(b, r.previous) && Extends(b, r.previousPrefix)
    requires e in Covered(b, |b.checkpoints| - 1)
    ensures MakeEntry(c, r, e, Boundary(b), keyring)
         == if KeysFor(b, |b.checkpoints| - 1, keyring) then Ok(TheEntry(c, b, e))
             else Err(ReceiptFailure(UnknownKeyVersion))
  {
    hide Chain, Extends, BuildReceiptAt, Upto, TheReceipt, Agrees, KeysFor, UniqueIds, IndexOf;
    UptoMembers(b.events, Boundary(b).payload.lastSequence);
    ReceiptAtBuilt(c, master, b, r, e, |b.checkpoints| - 1, keyring);
  }

  // Every receipt of the bundle verifies offline, and shows its own event.
  lemma TheEntryVerifies(c: Crypto, master: Keyring, b: Tables, e: Event, keyring: Keyring)
    requires Whole(c, master, b) && Agrees(keyring, master) && KeysFor(b, |b.checkpoints| - 1, keyring)
    requires e in Covered(b, |b.checkpoints| - 1)
    ensures var entry := TheEntry(c, b, e);
      entry.sequence == e.sequence && entry.receipt.event == e
          && ReceiptVerdict(c, entry.receipt, keyring) == Valid(true)
  {
    var i := |b.checkpoints| - 1;
    UptoMembers(b.events, Boundary(b).payload.lastSequence);
    CoveredIndex(b, i, e);
    var k := IndexOf(Covered(b, i), e.commitment.eventId).value;
    TheReceiptVerifies(c, master, b, i, k, keyring);
    ReceiptKeepsEvent(c, b, i, k);
    hide Chain, Covered, ReceiptVerdict, TheReceipt, UniqueIds;
  }
}
