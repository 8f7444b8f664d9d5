/** The audit package queue over whole runs: what a package is once it settles, and that every
    worker that builds it builds the same archive. */
module PackageSafety {
  import opened Wrappers
  import opened Domain
  import opened Sealing
  import opened Runs
  import opened Receipts
  import opened ReceiptProofs
  import Protocol
  import opened Packages
  import opened PackageRows
  import opened PackageMachine
  import opened PackageBoundary
  import opened PackageInvariants
  import opened PackageRuns

  ghost predicate TrustedRun(master: Keyring, steps: seq<Step>) {
    forall k | 0 <= k < |steps| :: TrustedStep(master, steps[k])
  }

  // What any number of steps may do: rows keep their identity, settled rows stay exactly as
  // they are, archives stay exactly as they are.
  ghost predicate Later(rows: Rows, rows': Rows) {
    && |rows.packages| <= |rows'.packages|
    && (forall i | 0 <= i < |rows.packages| :: SameIdentity(rows.packages[i], rows'.packages[i]))
    && (forall i | 0 <= i < |rows.packages|
        && (rows.packages[i].status.Ready? || rows.packages[i].status.Cancelled?) ::
        rows'.packages[i] == rows.packages[i])
    && (forall id | id in rows.artifacts :: id in rows'.artifacts && rows'.artifacts[id] == rows.artifacts[id])
  }

  lemma InitWorldInv(e: Environment, master: Keyring)
    ensures WorldInv(e, master, INIT_WORLD)
  {
    InitInv(e.crypto, master);
  }

  lemma EvolvesIsLater(rows: Rows, mid: Rows, rows': Rows)
    requires Later(rows, mid) && Evolves(mid, rows')
    ensures Later(rows, rows')
  {
    forall i | 0 <= i < |rows.packages|
      ensures SameIdentity(rows.packages[i], rows'.packages[i])
      ensures rows.packages[i].status.Ready? || rows.packages[i].status.Cancelled? ==>
          rows'.packages[i] == rows.packages[i]
    {
      assert Legal(mid.packages[i], rows'.packages[i]);
      assert SameIdentity(rows.packages[i], mid.packages[i]);
    }
  }

  lemma {:induction false} RunKeepsWorld(e: Environment, master: Keyring, w: World, steps: seq<Step>)
    requires WorldInv(e, master, w) && TrustedRun(master, steps)
    ensures WorldInv(e, master, Run(e, w, steps)) && Later(w.rows, Run(e, w, steps).rows)
    decreases |steps|
  {
    hide WorldInv, Work, Evolves, TrustedStep;
    if steps == [] {
    } else {
      var n := |steps| - 1;
      RunKeepsWorld(e, master, w, steps[..n]);
      StepKeepsWorld(e, master, Run(e, w, steps[..n]), steps[n]);
      hide Later;
      EvolvesIsLater(w.rows, Run(e, w, steps[..n]).rows, Run(e, w, steps).rows);
    }
  }

  lemma {:induction false} LedgerOfRun(e: Environment, master: Keyring, w: World, steps: seq<Step>)
    requires WorldInv(e, master, w) && TrustedRun(master, steps)
    ensures Extends(w.ledger.db, Run(e, w, steps).ledger.db)
    decreases |steps|
  {
    hide WorldInv, Extends, Run;
    if steps == [] {
      assert Run(e, w, steps) == w by {
        RunOfNothing(e, w);
      }
      ExtendsItself(w.ledger.db);
    } else {
      var n := |steps| - 1;
      var mid := Run(e, w, steps[..n]);
      RunKeepsWorld(e, master, w, steps[..n]);
      LedgerOfRun(e, master, w, steps[..n]);
      LedgerOfStep(e, master, mid, steps[n]);
      RunOfOneMore(e, w, steps);
      ExtendsTransitive(w.ledger.db, mid.ledger.db, Run(e, w, steps).ledger.db);
    }
  }

  lemma RunOfNothing(e: Environment, w: World)
    ensures Run(e, w, []) == w
  {
  }

  lemma RunOfOneMore(e: Environment, w: World, steps: seq<Step>)
    requires steps != []
    ensures Run(e, w, steps) == Work(e, Run(e, w, steps[..|steps| - 1]), steps[|steps| - 1])
  {
  }

  lemma LedgerOfStep(e: Environment, master: Keyring, w: World, step: Step)
    requires WorldInv(e, master, w) && TrustedStep(master, step)
    ensures Extends(w.ledger.db, Work(e, w, step).ledger.db)
  {
    ExtendsItself(w.ledger.db);
    hide Protocol.Inv, Protocol.Next, RowsAfter, ClaimsAfter, CreationsAfter, Extends, RowsOk, ContentOk, CreationOk,
        ClaimOk;
    if step.LedgerStep? {
      StepKeepsInv(e.crypto, master, w.ledger, step.step);
    }
  }

  // ---- Main results ----

  // In every run every row meets the table's constraint; ids and idempotency keys are unique;
  // an archive row exists exactly for a ready package, with the row's digest and size.
  lemma PackagesAreSound(e: Environment, master: Keyring, steps: seq<Step>, i: nat)
    requires TrustedRun(master, steps) && i < |Run(e, INIT_WORLD, steps).rows.packages|
    ensures SoundRow(e, Run(e, INIT_WORLD, steps).rows, i)
  {
    InitWorldInv(e, master);
    RunKeepsWorld(e, master, INIT_WORLD, steps);
    hide Run, WorldInv, SoundRow;
    RowIsSound(e, master, Run(e, INIT_WORLD, steps), i);
  }

  ghost predicate SoundRow(e: Environment, rows: Rows, i: nat)
    requires i < |rows.packages|
  {
    var p := rows.packages[i];
    && StateShape(p) && p.attemptCount >= 0
    && (forall j | 0 <= j < |rows.packages| && j != i ::
        rows.packages[j].packageId != p.packageId && rows.packages[j].idempotencyKey != p.idempotencyKey)
    && (p.packageId in rows.artifacts <==> p.status.Ready?)
    && (p.status.Ready? ==>
        var a := rows.artifacts[p.packageId];
        && a.sha == e.crypto.sha.hash(a.content) && a.size == |a.content.octets|
        && p.artifactSha == Some(a.sha) && p.artifactSize == Some(a.size))
  }

  lemma RowIsSound(e: Environment, master: Keyring, w: World, i: nat)
    requires WorldInv(e, master, w) && i < |w.rows.packages|
    ensures SoundRow(e, w.rows, i)
  {
    var p := w.rows.packages[i];
    assert ContentOk(e, master, w.ledger.db, w.rows, i);
    hide CreationOk, ClaimOk, TheBundleOf, Whole, Known, Base, TheEvents, Protocol.Inv;
    WellShapedMeetsConstraint(p);
    hide StateShape;
    forall j | 0 <= j < |w.rows.packages| && j != i ensures w.rows.packages[j].packageId != p.packageId
        && w.rows.packages[j].idempotencyKey != p.idempotencyKey {
      assert if j < i then w.rows.packages[j].packageId != p.packageId else p.packageId != w.rows.packages[j].packageId;
    }
  }

  // In every run a download that reads the package, and the archive at any later moment,
  // succeeds exactly when the archive was written, with what was written: the missing-archive
  // error is unreachable.
  lemma DownloadsNeverMiss(e: Environment, master: Keyring, steps: seq<Step>, later: seq<Step>, id: Uuid)
    requires TrustedRun(master, steps) && TrustedRun(master, later)
    ensures var w := Run(e, INIT_WORLD, steps);
      var download := ReadyArtifact(w.rows, Run(e, w, later).rows, id);
      && download != Err(ArtifactMissing) && (download.Ok? <==> id in w.rows.artifacts)
      && (download.Ok? ==> download.value.1 == w.rows.artifacts[id])
  {
    hide Run, RowsOk, Protocol.Inv, ContentOk, CreationOk, ClaimOk, ReadyArtifact;
    var w := Run(e, INIT_WORLD, steps);
    InitWorldInv(e, master);
    RunKeepsWorld(e, master, INIT_WORLD, steps);
    RunKeepsWorld(e, master, w, later);
    ArchiveNeverMissing(w.rows, Run(e, w, later).rows, id);
  }

  // Identity and boundary never change, ready and cancelled rows never change at all, and an
  // archive once written is never written again.
  lemma SettledForEver(e: Environment, master: Keyring, before: seq<Step>, later: seq<Step>)
    requires TrustedRun(master, before) && TrustedRun(master, later)
    ensures var w := Run(e, INIT_WORLD, before); Later(w.rows, Run(e, w, later).rows)
  {
    InitWorldInv(e, master);
    RunKeepsWorld(e, master, INIT_WORLD, before);
    hide WorldInv, Run, Later;
    RunKeepsWorld(e, master, Run(e, INIT_WORLD, before), later);
  }

  // ---- One archive, whoever builds it ----

  // One entry for each of the instrument's events inside the boundary, in sequence order, and
  // at least one.
  ghost predicate ExactlyItsEvents(db: Tables, p: Package, bundle: PackageBundle) {
    var events := InstrumentEvents(db.events, bundle.checkpoint, p.instrumentId);
    && 0 < |bundle.entries| == |events|
    && forall k | 0 <= k < |events| ::
        bundle.entries[k].sequence == events[k].sequence && bundle.entries[k].receipt.event == events[k]
  }

  // Every receipt verifies with the sealer's keys for the boundary and its predecessor.
  ghost predicate ReceiptsVerify(e: Environment, master: Keyring, db: Tables, i: nat, bundle: PackageBundle)
    requires i < |db.checkpoints|
  {
    forall k, keyring | 0 <= k < |bundle.entries| && Agrees(keyring, master) && KeysFor(db, i, keyring) ::
      ReceiptVerdict(e.crypto, bundle.entries[k].receipt, keyring) == Valid(true)
  }

  // The bundle belongs to the package and to its boundary, checkpoint i of the ledger.
  ghost predicate Describes(bundle: PackageBundle, p: Package, db: Tables, i: nat) {
    && i < |db.checkpoints| && db.checkpoints[i].payload.checkpointId == p.checkpointId
    && bundle == PackageBundle(p.packageId, p.idempotencyKey, p.instrumentId, db.checkpoints[i], bundle.entries)
  }

  lemma BaseKeys(db: Tables, i: nat, keyring: Keyring)
    requires i < |db.checkpoints|
    ensures KeysFor(SealedAt(db, i), i, keyring) <==> KeysFor(db, i, keyring)
  {
  }

  lemma BundleVerifies(e: Environment, master: Keyring, db: Tables, i: nat, p: Package)
    requires i < |db.checkpoints| && Whole(e.crypto, master, SealedAt(db, i))
    ensures ReceiptsVerify(e, master, db, i, TheBundleOf(e.crypto, master, SealedAt(db, i), p))
    ensures forall k | 0 <= k < |TheEvents(SealedAt(db, i), p.instrumentId)| ::
      var bundle, event := TheBundleOf(e.crypto, master, SealedAt(db, i), p),
          TheEvents(SealedAt(db, i), p.instrumentId)[k];
      bundle.entries[k].sequence == event.sequence && bundle.entries[k].receipt.event == event
  {
    var b := SealedAt(db, i);
    ExtendsItself(b);
    TheEventsAre(e.crypto, master, b, b, p.instrumentId);
    var events := TheEvents(b, p.instrumentId);
    hide Covered, TheEvents, Chain, Extends, ReceiptVerdict, Agrees, KeysFor, UniqueIds, TheEntry;
    forall k, keyring | 0 <= k < |events| && Agrees(keyring, master) && KeysFor(db, i, keyring)
      ensures ReceiptVerdict(e.crypto, TheBundleOf(e.crypto, master, b, p).entries[k].receipt, keyring) == Valid(true)
    {
      BaseKeys(db, i, keyring);
      assert events[k] in events;
      TheEntryVerifies(e.crypto, master, b, events[k], keyring);
    }
    forall k | 0 <= k < |events|
      ensures TheBundleOf(e.crypto, master, b, p).entries[k].sequence == events[k].sequence
      ensures TheBundleOf(e.crypto, master, b, p).entries[k].receipt.event == events[k]
    {
      assert events[k] in events;
      TheEntryShows(e.crypto, master, b, events[k]);
    }
  }

  lemma TheEntryShows(c: Crypto, master: Keyring, b: Tables, event: Event)
    requires Whole(c, master, b) && event in Covered(b, |b.checkpoints| - 1)
    ensures TheEntry(c, b, event).sequence == event.sequence && TheEntry(c, b, event).receipt.event == event
  {
    var i := |b.checkpoints| - 1;
    UptoMembers(b.events, Boundary(b).payload.lastSequence);
    CoveredIndex(b, i, event);
    hide Covered, Chain, UniqueIds, TheReceipt;
    ReceiptKeepsEvent(c, b, i, IndexOf(Covered(b, i), event.commitment.eventId).value);
  }

  // In every run a ready package's archive is the rendering of one bundle, which holds exactly
  // the instrument's events inside its boundary, counts them, and verifies offline.
  lemma ReadyArchiveHolds(e: Environment, master: Keyring, steps: seq<Step>, i: nat)
    requires TrustedRun(master, steps) && i < |Run(e, INIT_WORLD, steps).rows.packages|
    requires Run(e, INIT_WORLD, steps).rows.packages[i].status.Ready?
    ensures var w := Run(e, INIT_WORLD, steps);
      var p := w.rows.packages[i];
      p.packageId in w.rows.artifacts && exists bundle, k ::
        && Describes(bundle, p, w.ledger.db, k)
        && w.rows.artifacts[p.packageId].content == e.renderer.zip(bundle)
        && p.eventCount == Some(|bundle.entries|)
        && ExactlyItsEvents(w.ledger.db, p, bundle)
        && ReceiptsVerify(e, master, w.ledger.db, k, bundle)
  {
    hide Run, WorldInv, Describes, ExactlyItsEvents, ReceiptsVerify;
    InitWorldInv(e, master);
    RunKeepsWorld(e, master, INIT_WORLD, steps);
    ReadyRowHolds(e, master, Run(e, INIT_WORLD, steps), i);
  }

  lemma ReadyRowHolds(e: Environment, master: Keyring, w: World, i: nat)
    requires WorldInv(e, master, w) && i < |w.rows.packages| && w.rows.packages[i].status.Ready?
    ensures var p := w.rows.packages[i];
      p.packageId in w.rows.artifacts && exists bundle, k ::
        && Describes(bundle, p, w.ledger.db, k)
        && w.rows.artifacts[p.packageId].content == e.renderer.zip(bundle)
        && p.eventCount == Some(|bundle.entries|)
        && ExactlyItsEvents(w.ledger.db, p, bundle)
        && ReceiptsVerify(e, master, w.ledger.db, k, bundle)
  {
    hide RowsOk, CreationOk, ClaimOk, Protocol.Inv, Whole, Extends, TheEvents, InstrumentEvents, ReceiptsVerify,
        TheBundleOf, UniqueIds, Chain, Base, ExactlyItsEvents, Describes;
    var p, db := w.rows.packages[i], w.ledger.db;
    SoundLedger(e.crypto, master, w.ledger);
    assert ContentOk(e, master, db, w.rows, i);
    var bundle := TheBundleOf(e.crypto, master, Base(db, p.checkpointId), p);
    var k := BoundBundle(e, master, db, p);
    assert Describes(bundle, p, db, k) && ExactlyItsEvents(db, p, bundle);
  }

  lemma BoundBundle(e: Environment, master: Keyring, db: Tables, p: Package) returns (k: nat)
    requires Chain(e.crypto, master, db) && UniqueIds(db.events) && Bound(db, p)
        && Whole(e.crypto, master, Base(db, p.checkpointId))
    ensures var bundle := TheBundleOf(e.crypto, master, Base(db, p.checkpointId), p);
      && Describes(bundle, p, db, k) && ExactlyItsEvents(db, p, bundle) && ReceiptsVerify(e, master, db, k, bundle)
  {
    hide Whole, Extends, TheEvents, InstrumentEvents, ReceiptsVerify, UniqueIds, Chain, SealedAt, Covered, TheEntries;
    var b := Base(db, p.checkpointId);
    k := CheckpointIndex(db.checkpoints, p.checkpointId).value;
    BundleVerifies(e, master, db, k, p);
    BaseIsWhole(e.crypto, master, db, p.checkpointId);
    TheEventsAre(e.crypto, master, b, db, p.instrumentId);
  }

  // Two workers that rendered the same package, at any two moments of a run and from any
  // snapshots, rendered the same bundle.
  lemma EveryWorkerBuildsTheSame(e: Environment, master: Keyring, before: seq<Step>, later: seq<Step>, n: nat, m: nat)
    requires TrustedRun(master, before) && TrustedRun(master, later)
    requires var w := Run(e, INIT_WORLD, before); n in w.claims && w.claims[n].phase.Rendered?
    requires var w' := Run(e, Run(e, INIT_WORLD, before), later); m in w'.claims && w'.claims[m].phase.Rendered?
    requires Run(e, INIT_WORLD, before).claims[n].row == Run(e, Run(e, INIT_WORLD, before), later).claims[m].row
    ensures Run(e, INIT_WORLD, before).claims[n].phase.bundle
        == Run(e, Run(e, INIT_WORLD, before), later).claims[m].phase.bundle
  {
    var w := Run(e, INIT_WORLD, before);
    var w' := Run(e, w, later);
    InitWorldInv(e, master);
    RunKeepsWorld(e, master, INIT_WORLD, before);
    RunKeepsWorld(e, master, w, later);
    LedgerOfRun(e, master, w, later);
    hide Run;
    SameBundle(e, master, w, w', n, m);
  }

  lemma SameBundle(e: Environment, master: Keyring, w: World, w': World, n: nat, m: nat)
    requires WorldInv(e, master, w) && WorldInv(e, master, w') && Later(w.rows, w'.rows)
        && Extends(w.ledger.db, w'.ledger.db)
    requires n in w.claims && w.claims[n].phase.Rendered? && m in w'.claims && w'.claims[m].phase.Rendered?
    requires w.claims[n].row == w'.claims[m].row
    ensures w.claims[n].phase.bundle == w'.claims[m].phase.bundle
  {
    var p, p' := w.claims[n].package, w'.claims[m].package;
    RenderedBundle(e, master, w, n);
    RenderedBundle(e, master, w', m);
    hide WorldInv;
    BaseStaysInWorld(e, master, w, w', p.checkpointId);
    hide Later, Extends, Base, Known, SameIdentity;
    SameClaimed(w.rows, w'.rows, w.claims[n], w'.claims[m]);
    SameBundleOf(e.crypto, master, Base(w.ledger.db, p.checkpointId), p, p');
  }

  lemma RenderedBundle(e: Environment, master: Keyring, w: World, n: nat)
    requires WorldInv(e, master, w) && n in w.claims && w.claims[n].phase.Rendered?
    ensures var claim := w.claims[n];
      && claim.row < |w.rows.packages| && SameIdentity(w.rows.packages[claim.row], claim.package)
      && Known(w.ledger.db, claim.package.checkpointId)
          && Whole(e.crypto, master, Base(w.ledger.db, claim.package.checkpointId))
      && claim.phase.bundle == TheBundleOf(e.crypto, master, Base(w.ledger.db, claim.package.checkpointId),
          claim.package)
  {
    assert ClaimOk(e.crypto, master, w.ledger.db, w.rows.packages, w.claims[n]);
    hide Protocol.Inv, RowsOk, ContentOk, CreationOk, Base, Known, Whole, TheBundleOf, SameIdentity;
  }

  lemma BaseStaysInWorld(e: Environment, master: Keyring, w: World, w': World, checkpointId: Uuid)
    requires WorldInv(e, master, w) && WorldInv(e, master, w') && Extends(w.ledger.db, w'.ledger.db)
        && Known(w.ledger.db, checkpointId)
    ensures Known(w'.ledger.db, checkpointId) && Base(w'.ledger.db, checkpointId) == Base(w.ledger.db, checkpointId)
  {
    hide RowsOk, ContentOk, CreationOk, ClaimOk, Extends, Known, Base, Chain, Protocol.Numbering, Protocol.Unique,
        Protocol.Lineages, Protocol.SealerAlone;
    BaseStays(e.crypto, master, w.ledger.db, w'.ledger.db, checkpointId);
  }

  lemma SameClaimed(rows: Rows, rows': Rows, claim: Claim, claim': Claim)
    requires Later(rows, rows') && claim.row == claim'.row < |rows.packages|
    requires SameIdentity(rows.packages[claim.row], claim.package)
        && SameIdentity(rows'.packages[claim.row], claim'.package)
    ensures SameIdentity(claim.package, claim'.package)
  {
    assert SameIdentity(rows.packages[claim.row], rows'.packages[claim.row]);
  }

  lemma SameBundleOf(c: Crypto, master: Keyring, b: Tables, p: Package, p': Package)
    requires Whole(c, master, b) && SameIdentity(p, p')
    ensures TheBundleOf(c, master, b, p) == TheBundleOf(c, master, b, p')
  {
  }

  // In every run the only failures a build meets, or a row records, are a key its keyring
  // lacks and a defect of its own: the boundary is never missing, empty or corrupt.
  lemma OnlyKnownFailures(e: Environment, master: Keyring, steps: seq<Step>)
    requires TrustedRun(master, steps)
    ensures var w := Run(e, INIT_WORLD, steps);
      && (forall n | n in w.claims && w.claims[n].phase.Broken? :: KnownFailure(w.claims[n].phase.code))
      && (forall i | 0 <= i < |w.rows.packages| && w.rows.packages[i].status.Failed? ::
            w.rows.packages[i].failureCode.Some? && KnownFailure(w.rows.packages[i].failureCode.value))
  {
    var w := Run(e, INIT_WORLD, steps);
    InitWorldInv(e, master);
    RunKeepsWorld(e, master, INIT_WORLD, steps);
    hide Run, WorldInv, KnownFailure;
    forall n | n in w.claims && w.claims[n].phase.Broken? ensures KnownFailure(w.claims[n].phase.code) {
      BuildFailureKnown(e, master, w, n);
    }
    forall i | 0 <= i < |w.rows.packages| && w.rows.packages[i].status.Failed?
      ensures w.rows.packages[i].failureCode.Some? && KnownFailure(w.rows.packages[i].failureCode.value)
    {
      RowFailureKnown(e, master, w, i);
    }
  }

  lemma BuildFailureKnown(e: Environment, master: Keyring, w: World, n: nat)
    requires WorldInv(e, master, w) && n in w.claims && w.claims[n].phase.Broken?
    ensures KnownFailure(w.claims[n].phase.code)
  {
    hide RowsOk, CreationOk, ContentOk, Protocol.Inv, KnownFailure, Base, Known, Whole, SameIdentity, CollectedOk,
        SnapshotsOk, TheEvents, TheBundleOf;
    assert ClaimOk(e.crypto, master, w.ledger.db, w.rows.packages, w.claims[n]);
  }

  lemma RowFailureKnown(e: Environment, master: Keyring, w: World, i: nat)
    requires WorldInv(e, master, w) && i < |w.rows.packages| && w.rows.packages[i].status.Failed?
    ensures w.rows.packages[i].failureCode.Some? && KnownFailure(w.rows.packages[i].failureCode.value)
  {
    hide RowsOk, CreationOk, ClaimOk, Protocol.Inv, KnownFailure, Bound, Base, Known, Whole, TheArchive;
    assert ContentOk(e, master, w.ledger.db, w.rows, i);
  }

  // The events counted when a package was created, or at any moment since its boundary was
  // sealed, are as many as its archive holds.
  lemma CountNeverChanges(e: Environment, master: Keyring, before: seq<Step>, later: seq<Step>, k: nat, i: nat)
    requires TrustedRun(master, before) && TrustedRun(master, later)
    requires k < |Run(e, INIT_WORLD, before).ledger.db.checkpoints|
    requires var w' := Run(e, Run(e, INIT_WORLD, before), later);
      && i < |w'.rows.packages| && w'.rows.packages[i].status.Ready?
      && w'.rows.packages[i].checkpointId == Run(e, INIT_WORLD, before).ledger.db.checkpoints[k].payload.checkpointId
    ensures var db := Run(e, INIT_WORLD, before).ledger.db;
      var p := Run(e, Run(e, INIT_WORLD, before), later).rows.packages[i];
      p.eventCount == Some(|InstrumentEvents(db.events, db.checkpoints[k], p.instrumentId)|) && p.eventCount != Some(0)
  {
    var w := Run(e, INIT_WORLD, before);
    var w' := Run(e, w, later);
    InitWorldInv(e, master);
    RunKeepsWorld(e, master, INIT_WORLD, before);
    RunKeepsWorld(e, master, w, later);
    LedgerOfRun(e, master, w, later);
    hide Run;
    CountOfBase(e, master, w, w', k, i);
  }

  lemma CountOfBase(e: Environment, master: Keyring, w: World, w': World, k: nat, i: nat)
    requires WorldInv(e, master, w) && WorldInv(e, master, w') && Extends(w.ledger.db, w'.ledger.db)
    requires k < |w.ledger.db.checkpoints| && i < |w'.rows.packages| && w'.rows.packages[i].status.Ready?
    requires w'.rows.packages[i].checkpointId == w.ledger.db.checkpoints[k].payload.checkpointId
    ensures var p := w'.rows.packages[i];
      p.eventCount == Some(|InstrumentEvents(w.ledger.db.events, w.ledger.db.checkpoints[k], p.instrumentId)|)
          && p.eventCount != Some(0)
  {
    var p, db := w'.rows.packages[i], w.ledger.db;
    assert ContentOk(e, master, w'.ledger.db, w'.rows, i);
    CheckpointByIdFinds(db.checkpoints, k);
    BaseStays(e.crypto, master, db, w'.ledger.db, p.checkpointId);
    InvUniqueIds(e.crypto, master, w.ledger);
    SealedAtIsWhole(e.crypto, master, db, k);
    TheEventsAre(e.crypto, master, SealedAt(db, k), db, p.instrumentId);
    hide Protocol.Inv, RowsOk, CreationOk, ClaimOk, Extends, Whole, TheEvents, InstrumentEvents, SealedAt, UniqueIds;
  }

  // ---- Counting ----

  // This step claims row i, or writes row i's archive.
  ghost predicate Claims(w: World, step: Step, i: nat) {
    step.TakeClaim? && step.n !in w.claims && Candidate(w.rows.packages, step.now, step.locked) == Some(i)
  }

  ghost predicate Writes(w: World, step: Step, i: nat) {
    && step.Finish? && step.n in w.claims && w.claims[step.n].phase.Rendered?
        && w.claims[step.n].row == i < |w.rows.packages|
    && w.rows.packages[i].status.Building? && w.rows.packages[i].leaseOwner == w.claims[step.n].package.leaseOwner
  }

  ghost function ClaimCount(e: Environment, w: World, steps: seq<Step>, i: nat): nat {
    if steps == [] then 0
    else
      var n := |steps| - 1;
      ClaimCount(e, w, steps[..n], i) + if Claims(Run(e, w, steps[..n]), steps[n], i) then 1 else 0
  }

  ghost function WriteCount(e: Environment, w: World, steps: seq<Step>, i: nat): nat {
    if steps == [] then 0
    else
      var n := |steps| - 1;
      WriteCount(e, w, steps[..n], i) + if Writes(Run(e, w, steps[..n]), steps[n], i) then 1 else 0
  }

  ghost function Attempts(rows: Rows, i: nat): int {
    if i < |rows.packages| then rows.packages[i].attemptCount else 0
  }

  ghost function ReadyOnce(rows: Rows, i: nat): nat {
    if i < |rows.packages| && rows.packages[i].status.Ready? then 1 else 0
  }

  lemma StepCounts(e: Environment, master: Keyring, w: World, step: Step, i: nat)
    requires WorldInv(e, master, w)
    ensures Attempts(Work(e, w, step).rows, i) == Attempts(w.rows, i) + if Claims(w, step, i) then 1 else 0
    ensures ReadyOnce(Work(e, w, step).rows, i) == ReadyOnce(w.rows, i) + if Writes(w, step, i) then 1 else 0
  {
    assert RowsOk(w.rows);
    hide Attempts, ReadyOnce, Claims, Writes, WorldInv;
    if step.Insert? {
      InsertCounts(e, master, w, step, i);
    } else if step.Finish? {
      FinishCounts(e, w, step, i);
    } else {
      OtherCounts(e, master, w, step, i);
    }
  }

  lemma InsertCounts(e: Environment, master: Keyring, w: World, step: Step, i: nat)
    requires WorldInv(e, master, w) && step.Insert?
    ensures Attempts(Work(e, w, step).rows, i) == Attempts(w.rows, i)
        && ReadyOnce(Work(e, w, step).rows, i) == ReadyOnce(w.rows, i)
    ensures !Claims(w, step, i) && !Writes(w, step, i)
  {
    hide Protocol.Inv, ContentOk, ClaimOk, CreationOk, RowsOk;
    if step.t in w.creations && w.creations[step.t].Drafted? {
      assert CreationOk(w.ledger.db, w.creations[step.t]);
      DraftIsPending(w.ledger.db, w.creations[step.t]);
    }
  }

  lemma FinishCounts(e: Environment, w: World, step: Step, i: nat)
    requires step.Finish? && RowsOk(w.rows)
    ensures Attempts(Work(e, w, step).rows, i) == Attempts(w.rows, i) && !Claims(w, step, i)
    ensures ReadyOnce(Work(e, w, step).rows, i) == ReadyOnce(w.rows, i) + if Writes(w, step, i) then 1 else 0
  {
    hide BuildArchive, WellShaped, UniqueRows;
  }

  lemma OtherCounts(e: Environment, master: Keyring, w: World, step: Step, i: nat)
    requires !step.Insert? && !step.Finish? && WorldInv(e, master, w)
    ensures Attempts(Work(e, w, step).rows, i) == Attempts(w.rows, i) + if Claims(w, step, i) then 1 else 0
    ensures ReadyOnce(Work(e, w, step).rows, i) == ReadyOnce(w.rows, i) && !Writes(w, step, i)
  {
    var rows' := RowsAfter(e, w, step);
    StepKeepsRows(e, master, w, step);
    OtherMoves(e, w, step, i);
    hide WorldInv, RowsOk, RowsAfter, Claims, Writes, ClaimsAfter, CreationsAfter, SameIdentity;
    if i < |w.rows.packages| {
      assert Legal(w.rows.packages[i], rows'.packages[i]);
    }
  }

  // Only a claim makes a row build, and only a finished build makes it ready.
  lemma OtherMoves(e: Environment, w: World, step: Step, i: nat)
    requires !step.Insert? && !step.Finish?
    ensures !Writes(w, step, i)
    ensures var rows' := RowsAfter(e, w, step);
      && |rows'.packages| == |w.rows.packages|
      && (Claims(w, step, i) <==>
          i < |w.rows.packages| && rows'.packages[i] != w.rows.packages[i] && rows'.packages[i].status.Building?)
      && (i < |w.rows.packages| && rows'.packages[i].status.Ready? ==> rows'.packages[i] == w.rows.packages[i])
  {
    match step
    case TakeClaim(_, _, _, now, locked) => CandidateIsFirst(w.rows.packages, now, locked);
    case _ =>
  }

  // In every run a row's attempt count is the number of claims that took it, and its archive
  // has been written exactly once if it is ready and never otherwise.
  lemma {:induction false} CountsAreExact(e: Environment, master: Keyring, steps: seq<Step>, i: nat)
    requires TrustedRun(master, steps)
    ensures Attempts(Run(e, INIT_WORLD, steps).rows, i) == ClaimCount(e, INIT_WORLD, steps, i)
    ensures ReadyOnce(Run(e, INIT_WORLD, steps).rows, i) == WriteCount(e, INIT_WORLD, steps, i)
    decreases |steps|
  {
    hide Claims, Writes, Work, TrustedStep;
    if steps == [] {
    } else {
      var n := |steps| - 1;
      CountsAreExact(e, master, steps[..n], i);
      InitWorldInv(e, master);
      RunKeepsWorld(e, master, INIT_WORLD, steps[..n]);
      hide Attempts, ReadyOnce, WorldInv;
      StepCounts(e, master, Run(e, INIT_WORLD, steps[..n]), steps[n], i);
    }
  }
}
