/** What every step of the package queue keeps, whoever takes it and however late. */
module PackageInvariants {
  import opened Wrappers
  import opened Domain
  import opened Sealing
  import opened Runs
  import opened ReceiptProofs
  import Protocol
  import opened Packages
  import opened PackageRows
  import opened PackageMachine
  import opened PackageBoundary

  // The package's boundary is a committed checkpoint and holds events of its instrument.
  ghost predicate Bound(db: Tables, p: Package) {
    Known(db, p.checkpointId) && TheEvents(Base(db, p.checkpointId), p.instrumentId) != []
  }

  ghost predicate KnownFailure(code: FailureCode) {
    code == ReceiptFailure(UnknownKeyVersion) || code == AuditExportFailed
  }

  ghost predicate CreationOk(db: Tables, creation: Creation) {
    match creation
    case Chosen(_, _, _, boundary) =>
      Known(db, boundary.payload.checkpointId) && Boundary(Base(db, boundary.payload.checkpointId)) == boundary
    case Drafted(_, draft) =>
      WellShaped(draft) && draft.status == Status.Pending && draft.attemptCount == 0 && Bound(db, draft)
  }

  ghost predicate CollectedOk(c: Crypto, b: Tables, events: seq<Event>, entries: seq<ReceiptEntry>)
    requires b.checkpoints != []
  {
    && |entries| <= |events|
    && (forall k | 0 <= k < |events| :: events[k] in Covered(b, |b.checkpoints| - 1))
    && (forall k | 0 <= k < |entries| :: entries[k] == TheEntry(c, b, events[k]))
  }

  ghost predicate SnapshotsOk(c: Crypto, master: Keyring, b: Tables, snapshots: seq<Tables>) {
    |snapshots| <= 3 && forall k | 0 <= k < |snapshots| :: Chain(c, master, snapshots[k]) && Extends(b, snapshots[k])
  }

  // A build has only ever collected what its boundary holds.
  ghost predicate PhaseOk(c: Crypto, master: Keyring, b: Tables, p: Package, phase: Phase)
    requires Whole(c, master, b)
  {
    match phase
    case Started => true
    case Bounded(boundary) => boundary == Boundary(b)
    case Collecting(boundary, events, entries, snapshots) =>
      && boundary == Boundary(b)
      && events == TheEvents(b, p.instrumentId)
      && CollectedOk(c, b, events, entries) && SnapshotsOk(c, master, b, snapshots)
    case Rendered(bundle) => bundle == TheBundleOf(c, master, b, p)
    case CancelSeen => true
    case Broken(code) => KnownFailure(code)
  }

  ghost predicate ClaimOk(c: Crypto, master: Keyring, db: Tables, packages: seq<Package>, claim: Claim) {
    && claim.row < |packages| && SameIdentity(packages[claim.row], claim.package)
    && Known(db, claim.package.checkpointId)
    && Whole(c, master, Base(db, claim.package.checkpointId))
    && PhaseOk(c, master, Base(db, claim.package.checkpointId), claim.package, claim.phase)
  }

  // The one archive a package can ever have.
  ghost function TheArchive(e: Environment, master: Keyring, b: Tables, p: Package): Archive
    requires Whole(e.crypto, master, b)
  {
    BuildArchive(e.crypto.sha, e.renderer, TheBundleOf(e.crypto, master, b, p))
  }

  ghost predicate Holds(a: Artifact, p: Package, archive: Archive) {
    && a.content == archive.content && a.sha == archive.sha && a.size == archive.size
    && p.artifactSha == Some(archive.sha) && p.artifactSize == Some(archive.size)
        && p.eventCount == Some(archive.eventCount)
  }

  ghost predicate ContentOk(e: Environment, master: Keyring, db: Tables, rows: Rows, i: nat)
    requires i < |rows.packages|
  {
    var p := rows.packages[i];
    && Bound(db, p) && Whole(e.crypto, master, Base(db, p.checkpointId))
    && (p.status.Failed? ==> p.failureCode.Some? && KnownFailure(p.failureCode.value))
    && (p.status.Ready? ==>
        p.packageId in rows.artifacts
        && Holds(rows.artifacts[p.packageId], p, TheArchive(e, master, Base(db, p.checkpointId), p)))
  }

  ghost predicate WorldInv(e: Environment, master: Keyring, w: World) {
    && Protocol.Inv(e.crypto, master, w.ledger)
    && RowsOk(w.rows)
    && (forall i | 0 <= i < |w.rows.packages| :: ContentOk(e, master, w.ledger.db, w.rows, i))
    && (forall t | t in w.creations :: CreationOk(w.ledger.db, w.creations[t]))
    && (forall n | n in w.claims :: ClaimOk(e.crypto, master, w.ledger.db, w.rows.packages, w.claims[n]))
  }

  // Every sealer and every worker knows each key version by the key it was issued with.
  ghost predicate TrustedStep(master: Keyring, step: Step) {
    && (step.LedgerStep? && step.step.SealRead? ==> Agrees(step.step.config.keyring, master))
    && (step.MakeReceipt? ==> Agrees(step.keyring, master))
  }

  // ---- The ledger grows ----

  lemma ContentStays(e: Environment, master: Keyring, db: Tables, db': Tables, rows: Rows, i: nat)
    requires Chain(e.crypto, master, db) && Chain(e.crypto, master, db') && Extends(db, db')
    requires i < |rows.packages| && ContentOk(e, master, db, rows, i)
    ensures ContentOk(e, master, db', rows, i)
  {
    BaseStays(e.crypto, master, db, db', rows.packages[i].checkpointId);
    hide Extends, Chain, Whole, Base, Known, TheEvents, TheArchive, Holds;
  }

  lemma CreationStays(c: Crypto, master: Keyring, db: Tables, db': Tables, creation: Creation)
    requires Chain(c, master, db) && Chain(c, master, db') && Extends(db, db') && CreationOk(db, creation)
    ensures CreationOk(db', creation)
  {
    BaseStays(c, master, db, db', if creation.Chosen? then creation.boundary.payload.checkpointId
        else creation.draft.checkpointId);
    hide Extends, Chain, Base, Known, TheEvents, WellShaped;
  }

  lemma ClaimStays(c: Crypto, master: Keyring, db: Tables, db': Tables, packages: seq<Package>, claim: Claim)
    requires Chain(c, master, db) && Chain(c, master, db') && Extends(db, db')
        && ClaimOk(c, master, db, packages, claim)
    ensures ClaimOk(c, master, db', packages, claim)
  {
    BaseStays(c, master, db, db', claim.package.checkpointId);
    hide Extends, Chain, Whole, Base, Known, PhaseOk, SameIdentity;
  }

  lemma LedgerKeepsWorld(e: Environment, master: Keyring, w: World, step: Step)
    requires WorldInv(e, master, w) && step.LedgerStep? && TrustedStep(master, step)
    ensures WorldInv(e, master, Work(e, w, step))
  {
    hide Extends, Chain, RowsOk, Protocol.Next, Protocol.Inv, ContentOk, CreationOk, ClaimOk, Work, RowsAfter,
        ClaimsAfter, CreationsAfter;
    var db, ledger' := w.ledger.db, Protocol.Next(e.crypto, w.ledger, step.step);
    var db' := ledger'.db;
    StepKeepsInv(e.crypto, master, w.ledger, step.step);
    SoundLedger(e.crypto, master, w.ledger);
    SoundLedger(e.crypto, master, ledger');
    LedgerStepOnly(e, w, step);
    forall i | 0 <= i < |w.rows.packages| ensures ContentOk(e, master, db', w.rows, i) {
      ContentStays(e, master, db, db', w.rows, i);
    }
    forall t | t in w.creations ensures CreationOk(db', w.creations[t]) {
      CreationStays(e.crypto, master, db, db', w.creations[t]);
    }
    forall n | n in w.claims ensures ClaimOk(e.crypto, master, db', w.rows.packages, w.claims[n]) {
      ClaimStays(e.crypto, master, db, db', w.rows.packages, w.claims[n]);
    }
  }

  lemma LedgerStepOnly(e: Environment, w: World, step: Step)
    requires step.LedgerStep?
    ensures Work(e, w, step) == w.(ledger := Protocol.Next(e.crypto, w.ledger, step.step))
  {
    hide Protocol.Next;
  }

  lemma SoundLedger(c: Crypto, master: Keyring, s: Protocol.System)
    requires Protocol.Inv(c, master, s)
    ensures Chain(c, master, s.db) && UniqueIds(s.db.events)
  {
    ChainOfLedger(c, master, s);
    InvUniqueIds(c, master, s);
  }

  // ---- Transactions on the rows ----

  lemma StepKeepsRows(e: Environment, master: Keyring, w: World, step: Step)
    requires WorldInv(e, master, w)
    ensures RowsOk(RowsAfter(e, w, step)) && Evolves(w.rows, RowsAfter(e, w, step))
  {
    var rows := w.rows;
    LegalIsReflexive(rows);
    hide RowsOk, Evolves, ContentOk, ClaimOk, Protocol.Inv, InsertPackage, ClaimPackage, SettleStale, FinishBuild,
        FinishCancelled, FailOrCancel, RequestRetry, CancelPackage, BuildArchive;
    match step
    case Insert(t) =>
      if t in w.creations && w.creations[t].Drafted? {
        InsertKeepsRows(rows, w.creations[t].draft, w.creations[t].asked);
      }
    case TakeClaim(n, worker, lease, now, locked) => ClaimKeepsRows(rows, worker, lease, now, locked);
    case SettleCancelling(now, locked) => SettleKeepsRows(rows, now, locked);
    case Finish(n, now) =>
      if n in w.claims && w.claims[n].phase.Rendered? {
        FinishKeepsRows(rows, w.claims[n].row, w.claims[n].package.leaseOwner,
            BuildArchive(e.crypto.sha, e.renderer, w.claims[n].phase.bundle), now);
      }
    case ConfirmCancel(n, now) =>
      if n in w.claims {
        CancelledKeepsRows(rows, w.claims[n].row, w.claims[n].package.leaseOwner, now);
      }
    case RecordFailure(n, reason, now) =>
      if n in w.claims && w.claims[n].phase.Broken? {
        FailKeepsRows(rows, w.claims[n].row, w.claims[n].package.leaseOwner, w.claims[n].phase.code, reason, now);
      }
    case Retry(id, now) => RetryKeepsRows(rows, id, now);
    case Cancel(id, now) => CancelKeepsRows(rows, id, now);
    case _ =>
  }

  // Rows that are ready or failed after the step were so before, with the same archives.
  ghost predicate Quiet(rows: Rows, rows': Rows) {
    && rows'.artifacts == rows.artifacts && |rows'.packages| == |rows.packages|
    && forall i | 0 <= i < |rows.packages| && (rows'.packages[i].status.Ready? || rows'.packages[i].status.Failed?) ::
        rows'.packages[i] == rows.packages[i]
  }

  lemma StepIsQuiet(e: Environment, w: World, step: Step)
    requires !step.Insert? && !step.Finish? && !step.RecordFailure?
    ensures Quiet(w.rows, RowsAfter(e, w, step))
  {
    hide FinishBuild, FailOrCancel, InsertPackage;
    match step
    case TakeClaim(_, _, _, now, locked) => CandidateIsFirst(w.rows.packages, now, locked);
    case _ =>
  }

  // Boundaries follow the row; so does everything else for rows that are neither ready nor failed.
  lemma QuietKeepsContent(e: Environment, master: Keyring, db: Tables, rows: Rows, rows': Rows, i: nat)
    requires Quiet(rows, rows') && i < |rows.packages| && Legal(rows.packages[i], rows'.packages[i])
        && ContentOk(e, master, db, rows, i)
    ensures ContentOk(e, master, db, rows', i)
  {
    hide Whole, TheArchive, Known, Base, TheEvents;
  }

  // The archive depends on the row's fixed fields only.
  lemma SameArchive(e: Environment, master: Keyring, b: Tables, p: Package, p': Package)
    requires Whole(e.crypto, master, b) && SameIdentity(p, p')
    ensures TheArchive(e, master, b, p) == TheArchive(e, master, b, p')
  {
  }

  lemma FinishKeepsContent(e: Environment, master: Keyring, db: Tables, rows: Rows, k: nat, owner: Option<string>,
      archive: Archive, now: Time, i: nat)
    requires UniqueRows(rows.packages) && k < |rows.packages| && i < |rows.packages|
    requires ContentOk(e, master, db, rows, i)
    requires i == k ==> archive == TheArchive(e, master, Base(db, rows.packages[k].checkpointId), rows.packages[k])
    ensures |FinishBuild(rows, k, owner, archive, now).0.packages| == |rows.packages|
    ensures ContentOk(e, master, db, FinishBuild(rows, k, owner, archive, now).0, i)
  {
    hide Whole, TheArchive, Known, Base, TheEvents, UniqueRows, KnownFailure, SameIdentity;
    var p := rows.packages[k];
    if i == k {
      IdentityKept(p, archive, now);
      SameArchive(e, master, Base(db, p.checkpointId), p, Finished(p, archive, now));
    } else {
      OtherPackage(rows.packages, i, k);
    }
  }

  lemma IdentityKept(p: Package, archive: Archive, now: Time)
    ensures SameIdentity(p, Finished(p, archive, now)) && SameIdentity(p, ApplyCancelled(p, now))
  {
  }

  lemma OtherPackage(packages: seq<Package>, i: nat, k: nat)
    requires UniqueRows(packages) && i < |packages| && k < |packages| && i != k
    ensures packages[i].packageId != packages[k].packageId
  {
    assert if i < k then packages[i].packageId != packages[k].packageId
        else packages[k].packageId != packages[i].packageId;
  }

  lemma FailKeepsContent(e: Environment, master: Keyring, db: Tables, rows: Rows, k: nat, owner: Option<string>,
      code: FailureCode, reason: string, now: Time, i: nat)
    requires i < |rows.packages| && ContentOk(e, master, db, rows, i) && KnownFailure(code)
    ensures |FailOrCancel(rows, k, owner, code, reason, now).0.packages| == |rows.packages|
    ensures ContentOk(e, master, db, FailOrCancel(rows, k, owner, code, reason, now).0, i)
  {
    hide Whole, TheArchive, Known, Base, TheEvents, KnownFailure, Holds;
  }

  lemma InsertKeepsContent(e: Environment, master: Keyring, db: Tables, rows: Rows, draft: Package,
      asked: Option<Uuid>, i: nat)
    requires i < |InsertPackage(rows, draft, asked).0.packages|
    requires i < |rows.packages| ==> ContentOk(e, master, db, rows, i)
    requires draft.status == Status.Pending && Bound(db, draft) && Whole(e.crypto, master, Base(db, draft.checkpointId))
    ensures ContentOk(e, master, db, InsertPackage(rows, draft, asked).0, i)
  {
    hide Whole, TheArchive, Known, Base, TheEvents, KnownFailure, Holds;
  }
}
