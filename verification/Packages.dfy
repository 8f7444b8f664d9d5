/** The audit package row (src/ledger/models.py:84-156) and the transactions that change it
    (src/ledger/audit/service.py). A row's position stands for its primary key; each function
    below is one transaction under the row's lock. */
module Packages {
  import opened Lookup
  import opened Wrappers
  import opened Hashing
  import opened Domain
  import opened Receipts
  import Sealing

  datatype Status = Pending | Building | Ready | Failed | Cancelling | Cancelled
  datatype FailureCode = ReceiptFailure(error: LedgerError) | AuditBoundaryEmpty | AuditExportFailed

  datatype Package = Package(
    packageId: Uuid, idempotencyKey: string, fingerprint: Bytes, instrumentId: string, checkpointId: Uuid,
    status: Status, attemptCount: int, leaseOwner: Option<string>, leaseExpires: Option<Time>,
    failureCode: Option<FailureCode>, failureReason: Option<string>,
    artifactSha: Option<Bytes>, artifactSize: Option<int>, eventCount: Option<int>,
    createdAt: Time, updatedAt: Time, readyAt: Option<Time>, failedAt: Option<Time>,
    cancelRequestedAt: Option<Time>, cancelledAt: Option<Time>)

  datatype Artifact = Artifact(content: Bytes, sha: Bytes, size: int, createdAt: Time)
  datatype Rows = Rows(packages: seq<Package>, artifacts: map<Uuid, Artifact>)

  datatype ReceiptEntry = ReceiptEntry(sequence: int, receipt: Receipt)
  datatype PackageBundle = PackageBundle(
    packageId: Uuid, idempotencyKey: string, instrumentId: string, checkpoint: Checkpoint, entries: seq<ReceiptEntry>)
  datatype Archive = Archive(content: Bytes, sha: Bytes, size: int, eventCount: int)

  // The canonical JSON a request is fingerprinted by, and the ZIP rendering of a bundle.
  datatype Renderer = Renderer(requestJson: (string, Uuid) -> Bytes, zip: PackageBundle -> Bytes)

  const MAX_FAILURE_REASON := 2000

  function BuildArchive(sha: Hasher, r: Renderer, bundle: PackageBundle): Archive {
    var content := r.zip(bundle);
    Archive(content, sha.hash(content), |content.octets|, |bundle.entries|)
  }

  // ---- The table's state-shape constraint ----

  predicate NoFailure(p: Package) {
    p.failedAt == None && p.failureCode == None && p.failureReason == None
  }

  predicate Leased(p: Package) {
    p.leaseOwner.Some? && p.leaseExpires.Some?
  }

  predicate NoLease(p: Package) {
    p.leaseOwner == None && p.leaseExpires == None
  }

  predicate NoArtifact(p: Package) {
    p.artifactSha == None && p.artifactSize == None && p.eventCount == None
  }

  predicate NoCancel(p: Package) {
    p.cancelRequestedAt == None && p.cancelledAt == None
  }

  predicate StateShape(p: Package) {
    match p.status
    case Ready =>
      && p.readyAt.Some? && p.failureCode == None && p.failureReason == None
      && p.artifactSha.Some? && p.artifactSize.Some? && p.eventCount.Some? && NoLease(p) && NoCancel(p)
    case Failed => p.failedAt.Some? && p.failureReason.Some?
    case Pending => NoLease(p) && p.readyAt == None && NoFailure(p)
    case Building => Leased(p) && p.readyAt == None && NoFailure(p) && NoCancel(p)
    case Cancelling => Leased(p) && p.readyAt == None && NoFailure(p) && p.cancelRequestedAt.Some?
        && p.cancelledAt == None
    case Cancelled =>
      && NoLease(p) && p.readyAt == None && NoFailure(p) && NoArtifact(p)
      && p.cancelRequestedAt.Some? && p.cancelledAt.Some?
  }

  // What every run keeps: nothing of another state is left over.
  ghost predicate WellShaped(p: Package) {
    && (p.leaseOwner.Some? <==> p.status.Building? || p.status.Cancelling?)
    && (p.leaseExpires.Some? <==> p.status.Building? || p.status.Cancelling?)
    && (p.failureCode.Some? <==> p.status.Failed?)
    && (p.failureReason.Some? <==> p.status.Failed?)
    && (p.failedAt.Some? <==> p.status.Failed?)
    && (p.artifactSha.Some? <==> p.status.Ready?)
    && (p.artifactSize.Some? <==> p.status.Ready?)
    && (p.eventCount.Some? <==> p.status.Ready?)
    && (p.readyAt.Some? <==> p.status.Ready?)
    && (p.cancelRequestedAt.Some? <==> p.status.Cancelling? || p.status.Cancelled?)
    && (p.cancelledAt.Some? <==> p.status.Cancelled?)
    && (p.status.Failed? ==> |p.failureReason.value| <= MAX_FAILURE_REASON)
    && p.attemptCount >= 0
  }

  // ---- One row ----

  function NewPackage(sha: Hasher, r: Renderer, id: Uuid, key: string, instrumentId: string, checkpointId: Uuid,
      now: Time): Package {
    Package(id, key, sha.hash(r.requestJson(instrumentId, checkpointId)), instrumentId, checkpointId,
            Status.Pending, 0, None, None, None, None, None, None, None, now, now, None, None, None, None)
  }

  predicate Expired(p: Package, now: Time) {
    p.leaseExpires.Some? && p.leaseExpires.value < now
  }

  predicate Eligible(p: Package, now: Time) {
    p.status.Pending? || (p.status.Building? && Expired(p, now))
  }

  predicate StaleCancelling(p: Package, now: Time) {
    p.status.Cancelling? && Expired(p, now)
  }

  function Claimed(p: Package, worker: string, lease: Time, now: Time): Package {
    p.(status := Building, leaseOwner := Some(worker), leaseExpires := Some(now + lease),
        attemptCount := p.attemptCount + 1, updatedAt := now)
  }

  function ApplyCancelled(p: Package, now: Time): Package {
    p.(status := Cancelled, leaseOwner := None, leaseExpires := None, cancelledAt := Some(now), updatedAt := now)
  }

  function Finished(p: Package, archive: Archive, now: Time): Package {
    p.(status := Ready, artifactSha := Some(archive.sha), artifactSize := Some(archive.size),
        eventCount := Some(archive.eventCount),
       leaseOwner := None, leaseExpires := None, readyAt := Some(now), updatedAt := now)
  }

  function MarkedFailed(p: Package, code: FailureCode, reason: string, now: Time): Package {
    p.(status := Failed, failureCode := Some(code), failureReason := Some(Sealing.Slice(reason, MAX_FAILURE_REASON)),
       leaseOwner := None, leaseExpires := None, failedAt := Some(now), updatedAt := now)
  }

  function Retried(p: Package, now: Time): Package {
    p.(status := Status.Pending, failureCode := None, failureReason := None, failedAt := None,
       leaseOwner := None, leaseExpires := None, cancelRequestedAt := None, cancelledAt := None, updatedAt := now)
  }

  function CancelledPending(p: Package, now: Time): Package {
    p.(status := Cancelled, cancelRequestedAt := Some(now), cancelledAt := Some(now), updatedAt := now)
  }

  function CancelRequested(p: Package, now: Time): Package {
    p.(status := Cancelling, cancelRequestedAt := Some(now), updatedAt := now)
  }

  // The constraint alone is not kept: a claim, a retry or a cancellation of a row that meets
  // it can break it, exactly when the row carries left-overs of another state. The other
  // transactions keep it always.
  lemma ShapeIsNotInductive(p: Package, worker: string, lease: Time, now: Time)
    requires StateShape(p)
    ensures Eligible(p, now) ==> (StateShape(Claimed(p, worker, lease, now)) <==> NoCancel(p))
    ensures p.status.Failed? ==> (StateShape(Retried(p, now)) <==> p.readyAt == None)
    ensures p.status.Pending? ==> (StateShape(CancelledPending(p, now)) <==> NoArtifact(p))
    ensures p.status.Cancelling? ==> (StateShape(ApplyCancelled(p, now)) <==> NoArtifact(p))
    ensures p.status.Building? ==> StateShape(CancelRequested(p, now))
    ensures p.status.Building? ==> forall archive :: StateShape(Finished(p, archive, now))
    ensures p.status.Building? ==> forall code, reason :: StateShape(MarkedFailed(p, code, reason, now))
  {
  }

  // A created row meets the constraint; a pending row on which a cancellation was requested
  // meets it too, but not once it is claimed.
  lemma ClaimCanBreakShape(sha: Hasher, r: Renderer, id: Uuid, key: string, instrumentId: string, checkpointId: Uuid,
      now: Time, worker: string, lease: Time)
    ensures var made := NewPackage(sha, r, id, key, instrumentId, checkpointId, now);
      var requested := made.(cancelRequestedAt := Some(now));
      && StateShape(made) && StateShape(Claimed(made, worker, lease, now))
      && StateShape(requested) && Eligible(requested, now) && !StateShape(Claimed(requested, worker, lease, now))
  {
  }

  lemma WellShapedMeetsConstraint(p: Package)
    requires WellShaped(p)
    ensures StateShape(p)
  {
  }

  // ---- The transactions ----

  datatype PackageError =
    | PackageNotFound | CheckpointNotFound | NoSealedCheckpoint
    | CheckpointDoesNotCoverInstrument | InstrumentHasNoSealedEvents
    | KeyConflict | DuplicatePackage
    | NotRetryable | NotFailed | StillBuilding | AlreadyReady | NotCancellable
    | NotReady(retryable: bool) | ArtifactMissing

  // What building a claim comes to; Raised is a database error that undoes the transaction.
  datatype BuildResult = Settled(status: Status) | Superseded | Raised

  function IndexOfKey(packages: seq<Package>, key: string): (found: Option<nat>)
    ensures match found
      case Some(i) => i < |packages| && packages[i].idempotencyKey == key
      case None => forall j | 0 <= j < |packages| :: packages[j].idempotencyKey != key
  {
    LastIndex(packages, (p: Package) => p.idempotencyKey == key)
  }

  function IndexOfPackage(packages: seq<Package>, id: Uuid): (found: Option<nat>)
    ensures match found
      case Some(i) => i < |packages| && packages[i].packageId == id
      case None => forall j | 0 <= j < |packages| :: packages[j].packageId != id
  {
    LastIndex(packages, (p: Package) => p.packageId == id)
  }

  predicate Replays(existing: Package, instrumentId: string, asked: Option<Uuid>) {
    existing.instrumentId == instrumentId && (asked == None || asked == Some(existing.checkpointId))
  }

  function ResolveBoundary(db: Sealing.Tables, asked: Option<Uuid>): Result<Checkpoint, PackageError> {
    var found := if asked.Some? then CheckpointById(db.checkpoints, asked.value) else Latest(db.checkpoints);
    if found.Some? then Ok(found.value) else Err(if asked.Some? then CheckpointNotFound else NoSealedCheckpoint)
  }

  // The instrument's events inside a boundary, in sequence order.
  function InstrumentEvents(events: seq<Event>, boundary: Checkpoint, instrumentId: string): seq<Event> {
    OfInstrument(Upto(events, boundary.payload.lastSequence), instrumentId)
  }

  // Inserting meets the unique constraints; a clash of keys is settled from the row found.
  function InsertPackage(rows: Rows, draft: Package, asked: Option<Uuid>): (Rows,
      Result<(Package, bool), PackageError>) {
    var i := IndexOfKey(rows.packages, draft.idempotencyKey);
    if i.Some? then
      (rows, if Replays(rows.packages[i.value], draft.instrumentId, asked) then Ok((rows.packages[i.value], false))
          else Err(KeyConflict))
    else if IndexOfPackage(rows.packages, draft.packageId).Some? then (rows, Err(DuplicatePackage))
    else (rows.(packages := rows.packages + [draft]), Ok((draft, true)))
  }

  // What other creators insert meanwhile.
  function InsertRivals(rows: Rows, rivals: seq<Package>): Rows {
    if rivals == [] then rows
    else InsertPackage(InsertRivals(rows, rivals[..|rivals| - 1]), rivals[|rivals| - 1], None).0
  }

  // Creating: look the key up, resolve the boundary, count the instrument's events in it, and
  // insert after whatever others have inserted since. The boundary and the count are read from
  // their own snapshots of the ledger.
  function CreatePackage(sha: Hasher, r: Renderer, rows: Rows, chosen: Sealing.Tables, counted: Sealing.Tables,
      key: string,
      instrumentId: string, asked: Option<Uuid>, id: Uuid, now: Time, rivals: seq<Package>): (Rows,
          Result<(Package, bool), PackageError>)
  {
    var found := IndexOfKey(rows.packages, key);
    if found.Some? then
      (rows, if Replays(rows.packages[found.value], instrumentId, asked)
          then Ok((rows.packages[found.value], false)) else Err(KeyConflict))
    else
      match ResolveBoundary(chosen, asked)
      case Err(error) => (rows, Err(error))
      case Ok(boundary) =>
        if InstrumentEvents(counted.events, boundary, instrumentId) == [] then
          (rows, Err(if asked.Some? then CheckpointDoesNotCoverInstrument else InstrumentHasNoSealedEvents))
        else InsertPackage(InsertRivals(rows, rivals),
            NewPackage(sha, r, id, key, instrumentId, boundary.payload.checkpointId, now), asked)
  }

  // The eligible row with the smallest key among those no other transaction has locked.
  function Candidate(packages: seq<Package>, now: Time, locked: set<nat>): Option<nat> {
    if packages == [] then None
    else
      var n := |packages| - 1;
      var earlier := Candidate(packages[..n], now, locked);
      if earlier.Some? then earlier
      else if n !in locked && Eligible(packages[n], now) then Some(n)
      else None
  }

  lemma {:induction false} CandidateIsFirst(packages: seq<Package>, now: Time, locked: set<nat>)
    ensures match Candidate(packages, now, locked)
      case Some(i) =>
        && i < |packages| && i !in locked && Eligible(packages[i], now)
        && forall j | 0 <= j < i :: j in locked || !Eligible(packages[j], now)
      case None => forall j | 0 <= j < |packages| :: j in locked || !Eligible(packages[j], now)
  {
    if packages == [] {
    } else {
      var n := |packages| - 1;
      CandidateIsFirst(packages[..n], now, locked);
      assert forall j | 0 <= j < n :: packages[..n][j] == packages[j];
    }
  }

  function WithRow(rows: Rows, i: nat, p: Package): Rows
    requires i < |rows.packages|
  {
    rows.(packages := rows.packages[i := p])
  }

  function ClaimPackage(rows: Rows, worker: string, lease: Time, now: Time, locked: set<nat>): (Rows, Option<nat>) {
    var i := Candidate(rows.packages, now, locked);
    CandidateIsFirst(rows.packages, now, locked);
    if i.None? then (rows, None)
    else (WithRow(rows, i.value, Claimed(rows.packages[i.value], worker, lease, now)), i)
  }

  function SettleRow(p: Package, i: nat, now: Time, locked: set<nat>): Package {
    if i !in locked && StaleCancelling(p, now) then ApplyCancelled(p, now) else p
  }

  function SettleAll(packages: seq<Package>, now: Time, locked: set<nat>): (settled: seq<Package>)
    ensures |settled| == |packages| && forall i | 0 <= i < |packages| ::
        settled[i] == SettleRow(packages[i], i, now, locked)
  {
    if packages == [] then []
    else
      var n := |packages| - 1;
      SettleAll(packages[..n], now, locked) + [SettleRow(packages[n], n, now, locked)]
  }

  function SettleStale(rows: Rows, now: Time, locked: set<nat>): Rows {
    rows.(packages := SettleAll(rows.packages, now, locked))
  }

  // The last transaction of a build: a cancellation wins, a lost lease discards the archive,
  // and otherwise the archive row and the ready state commit together.
  function FinishBuild(rows: Rows, i: nat, owner: Option<string>, archive: Archive, now: Time): (Rows, BuildResult) {
    if i >= |rows.packages| then (rows, Settled(Failed))
    else
      var p := rows.packages[i];
      if p.status.Cancelling? then (WithRow(rows, i, ApplyCancelled(p, now)), Settled(Cancelled))
      else if p.status.Cancelled? then (rows, Superseded)
      else if !p.status.Building? || p.leaseOwner != owner then (rows, Settled(p.status))
      else if p.packageId in rows.artifacts then (rows, Raised)
      else
        (WithRow(rows, i, Finished(p, archive, now)).(artifacts :=
            rows.artifacts[p.packageId := Artifact(archive.content, archive.sha, archive.size, now)]),
         Settled(Ready))
  }

  function FinishCancelled(rows: Rows, i: nat, owner: Option<string>, now: Time): (Rows, BuildResult) {
    if i >= |rows.packages| then (rows, Settled(Failed))
    else
      var p := rows.packages[i];
      if p.status.Cancelling? && p.leaseOwner == owner
          then (WithRow(rows, i, ApplyCancelled(p, now)), Settled(Cancelled))
      else if p.status.Cancelled? then (rows, Superseded)
      else (rows, Settled(p.status))
  }

  function FailOrCancel(rows: Rows, i: nat, owner: Option<string>, code: FailureCode, reason: string,
      now: Time): (Rows, BuildResult) {
    if i >= |rows.packages| then (rows, Settled(Failed))
    else
      var p := rows.packages[i];
      if p.status.Cancelling? then (WithRow(rows, i, ApplyCancelled(p, now)), Settled(Cancelled))
      else if !p.status.Building? || p.leaseOwner != owner then (rows, Settled(p.status))
      else (WithRow(rows, i, MarkedFailed(p, code, reason, now)), Settled(Failed))
  }

  function RequestRetry(rows: Rows, id: Uuid, now: Time): (Rows, Result<Package, PackageError>) {
    var i := IndexOfPackage(rows.packages, id);
    if i.None? then (rows, Err(PackageNotFound))
    else
      var p := rows.packages[i.value];
      match p.status
      case Failed => (WithRow(rows, i.value, Retried(p, now)), Ok(Retried(p, now)))
      case Cancelling | Cancelled => (rows, Err(NotRetryable))
      case Pending => (rows, Err(NotFailed))
      case Building => (rows, Err(StillBuilding))
      case Ready => (rows, Err(AlreadyReady))
  }

  function CancelPackage(rows: Rows, id: Uuid, now: Time): (Rows, Result<(Package, bool), PackageError>) {
    var i := IndexOfPackage(rows.packages, id);
    if i.None? then (rows, Err(PackageNotFound))
    else
      var p := rows.packages[i.value];
      match p.status
      case Pending => (WithRow(rows, i.value, CancelledPending(p, now)), Ok((CancelledPending(p, now), true)))
      case Building => (WithRow(rows, i.value, CancelRequested(p, now)), Ok((CancelRequested(p, now), true)))
      case Cancelling | Cancelled => (rows, Ok((p, false)))
      case Ready => (rows, Err(AlreadyReady))
      case Failed => (rows, Err(NotCancellable))
  }

  // A download reads the package and then, in a later statement, its archive.
  function ReadyArtifact(rows: Rows, later: Rows, id: Uuid): Result<(Package, Artifact), PackageError> {
    var i := IndexOfPackage(rows.packages, id);
    if i.None? then Err(PackageNotFound)
    else
      var p := rows.packages[i.value];
      if !p.status.Ready? then Err(NotReady(p.status.Failed?))
      else if p.packageId !in later.artifacts then Err(ArtifactMissing)
      else Ok((p, later.artifacts[p.packageId]))
  }
}
