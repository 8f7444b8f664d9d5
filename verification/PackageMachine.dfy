/** The audit package queue as interleaved transactions over a growing ledger: creators,
    build workers that crash, stall and resume late, cancellation and retry
    (src/ledger/audit/service.py:113-608).

    A worker keeps its claim as local state between transactions; nothing takes it away when
    its lease runs out, so a worker that was given up may still act. Every read of the ledger
    sees the tables as they are at that step. */
module PackageMachine {
  import opened Wrappers
  import opened Domain
  import opened Receipts
  import opened Packages
  import Sealing
  import Protocol

  // A creator has chosen its boundary, and then counted the instrument's events inside it.
  datatype Creation =
    | Chosen(key: string, instrumentId: string, asked: Option<Uuid>, boundary: Checkpoint)
    | Drafted(asked: Option<Uuid>, draft: Package)

  // How far a claimed build has come. While receipts are collected, snapshots are the tables
  // the current receipt's statements have read so far.
  datatype Phase =
    | Started
    | Bounded(boundary: Checkpoint)
    | Collecting(boundary: Checkpoint, events: seq<Event>, entries: seq<ReceiptEntry>, snapshots: seq<Sealing.Tables>)
    | Rendered(bundle: PackageBundle)
    | CancelSeen
    | Broken(code: FailureCode)

  // The claimed row as the worker read it, and the worker's progress.
  datatype Claim = Claim(row: nat, package: Package, phase: Phase)

  datatype World = World(ledger: Protocol.System, rows: Rows, creations: map<nat, Creation>, claims: map<nat, Claim>)

  const INIT_WORLD := World(Protocol.INIT, Rows([], map[]), map[], map[])

  datatype Environment = Environment(crypto: Crypto, renderer: Renderer)

  datatype Step =
    | LedgerStep(step: Protocol.Step)
    | Choose(t: nat, key: string, instrumentId: string, asked: Option<Uuid>)
    | Count(t: nat, id: Uuid, now: Time)
    | Insert(t: nat)
    | AbandonCreation(t: nat)
    | TakeClaim(n: nat, worker: string, lease: Time, now: Time, locked: set<nat>)
    | SettleCancelling(now: Time, locked: set<nat>)
    | ReadBoundary(n: nat)
    | ReadEvents(n: nat)
    | TakeSnapshot(n: nat)
    | MakeReceipt(n: nat, keyring: Keyring)
    | Render(n: nat)
    | ObserveCancel(n: nat)
    | Defect(n: nat)
    | Finish(n: nat, now: Time)
    | ConfirmCancel(n: nat, now: Time)
    | RecordFailure(n: nat, reason: string, now: Time)
    | Crash(n: nat)
    | Retry(id: Uuid, now: Time)
    | Cancel(id: Uuid, now: Time)

  // ---- Building ----

  function FailureOf(error: Error): FailureCode {
    match error
    case Ledger(e) => ReceiptFailure(e)
    case OutsideTree => AuditExportFailed
  }

  // The entry of one event, its receipt read from these snapshots.
  function MakeEntry(c: Crypto, r: Reads, event: Event, boundary: Checkpoint, keyring: Keyring): Result<ReceiptEntry,
      FailureCode> {
    match BuildReceiptAt(c, r, event, boundary, keyring)
    case Ok(receipt) => Ok(ReceiptEntry(event.sequence, receipt))
    case Err(error) => Err(FailureOf(error))
  }

  function LookUpBoundary(db: Sealing.Tables, package: Package): Phase {
    match CheckpointById(db.checkpoints, package.checkpointId)
    case Some(boundary) => Bounded(boundary)
    case None => Broken(ReceiptFailure(CheckpointChainBroken))
  }

  function ListEvents(db: Sealing.Tables, package: Package, boundary: Checkpoint): Phase {
    var events := InstrumentEvents(db.events, boundary, package.instrumentId);
    if events == [] then Broken(AuditBoundaryEmpty) else Collecting(boundary, events, [], [])
  }

  function NextEntry(c: Crypto, phase: Phase, keyring: Keyring): Phase
    requires phase.Collecting? && |phase.snapshots| == 3 && |phase.entries| < |phase.events|
  {
    var s := phase.snapshots;
    match MakeEntry(c, Reads(s[0], s[0], s[0], s[1], s[2]), phase.events[|phase.entries|], phase.boundary, keyring)
    case Ok(entry) => phase.(entries := phase.entries + [entry], snapshots := [])
    case Err(code) => Broken(code)
  }

  function BundleFor(package: Package, boundary: Checkpoint, entries: seq<ReceiptEntry>): PackageBundle {
    PackageBundle(package.packageId, package.idempotencyKey, package.instrumentId, boundary, entries)
  }

  // The next phase of a build at one of its own steps; a step out of turn changes nothing.
  function Advance(e: Environment, db: Sealing.Tables, rows: Rows, claim: Claim, step: Step): Phase {
    var phase := claim.phase;
    match step
    case ReadBoundary(_) => if phase.Started? then LookUpBoundary(db, claim.package) else phase
    case ReadEvents(_) => if phase.Bounded? then ListEvents(db, claim.package, phase.boundary) else phase
    case TakeSnapshot(_) => if phase.Collecting? && |phase.snapshots| < 3
        then phase.(snapshots := phase.snapshots + [db]) else phase
    case MakeReceipt(_, keyring) =>
      if phase.Collecting? && |phase.snapshots| == 3 && |phase.entries| < |phase.events|
          then NextEntry(e.crypto, phase, keyring) else phase
    case Render(_) =>
      if phase.Collecting? && |phase.entries| == |phase.events|
          then Rendered(BundleFor(claim.package, phase.boundary, phase.entries)) else phase
    case ObserveCancel(_) =>
      if (phase.Bounded? || phase.Collecting?) && claim.row < |rows.packages|
          && rows.packages[claim.row].status.Cancelling? then CancelSeen else phase
    case Defect(_) => if phase.CancelSeen? || phase.Broken? || phase.Rendered? then phase else Broken(AuditExportFailed)
    case _ => phase
  }

  // ---- Creating ----

  // The package a creator drafts, or None when it ends with an error or a replay.
  function ChooseBoundary(db: Sealing.Tables, rows: Rows, key: string, instrumentId: string,
      asked: Option<Uuid>): Option<Creation> {
    if IndexOfKey(rows.packages, key).Some? then None
    else
      match ResolveBoundary(db, asked)
      case Ok(boundary) => Some(Chosen(key, instrumentId, asked, boundary))
      case Err(_) => None
  }

  function DraftPackage(e: Environment, db: Sealing.Tables, creation: Creation, id: Uuid, now: Time): Option<Creation>
    requires creation.Chosen?
  {
    if InstrumentEvents(db.events, creation.boundary, creation.instrumentId) == [] then None
    else Some(Drafted(creation.asked,
        NewPackage(e.crypto.sha, e.renderer, id, creation.key, creation.instrumentId,
        creation.boundary.payload.checkpointId, now)))
  }

  function WithCreation(w: World, t: nat, creation: Option<Creation>): World {
    w.(creations := if creation.Some? then w.creations[t := creation.value] else w.creations - {t})
  }

  // ---- Steps ----

  predicate BuildStep(step: Step) {
    step.ReadBoundary? || step.ReadEvents? || step.TakeSnapshot? || step.MakeReceipt? || step.Render?
        || step.ObserveCancel? || step.Defect?
  }

  // What a step does to the two package tables.
  function RowsAfter(e: Environment, w: World, step: Step): Rows {
    match step
    case Insert(t) => if t in w.creations && w.creations[t].Drafted?
        then InsertPackage(w.rows, w.creations[t].draft, w.creations[t].asked).0 else w.rows
    case TakeClaim(n, worker, lease, now, locked) => if n !in w.claims
        then ClaimPackage(w.rows, worker, lease, now, locked).0 else w.rows
    case SettleCancelling(now, locked) => SettleStale(w.rows, now, locked)
    case Finish(n, now) =>
      if n in w.claims && w.claims[n].phase.Rendered? then
        FinishBuild(w.rows, w.claims[n].row, w.claims[n].package.leaseOwner,
            BuildArchive(e.crypto.sha, e.renderer, w.claims[n].phase.bundle), now).0
      else w.rows
    case ConfirmCancel(n, now) =>
      if n in w.claims && w.claims[n].phase.CancelSeen?
          then FinishCancelled(w.rows, w.claims[n].row, w.claims[n].package.leaseOwner, now).0 else w.rows
    case RecordFailure(n, reason, now) =>
      if n in w.claims && w.claims[n].phase.Broken?
          then FailOrCancel(w.rows, w.claims[n].row, w.claims[n].package.leaseOwner, w.claims[n].phase.code, reason,
          now).0 else w.rows
    case Retry(id, now) => RequestRetry(w.rows, id, now).0
    case Cancel(id, now) => CancelPackage(w.rows, id, now).0
    case _ => w.rows
  }

  // The claims after a step: a claim begins with its row as claimed, advances, and ends with
  // the transaction that settles it or with its worker.
  function ClaimsAfter(e: Environment, w: World, step: Step): map<nat, Claim> {
    match step
    case TakeClaim(n, worker, lease, now, locked) =>
      var taken := ClaimPackage(w.rows, worker, lease, now, locked);
      CandidateIsFirst(w.rows.packages, now, locked);
      if n !in w.claims && taken.1.Some?
          then w.claims[n := Claim(taken.1.value, taken.0.packages[taken.1.value], Started)] else w.claims
    case Finish(n, _) => if n in w.claims && w.claims[n].phase.Rendered? then w.claims - {n} else w.claims
    case ConfirmCancel(n, _) => if n in w.claims && w.claims[n].phase.CancelSeen? then w.claims - {n} else w.claims
    case RecordFailure(n, _, _) => if n in w.claims && w.claims[n].phase.Broken? then w.claims - {n} else w.claims
    case Crash(n) => w.claims - {n}
    case _ =>
      if BuildStep(step) && step.n in w.claims then
        w.claims[step.n := w.claims[step.n].(phase := Advance(e, w.ledger.db, w.rows, w.claims[step.n], step))]
      else w.claims
  }

  function CreationsAfter(e: Environment, w: World, step: Step): map<nat, Creation> {
    match step
    case Choose(t, key, instrumentId, asked) =>
      if t !in w.creations then WithCreation(w, t,
          ChooseBoundary(w.ledger.db, w.rows, key, instrumentId, asked)).creations else w.creations
    case Count(t, id, now) =>
      if t in w.creations && w.creations[t].Chosen?
          then WithCreation(w, t, DraftPackage(e, w.ledger.db, w.creations[t], id, now)).creations else w.creations
    case Insert(t) => w.creations - {t}
    case AbandonCreation(t) => w.creations - {t}
    case _ => w.creations
  }

  ghost function Work(e: Environment, w: World, step: Step): World {
    World(if step.LedgerStep? then Protocol.Next(e.crypto, w.ledger, step.step) else w.ledger,
          RowsAfter(e, w, step), CreationsAfter(e, w, step), ClaimsAfter(e, w, step))
  }

  ghost function Run(e: Environment, w: World, steps: seq<Step>): World {
    if steps == [] then w
    else Work(e, Run(e, w, steps[..|steps| - 1]), steps[|steps| - 1])
  }
}
