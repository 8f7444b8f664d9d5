/** Who moves a package: for each state of a row the steps that take it to each next state, and
    no others (src/ledger/audit/service.py:184-608). */
module PackageMoves {
  import opened Wrappers
  import opened Domain
  import opened Packages
  import opened PackageRows
  import opened PackageMachine
  import opened PackageInvariants
  import opened PackageSafety
  import opened PackageRuns
  import Protocol
  import Sealing

  // The worker of this claim holds the lease of row i.
  ghost predicate HoldsLease(w: World, n: nat, i: nat) {
    && n in w.claims && w.claims[n].row == i < |w.rows.packages|
    && w.claims[n].package.leaseOwner == w.rows.packages[i].leaseOwner
  }

  ghost predicate MayBeTaken(p: Package, now: Time) {
    p.status.Pending? || (p.status.Building? && p.leaseExpires.Some? && p.leaseExpires.value < now)
  }

  // A new claim takes row i: it waits or its lease has run out, and no unlocked row before it
  // could be taken.
  ghost predicate Takes(w: World, step: Step, i: nat) {
    && step.TakeClaim? && step.n !in w.claims && i < |w.rows.packages| && i !in step.locked
    && MayBeTaken(w.rows.packages[i], step.now)
    && forall j | 0 <= j < i && j !in step.locked :: !MayBeTaken(w.rows.packages[j], step.now)
  }

  // A build that ends at this row, as it was rendered or as it broke.
  ghost predicate EndsBuild(w: World, step: Step, i: nat) {
    || (step.Finish? && step.n in w.claims && w.claims[step.n].row == i && w.claims[step.n].phase.Rendered?)
    || (step.RecordFailure? && step.n in w.claims && w.claims[step.n].row == i && w.claims[step.n].phase.Broken?)
  }

  ghost predicate MovesTo(w: World, step: Step, i: nat, after: Status)
    requires i < |w.rows.packages|
  {
    var p := w.rows.packages[i];
    match p.status
    case Pending =>
      || (after.Building? && Takes(w, step, i))
      || (after.Cancelled? && step.Cancel? && step.id == p.packageId)
    case Building =>
      || (after.Building? && Takes(w, step, i))
      || (after.Ready? && step.Finish? && EndsBuild(w, step, i) && HoldsLease(w, step.n, i))
      || (after.Failed? && step.RecordFailure? && EndsBuild(w, step, i) && HoldsLease(w, step.n, i))
      || (after.Cancelling? && step.Cancel? && step.id == p.packageId)
    case Cancelling =>
      && after.Cancelled?
      && (|| EndsBuild(w, step, i)
          || (step.ConfirmCancel? && HoldsLease(w, step.n, i) && w.claims[step.n].phase.CancelSeen?)
          || (step.SettleCancelling? && i !in step.locked && StaleSince(p, step.now)))
    case Failed => after == Status.Pending && step.Retry? && step.id == p.packageId
    case Ready => false
    case Cancelled => false
  }

  lemma TakesIsCandidate(w: World, step: Step, i: nat)
    requires step.TakeClaim? && step.n !in w.claims && i < |w.rows.packages|
    ensures Takes(w, step, i) <==> Candidate(w.rows.packages, step.now, step.locked) == Some(i)
  {
    CandidateIsFirst(w.rows.packages, step.now, step.locked);
    var found := Candidate(w.rows.packages, step.now, step.locked);
    if Takes(w, step, i) {
      assert forall j | 0 <= j < i :: j in step.locked || !Eligible(w.rows.packages[j], step.now);
    }
  }

  // ---- One transaction ----

  // Row i goes from one state to another between these tables, or changes within it.
  ghost predicate Moved(rows: Rows, rows': Rows, i: nat, after: Status)
    requires i < |rows.packages| <= |rows'.packages|
  {
    rows'.packages[i] != rows.packages[i] && rows'.packages[i].status == after
  }

  // The end of a build: of a building row for the owner of its lease, of a row that is being
  // cancelled for anybody.
  ghost predicate Ends(p: Package, owner: Option<string>, built: Status, after: Status) {
    (p.status.Building? && p.leaseOwner == owner && after == built) || (p.status.Cancelling? && after.Cancelled?)
  }

  lemma FinishMoves(rows: Rows, k: nat, owner: Option<string>, archive: Archive, now: Time, i: nat, after: Status)
    requires RowsOk(rows) && i < |rows.packages|
    ensures var (rows', p) := (FinishBuild(rows, k, owner, archive, now).0, rows.packages[i]);
      && |rows'.packages| == |rows.packages|
      && (Moved(rows, rows', i, after) <==> k == i && Ends(p, owner, Ready, after))
  {
    hide WellShaped, UniqueRows;
  }

  lemma FailMoves(rows: Rows, k: nat, owner: Option<string>, code: FailureCode, reason: string, now: Time, i: nat,
      after: Status)
    requires i < |rows.packages|
    ensures var (rows', p) := (FailOrCancel(rows, k, owner, code, reason, now).0, rows.packages[i]);
      && |rows'.packages| == |rows.packages|
      && (Moved(rows, rows', i, after) <==> k == i && Ends(p, owner, Failed, after))
  {
    if k < |rows.packages| {
      WhatFailReturns(rows, k, owner, code, reason, now);
    }
    hide FailOrCancel;
  }

  lemma ConfirmMoves(rows: Rows, k: nat, owner: Option<string>, now: Time, i: nat, after: Status)
    requires i < |rows.packages|
    ensures var (rows', p) := (FinishCancelled(rows, k, owner, now).0, rows.packages[i]);
      && |rows'.packages| == |rows.packages|
      && (Moved(rows, rows', i, after) <==>
          k == i && p.status.Cancelling? && p.leaseOwner == owner && after.Cancelled?)
  {
    if k < |rows.packages| {
      WhatCancelReturns(rows, k, owner, now);
    }
    hide FinishCancelled;
  }

  lemma RetryMoves(rows: Rows, id: Uuid, now: Time, i: nat, after: Status)
    requires UniqueRows(rows.packages) && i < |rows.packages|
    ensures var (rows', p) := (RequestRetry(rows, id, now).0, rows.packages[i]);
      && |rows'.packages| == |rows.packages|
      && (Moved(rows, rows', i, after) <==> id == p.packageId && p.status.Failed? && after == Status.Pending)
  {
    if id == rows.packages[i].packageId {
      OnlyRowOfId(rows, i);
    }
    hide UniqueRows;
  }

  predicate Stops(before: Status, after: Status) {
    (before == Status.Pending && after.Cancelled?) || (before.Building? && after.Cancelling?)
  }

  lemma CancelMoves(rows: Rows, id: Uuid, now: Time, i: nat, after: Status)
    requires UniqueRows(rows.packages) && i < |rows.packages|
    ensures var (rows', p) := (CancelPackage(rows, id, now).0, rows.packages[i]);
      && |rows'.packages| == |rows.packages|
      && (Moved(rows, rows', i, after) <==> id == p.packageId && Stops(p.status, after))
  {
    if id == rows.packages[i].packageId {
      OnlyRowOfId(rows, i);
    }
    hide UniqueRows;
  }

  ghost predicate StaleSince(p: Package, now: Time) {
    p.status.Cancelling? && p.leaseExpires.Some? && p.leaseExpires.value < now
  }

  lemma SettleMoves(rows: Rows, now: Time, locked: set<nat>, i: nat, after: Status)
    requires i < |rows.packages|
    ensures var (rows', p) := (SettleStale(rows, now, locked), rows.packages[i]);
      && |rows'.packages| == |rows.packages|
      && (Moved(rows, rows', i, after) <==> after.Cancelled? && i !in locked && StaleSince(p, now))
  {
  }

  lemma ClaimMoves(e: Environment, w: World, step: Step, i: nat, after: Status)
    requires step.TakeClaim? && i < |w.rows.packages|
    ensures var rows' := RowsAfter(e, w, step);
      && |rows'.packages| == |w.rows.packages|
      && (Moved(w.rows, rows', i, after) <==> Takes(w, step, i) && after.Building?)
  {
    hide Takes, Candidate;
    CandidateIsFirst(w.rows.packages, step.now, step.locked);
    if step.n !in w.claims {
      TakesIsCandidate(w, step, i);
    } else {
      NobodyTakes(w, step, i);
    }
  }

  lemma NobodyTakes(w: World, step: Step, i: nat)
    requires step.TakeClaim? && step.n in w.claims
    ensures !Takes(w, step, i)
  {
  }

  lemma InsertMoves(rows: Rows, draft: Package, asked: Option<Uuid>, i: nat, after: Status)
    requires i < |rows.packages|
    ensures var rows' := InsertPackage(rows, draft, asked).0;
      |rows'.packages| >= |rows.packages| && !Moved(rows, rows', i, after)
  {
  }

  // ---- Any step ----

  lemma FinishStepMoves(e: Environment, w: World, step: Step, i: nat, after: Status)
    requires RowsOk(w.rows) && i < |w.rows.packages| && step.Finish?
    ensures |RowsAfter(e, w, step).packages| >= |w.rows.packages|
    ensures Moved(w.rows, RowsAfter(e, w, step), i, after) <==> MovesTo(w, step, i, after)
  {
    hide Takes, Moved, StaleSince, FinishBuild, FailOrCancel, FinishCancelled, BuildArchive, RowsOk;
    NothingMoved(w.rows, i, after);
    TakesWhatMayBe(w, step, i);
    if step.n in w.claims && w.claims[step.n].phase.Rendered? {
      var claim := w.claims[step.n];
      FinishMoves(w.rows, claim.row, claim.package.leaseOwner,
          BuildArchive(e.crypto.sha, e.renderer, claim.phase.bundle), step.now, i, after);
    }
  }

  lemma FailStepMoves(e: Environment, w: World, step: Step, i: nat, after: Status)
    requires RowsOk(w.rows) && i < |w.rows.packages| && step.RecordFailure?
    ensures |RowsAfter(e, w, step).packages| >= |w.rows.packages|
    ensures Moved(w.rows, RowsAfter(e, w, step), i, after) <==> MovesTo(w, step, i, after)
  {
    hide Takes, Moved, StaleSince, FinishBuild, FailOrCancel, FinishCancelled, BuildArchive, RowsOk;
    NothingMoved(w.rows, i, after);
    TakesWhatMayBe(w, step, i);
    if step.n in w.claims && w.claims[step.n].phase.Broken? {
      var claim := w.claims[step.n];
      FailMoves(w.rows, claim.row, claim.package.leaseOwner, claim.phase.code, step.reason, step.now, i, after);
    }
  }

  lemma ConfirmStepMoves(e: Environment, w: World, step: Step, i: nat, after: Status)
    requires RowsOk(w.rows) && i < |w.rows.packages| && step.ConfirmCancel?
    ensures |RowsAfter(e, w, step).packages| >= |w.rows.packages|
    ensures Moved(w.rows, RowsAfter(e, w, step), i, after) <==> MovesTo(w, step, i, after)
  {
    hide Takes, Moved, StaleSince, FinishBuild, FailOrCancel, FinishCancelled, BuildArchive, RowsOk;
    NothingMoved(w.rows, i, after);
    TakesWhatMayBe(w, step, i);
    if step.n in w.claims && w.claims[step.n].phase.CancelSeen? {
      var claim := w.claims[step.n];
      ConfirmMoves(w.rows, claim.row, claim.package.leaseOwner, step.now, i, after);
    }
  }

  lemma OtherMoves(e: Environment, w: World, step: Step, i: nat, after: Status)
    requires RowsOk(w.rows) && i < |w.rows.packages|
    requires !step.Finish? && !step.RecordFailure? && !step.ConfirmCancel?
    ensures |RowsAfter(e, w, step).packages| >= |w.rows.packages|
    ensures Moved(w.rows, RowsAfter(e, w, step), i, after) <==> MovesTo(w, step, i, after)
  {
    hide Takes, Moved, RequestRetry, CancelPackage, SettleStale, InsertPackage, ClaimPackage, RowsOk,
        UniqueRows;
    var rows := w.rows;
    NothingMoved(rows, i, after);
    TakesWhatMayBe(w, step, i);
    UniqueOfSound(rows);
    match step
    case TakeClaim(_, _, _, _, _) => ClaimMoves(e, w, step, i, after);
    case Retry(id, now) => RetryMoves(rows, id, now, i, after);
    case Cancel(id, now) => CancelMoves(rows, id, now, i, after);
    case SettleCancelling(now, locked) => SettleMoves(rows, now, locked, i, after);
    case Insert(t) =>
      if t in w.creations && w.creations[t].Drafted? {
        InsertMoves(rows, w.creations[t].draft, w.creations[t].asked, i, after);
      }
    case _ =>
  }

  lemma NothingMoved(rows: Rows, i: nat, after: Status)
    requires i < |rows.packages|
    ensures !Moved(rows, rows, i, after)
  {
  }

  lemma TakesWhatMayBe(w: World, step: Step, i: nat)
    ensures Takes(w, step, i) ==>
        step.TakeClaim? && (w.rows.packages[i].status.Pending? || w.rows.packages[i].status.Building?)
  {
  }

  lemma UniqueOfSound(rows: Rows)
    requires RowsOk(rows)
    ensures UniqueRows(rows.packages)
  {
  }

  // In a sound table a step moves row i to this state exactly when it is one of the steps that
  // may: only the holder of the lease makes a building row ready or failed, only a claim after
  // the lease has run out takes it away, and a cancellation only asks it to stop.
  lemma WhoMovesRow(e: Environment, w: World, step: Step, i: nat, after: Status)
    requires RowsOk(w.rows) && i < |w.rows.packages|
    ensures |RowsAfter(e, w, step).packages| >= |w.rows.packages|
    ensures Moved(w.rows, RowsAfter(e, w, step), i, after) <==> MovesTo(w, step, i, after)
  {
    hide *;
    if step.Finish? {
      FinishStepMoves(e, w, step, i, after);
    } else if step.RecordFailure? {
      FailStepMoves(e, w, step, i, after);
    } else if step.ConfirmCancel? {
      ConfirmStepMoves(e, w, step, i, after);
    } else {
      OtherMoves(e, w, step, i, after);
    }
  }

  // A step that moves rows has a clock reading.
  predicate Clocked(step: Step) {
    step.TakeClaim? || step.SettleCancelling? || step.Finish? || step.ConfirmCancel? || step.RecordFailure?
        || step.Retry? || step.Cancel?
  }

  // A row that moved to its state at this moment, from that of the row before.
  ghost predicate Stamped(p: Package, p': Package, now: Time) {
    && p'.updatedAt == now && p'.createdAt == p.createdAt
    && match p'.status
       case Pending => true
       case Building => p'.leaseOwner.Some? && p'.leaseExpires.Some?
       case Ready => p'.readyAt == Some(now)
       case Failed => p'.failedAt == Some(now)
       case Cancelling =>
         && p'.cancelRequestedAt == Some(now)
         && p'.leaseOwner == p.leaseOwner && p'.leaseExpires == p.leaseExpires
       case Cancelled =>
         && p'.cancelledAt == Some(now)
         && p'.cancelRequestedAt == if p.status.Cancelling? then p.cancelRequestedAt else Some(now)
  }

  // Stamped with the time of its step; a claim gives the row to its worker for its lease, and an
  // archive is stamped when its row becomes ready.
  ghost predicate StampedBy(step: Step, rows: Rows, rows': Rows, i: nat)
    requires i < |rows.packages| && i < |rows'.packages|
  {
    var p' := rows'.packages[i];
    && Clocked(step) && Stamped(rows.packages[i], p', step.now)
    && (p'.status.Building? ==>
        step.TakeClaim? && p'.leaseOwner == Some(step.worker) && p'.leaseExpires == Some(step.now + step.lease))
    && (p'.status.Ready? ==>
        p'.packageId in rows'.artifacts && rows'.artifacts[p'.packageId].createdAt == step.now)
  }

  lemma WorkerMovesAreStamped(e: Environment, w: World, step: Step, i: nat)
    requires step.Finish? || step.RecordFailure? || step.ConfirmCancel?
    requires i < |w.rows.packages| && i < |RowsAfter(e, w, step).packages|
    requires RowsAfter(e, w, step).packages[i] != w.rows.packages[i]
    ensures StampedBy(step, w.rows, RowsAfter(e, w, step), i)
  {
    hide BuildArchive;
  }

  lemma OtherMovesAreStamped(e: Environment, w: World, step: Step, i: nat)
    requires !step.Finish? && !step.RecordFailure? && !step.ConfirmCancel?
    requires i < |w.rows.packages| && i < |RowsAfter(e, w, step).packages|
    requires RowsAfter(e, w, step).packages[i] != w.rows.packages[i]
    ensures StampedBy(step, w.rows, RowsAfter(e, w, step), i)
  {
    match step
    case TakeClaim(_, _, _, now, locked) => CandidateIsFirst(w.rows.packages, now, locked);
    case _ =>
  }

  // Every move is stamped.
  lemma MovesAreStamped(e: Environment, w: World, step: Step, i: nat)
    requires i < |w.rows.packages| && i < |RowsAfter(e, w, step).packages|
    requires RowsAfter(e, w, step).packages[i] != w.rows.packages[i]
    ensures StampedBy(step, w.rows, RowsAfter(e, w, step), i)
  {
    hide *;
    if step.Finish? || step.RecordFailure? || step.ConfirmCancel? {
      WorkerMovesAreStamped(e, w, step, i);
    } else {
      OtherMovesAreStamped(e, w, step, i);
    }
  }

  // ---- Runs ----

  // So in every run.
  lemma RunsMoveRows(e: Environment, master: Keyring, before: seq<Step>, step: Step, i: nat, after: Status)
    requires TrustedRun(master, before) && i < |Run(e, INIT_WORLD, before).rows.packages|
    ensures var w := Run(e, INIT_WORLD, before);
      && |w.rows.packages| <= |Work(e, w, step).rows.packages|
      && (Moved(w.rows, Work(e, w, step).rows, i, after) <==> MovesTo(w, step, i, after))
  {
    hide Run, Work, Moved, MovesTo, RowsAfter, RowsOk, WorldInv;
    var w := Run(e, INIT_WORLD, before);
    InitWorldInv(e, master);
    RunKeepsWorld(e, master, INIT_WORLD, before);
    RowsOfWorld(e, master, w);
    RowsOfWork(e, w, step);
    WhoMovesRow(e, w, step, i, after);
  }

  lemma RowsOfWorld(e: Environment, master: Keyring, w: World)
    requires WorldInv(e, master, w)
    ensures RowsOk(w.rows)
  {
    hide RowsOk, ContentOk, CreationOk, ClaimOk, Protocol.Inv;
  }

  lemma RowsOfWork(e: Environment, w: World, step: Step)
    ensures Work(e, w, step).rows == RowsAfter(e, w, step)
  {
    hide RowsAfter, ClaimsAfter, CreationsAfter, Protocol.Next;
  }

  // A step that a lease protects its row from: a claim while it lasts, and the end of a build
  // whose worker does not hold it. A cancellation of the package itself is not among them.
  ghost predicate Harmless(w: World, step: Step, i: nat, p: Package) {
    && (step.Cancel? ==> step.id != p.packageId)
    && (step.TakeClaim? && p.leaseExpires.Some? ==> step.now <= p.leaseExpires.value)
    && (step.Finish? || step.RecordFailure? ==> !HoldsLease(w, step.n, i))
  }

  lemma HarmlessKeepsRow(e: Environment, w: World, step: Step, i: nat, p: Package)
    requires RowsOk(w.rows) && i < |w.rows.packages| && w.rows.packages[i] == p && p.status.Building?
    requires Harmless(w, step, i, p)
    ensures i < |RowsAfter(e, w, step).packages| && RowsAfter(e, w, step).packages[i] == p
  {
    hide RowsAfter, EndsBuild, RowsOk;
    WhoMovesRow(e, w, step, i, Building);
    WhoMovesRow(e, w, step, i, RowsAfter(e, w, step).packages[i].status);
  }

  // While nobody cancels it, and every claim that is made comes before its lease has run out,
  // a building row stays exactly as it is until the worker that holds the lease ends the
  // build: whatever late workers finish, fail or confirm meanwhile.
  lemma {:induction false} LeaseProtects(e: Environment, master: Keyring, before: seq<Step>, later: seq<Step>, i: nat)
    requires TrustedRun(master, before) && TrustedRun(master, later)
    requires var w := Run(e, INIT_WORLD, before);
      && i < |w.rows.packages| && w.rows.packages[i].status.Building?
      && forall k | 0 <= k < |later| ::
        Harmless(Run(e, w, later[..k]), later[k], i, w.rows.packages[i])
    ensures var w := Run(e, INIT_WORLD, before);
      i < |Run(e, w, later).rows.packages| && Run(e, w, later).rows.packages[i] == w.rows.packages[i]
    decreases |later|
  {
    hide RowsOk, Harmless, Work, RowsAfter, WorldInv, TrustedStep, Later, Run;
    var w := Run(e, INIT_WORLD, before);
    if later == [] {
      RunOfNothing(e, w);
    } else {
      var n := |later| - 1;
      var mid := Run(e, w, later[..n]);
      forall k | 0 <= k < n ensures Harmless(Run(e, w, later[..n][..k]), later[..n][k], i, w.rows.packages[i]) {
        assert later[..n][..k] == later[..k];
      }
      LeaseProtects(e, master, before, later[..n], i);
      InitWorldInv(e, master);
      RunKeepsWorld(e, master, INIT_WORLD, before);
      RunKeepsWorld(e, master, w, later[..n]);
      RowsOfWorld(e, master, mid);
      HarmlessKeepsRow(e, mid, later[n], i, w.rows.packages[i]);
      RunOfOneMore(e, w, later);
      RowsOfWork(e, mid, later[n]);
    }
  }

  // ---- Cancellations that workers see ----

  ghost predicate SeenIsReal(rows: Rows, claim: Claim) {
    claim.phase.CancelSeen? ==>
      claim.row < |rows.packages|
          && (rows.packages[claim.row].status.Cancelling? || rows.packages[claim.row].status.Cancelled?)
  }

  lemma SeenStaysReal(rows: Rows, rows': Rows, claim: Claim)
    requires SeenIsReal(rows, claim) && Evolves(rows, rows')
    ensures SeenIsReal(rows', claim)
  {
    hide SameIdentity;
    if claim.phase.CancelSeen? {
      assert Legal(rows.packages[claim.row], rows'.packages[claim.row]);
    }
  }

  // A build sees a cancellation only of a row that is being cancelled.
  lemma SeesOnlyCancelling(e: Environment, db: Sealing.Tables, rows: Rows, claim: Claim, step: Step)
    requires BuildStep(step) && !claim.phase.CancelSeen?
    ensures Advance(e, db, rows, claim, step).CancelSeen? ==>
        step.ObserveCancel? && claim.row < |rows.packages| && rows.packages[claim.row].status.Cancelling?
  {
    hide ListEvents, LookUpBoundary, NextEntry, BundleFor;
    NeverSeen(e, db, claim, step);
  }

  lemma NeverSeen(e: Environment, db: Sealing.Tables, claim: Claim, step: Step)
    ensures !LookUpBoundary(db, claim.package).CancelSeen?
    ensures claim.phase.Bounded? ==> !ListEvents(db, claim.package, claim.phase.boundary).CancelSeen?
    ensures step.MakeReceipt? && CanMake(claim.phase) ==>
        !NextEntry(e.crypto, claim.phase, step.keyring).CancelSeen?
  {
    hide MakeEntry, InstrumentEvents, CheckpointById;
  }

  predicate CanMake(phase: Phase) {
    phase.Collecting? && |phase.snapshots| == 3 && |phase.entries| < |phase.events|
  }

  lemma ClaimAfter(e: Environment, w: World, step: Step, n: nat)
    requires n in ClaimsAfter(e, w, step)
    ensures var claim' := ClaimsAfter(e, w, step)[n];
      || claim'.phase.Started?
      || (n in w.claims && claim' == w.claims[n])
      || (n in w.claims && BuildStep(step) && step.n == n
          && claim' == w.claims[n].(phase := Advance(e, w.ledger.db, w.rows, w.claims[n], step)))
  {
    hide Advance, ClaimPackage;
  }

  // In every run a worker that saw its build cancelled is right, and stays so: the row is being
  // cancelled or has been.
  lemma {:induction false} SeenCancelsAreReal(e: Environment, master: Keyring, steps: seq<Step>, n: nat)
    requires TrustedRun(master, steps) && n in Run(e, INIT_WORLD, steps).claims
    ensures SeenIsReal(Run(e, INIT_WORLD, steps).rows, Run(e, INIT_WORLD, steps).claims[n])
    decreases |steps|
  {
    hide WorldInv, RowsAfter, ClaimsAfter, CreationsAfter, Advance, TrustedStep, SeenIsReal, Evolves, Protocol.Next;
    if steps == [] {
    } else {
      var m := |steps| - 1;
      var w := Run(e, INIT_WORLD, steps[..m]);
      InitWorldInv(e, master);
      RunKeepsWorld(e, master, INIT_WORLD, steps[..m]);
      StepKeepsWorld(e, master, w, steps[m]);
      ClaimAfter(e, w, steps[m], n);
      if n in w.claims {
        SeenCancelsAreReal(e, master, steps[..m], n);
      }
      OneStepSees(e, w, steps[m], n);
    }
  }

  lemma OneStepSees(e: Environment, w: World, step: Step, n: nat)
    requires n in ClaimsAfter(e, w, step) && Evolves(w.rows, RowsAfter(e, w, step))
    requires n in w.claims ==> SeenIsReal(w.rows, w.claims[n])
    ensures SeenIsReal(RowsAfter(e, w, step), ClaimsAfter(e, w, step)[n])
  {
    hide RowsAfter, ClaimsAfter, Evolves, Advance;
    ClaimAfter(e, w, step, n);
    var claim' := ClaimsAfter(e, w, step)[n];
    if n in w.claims && BuildStep(step) && step.n == n
        && claim' == w.claims[n].(phase := Advance(e, w.ledger.db, w.rows, w.claims[n], step)) {
      if !w.claims[n].phase.CancelSeen? {
        SeesOnlyCancelling(e, w.ledger.db, w.rows, w.claims[n], step);
      } else {
        SeenIsKept(e, w.ledger.db, w.rows, w.claims[n], step);
      }
    }
    if !claim'.phase.Started? {
      SeenStaysReal(w.rows, RowsAfter(e, w, step), claim');
    }
  }

  lemma SeenIsKept(e: Environment, db: Sealing.Tables, rows: Rows, claim: Claim, step: Step)
    requires claim.phase.CancelSeen?
    ensures Advance(e, db, rows, claim, step) == claim.phase
  {
  }

  // A check stops the build exactly while its row is being cancelled, whoever holds the lease:
  // so a worker that lost its lease stops for the cancellation of another worker's build, which
  // it then leaves alone.
  lemma ChecksIgnoreOwners(e: Environment, db: Sealing.Tables, rows: Rows, claim: Claim, now: Time)
    requires claim.row < |rows.packages| && (claim.phase.Bounded? || claim.phase.Collecting?)
    ensures var p := rows.packages[claim.row];
      && (Advance(e, db, rows, claim, ObserveCancel(0)).CancelSeen? <==> p.status.Cancelling?)
      && (p.status.Cancelling? && p.leaseOwner != claim.package.leaseOwner ==>
          FinishCancelled(rows, claim.row, claim.package.leaseOwner, now) == (rows, Settled(Cancelling)))
  {
  }
}
