/** What every transaction on the package tables keeps, row by row. */
module PackageRows {
  import opened Wrappers
  import opened Domain
  import opened Packages

  // The fields that stay fixed for ever.
  ghost predicate SameIdentity(p: Package, p': Package) {
    && p'.packageId == p.packageId && p'.idempotencyKey == p.idempotencyKey && p'.fingerprint == p.fingerprint
    && p'.instrumentId == p.instrumentId && p'.checkpointId == p.checkpointId && p'.createdAt == p.createdAt
  }

  // The state machine of a package. Nothing leaves Ready or Cancelled.
  predicate Moves(before: Status, after: Status) {
    match before
    case Pending => after.Building? || after.Cancelled?
    case Building => after.Building? || after.Ready? || after.Failed? || after.Cancelling?
    case Failed => after == Status.Pending
    case Cancelling => after.Cancelled?
    case Ready => false
    case Cancelled => false
  }

  ghost predicate Legal(p: Package, p': Package) {
    && SameIdentity(p, p')
    && (p' == p || Moves(p.status, p'.status))
    && p'.attemptCount == p.attemptCount + if p' != p && p'.status.Building? then 1 else 0
  }

  // No two rows share a package id or an idempotency key.
  ghost predicate UniqueRows(packages: seq<Package>) {
    forall i, j | 0 <= i < j < |packages| ::
      packages[i].packageId != packages[j].packageId && packages[i].idempotencyKey != packages[j].idempotencyKey
  }

  // An archive row exists exactly for the ready packages.
  ghost predicate ArtifactsOfReady(rows: Rows) {
    && (forall i | 0 <= i < |rows.packages| :: rows.packages[i].packageId in rows.artifacts <==>
        rows.packages[i].status.Ready?)
    && (forall id | id in rows.artifacts :: exists i | 0 <= i < |rows.packages| :: rows.packages[i].packageId == id)
  }

  ghost predicate RowsOk(rows: Rows) {
    && (forall i | 0 <= i < |rows.packages| :: WellShaped(rows.packages[i]))
    && UniqueRows(rows.packages)
    && ArtifactsOfReady(rows)
  }

  // What one step may do: rows move legally, rows are added, archives are added.
  ghost predicate Evolves(rows: Rows, rows': Rows) {
    && |rows.packages| <= |rows'.packages|
    && (forall i | 0 <= i < |rows.packages| :: Legal(rows.packages[i], rows'.packages[i]))
    && (forall id | id in rows.artifacts :: id in rows'.artifacts && rows'.artifacts[id] == rows.artifacts[id])
  }

  lemma LegalIsReflexive(rows: Rows)
    ensures Evolves(rows, rows)
  {
  }

  // Rows move without becoming ready.
  lemma MovesKeepRows(rows: Rows, rows': Rows)
    requires RowsOk(rows) && rows'.artifacts == rows.artifacts && |rows'.packages| == |rows.packages|
    requires forall i | 0 <= i < |rows.packages| ::
      Legal(rows.packages[i], rows'.packages[i]) && WellShaped(rows'.packages[i])
          && (rows'.packages[i].status.Ready? <==> rows.packages[i].status.Ready?)
    ensures RowsOk(rows') && Evolves(rows, rows')
  {
    hide WellShaped;
    assert forall i | 0 <= i < |rows.packages| :: SameIdentity(rows.packages[i], rows'.packages[i]);
    hide Legal;
    forall id | id in rows'.artifacts ensures exists j | 0 <= j < |rows'.packages| ::
        rows'.packages[j].packageId == id {
      var j :| 0 <= j < |rows.packages| && rows.packages[j].packageId == id;
      assert rows'.packages[j].packageId == id;
    }
  }

  lemma RowsAreShaped(rows: Rows)
    requires RowsOk(rows)
    ensures forall i | 0 <= i < |rows.packages| :: WellShaped(rows.packages[i])
  {
  }

  lemma MoveKeepsRows(rows: Rows, i: nat, p': Package)
    requires RowsOk(rows) && i < |rows.packages|
    requires Legal(rows.packages[i], p') && WellShaped(p') && (p'.status.Ready? <==> rows.packages[i].status.Ready?)
    ensures RowsOk(WithRow(rows, i, p')) && Evolves(rows, WithRow(rows, i, p'))
  {
    hide WellShaped, Legal, RowsOk, Evolves;
    LegalToItself();
    RowsAreShaped(rows);
    MovesKeepRows(rows, WithRow(rows, i, p'));
  }

  // A row becomes ready together with its archive.
  lemma ReadyKeepsRows(rows: Rows, i: nat, p': Package, a: Artifact)
    requires RowsOk(rows) && i < |rows.packages|
    requires Legal(rows.packages[i], p') && WellShaped(p') && p'.status.Ready? && !rows.packages[i].status.Ready?
    ensures var rows' := WithRow(rows, i, p').(artifacts := rows.artifacts[p'.packageId := a]);
      RowsOk(rows') && Evolves(rows, rows')
  {
    hide WellShaped, Legal, ArtifactsOfReady, UniqueRows;
    LegalToItself();
    SameIds(rows.packages[i], p');
    UniqueStays(rows.packages, i, p');
    ReadyArtifacts(rows, i, p', a);
  }

  lemma LegalToItself()
    ensures forall p :: Legal(p, p)
  {
  }

  lemma SameIds(p: Package, p': Package)
    requires Legal(p, p')
    ensures p'.packageId == p.packageId && p'.idempotencyKey == p.idempotencyKey
  {
  }

  lemma UniqueStays(packages: seq<Package>, i: nat, p': Package)
    requires UniqueRows(packages) && i < |packages| && p'.packageId == packages[i].packageId
        && p'.idempotencyKey == packages[i].idempotencyKey
    ensures UniqueRows(packages[i := p'])
  {
  }

  lemma ReadyArtifacts(rows: Rows, i: nat, p': Package, a: Artifact)
    requires UniqueRows(rows.packages) && ArtifactsOfReady(rows) && i < |rows.packages|
    requires p'.status.Ready? && p'.packageId == rows.packages[i].packageId && !rows.packages[i].status.Ready?
    ensures p'.packageId !in rows.artifacts
    ensures ArtifactsOfReady(WithRow(rows, i, p').(artifacts := rows.artifacts[p'.packageId := a]))
  {
    var rows' := WithRow(rows, i, p').(artifacts := rows.artifacts[p'.packageId := a]);
    forall id | id in rows'.artifacts ensures exists j | 0 <= j < |rows'.packages| ::
        rows'.packages[j].packageId == id {
      if id == p'.packageId {
        assert rows'.packages[i].packageId == id;
      } else {
        var j :| 0 <= j < |rows.packages| && rows.packages[j].packageId == id;
        assert rows'.packages[j].packageId == id;
      }
    }
  }

  lemma FinishKeepsRows(rows: Rows, i: nat, owner: Option<string>, archive: Archive, now: Time)
    requires RowsOk(rows)
    ensures RowsOk(FinishBuild(rows, i, owner, archive, now).0)
        && Evolves(rows, FinishBuild(rows, i, owner, archive, now).0)
    ensures FinishBuild(rows, i, owner, archive, now).1 != Raised
  {
    RowsAreShaped(rows);
    LegalIsReflexive(rows);
    hide RowsOk, Evolves;
    if i < |rows.packages| {
      var p := rows.packages[i];
      if p.status.Cancelling? {
        MoveKeepsRows(rows, i, ApplyCancelled(p, now));
      } else if p.status.Building? && p.leaseOwner == owner {
        ReadyKeepsRows(rows, i, Finished(p, archive, now), Artifact(archive.content, archive.sha, archive.size, now));
      }
    }
  }

  lemma InsertKeepsRows(rows: Rows, draft: Package, asked: Option<Uuid>)
    requires RowsOk(rows) && WellShaped(draft) && draft.status == Status.Pending
    ensures RowsOk(InsertPackage(rows, draft, asked).0) && Evolves(rows, InsertPackage(rows, draft, asked).0)
  {
    hide Legal, ArtifactsOfReady, UniqueRows;
    LegalToItself();
    NewRowIsUnique(rows, draft, asked);
    NewRowHasNoArtifact(rows, draft, asked);
  }

  lemma NewRowIsUnique(rows: Rows, draft: Package, asked: Option<Uuid>)
    requires UniqueRows(rows.packages)
    ensures UniqueRows(InsertPackage(rows, draft, asked).0.packages)
  {
  }

  lemma NewRowHasNoArtifact(rows: Rows, draft: Package, asked: Option<Uuid>)
    requires ArtifactsOfReady(rows) && draft.status == Status.Pending
    ensures ArtifactsOfReady(InsertPackage(rows, draft, asked).0)
  {
    var rows' := InsertPackage(rows, draft, asked).0;
    forall id | id in rows'.artifacts ensures exists j | 0 <= j < |rows'.packages| ::
        rows'.packages[j].packageId == id {
      var j :| 0 <= j < |rows.packages| && rows.packages[j].packageId == id;
      assert rows'.packages[j].packageId == id;
    }
  }

  lemma ClaimKeepsRows(rows: Rows, worker: string, lease: Time, now: Time, locked: set<nat>)
    requires RowsOk(rows)
    ensures RowsOk(ClaimPackage(rows, worker, lease, now, locked).0)
        && Evolves(rows, ClaimPackage(rows, worker, lease, now, locked).0)
  {
    RowsAreShaped(rows);
    LegalIsReflexive(rows);
    hide RowsOk, Evolves;
    CandidateIsFirst(rows.packages, now, locked);
    var i := Candidate(rows.packages, now, locked);
    if i.Some? {
      MoveKeepsRows(rows, i.value, Claimed(rows.packages[i.value], worker, lease, now));
    }
  }

  lemma SettleKeepsRows(rows: Rows, now: Time, locked: set<nat>)
    requires RowsOk(rows)
    ensures RowsOk(SettleStale(rows, now, locked)) && Evolves(rows, SettleStale(rows, now, locked))
  {
    forall i | 0 <= i < |rows.packages|
      ensures var p, p' := rows.packages[i], SettleStale(rows, now, locked).packages[i];
        Legal(p, p') && WellShaped(p') && (p'.status.Ready? <==> p.status.Ready?)
    {
      var p := rows.packages[i];
      assert WellShaped(p);
      assert Legal(p, p) && (p.status.Cancelling? ==> Legal(p, ApplyCancelled(p, now)));
    }
    hide WellShaped, Legal;
    MovesKeepRows(rows, SettleStale(rows, now, locked));
  }

  lemma CancelledKeepsRows(rows: Rows, i: nat, owner: Option<string>, now: Time)
    requires RowsOk(rows)
    ensures RowsOk(FinishCancelled(rows, i, owner, now).0) && Evolves(rows, FinishCancelled(rows, i, owner, now).0)
  {
    RowsAreShaped(rows);
    LegalIsReflexive(rows);
    hide RowsOk, Evolves;
    if i < |rows.packages| && rows.packages[i].status.Cancelling? {
      MoveKeepsRows(rows, i, ApplyCancelled(rows.packages[i], now));
    }
  }

  lemma FailKeepsRows(rows: Rows, i: nat, owner: Option<string>, code: FailureCode, reason: string, now: Time)
    requires RowsOk(rows)
    ensures RowsOk(FailOrCancel(rows, i, owner, code, reason, now).0)
        && Evolves(rows, FailOrCancel(rows, i, owner, code, reason, now).0)
  {
    RowsAreShaped(rows);
    LegalIsReflexive(rows);
    hide RowsOk, Evolves;
    if i < |rows.packages| {
      var p := rows.packages[i];
      if p.status.Cancelling? {
        MoveKeepsRows(rows, i, ApplyCancelled(p, now));
      } else if p.status.Building? {
        MoveKeepsRows(rows, i, MarkedFailed(p, code, reason, now));
      }
    }
  }

  lemma RetryKeepsRows(rows: Rows, id: Uuid, now: Time)
    requires RowsOk(rows)
    ensures RowsOk(RequestRetry(rows, id, now).0) && Evolves(rows, RequestRetry(rows, id, now).0)
  {
    RowsAreShaped(rows);
    LegalIsReflexive(rows);
    hide RowsOk, Evolves;
    var i := IndexOfPackage(rows.packages, id);
    if i.Some? && rows.packages[i.value].status.Failed? {
      MoveKeepsRows(rows, i.value, Retried(rows.packages[i.value], now));
    }
  }

  lemma CancelKeepsRows(rows: Rows, id: Uuid, now: Time)
    requires RowsOk(rows)
    ensures RowsOk(CancelPackage(rows, id, now).0) && Evolves(rows, CancelPackage(rows, id, now).0)
  {
    RowsAreShaped(rows);
    LegalIsReflexive(rows);
    hide RowsOk, Evolves;
    var i := IndexOfPackage(rows.packages, id);
    if i.Some? && rows.packages[i.value].status == Status.Pending {
      MoveKeepsRows(rows, i.value, CancelledPending(rows.packages[i.value], now));
    } else if i.Some? && rows.packages[i.value].status.Building? {
      MoveKeepsRows(rows, i.value, CancelRequested(rows.packages[i.value], now));
    }
  }

  // A claim holds its row for exactly the lease: the claimed row can be taken again when the
  // lease has run out and not before, whoever has locked what.
  lemma LeaseExcludes(rows: Rows, worker: string, lease: Time, now: Time, locked: set<nat>, later: Time,
      locked': set<nat>)
    requires ClaimPackage(rows, worker, lease, now, locked).1.Some?
    ensures var (rows', taken) := ClaimPackage(rows, worker, lease, now, locked);
      && taken.value < |rows'.packages|
      && (Eligible(rows'.packages[taken.value], later) <==> later > now + lease)
      && (Candidate(rows'.packages, later, locked') == Some(taken.value) ==> later > now + lease)
  {
    CandidateIsFirst(rows.packages, now, locked);
    CandidateIsFirst(ClaimPackage(rows, worker, lease, now, locked).0.packages, later, locked');
  }

  // With sound rows a ready package's archive is always there, however much later it is read.
  lemma ArchiveNeverMissing(rows: Rows, later: Rows, id: Uuid)
    requires RowsOk(rows) && forall a | a in rows.artifacts ::
        a in later.artifacts && later.artifacts[a] == rows.artifacts[a]
    ensures ReadyArtifact(rows, later, id) != Err(ArtifactMissing)
    ensures ReadyArtifact(rows, later, id).Ok? <==> id in rows.artifacts
    ensures id in rows.artifacts ==> ReadyArtifact(rows, later, id).value.1 == rows.artifacts[id]
  {
    var i := IndexOfPackage(rows.packages, id);
    if id in rows.artifacts {
      var j :| 0 <= j < |rows.packages| && rows.packages[j].packageId == id;
      assert rows.packages[i.value].packageId == rows.packages[j].packageId;
    }
  }

  // ---- What "ready" means to the worker that is told it ----

  // A build that returns ready wrote its archive exactly when its worker still held the lease
  // on a building row; a cancellation in progress is confirmed by whoever comes, owner or not.
  lemma WhatFinishReturns(rows: Rows, i: nat, owner: Option<string>, archive: Archive, now: Time)
    requires RowsOk(rows) && i < |rows.packages|
    ensures var (rows', result) := FinishBuild(rows, i, owner, archive, now);
      var p := rows.packages[i];
      && (rows'.artifacts != rows.artifacts <==> p.status.Building? && p.leaseOwner == owner)
      && (result == Settled(Ready) <==> p.status.Ready? || (p.status.Building? && p.leaseOwner == owner))
      && (result == Settled(Cancelled) <==> p.status.Cancelling?)
      && (result == Superseded <==> p.status.Cancelled?)
      && (rows'.artifacts == rows.artifacts && !p.status.Cancelling? ==> rows' == rows)
      && (rows' == rows && !p.status.Cancelled? ==> result == Settled(p.status))
  {
    if rows.packages[i].status.Building? && rows.packages[i].leaseOwner == owner {
      assert rows.packages[i].packageId in FinishBuild(rows, i, owner, archive, now).0.artifacts;
    }
  }

  // A failure is recorded exactly by a worker that still holds the lease on a building row: a
  // worker that lost it changes nothing and is told the row's state. A cancellation in
  // progress is confirmed instead, owner or not.
  lemma WhatFailReturns(rows: Rows, i: nat, owner: Option<string>, code: FailureCode, reason: string, now: Time)
    requires i < |rows.packages|
    ensures var (rows', result) := FailOrCancel(rows, i, owner, code, reason, now);
      var p, held := rows.packages[i], rows.packages[i].status.Building? && rows.packages[i].leaseOwner == owner;
      && |rows'.packages| == |rows.packages| && rows'.artifacts == rows.artifacts
      && (forall j | 0 <= j < |rows.packages| && j != i :: rows'.packages[j] == rows.packages[j])
      && (rows'.packages[i] != p <==> held || p.status.Cancelling?)
      && (held ==> rows'.packages[i] == p.(status := Failed, failureCode := Some(code),
          failureReason := rows'.packages[i].failureReason, leaseOwner := None, leaseExpires := None,
          failedAt := Some(now), updatedAt := now))
      && (held && |reason| <= 2000 ==> rows'.packages[i].failureReason == Some(reason))
      && (held && |reason| > 2000 ==>
          rows'.packages[i].failureReason == Some(reason[..2000]))
      && (held ==> result == Settled(Failed))
      && (p.status.Cancelling? ==> rows'.packages[i].status.Cancelled? && result == Settled(Cancelled))
      && (!held && !p.status.Cancelling? ==> result == Settled(p.status))
  {
  }

  // A worker that saw its build cancelled confirms it exactly while it holds the lease.
  lemma WhatCancelReturns(rows: Rows, i: nat, owner: Option<string>, now: Time)
    requires i < |rows.packages|
    ensures var (rows', result) := FinishCancelled(rows, i, owner, now);
      var p, held := rows.packages[i], rows.packages[i].status.Cancelling? && rows.packages[i].leaseOwner == owner;
      && |rows'.packages| == |rows.packages| && rows'.artifacts == rows.artifacts
      && (forall j | 0 <= j < |rows.packages| && j != i :: rows'.packages[j] == rows.packages[j])
      && (rows'.packages[i] != p <==> held)
      && (held ==> rows'.packages[i].status.Cancelled? && result == Settled(Cancelled))
      && (!held ==> result == if p.status.Cancelled? then Superseded else Settled(p.status))
  {
  }

  // A row that is gone is reported as failed and nothing changes.
  lemma GoneRowFails(rows: Rows, i: nat, owner: Option<string>, archive: Archive, code: FailureCode, reason: string,
      now: Time)
    requires i >= |rows.packages|
    ensures FinishBuild(rows, i, owner, archive, now) == (rows, Settled(Failed))
        && FinishCancelled(rows, i, owner, now) == (rows, Settled(Failed))
        && FailOrCancel(rows, i, owner, code, reason, now) == (rows, Settled(Failed))
  {
  }

  // ---- What clients are told ----

  // A package is retried exactly when it failed; any other state has its own refusal.
  lemma WhatRetryReturns(rows: Rows, i: nat, now: Time)
    requires UniqueRows(rows.packages) && i < |rows.packages|
    ensures var (rows', result) := RequestRetry(rows, rows.packages[i].packageId, now);
      var p := rows.packages[i];
      && (result.Ok? <==> p.status.Failed?)
      && (result.Ok? ==> rows' == WithRow(rows, i, result.value) && result.value.status == Status.Pending)
      && (result.Ok? ==> SameIdentity(p, result.value) && result.value.attemptCount == p.attemptCount)
      && (result.Ok? ==> NoFailure(result.value) && NoLease(result.value) && NoCancel(result.value))
      && (result.Err? ==> rows' == rows)
      && (result == Err(NotRetryable) <==> p.status.Cancelling? || p.status.Cancelled?)
      && (result == Err(NotFailed) <==> p.status == Status.Pending)
      && (result == Err(StillBuilding) <==> p.status.Building?)
      && (result == Err(AlreadyReady) <==> p.status.Ready?)
  {
    OnlyRowOfId(rows, i);
  }

  // A package is cancelled at once while it waits, and asked to stop while it is built; asking
  // again changes nothing, and ready and failed packages refuse.
  lemma WhatCancelPackageReturns(rows: Rows, i: nat, now: Time)
    requires UniqueRows(rows.packages) && i < |rows.packages|
    ensures var (rows', result) := CancelPackage(rows, rows.packages[i].packageId, now);
      var p := rows.packages[i];
      && (result.Ok? && result.value.1 <==> p.status == Status.Pending || p.status.Building?)
      && (result.Ok? && !result.value.1 <==> p.status.Cancelling? || p.status.Cancelled?)
      && (result.Ok? ==> rows' == WithRow(rows, i, result.value.0) && SameIdentity(p, result.value.0))
      && (result.Ok? ==>
          result.value.0.attemptCount == p.attemptCount && result.value.0.leaseOwner == p.leaseOwner
              && result.value.0.leaseExpires == p.leaseExpires)
      && (result.Ok? && result.value.1 ==> result.value.0.cancelRequestedAt == Some(now))
      && (result.Ok? && result.value.1 ==>
          result.value.0.status == if p.status.Building? then Cancelling else Cancelled)
      && (result.Ok? && !result.value.1 ==> result.value.0 == p)
      && (result.Err? ==> rows' == rows)
      && (result == Err(AlreadyReady) <==> p.status.Ready?)
      && (result == Err(NotCancellable) <==> p.status.Failed?)
  {
    OnlyRowOfId(rows, i);
  }

  lemma OnlyRowOfId(rows: Rows, i: nat)
    requires UniqueRows(rows.packages) && i < |rows.packages|
    ensures IndexOfPackage(rows.packages, rows.packages[i].packageId) == Some(i)
  {
    var j := IndexOfPackage(rows.packages, rows.packages[i].packageId).value;
    assert rows.packages[j].packageId == rows.packages[i].packageId;
  }

  lemma UnknownPackage(rows: Rows, later: Rows, id: Uuid, now: Time)
    requires forall i | 0 <= i < |rows.packages| :: rows.packages[i].packageId != id
    ensures RequestRetry(rows, id, now) == (rows, Err(PackageNotFound))
        && CancelPackage(rows, id, now) == (rows, Err(PackageNotFound))
        && ReadyArtifact(rows, later, id) == Err(PackageNotFound)
  {
  }

  // What a download of a package that is not ready is told: to try again only after a failure
  // that a retry may mend.
  lemma WhatDownloadReturns(rows: Rows, later: Rows, i: nat)
    requires UniqueRows(rows.packages) && i < |rows.packages| && !rows.packages[i].status.Ready?
    ensures ReadyArtifact(rows, later, rows.packages[i].packageId) == Err(NotReady(rows.packages[i].status.Failed?))
  {
    OnlyRowOfId(rows, i);
  }
}
