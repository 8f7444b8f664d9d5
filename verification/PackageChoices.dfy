/** Which boundary a package is given, and when it is refused
    (src/ledger/audit/service.py:49-162). */
module PackageChoices {
  import opened Wrappers
  import opened Hashing
  import opened Domain
  import opened Runs
  import opened Packages
  import opened PackageRows
  import opened PackageMachine
  import opened PackageBoundary
  import opened PackageInvariants
  import opened PackageSafety
  import Sealing
  import Protocol

  // ---- Any tables ----

  lemma {:induction false} LatestIsLargest(checkpoints: seq<Checkpoint>)
    ensures match Latest(checkpoints)
      case None => checkpoints == []
      case Some(best) =>
        && best in checkpoints
        && forall other | other in checkpoints :: other.payload.leafCount <= best.payload.leafCount
  {
    if checkpoints == [] {
    } else {
      var n := |checkpoints| - 1;
      LatestIsLargest(checkpoints[..n]);
      assert checkpoints == checkpoints[..n] + [checkpoints[n]];
    }
  }

  // With no checkpoint named a package takes one that covers most, and is refused exactly when
  // there is none; with one named it takes that one, and is refused exactly when it is unknown.
  lemma BoundaryIs(db: Sealing.Tables, asked: Option<Uuid>)
    ensures match ResolveBoundary(db, asked)
      case Ok(boundary) =>
        && boundary in db.checkpoints
        && (asked.Some? ==> boundary.payload.checkpointId == asked.value)
        && (asked.None? ==>
            forall other | other in db.checkpoints :: other.payload.leafCount <= boundary.payload.leafCount)
      case Err(CheckpointNotFound) => asked.Some? && Sealing.IdUnused(db, asked.value)
      case Err(NoSealedCheckpoint) => asked.None? && db.checkpoints == []
      case Err(_) => false
  {
    LatestIsLargest(db.checkpoints);
    if asked.Some? {
      CheckpointByIdFound(db.checkpoints, asked.value);
    }
  }

  // The boundary holds an event of the instrument.
  ghost predicate Covers(events: seq<Event>, boundary: Checkpoint, instrumentId: string) {
    exists e | e in events :: e.commitment.instrumentId == instrumentId
        && e.sequence <= boundary.payload.lastSequence
  }

  lemma CoversIsCount(events: seq<Event>, boundary: Checkpoint, instrumentId: string)
    ensures Covers(events, boundary, instrumentId) <==> InstrumentEvents(events, boundary, instrumentId) != []
  {
    var last := boundary.payload.lastSequence;
    UptoMembers(events, last);
    OfInstrumentMembers(Upto(events, last), instrumentId);
    var found := InstrumentEvents(events, boundary, instrumentId);
    if found != [] {
      assert found[0] in found;
    }
  }

  // ---- One creation ----

  // The place of the checkpoint that a request means: the last one, or the one it names.
  ghost function MeansCheckpoint(db: Sealing.Tables, asked: Option<Uuid>): Option<nat> {
    if asked.Some? then CheckpointIndex(db.checkpoints, asked.value)
    else if db.checkpoints == [] then None
    else Some(|db.checkpoints| - 1)
  }

  lemma MeansBoundary(db: Sealing.Tables, asked: Option<Uuid>)
    requires Growing(db.checkpoints)
    ensures var k := MeansCheckpoint(db, asked);
      if k.Some? then k.value < |db.checkpoints| && ResolveBoundary(db, asked) == Ok(db.checkpoints[k.value])
      else ResolveBoundary(db, asked) == Err(if asked.Some? then CheckpointNotFound else NoSealedCheckpoint)
  {
    LatestIsLast(db.checkpoints);
  }

  ghost predicate IsNew(p: Package, id: Uuid, key: string, instrumentId: string, checkpointId: Uuid, now: Time,
      fingerprint: Bytes) {
    && p.fingerprint == fingerprint
    && p.packageId == id && p.idempotencyKey == key && p.instrumentId == instrumentId
    && p.checkpointId == checkpointId && p.status == Status.Pending && p.attemptCount == 0
    && p.createdAt == now && p.updatedAt == now && WellShaped(p)
  }

  ghost predicate OnlyIdTaken(packages: seq<Package>, key: string, id: Uuid) {
    (forall p | p in packages :: p.idempotencyKey != key) && exists p | p in packages :: p.packageId == id
  }

  // A request under a new key is refused exactly when it means no checkpoint, or that
  // checkpoint holds no event of the instrument. Else its package waits, bound to that
  // checkpoint, unless another creator has taken the key, or the new id, meanwhile.
  lemma WhatCreationReturns(sha: Hasher, r: Renderer, rows: Rows, chosen: Sealing.Tables, counted: Sealing.Tables,
      key: string, instrumentId: string, asked: Option<Uuid>, id: Uuid, now: Time, rivals: seq<Package>)
    requires Growing(chosen.checkpoints)
    requires forall p | p in rows.packages :: p.idempotencyKey != key
    ensures var (rows', result) :=
        CreatePackage(sha, r, rows, chosen, counted, key, instrumentId, asked, id, now, rivals);
      var (k, raced) := (MeansCheckpoint(chosen, asked), InsertRivals(rows, rivals));
      if k.None? then rows' == rows && result == Err(if asked.Some? then CheckpointNotFound else NoSealedCheckpoint)
      else
        k.value < |chosen.checkpoints| &&
        var boundary := chosen.checkpoints[k.value];
        if !Covers(counted.events, boundary, instrumentId) then
          && rows' == rows
          && result == Err(if asked.Some? then CheckpointDoesNotCoverInstrument else InstrumentHasNoSealedEvents)
        else
          && (result.Ok? && result.value.1 <==>
              forall p | p in raced.packages :: p.idempotencyKey != key && p.packageId != id)
          && (result.Ok? && result.value.1 ==>
              && rows' == raced.(packages := raced.packages + [result.value.0])
              && IsNew(result.value.0, id, key, instrumentId, boundary.payload.checkpointId, now,
                  sha.hash(r.requestJson(instrumentId, boundary.payload.checkpointId))))
          && (!(result.Ok? && result.value.1) ==> rows' == raced)
          && (result.Ok? && !result.value.1 ==>
              && result.value.0 in raced.packages && result.value.0.idempotencyKey == key
              && result.value.0.instrumentId == instrumentId
              && (asked.Some? ==> result.value.0.checkpointId == asked.value))
          && (result == Err(DuplicatePackage) <==> OnlyIdTaken(raced.packages, key, id))
          && (result.Err? ==> result == Err(KeyConflict) || result == Err(DuplicatePackage))
  {
    hide InsertRivals, InstrumentEvents, ResolveBoundary, Covers, WellShaped;
    MeansBoundary(chosen, asked);
    var raced := InsertRivals(rows, rivals);
    var k := MeansCheckpoint(chosen, asked);
    if k.Some? {
      var boundary := chosen.checkpoints[k.value];
      CoversIsCount(counted.events, boundary, instrumentId);
      InsertionIs(raced, NewPackage(sha, r, id, key, instrumentId, boundary.payload.checkpointId, now), asked);
      NewIsNew(sha, r, id, key, instrumentId, boundary.payload.checkpointId, now);
    }
    hide InsertPackage, NewPackage;
  }

  lemma InsertionIs(rows: Rows, draft: Package, asked: Option<Uuid>)
    ensures var (rows', result) := InsertPackage(rows, draft, asked);
      && (result.Ok? && result.value.1 <==>
          forall p | p in rows.packages :: p.idempotencyKey != draft.idempotencyKey && p.packageId != draft.packageId)
      && (result.Ok? && result.value.1 ==>
          result.value.0 == draft && rows' == rows.(packages := rows.packages + [draft]))
      && (!(result.Ok? && result.value.1) ==> rows' == rows)
      && (result.Ok? && !result.value.1 ==>
          && result.value.0 in rows.packages && result.value.0.idempotencyKey == draft.idempotencyKey
          && result.value.0.instrumentId == draft.instrumentId
          && (asked.Some? ==> result.value.0.checkpointId == asked.value))
      && (result == Err(DuplicatePackage) <==> OnlyIdTaken(rows.packages, draft.idempotencyKey, draft.packageId))
      && (result.Err? ==> result == Err(KeyConflict) || result == Err(DuplicatePackage))
  {
    var (i, j) :=
        (IndexOfKey(rows.packages, draft.idempotencyKey), IndexOfPackage(rows.packages, draft.packageId));
    if i.Some? {
      assert rows.packages[i.value] in rows.packages;
    } else if j.Some? {
      assert rows.packages[j.value] in rows.packages;
    }
  }

  lemma NewIsNew(sha: Hasher, r: Renderer, id: Uuid, key: string, instrumentId: string, checkpointId: Uuid, now: Time)
    ensures IsNew(NewPackage(sha, r, id, key, instrumentId, checkpointId, now), id, key, instrumentId, checkpointId,
        now, sha.hash(r.requestJson(instrumentId, checkpointId)))
  {
  }

  // ---- Runs ----

  // Step k chose this checkpoint for this request: the one that the request meant among the
  // checkpoints committed at that moment.
  ghost predicate MeantAt(e: Environment, steps: seq<Step>, k: nat, key: string, instrumentId: string,
      asked: Option<Uuid>, checkpointId: Uuid) {
    && k < |steps| && steps[k].Choose?
    && steps[k].key == key && steps[k].instrumentId == instrumentId && steps[k].asked == asked
    && var db := Run(e, INIT_WORLD, steps[..k]).ledger.db;
    var m := MeansCheckpoint(db, asked);
    m.Some? && m.value < |db.checkpoints| && db.checkpoints[m.value].payload.checkpointId == checkpointId
  }

  ghost predicate WasMeant(e: Environment, steps: seq<Step>, key: string, instrumentId: string, asked: Option<Uuid>,
      checkpointId: Uuid) {
    exists k: nat :: MeantAt(e, steps, k, key, instrumentId, asked, checkpointId)
  }

  ghost predicate CreationMeant(e: Environment, steps: seq<Step>, creation: Creation) {
    match creation
    case Chosen(key, instrumentId, asked, boundary) =>
      WasMeant(e, steps, key, instrumentId, asked, boundary.payload.checkpointId)
    case Drafted(asked, p) => WasMeant(e, steps, p.idempotencyKey, p.instrumentId, asked, p.checkpointId)
  }

  ghost predicate PackageMeant(e: Environment, steps: seq<Step>, p: Package) {
    exists asked :: WasMeant(e, steps, p.idempotencyKey, p.instrumentId, asked, p.checkpointId)
  }

  ghost predicate AllMeant(e: Environment, steps: seq<Step>, w: World) {
    && (forall t | t in w.creations :: CreationMeant(e, steps, w.creations[t]))
    && (forall p | p in w.rows.packages :: PackageMeant(e, steps, p))
  }

  lemma MeantBefore(e: Environment, steps: seq<Step>, key: string, instrumentId: string, asked: Option<Uuid>,
      checkpointId: Uuid)
    requires steps != [] && WasMeant(e, steps[..|steps| - 1], key, instrumentId, asked, checkpointId)
    ensures WasMeant(e, steps, key, instrumentId, asked, checkpointId)
  {
    hide MeansCheckpoint;
    var n := |steps| - 1;
    var k: nat :| MeantAt(e, steps[..n], k, key, instrumentId, asked, checkpointId);
    assert steps[..n][..k] == steps[..k];
    assert MeantAt(e, steps, k, key, instrumentId, asked, checkpointId);
  }

  lemma AllMeantBefore(e: Environment, steps: seq<Step>, w: World)
    requires steps != [] && AllMeant(e, steps[..|steps| - 1], w)
    ensures AllMeant(e, steps, w)
  {
    hide WasMeant;
    var n := |steps| - 1;
    forall t | t in w.creations ensures CreationMeant(e, steps, w.creations[t]) {
      match w.creations[t]
      case Chosen(key, instrumentId, asked, boundary) =>
        MeantBefore(e, steps, key, instrumentId, asked, boundary.payload.checkpointId);
      case Drafted(asked, p) => MeantBefore(e, steps, p.idempotencyKey, p.instrumentId, asked, p.checkpointId);
    }
    forall p | p in w.rows.packages ensures PackageMeant(e, steps, p) {
      var asked :| WasMeant(e, steps[..n], p.idempotencyKey, p.instrumentId, asked, p.checkpointId);
      MeantBefore(e, steps, p.idempotencyKey, p.instrumentId, asked, p.checkpointId);
    }
  }

  lemma ChoiceIsMeant(e: Environment, master: Keyring, steps: seq<Step>, w: World, step: Step)
    requires steps != [] && step == steps[|steps| - 1] && w == Run(e, INIT_WORLD, steps[..|steps| - 1])
    requires WorldInv(e, master, w) && step.Choose?
    ensures var creation := ChooseBoundary(w.ledger.db, w.rows, step.key, step.instrumentId, step.asked);
      creation.Some? ==> CreationMeant(e, steps, creation.value)
  {
    hide Run, RowsOk, ContentOk, CreationOk, ClaimOk, Protocol.Inv, Sealing.ChainLink, ResolveBoundary,
        MeansCheckpoint;
    SoundLedger(e.crypto, master, w.ledger);
    MeansBoundary(w.ledger.db, step.asked);
    var creation := ChooseBoundary(w.ledger.db, w.rows, step.key, step.instrumentId, step.asked);
    if creation.Some? {
      assert MeantAt(e, steps, |steps| - 1, step.key, step.instrumentId, step.asked,
          creation.value.boundary.payload.checkpointId);
    }
  }

  // Rows keep what they were made from, whichever step changes them.
  lemma RowsAreMeant(e: Environment, master: Keyring, steps: seq<Step>, w: World, step: Step, p': Package)
    requires WorldInv(e, master, w) && AllMeant(e, steps, w) && p' in RowsAfter(e, w, step).packages
    ensures PackageMeant(e, steps, p')
  {
    hide ContentOk, CreationOk, ClaimOk, Protocol.Inv, CreationMeant, PackageMeant, RowsOk;
    StepKeepsRows(e, master, w, step);
    hide WorldInv;
    var rows' := RowsAfter(e, w, step);
    var i :| 0 <= i < |rows'.packages| && rows'.packages[i] == p';
    if i < |w.rows.packages| {
      assert w.rows.packages[i] in w.rows.packages;
      SameRowMeant(e, steps, w.rows, rows', i);
    } else {
      AddedIsDraft(e, w, step, i);
      DraftMeant(e, steps, w.creations[step.t]);
    }
  }

  lemma SameRowMeant(e: Environment, steps: seq<Step>, rows: Rows, rows': Rows, i: nat)
    requires Evolves(rows, rows') && i < |rows.packages| && PackageMeant(e, steps, rows.packages[i])
    ensures PackageMeant(e, steps, rows'.packages[i])
  {
    hide WasMeant;
    assert Legal(rows.packages[i], rows'.packages[i]);
  }

  lemma DraftMeant(e: Environment, steps: seq<Step>, creation: Creation)
    requires creation.Drafted? && CreationMeant(e, steps, creation)
    ensures PackageMeant(e, steps, creation.draft)
  {
    hide WasMeant;
  }

  // Only an insertion adds a row, and it adds the draft.
  lemma AddedIsDraft(e: Environment, w: World, step: Step, i: nat)
    requires |w.rows.packages| <= i < |RowsAfter(e, w, step).packages|
    ensures step.Insert? && step.t in w.creations && w.creations[step.t].Drafted?
    ensures RowsAfter(e, w, step).packages[i] == w.creations[step.t].draft
  {
    hide BuildArchive;
    match step
    case TakeClaim(_, _, _, now, locked) =>
      CandidateIsFirst(w.rows.packages, now, locked);
    case _ =>
  }

  lemma CreationsAreMeant(e: Environment, master: Keyring, steps: seq<Step>, w: World, step: Step, t: nat)
    requires steps != [] && step == steps[|steps| - 1] && w == Run(e, INIT_WORLD, steps[..|steps| - 1])
    requires WorldInv(e, master, w) && AllMeant(e, steps, w) && t in CreationsAfter(e, w, step)
    ensures CreationMeant(e, steps, CreationsAfter(e, w, step)[t])
  {
    hide WorldInv, Run, WasMeant, ChooseBoundary, DraftPackage;
    if step.Choose? && step.t == t && t !in w.creations {
      ChoiceIsMeant(e, master, steps, w, step);
    } else if step.Count? && step.t == t && w.creations[t].Chosen? {
      DraftIsOf(e, w.ledger.db, w.creations[t], step.id, step.now);
    }
  }

  lemma DraftIsOf(e: Environment, db: Sealing.Tables, creation: Creation, id: Uuid, now: Time)
    requires creation.Chosen?
    ensures var drafted := DraftPackage(e, db, creation, id, now);
      drafted.Some? ==>
          drafted.value.Drafted? && drafted.value.asked == creation.asked
              && drafted.value.draft.idempotencyKey == creation.key
              && drafted.value.draft.instrumentId == creation.instrumentId
              && drafted.value.draft.checkpointId == creation.boundary.payload.checkpointId
  {
    hide InstrumentEvents;
  }

  // In every run every package is bound to the checkpoint that its request meant when the
  // boundary was chosen: the one it named, or else the last one committed by then.
  lemma {:induction false} PackagesAreMeant(e: Environment, master: Keyring, steps: seq<Step>)
    requires TrustedRun(master, steps)
    ensures AllMeant(e, steps, Run(e, INIT_WORLD, steps))
    decreases |steps|
  {
    hide WorldInv, RowsAfter, CreationsAfter, ClaimsAfter, TrustedStep, CreationMeant, PackageMeant, Protocol.Next;
    if steps == [] {
    } else {
      var n := |steps| - 1;
      var w := Run(e, INIT_WORLD, steps[..n]);
      PackagesAreMeant(e, master, steps[..n]);
      AllMeantBefore(e, steps, w);
      InitWorldInv(e, master);
      RunKeepsWorld(e, master, INIT_WORLD, steps[..n]);
      forall p | p in Run(e, INIT_WORLD, steps).rows.packages ensures PackageMeant(e, steps, p) {
        RowsAreMeant(e, master, steps, w, steps[n], p);
      }
      forall t | t in Run(e, INIT_WORLD, steps).creations
        ensures CreationMeant(e, steps, Run(e, INIT_WORLD, steps).creations[t]) {
        CreationsAreMeant(e, master, steps, w, steps[n], t);
      }
    }
  }
}
