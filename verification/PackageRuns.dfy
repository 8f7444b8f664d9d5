/** What holds of the audit packages in every run: of any number of workers that crash, are
    given up and resume late, with cancellations and retries at any moment, over a ledger that
    keeps growing. */
module PackageRuns {
  import opened Wrappers
  import opened Domain
  import opened Sealing
  import opened Runs
  import opened Receipts
  import opened ReceiptProofs
  import Protocol
  import opened Packages
  import opened PackageRows
  import opened PackageMachine
  import opened PackageBoundary
  import opened PackageInvariants

  // ---- One step ----

  lemma OneMoreEntry(c: Crypto, b: Tables, events: seq<Event>, entries: seq<ReceiptEntry>)
    requires b.checkpoints != [] && CollectedOk(c, b, events, entries) && |entries| < |events|
    ensures CollectedOk(c, b, events, entries + [TheEntry(c, b, events[|entries|])])
  {
    hide TheEntry, Covered;
  }

  lemma NextEntryOk(c: Crypto, master: Keyring, b: Tables, p: Package, phase: Phase, keyring: Keyring)
    requires Whole(c, master, b) && Agrees(keyring, master) && PhaseOk(c, master, b, p, phase)
    requires phase.Collecting? && |phase.snapshots| == 3 && |phase.entries| < |phase.events|
    ensures PhaseOk(c, master, b, p, NextEntry(c, phase, keyring))
  {
    hide MakeEntry, Chain, Whole, Extends, TheEntry, Covered, TheEvents, KeysFor, CollectedOk, BundleFor, KnownFailure,
        Agrees, TheBundleOf;
    var s := phase.snapshots;
    NextIsCovered(c, master, b, phase.events, phase.entries);
    EntryMade(c, master, b, Reads(s[0], s[0], s[0], s[1], s[2]), phase.events[|phase.entries|], keyring);
    OneMoreEntry(c, b, phase.events, phase.entries);
    LackingKeyIsKnown();
  }

  lemma LackingKeyIsKnown()
    ensures KnownFailure(ReceiptFailure(UnknownKeyVersion)) && KnownFailure(AuditExportFailed)
  {
  }

  lemma NextIsCovered(c: Crypto, master: Keyring, b: Tables, events: seq<Event>, entries: seq<ReceiptEntry>)
    requires Whole(c, master, b) && CollectedOk(c, b, events, entries) && |entries| < |events|
    ensures b.checkpoints != [] && events[|entries|] in Covered(b, |b.checkpoints| - 1)
  {
  }

  lemma RenderOk(c: Crypto, master: Keyring, b: Tables, p: Package, phase: Phase)
    requires Whole(c, master, b) && PhaseOk(c, master, b, p, phase) && phase.Collecting?
        && |phase.entries| == |phase.events|
    ensures BundleFor(p, phase.boundary, phase.entries) == TheBundleOf(c, master, b, p)
  {
    ExtendsItself(b);
    TheEventsAre(c, master, b, b, p.instrumentId);
    hide Chain, Extends, TheEntry, Covered, TheEvents;
    assert phase.entries == TheEntries(c, b, phase.events);
  }

  lemma ListingOk(c: Crypto, master: Keyring, b: Tables, db: Tables, p: Package)
    requires Whole(c, master, b) && Extends(b, db) && TheEvents(b, p.instrumentId) != []
    ensures ListEvents(db, p, Boundary(b)).Collecting? && PhaseOk(c, master, b, p, ListEvents(db, p, Boundary(b)))
  {
    TheEventsAre(c, master, b, db, p.instrumentId);
    var events := TheEvents(b, p.instrumentId);
    assert forall k | 0 <= k < |events| :: events[k] in events;
    hide Chain, Whole, Extends, Covered, InstrumentEvents, TheEvents;
  }

  lemma AdvanceOk(e: Environment, master: Keyring, db: Tables, rows: Rows, claim: Claim, step: Step)
    requires Chain(e.crypto, master, db) && UniqueIds(db.events) && TrustedStep(master, step)
    requires Bound(db, claim.package) && Whole(e.crypto, master, Base(db, claim.package.checkpointId))
    requires PhaseOk(e.crypto, master, Base(db, claim.package.checkpointId), claim.package, claim.phase)
    ensures PhaseOk(e.crypto, master, Base(db, claim.package.checkpointId), claim.package,
        Advance(e, db, rows, claim, step))
  {
    hide Chain, Whole, Extends, Base, Known, NextEntry, ListEvents, CollectedOk, TheBundleOf, TheEvents, BundleFor,
        KnownFailure, UniqueIds, Agrees, InstrumentEvents, CheckpointById;
    LackingKeyIsKnown();
    var c, p, phase := e.crypto, claim.package, claim.phase;
    var b := Base(db, p.checkpointId);
    BaseIsWhole(c, master, db, p.checkpointId);
    match step
    case ReadEvents(_) => ListingOk(c, master, b, db, p);
    case MakeReceipt(_, keyring) =>
      if phase.Collecting? && |phase.snapshots| == 3 && |phase.entries| < |phase.events| {
        NextEntryOk(c, master, b, p, phase, keyring);
      }
    case Render(_) =>
      if phase.Collecting? && |phase.entries| == |phase.events| {
        RenderOk(c, master, b, p, phase);
      }
    case _ =>
  }

  lemma ClaimEvolves(c: Crypto, master: Keyring, db: Tables, rows: Rows, rows': Rows, claim: Claim)
    requires ClaimOk(c, master, db, rows.packages, claim) && Evolves(rows, rows')
    ensures ClaimOk(c, master, db, rows'.packages, claim)
  {
    hide Whole, Known, Base, PhaseOk;
  }

  // The boundary of a claim is the boundary of its row.
  lemma ClaimBound(e: Environment, master: Keyring, w: World, n: nat)
    requires WorldInv(e, master, w) && n in w.claims
    ensures Bound(w.ledger.db, w.claims[n].package)
  {
    hide Whole, Known, Base, PhaseOk, TheEvents, Protocol.Inv, RowsOk, CreationOk, TheArchive, KnownFailure;
    assert ClaimOk(e.crypto, master, w.ledger.db, w.rows.packages, w.claims[n]);
    assert ContentOk(e, master, w.ledger.db, w.rows, w.claims[n].row);
  }

  lemma NewClaimOk(e: Environment, master: Keyring, w: World, step: Step)
    requires WorldInv(e, master, w) && step.TakeClaim? && Candidate(w.rows.packages, step.now, step.locked).Some?
    ensures var (rows', i) := ClaimPackage(w.rows, step.worker, step.lease, step.now, step.locked);
      i.Some? && i.value < |rows'.packages|
          && ClaimOk(e.crypto, master, w.ledger.db, rows'.packages, Claim(i.value, rows'.packages[i.value], Started))
  {
    hide Whole, Known, Base, TheEvents, Protocol.Inv, Eligible, RowsOk, CreationOk, ClaimOk, PhaseOk, Candidate,
        TheArchive, KnownFailure;
    CandidateIsFirst(w.rows.packages, step.now, step.locked);
    var i := Candidate(w.rows.packages, step.now, step.locked).value;
    assert ContentOk(e, master, w.ledger.db, w.rows, i);
    TakenClaimOk(e.crypto, master, w.ledger.db, w.rows, i, step.worker, step.lease, step.now);
  }

  lemma TakenClaimOk(c: Crypto, master: Keyring, db: Tables, rows: Rows, i: nat, worker: string, lease: Time, now: Time)
    requires i < |rows.packages| && Known(db, rows.packages[i].checkpointId)
        && Whole(c, master, Base(db, rows.packages[i].checkpointId))
    ensures var p := Claimed(rows.packages[i], worker, lease, now);
      ClaimOk(c, master, db, WithRow(rows, i, p).packages, Claim(i, p, Started))
  {
    hide Whole, Known, Base;
  }

  // A build that advances stays sound.
  lemma AdvancedClaimOk(e: Environment, master: Keyring, w: World, step: Step)
    requires WorldInv(e, master, w) && TrustedStep(master, step) && BuildStep(step) && step.n in w.claims
    ensures ClaimOk(e.crypto, master, w.ledger.db, w.rows.packages,
        w.claims[step.n].(phase := Advance(e, w.ledger.db, w.rows, w.claims[step.n], step)))
  {
    hide PhaseOk, Whole, Known, Base, RowsOk, ContentOk, CreationOk, Advance, Protocol.Inv, Chain, UniqueIds,
        SameIdentity;
    ClaimBound(e, master, w, step.n);
    SoundLedger(e.crypto, master, w.ledger);
    assert ClaimOk(e.crypto, master, w.ledger.db, w.rows.packages, w.claims[step.n]);
    AdvanceOk(e, master, w.ledger.db, w.rows, w.claims[step.n], step);
  }

  lemma ClaimsStayOk(e: Environment, master: Keyring, w: World, step: Step, n: nat)
    requires WorldInv(e, master, w) && !step.LedgerStep? && TrustedStep(master, step) && n in ClaimsAfter(e, w, step)
    requires Evolves(w.rows, RowsAfter(e, w, step))
    ensures ClaimOk(e.crypto, master, w.ledger.db, RowsAfter(e, w, step).packages, ClaimsAfter(e, w, step)[n])
  {
    hide Evolves, ContentOk, CreationOk, ClaimOk, Advance, RowsOk, Protocol.Inv, ClaimPackage;
    if BuildStep(step) && step.n == n {
      AdvancedClaimOk(e, master, w, step);
    } else if n in w.claims {
      hide RowsAfter;
      assert ClaimsAfter(e, w, step)[n] == w.claims[n];
      ClaimEvolves(e.crypto, master, w.ledger.db, w.rows, RowsAfter(e, w, step), w.claims[n]);
    } else {
      ClaimTaken(e, w, step, n);
      NewClaimOk(e, master, w, step);
    }
  }

  lemma ClaimTaken(e: Environment, w: World, step: Step, n: nat)
    requires n !in w.claims && n in ClaimsAfter(e, w, step)
    ensures step.TakeClaim? && Candidate(w.rows.packages, step.now, step.locked).Some?
    ensures var (rows', i) := ClaimPackage(w.rows, step.worker, step.lease, step.now, step.locked);
      && i.Some? && i.value < |rows'.packages| && RowsAfter(e, w, step) == rows'
      && ClaimsAfter(e, w, step)[n] == Claim(i.value, rows'.packages[i.value], Started)
  {
    hide Claimed, Candidate, Advance;
    if step.TakeClaim? {
      CandidateIsFirst(w.rows.packages, step.now, step.locked);
    }
  }

  lemma ContentStaysOk(e: Environment, master: Keyring, w: World, step: Step, i: nat)
    requires WorldInv(e, master, w) && !step.LedgerStep? && i < |RowsAfter(e, w, step).packages|
    requires Evolves(w.rows, RowsAfter(e, w, step))
    ensures ContentOk(e, master, w.ledger.db, RowsAfter(e, w, step), i)
  {
    var db, rows := w.ledger.db, w.rows;
    hide Protocol.Inv, ContentOk, CreationOk, ClaimOk, FinishBuild, FailOrCancel, InsertPackage;
    if step.Insert? {
      InsertedContentOk(e, master, w, step.t, i);
    } else if step.Finish? {
      FinishedContentOk(e, master, w, step.n, step.now, i);
    } else if step.RecordFailure? {
      FailedContentOk(e, master, w, step.n, step.reason, step.now, i);
    } else {
      StepIsQuiet(e, w, step);
      hide RowsAfter, RowsOk;
      QuietKeepsContent(e, master, db, rows, RowsAfter(e, w, step), i);
    }
  }

  lemma InsertedContentOk(e: Environment, master: Keyring, w: World, t: nat, i: nat)
    requires WorldInv(e, master, w) && i < |RowsAfter(e, w, Insert(t)).packages|
    ensures ContentOk(e, master, w.ledger.db, RowsAfter(e, w, Insert(t)), i)
  {
    hide ContentOk, ClaimOk, CreationOk, InsertPackage, RowsOk, Whole, Known, Base, TheEvents, Protocol.Inv,
        WellShaped, Chain, UniqueIds, Extends;
    if t in w.creations && w.creations[t].Drafted? {
      var draft := w.creations[t].draft;
      SoundLedger(e.crypto, master, w.ledger);
      assert CreationOk(w.ledger.db, w.creations[t]);
      DraftIsPending(w.ledger.db, w.creations[t]);
      BaseIsWhole(e.crypto, master, w.ledger.db, draft.checkpointId);
      InsertKeepsContent(e, master, w.ledger.db, w.rows, draft, w.creations[t].asked, i);
    }
  }

  lemma DraftIsPending(db: Tables, creation: Creation)
    requires CreationOk(db, creation) && creation.Drafted?
    ensures creation.draft.status == Status.Pending && creation.draft.attemptCount == 0
        && Known(db, creation.draft.checkpointId) && Bound(db, creation.draft)
  {
  }

  lemma FinishedContentOk(e: Environment, master: Keyring, w: World, n: nat, now: Time, i: nat)
    requires WorldInv(e, master, w) && i < |RowsAfter(e, w, Finish(n, now)).packages|
    ensures ContentOk(e, master, w.ledger.db, RowsAfter(e, w, Finish(n, now)), i)
  {
    hide ContentOk, CreationOk, FinishBuild, Protocol.Inv, Whole, Known, Base, BuildArchive;
    if n in w.claims && w.claims[n].phase.Rendered? {
      var claim := w.claims[n];
      assert ClaimOk(e.crypto, master, w.ledger.db, w.rows.packages, claim);
      SameArchive(e, master, Base(w.ledger.db, claim.package.checkpointId), w.rows.packages[claim.row], claim.package);
      var archive := BuildArchive(e.crypto.sha, e.renderer, claim.phase.bundle);
      assert archive == TheArchive(e, master, Base(w.ledger.db, claim.package.checkpointId), claim.package);
      hide ClaimOk, TheArchive;
      FinishKeepsLength(w.rows, claim.row, claim.package.leaseOwner, archive, now);
      FinishKeepsContent(e, master, w.ledger.db, w.rows, claim.row, claim.package.leaseOwner, archive, now, i);
    }
  }

  lemma FinishKeepsLength(rows: Rows, k: nat, owner: Option<string>, archive: Archive, now: Time)
    ensures |FinishBuild(rows, k, owner, archive, now).0.packages| == |rows.packages|
  {
  }

  lemma FailedContentOk(e: Environment, master: Keyring, w: World, n: nat, reason: string, now: Time, i: nat)
    requires WorldInv(e, master, w) && i < |RowsAfter(e, w, RecordFailure(n, reason, now)).packages|
    ensures ContentOk(e, master, w.ledger.db, RowsAfter(e, w, RecordFailure(n, reason, now)), i)
  {
    hide ContentOk, CreationOk, Protocol.Inv, Whole, Known, Base;
    if n in w.claims && w.claims[n].phase.Broken? {
      var claim := w.claims[n];
      assert ClaimOk(e.crypto, master, w.ledger.db, w.rows.packages, claim);
      FailKeepsContent(e, master, w.ledger.db, w.rows, claim.row, claim.package.leaseOwner, claim.phase.code, reason,
          now, i);
    }
  }

  lemma ChosenOk(c: Crypto, master: Keyring, db: Tables, rows: Rows, key: string, instrumentId: string,
      asked: Option<Uuid>)
    requires Chain(c, master, db)
    ensures var creation := ChooseBoundary(db, rows, key, instrumentId, asked); creation.Some? ==>
        CreationOk(db, creation.value)
  {
    LatestIsLast(db.checkpoints);
    if asked.Some? {
      CheckpointByIdFound(db.checkpoints, asked.value);
    }
    var resolved := ResolveBoundary(db, asked);
    if resolved.Ok? {
      var i :| 0 <= i < |db.checkpoints| && db.checkpoints[i] == resolved.value;
      CheckpointByIdFinds(db.checkpoints, i);
    }
  }

  lemma DraftOk(e: Environment, master: Keyring, db: Tables, creation: Creation, id: Uuid, now: Time)
    requires Chain(e.crypto, master, db) && UniqueIds(db.events) && creation.Chosen? && CreationOk(db, creation)
    ensures var drafted := DraftPackage(e, db, creation, id, now); drafted.Some? ==> CreationOk(db, drafted.value)
  {
    var b := Base(db, creation.boundary.payload.checkpointId);
    BaseIsWhole(e.crypto, master, db, creation.boundary.payload.checkpointId);
    TheEventsAre(e.crypto, master, b, db, creation.instrumentId);
    hide Chain, Whole, Extends, Base, Known, TheEvents, InstrumentEvents, UniqueIds;
  }

  lemma CreationsStayOk(e: Environment, master: Keyring, w: World, step: Step, t: nat)
    requires WorldInv(e, master, w) && !step.LedgerStep? && t in CreationsAfter(e, w, step)
    ensures CreationOk(w.ledger.db, CreationsAfter(e, w, step)[t])
  {
    hide Chain, UniqueIds, ContentOk, ClaimOk, CreationOk, RowsOk, ChooseBoundary, DraftPackage, Protocol.Inv;
    SoundLedger(e.crypto, master, w.ledger);
    if step.Choose? && step.t == t && t !in w.creations {
      ChosenOk(e.crypto, master, w.ledger.db, w.rows, step.key, step.instrumentId, step.asked);
    } else if step.Count? && step.t == t && w.creations[t].Chosen? {
      DraftOk(e, master, w.ledger.db, w.creations[t], step.id, step.now);
    }
  }

  lemma StepKeepsWorld(e: Environment, master: Keyring, w: World, step: Step)
    requires WorldInv(e, master, w) && TrustedStep(master, step)
    ensures WorldInv(e, master, Work(e, w, step)) && Evolves(w.rows, Work(e, w, step).rows)
  {
    hide RowsAfter, CreationsAfter, ClaimsAfter, RowsOk, Evolves, ContentOk, CreationOk, ClaimOk, Protocol.Inv,
        TrustedStep;
    StepKeepsRows(e, master, w, step);
    if step.LedgerStep? {
      LedgerKeepsWorld(e, master, w, step);
    } else {
      var w' := Work(e, w, step);
      forall i | 0 <= i < |w'.rows.packages| ensures ContentOk(e, master, w'.ledger.db, w'.rows, i) {
        ContentStaysOk(e, master, w, step, i);
      }
      forall t | t in w'.creations ensures CreationOk(w'.ledger.db, w'.creations[t]) {
        CreationsStayOk(e, master, w, step, t);
      }
      forall n | n in w'.claims ensures ClaimOk(e.crypto, master, w'.ledger.db, w'.rows.packages, w'.claims[n]) {
        ClaimsStayOk(e, master, w, step, n);
      }
    }
  }
}
