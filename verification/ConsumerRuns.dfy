/** What holds of the consumers' cursors in every run, and the service that moves them. */
module ConsumerRuns {
  import opened Wrappers
  import opened Domain
  import opened Sealing
  import opened Runs
  import Protocol
  import opened Consumers

  // How many checkpoints a cursor has behind it.
  ghost function Position(db: Tables, cursor: Option<Uuid>): nat {
    if cursor.None? then 0
    else
      match CheckpointIndex(db.checkpoints, cursor.value)
      case Some(i) => i + 1
      case None => 0
  }

  ghost predicate Placed(db: Tables, cursor: Option<Uuid>) {
    StandsAt(db, cursor, Position(db, cursor))
  }

  lemma PositionIs(c: Crypto, master: Keyring, db: Tables, cursor: Option<Uuid>, k: nat)
    requires Chain(c, master, db) && StandsAt(db, cursor, k)
    ensures Placed(db, cursor) && Position(db, cursor) == k
  {
    if k > 0 {
      CheckpointByIdFinds(db.checkpoints, k - 1);
    }
  }

  // An acknowledgement never knows more than the stored cursor: what it read lies at or before
  // it, what it accepted is the successor of what it read, and a lost one is behind.
  ghost predicate AckOk(db: Tables, consumers: seq<Consumer>, ack: Ack) {
    && ack.row < |consumers|
    && var stored := Position(db, consumers[ack.row].lastCheckpointId);
      match ack
      case CursorRead(_, cursor) => Placed(db, cursor) && Position(db, cursor) <= stored
      case Accepted(_, current, submitted) =>
        var a := Position(db, ExpectedCursor(current));
        Placed(db, ExpectedCursor(current)) && a <= stored && a < |db.checkpoints| && submitted == db.checkpoints[a]
            && current == CheckpointBefore(db, a)
      case Lost(_, submitted) =>
        var a := Position(db, Some(submitted.payload.checkpointId));
        0 < a <= stored && a <= |db.checkpoints| && submitted == db.checkpoints[a - 1]
  }

  ghost predicate UniqueConsumers(consumers: seq<Consumer>) {
    forall i, j | 0 <= i < j < |consumers| ::
      consumers[i].consumerId != consumers[j].consumerId && consumers[i].idempotencyKey != consumers[j].idempotencyKey
  }

  ghost predicate CursorInv(c: Crypto, master: Keyring, w: World) {
    && Protocol.Inv(c, master, w.ledger)
    && UniqueConsumers(w.consumers)
    && (forall i | 0 <= i < |w.consumers| :: Placed(w.ledger.db, w.consumers[i].lastCheckpointId))
    && (forall n | n in w.acks :: AckOk(w.ledger.db, w.consumers, w.acks[n]))
  }

  ghost predicate TrustedStep(master: Keyring, step: Step) {
    step.LedgerStep? && step.step.SealRead? ==> Agrees(step.step.config.keyring, master)
  }

  ghost predicate TrustedRun(master: Keyring, steps: seq<Step>) {
    forall k | 0 <= k < |steps| :: TrustedStep(master, steps[k])
  }

  // ---- One step ----

  lemma PlacedStays(c: Crypto, master: Keyring, db: Tables, db': Tables, cursor: Option<Uuid>)
    requires Chain(c, master, db) && Chain(c, master, db') && Extends(db, db') && Placed(db, cursor)
    ensures Placed(db', cursor) && Position(db', cursor) == Position(db, cursor)
  {
    PositionIs(c, master, db', cursor, Position(db, cursor));
  }

  lemma AckStays(c: Crypto, master: Keyring, db: Tables, db': Tables, consumers: seq<Consumer>, ack: Ack)
    requires Chain(c, master, db) && Chain(c, master, db') && Extends(db, db') && AckOk(db, consumers, ack)
    requires Placed(db, consumers[ack.row].lastCheckpointId)
    ensures AckOk(db', consumers, ack)
  {
    hide Chain, Extends, Placed, Position, CheckpointBefore, ExpectedCursor;
    PlacedStays(c, master, db, db', consumers[ack.row].lastCheckpointId);
    CheckpointsStay(db, db');
    match ack
    case CursorRead(_, cursor) => PlacedStays(c, master, db, db', cursor);
    case Accepted(_, current, _) =>
      PlacedStays(c, master, db, db', ExpectedCursor(current));
      BeforeStays(db, db', Position(db, ExpectedCursor(current)));
    case Lost(_, submitted) =>
      PlacedSubmitted(db, submitted);
      PlacedStays(c, master, db, db', Some(submitted.payload.checkpointId));
  }

  lemma BeforeStays(db: Tables, db': Tables, k: nat)
    requires Extends(db, db') && k <= |db.checkpoints|
    ensures k <= |db'.checkpoints| && CheckpointBefore(db', k) == CheckpointBefore(db, k)
    ensures k < |db.checkpoints| ==> db'.checkpoints[k] == db.checkpoints[k]
    ensures k > 0 ==> db'.checkpoints[k - 1] == db.checkpoints[k - 1]
  {
  }

  lemma PlacedSubmitted(db: Tables, submitted: Checkpoint)
    requires var a := Position(db, Some(submitted.payload.checkpointId));
      0 < a <= |db.checkpoints| && submitted == db.checkpoints[a - 1]
    ensures Placed(db, Some(submitted.payload.checkpointId))
  {
  }

  lemma LedgerKeepsCursors(c: Crypto, master: Keyring, w: World, step: Step)
    requires CursorInv(c, master, w) && step.LedgerStep? && TrustedStep(master, step)
    ensures CursorInv(c, master, Take(c, w, step)) && Extends(w.ledger.db, Take(c, w, step).ledger.db)
  {
    StepKeepsInv(c, master, w.ledger, step.step);
    var db, db' := w.ledger.db, Take(c, w, step).ledger.db;
    assert Chain(c, master, db) && Chain(c, master, db');
    hide Protocol.Inv, Protocol.Next, Chain, Extends, Placed, AckOk;
    forall i | 0 <= i < |w.consumers| ensures Placed(db', w.consumers[i].lastCheckpointId) {
      PlacedStays(c, master, db, db', w.consumers[i].lastCheckpointId);
    }
    forall n | n in w.acks ensures AckOk(db', w.consumers, w.acks[n]) {
      AckInRange(db, w.consumers, w.acks[n]);
      AckStays(c, master, db, db', w.consumers, w.acks[n]);
    }
  }

  lemma AckInRange(db: Tables, consumers: seq<Consumer>, ack: Ack)
    requires AckOk(db, consumers, ack)
    ensures ack.row < |consumers|
  {
  }

  // Comparing keeps to the chain: only the successor of what was read is accepted.
  lemma CompareOk(c: Crypto, master: Keyring, db: Tables, consumers: seq<Consumer>, ack: Ack, checkpointId: Uuid)
    requires Chain(c, master, db) && ack.CursorRead? && AckOk(db, consumers, ack)
    ensures var compared := Compare(db, ack.row, ack.cursor, checkpointId);
      compared.Ok? <==>
          Position(db, ack.cursor) < |db.checkpoints|
          && db.checkpoints[Position(db, ack.cursor)].payload.checkpointId == checkpointId
    ensures var compared, k := Compare(db, ack.row, ack.cursor, checkpointId), Position(db, ack.cursor);
      compared.Ok? ==>
          AckOk(db, consumers, compared.value)
          && compared.value == Accepted(ack.row, CheckpointBefore(db, k), db.checkpoints[k])
  {
    var k := Position(db, ack.cursor);
    CursorFindsCheckpoint(c, master, db, ack.cursor, k);
    CheckpointByIdFound(db.checkpoints, checkpointId);
    if k < |db.checkpoints| {
      CheckpointByIdFinds(db.checkpoints, k);
    }
    if CheckpointById(db.checkpoints, checkpointId).Some? {
      var a :| 0 <= a < |db.checkpoints| && db.checkpoints[a] == CheckpointById(db.checkpoints, checkpointId).value
          && db.checkpoints[a].payload.checkpointId == checkpointId;
      ClassifyIsExact(c, master, db, k, a);
      ExpectedIs(db, ack.cursor, k);
    }
    hide Chain, Classify, Position, CheckpointById;
  }

  // What a submission that is not accepted is told, for every pair of places in the chain: the
  // reason, the checkpoint the cursor stands at, and the one submitted.
  lemma WhatComparisonTells(c: Crypto, master: Keyring, db: Tables, row: nat, cursor: Option<Uuid>, k: nat,
      checkpointId: Uuid)
    requires Chain(c, master, db) && StandsAt(db, cursor, k)
    ensures Compare(db, row, cursor, checkpointId) == Err(CheckpointNotFound) <==> IdUnused(db, checkpointId)
    ensures forall a | 0 <= a < |db.checkpoints| && db.checkpoints[a].payload.checkpointId == checkpointId ::
      Compare(db, row, cursor, checkpointId) ==
        if a == k then Ok(Accepted(row, CheckpointBefore(db, k), db.checkpoints[a]))
        else
          Err(AcknowledgementConflict(
              if k == 0 then NotFirst
              else if a > k then NotSuccessor
              else if a == k - 1 then Duplicate
              else Regressed, CheckpointBefore(db, k), db.checkpoints[a]))
  {
    hide Chain, Classify;
    CheckpointByIdFound(db.checkpoints, checkpointId);
    CursorFindsCheckpoint(c, master, db, cursor, k);
    forall a | 0 <= a < |db.checkpoints| && db.checkpoints[a].payload.checkpointId == checkpointId
      ensures Compare(db, row, cursor, checkpointId) ==
        if a == k then Ok(Accepted(row, CheckpointBefore(db, k), db.checkpoints[a]))
        else
          Err(AcknowledgementConflict(
              if k == 0 then NotFirst
              else if a > k then NotSuccessor
              else if a == k - 1 then Duplicate
              else Regressed, CheckpointBefore(db, k), db.checkpoints[a])) {
      ChainGrows(c, master, db);
      CheckpointByIdFinds(db.checkpoints, a);
      ClassifyIsExact(c, master, db, k, a);
    }
  }

  lemma ChainGrows(c: Crypto, master: Keyring, db: Tables)
    requires Chain(c, master, db)
    ensures Growing(db.checkpoints)
  {
  }

  lemma ExpectedIs(db: Tables, cursor: Option<Uuid>, k: nat)
    requires StandsAt(db, cursor, k)
    ensures ExpectedCursor(CheckpointBefore(db, k)) == cursor
  {
  }

  // Moving a cursor takes it to the next checkpoint, and exactly when it is still where it was
  // read.
  lemma MoveOk(c: Crypto, master: Keyring, db: Tables, consumers: seq<Consumer>, ack: Ack, now: Time)
    requires Chain(c, master, db) && ack.Accepted? && AckOk(db, consumers, ack)
        && Placed(db, consumers[ack.row].lastCheckpointId)
    ensures var (consumers', moved) := MoveCursor(consumers, ack.row, ack.current, ack.submitted, now);
      var stored := Position(db, consumers[ack.row].lastCheckpointId);
      && |consumers'| == |consumers|
      && (moved <==> stored == Position(db, ExpectedCursor(ack.current)))
      && (moved ==>
          stored < |db.checkpoints| && Placed(db, consumers'[ack.row].lastCheckpointId)
          && Position(db, consumers'[ack.row].lastCheckpointId) == stored + 1
          && consumers'[ack.row] == consumers[ack.row].(lastCheckpointId := consumers'[ack.row].lastCheckpointId,
              lastAcknowledgedAt := Some(now), updatedAt := now))
      && (!moved ==> AckOk(db, consumers, Lost(ack.row, ack.submitted)))
  {
    var a, stored := Position(db, ExpectedCursor(ack.current)), Position(db, consumers[ack.row].lastCheckpointId);
    PositionIs(c, master, db, Some(ack.submitted.payload.checkpointId), a + 1);
    assert stored < |db.checkpoints| && stored != a ==>
        db.checkpoints[stored].payload.checkpointId != db.checkpoints[a].payload.checkpointId;
    hide Chain, Position;
  }

  lemma OtherAcksStay(db: Tables, consumers: seq<Consumer>, consumers': seq<Consumer>, ack: Ack)
    requires AckOk(db, consumers, ack) && |consumers| <= |consumers'|
    requires Position(db, consumers[ack.row].lastCheckpointId) <= Position(db, consumers'[ack.row].lastCheckpointId)
    ensures AckOk(db, consumers', ack)
  {
    hide Position, Placed;
  }

  lemma EnrolKeepsCursors(c: Crypto, master: Keyring, w: World, step: Step)
    requires CursorInv(c, master, w) && step.Enrol?
    ensures CursorInv(c, master, Take(c, w, step))
  {
    var w' := Take(c, w, step);
    hide Protocol.Inv, AckOk;
    forall n | n in w'.acks ensures AckOk(w.ledger.db, w'.consumers, w'.acks[n]) {
      assert AckOk(w.ledger.db, w.consumers, w.acks[n]);
      AckInRange(w.ledger.db, w.consumers, w.acks[n]);
      OtherAcksStay(w.ledger.db, w.consumers, w'.consumers, w.acks[n]);
    }
  }

  lemma ReadKeepsCursors(c: Crypto, master: Keyring, w: World, step: Step)
    requires CursorInv(c, master, w) && (step.ReadCursor? || step.ReadCheckpoints? || step.ReportLoss? || step.Abandon?)
    ensures CursorInv(c, master, Take(c, w, step))
  {
    hide Protocol.Inv, AckOk, Chain, Compare, Position, Placed, UniqueConsumers, IndexOfConsumer;
    var db := w.ledger.db;
    ChainOfLedger(c, master, w.ledger);
    if step.ReadCursor? {
      var row := IndexOfConsumer(w.consumers, step.consumerId);
      if row.Some? {
        ReadIsOk(db, w.consumers, row.value);
      }
    } else if step.ReadCheckpoints? && step.n in w.acks && w.acks[step.n].CursorRead? {
      assert AckOk(db, w.consumers, w.acks[step.n]);
      CompareOk(c, master, db, w.consumers, w.acks[step.n], step.checkpointId);
    }
  }

  lemma ReadIsOk(db: Tables, consumers: seq<Consumer>, row: nat)
    requires row < |consumers| && Placed(db, consumers[row].lastCheckpointId)
    ensures AckOk(db, consumers, CursorRead(row, consumers[row].lastCheckpointId))
  {
  }

  lemma CompareAndSetKeepsCursors(c: Crypto, master: Keyring, w: World, step: Step)
    requires CursorInv(c, master, w) && step.CompareAndSet?
    ensures CursorInv(c, master, Take(c, w, step))
  {
    hide Protocol.Inv, AckOk, Chain, Placed, Position, UniqueConsumers;
    var db, w' := w.ledger.db, Take(c, w, step);
    ChainOfLedger(c, master, w.ledger);
    if step.n in w.acks && w.acks[step.n].Accepted? {
      var ack := w.acks[step.n];
      assert AckOk(db, w.consumers, ack);
      AckInRange(db, w.consumers, ack);
      MoveOk(c, master, db, w.consumers, ack, step.now);
      MoveKeepsUnique(w.consumers, ack, step.now);
      forall n | n in w'.acks ensures AckOk(db, w'.consumers, w'.acks[n]) {
        if n != step.n {
          assert AckOk(db, w.consumers, w.acks[n]);
          AckInRange(db, w.consumers, w.acks[n]);
          OtherAcksStay(db, w.consumers, w'.consumers, w.acks[n]);
        }
      }
    }
  }

  lemma MoveKeepsUnique(consumers: seq<Consumer>, ack: Ack, now: Time)
    requires ack.Accepted? && UniqueConsumers(consumers)
    ensures UniqueConsumers(MoveCursor(consumers, ack.row, ack.current, ack.submitted, now).0)
  {
  }

  // What a step acknowledges for a consumer is the checkpoint after its cursor, which then
  // moves by one; no other step moves it.
  lemma StepMovesCursor(c: Crypto, master: Keyring, w: World, step: Step, row: nat)
    requires CursorInv(c, master, w)
    ensures var db := w.ledger.db;
      var consumers' := Take(c, w, step).consumers;
      && |w.consumers| <= |consumers'|
      && (row < |w.consumers| && Acknowledges(w, step, row).None? ==> consumers'[row] == w.consumers[row])
      && (|w.consumers| <= row < |consumers'| ==> consumers'[row].lastCheckpointId == None)
      && (Acknowledges(w, step, row).Some? ==>
          && row < |w.consumers|
          && var k := Position(db, w.consumers[row].lastCheckpointId);
            k < |db.checkpoints| && Acknowledges(w, step, row).value == db.checkpoints[k]
                && StandsAt(db, consumers'[row].lastCheckpointId, k + 1))
  {
    hide Protocol.Inv, Chain, Position, Compare, UniqueConsumers, Protocol.Next, IndexOfConsumer, IndexOfKey;
    var db := w.ledger.db;
    ChainOfLedger(c, master, w.ledger);
    if step.CompareAndSet? && step.n in w.acks && w.acks[step.n].Accepted? {
      var ack := w.acks[step.n];
      assert AckOk(db, w.consumers, ack);
      MoveOk(c, master, db, w.consumers, ack, step.now);
    }
  }

  lemma StepKeepsCursors(c: Crypto, master: Keyring, w: World, step: Step)
    requires CursorInv(c, master, w) && TrustedStep(master, step)
    ensures CursorInv(c, master, Take(c, w, step)) && Extends(w.ledger.db, Take(c, w, step).ledger.db)
  {
    if step.LedgerStep? {
      LedgerKeepsCursors(c, master, w, step);
    } else {
      ExtendsItself(w.ledger.db);
      hide CursorInv, Extends;
      if step.Enrol? {
        EnrolKeepsCursors(c, master, w, step);
      } else if step.CompareAndSet? {
        CompareAndSetKeepsCursors(c, master, w, step);
      } else {
        ReadKeepsCursors(c, master, w, step);
      }
    }
  }

  // ---- Whole runs ----

  lemma InitCursorInv(c: Crypto, master: Keyring)
    ensures CursorInv(c, master, INIT_WORLD)
  {
    InitInv(c, master);
  }

  lemma {:induction false} RunKeepsCursors(c: Crypto, master: Keyring, w: World, steps: seq<Step>)
    requires CursorInv(c, master, w) && TrustedRun(master, steps)
    ensures CursorInv(c, master, Run(c, w, steps)) && Extends(w.ledger.db, Run(c, w, steps).ledger.db)
    decreases |steps|
  {
    hide CursorInv, Take, TrustedStep, Extends;
    if steps == [] {
      ExtendsItself(w.ledger.db);
    } else {
      var n := |steps| - 1;
      RunKeepsCursors(c, master, w, steps[..n]);
      StepKeepsCursors(c, master, Run(c, w, steps[..n]), steps[n]);
      ExtendsTransitive(w.ledger.db, Run(c, w, steps[..n]).ledger.db, Run(c, w, steps).ledger.db);
    }
  }

  // Cursors walk the chain: in every run, whatever reads and compare-and-sets interleave, the
  // checkpoints acknowledged for a consumer are the first ones of the chain, in order, none
  // skipped and none twice, and its cursor is the last of them.
  lemma {:induction false} CursorWalksTheChain(c: Crypto, master: Keyring, steps: seq<Step>, row: nat)
    requires TrustedRun(master, steps)
    ensures var w, acked := Run(c, INIT_WORLD, steps), Acknowledged(c, INIT_WORLD, steps, row);
      && |acked| <= |w.ledger.db.checkpoints| && acked == w.ledger.db.checkpoints[..|acked|]
      && (row < |w.consumers| ==> StandsAt(w.ledger.db, w.consumers[row].lastCheckpointId, |acked|))
      && (row >= |w.consumers| ==> acked == [])
    decreases |steps|
  {
    if steps == [] {
    } else {
      var n := |steps| - 1;
      var w, w' := Run(c, INIT_WORLD, steps[..n]), Run(c, INIT_WORLD, steps);
      CursorWalksTheChain(c, master, steps[..n], row);
      InitCursorInv(c, master);
      RunKeepsCursors(c, master, INIT_WORLD, steps[..n]);
      OneStepOfTheWalk(c, master, w, steps[n], row, Acknowledged(c, INIT_WORLD, steps[..n], row));
    }
  }

  lemma OneStepOfTheWalk(c: Crypto, master: Keyring, w: World, step: Step, row: nat, acked: seq<Checkpoint>)
    requires CursorInv(c, master, w) && TrustedStep(master, step)
    requires |acked| <= |w.ledger.db.checkpoints| && acked == w.ledger.db.checkpoints[..|acked|]
    requires row < |w.consumers| ==> StandsAt(w.ledger.db, w.consumers[row].lastCheckpointId, |acked|)
    requires row >= |w.consumers| ==> acked == []
    ensures var w' := Take(c, w, step);
      var last := Acknowledges(w, step, row);
      var acked' := acked + if last.Some? then [last.value] else [];
      && |acked'| <= |w'.ledger.db.checkpoints| && acked' == w'.ledger.db.checkpoints[..|acked'|]
      && (row < |w'.consumers| ==> StandsAt(w'.ledger.db, w'.consumers[row].lastCheckpointId, |acked'|))
      && (row >= |w'.consumers| ==> acked' == [])
  {
    hide CursorInv, Take, Acknowledges, Extends, Position, TrustedStep;
    var db, db' := w.ledger.db, Take(c, w, step).ledger.db;
    StepMovesCursor(c, master, w, step, row);
    StepKeepsCursors(c, master, w, step);
    CheckpointsStay(db, db');
    if row < |w.consumers| {
      PositionInWorld(c, master, w, row, |acked|);
    }
  }

  lemma CheckpointsStay(db: Tables, db': Tables)
    requires Extends(db, db')
    ensures |db.checkpoints| <= |db'.checkpoints| && db'.checkpoints[..|db.checkpoints|] == db.checkpoints
  {
  }

  lemma PositionInWorld(c: Crypto, master: Keyring, w: World, row: nat, k: nat)
    requires CursorInv(c, master, w) && row < |w.consumers|
        && StandsAt(w.ledger.db, w.consumers[row].lastCheckpointId, k)
    ensures Position(w.ledger.db, w.consumers[row].lastCheckpointId) == k
  {
    PositionIs(c, master, w.ledger.db, w.consumers[row].lastCheckpointId, k);
  }

  // A lost race is a duplicate or a regression: in every run an acknowledgement that lost its
  // compare-and-set is behind the stored cursor, so the fallback reason is never used.
  lemma LostRaceReason(c: Crypto, master: Keyring, steps: seq<Step>, n: nat)
    requires TrustedRun(master, steps)
    requires var w := Run(c, INIT_WORLD, steps); n in w.acks && w.acks[n].Lost?
    ensures var w := Run(c, INIT_WORLD, steps);
      var ack := w.acks[n];
      && ack.row < |w.consumers|
      && var cursor := w.consumers[ack.row].lastCheckpointId;
        var reason := Classify(CheckpointAt(w.ledger.db, cursor), ack.submitted);
        && RaceConflict(w.ledger.db, cursor, ack.submitted).reason
            == (if cursor == Some(ack.submitted.payload.checkpointId) then Duplicate else Regressed)
        && reason == Some(RaceConflict(w.ledger.db, cursor, ack.submitted).reason)
        && RaceConflict(w.ledger.db, cursor, ack.submitted).submitted == ack.submitted
        && Position(w.ledger.db, cursor) <= |w.ledger.db.checkpoints|
        && RaceConflict(w.ledger.db, cursor, ack.submitted).current
            == CheckpointBefore(w.ledger.db, Position(w.ledger.db, cursor))
  {
    var w := Run(c, INIT_WORLD, steps);
    InitCursorInv(c, master);
    RunKeepsCursors(c, master, INIT_WORLD, steps);
    hide Run;
    LostIsBehind(c, master, w, n);
  }

  // On any tables a lost race is told the reason of the comparison, or that its checkpoint is no
  // successor when the comparison finds none.
  lemma LossIsTold(db: Tables, cursor: Option<Uuid>, submitted: Checkpoint)
    ensures var (conflict, reason) :=
        (RaceConflict(db, cursor, submitted), Classify(CheckpointAt(db, cursor), submitted));
      && conflict.submitted == submitted && conflict.current == CheckpointAt(db, cursor)
      && (reason.Some? ==> conflict.reason == reason.value)
      && (reason.None? ==> conflict.reason == NotSuccessor)
  {
    hide Classify, CheckpointAt;
  }

  lemma LostIsBehind(c: Crypto, master: Keyring, w: World, n: nat)
    requires CursorInv(c, master, w) && n in w.acks && w.acks[n].Lost?
    ensures w.acks[n].row < |w.consumers|
    ensures var cursor := w.consumers[w.acks[n].row].lastCheckpointId;
      Classify(CheckpointAt(w.ledger.db, cursor), w.acks[n].submitted)
        == Some(if cursor == Some(w.acks[n].submitted.payload.checkpointId) then Duplicate else Regressed)
      && Position(w.ledger.db, cursor) <= |w.ledger.db.checkpoints|
      && CheckpointAt(w.ledger.db, cursor) == CheckpointBefore(w.ledger.db, Position(w.ledger.db, cursor))
  {
    hide Protocol.Inv, Chain, Classify, CheckpointAt, UniqueConsumers, Position;
    var db, ack := w.ledger.db, w.acks[n];
    ChainOfLedger(c, master, w.ledger);
    assert AckOk(db, w.consumers, ack);
    var cursor := w.consumers[ack.row].lastCheckpointId;
    var stored, a := Position(db, cursor), Position(db, Some(ack.submitted.payload.checkpointId));
    CursorFindsCheckpoint(c, master, db, cursor, stored);
    ClassifyIsExact(c, master, db, stored, a - 1);
    PositionIs(c, master, db, Some(ack.submitted.payload.checkpointId), a);
  }

  // Consumers are independent: a step changes at most the row its own acknowledgement is for.
  lemma ConsumersAreIndependent(c: Crypto, w: World, step: Step, row: nat)
    requires row < |w.consumers|
    requires step.CompareAndSet? && step.n in w.acks ==> w.acks[step.n].row != row
    ensures var w' := Take(c, w, step); row < |w'.consumers| && w'.consumers[row] == w.consumers[row]
  {
    hide Protocol.Next, Compare, IndexOfConsumer, IndexOfKey;
  }

  // Without a rival, submitting a checkpoint moves the cursor exactly when it is the next one.
  lemma NextCheckpointIsTaken(c: Crypto, master: Keyring, w: World, n: nat, row: nat, checkpointId: Uuid, now: Time)
    requires CursorInv(c, master, w) && n !in w.acks && row < |w.consumers|
    ensures var steps := [ReadCursor(n, w.consumers[row].consumerId), ReadCheckpoints(n, checkpointId),
        CompareAndSet(n, now)];
      var k := Position(w.ledger.db, w.consumers[row].lastCheckpointId);
      var next := k < |w.ledger.db.checkpoints| && w.ledger.db.checkpoints[k].payload.checkpointId == checkpointId;
      Run(c, w, steps) == if next
          then w.(consumers := w.consumers[row := Advanced(w.consumers[row], w.ledger.db.checkpoints[k], now)]) else w
  {
    hide CursorInv, Run, Compare, Chain, Position, Placed, IndexOfConsumer;
    var db, cursor := w.ledger.db, w.consumers[row].lastCheckpointId;
    var steps := [ReadCursor(n, w.consumers[row].consumerId), ReadCheckpoints(n, checkpointId), CompareAndSet(n, now)];
    RunOfThree(c, w, steps);
    CursorIsRead(c, master, w, n, row);
    var read := Take(c, w, steps[0]);
    CursorCompares(c, master, w, row, checkpointId);
    var compared := Compare(db, row, cursor, checkpointId);
    assert Take(c, read, steps[1]) == if compared.Ok? then w.(acks := w.acks[n := compared.value]) else w;
    if compared.Ok? {
      assert (w.acks[n := compared.value]) - {n} == w.acks;
    }
  }

  lemma CursorCompares(c: Crypto, master: Keyring, w: World, row: nat, checkpointId: Uuid)
    requires CursorInv(c, master, w) && row < |w.consumers|
    ensures var db, cursor := w.ledger.db, w.consumers[row].lastCheckpointId;
      var k, compared := Position(db, cursor), Compare(db, row, cursor, checkpointId);
      && (compared.Ok? <==> k < |db.checkpoints| && db.checkpoints[k].payload.checkpointId == checkpointId)
      && (compared.Ok? ==>
          compared.value == Accepted(row, CheckpointBefore(db, k), db.checkpoints[k])
          && ExpectedCursor(CheckpointBefore(db, k)) == cursor)
  {
    hide Protocol.Inv, AckOk, Chain, Compare, Position, UniqueConsumers;
    ChainOfLedger(c, master, w.ledger);
    var db, cursor := w.ledger.db, w.consumers[row].lastCheckpointId;
    ReadIsOk(db, w.consumers, row);
    CompareOk(c, master, db, w.consumers, CursorRead(row, cursor), checkpointId);
    ExpectedIs(db, cursor, Position(db, cursor));
  }

  lemma RunOfThree(c: Crypto, w: World, steps: seq<Step>)
    requires |steps| == 3
    ensures Run(c, w, steps) == Take(c, Take(c, Take(c, w, steps[0]), steps[1]), steps[2])
  {
    assert steps[..2][..1] == [steps[0]] && [steps[0]][..0] == [];
    hide Take;
    assert Run(c, w, []) == w;
    assert Run(c, w, [steps[0]]) == Take(c, w, steps[0]);
  }

  lemma CursorIsRead(c: Crypto, master: Keyring, w: World, n: nat, row: nat)
    requires CursorInv(c, master, w) && n !in w.acks && row < |w.consumers|
    ensures Take(c, w, ReadCursor(n, w.consumers[row].consumerId))
        == w.(acks := w.acks[n := CursorRead(row, w.consumers[row].lastCheckpointId)])
  {
  }
}
