/** What holds in every run of writers and sealers, whatever the interleaving. */
module Runs {
  import opened Wrappers
  import opened Domain
  import opened Sealing
  import opened Protocol
  import opened ProtocolInvariants

  // The later tables have the same checkpoints and more, and nothing changed at or below a
  // sealed boundary.
  ghost predicate Extends(db: Tables, db': Tables) {
    && db.checkpoints <= db'.checkpoints
    && LastOf(db) <= LastOf(db')
    && (forall b | b <= LastOf(db) :: Upto(db'.events, b) == Upto(db.events, b))
    && (forall e | e in db.events :: e in db'.events)
  }

  lemma LastBelowNext(c: Crypto, master: Keyring, s: System)
    requires Inv(c, master, s)
    ensures LastOf(s.db) < s.nextSequence
  {
    if s.db.checkpoints != [] {
      var i := |s.db.checkpoints| - 1;
      assert ChainLink(c, master, s.db, i);
      UptoIsPrefix(s.db.events, LastOf(s.db));
      assert s.db.events[s.db.checkpoints[i].payload.leafCount - 1] in s.db.events;
    }
  }

  lemma WriterStepKeepsInv(c: Crypto, master: Keyring, s: System, step: Step)
    requires Inv(c, master, s)
        && (step.Begin? || step.PrepareReport? || step.PrepareSuccessor? || step.DrawNumber? || step.StoreRow?
        || step.Abort?)
    ensures Inv(c, master, Next(c, s, step)) && Next(c, s, step).db == s.db
  {
    hide Chain, Linked, FindEvent, ReportCommitment, SuccessorCommitment, MayFollow, Numbering, Unique, Lineages,
        LastOf, IsRow, EventLeaf;
    var t, s' := step.t, Next(c, s, step);
    LastBelowNext(c, master, s);
    RestKeepsNumbering(c, s, t);
    RestRows(s, t);
    FewerRowsStayUnique(s, Rest(s, t));
    LineagesKept(s, Rest(s, t));
    match step
    case Begin(_) =>
      if s.sealer.None? && t !in s.writers {
        SameNumbersKeepNumbering(c, s, t, Writer([], Resting));
        StageRows(s, t, Writer([], Resting));
        FewerRowsStayUnique(s, s');
        LineagesKept(s, s');
      }
    case PrepareReport(_, _, _, _, _, _, _, _) =>
      PrepareKeepsLineages(c, s, step);
      if t in s.writers && s.writers[t].stage.Resting? {
        StageKeepsRest(c, s, t, s'.writers[t]);
      }
    case PrepareSuccessor(_, _, _, _, _, _, _, _) =>
      PrepareKeepsLineages(c, s, step);
      if t in s.writers && s.writers[t].stage.Resting? && t in s'.writers {
        StageKeepsRest(c, s, t, s'.writers[t]);
      }
    case DrawNumber(_) =>
      DrawKeepsNumbering(c, s, t);
      DrawKeepsLineages(c, s, t);
      if t in s.writers && s.writers[t].stage.Prepared? {
        DrawRows(c, s, t);
        FewerRowsStayUnique(s, s');
      }
    case StoreRow(_) =>
      StoreKeepsNumbering(c, s, t);
      StoreKeepsUnique(c, s, t);
      StoreKeepsLineages(c, s, t);
    case Abort(_) =>
  }

  lemma StageKeepsRest(c: Crypto, s: System, t: nat, w: Writer)
    requires Numbering(c, s) && Unique(s) && t in s.writers && s.writers[t].stage.Resting?
    requires w.rows == s.writers[t].rows && w.stage.Prepared?
    ensures Numbering(c, WithWriter(s, t, w)) && Unique(WithWriter(s, t, w))
  {
    assert WriterNumbered(c, s, s.writers[t]);
    assert forall n :: Holds(w, n) <==> Holds(s.writers[t], n);
    SameNumbersKeepNumbering(c, s, t, w);
    StageRows(s, t, w);
    FewerRowsStayUnique(s, WithWriter(s, t, w));
  }

  lemma DrawRows(c: Crypto, s: System, t: nat)
    requires t in s.writers && s.writers[t].stage.Prepared?
    ensures forall e | IsRow(Next(c, s, DrawNumber(t)), e) :: IsRow(s, e)
  {
    var s' := Next(c, s, DrawNumber(t));
    forall e | InFlight(s', e) ensures InFlight(s, e) {
      var u :| u in s'.writers && e in s'.writers[u].rows;
      assert u in s.writers && e in s.writers[u].rows;
    }
  }

  lemma CommitKeepsInv(c: Crypto, master: Keyring, s: System, t: nat)
    requires Inv(c, master, s)
    ensures Inv(c, master, Next(c, s, Commit(t))) && Extends(s.db, Next(c, s, Commit(t)).db)
  {
    if t in s.writers && s.writers[t].stage.Resting? {
      var s' := Next(c, s, Commit(t));
      WriterRowsAreNew(c, s, t);
      CommitKeepsChain(c, master, s.db, s.writers[t].rows);
      CommitKeepsNumbering(c, s, t);
      CommitRows(c, s, t);
      hide Chain, Numbering, IsRow;
      FewerRowsStayUnique(s, s');
      LineagesKept(s, s');
    }
  }

  // Only the checkpoints and the sealer change, and a checkpoint is only added while no writer
  // is under way.
  lemma SealerFrame(c: Crypto, s: System, s': System)
    requires Numbering(c, s) && Unique(s) && Lineages(s)
    requires s'.writers == s.writers && s'.db.events == s.db.events && s'.nextSequence == s.nextSequence
    requires s'.db == s.db || s.writers == map[]
    ensures Numbering(c, s') && Unique(s') && Lineages(s')
  {
    assert forall e :: InFlight(s', e) <==> InFlight(s, e);
    FewerRowsStayUnique(s, s');
    LineagesKept(s, s');
    hide Unique, Lineages;
    forall t | t in s'.writers ensures WriterNumbered(c, s', s'.writers[t]) {
      assert WriterNumbered(c, s, s.writers[t]);
    }
  }

  lemma SealerStepKeepsInv(c: Crypto, master: Keyring, s: System, step: Step)
    requires Inv(c, master, s) && (step.SealLock? || step.SealRead? || step.SealCommit? || step.SealAbort?)
    requires step.SealRead? ==> Agrees(step.config.keyring, master)
    ensures Inv(c, master, Next(c, s, step)) && Extends(s.db, Next(c, s, step).db)
  {
    hide Numbering, Unique, Lineages, PlanSeal, Linked;
    var s' := Next(c, s, step);
    SealerFrame(c, s, s');
    if step.SealRead? {
      hide Chain;
      if s.sealer == Some(Locked) && PlanSeal(c, s.db, step.config, step.id, step.now).Sealed? {
        SealIsLinked(c, master, s.db, step.config, step.id, step.now);
      }
    } else if step.SealCommit? && s.sealer.Some? && s.sealer.value.Planned?
        && IdUnused(s.db, s.sealer.value.checkpoint.payload.checkpointId) {
      hide Chain;
      AppendKeepsChain(c, master, s.db, s.sealer.value.checkpoint);
    }
  }

  lemma StepKeepsInv(c: Crypto, master: Keyring, s: System, step: Step)
    requires Inv(c, master, s) && (step.SealRead? ==> Agrees(step.config.keyring, master))
    ensures Inv(c, master, Next(c, s, step)) && Extends(s.db, Next(c, s, step).db)
  {
    hide Inv, Next, Upto, LastOf;
    if step.Commit? {
      CommitKeepsInv(c, master, s, step.t);
    } else if step.SealLock? || step.SealRead? || step.SealCommit? || step.SealAbort? {
      SealerStepKeepsInv(c, master, s, step);
    } else {
      WriterStepKeepsInv(c, master, s, step);
    }
  }

  lemma RunOfThree(c: Crypto, s: System, steps: seq<Step>)
    requires |steps| == 3
    ensures Exec(c, s, steps) == Next(c, Next(c, Next(c, s, steps[0]), steps[1]), steps[2])
  {
    hide Next;
    assert steps[..2][..1] == [steps[0]] && [steps[0]][..0] == [];
    assert Exec(c, s, []) == s;
    assert Exec(c, s, [steps[0]]) == Next(c, s, steps[0]);
  }

  lemma ExtendsItself(db: Tables)
    ensures Extends(db, db)
  {
  }

  lemma ChainOfLedger(c: Crypto, master: Keyring, s: System)
    requires Inv(c, master, s)
    ensures Chain(c, master, s.db)
  {
  }

  lemma ExtendsTransitive(a: Tables, b: Tables, d: Tables)
    requires Extends(a, b) && Extends(b, d)
    ensures Extends(a, d)
  {
    hide Upto, LastOf;
  }

  // Every run keeps every invariant, and only ever extends the tables.
  lemma {:induction false} RunKeepsInv(c: Crypto, master: Keyring, s: System, steps: seq<Step>)
    requires Inv(c, master, s) && Trusted(master, steps)
    ensures Inv(c, master, Exec(c, s, steps)) && Extends(s.db, Exec(c, s, steps).db)
    decreases |steps|
  {
    hide Inv, Next;
    if steps == [] {
    } else {
      var n := |steps| - 1;
      RunKeepsInv(c, master, s, steps[..n]);
      StepKeepsInv(c, master, Exec(c, s, steps[..n]), steps[n]);
      ExtendsTransitive(s.db, Exec(c, s, steps[..n]).db, Exec(c, s, steps).db);
    }
  }

  lemma InitInv(c: Crypto, master: Keyring)
    ensures Inv(c, master, INIT)
  {
  }

  // Sealed boundaries are closed for ever: in every run, once a checkpoint has committed, the
  // committed events at or below its last sequence are exactly its leaves in all later states.
  lemma SealedBoundaryClosed(c: Crypto, master: Keyring, before: seq<Step>, later: seq<Step>, i: nat)
    requires Trusted(master, before) && Trusted(master, later)
    requires i < |Exec(c, INIT, before).db.checkpoints|
    ensures var s := Exec(c, INIT, before);
      var s' := Exec(c, s, later);
      var p := s.db.checkpoints[i].payload;
      var sealed := Upto(s.db.events, p.lastSequence);
      && i < |s'.db.checkpoints| && s'.db.checkpoints[i] == s.db.checkpoints[i]
      && |sealed| == p.leafCount && Upto(s'.db.events, p.lastSequence) == sealed
      && (forall e: Event | e.sequence <= p.lastSequence :: e in s'.db.events <==> e in sealed)
  {
    var s := Exec(c, INIT, before);
    InitInv(c, master);
    RunKeepsInv(c, master, INIT, before);
    RunKeepsInv(c, master, s, later);
    var s' := Exec(c, s, later);
    var p := s.db.checkpoints[i].payload;
    SealedPrefix(c, master, s.db);
    assert ChainLink(c, master, s.db, i);
    UptoMembers(s'.db.events, p.lastSequence);
  }

  lemma {:induction false} UptoMembers(events: seq<Event>, bound: int)
    ensures forall e :: e in Upto(events, bound) <==> e in events && e.sequence <= bound
  {
    if events == [] {
    } else {
      var n := |events| - 1;
      UptoMembers(events[..n], bound);
      assert events == events[..n] + [events[n]];
    }
  }

  // In every run a sealing attempt that reads the tables is idle, lacks a key, or seals: the
  // corruption and signature errors are unreachable.
  lemma NoRunReportsCorruption(c: Crypto, master: Keyring, steps: seq<Step>, config: SealerConfig, id: Uuid, now: Time)
    requires Trusted(master, steps) && Agrees(config.keyring, master)
    ensures var result := PlanSeal(c, Exec(c, INIT, steps).db, config, id, now);
      result.Idle? || result.Sealed? || result == Failed(UnknownKeyVersion)
  {
    InitInv(c, master);
    RunKeepsInv(c, master, INIT, steps);
    SealOutcome(c, master, Exec(c, INIT, steps).db, config, id, now);
  }
}
