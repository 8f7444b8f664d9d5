/** Writers and sealers as interleaved database transactions.

    A writer holds the advisory lock shared from before it draws a sequence number until it
    commits or aborts; a sealer holds it exclusively (src/ledger/service.py:95-109,
    src/ledger/sealing.py:59-68). What a transaction has read, drawn or inserted but not
    committed is local to it, so every interleaving of these steps is a run. */
module Protocol {
  import opened Wrappers
  import opened Hashing
  import opened Domain
  import opened Sealing

  datatype Stage = Resting | Prepared(commitment: Commitment) | Numbered(commitment: Commitment, number: int)
  datatype Writer = Writer(rows: seq<Event>, stage: Stage)
  datatype SealerTxn = Locked | Planned(checkpoint: Checkpoint)

  datatype System = System(db: Tables, nextSequence: int, writers: map<nat, Writer>, sealer: Option<SealerTxn>)

  const INIT := System(Tables([], []), 1, map[], None)

  // What a successor carries: a revision names its instrument and a report, a revocation only
  // a reason.
  datatype Successor = Revise(instrumentId: string, reportDigest: Bytes) | Revoke(reason: string)

  datatype Step =
    | Begin(t: nat)
    | PrepareReport(t: nat, id: Uuid, businessKey: string, fingerprint: Bytes, instrumentId: string,
        operatorId: string, reportDigest: Bytes, now: Time)
    | PrepareSuccessor(t: nat, parentId: Uuid, id: Uuid, businessKey: string, fingerprint: Bytes, operatorId: string,
        successor: Successor, now: Time)
    | DrawNumber(t: nat)
    | StoreRow(t: nat)
    | Commit(t: nat)
    | Abort(t: nat)
    | SealLock
    | SealRead(config: SealerConfig, id: Uuid, now: Time)
    | SealCommit
    | SealAbort

  function FindEvent(events: seq<Event>, id: Uuid): Option<Event> {
    if events == [] then None
    else if events[|events| - 1].commitment.eventId == id then Some(events[|events| - 1])
    else FindEvent(events[..|events| - 1], id)
  }

  lemma {:induction false} FindEventFound(events: seq<Event>, id: Uuid)
    ensures var r := FindEvent(events, id);
      if r.Some? then r.value in events && r.value.commitment.eventId == id
      else forall e | e in events :: e.commitment.eventId != id
  {
    if events == [] {
    } else {
      var n := |events| - 1;
      FindEventFound(events[..n], id);
      assert events == events[..n] + [events[n]];
    }
  }

  predicate Clash(a: Event, b: Event) {
    || a.commitment.eventId == b.commitment.eventId
    || a.commitment.businessKey == b.commitment.businessKey
    || (a.commitment.previousEventId.Some? && a.commitment.previousEventId == b.commitment.previousEventId)
  }

  ghost predicate InFlight(s: System, e: Event) {
    exists t :: t in s.writers && e in s.writers[t].rows
  }

  ghost predicate IsRow(s: System, e: Event) {
    e in s.db.events || InFlight(s, e)
  }

  function ReportCommitment(id: Uuid, businessKey: string, fingerprint: Bytes, instrumentId: string,
      operatorId: string, reportDigest: Bytes, now: Time): Commitment {
    Commitment(id, id, Report, businessKey, fingerprint, instrumentId, operatorId, Some(reportDigest), None, None, now)
  }

  function SuccessorCommitment(parent: Event, id: Uuid, businessKey: string, fingerprint: Bytes, operatorId: string,
      successor: Successor, now: Time): Commitment {
    var p := parent.commitment;
    match successor
    case Revise(_, digest) => Commitment(id, p.recordId, Revision, businessKey, fingerprint, p.instrumentId,
        operatorId, Some(digest), Some(p.eventId), None, now)
    case Revoke(reason) => Commitment(id, p.recordId, Revocation, businessKey, fingerprint, p.instrumentId,
        operatorId, None, Some(p.eventId), Some(reason), now)
  }

  // The checks on a successor's parent, as committed when they are made.
  ghost predicate MayFollow(s: System, parentId: Uuid, successor: Successor) {
    var parent := FindEvent(s.db.events, parentId);
    && parent.Some?
    && parent.value.commitment.eventType != Revocation
    && (forall e | e in s.db.events :: e.commitment.previousEventId != Some(parentId))
    && (successor.Revise? ==> successor.instrumentId == parent.value.commitment.instrumentId)
  }

  function Rest(s: System, t: nat): System {
    s.(writers := s.writers - {t})
  }

  function WithWriter(s: System, t: nat, w: Writer): System {
    s.(writers := s.writers[t := w])
  }

  // One step of one transaction. A step that is not possible, or that has to wait for a lock
  // or for another transaction's row, changes nothing; an error rolls its transaction back.
  ghost function Next(c: Crypto, s: System, step: Step): System {
    match step
    case Begin(t) =>
      if s.sealer.None? && t !in s.writers then WithWriter(s, t, Writer([], Resting)) else s
    case PrepareReport(t, id, businessKey, fingerprint, instrumentId, operatorId, reportDigest, now) =>
      if t in s.writers && s.writers[t].stage.Resting? then
        WithWriter(s, t, s.writers[t].(stage :=
            Prepared(ReportCommitment(id, businessKey, fingerprint, instrumentId, operatorId, reportDigest, now))))
      else s
    case PrepareSuccessor(t, parentId, id, businessKey, fingerprint, operatorId, successor, now) =>
      if t in s.writers && s.writers[t].stage.Resting? then
        if MayFollow(s, parentId, successor) then
          WithWriter(s, t, s.writers[t].(stage :=
              Prepared(SuccessorCommitment(FindEvent(s.db.events, parentId).value, id, businessKey, fingerprint,
              operatorId, successor, now))))
        else Rest(s, t)
      else s
    case DrawNumber(t) =>
      if t in s.writers && s.writers[t].stage.Prepared? then
        WithWriter(s, t, s.writers[t].(stage :=
            Numbered(s.writers[t].stage.commitment, s.nextSequence))).(nextSequence := s.nextSequence + 1)
      else s
    case StoreRow(t) =>
      if t in s.writers && s.writers[t].stage.Numbered? then
        var w := s.writers[t];
        var row := Event(w.stage.number, w.stage.commitment, EventLeaf(c, w.stage.commitment));
        if exists e | e in s.db.events :: Clash(e, row) then Rest(s, t)
        else if exists e | InFlight(s, e) :: Clash(e, row) then s
        else WithWriter(s, t, Writer(w.rows + [row], Resting))
      else s
    case Commit(t) =>
      if t in s.writers && s.writers[t].stage.Resting? then
        Rest(s, t).(db := s.db.(events := InsertRows(s.db.events, s.writers[t].rows)))
      else s
    case Abort(t) => Rest(s, t)
    case SealLock =>
      if s.sealer.None? && s.writers == map[] then s.(sealer := Some(Locked)) else s
    case SealRead(config, id, now) =>
      if s.sealer == Some(Locked) then
        match PlanSeal(c, s.db, config, id, now)
        case Sealed(checkpoint) => s.(sealer := Some(Planned(checkpoint)))
        case _ => s.(sealer := None)
      else s
    case SealCommit =>
      if s.sealer.Some? && s.sealer.value.Planned? then
        var checkpoint := s.sealer.value.checkpoint;
        if IdUnused(s.db, checkpoint.payload.checkpointId)
            then s.(db := WithCheckpoint(s.db, checkpoint), sealer := None)
        else s.(sealer := None)
      else s
    case SealAbort => s.(sealer := None)
  }

  ghost function Exec(c: Crypto, s: System, steps: seq<Step>): System {
    if steps == [] then s
    else Next(c, Exec(c, s, steps[..|steps| - 1]), steps[|steps| - 1])
  }

  // ---- Invariants of every run ----

  // A writer's own sequence numbers, its drawn one included.
  ghost predicate Holds(w: Writer, n: int) {
    (exists r | r in w.rows :: r.sequence == n) || (w.stage.Numbered? && w.stage.number == n)
  }

  ghost predicate WriterNumbered(c: Crypto, s: System, w: Writer) {
    && Sorted(w.rows)
    && (forall n | Holds(w, n) :: LastOf(s.db) < n < s.nextSequence && n >= 1)
    && (forall n | Holds(w, n) :: forall e | e in s.db.events :: e.sequence != n)
    && (w.stage.Numbered? ==> forall r | r in w.rows :: r.sequence < w.stage.number)
    && (forall r | r in w.rows :: r.leafHash == EventLeaf(c, r.commitment))
  }

  ghost predicate Numbering(c: Crypto, s: System) {
    && s.nextSequence >= 1
    && (forall e | e in s.db.events :: e.sequence < s.nextSequence)
    && (forall t | t in s.writers :: WriterNumbered(c, s, s.writers[t]))
    && (forall t, u, n | t in s.writers && u in s.writers && Holds(s.writers[t], n) && Holds(s.writers[u], n) :: t == u)
  }

  // The three unique constraints of the events table, over every row of every transaction.
  ghost predicate Unique(s: System) {
    forall e, f | IsRow(s, e) && IsRow(s, f) && Clash(e, f) :: e == f
  }

  // A report begins its own record; a revision or revocation continues the record of a
  // committed event with a smaller sequence number that is not a revocation.
  ghost predicate Lineage(events: seq<Event>, m: Commitment, before: int) {
    && (m.eventType == Report <==> m.previousEventId == None)
    && (m.eventType == Report ==> m.recordId == m.eventId)
    && (m.previousEventId.Some? ==> exists p | p in events :: ParentOf(p, m) && p.sequence < before)
  }

  ghost predicate ParentOf(p: Event, m: Commitment) {
    && Some(p.commitment.eventId) == m.previousEventId
    && p.commitment.eventType != Revocation
    && p.commitment.recordId == m.recordId && p.commitment.instrumentId == m.instrumentId
  }

  ghost predicate Lineages(s: System) {
    && (forall e | IsRow(s, e) :: Lineage(s.db.events, e.commitment, e.sequence))
    && (forall t | t in s.writers && s.writers[t].stage.Prepared? ::
        Lineage(s.db.events, s.writers[t].stage.commitment, s.nextSequence))
    && (forall t | t in s.writers && s.writers[t].stage.Numbered? ::
        Lineage(s.db.events, s.writers[t].stage.commitment, s.writers[t].stage.number))
  }

  ghost predicate SealerAlone(c: Crypto, master: Keyring, s: System) {
    && (s.sealer.Some? ==> s.writers == map[])
    && (s.sealer.Some? && s.sealer.value.Planned? ==> Linked(c, master, s.db, s.sealer.value.checkpoint))
  }

  ghost predicate Inv(c: Crypto, master: Keyring, s: System) {
    Chain(c, master, s.db) && Numbering(c, s) && Unique(s) && Lineages(s) && SealerAlone(c, master, s)
  }

  // Every sealer's keyring knows each key version by the key it was issued with.
  ghost predicate Trusted(master: Keyring, steps: seq<Step>) {
    forall i | 0 <= i < |steps| && steps[i].SealRead? :: Agrees(steps[i].config.keyring, master)
  }

  // ---- Commits land above every sealed boundary ----

  lemma CommitKeepsChain(c: Crypto, master: Keyring, db: Tables, rows: seq<Event>)
    requires Chain(c, master, db) && Sorted(rows)
    requires forall r | r in rows ::
        r.sequence > LastOf(db) && r.sequence >= 1 && r.leafHash == EventLeaf(c, r.commitment)
    requires forall e, r | e in db.events && r in rows :: e.sequence != r.sequence
    ensures Chain(c, master, db.(events := InsertRows(db.events, rows)))
    ensures forall b | b <= LastOf(db) :: Upto(InsertRows(db.events, rows), b) == Upto(db.events, b)
  {
    var events := InsertRows(db.events, rows);
    var db' := db.(events := events);
    InsertRowsKeep(db.events, rows);
    forall b | b <= LastOf(db) ensures Upto(events, b) == Upto(db.events, b) {
      UptoBelowInserts(db.events, rows, b);
    }
    forall i | 0 <= i < |events| ensures events[i].sequence >= 1
        && events[i].leafHash == EventLeaf(c, events[i].commitment) {
      assert events[i] in events;
    }
    SealedPrefix(c, master, db);
    forall i | 0 <= i < |db.checkpoints| ensures ChainLink(c, master, db', i) {
      assert ChainLink(c, master, db, i);
    }
  }
}
