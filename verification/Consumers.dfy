/** Consumers of the checkpoint chain and their cursors (src/ledger/audit/consumers.py:45-221).

    An acknowledgement reads the cursor, reads and compares the checkpoints, and then moves the
    cursor with a compare-and-set; what it has read is its own until then, so any number of
    acknowledgements may be under way for one consumer. */
module Consumers {
  import opened Lookup
  import opened Wrappers
  import opened Domain
  import opened Sealing
  import Protocol

  datatype Consumer = Consumer(
    consumerId: Uuid, consumerName: string, idempotencyKey: string, lastCheckpointId: Option<Uuid>,
    createdAt: Time, updatedAt: Time, lastAcknowledgedAt: Option<Time>)

  datatype Reason = NotFirst | NotSuccessor | Regressed | Duplicate

  datatype ConsumerError =
    | ConsumerNotFound | CheckpointNotFound | NameConflict | DuplicateConsumer
    | AcknowledgementConflict(reason: Reason, current: Option<Checkpoint>, submitted: Checkpoint)

  // Why the submitted checkpoint cannot follow the current one; None when it is its successor.
  function Classify(current: Option<Checkpoint>, submitted: Checkpoint): Option<Reason> {
    var p := submitted.payload;
    match current
    case None => if p.previousId.None? then None else Some(NotFirst)
    case Some(now) =>
      if p.checkpointId == now.payload.checkpointId then Some(Duplicate)
      else if p.leafCount < now.payload.leafCount then Some(Regressed)
      else if p.previousId != Some(now.payload.checkpointId) then Some(NotSuccessor)
      else None
  }

  function IndexOfConsumer(consumers: seq<Consumer>, id: Uuid): (found: Option<nat>)
    ensures match found
      case Some(i) => i < |consumers| && consumers[i].consumerId == id
      case None => forall j | 0 <= j < |consumers| :: consumers[j].consumerId != id
  {
    LastIndex(consumers, (c: Consumer) => c.consumerId == id)
  }

  function IndexOfKey(consumers: seq<Consumer>, key: string): (found: Option<nat>)
    ensures match found
      case Some(i) => i < |consumers| && consumers[i].idempotencyKey == key
      case None => forall j | 0 <= j < |consumers| :: consumers[j].idempotencyKey != key
  {
    LastIndex(consumers, (c: Consumer) => c.idempotencyKey == key)
  }

  // ---- The transactions ----

  function Settled(existing: Consumer, name: string): Result<(Consumer, bool), ConsumerError> {
    if existing.consumerName == name then Ok((existing, false)) else Err(NameConflict)
  }

  // The unique key decides who registers; who comes second gets the row that came first.
  function InsertConsumer(consumers: seq<Consumer>, consumer: Consumer): (seq<Consumer>,
      Result<(Consumer, bool), ConsumerError>) {
    var taken := IndexOfKey(consumers, consumer.idempotencyKey);
    if taken.Some? then (consumers, Settled(consumers[taken.value], consumer.consumerName))
    else if IndexOfConsumer(consumers, consumer.consumerId).Some? then (consumers, Err(DuplicateConsumer))
    else (consumers + [consumer], Ok((consumer, true)))
  }

  // What others register meanwhile.
  function InsertConsumers(consumers: seq<Consumer>, rivals: seq<Consumer>): seq<Consumer> {
    if rivals == [] then consumers
    else InsertConsumer(InsertConsumers(consumers, rivals[..|rivals| - 1]), rivals[|rivals| - 1]).0
  }

  // Registering: look the key up, and insert after whatever others have inserted since.
  function Register(consumers: seq<Consumer>, name: string, key: string, id: Uuid, now: Time,
      rivals: seq<Consumer>): (seq<Consumer>, Result<(Consumer, bool), ConsumerError>) {
    var found := IndexOfKey(consumers, key);
    if found.Some? then (consumers, Settled(consumers[found.value], name))
    else InsertConsumer(InsertConsumers(consumers, rivals), Consumer(id, name, key, None, now, now, None))
  }

  // An acknowledgement under way: it has read the cursor, or found the submitted checkpoint to
  // be the successor of what it read, or lost the race to move the cursor.
  datatype Ack =
    | CursorRead(row: nat, cursor: Option<Uuid>)
    | Accepted(row: nat, current: Option<Checkpoint>, submitted: Checkpoint)
    | Lost(row: nat, submitted: Checkpoint)

  function CheckpointAt(db: Tables, cursor: Option<Uuid>): Option<Checkpoint> {
    if cursor.Some? then CheckpointById(db.checkpoints, cursor.value) else None
  }

  // Comparing what was read with the submitted checkpoint.
  function Compare(db: Tables, row: nat, cursor: Option<Uuid>, checkpointId: Uuid): Result<Ack, ConsumerError> {
    match CheckpointById(db.checkpoints, checkpointId)
    case None => Err(CheckpointNotFound)
    case Some(submitted) =>
      var current := CheckpointAt(db, cursor);
      var reason := Classify(current, submitted);
      if reason.Some? then Err(AcknowledgementConflict(reason.value, current, submitted))
          else Ok(Accepted(row, current, submitted))
  }

  function ExpectedCursor(current: Option<Checkpoint>): Option<Uuid> {
    if current.Some? then Some(current.value.payload.checkpointId) else None
  }

  function Advanced(consumer: Consumer, submitted: Checkpoint, now: Time): Consumer {
    consumer.(lastCheckpointId := Some(submitted.payload.checkpointId), lastAcknowledgedAt := Some(now),
        updatedAt := now)
  }

  // The compare-and-set of the stored cursor.
  function MoveCursor(consumers: seq<Consumer>, row: nat, current: Option<Checkpoint>, submitted: Checkpoint,
      now: Time): (seq<Consumer>, bool) {
    if row < |consumers| && consumers[row].lastCheckpointId == ExpectedCursor(current) then
      (consumers[row := Advanced(consumers[row], submitted, now)], true)
    else (consumers, false)
  }

  // The conflict a lost race is reported with.
  function RaceConflict(db: Tables, cursor: Option<Uuid>, submitted: Checkpoint): ConsumerError {
    var current := CheckpointAt(db, cursor);
    var reason := Classify(current, submitted);
    AcknowledgementConflict(if reason.Some? then reason.value else NotSuccessor, current, submitted)
  }

  // ---- Interleavings ----

  datatype World = World(ledger: Protocol.System, consumers: seq<Consumer>, acks: map<nat, Ack>)

  const INIT_WORLD := World(Protocol.INIT, [], map[])

  datatype Step =
    | LedgerStep(step: Protocol.Step)
    | Enrol(name: string, key: string, id: Uuid, now: Time)
    | ReadCursor(n: nat, consumerId: Uuid)
    | ReadCheckpoints(n: nat, checkpointId: Uuid)
    | CompareAndSet(n: nat, now: Time)
    | ReportLoss(n: nat)
    | Abandon(n: nat)

  ghost function Take(c: Crypto, w: World, step: Step): World {
    match step
    case LedgerStep(s) => w.(ledger := Protocol.Next(c, w.ledger, s))
    case Enrol(name, key, id, now) => w.(consumers := Register(w.consumers, name, key, id, now, []).0)
    case ReadCursor(n, consumerId) =>
      var row := IndexOfConsumer(w.consumers, consumerId);
      if n !in w.acks && row.Some?
          then w.(acks := w.acks[n := CursorRead(row.value, w.consumers[row.value].lastCheckpointId)]) else w
    case ReadCheckpoints(n, checkpointId) =>
      if n in w.acks && w.acks[n].CursorRead? then
        match Compare(w.ledger.db, w.acks[n].row, w.acks[n].cursor, checkpointId)
        case Ok(ack) => w.(acks := w.acks[n := ack])
        case Err(_) => w.(acks := w.acks - {n})
      else w
    case CompareAndSet(n, now) =>
      if n in w.acks && w.acks[n].Accepted? then
        var (consumers, moved) := MoveCursor(w.consumers, w.acks[n].row, w.acks[n].current, w.acks[n].submitted, now);
        w.(consumers := consumers, acks := if moved then w.acks - {n}
            else w.acks[n := Lost(w.acks[n].row, w.acks[n].submitted)])
      else w
    case ReportLoss(n) => if n in w.acks && w.acks[n].Lost? then w.(acks := w.acks - {n}) else w
    case Abandon(n) => w.(acks := w.acks - {n})
  }

  ghost function Run(c: Crypto, w: World, steps: seq<Step>): World {
    if steps == [] then w
    else Take(c, Run(c, w, steps[..|steps| - 1]), steps[|steps| - 1])
  }

  // The checkpoint this step acknowledges for the consumer in this row, if it does.
  ghost function Acknowledges(w: World, step: Step, row: nat): Option<Checkpoint> {
    if step.CompareAndSet? && step.n in w.acks && w.acks[step.n].Accepted? && w.acks[step.n].row == row
       && MoveCursor(w.consumers, row, w.acks[step.n].current, w.acks[step.n].submitted, step.now).1
    then Some(w.acks[step.n].submitted) else None
  }

  // All checkpoints acknowledged for a consumer during a run, in order.
  ghost function Acknowledged(c: Crypto, w: World, steps: seq<Step>, row: nat): seq<Checkpoint> {
    if steps == [] then []
    else
      var n := |steps| - 1;
      var last := Acknowledges(Run(c, w, steps[..n]), steps[n], row);
      Acknowledged(c, w, steps[..n], row) + if last.Some? then [last.value] else []
  }

  // ---- Positions in the chain ----

  // The cursor stands after the first k checkpoints.
  ghost predicate StandsAt(db: Tables, cursor: Option<Uuid>, k: nat) {
    && k <= |db.checkpoints|
    && cursor == if k == 0 then None else Some(db.checkpoints[k - 1].payload.checkpointId)
  }

  ghost function CheckpointBefore(db: Tables, k: nat): Option<Checkpoint>
    requires k <= |db.checkpoints|
  {
    if k == 0 then None else Some(db.checkpoints[k - 1])
  }

  lemma CursorFindsCheckpoint(c: Crypto, master: Keyring, db: Tables, cursor: Option<Uuid>, k: nat)
    requires Chain(c, master, db) && StandsAt(db, cursor, k)
    ensures CheckpointAt(db, cursor) == CheckpointBefore(db, k)
  {
    if k > 0 {
      CheckpointByIdFinds(db.checkpoints, k - 1);
    }
  }

  // What the comparison says, in terms of the two places in the chain alone.
  lemma ClassifyIsExact(c: Crypto, master: Keyring, db: Tables, k: nat, a: nat)
    requires Chain(c, master, db) && k <= |db.checkpoints| && a < |db.checkpoints|
    ensures Classify(CheckpointBefore(db, k), db.checkpoints[a]) ==
      if a == k then None
      else if k == 0 then Some(NotFirst)
      else if a == k - 1 then Some(Duplicate)
      else if a < k - 1 then Some(Regressed)
      else Some(NotSuccessor)
  {
    assert ChainLink(c, master, db, a);
    UniqueSuccessor(c, master, db, if k == 0 then 0 else k - 1, a);
    hide ChainLink;
    assert k > 0 && a < k - 1 ==> db.checkpoints[a].payload.leafCount < db.checkpoints[k - 1].payload.leafCount;
    assert k > 0 && k - 1 < a ==> db.checkpoints[k - 1].payload.leafCount < db.checkpoints[a].payload.leafCount;
  }
}
