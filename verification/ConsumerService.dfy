/** Registration and acknowledgement as they run (src/ledger/audit/consumers.py:45-221). Other
    transactions may change the table between the two halves of an acknowledgement. */
module ConsumerService {
  import opened Wrappers
  import opened Domain
  import opened Sealing
  import opened Consumers
  import opened ConsumerRuns

  class ConsumerTable {
    var consumers: seq<Consumer>

    constructor ()
      ensures consumers == []
    {
      consumers := [];
    }
  }

  class AuditConsumerService {
    constructor () {
    }

    // The rivals are what others register between the look-up and the insertion.
    method RegisterConsumer(t: ConsumerTable, name: string, key: string, id: Uuid, now: Time,
        rivals: seq<Consumer>) returns (result: Result<(Consumer, bool), ConsumerError>)
      modifies t
      ensures (t.consumers, result) == Register(old(t.consumers), name, key, id, now, rivals)
    {
      var found := IndexOfKey(t.consumers, key);
      if found.Some? {
        return Settled(t.consumers[found.value], name);
      }
      t.consumers := InsertConsumers(t.consumers, rivals);
      var consumer := Consumer(id, name, key, None, now, now, None);
      found := IndexOfKey(t.consumers, key);
      if found.Some? {
        return Settled(t.consumers[found.value], name);
      }
      var taken := IndexOfConsumer(t.consumers, id);
      if taken.Some? {
        return Err(DuplicateConsumer);
      }
      t.consumers := t.consumers + [consumer];
      return Ok((consumer, true));
    }

    // Everything before the update: the cursor and both checkpoints are read and compared.
    method BeginAcknowledgement(t: ConsumerTable, db: Tables, consumerId: Uuid,
        checkpointId: Uuid) returns (result: Result<Ack, ConsumerError>)
      ensures IndexOfConsumer(t.consumers, consumerId).None? ==> result == Err(ConsumerNotFound)
      ensures forall row | 0 <= row < |t.consumers| && IndexOfConsumer(t.consumers, consumerId) == Some(row) ::
        t.consumers[row].consumerId == consumerId
            && result == Compare(db, row, t.consumers[row].lastCheckpointId, checkpointId)
      ensures result.Ok? ==> result.value.Accepted? && result.value.row < |t.consumers|
    {
      var found := IndexOfConsumer(t.consumers, consumerId);
      if found.None? {
        return Err(ConsumerNotFound);
      }
      var consumer := t.consumers[found.value];
      var submitted := CheckpointById(db.checkpoints, checkpointId);
      if submitted.None? {
        return Err(CheckpointNotFound);
      }
      var current := None;
      if consumer.lastCheckpointId.Some? {
        current := CheckpointById(db.checkpoints, consumer.lastCheckpointId.value);
      }
      var reason := Classify(current, submitted.value);
      if reason.Some? {
        return Err(AcknowledgementConflict(reason.value, current, submitted.value));
      }
      return Ok(Accepted(found.value, current, submitted.value));
    }

    // The update of the row that still has the cursor that was read, or the conflict with the
    // cursor that another acknowledgement has committed since.
    method CompleteAcknowledgement(t: ConsumerTable, db: Tables, ack: Ack,
        now: Time) returns (result: Result<(Consumer, Checkpoint), ConsumerError>)
      requires ack.Accepted? && ack.row < |t.consumers|
      modifies t
      ensures (t.consumers, result.Ok?) == MoveCursor(old(t.consumers), ack.row, ack.current, ack.submitted, now)
      ensures result == if result.Ok? then Ok((t.consumers[ack.row], ack.submitted))
          else Err(RaceConflict(db, t.consumers[ack.row].lastCheckpointId, ack.submitted))
    {
      var expected := None;
      if ack.current.Some? {
        expected := Some(ack.current.value.payload.checkpointId);
      }
      var row := t.consumers[ack.row];
      if row.lastCheckpointId == expected {
        row := row.(lastCheckpointId := Some(ack.submitted.payload.checkpointId));
        row := row.(lastAcknowledgedAt := Some(now), updatedAt := now);
        t.consumers := t.consumers[ack.row := row];
        return Ok((row, ack.submitted));
      }
      var current := None;
      if row.lastCheckpointId.Some? {
        current := CheckpointById(db.checkpoints, row.lastCheckpointId.value);
      }
      var reason := Classify(current, ack.submitted);
      return Err(AcknowledgementConflict(if reason.Some? then reason.value else NotSuccessor, current, ack.submitted));
    }
  }

  lemma {:induction false} RegisteredStay(consumers: seq<Consumer>, rivals: seq<Consumer>)
    requires UniqueConsumers(consumers)
    ensures var after := InsertConsumers(consumers, rivals);
      UniqueConsumers(after) && |consumers| <= |after| && after[..|consumers|] == consumers
  {
    if rivals == [] {
    } else {
      RegisteredStay(consumers, rivals[..|rivals| - 1]);
    }
  }

  // Registering again under a key that any consumer has returns that consumer and changes
  // nothing, or is a conflict of names.
  lemma RegisterIsIdempotent(consumers: seq<Consumer>, i: nat, name: string, id: Uuid, now: Time,
      rivals: seq<Consumer>)
    requires UniqueConsumers(consumers) && i < |consumers|
    ensures Register(consumers, name, consumers[i].idempotencyKey, id, now, rivals)
         == (consumers, if consumers[i].consumerName == name then Ok((consumers[i], false)) else Err(NameConflict))
  {
  }

  // However many register at once, a registration answers as if it had come after the others,
  // and of any number under one key exactly one row remains.
  lemma RacedRegisterIsSerial(consumers: seq<Consumer>, name: string, key: string, id: Uuid, now: Time,
      rivals: seq<Consumer>)
    requires UniqueConsumers(consumers)
    ensures var (after, result) := Register(consumers, name, key, id, now, rivals);
      var raced := InsertConsumers(consumers, rivals);
      && result == Register(raced, name, key, id, now, []).1
      && after == (if IndexOfKey(consumers, key).Some? then consumers else Register(raced, name, key, id, now, []).0)
      && UniqueConsumers(after)
    ensures var (after, result) := Register(consumers, name, key, id, now, rivals);
      result.Ok? ==>
          result.value.0 in after && result.value.0.consumerName == name && result.value.0.idempotencyKey == key
    ensures var (after, result) := Register(consumers, name, key, id, now, rivals);
      result.Ok? && result.value.1 ==>
          var c := result.value.0;
          && c.consumerId == id && c.createdAt == c.updatedAt == now
          && c.lastCheckpointId.None? && c.lastAcknowledgedAt.None?
    ensures var result := Register(consumers, name, key, id, now, rivals).1;
      var raced := InsertConsumers(consumers, rivals);
      && (result == Err(DuplicateConsumer) <==>
          IndexOfKey(raced, key).None? && exists c | c in raced :: c.consumerId == id)
      && (result.Err? ==> result == Err(DuplicateConsumer) || result == Err(NameConflict))
  {
    hide InsertConsumers;
    RegisteredStay(consumers, rivals);
    var raced := InsertConsumers(consumers, rivals);
    assert InsertConsumers(raced, []) == raced by { NobodyElse(raced); }
    var found := IndexOfKey(consumers, key);
    if found.Some? {
      assert raced[found.value] == consumers[found.value];
    }
    var taken := IndexOfConsumer(raced, id);
    if taken.Some? {
      assert raced[taken.value] in raced;
    }
  }

  lemma NobodyElse(consumers: seq<Consumer>)
    ensures InsertConsumers(consumers, []) == consumers
  {
  }
}
