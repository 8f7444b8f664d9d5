/** The rows of src/ledger/models.py, the signed and committed views of src/ledger/domain.py,
    and the queries that read them. */
module Domain {
  import opened Lookup
  import opened Wrappers
  import opened Hashing

  type Uuid = nat
  type Time = int
  type Keyring = map<string, Bytes>

  datatype EventType = Report | Revision | Revocation

  // The public fields an event leaf commits to. The sequence number is not among them.
  datatype Commitment = Commitment(
    eventId: Uuid, recordId: Uuid, eventType: EventType, businessKey: string, fingerprint: Bytes,
    instrumentId: string, operatorId: string, reportDigest: Option<Bytes>,
    previousEventId: Option<Uuid>, reason: Option<string>, occurredAt: Time)

  datatype Event = Event(sequence: int, commitment: Commitment, leafHash: Bytes)

  // The fields a checkpoint signature covers.
  datatype Payload = Payload(
    checkpointId: Uuid, leafCount: int, lastSequence: int, rootHash: Bytes,
    previousId: Option<Uuid>, previousRoot: Option<Bytes>, keyVersion: string, createdAt: Time)

  datatype Checkpoint = Checkpoint(payload: Payload, signature: Bytes)

  // Hashing, canonical JSON and HMAC-SHA-256, as arbitrary functions.
  datatype Crypto = Crypto(
    sha: Hasher, eventJson: Commitment -> Bytes, checkpointJson: Payload -> Bytes, hmac: (Bytes, Bytes) -> Bytes)

  datatype LedgerError =
    | NotFound | EventSequenceCorrupt | MerkleNodeCorrupt | CheckpointCorrupt | CheckpointChainBroken
    | UnknownKeyVersion | CheckpointSignatureInvalid | InvalidCursor

  function EventLeaf(c: Crypto, commitment: Commitment): Digest {
    LeafHash(c.sha, c.eventJson(commitment))
  }

  function Sign(c: Crypto, payload: Payload, key: Bytes): Bytes {
    c.hmac(key, c.checkpointJson(payload))
  }

  function Leaves(c: Crypto, events: seq<Event>): (leaves: seq<Digest>)
    ensures |leaves| == |events|
  {
    seq(|events|, i requires 0 <= i < |events| => EventLeaf(c, events[i].commitment))
  }

  lemma LeavesOfPrefix(c: Crypto, events: seq<Event>, n: nat)
    requires n <= |events|
    ensures Leaves(c, events[..n]) == Leaves(c, events)[..n]
  {
  }

  // ---- Queries on the events table, which is kept in primary key order ----

  ghost predicate Sorted(events: seq<Event>) {
    forall i, j | 0 <= i < j < |events| :: events[i].sequence < events[j].sequence
  }

  // The rows with sequence <= bound, in order.
  function Upto(events: seq<Event>, bound: int): seq<Event> {
    if events == [] then []
    else
      var n := |events| - 1;
      Upto(events[..n], bound) + if events[n].sequence <= bound then [events[n]] else []
  }

  // The rows with sequence > bound, in order.
  function After(events: seq<Event>, bound: int): seq<Event> {
    if events == [] then []
    else
      var n := |events| - 1;
      After(events[..n], bound) + if events[n].sequence > bound then [events[n]] else []
  }

  function OfInstrument(events: seq<Event>, instrumentId: string): seq<Event> {
    if events == [] then []
    else
      var n := |events| - 1;
      OfInstrument(events[..n], instrumentId) + if events[n].commitment.instrumentId == instrumentId
          then [events[n]] else []
  }

  // The rows up to a bound are the first n rows.
  ghost predicate Cut(events: seq<Event>, bound: int, n: nat) {
    && n <= |events|
    && (forall i | 0 <= i < n :: events[i].sequence <= bound)
    && (forall i | n <= i < |events| :: events[i].sequence > bound)
  }

  lemma CutOneMore(events: seq<Event>, bound: int, n: nat)
    requires Sorted(events) && events != [] && Cut(events[..|events| - 1], bound, n)
    ensures if events[|events| - 1].sequence <= bound then n == |events| - 1 && Cut(events, bound, |events|)
        else Cut(events, bound, n)
  {
    var m := |events| - 1;
    var below := events[..m];
    assert forall i | 0 <= i < m :: below[i] == events[i];
    assert n < m ==> below[n].sequence > bound;
  }

  lemma UptoStep(events: seq<Event>, bound: int)
    ensures Upto([], bound) == []
    ensures events != [] ==>
        var n := |events| - 1;
        Upto(events, bound) == Upto(events[..n], bound) + if events[n].sequence <= bound then [events[n]] else []
  {
  }

  lemma SortedPrefix(events: seq<Event>, n: nat)
    requires Sorted(events) && n <= |events|
    ensures Sorted(events[..n])
  {
  }

  lemma NothingCut(bound: int)
    ensures Cut([], bound, 0)
  {
  }

  lemma {:induction false} UptoIsCut(events: seq<Event>, bound: int)
    requires Sorted(events)
    ensures |Upto(events, bound)| <= |events| && Upto(events, bound) == events[..|Upto(events, bound)|]
    ensures Cut(events, bound, |Upto(events, bound)|)
  {
    hide Cut, Sorted, Upto;
    UptoStep(events, bound);
    if events == [] {
      NothingCut(bound);
    } else {
      var m := |events| - 1;
      SortedPrefix(events, m);
      UptoIsCut(events[..m], bound);
      var n := |Upto(events[..m], bound)|;
      CutOneMore(events, bound, n);
      assert events[..m][..n] == events[..n];
      assert events[..m] + [events[m]] == events;
    }
  }

  lemma UptoIsPrefix(events: seq<Event>, bound: int)
    requires Sorted(events)
    ensures var n := |Upto(events, bound)|;
      && n <= |events| && Upto(events, bound) == events[..n]
      && (forall i | 0 <= i < n :: events[i].sequence <= bound)
      && (forall i | n <= i < |events| :: events[i].sequence > bound)
  {
    hide Upto, Sorted;
    UptoIsCut(events, bound);
  }

  lemma {:induction false} AfterIsRest(events: seq<Event>, bound: int)
    requires Sorted(events)
    ensures Upto(events, bound) + After(events, bound) == events
  {
    if events == [] {
    } else {
      var m := |events| - 1;
      AfterIsRest(events[..m], bound);
      UptoIsPrefix(events, bound);
      assert events == events[..m] + [events[m]];
      if events[m].sequence <= bound {
        assert Upto(events, bound) == events;
        assert |Upto(events[..m], bound)| == m;
        assert After(events[..m], bound) == [];
      }
    }
  }

  // Two bounds: the shorter prefix begins the longer one.
  lemma UptoNested(events: seq<Event>, low: int, high: int)
    requires Sorted(events) && low <= high
    ensures var n := |Upto(events, low)|; n <= |Upto(events, high)| && Upto(events, low) == Upto(events, high)[..n]
  {
    UptoIsPrefix(events, low);
    UptoIsPrefix(events, high);
    var m, n := |Upto(events, low)|, |Upto(events, high)|;
    assert n < |events| ==> events[n].sequence > high;
  }

  // ---- Inserting rows in primary key order ----

  function InsertRow(events: seq<Event>, row: Event): seq<Event> {
    if events == [] then [row]
    else
      var n := |events| - 1;
      if events[n].sequence < row.sequence then events + [row]
      else InsertRow(events[..n], row) + [events[n]]
  }

  lemma {:induction false} InsertRowKeeps(events: seq<Event>, row: Event)
    requires Sorted(events) && forall e | e in events :: e.sequence != row.sequence
    ensures Sorted(InsertRow(events, row))
    ensures forall e :: e in InsertRow(events, row) <==> e in events || e == row
    ensures |InsertRow(events, row)| == |events| + 1
  {
    if events == [] {
    } else {
      var n := |events| - 1;
      if events[n].sequence > row.sequence {
        var below := InsertRow(events[..n], row);
        InsertRowKeeps(events[..n], row);
        assert events == events[..n] + [events[n]];
        forall i | 0 <= i < n + 1 ensures below[i].sequence < events[n].sequence {
          assert below[i] in below;
        }
      } else {
        assert events[n] in events;
      }
    }
  }

  lemma {:induction false} UptoBelowInsert(events: seq<Event>, row: Event, bound: int)
    requires row.sequence > bound
    ensures Upto(InsertRow(events, row), bound) == Upto(events, bound)
  {
    if events != [] {
      var n := |events| - 1;
      if events[n].sequence < row.sequence {
        assert (events + [row])[..n + 1] == events;
      } else {
        var below := InsertRow(events[..n], row);
        UptoBelowInsert(events[..n], row, bound);
        assert (below + [events[n]])[..|below|] == below;
      }
    } else {
      assert [row][..0] == [];
    }
  }

  function InsertRows(events: seq<Event>, rows: seq<Event>): seq<Event> {
    if rows == [] then events
    else
      var n := |rows| - 1;
      InsertRow(InsertRows(events, rows[..n]), rows[n])
  }

  lemma {:induction false} InsertRowsKeep(events: seq<Event>, rows: seq<Event>)
    requires Sorted(events) && Sorted(rows) && forall e, r | e in events && r in rows :: e.sequence != r.sequence
    ensures Sorted(InsertRows(events, rows))
    ensures forall e :: e in InsertRows(events, rows) <==> e in events || e in rows
  {
    if rows == [] {
    } else {
      var n := |rows| - 1;
      InsertRowsKeep(events, rows[..n]);
      assert rows == rows[..n] + [rows[n]];
      forall e | e in InsertRows(events, rows[..n]) ensures e.sequence != rows[n].sequence {
        if e in rows[..n] {
          var i :| 0 <= i < n && rows[i] == e;
        }
      }
      InsertRowKeeps(InsertRows(events, rows[..n]), rows[n]);
    }
  }

  lemma {:induction false} UptoBelowInserts(events: seq<Event>, rows: seq<Event>, bound: int)
    requires forall r | r in rows :: r.sequence > bound
    ensures Upto(InsertRows(events, rows), bound) == Upto(events, bound)
  {
    if rows == [] {
    } else {
      var n := |rows| - 1;
      UptoBelowInserts(events, rows[..n], bound);
      UptoBelowInsert(InsertRows(events, rows[..n]), rows[n], bound);
    }
  }

  // ---- Queries on the checkpoints table ----

  // ORDER BY leaf_count DESC LIMIT 1
  function Latest(checkpoints: seq<Checkpoint>): Option<Checkpoint> {
    if checkpoints == [] then None
    else
      var n := |checkpoints| - 1;
      match Latest(checkpoints[..n])
      case None => Some(checkpoints[n])
      case Some(best) => if best.payload.leafCount < checkpoints[n].payload.leafCount then Some(checkpoints[n])
          else Some(best)
  }

  // WHERE last_event_sequence >= sequence ORDER BY leaf_count DESC LIMIT 1
  function LatestCovering(checkpoints: seq<Checkpoint>, sequence: int): Option<Checkpoint> {
    if checkpoints == [] then None
    else
      var n := |checkpoints| - 1;
      match LatestCovering(checkpoints[..n], sequence)
      case None => if checkpoints[n].payload.lastSequence >= sequence then Some(checkpoints[n]) else None
      case Some(best) =>
        if checkpoints[n].payload.lastSequence >= sequence
            && best.payload.leafCount < checkpoints[n].payload.leafCount then Some(checkpoints[n]) else Some(best)
  }

  function CheckpointIndex(checkpoints: seq<Checkpoint>, id: Uuid): (found: Option<nat>)
    ensures match found
      case Some(i) => i < |checkpoints| && checkpoints[i].payload.checkpointId == id
      case None => forall j | 0 <= j < |checkpoints| :: checkpoints[j].payload.checkpointId != id
  {
    LastIndex(checkpoints, (cp: Checkpoint) => cp.payload.checkpointId == id)
  }

  function CheckpointById(checkpoints: seq<Checkpoint>, id: Uuid): Option<Checkpoint> {
    match CheckpointIndex(checkpoints, id)
    case Some(i) => Some(checkpoints[i])
    case None => None
  }

  ghost predicate Growing(checkpoints: seq<Checkpoint>) {
    forall i, j | 0 <= i < j < |checkpoints| ::
      && checkpoints[i].payload.leafCount < checkpoints[j].payload.leafCount
      && checkpoints[i].payload.lastSequence < checkpoints[j].payload.lastSequence
      && checkpoints[i].payload.checkpointId != checkpoints[j].payload.checkpointId
  }

  lemma {:induction false} LatestIsLast(checkpoints: seq<Checkpoint>)
    requires Growing(checkpoints)
    ensures Latest(checkpoints) == if checkpoints == [] then None else Some(checkpoints[|checkpoints| - 1])
  {
    if checkpoints == [] {
    } else {
      LatestIsLast(checkpoints[..|checkpoints| - 1]);
    }
  }

  lemma {:induction false} LatestCoveringIsLast(checkpoints: seq<Checkpoint>, sequence: int)
    requires Growing(checkpoints)
    ensures LatestCovering(checkpoints, sequence)
         == if checkpoints != [] && checkpoints[|checkpoints| - 1].payload.lastSequence >= sequence
             then Some(checkpoints[|checkpoints| - 1]) else None
  {
    if checkpoints == [] {
    } else {
      LatestCoveringIsLast(checkpoints[..|checkpoints| - 1], sequence);
    }
  }

  lemma CheckpointByIdFinds(checkpoints: seq<Checkpoint>, i: nat)
    requires Growing(checkpoints) && i < |checkpoints|
    ensures CheckpointIndex(checkpoints, checkpoints[i].payload.checkpointId) == Some(i)
    ensures CheckpointById(checkpoints, checkpoints[i].payload.checkpointId) == Some(checkpoints[i])
  {
    var k := CheckpointIndex(checkpoints, checkpoints[i].payload.checkpointId).value;
    assert checkpoints[k].payload.checkpointId == checkpoints[i].payload.checkpointId;
  }

  lemma CheckpointByIdFound(checkpoints: seq<Checkpoint>, id: Uuid)
    ensures CheckpointById(checkpoints, id).Some? ==>
              exists i | 0 <= i < |checkpoints| ::
                checkpoints[i] == CheckpointById(checkpoints, id).value && checkpoints[i].payload.checkpointId == id
  {
  }
}
