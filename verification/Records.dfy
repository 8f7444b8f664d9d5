/** A record is one linear chain of events (src/ledger/service.py:356-441,
    src/ledger/api/app.py:219-236). */
module Records {
  import opened Wrappers
  import opened Domain
  import opened Sealing
  import opened Protocol
  import opened Runs

  function RecordEvents(events: seq<Event>, recordId: Uuid): seq<Event> {
    if events == [] then []
    else
      var n := |events| - 1;
      RecordEvents(events[..n], recordId) + if events[n].commitment.recordId == recordId then [events[n]] else []
  }

  lemma {:induction false} RecordEventsOf(events: seq<Event>, recordId: Uuid)
    requires Sorted(events)
    ensures Sorted(RecordEvents(events, recordId))
    ensures forall e :: e in RecordEvents(events, recordId) <==> e in events && e.commitment.recordId == recordId
  {
    if events == [] {
    } else {
      var n := |events| - 1;
      var below := RecordEvents(events[..n], recordId);
      RecordEventsOf(events[..n], recordId);
      assert events == events[..n] + [events[n]];
      forall i | 0 <= i < |below| ensures below[i].sequence < events[n].sequence {
        assert below[i] in below;
        var j :| 0 <= j < n && events[..n][j] == below[i];
      }
    }
  }

  datatype RecordView = RecordView(currentState: EventType, events: seq<Event>)

  function GetRecord(events: seq<Event>, recordId: Uuid): Option<RecordView> {
    var found := RecordEvents(events, recordId);
    if found == [] then None else Some(RecordView(found[|found| - 1].commitment.eventType, found))
  }

  // What the invariants say about the committed events alone.
  ghost predicate WellLinked(events: seq<Event>) {
    && Sorted(events)
    && (forall e, f | e in events && f in events && Clash(e, f) :: e == f)
    && (forall e | e in events :: Lineage(events, e.commitment, e.sequence))
  }

  lemma RunsAreWellLinked(c: Crypto, master: Keyring, steps: seq<Step>)
    requires Trusted(master, steps)
    ensures WellLinked(Exec(c, INIT, steps).db.events)
  {
    hide Exec, Chain, Numbering, SealerAlone;
    InitInv(c, master);
    RunKeepsInv(c, master, INIT, steps);
    var s := Exec(c, INIT, steps);
    assert Sorted(s.db.events) by {
      SortedInChain(c, master, s.db);
    }
    assert forall e | e in s.db.events :: IsRow(s, e);
  }

  lemma SortedInChain(c: Crypto, master: Keyring, db: Tables)
    requires Chain(c, master, db)
    ensures Sorted(db.events)
  {
  }

  lemma MembersLinked(events: seq<Event>, r: seq<Event>, recordId: Uuid)
    requires WellLinked(events) && r == RecordEvents(events, recordId)
    ensures Sorted(r)
    ensures forall e :: e in r <==> e in events && e.commitment.recordId == recordId
    ensures forall e | e in r :: Lineage(events, e.commitment, e.sequence)
  {
    RecordEventsOf(events, recordId);
  }

  lemma ParentExists(events: seq<Event>, e: Event) returns (p: Event)
    requires WellLinked(events) && e in events && e.commitment.previousEventId.Some?
    ensures p in events && ParentOf(p, e.commitment) && p.sequence < e.sequence
  {
    assert Lineage(events, e.commitment, e.sequence);
    p :| p in events && ParentOf(p, e.commitment) && p.sequence < e.sequence;
  }

  // The parent of a record's event is an earlier event of the same record.
  lemma ParentInRecord(events: seq<Event>, r: seq<Event>, recordId: Uuid, i: nat) returns (j: nat)
    requires WellLinked(events) && r == RecordEvents(events, recordId)
    requires i < |r| && r[i].commitment.previousEventId.Some?
    ensures j < i && ParentOf(r[j], r[i].commitment)
  {
    RecordEventsOf(events, recordId);
    assert r[i] in r;
    var p := ParentExists(events, r[i]);
    hide WellLinked, RecordEvents;
    assert p in r;
    j :| 0 <= j < |r| && r[j] == p;
  }

  // Only the first event of a record is a report.
  lemma FirstIsReport(events: seq<Event>, r: seq<Event>, recordId: Uuid, i: nat)
    requires WellLinked(events) && r == RecordEvents(events, recordId) && i < |r|
    ensures r[i].commitment.eventType == Report <==> i == 0
  {
    RecordEventsOf(events, recordId);
    assert r[0] in r && r[i] in r;
    assert Lineage(events, r[0].commitment, r[0].sequence) && Lineage(events, r[i].commitment, r[i].sequence);
    hide RecordEvents;
    if r[0].commitment.eventType != Report {
      var j := ParentInRecord(events, r, recordId, 0);
    }
    assert r[0].commitment.eventType == Report && r[i].commitment.eventType == Report ==> Clash(r[0], r[i]);
  }

  ghost predicate Follows(e: Event, before: Event) {
    ParentOf(before, e.commitment) && e.commitment.eventType != Report
  }

  // Every later event follows the one directly before it.
  lemma {:induction false} LinkedToPrevious(events: seq<Event>, r: seq<Event>, recordId: Uuid, i: nat)
    requires WellLinked(events) && r == RecordEvents(events, recordId) && 0 < i < |r|
    ensures Follows(r[i], r[i - 1])
    decreases i
  {
    hide WellLinked, RecordEvents;
    FirstIsReport(events, r, recordId, i);
    HasParent(events, r, recordId, i);
    var j := ParentInRecord(events, r, recordId, i);
    if j < i - 1 {
      LinkedToPrevious(events, r, recordId, j + 1);
      OneChild(events, r, recordId, j + 1, i);
    }
  }

  lemma HasParent(events: seq<Event>, r: seq<Event>, recordId: Uuid, i: nat)
    requires WellLinked(events) && r == RecordEvents(events, recordId) && i < |r|
    ensures r[i].commitment.eventType != Report <==> r[i].commitment.previousEventId.Some?
  {
    MembersLinked(events, r, recordId);
    assert r[i] in r;
    assert Lineage(events, r[i].commitment, r[i].sequence);
  }

  // No two events of a record name the same predecessor.
  lemma OneChild(events: seq<Event>, r: seq<Event>, recordId: Uuid, i: nat, j: nat)
    requires WellLinked(events) && r == RecordEvents(events, recordId) && i < |r| && j < |r|
    requires r[i].commitment.previousEventId.Some? && r[i].commitment.previousEventId == r[j].commitment.previousEventId
    ensures i == j
  {
    MembersLinked(events, r, recordId);
    assert r[i] in r && r[j] in r;
    assert Clash(r[i], r[j]);
  }

  lemma {:induction false} SameInstrument(r: seq<Event>, i: nat)
    requires i < |r| && forall k | 0 <= k < |r| - 1 :: Follows(r[k + 1], r[k])
    ensures r[i].commitment.instrumentId == r[0].commitment.instrumentId
  {
    if i == 0 {
    } else {
      SameInstrument(r, i - 1);
      assert Follows(r[i - 1 + 1], r[i - 1]);
    }
  }

  ghost predicate Succeeded(events: seq<Event>, e: Event) {
    exists f | f in events :: f.commitment.previousEventId == Some(e.commitment.eventId)
  }

  lemma SuccessorIsLater(events: seq<Event>, r: seq<Event>, recordId: Uuid, i: nat, f: Event)
    requires WellLinked(events) && r == RecordEvents(events, recordId) && i < |r|
    requires f in events && f.commitment.previousEventId == Some(r[i].commitment.eventId)
    ensures i < |r| - 1
  {
    hide WellLinked, RecordEvents, Lineage, Clash;
    MembersLinked(events, r, recordId);
    assert r[i] in r;
    var p := ParentExists(events, f);
    SameEvent(events, p, r[i]);
    var j :| 0 <= j < |r| && r[j] == f;
  }

  lemma SameEvent(events: seq<Event>, e: Event, f: Event)
    requires WellLinked(events) && e in events && f in events && e.commitment.eventId == f.commitment.eventId
    ensures e == f
  {
    assert Clash(e, f);
  }

  // The last event of a record is the only one that nothing succeeds.
  lemma OnlyLastOpen(events: seq<Event>, r: seq<Event>, recordId: Uuid, i: nat)
    requires WellLinked(events) && r == RecordEvents(events, recordId) && i < |r|
    ensures Succeeded(events, r[i]) <==> i < |r| - 1
  {
    RecordEventsOf(events, recordId);
    assert r[i] in r;
    if i < |r| - 1 {
      LinkedToPrevious(events, r, recordId, i + 1);
      assert r[i + 1] in r;
    }
    forall f | f in events && f.commitment.previousEventId == Some(r[i].commitment.eventId) ensures i < |r| - 1 {
      SuccessorIsLater(events, r, recordId, i, f);
    }
  }

  ghost predicate LinearRecord(events: seq<Event>, r: seq<Event>) {
    && (forall i | 0 <= i < |r| :: r[i].commitment.eventType == Report <==> i == 0)
    && (forall i | 0 <= i < |r| - 1 :: Follows(r[i + 1], r[i]) && r[i].commitment.eventType != Revocation)
    && (forall i | 0 <= i < |r| :: r[i].commitment.instrumentId == r[0].commitment.instrumentId)
    && (forall i | 0 <= i < |r| :: Succeeded(events, r[i]) <==> i < |r| - 1)
  }

  // In every run each record is one linear chain: a report that begins it, then events that
  // each follow the one before, of the same instrument, with no revocation but possibly the
  // last; and the last event, whose type is the record's current state, is the only one of
  // them that nothing succeeds.
  lemma RecordIsLinear(c: Crypto, master: Keyring, steps: seq<Step>, recordId: Uuid)
    requires Trusted(master, steps)
    ensures var events := Exec(c, INIT, steps).db.events;
      LinearRecord(events, RecordEvents(events, recordId))
  {
    hide Exec, WellLinked;
    RunsAreWellLinked(c, master, steps);
    var events := Exec(c, INIT, steps).db.events;
    var r := RecordEvents(events, recordId);
    hide RecordEvents, Succeeded;
    forall i | 0 <= i < |r|
      ensures r[i].commitment.eventType == Report <==> i == 0
      ensures Succeeded(events, r[i]) <==> i < |r| - 1
    {
      FirstIsReport(events, r, recordId, i);
      OnlyLastOpen(events, r, recordId, i);
    }
    forall i | 0 <= i < |r| - 1 ensures Follows(r[i + 1], r[i]) && r[i].commitment.eventType != Revocation {
      LinkedToPrevious(events, r, recordId, i + 1);
    }
    hide Follows;
    forall i | 0 <= i < |r| ensures r[i].commitment.instrumentId == r[0].commitment.instrumentId {
      SameInstrument(r, i);
    }
  }
}
