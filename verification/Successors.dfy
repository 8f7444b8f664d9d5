/** What revising or revoking an event does to its record (src/ledger/service.py:356-422). */
module Successors {
  import opened Wrappers
  import opened Hashing
  import opened Domain
  import opened Protocol
  import opened Records
  import opened Reports
  import opened RaceProofs

  // Why nothing may follow, on any table and in the order in which it is looked at: an unknown
  // parent, a revoked one, one that has a successor, another instrument.
  lemma WhatIsRefused(events: seq<Event>, parentId: Uuid, successor: Successor)
    ensures var (refusal, parent, child) :=
        (Refusal(events, parentId, successor), FindEvent(events, parentId), ChildOf(events, parentId));
      && (refusal == Some(ParentNotFound) <==> forall e | e in events :: e.commitment.eventId != parentId)
      && (parent.Some? ==>
          var revoked := parent.value.commitment.eventType == Revocation;
          var followed := exists e | e in events :: e.commitment.previousEventId == Some(parentId);
          && (refusal == Some(RecordRevoked) <==> revoked)
          && (refusal.Some? && refusal.value.AlreadySuperseded? <==> !revoked && followed)
          && (refusal.Some? && refusal.value.AlreadySuperseded? ==>
              refusal.value.successor in events
              && refusal.value.successor.commitment.previousEventId == Some(parentId))
          && (refusal == Some(InstrumentMismatch) <==>
              !revoked && !followed && successor.Revise?
                  && successor.instrumentId != parent.value.commitment.instrumentId)
          && (refusal.Some? ==>
              refusal.value.RecordRevoked? || refusal.value.AlreadySuperseded? || refusal.value.InstrumentMismatch?))
  {
    hide FindEvent, ChildOf;
    FindEventFound(events, parentId);
    ChildOfIs(events, parentId);
  }

  // Only the last event of a record can be followed: a successor with a new key is accepted
  // exactly when its parent is the last event of its record, is not a revocation, and, for a
  // revision, is of the same instrument.
  lemma OnlyLastIsFollowed(events: seq<Event>, r: seq<Event>, recordId: Uuid, i: nat, successor: Successor)
    requires WellLinked(events) && r == RecordEvents(events, recordId) && i < |r|
    ensures Refusal(events, r[i].commitment.eventId, successor) == None
       <==> (i == |r| - 1 && r[i].commitment.eventType != Revocation
             && (successor.Revise? ==> successor.instrumentId == r[i].commitment.instrumentId))
  {
    hide WellLinked, RecordEvents, FindEvent, ChildOf;
    MembersLinked(events, r, recordId);
    assert r[i] in r;
    FindEventFound(events, r[i].commitment.eventId);
    SameEvent(events, FindEvent(events, r[i].commitment.eventId).value, r[i]);
    ChildOfIs(events, r[i].commitment.eventId);
    OnlyLastOpen(events, r, recordId, i);
  }

  lemma {:induction false} RecordAtEnd(events: seq<Event>, row: Event, recordId: Uuid)
    requires forall e | e in events :: e.sequence < row.sequence
    ensures RecordEvents(InsertRow(events, row), recordId)
        == RecordEvents(events, recordId) + if row.commitment.recordId == recordId then [row] else []
  {
    if events == [] {
      assert [row][..0] == [];
    } else {
      assert events[|events| - 1] in events;
      assert (events + [row])[..|events|] == events;
    }
  }

  // A successor that is created becomes the last event of its parent's record, which then is
  // in the successor's state; every other record stays as it was.
  lemma SuccessorExtendsRecord(v: Service, s: Store, parentId: Uuid, businessKey: string, fingerprint: Bytes,
      operatorId: string, successor: Successor, recordId: Uuid)
    requires forall e | e in s.events :: e.sequence < s.nextSequence
    requires var result := AppendSuccessor(v, s, parentId, businessKey, fingerprint, operatorId,
        successor).0; result.Ok? && result.value.1
    ensures var (result, s') := AppendSuccessor(v, s, parentId, businessKey, fingerprint, operatorId, successor);
      var event, parent := result.value.0, FindEvent(s.events, parentId);
      && parent.Some? && Follows(event, parent.value)
      && RecordEvents(s'.events, recordId)
          == RecordEvents(s.events, recordId) + (if parent.value.commitment.recordId == recordId then [event] else [])
      && (parent.value.commitment.recordId == recordId ==>
          GetRecord(s'.events, recordId)
              == Some(RecordView(if successor.Revise? then Revision
              else Revocation, RecordEvents(s.events, recordId) + [event])))
  {
    var event := AppendSuccessor(v, s, parentId, businessKey, fingerprint, operatorId, successor).0.value.0;
    FindEventFound(s.events, parentId);
    RecordAtEnd(s.events, event, recordId);
    hide RecordEvents, InsertRow, FindEvent, ByKey, ChildOf;
  }

  // A report that is created begins a record of its own, in the state of a report, when its
  // uuid is new; every other record stays as it was.
  lemma ReportBeginsRecord(v: Service, s: Store, request: SubmitReport, recordId: Uuid)
    requires NumbersBelow(s) && WellLinked(s.events) && NewId(v, s.nextSequence, s.events)
    requires var result := AppendReport(v, s, request).0; result.Ok? && result.value.1
    ensures var (result, s') := AppendReport(v, s, request);
      var (event, own) := (result.value.0, v.draws(s.nextSequence).0);
      && event.sequence == s.nextSequence && event.commitment.eventType == Report
      && event.commitment.previousEventId == None
      && (recordId == own ==> GetRecord(s'.events, recordId) == Some(RecordView(Report, [event])))
      && (recordId != own ==> GetRecord(s'.events, recordId) == GetRecord(s.events, recordId))
  {
    hide InsertRow, EventLeaf, WellLinked, ByKey, RecordEvents;
    var event := AppendReport(v, s, request).0.value.0;
    assert event == NewEvent(v, s.nextSequence, Prepare(v, request).value);
    RecordAtEnd(s.events, event, recordId);
    if recordId == v.draws(s.nextSequence).0 {
      NoSuchRecord(s.events, recordId);
      assert [] + [event] == [event];
    } else {
      assert RecordEvents(s.events, recordId) + [] == RecordEvents(s.events, recordId);
    }
  }

  // A record carries the uuid of the report it begins with.
  lemma NoSuchRecord(events: seq<Event>, recordId: Uuid)
    requires WellLinked(events) && forall e | e in events :: e.commitment.eventId != recordId
    ensures RecordEvents(events, recordId) == []
  {
    hide WellLinked, RecordEvents;
    var r := RecordEvents(events, recordId);
    MembersLinked(events, r, recordId);
    if r != [] {
      assert r[0] in r;
      FirstIsReport(events, r, recordId, 0);
    }
  }
}
