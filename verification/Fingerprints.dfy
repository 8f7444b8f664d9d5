/** What "the same content" means (src/ledger/service.py:44-91, src/ledger/service.py:306-354):
    an event answers a request exactly when it says what the request says. */
module Fingerprints {
  import opened Wrappers
  import opened Hashing
  import opened Domain
  import opened Protocol
  import opened Reports
  import opened BatchProofs
  import opened RaceProofs
  import opened SuccessorRaces

  // What a request asks to be recorded, and what an event records of it.
  datatype Content =
    | ReportContent(businessKey: string, instrumentId: string, operatorId: string, reportDigest: Bytes)
    | SuccessorContent(businessKey: string, parentId: Uuid, operatorId: string, successor: Successor)

  function FingerprintOf(j: Canonical, x: Content): Bytes {
    match x
    case ReportContent(key, instrumentId, operatorId, digest) => j.fingerprint(key, instrumentId, operatorId, digest)
    case SuccessorContent(key, parentId, operatorId, successor) =>
      j.successorFingerprint(key, parentId, operatorId, successor)
  }

  // No two of these contents, which are those that actually occur, have the same fingerprint.
  ghost predicate DistinctFingerprints(j: Canonical, among: set<Content>) {
    forall x, y | x in among && y in among && FingerprintOf(j, x) == FingerprintOf(j, y) :: x == y
  }

  ghost predicate Occurs(x: Option<Content>, among: set<Content>) {
    x.Some? ==> x.value in among
  }

  function ReportContentOf(v: Service, request: SubmitReport): Option<Content> {
    match v.canonical.digest(request.report)
    case None => None
    case Some(digest) => Some(ReportContent(request.businessKey, request.instrumentId, request.operatorId, digest))
  }

  function CallContentOf(v: Service, call: Call): Option<Content> {
    match SuccessorOf(v, call.request)
    case None => None
    case Some(successor) => Some(SuccessorContent(call.businessKey, call.parentId, call.operatorId, successor))
  }

  // What an event's own fields say; None when the fields do not go together.
  function ContentOf(m: Commitment): Option<Content> {
    match m.eventType
    case Report =>
      if m.reportDigest.Some? && m.previousEventId.None? && m.reason.None?
          then Some(ReportContent(m.businessKey, m.instrumentId, m.operatorId, m.reportDigest.value)) else None
    case Revision =>
      if m.reportDigest.Some? && m.previousEventId.Some? && m.reason.None? then
        Some(SuccessorContent(m.businessKey, m.previousEventId.value, m.operatorId,
            Revise(m.instrumentId, m.reportDigest.value)))
      else None
    case Revocation =>
      if m.reportDigest.None? && m.previousEventId.Some? && m.reason.Some?
          then Some(SuccessorContent(m.businessKey, m.previousEventId.value, m.operatorId, Revoke(m.reason.value)))
      else None
  }

  // Fingerprinted from its own fields.
  ghost predicate Own(v: Service, among: set<Content>, m: Commitment) {
    && ContentOf(m).Some? && ContentOf(m).value in among
    && m.fingerprint == FingerprintOf(v.canonical, ContentOf(m).value)
  }

  ghost predicate OwnRows(v: Service, among: set<Content>, events: seq<Event>) {
    forall e | e in events :: Own(v, among, e.commitment)
  }

  ghost predicate OwnRivals(v: Service, among: set<Content>, rivals: seq<Commitment>) {
    forall m | m in rivals :: Own(v, among, m)
  }

  lemma SameFingerprintSameContent(v: Service, among: set<Content>, m: Commitment, x: Content)
    requires DistinctFingerprints(v.canonical, among) && Own(v, among, m) && x in among
    ensures m.fingerprint == FingerprintOf(v.canonical, x) <==> ContentOf(m) == Some(x)
  {
    hide FingerprintOf, ContentOf;
  }

  // ---- What is stored ----

  // A stored report says what its request says, and begins a record of its own under the uuid
  // and at the time drawn for it.
  lemma NewEventSays(v: Service, among: set<Content>, number: int, request: SubmitReport)
    requires Prepare(v, request).Some? && Occurs(ReportContentOf(v, request), among)
    ensures var item := Prepare(v, request).value;
      var m := NewEvent(v, number, item).commitment;
      && item.request == request && ReportContentOf(v, request).Some?
      && item.fingerprint == FingerprintOf(v.canonical, ReportContentOf(v, request).value)
      && ContentOf(m) == ReportContentOf(v, request) && Own(v, among, m)
      && m.eventId == v.draws(number).0 && m.recordId == m.eventId && m.occurredAt == v.draws(number).1
  {
    hide EventLeaf;
  }

  // A stored successor says what its request says, in the record of its parent.
  lemma NewSuccessorSays(v: Service, among: set<Content>, s: Store, call: Call)
    requires SuccessorOf(v, call.request).Some? && Occurs(CallContentOf(v, call), among)
    requires Refusal(s.events, call.parentId, SuccessorOf(v, call.request).value) == None
    ensures FindEvent(s.events, call.parentId).Some?
    ensures var (m, parent) := (CreatedRow(v, s, call).commitment, FindEvent(s.events, call.parentId).value);
      && ContentOf(m) == CallContentOf(v, call) && Own(v, among, m)
      && m.recordId == parent.commitment.recordId && m.instrumentId == parent.commitment.instrumentId
      && m.eventId == v.draws(s.nextSequence).0 && m.occurredAt == v.draws(s.nextSequence).1
  {
    hide EventLeaf, FindEvent, ChildOf;
    FindEventFound(s.events, call.parentId);
  }

  lemma OneMoreOwn(v: Service, among: set<Content>, events: seq<Event>, row: Event)
    requires OwnRows(v, among, events) && Own(v, among, row.commitment)
    ensures OwnRows(v, among, InsertRow(events, row))
  {
    hide Own, InsertRow;
    InsertedMembers(events, row);
  }

  lemma RivalsKeepOwn(v: Service, among: set<Content>, s: Store, rivals: seq<Commitment>)
    requires OwnRows(v, among, s.events) && OwnRivals(v, among, rivals)
    ensures OwnRows(v, among, CommitRivals(v.crypto, s, rivals).events)
  {
    hide CommitRivals, Own;
    RivalsOnlyAdd(v.crypto, s, rivals);
  }

  lemma KeyIsOwn(v: Service, among: set<Content>, events: seq<Event>, key: string)
    requires OwnRows(v, among, events) && ByKey(events, key).Some?
    ensures Own(v, among, ByKey(events, key).value.commitment)
  {
    hide Own, ByKey;
    ByKeyIs(events, key);
  }

  // ---- One report ----

  // However it races, a report that can be rendered is answered from the event that is then
  // committed under its key: with that event exactly when it says what the request says, and
  // with the conflict exactly when it says anything else.
  lemma ReportAnswers(v: Service, among: set<Content>, s: Store, request: SubmitReport, early: seq<Commitment>,
      late: seq<Commitment>)
    requires DistinctFingerprints(v.canonical, among) && Occurs(ReportContentOf(v, request), among)
    requires OwnRows(v, among, s.events) && OwnRivals(v, among, early) && OwnRivals(v, among, late)
    ensures var (result, s') := AppendReportRaced(v, s, request, early, late);
      && OwnRows(v, among, s'.events)
      && (result == Err(InvalidReport) <==> ReportContentOf(v, request).None?)
      && (ReportContentOf(v, request).None? ==> s' == s)
      && (ReportContentOf(v, request).Some? ==>
          var committed := ByKey(s'.events, request.businessKey);
          && committed.Some?
          && if ContentOf(committed.value.commitment) == ReportContentOf(v, request)
              then result.Ok? && result.value.0 == committed.value
              else result == Err(IdempotencyConflict))
  {
    hide ByKey, InsertRow, NewEvent, CommitRivals, OwnRows, OwnRivals, Own, FingerprintOf, ContentOf,
        DistinctFingerprints;
    if Prepare(v, request).Some? {
      var before := CommitRivals(v.crypto, s, early);
      var drawn := Store(before.events, before.nextSequence + 1);
      var raced := CommitRivals(v.crypto, drawn, late);
      var event := NewEvent(v, before.nextSequence, Prepare(v, request).value);
      RivalsKeepOwn(v, among, s, early);
      RivalsKeepOwn(v, among, drawn, late);
      NewEventSays(v, among, before.nextSequence, request);
      var x := ReportContentOf(v, request).value;
      if ByKey(s.events, request.businessKey).Some? {
        KeyIsOwn(v, among, s.events, request.businessKey);
        SameFingerprintSameContent(v, among, ByKey(s.events, request.businessKey).value.commitment, x);
      } else if ByKey(raced.events, request.businessKey).Some? {
        KeyIsOwn(v, among, raced.events, request.businessKey);
        SameFingerprintSameContent(v, among, ByKey(raced.events, request.businessKey).value.commitment, x);
      } else {
        OneMoreOwn(v, among, raced.events, event);
        NewEventKey(v, before.nextSequence, request);
        InsertedKey(raced.events, event);
      }
    }
  }

  lemma NewEventKey(v: Service, number: int, request: SubmitReport)
    requires Prepare(v, request).Some?
    ensures NewEvent(v, number, Prepare(v, request).value).commitment.businessKey == request.businessKey
  {
    hide EventLeaf;
  }

  // ---- A revision or revocation ----

  // However it races, a revision or revocation that succeeds is answered with the event
  // committed under its key, which follows its parent and says what the request says. The key
  // is refused exactly when it leads to anything else where the call looks it up: at first, or
  // again when its insertion is settled.
  lemma SuccessorAnswers(v: Service, among: set<Content>, s: Store, call: Call, early: seq<Commitment>,
      late: seq<Commitment>)
    requires DistinctFingerprints(v.canonical, among) && Occurs(CallContentOf(v, call), among)
    requires OwnRows(v, among, s.events) && OwnRivals(v, among, early) && OwnRivals(v, among, late)
    ensures var (result, s') := Raced(v, s, call, early, late);
      && OwnRows(v, among, s'.events)
      && (result == Err(ReportInvalid) <==> CallContentOf(v, call).None?)
      && (CallContentOf(v, call).None? ==> s' == s)
      && (result.Ok? ==> ByKey(s'.events, call.businessKey) == Some(result.value.0))
      && (result.Ok? ==> ContentOf(result.value.0.commitment) == CallContentOf(v, call))
      && (result == Err(KeyReused) <==> LooksUpOther(v, s, call, early, late))
  {
    hide ByKey, InsertRow, NewSuccessor, CommitRivals, OwnRows, OwnRivals, Own, FingerprintOf, ContentOf, Refusal,
        DistinctFingerprints, FindEvent, ChildOf;
    if SuccessorOf(v, call.request).Some? {
      var before := CommitRivals(v.crypto, s, early);
      var drawn := Store(before.events, before.nextSequence + 1);
      var raced := CommitRivals(v.crypto, drawn, late);
      RivalsKeepOwn(v, among, s, early);
      RivalsKeepOwn(v, among, drawn, late);
      CallFingerprint(v, call);
      RefusalIsNoReuse(before.events, call.parentId, SuccessorOf(v, call.request).value);
      var x := CallContentOf(v, call).value;
      if ByKey(s.events, call.businessKey).Some? {
        KeyIsOwn(v, among, s.events, call.businessKey);
        SameFingerprintSameContent(v, among, ByKey(s.events, call.businessKey).value.commitment, x);
      } else if Refusal(before.events, call.parentId, SuccessorOf(v, call.request).value).None? {
        if ByKey(raced.events, call.businessKey).Some? {
          KeyIsOwn(v, among, raced.events, call.businessKey);
          SameFingerprintSameContent(v, among, ByKey(raced.events, call.businessKey).value.commitment, x);
        } else {
          NewSuccessorSays(v, among, before, call);
          var event := CreatedRow(v, before, call);
          CreatedKey(v, before, call);
          OneMoreOwn(v, among, raced.events, event);
          InsertedKey(raced.events, event);
        }
      }
    }
  }

  // The key leads to an event that says something else, when it is looked up first or, the
  // parent not being refused, when the insertion is settled.
  ghost predicate LooksUpOther(v: Service, s: Store, call: Call, early: seq<Commitment>, late: seq<Commitment>) {
    var raced := CommitRivals(v.crypto, Drawn(v, s, early), late);
    && CallContentOf(v, call).Some?
    && if ByKey(s.events, call.businessKey).Some? then SaysOther(v, s.events, call)
       else
         && Refusal(Before(v, s, early).events, call.parentId, SuccessorOf(v, call.request).value).None?
         && SaysOther(v, raced.events, call)
  }

  ghost predicate SaysOther(v: Service, events: seq<Event>, call: Call) {
    var committed := ByKey(events, call.businessKey);
    committed.Some? && ContentOf(committed.value.commitment) != CallContentOf(v, call)
  }

  lemma CallFingerprint(v: Service, call: Call)
    requires SuccessorOf(v, call.request).Some?
    ensures CallContentOf(v, call).Some?
    ensures FingerprintOf(v.canonical, CallContentOf(v, call).value)
        == v.canonical.successorFingerprint(call.businessKey, call.parentId, call.operatorId,
        SuccessorOf(v, call.request).value)
  {
  }

  lemma RefusalIsNoReuse(events: seq<Event>, parentId: Uuid, successor: Successor)
    ensures var refusal := Refusal(events, parentId, successor);
      refusal.Some? ==> !refusal.value.KeyReused? && !refusal.value.ReportInvalid?
  {
    hide FindEvent, ChildOf;
  }

  lemma CreatedKey(v: Service, s: Store, call: Call)
    requires SuccessorOf(v, call.request).Some? && FindEvent(s.events, call.parentId).Some?
    ensures CreatedRow(v, s, call).commitment.businessKey == call.businessKey
  {
    hide EventLeaf, FindEvent;
  }

  // Without rivals the raced calls are the calls alone.
  lemma NobodyRaces(v: Service, s: Store, request: SubmitReport, call: Call)
    ensures AppendReportRaced(v, s, request, [], []) == AppendReport(v, s, request)
    ensures Raced(v, s, call, [], []) == Alone(v, s, call)
  {
    hide ByKey, FindEvent, ChildOf, InsertRow, NewEvent, NewSuccessor;
  }

  // ---- A batch ----

  ghost predicate AllPrepared(v: Service, among: set<Content>, items: seq<PreparedReport>) {
    forall i | 0 <= i < |items| ::
      Prepare(v, items[i].request) == Some(items[i]) && Occurs(ReportContentOf(v, items[i].request), among)
  }

  ghost predicate OwnRivalLists(v: Service, among: set<Content>, rivals: seq<seq<Commitment>>) {
    forall k | 0 <= k < |rivals| :: OwnRivals(v, among, rivals[k])
  }

  lemma {:induction false} InsertKeepsOwn(v: Service, among: set<Content>, s: Store, items: seq<PreparedReport>)
    requires OwnRows(v, among, s.events) && AllPrepared(v, among, items)
    ensures OwnRows(v, among, InsertItems(v, s, items).1.events)
  {
    hide OwnRows, InsertRow, NewEvent, ByKey, Prepare, ContentOf, FingerprintOf, Own;
    if items == [] {
    } else {
      var n := |items| - 1;
      var s' := InsertItems(v, s, items[..n]).1;
      assert forall i | 0 <= i < n :: items[..n][i] == items[i];
      InsertKeepsOwn(v, among, s, items[..n]);
      NewEventSays(v, among, s'.nextSequence, items[n].request);
      if ByKey(s'.events, items[n].request.businessKey).None? {
        OneMoreOwn(v, among, s'.events, NewEvent(v, s'.nextSequence, items[n]));
      }
    }
  }

  lemma CreatedKeepOwn(v: Service, among: set<Content>, s: Store, items: seq<PreparedReport>, raced: seq<Event>)
    requires OwnRows(v, among, s.events) && AllPrepared(v, among, items) && OwnRows(v, among, raced)
    ensures OwnRows(v, among, InsertRows(raced, CreatedRows(MadeBefore(v, s, items))))
  {
    hide InsertItems, MadeBefore, CreatedRows, InsertRows, Own, Prepare;
    var rows := CreatedRows(MadeBefore(v, s, items));
    InsertKeepsOwn(v, among, s, items);
    MadeRows(v, s, items);
    RowsInserted(s.events, rows);
    RowsInserted(raced, rows);
  }

  // An answer says what its item's request says.
  ghost predicate SaysItsRequest(v: Service, events: seq<Event>, request: SubmitReport, e: Event) {
    && e in events && e.commitment.businessKey == request.businessKey
    && ReportContentOf(v, request).Some? && ContentOf(e.commitment) == ReportContentOf(v, request)
  }

  ghost predicate CommittedOther(v: Service, events: seq<Event>, request: SubmitReport) {
    var committed := ByKey(events, request.businessKey);
    committed.Some? && ContentOf(committed.value.commitment) != ReportContentOf(v, request)
  }

  lemma ItemSays(v: Service, item: PreparedReport)
    requires Prepare(v, item.request) == Some(item)
    ensures ReportContentOf(v, item.request).Some?
    ensures item.fingerprint == FingerprintOf(v.canonical, ReportContentOf(v, item.request).value)
  {
  }

  lemma OneAnswerSays(v: Service, among: set<Content>, s: Store, items: seq<PreparedReport>, results: seq<Appended>,
      events: seq<Event>,
      i: nat)
    requires DistinctFingerprints(v.canonical, among) && AllPrepared(v, among, items) && OwnRows(v, among, events)
    requires i < |items| == |results| && Answers(s, items, results, i) && results[i].0 in events
    ensures SaysItsRequest(v, events, items[i].request, results[i].0)
  {
    hide Prepare, ContentOf, FingerprintOf, Own, ReportContentOf, DistinctFingerprints, FirstIndex, ByKey;
    ItemSays(v, items[i]);
    SameFingerprintSameContent(v, among, results[i].0.commitment, ReportContentOf(v, items[i].request).value);
  }

  lemma ClashSaysOther(v: Service, among: set<Content>, events: seq<Event>, items: seq<PreparedReport>, j: nat)
    requires DistinctFingerprints(v.canonical, among) && AllPrepared(v, among, items) && OwnRows(v, among, events)
    requires j < |items| && ClashesWithCommitted(events, items, j)
    ensures CommittedOther(v, events, items[j].request)
  {
    hide Prepare, ContentOf, FingerprintOf, Own, ReportContentOf, DistinctFingerprints, ByKey, OwnRows;
    var committed := ByKey(events, items[j].request.businessKey).value;
    ItemSays(v, items[j]);
    KeyIsOwn(v, among, events, items[j].request.businessKey);
    SameFingerprintSameContent(v, among, committed.commitment, ReportContentOf(v, items[j].request).value);
  }

  lemma StopsAtOther(v: Service, among: set<Content>, s: Store, items: seq<PreparedReport>, raced: Store,
      rivals: seq<Commitment>)
    requires DistinctFingerprints(v.canonical, among) && AllPrepared(v, among, items) && OwnRows(v, among, raced.events)
    requires BatchConflict(items) == None && InsertItems(v, s, items).0.Err?
    requires raced == CommitRivals(v.crypto, Store(s.events, InsertItems(v, s, items).1.nextSequence), rivals)
    ensures InsertItems(v, s, items).0.error < |items|
    ensures CommittedOther(v, raced.events, items[InsertItems(v, s, items).0.error].request)
  {
    hide InsertItems, CommitRivals, DistinctFingerprints, AllPrepared, ByKey, OwnRows, CommittedOther, FirstIndex;
    var j := InsertItems(v, s, items).0.error;
    InsertStops(v, s, items);
    BatchConflictIs(items);
    RivalsKeepKeys(v.crypto, Store(s.events, InsertItems(v, s, items).1.nextSequence), rivals,
        items[j].request.businessKey);
    ClashSaysOther(v, among, raced.events, items, j);
  }

  // The attempts of a batch whose keys do not clash among themselves.
  lemma {:induction false} AttemptAnswers(v: Service, among: set<Content>, s: Store, items: seq<PreparedReport>,
      rivals: seq<seq<Commitment>>, attempt: nat)
    requires DistinctFingerprints(v.canonical, among) && AllPrepared(v, among, items) && BatchConflict(items) == None
    requires OwnRows(v, among, s.events) && OwnRivalLists(v, among, rivals)
    ensures var (result, s') := Attempts(v, s, items, rivals, attempt);
      && OwnRows(v, among, s'.events)
      && match result
         case Ok(answers) => |answers| == |items| && forall i | 0 <= i < |items| ::
             SaysItsRequest(v, s'.events, items[i].request, answers[i].0)
         case Err(ConflictWithCommitted(i)) => i < |items| && CommittedOther(v, s'.events, items[i].request)
         case Err(error) => error == IntegrityError
    decreases BATCH_INSERT_ATTEMPTS - attempt
  {
    hide InsertItems, MadeBefore, CommitRivals, CommittedConflict, CreatedRows, InsertRows, Collides, Own, OwnRows,
        Answers, DistinctFingerprints, AllPrepared, BatchConflict, SaysItsRequest, CommittedOther;
    var drawn := Store(s.events, InsertItems(v, s, items).1.nextSequence);
    var raced := CommitRivals(v.crypto, drawn, Rivals(rivals, attempt));
    RivalsKeepOwn(v, among, drawn, Rivals(rivals, attempt));
    if !Collides(MadeBefore(v, s, items), raced.events) {
      if InsertItems(v, s, items).0.Ok? {
        InsertedAnswersSay(v, among, s, items, drawn, raced, Rivals(rivals, attempt));
      } else {
        StopsAtOther(v, among, s, items, raced, Rivals(rivals, attempt));
      }
    } else {
      CommittedConflictIs(raced.events, items);
      var conflict := CommittedConflict(raced.events, items);
      if conflict.Some? {
        ClashSaysOther(v, among, raced.events, items, conflict.value);
      } else if attempt + 1 < BATCH_INSERT_ATTEMPTS {
        AttemptAnswers(v, among, raced, items, rivals, attempt + 1);
      }
    }
  }

  lemma InsertedAnswersSay(v: Service, among: set<Content>, s: Store, items: seq<PreparedReport>, drawn: Store,
      raced: Store,
      rivals: seq<Commitment>)
    requires DistinctFingerprints(v.canonical, among) && AllPrepared(v, among, items) && InsertItems(v, s, items).0.Ok?
    requires OwnRows(v, among, s.events) && OwnRows(v, among, raced.events)
    requires drawn.events == s.events && raced == CommitRivals(v.crypto, drawn, rivals)
    ensures var answers := InsertItems(v, s, items).0.value;
      var events := InsertRows(raced.events, CreatedRows(answers));
      && OwnRows(v, among, events) && |answers| == |items|
      && forall i | 0 <= i < |items| :: SaysItsRequest(v, events, items[i].request, answers[i].0)
  {
    hide InsertItems, MadeBefore, CommitRivals, CreatedRows, InsertRows, Own, OwnRows, Answers,
        DistinctFingerprints, AllPrepared, SaysItsRequest;
    var answers := InsertItems(v, s, items).0.value;
    var events := InsertRows(raced.events, CreatedRows(answers));
    RivalsOnlyAdd(v.crypto, drawn, rivals);
    MadeAll(v, s, items);
    CreatedKeepOwn(v, among, s, items, raced.events);
    InsertAnswers(v, s, items, "");
    AnswersAreCommitted(v, s, items, raced.events);
    forall i | 0 <= i < |items| ensures SaysItsRequest(v, events, items[i].request, answers[i].0) {
      OneAnswerSays(v, among, s, items, answers, events, i);
    }
  }

  // Every answer of a batch, however it races, is a committed event that says what its own
  // request says. A batch is refused for a report that cannot be rendered, for the first one
  // whose key came before in the batch and said something else, or for one whose key leads to
  // a committed event that says something else.
  lemma BatchSays(v: Service, among: set<Content>, s: Store, requests: seq<SubmitReport>, rivals: seq<seq<Commitment>>)
    requires DistinctFingerprints(v.canonical, among) && OwnRows(v, among, s.events) && OwnRivalLists(v, among, rivals)
    requires forall i | 0 <= i < |requests| :: Occurs(ReportContentOf(v, requests[i]), among)
    ensures var (result, s') := AppendBatch(v, s, requests, rivals);
      && OwnRows(v, among, s'.events)
      && match result
         case Ok(answers) => |answers| == |requests| && forall i | 0 <= i < |requests| ::
             SaysItsRequest(v, s'.events, requests[i], answers[i].0)
         case Err(ItemInvalid(i)) => i < |requests| && ReportContentOf(v, requests[i]).None?
         case Err(ConflictInBatch(i, first)) => FirstOfKey(requests, i, first)
             && ReportContentOf(v, requests[first]) != ReportContentOf(v, requests[i])
         case Err(ConflictWithCommitted(i)) => i < |requests| && CommittedOther(v, s'.events, requests[i])
         case Err(IntegrityError) => true
  {
    hide PrepareAll, BatchConflict, Attempts, Prepare, DistinctFingerprints, OwnRows, OwnRivalLists, SaysItsRequest,
        CommittedOther, ReportContentOf, FirstOfKey;
    PrepareAllIs(v, requests);
    if PrepareAll(v, requests).Ok? {
      var items := PrepareAll(v, requests).value;
      forall i | 0 <= i < |items| ensures items[i].request == requests[i] {
        PreparedRequest(v, requests[i]);
      }
      var conflict := BatchConflict(items);
      if conflict.Some? {
        BatchClashSays(v, among, requests, items);
      } else {
        AttemptAnswers(v, among, s, items, rivals, 0);
        var result := Attempts(v, s, items, rivals, 0).0;
        if result.Err? && result.error.ConflictWithCommitted? {
          assert items[result.error.index].request == requests[result.error.index];
        }
      }
    } else {
      PreparedRequest(v, requests[PrepareAll(v, requests).error]);
    }
  }

  lemma PreparedRequest(v: Service, request: SubmitReport)
    ensures if Prepare(v, request).Some? then Prepare(v, request).value.request == request
        else ReportContentOf(v, request).None?
  {
  }

  // The first place of the key of request i is before i.
  ghost predicate FirstOfKey(requests: seq<SubmitReport>, i: nat, first: nat) {
    && first < i < |requests| && requests[first].businessKey == requests[i].businessKey
    && forall j | 0 <= j < first :: requests[j].businessKey != requests[i].businessKey
  }

  lemma BatchClashSays(v: Service, among: set<Content>, requests: seq<SubmitReport>, items: seq<PreparedReport>)
    requires DistinctFingerprints(v.canonical, among) && |items| == |requests| && BatchConflict(items).Some?
    requires forall i | 0 <= i < |requests| :: Occurs(ReportContentOf(v, requests[i]), among)
    requires forall i | 0 <= i < |items| ::
      items[i].request == requests[i] && Prepare(v, requests[i]) == Some(items[i])
    ensures var (i, first) := BatchConflict(items).value;
      FirstOfKey(requests, i, first) && ReportContentOf(v, requests[first]) != ReportContentOf(v, requests[i])
  {
    hide BatchConflict, Prepare, ReportContentOf, FingerprintOf, FirstIndex;
    var (i, first) := BatchConflict(items).value;
    BatchConflictNames(items);
    FirstIndexIsFirst(items[..i], items[i].request.businessKey);
    ItemSays(v, items[i]);
    ItemSays(v, items[first]);
  }

  // ---- Histories ----

  // Anything that clients submit, with what others commit meanwhile.
  datatype Submission =
    | OneReport(request: SubmitReport, early: seq<Commitment>, late: seq<Commitment>)
    | OneSuccessor(call: Call, early: seq<Commitment>, late: seq<Commitment>)
    | ManyReports(requests: seq<SubmitReport>, rivals: seq<seq<Commitment>>)

  function Submit(v: Service, s: Store, x: Submission): Store {
    match x
    case OneReport(request, early, late) => AppendReportRaced(v, s, request, early, late).1
    case OneSuccessor(call, early, late) => Raced(v, s, call, early, late).1
    case ManyReports(requests, rivals) => AppendBatch(v, s, requests, rivals).1
  }

  const EMPTY := Store([], 1)

  function SubmitAll(v: Service, xs: seq<Submission>): Store {
    if xs == [] then EMPTY else Submit(v, SubmitAll(v, xs[..|xs| - 1]), xs[|xs| - 1])
  }

  // What is asked is among the contents; the rivals, like the service itself, fingerprint what
  // they commit from its own fields.
  ghost predicate FairRivals(v: Service, among: set<Content>, x: Submission) {
    match x
    case OneReport(request, early, late) =>
      Occurs(ReportContentOf(v, request), among) && OwnRivals(v, among, early) && OwnRivals(v, among, late)
    case OneSuccessor(call, early, late) =>
      Occurs(CallContentOf(v, call), among) && OwnRivals(v, among, early) && OwnRivals(v, among, late)
    case ManyReports(requests, rivals) =>
      && (forall i | 0 <= i < |requests| :: Occurs(ReportContentOf(v, requests[i]), among))
      && OwnRivalLists(v, among, rivals)
  }

  // Every table that submissions build from an empty one holds events that are fingerprinted
  // from their own fields: so on every such table the answers are what the theorems above say.
  lemma {:induction false} HistoriesKeepOwn(v: Service, among: set<Content>, xs: seq<Submission>)
    requires DistinctFingerprints(v.canonical, among) && forall k | 0 <= k < |xs| :: FairRivals(v, among, xs[k])
    ensures OwnRows(v, among, SubmitAll(v, xs).events)
  {
    hide DistinctFingerprints, AppendReportRaced, SubmitSuccessorRaced, AppendBatch, Own, OwnRivals, OwnRivalLists;
    if xs == [] {
    } else {
      var n := |xs| - 1;
      var s := SubmitAll(v, xs[..n]);
      HistoriesKeepOwn(v, among, xs[..n]);
      assert FairRivals(v, among, xs[n]);
      match xs[n]
      case OneReport(request, early, late) => ReportAnswers(v, among, s, request, early, late);
      case OneSuccessor(call, early, late) => SuccessorAnswers(v, among, s, call, early, late);
      case ManyReports(requests, rivals) => BatchSays(v, among, s, requests, rivals);
    }
  }
}
