/** What submissions come to when other transactions commit while they are under way
    (src/ledger/service.py:142-292, src/ledger/service.py:356-441). */
module RaceProofs {
  import opened Wrappers
  import opened Domain
  import opened Reports
  import opened BatchProofs

  // ---- What rivals do ----

  lemma {:induction false} ChildOfIs(events: seq<Event>, id: Uuid)
    ensures match ChildOf(events, id)
      case Some(child) => child in events && child.commitment.previousEventId == Some(id)
      case None => forall e | e in events :: e.commitment.previousEventId != Some(id)
  {
    if events == [] {
    } else {
      var n := |events| - 1;
      ChildOfIs(events[..n], id);
      assert events == events[..n] + [events[n]];
    }
  }

  lemma {:induction false} ByKeyIs(events: seq<Event>, key: string)
    ensures match ByKey(events, key)
      case Some(e) => e in events && e.commitment.businessKey == key
      case None => forall e | e in events :: e.commitment.businessKey != key
  {
    if events == [] {
    } else {
      var n := |events| - 1;
      ByKeyIs(events[..n], key);
      assert events == events[..n] + [events[n]];
    }
  }

  ghost predicate FromRival(e: Event, rivals: seq<Commitment>) {
    e.commitment in rivals
  }

  lemma {:induction false} RivalsOnlyAdd(c: Crypto, s: Store, rivals: seq<Commitment>)
    ensures forall e | e in s.events :: e in CommitRivals(c, s, rivals).events
    ensures forall e | e in CommitRivals(c, s, rivals).events :: e in s.events || FromRival(e, rivals)
  {
    hide NoClash, InsertRow, EventLeaf;
    if rivals == [] {
    } else {
      var n := |rivals| - 1;
      var s' := CommitRivals(c, s, rivals[..n]);
      RivalsOnlyAdd(c, s, rivals[..n]);
      InsertedMembers(s'.events, Event(s'.nextSequence, rivals[n], EventLeaf(c, rivals[n])));
      assert rivals == rivals[..n] + [rivals[n]];
    }
  }

  lemma NoClashIsNewKey(events: seq<Event>, row: Event)
    requires NoClash(events, row)
    ensures ByKey(events, row.commitment.businessKey) == None
  {
    ByKeyIs(events, row.commitment.businessKey);
  }

  // A committed key keeps its event.
  lemma {:induction false} RivalsKeepKeys(c: Crypto, s: Store, rivals: seq<Commitment>, key: string)
    ensures ByKey(s.events, key).Some? ==> ByKey(CommitRivals(c, s, rivals).events, key) == ByKey(s.events, key)
  {
    hide ByKey, InsertRow, EventLeaf, NoClash;
    if rivals == [] {
    } else {
      var n := |rivals| - 1;
      var s' := CommitRivals(c, s, rivals[..n]);
      var row := Event(s'.nextSequence, rivals[n], EventLeaf(c, rivals[n]));
      RivalsKeepKeys(c, s, rivals[..n], key);
      if NoClash(s'.events, row) {
        NoClashIsNewKey(s'.events, row);
        InsertedKey(s'.events, row);
      }
    }
  }

  lemma {:induction false} RivalsInTwo(c: Crypto, s: Store, a: seq<Commitment>, b: seq<Commitment>)
    ensures CommitRivals(c, s, a + b) == CommitRivals(c, CommitRivals(c, s, a), b)
    decreases |b|
  {
    hide CommitRival;
    if b == [] {
      assert a + b == a;
    } else {
      var n := |b| - 1;
      RivalsInTwo(c, s, a, b[..n]);
      assert (a + b)[..|a| + n] == a + b[..n];
    }
  }

  ghost predicate NumbersBelow(s: Store) {
    forall e | e in s.events :: e.sequence < s.nextSequence
  }

  lemma {:induction false} RivalsNumbered(c: Crypto, s: Store, rivals: seq<Commitment>)
    requires NumbersBelow(s)
    ensures NumbersBelow(CommitRivals(c, s, rivals))
    ensures CommitRivals(c, s, rivals).nextSequence == s.nextSequence + |rivals|
  {
    hide NoClash, InsertRow, EventLeaf;
    if rivals == [] {
    } else {
      var n := |rivals| - 1;
      var s' := CommitRivals(c, s, rivals[..n]);
      RivalsNumbered(c, s, rivals[..n]);
      InsertedMembers(s'.events, Event(s'.nextSequence, rivals[n], EventLeaf(c, rivals[n])));
    }
  }

  // ---- A row may as well come before its rivals ----

  lemma InsertAtEnd(events: seq<Event>, row: Event)
    requires forall e | e in events :: e.sequence < row.sequence
    ensures InsertRow(events, row) == events + [row]
  {
    if events != [] {
      assert events[|events| - 1] in events;
    }
  }

  lemma RowsCommute(events: seq<Event>, a: Event, b: Event)
    requires a.sequence < b.sequence && forall e | e in events :: e.sequence < b.sequence
    ensures InsertRow(InsertRow(events, a), b) == InsertRow(InsertRow(events, b), a)
  {
    InsertedMembers(events, a);
    InsertAtEnd(events, b);
    InsertAtEnd(InsertRow(events, a), b);
    assert (events + [b])[..|events|] == events;
  }

  lemma RivalCommutes(c: Crypto, s: Store, row: Event, m: Commitment)
    requires NumbersBelow(s) && row.sequence < s.nextSequence
    requires NoClash(CommitRival(c, s, m).events, row)
    ensures NoClash(s.events, row)
    ensures CommitRival(c, Store(InsertRow(s.events, row), s.nextSequence), m)
        == Store(InsertRow(CommitRival(c, s, m).events, row), s.nextSequence + 1)
  {
    hide InsertRow, EventLeaf;
    var rival := Event(s.nextSequence, m, EventLeaf(c, m));
    InsertedMembers(s.events, rival);
    InsertedMembers(s.events, row);
    RowsCommute(s.events, row, rival);
  }

  lemma {:induction false} RivalsCommute(c: Crypto, s: Store, row: Event, rivals: seq<Commitment>)
    requires NumbersBelow(s) && row.sequence < s.nextSequence
    requires NoClash(CommitRivals(c, s, rivals).events, row)
    ensures CommitRivals(c, Store(InsertRow(s.events, row), s.nextSequence), rivals)
        == Store(InsertRow(CommitRivals(c, s, rivals).events, row), CommitRivals(c, s, rivals).nextSequence)
  {
    hide NoClash, InsertRow, CommitRival, NumbersBelow;
    if rivals == [] {
    } else {
      var n := |rivals| - 1;
      RivalsNumbered(c, s, rivals[..n]);
      RivalCommutes(c, CommitRivals(c, s, rivals[..n]), row, rivals[n]);
      RivalsCommute(c, s, row, rivals[..n]);
      NextNumber(c, CommitRivals(c, s, rivals[..n]), rivals[n]);
    }
  }

  lemma NextNumber(c: Crypto, s: Store, m: Commitment)
    ensures CommitRival(c, s, m).nextSequence == s.nextSequence + 1
  {
  }

  // ---- Single submissions ----

  // The uuid that goes with a number is new.
  ghost predicate NewId(v: Service, number: int, events: seq<Event>) {
    forall e | e in events :: e.commitment.eventId != v.draws(number).0
  }

  // A submission with nobody else under way, and then some others.
  ghost function ReportThen(v: Service, s: Store, request: SubmitReport,
      rivals: seq<Commitment>): (Result<Appended, AppendError>, Store) {
    var (result, s') := AppendReport(v, s, request);
    (result, CommitRivals(v.crypto, s', rivals))
  }

  // A raced submission is serial. It answers and leaves the table as if it had come before all
  // rivals, between the early and the late ones, or after all of them; the number that it drew
  // stays drawn.
  lemma RacedReportIsSerial(v: Service, s: Store, request: SubmitReport, early: seq<Commitment>,
      late: seq<Commitment>)
    requires NumbersBelow(s)
    requires var before := CommitRivals(v.crypto, s, early);
      NewId(v, before.nextSequence, CommitRivals(v.crypto, Store(before.events, before.nextSequence + 1), late).events)
    ensures var before := CommitRivals(v.crypto, s, early);
      var raced := CommitRivals(v.crypto, Store(before.events, before.nextSequence + 1), late);
      AppendReportRaced(v, s, request, early, late) ==
        if Prepare(v, request).None? || ByKey(s.events, request.businessKey).Some? then AppendReport(v, s, request)
        else if ByKey(raced.events, request.businessKey).Some? then AppendReport(v, raced, request)
        else ReportThen(v, before, request, late)
  {
    hide ByKey, InsertRow, NewEvent, CommitRivals, NewId, NoClash, NumbersBelow;
    var before := CommitRivals(v.crypto, s, early);
    var drawn := Store(before.events, before.nextSequence + 1);
    var raced := CommitRivals(v.crypto, drawn, late);
    if Prepare(v, request).Some? && ByKey(raced.events, request.businessKey).None? {
      var event := NewEvent(v, before.nextSequence, Prepare(v, request).value);
      RivalsNumbered(v.crypto, s, early);
      RivalsKeepKeys(v.crypto, drawn, late, request.businessKey);
      NewReportFits(v, before.nextSequence, Prepare(v, request).value, raced.events);
      NumberDrawnBelow(before);
      RivalsCommute(v.crypto, drawn, event, late);
    }
  }

  lemma NumberDrawnBelow(s: Store)
    requires NumbersBelow(s)
    ensures NumbersBelow(Store(s.events, s.nextSequence + 1))
  {
  }

  lemma NewReportFits(v: Service, number: int, item: PreparedReport, events: seq<Event>)
    requires NewId(v, number, events) && ByKey(events, item.request.businessKey) == None
    ensures NoClash(events, NewEvent(v, number, item)) && NewEvent(v, number, item).sequence == number
  {
    hide EventLeaf;
    ByKeyIs(events, item.request.businessKey);
  }

  // ---- Batches ----

  ghost predicate FromRivals(e: Event, rivals: seq<seq<Commitment>>) {
    exists k | 0 <= k < |rivals| :: FromRival(e, rivals[k])
  }

  lemma RivalsOfAttempt(c: Crypto, s: Store, rivals: seq<seq<Commitment>>, attempt: nat)
    ensures var raced := CommitRivals(c, s, Rivals(rivals, attempt));
      && (forall e | e in s.events :: e in raced.events)
      && (forall e | e in raced.events :: e in s.events || FromRivals(e, rivals))
  {
    hide CommitRivals;
    RivalsOnlyAdd(c, s, Rivals(rivals, attempt));
    forall e | FromRival(e, Rivals(rivals, attempt)) ensures FromRivals(e, rivals) {
      assert attempt < |rivals| && FromRival(e, rivals[attempt]);
    }
  }

  // The attempt a batch ends with: the tables it began with and the tables when it committed,
  // both the starting tables and rivals' rows only.
  ghost predicate LastAttempt(s: Store, rivals: seq<seq<Commitment>>, base: Store, raced: Store) {
    && (forall e | e in s.events :: e in base.events)
    && (forall e | e in base.events :: e in raced.events)
    && (forall e | e in raced.events :: e in s.events || FromRivals(e, rivals))
  }

  // Every item is answered, in input order, with an event of its key and content, created
  // exactly at the first occurrence of a key that was not committed before the last attempt.
  ghost predicate AnswersAll(base: Store, items: seq<PreparedReport>, results: seq<Appended>) {
    |results| == |items| && forall i | 0 <= i < |items| :: Answers(base, items, results, i)
  }

  // Whatever others commit between and during the attempts: a batch that succeeds answers
  // every item and commits its created rows on top of the rivals' rows, under keys no rival
  // took; one that fails leaves the rivals' rows and none of its own.
  lemma {:induction false} RacesKeepBatchAtomic(v: Service, s: Store, items: seq<PreparedReport>,
      rivals: seq<seq<Commitment>>, attempt: nat)
      returns (base: Store, raced: Store)
    ensures var (done, s') := Attempts(v, s, items, rivals, attempt);
      && LastAttempt(s, rivals, base, raced)
      && (done.Ok? ==>
          && AnswersAll(base, items, done.value)
          && (forall i | 0 <= i < |items| :: done.value[i].0 in s'.events)
          && s' == Store(InsertRows(raced.events, CreatedRows(done.value)), raced.nextSequence)
          && !Collides(done.value, raced.events))
      && (done.Err? ==> s' == raced)
    decreases BATCH_INSERT_ATTEMPTS - attempt
  {
    hide InsertItems, MadeBefore, CommitRivals, CommittedConflict, CreatedRows, InsertRows, Collides, FromRivals,
        Answers;
    base := s;
    raced := CommitRivals(v.crypto, Store(s.events, InsertItems(v, s, items).1.nextSequence), Rivals(rivals, attempt));
    RivalsOfAttempt(v.crypto, Store(s.events, InsertItems(v, s, items).1.nextSequence), rivals, attempt);
    if InsertItems(v, s, items).0.Ok? {
      InsertAnswers(v, s, items, "");
      MadeAll(v, s, items);
      AnswersAreCommitted(v, s, items, raced.events);
    }
    if Collides(MadeBefore(v, s, items), raced.events) && CommittedConflict(raced.events, items).None?
        && attempt + 1 < BATCH_INSERT_ATTEMPTS {
      var s1 := raced;
      base, raced := RacesKeepBatchAtomic(v, s1, items, rivals, attempt + 1);
    }
  }

  // The answers of a batch are committed.
  lemma AnswersAreCommitted(v: Service, base: Store, items: seq<PreparedReport>, raced: seq<Event>)
    requires InsertItems(v, base, items).0.Ok? && forall e | e in base.events :: e in raced
    ensures forall i | 0 <= i < |InsertItems(v, base, items).0.value| ::
      InsertItems(v, base, items).0.value[i].0 in InsertRows(raced, CreatedRows(InsertItems(v, base, items).0.value))
  {
    var results := InsertItems(v, base, items).0.value;
    forall i | 0 <= i < |results| ensures results[i].0 in InsertRows(raced, CreatedRows(results)) {
      AnsweredOrCreated(v, base, items, i);
      RowsInserted(raced, CreatedRows(results));
    }
  }

  lemma {:induction false} RowsInserted(events: seq<Event>, rows: seq<Event>)
    ensures forall e :: e in InsertRows(events, rows) <==> e in events || e in rows
  {
    hide InsertRow;
    if rows == [] {
    } else {
      var n := |rows| - 1;
      RowsInserted(events, rows[..n]);
      InsertedMembers(InsertRows(events, rows[..n]), rows[n]);
      assert rows == rows[..n] + [rows[n]];
    }
  }

  lemma AnsweredOrCreated(v: Service, base: Store, items: seq<PreparedReport>, i: nat)
    requires InsertItems(v, base, items).0.Ok? && i < |InsertItems(v, base, items).0.value|
    ensures var results := InsertItems(v, base, items).0.value;
      results[i].0 in base.events || results[i].0 in CreatedRows(results)
  {
    hide InsertItems, CreatedRows, InsertRows, MadeBefore;
    ResultsCommitted(v, base, items);
    MadeAll(v, base, items);
    MadeRows(v, base, items);
    RowsInserted(base.events, CreatedRows(MadeBefore(v, base, items)));
  }

  lemma {:induction false} ResultsCommitted(v: Service, s: Store, items: seq<PreparedReport>)
    requires InsertItems(v, s, items).0.Ok?
    ensures var (done, s') := InsertItems(v, s, items);
      |done.value| == |items| && forall i | 0 <= i < |items| :: done.value[i].0 in s'.events
  {
    hide InsertRow, ByKey, NewEvent;
    if items == [] {
    } else {
      var n := |items| - 1;
      ResultsCommitted(v, s, items[..n]);
      var (done, s') := InsertItems(v, s, items[..n]);
      ByKeyHasKey(s'.events, items[n].request.businessKey);
      InsertedMembers(s'.events, NewEvent(v, s'.nextSequence, items[n]));
    }
  }

  // ---- When the retries run out ----

  // The keys of a batch that are not committed yet.
  ghost function Missing(events: seq<Event>, items: seq<PreparedReport>): set<string> {
    set i | 0 <= i < |items| && ByKey(events, items[i].request.businessKey).None? :: items[i].request.businessKey
  }

  lemma {:induction false} FewerElements(a: set<string>, b: set<string>)
    requires a <= b
    ensures |a| <= |b| && (a != b ==> |a| < |b|)
    decreases b
  {
    if b == {} {
    } else {
      var x :| x in b;
      if x in a {
        FewerElements(a - {x}, b - {x});
        assert a == (a - {x}) + {x} && b == (b - {x}) + {x};
      } else {
        FewerElements(a, b - {x});
      }
    }
  }

  // A rolled-back attempt has lost at least one of its new keys to a rival.
  lemma CollisionTakesKey(v: Service, s: Store, items: seq<PreparedReport>, rivals: seq<Commitment>)
    requires var raced := CommitRivals(v.crypto, Store(s.events, InsertItems(v, s, items).1.nextSequence), rivals);
      Collides(MadeBefore(v, s, items), raced.events)
    ensures var raced := CommitRivals(v.crypto, Store(s.events, InsertItems(v, s, items).1.nextSequence), rivals);
      |Missing(raced.events, items)| < |Missing(s.events, items)|
  {
    hide InsertItems, MadeBefore, CommitRivals, ByKey;
    var start := Store(s.events, InsertItems(v, s, items).1.nextSequence);
    var raced := CommitRivals(v.crypto, start, rivals);
    var made := MadeBefore(v, s, items);
    MadeAreNew(v, s, items);
    MadeKeys(v, s, items);
    forall key | ByKey(start.events, key).Some? ensures ByKey(raced.events, key).Some? {
      RivalsKeepKeys(v.crypto, start, rivals, key);
    }
    var i :| 0 <= i < |made| && made[i].1 && ByKey(raced.events, made[i].0.commitment.businessKey).Some?;
    var key := items[i].request.businessKey;
    assert key in Missing(s.events, items) && key !in Missing(raced.events, items);
    FewerElements(Missing(raced.events, items), Missing(s.events, items));
  }

  lemma {:induction false} MadeKeys(v: Service, s: Store, items: seq<PreparedReport>)
    ensures var made := MadeBefore(v, s, items);
      |made| <= |items| && forall i | 0 <= i < |made| ::
          made[i].0.commitment.businessKey == items[i].request.businessKey
    ensures var made := MadeBefore(v, s, items);
      InsertItems(v, s, items).0.Ok? ==> |made| == |items|
  {
    hide InsertRow, EventLeaf;
    if items == [] {
    } else {
      var n := |items| - 1;
      MadeKeys(v, s, items[..n]);
      ByKeyHasKey(InsertItems(v, s, items[..n]).1.events, items[n].request.businessKey);
    }
  }

  // The retries run out only when rivals took at least one new key in every attempt, each with
  // the content the batch promised: so never for a batch with fewer new keys than attempts.
  lemma {:induction false} RetriesRunOut(v: Service, s: Store, items: seq<PreparedReport>,
      rivals: seq<seq<Commitment>>, attempt: nat)
    requires attempt < BATCH_INSERT_ATTEMPTS && Attempts(v, s, items, rivals, attempt).0 == Err(IntegrityError)
    ensures var s' := Attempts(v, s, items, rivals, attempt).1;
      && |Missing(s'.events, items)| + (4 - attempt) <= |Missing(s.events, items)|
      && CommittedConflict(s'.events, items) == None
    decreases BATCH_INSERT_ATTEMPTS - attempt
  {
    hide InsertItems, MadeBefore, CommitRivals, Collides, CommittedConflict, Missing;
    CollisionTakesKey(v, s, items, Rivals(rivals, attempt));
    if attempt + 1 < BATCH_INSERT_ATTEMPTS {
      var raced := CommitRivals(v.crypto, Store(s.events, InsertItems(v, s, items).1.nextSequence),
          Rivals(rivals, attempt));
      RetriesRunOut(v, raced, items, rivals, attempt + 1);
    }
  }

  // And rivals can do it: four items with four new keys, one of them committed by a rival with
  // the same content during each attempt.
  ghost predicate Promised(m: Commitment, item: PreparedReport) {
    m.businessKey == item.request.businessKey && m.fingerprint == item.fingerprint && m.previousEventId == None
  }

  // The rivals from number k on have uuids of their own.
  ghost predicate OwnIds(events: seq<Event>, rivals: seq<seq<Commitment>>, k: nat)
    requires forall i | 0 <= i < |rivals| :: |rivals[i]| == 1
  {
    && (forall i, e | k <= i < |rivals| && e in events :: e.commitment.eventId != rivals[i][0].eventId)
    && (forall i, j | 0 <= i < j < |rivals| :: rivals[i][0].eventId != rivals[j][0].eventId)
  }

  ghost predicate TakenUpto(events: seq<Event>, items: seq<PreparedReport>, k: nat) {
    forall i | 0 <= i < |items| ::
      match ByKey(events, items[i].request.businessKey)
      case Some(e) => i < k && e.commitment.fingerprint == items[i].fingerprint
      case None => i >= k
  }

  lemma {:induction false} FourRacesExhaust(v: Service, s: Store, items: seq<PreparedReport>,
      rivals: seq<seq<Commitment>>, attempt: nat)
    requires attempt < 4 == |items| == |rivals| && TakenUpto(s.events, items, attempt)
    requires forall i, j | 0 <= i < j < |items| :: items[i].request.businessKey != items[j].request.businessKey
    requires forall k | 0 <= k < |rivals| :: |rivals[k]| == 1 && Promised(rivals[k][0], items[k])
    requires OwnIds(s.events, rivals, attempt)
    ensures Attempts(v, s, items, rivals, attempt).0 == Err(IntegrityError)
    decreases BATCH_INSERT_ATTEMPTS - attempt
  {
    hide InsertItems, MadeBefore, CommitRivals, CommittedConflict, ByKey, FirstIndex, Fits, OwnIds;
    var start := Store(s.events, InsertItems(v, s, items).1.nextSequence);
    var raced := CommitRivals(v.crypto, start, rivals[attempt]);
    DistinctFit(s.events, items, attempt);
    InsertStops(v, s, items);
    InsertAnswers(v, s, items, "");
    MadeAll(v, s, items);
    var results := InsertItems(v, s, items).0.value;
    assert Answers(s, items, results, attempt);
    OneRivalTakes(v.crypto, start, items, rivals, attempt);
    NoFirst(items, attempt);
    CommittedConflictIs(raced.events, items);
    NothingConflicts(raced.events, items, attempt + 1);
    assert results[attempt].1;
    if attempt + 1 < BATCH_INSERT_ATTEMPTS {
      FourRacesExhaust(v, raced, items, rivals, attempt + 1);
    }
  }

  lemma NoFirst(items: seq<PreparedReport>, n: nat)
    requires n < |items| && forall i, j | 0 <= i < j < |items| ::
        items[i].request.businessKey != items[j].request.businessKey
    ensures FirstIndex(items[..n], items[n].request.businessKey) == None
  {
    FirstIndexIs(items[..n], items[n].request.businessKey);
  }

  lemma DistinctFit(events: seq<Event>, items: seq<PreparedReport>, k: nat)
    requires TakenUpto(events, items, k)
    requires forall i, j | 0 <= i < j < |items| :: items[i].request.businessKey != items[j].request.businessKey
    ensures forall j | 0 <= j < |items| :: Fits(events, items, j)
  {
    hide ByKey, FirstIndex;
    forall j | 0 <= j < |items| ensures Fits(events, items, j) {
      NoFirst(items, j);
    }
  }

  lemma NothingConflicts(events: seq<Event>, items: seq<PreparedReport>, k: nat)
    requires TakenUpto(events, items, k)
    ensures forall j | 0 <= j < |items| :: !ClashesWithCommitted(events, items, j)
  {
    hide ByKey;
  }

  lemma OneRivalTakes(c: Crypto, s: Store, items: seq<PreparedReport>, rivals: seq<seq<Commitment>>, k: nat)
    requires k < |items| == |rivals| && TakenUpto(s.events, items, k)
    requires forall i | 0 <= i < |rivals| :: |rivals[i]| == 1 && Promised(rivals[i][0], items[i])
    requires OwnIds(s.events, rivals, k)
    requires forall i, j | 0 <= i < j < |items| :: items[i].request.businessKey != items[j].request.businessKey
    ensures var raced := CommitRivals(c, s, rivals[k]);
      TakenUpto(raced.events, items, k + 1) && OwnIds(raced.events, rivals, k + 1)
  {
    hide ByKey, InsertRow, EventLeaf;
    var m := rivals[k][0];
    var row := Event(s.nextSequence, m, EventLeaf(c, m));
    assert rivals[k][..0] == [] && CommitRivals(c, s, []) == s;
    ByKeyIs(s.events, m.businessKey);
    assert NoClash(s.events, row);
    InsertedKey(s.events, row);
    InsertedMembers(s.events, row);
    assert CommitRivals(c, s, rivals[k]).events == InsertRow(s.events, row);
  }
}
