/** A batch does what its reports would do one by one, and names the item it fails at. */
module BatchProofs {
  import opened Wrappers
  import opened Hashing
  import opened Domain
  import opened Reports

  lemma {:induction false} FirstIndexIs(items: seq<PreparedReport>, key: string)
    ensures match FirstIndex(items, key)
      case Some(i) => i < |items| && items[i].request.businessKey == key
      case None => true
  {
    if items == [] {
    } else {
      FirstIndexIs(items[..|items| - 1], key);
    }
  }

  // It is the first place of the key, and there is none exactly when the key does not occur.
  lemma {:induction false} FirstIndexIsFirst(items: seq<PreparedReport>, key: string)
    ensures match FirstIndex(items, key)
      case Some(i) =>
        && i < |items| && items[i].request.businessKey == key
        && forall j | 0 <= j < i :: items[j].request.businessKey != key
      case None => forall j | 0 <= j < |items| :: items[j].request.businessKey != key
  {
    if items == [] {
    } else {
      var n := |items| - 1;
      FirstIndexIsFirst(items[..n], key);
      assert forall j | 0 <= j < n :: items[..n][j] == items[j];
    }
  }

  // What a key leads to after the items were inserted: what was committed before, else the
  // event of its first occurrence.
  ghost predicate KeyLeadsTo(s: Store, s': Store, items: seq<PreparedReport>, results: seq<Appended>, key: string) {
    ByKey(s'.events, key) ==
      match ByKey(s.events, key)
      case Some(e) => Some(e)
      case None =>
        match FirstIndex(items, key)
        case Some(i) => if i < |results| then Some(results[i].0) else None
        case None => None
  }

  ghost predicate Answers(s: Store, items: seq<PreparedReport>, results: seq<Appended>, i: nat)
    requires i < |items| && i < |results|
  {
    var m := results[i].0.commitment;
    && m.businessKey == items[i].request.businessKey && m.fingerprint == items[i].fingerprint
    && (results[i].1 <==> ByKey(s.events, m.businessKey) == None && FirstIndex(items[..i], m.businessKey) == None)
  }

  lemma {:induction false} ByKeyHasKey(events: seq<Event>, key: string)
    ensures ByKey(events, key).Some? ==>
        ByKey(events, key).value.commitment.businessKey == key && ByKey(events, key).value in events
  {
    if events != [] && events[|events| - 1].commitment.businessKey != key {
      ByKeyHasKey(events[..|events| - 1], key);
    }
  }

  lemma InsertStep(v: Service, s: Store, items: seq<PreparedReport>)
    requires items != [] && InsertItems(v, s, items).0.Ok?
    ensures var n := |items| - 1;
      var (done, s') := InsertItems(v, s, items[..n]);
      && done.Ok? && AppendOne(v, s', items[n]).0.Some?
      && InsertItems(v, s, items)
           == (Ok(done.value + [AppendOne(v, s', items[n]).0.value]), AppendOne(v, s', items[n]).1)
  {
    hide AppendOne;
  }

  lemma AnswerStays(s: Store, items: seq<PreparedReport>, results: seq<Appended>, last: Appended, i: nat)
    requires |results| == |items| - 1 && i < |results| && Answers(s, items[..|items| - 1], results, i)
    ensures Answers(s, items, results + [last], i)
  {
    hide ByKey, FirstIndex;
    assert items[..|items| - 1][..i] == items[..i];
  }

  lemma LastAnswers(v: Service, s: Store, s': Store, items: seq<PreparedReport>, results: seq<Appended>)
    requires items != [] && |results| == |items| - 1 && AppendOne(v, s', items[|items| - 1]).0.Some?
    requires KeyLeadsTo(s, s', items[..|items| - 1], results, items[|items| - 1].request.businessKey)
    ensures Answers(s, items, results + [AppendOne(v, s', items[|items| - 1]).0.value], |items| - 1)
  {
    hide ByKey, FirstIndex, InsertRow;
    var item := items[|items| - 1];
    ByKeyHasKey(s'.events, item.request.businessKey);
    FirstIndexIs(items[..|items| - 1], item.request.businessKey);
  }

  lemma LeadsAfterOne(v: Service, s: Store, s': Store, items: seq<PreparedReport>, results: seq<Appended>, key: string)
    requires items != [] && |results| == |items| - 1 && AppendOne(v, s', items[|items| - 1]).0.Some?
    requires KeyLeadsTo(s, s', items[..|items| - 1], results, key)
    ensures var (appended, s'') := AppendOne(v, s', items[|items| - 1]);
      KeyLeadsTo(s, s'', items, results + [appended.value], key)
  {
    hide ByKey, InsertRow;
    var item := items[|items| - 1];
    FirstIndexIs(items[..|items| - 1], key);
    if ByKey(s'.events, item.request.businessKey) == None {
      InsertedKey(s'.events, NewEvent(v, s'.nextSequence, item));
    }
  }

  // Successful insertion answers every item, in input order, with an event of its key and
  // content, created exactly at the first occurrence of a key not committed before.
  lemma {:induction false} InsertAnswers(v: Service, s: Store, items: seq<PreparedReport>, key: string)
    requires InsertItems(v, s, items).0.Ok?
    ensures var (done, s') := InsertItems(v, s, items);
      && |done.value| == |items|
      && (forall i | 0 <= i < |items| :: Answers(s, items, done.value, i))
      && KeyLeadsTo(s, s', items, done.value, key)
  {
    if items == [] {
      NothingLeads(v, s, key);
    } else {
      hide InsertItems, AppendOne, Answers, KeyLeadsTo;
      var n := |items| - 1;
      InsertStep(v, s, items);
      InsertAnswers(v, s, items[..n], items[n].request.businessKey);
      InsertAnswers(v, s, items[..n], key);
      var (done, s') := InsertItems(v, s, items[..n]);
      var all := InsertItems(v, s, items).0.value;
      LastAnswers(v, s, s', items, done.value);
      LeadsAfterOne(v, s, s', items, done.value, key);
      forall i | 0 <= i < |items| ensures Answers(s, items, all, i) {
        if i < n {
          AnswerStays(s, items, done.value, all[n], i);
        }
      }
    }
  }

  lemma NothingLeads(v: Service, s: Store, key: string)
    ensures InsertItems(v, s, []) == (Ok([]), s) && KeyLeadsTo(s, s, [], [], key)
  {
  }

  // Insertion that does not stop has answered everything.
  lemma {:induction false} MadeAll(v: Service, s: Store, items: seq<PreparedReport>)
    requires InsertItems(v, s, items).0.Ok?
    ensures MadeBefore(v, s, items) == InsertItems(v, s, items).0.value
  {
    hide AppendOne;
    if items == [] {
    } else {
      MadeAll(v, s, items[..|items| - 1]);
    }
  }

  // The rows it created are exactly the rows it inserted.
  lemma {:induction false} MadeRows(v: Service, s: Store, items: seq<PreparedReport>)
    ensures InsertItems(v, s, items).1.events == InsertRows(s.events, CreatedRows(MadeBefore(v, s, items)))
  {
    hide ByKey, NewEvent, InsertRow;
    if items == [] {
    } else {
      var n := |items| - 1;
      MadeRows(v, s, items[..n]);
      var made := MadeBefore(v, s, items[..n]);
      var (done, s') := InsertItems(v, s, items[..n]);
      if done.Ok? && AppendOne(v, s', items[n]).0.Some? {
        CreatedRowsOfMore(made, AppendOne(v, s', items[n]).0.value);
        InsertRowsOfMore(s.events, CreatedRows(made), NewEvent(v, s'.nextSequence, items[n]));
      }
    }
  }

  lemma CreatedRowsOfMore(made: seq<Appended>, last: Appended)
    ensures CreatedRows(made + [last]) == CreatedRows(made) + if last.1 then [last.0] else []
  {
    assert (made + [last])[..|made|] == made;
  }

  lemma InsertRowsOfMore(events: seq<Event>, rows: seq<Event>, row: Event)
    ensures InsertRows(events, rows + [row]) == InsertRow(InsertRows(events, rows), row)
    ensures InsertRows(events, rows + []) == InsertRows(events, rows)
  {
    assert (rows + [row])[..|rows|] == rows && rows + [] == rows;
  }

  // They carry keys that were not committed before.
  lemma {:induction false} MadeAreNew(v: Service, s: Store, items: seq<PreparedReport>)
    ensures var made := MadeBefore(v, s, items);
      |made| <= |items| && forall i | 0 <= i < |made| && made[i].1 ::
          ByKey(s.events, made[i].0.commitment.businessKey) == None
  {
    if items == [] {
    } else {
      var n := |items| - 1;
      MadeAreNew(v, s, items[..n]);
      if InsertItems(v, s, items[..n]).0.Ok? {
        InsertAnswers(v, s, items[..n], items[n].request.businessKey);
        LastIsNew(v, s, items);
      }
    }
  }

  lemma LastIsNew(v: Service, s: Store, items: seq<PreparedReport>)
    requires items != [] && InsertItems(v, s, items[..|items| - 1]).0.Ok?
    requires var (done, s') := InsertItems(v, s, items[..|items| - 1]);
      KeyLeadsTo(s, s', items[..|items| - 1], done.value, items[|items| - 1].request.businessKey)
    ensures var s' := InsertItems(v, s, items[..|items| - 1]).1;
      var appended := AppendOne(v, s', items[|items| - 1]).0;
      appended.Some? && appended.value.1 ==> ByKey(s.events, appended.value.0.commitment.businessKey) == None
  {
    hide InsertItems, FirstIndex;
  }

  // ---- Where items stop fitting ----

  ghost predicate ClashesInBatch(items: seq<PreparedReport>, j: nat)
    requires j < |items|
  {
    var first := FirstIndex(items[..j], items[j].request.businessKey);
    first.Some? && first.value < j && items[first.value].fingerprint != items[j].fingerprint
  }

  ghost predicate ClashesWithCommitted(events: seq<Event>, items: seq<PreparedReport>, j: nat)
    requires j < |items|
  {
    var row := ByKey(events, items[j].request.businessKey);
    row.Some? && row.value.commitment.fingerprint != items[j].fingerprint
  }

  ghost predicate Fits(events: seq<Event>, items: seq<PreparedReport>, j: nat)
    requires j < |items|
  {
    if ByKey(events, items[j].request.businessKey).Some? then !ClashesWithCommitted(events, items, j)
        else !ClashesInBatch(items, j)
  }

  // Insertion stops at the first item that does not fit.
  lemma {:induction false} InsertStops(v: Service, s: Store, items: seq<PreparedReport>)
    ensures match InsertItems(v, s, items).0
      case Ok(_) => forall j | 0 <= j < |items| :: Fits(s.events, items, j)
      case Err(m) => m < |items| && !Fits(s.events, items, m) && forall j | 0 <= j < m :: Fits(s.events, items, j)
  {
    if items == [] {
    } else {
      var n := |items| - 1;
      var (done, s') := InsertItems(v, s, items[..n]);
      InsertStops(v, s, items[..n]);
      forall j | 0 <= j < n ensures Fits(s.events, items, j) == Fits(s.events, items[..n], j) {
        assert items[..n][..j] == items[..j];
        FirstIndexIs(items[..j], items[j].request.businessKey);
      }
      if done.Ok? {
        var key := items[n].request.businessKey;
        InsertAnswers(v, s, items[..n], key);
        FirstIndexIs(items[..n], key);
        var first := FirstIndex(items[..n], key);
        if first.Some? {
          assert Answers(s, items[..n], done.value, first.value);
        }
      }
    }
  }

  lemma {:induction false} BatchConflictIs(items: seq<PreparedReport>)
    ensures match BatchConflict(items)
      case Some((j, i)) => j < |items| && ClashesInBatch(items, j) && forall k | 0 <= k < j :: !ClashesInBatch(items, k)
      case None => forall k | 0 <= k < |items| :: !ClashesInBatch(items, k)
  {
    if items == [] {
    } else {
      var n := |items| - 1;
      BatchConflictIs(items[..n]);
      forall j | 0 <= j < n ensures ClashesInBatch(items, j) == ClashesInBatch(items[..n], j) {
        assert items[..n][..j] == items[..j];
        FirstIndexIs(items[..j], items[j].request.businessKey);
      }
      FirstIndexIs(items[..n], items[n].request.businessKey);
    }
  }

  // It names the first place of the key that clashes.
  lemma {:induction false} BatchConflictNames(items: seq<PreparedReport>)
    requires BatchConflict(items).Some?
    ensures var (j, i) := BatchConflict(items).value;
      && i < j < |items| && FirstIndex(items[..j], items[j].request.businessKey) == Some(i)
      && items[i].fingerprint != items[j].fingerprint
  {
    hide FirstIndex;
    var n := |items| - 1;
    if BatchConflict(items[..n]).Some? {
      BatchConflictNames(items[..n]);
      var (j, i) := BatchConflict(items[..n]).value;
      assert items[..n][..j] == items[..j];
    }
  }

  lemma {:induction false} CommittedConflictIs(events: seq<Event>, items: seq<PreparedReport>)
    ensures match CommittedConflict(events, items)
      case Some(j) => j < |items| && ClashesWithCommitted(events, items, j) && forall k | 0 <= k < j ::
          !ClashesWithCommitted(events, items, k)
      case None => forall k | 0 <= k < |items| :: !ClashesWithCommitted(events, items, k)
  {
    if items == [] {
    } else {
      var n := |items| - 1;
      CommittedConflictIs(events, items[..n]);
      assert forall j | 0 <= j < n ::
          ClashesWithCommitted(events, items, j) == ClashesWithCommitted(events, items[..n], j);
    }
  }

  // All items fit exactly when no key clashes in the batch or with a committed event.
  lemma FitsIsNoClash(events: seq<Event>, items: seq<PreparedReport>, n: nat)
    requires n <= |items|
    ensures (forall j | 0 <= j < n :: Fits(events, items, j))
       <==> (forall j | 0 <= j < n :: !ClashesInBatch(items, j) && !ClashesWithCommitted(events, items, j))
  {
    if forall j | 0 <= j < n :: Fits(events, items, j) {
      forall j | 0 <= j < n ensures !ClashesInBatch(items, j) && !ClashesWithCommitted(events, items, j) {
        assert Fits(events, items, j);
        FirstIndexIs(items[..j], items[j].request.businessKey);
        var first := FirstIndex(items[..j], items[j].request.businessKey);
        assert first.Some? ==> Fits(events, items, first.value);
      }
    }
  }

  // ---- Preparation ----

  lemma {:induction false} PrepareAllIs(v: Service, requests: seq<SubmitReport>)
    ensures match PrepareAll(v, requests)
      case Ok(items) => |items| == |requests| && forall i | 0 <= i < |items| ::
          Prepare(v, requests[i]) == Some(items[i])
      case Err(n) => n < |requests| && Prepare(v, requests[n]) == None && PrepareAll(v, requests[..n]).Ok?
  {
    if requests == [] {
    } else {
      var n := |requests| - 1;
      PrepareAllIs(v, requests[..n]);
      if PrepareAll(v, requests[..n]).Err? {
        var m := PrepareAll(v, requests[..n]).error;
        assert requests[..n][..m] == requests[..m];
      }
    }
  }

  // Valid reports submitted singly do exactly what the insertion of the prepared items does.
  lemma {:induction false} SinglyIsInsertion(v: Service, s: Store, requests: seq<SubmitReport>)
    requires PrepareAll(v, requests).Ok?
    ensures AppendSingly(v, s, requests) == InsertItems(v, s, PrepareAll(v, requests).value)
  {
    hide Prepare, AppendOne;
    if requests == [] {
    } else {
      var n := |requests| - 1;
      SinglyIsInsertion(v, s, requests[..n]);
      LastPrepared(v, requests);
      ReportIsItem(v, AppendSingly(v, s, requests[..n]).1, requests[n]);
    }
  }

  lemma LastPrepared(v: Service, requests: seq<SubmitReport>)
    requires requests != [] && PrepareAll(v, requests).Ok?
    ensures var n, items := |requests| - 1, PrepareAll(v, requests).value;
      && |items| == n + 1 && PrepareAll(v, requests[..n]) == Ok(items[..n]) && Prepare(v, requests[n]) == Some(items[n])
  {
    PrepareAllIs(v, requests);
    PrepareAllIs(v, requests[..|requests| - 1]);
    hide Prepare;
    assert PrepareAll(v, requests).value[..|requests| - 1] == PrepareAll(v, requests[..|requests| - 1]).value;
  }

  lemma ReportIsItem(v: Service, s: Store, request: SubmitReport)
    requires Prepare(v, request).Some?
    ensures var ((result, s'), (appended, s'')) :=
        (AppendReport(v, s, request), AppendOne(v, s, Prepare(v, request).value));
      s' == s'' && result == if appended.Some? then Ok(appended.value) else Err(IdempotencyConflict)
  {
    hide AppendOne;
  }

  // Single submission stops at its first failure, whatever follows.
  lemma {:induction false} SinglyStops(v: Service, s: Store, requests: seq<SubmitReport>, n: nat)
    requires n <= |requests| && AppendSingly(v, s, requests[..n]).0.Err?
    ensures AppendSingly(v, s, requests).0 == AppendSingly(v, s, requests[..n]).0
  {
    if n < |requests| {
      assert requests[..|requests| - 1][..n] == requests[..n];
      SinglyStops(v, s, requests[..|requests| - 1], n);
    } else {
      assert requests[..n] == requests;
    }
  }

  // Where single submission stops when report n is the first invalid one.
  lemma SinglyAtInvalid(v: Service, s: Store, requests: seq<SubmitReport>)
    requires PrepareAll(v, requests).Err?
    ensures var n := PrepareAll(v, requests).error;
      && n < |requests| && PrepareAll(v, requests[..n]).Ok?
      && AppendSingly(v, s, requests).0
           == match InsertItems(v, s, PrepareAll(v, requests[..n]).value).0 case Err(m) => Err(m) case Ok(_) => Err(n)
  {
    var n := PrepareAll(v, requests).error;
    PrepareAllIs(v, requests);
    SinglyIsInsertion(v, s, requests[..n]);
    assert requests[..n + 1][..n] == requests[..n];
    SinglyStops(v, s, requests, n + 1);
  }

  // ---- A batch refines its reports ----

  // Without rivals the first attempt decides.
  lemma AttemptAlone(v: Service, s: Store, items: seq<PreparedReport>)
    ensures var (inserted, s') := InsertItems(v, s, items);
      Attempts(v, s, items, [], 0) ==
        if inserted.Ok? then (Ok(inserted.value), s')
            else (Err(ConflictWithCommitted(inserted.error)), Store(s.events, s'.nextSequence))
  {
    hide InsertItems, MadeBefore, CreatedRows, InsertRows;
    MadeAreNew(v, s, items);
    MadeRows(v, s, items);
    if InsertItems(v, s, items).0.Ok? {
      MadeAll(v, s, items);
    }
    assert !Collides(MadeBefore(v, s, items), s.events);
  }

  // Without concurrent writers a batch succeeds exactly when its reports would succeed one by
  // one, with the same events, results and order; and when it fails no event is written.
  lemma BatchRefinesSingles(v: Service, s: Store, requests: seq<SubmitReport>)
    ensures var batch, singly := AppendBatch(v, s, requests, []), AppendSingly(v, s, requests);
      && (batch.0.Ok? <==> singly.0.Ok?)
      && (batch.0.Ok? ==> batch.0.value == singly.0.value && batch.1 == singly.1)
      && (batch.0.Err? ==> batch.1.events == s.events)
  {
    match PrepareAll(v, requests)
    case Err(_) => SinglyAtInvalid(v, s, requests);
    case Ok(items) =>
      AttemptAlone(v, s, items);
      SinglyIsInsertion(v, s, requests);
      InsertStops(v, s, items);
      BatchConflictIs(items);
      FitsIsNoClash(s.events, items, |items|);
  }

  // No item before the first one that cannot be rendered, or else before the first one that
  // clashes inside the batch, fails one of the later checks.
  ghost predicate NoEarlierFailure(v: Service, events: seq<Event>, requests: seq<SubmitReport>) {
    match PrepareAll(v, requests)
    case Err(n) =>
      && n <= |requests| && PrepareAll(v, requests[..n]).Ok?
      && BatchConflict(PrepareAll(v, requests[..n]).value) == None
      && CommittedConflict(events, PrepareAll(v, requests[..n]).value) == None
    case Ok(items) =>
      match BatchConflict(items)
      case Some((n, _)) => n <= |items| && CommittedConflict(events, items[..n]) == None
      case None => true
  }

  function ErrorIndex(error: BatchError): nat {
    if error.IntegrityError? then 0 else error.index
  }

  // The batch never names an earlier item than single submission would stop at, and names
  // that very item exactly when no earlier item fails one of the later checks.
  lemma BatchErrorIndex(v: Service, s: Store, requests: seq<SubmitReport>)
    requires AppendBatch(v, s, requests, []).0.Err?
    ensures var error, singly := AppendBatch(v, s, requests, []).0.error, AppendSingly(v, s, requests).0;
      && singly.Err? && singly.error <= ErrorIndex(error) < |requests|
      && (singly.error == ErrorIndex(error) <==> NoEarlierFailure(v, s.events, requests))
  {
    hide InsertItems, ByKey, FirstIndex, BatchConflict, CommittedConflict, MadeBefore, CreatedRows, InsertRows,
        CommitRivals, Collides, Prepare, InsertRow, AppendSingly, PrepareAll;
    if PrepareAll(v, requests).Err? {
      var n := PrepareAll(v, requests).error;
      SinglyAtInvalid(v, s, requests);
      var items := PrepareAll(v, requests[..n]).value;
      PrepareAllIs(v, requests[..n]);
      InsertStops(v, s, items);
      BatchConflictIs(items);
      CommittedConflictIs(s.events, items);
      FitsIsNoClash(s.events, items, |items|);
    } else {
      var items := PrepareAll(v, requests).value;
      PrepareAllIs(v, requests);
      AttemptAlone(v, s, items);
      SinglyIsInsertion(v, s, requests);
      InsertStops(v, s, items);
      BatchConflictIs(items);
      if BatchConflict(items).Some? {
        BatchConflictFirst(s.events, items);
        PreparedPrefix(v, requests, BatchConflict(items).value.0);
      }
      FitsIsNoClash(s.events, items, |items|);
    }
  }

  lemma {:induction false} PreparedPrefix(v: Service, requests: seq<SubmitReport>, n: nat)
    requires PrepareAll(v, requests).Ok? && n <= |requests|
    ensures PrepareAll(v, requests[..n]).Ok?
    ensures |PrepareAll(v, requests).value| == |requests|
        && PrepareAll(v, requests[..n]).value == PrepareAll(v, requests).value[..n]
  {
    PrepareAllIs(v, requests);
    if n < |requests| {
      var m := |requests| - 1;
      PreparedPrefix(v, requests[..m], n);
      assert requests[..m][..n] == requests[..n];
      assert PrepareAll(v, requests).value == PrepareAll(v, requests[..m]).value + [PrepareAll(v, requests).value[m]];
    } else {
      assert requests[..n] == requests;
    }
  }

  lemma BatchConflictFirst(events: seq<Event>, items: seq<PreparedReport>)
    requires BatchConflict(items).Some?
    ensures var n := BatchConflict(items).value.0;
      && n < |items|
      && !(forall j | 0 <= j <= n :: Fits(events, items, j))
      && ((forall j | 0 <= j < n :: Fits(events, items, j)) <==> CommittedConflict(events, items[..n]) == None)
  {
    BatchConflictIs(items);
    var n := BatchConflict(items).value.0;
    CommittedConflictIs(events, items[..n]);
    assert forall j | 0 <= j < n ::
        ClashesWithCommitted(events, items[..n], j) == ClashesWithCommitted(events, items, j);
    FitsIsNoClash(events, items, n);
    FitsIsNoClash(events, items, n + 1);
  }

  // Canonical JSON that renders every report but "NaN", and fingerprints a report by its digest.
  function SmallCanonical(): Canonical {
    Canonical(report => if report == "NaN" then None
        else Some(Bytes(if report == "0" then [0] else [1])), (k, i, o, digest) => digest,
        (k, p, o, successor) => Bytes([]))
  }

  // The documentation promises the first failing position. After one report was submitted under
  // key "k", a batch whose position 0 reuses that key with other content and whose position 1
  // cannot be rendered names position 1.
  lemma FirstFailureNotNamed(crypto: Crypto, draws: Draws)
    ensures var v := Service(crypto, SmallCanonical(), draws);
      var s := AppendReport(v, Store([], 1), SubmitReport("k", "i", "o", "0")).1;
      var requests := [SubmitReport("k", "i", "o", "1"), SubmitReport("l", "i", "o", "NaN")];
      && AppendReport(v, Store([], 1), SubmitReport("k", "i", "o", "0")).0.Ok?
      && AppendBatch(v, s, requests, []).0 == Err(ItemInvalid(1)) && AppendSingly(v, s, requests).0 == Err(0)
  {
    var v := Service(crypto, SmallCanonical(), draws);
    var first := SubmitReport("k", "i", "o", "0");
    var s := AppendReport(v, Store([], 1), first).1;
    var requests := [SubmitReport("k", "i", "o", "1"), SubmitReport("l", "i", "o", "NaN")];
    assert requests[..1] == [requests[0]] && requests[..1][..0] == [];
    assert PrepareAll(v, []) == Ok([]) && PrepareAll(v, requests[..1]).Ok?;
    assert s.events == [NewEvent(v, 1, Prepare(v, first).value)];
    assert ByKey(s.events, "k") == Some(s.events[0]);
    assert AppendSingly(v, s, []) == (Ok([]), s);
    assert AppendReport(v, s, requests[0]).0 == Err(IdempotencyConflict);
    assert AppendSingly(v, s, requests[..1]).0 == Err(0);
  }

  lemma {:induction false} InsertedMembers(events: seq<Event>, row: Event)
    ensures forall e :: e in InsertRow(events, row) <==> e in events || e == row
  {
    if events == [] {
    } else {
      var n := |events| - 1;
      assert events == events[..n] + [events[n]];
      if events[n].sequence >= row.sequence {
        InsertedMembers(events[..n], row);
      }
    }
  }
}
