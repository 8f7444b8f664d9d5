/** Submitting reports one at a time and in batches, and their revisions and revocations
    (src/ledger/service.py:142-441). */
module Reports {
  import opened Wrappers
  import opened Hashing
  import opened Domain
  import opened Protocol
  import opened LedgerDatabase

  datatype SubmitReport = SubmitReport(businessKey: string, instrumentId: string, operatorId: string, report: string)
  datatype PreparedReport = PreparedReport(request: SubmitReport, reportDigest: Bytes, fingerprint: Bytes)

  // Canonical JSON: the digest of a report, None when it cannot be rendered, and the
  // fingerprints of a report's fields and of a revision's or revocation's.
  datatype Canonical = Canonical(
    digest: string -> Option<Bytes>, fingerprint: (string, string, string, Bytes) -> Bytes,
    successorFingerprint: (string, Uuid, string, Successor) -> Bytes)

  // The uuid and the clock reading that go with each drawn sequence number.
  type Draws = int -> (Uuid, Time)

  datatype Service = Service(crypto: Crypto, canonical: Canonical, draws: Draws)

  // The committed events and the next sequence number.
  datatype Store = Store(events: seq<Event>, nextSequence: int)

  type Appended = (Event, bool)

  datatype BatchError =
    | ItemInvalid(index: nat)
    | ConflictInBatch(index: nat, firstIndex: nat)
    | ConflictWithCommitted(index: nat)
    | IntegrityError

  function Prepare(v: Service, request: SubmitReport): Option<PreparedReport> {
    match v.canonical.digest(request.report)
    case None => None
    case Some(digest) => Some(PreparedReport(request, digest,
        v.canonical.fingerprint(request.businessKey, request.instrumentId, request.operatorId, digest)))
  }

  function ByKey(events: seq<Event>, businessKey: string): Option<Event> {
    if events == [] then None
    else if events[|events| - 1].commitment.businessKey == businessKey then Some(events[|events| - 1])
    else ByKey(events[..|events| - 1], businessKey)
  }

  function NewEvent(v: Service, number: int, item: PreparedReport): Event {
    var r, (id, now) := item.request, v.draws(number);
    var commitment := ReportCommitment(id, r.businessKey, item.fingerprint, r.instrumentId, r.operatorId,
        item.reportDigest, now);
    Event(number, commitment, EventLeaf(v.crypto, commitment))
  }

  // ---- One report ----

  // Replaying a key returns its event when the content is the same; None is the conflict.
  function AppendOne(v: Service, s: Store, item: PreparedReport): (Option<Appended>, Store) {
    match ByKey(s.events, item.request.businessKey)
    case Some(existing) => (if existing.commitment.fingerprint == item.fingerprint then Some((existing, false))
        else None, s)
    case None =>
      var event := NewEvent(v, s.nextSequence, item);
      (Some((event, true)), Store(InsertRow(s.events, event), s.nextSequence + 1))
  }

  datatype AppendError = InvalidReport | IdempotencyConflict

  // A row that breaks none of the three unique constraints.
  predicate NoClash(events: seq<Event>, row: Event) {
    forall e | e in events :: !Clash(e, row)
  }

  // What another transaction leaves that draws a number and commits a row with it; one that
  // would break a unique constraint does not commit.
  function CommitRival(c: Crypto, s: Store, m: Commitment): Store {
    var row := Event(s.nextSequence, m, EventLeaf(c, m));
    Store(if NoClash(s.events, row) then InsertRow(s.events, row) else s.events, s.nextSequence + 1)
  }

  function CommitRivals(c: Crypto, s: Store, rivals: seq<Commitment>): Store {
    if rivals == [] then s
    else CommitRival(c, CommitRivals(c, s, rivals[..|rivals| - 1]), rivals[|rivals| - 1])
  }

  function AppendReport(v: Service, s: Store, request: SubmitReport): (Result<Appended, AppendError>, Store) {
    match Prepare(v, request)
    case None => (Err(InvalidReport), s)
    case Some(item) =>
      var (appended, s') := AppendOne(v, s, item);
      (if appended.Some? then Ok(appended.value) else Err(IdempotencyConflict), s')
  }

  // The same submission when others commit meanwhile, early ones before it draws its number
  // and late ones before its row is stored: a violated unique key is settled from the row
  // found then.
  function AppendReportRaced(v: Service, s: Store, request: SubmitReport, early: seq<Commitment>,
      late: seq<Commitment>): (Result<Appended, AppendError>, Store) {
    match Prepare(v, request)
    case None => (Err(InvalidReport), s)
    case Some(item) =>
      var existing := ByKey(s.events, request.businessKey);
      if existing.Some? then (ReplayOrConflict(existing.value, item.fingerprint), s)
      else
        var before := CommitRivals(v.crypto, s, early);
        var raced := CommitRivals(v.crypto, Store(before.events, before.nextSequence + 1), late);
        var taken := ByKey(raced.events, request.businessKey);
        if taken.Some? then (ReplayOrConflict(taken.value, item.fingerprint), raced)
        else
          var event := NewEvent(v, before.nextSequence, item);
          (Ok((event, true)), Store(InsertRow(raced.events, event), raced.nextSequence))
  }

  function ReplayOrConflict(existing: Event, fingerprint: Bytes): Result<Appended, AppendError> {
    if existing.commitment.fingerprint == fingerprint then Ok((existing, false)) else Err(IdempotencyConflict)
  }

  // Submitting the requests one by one until one fails; an error is the index it fails at.
  function AppendSingly(v: Service, s: Store, requests: seq<SubmitReport>): (Result<seq<Appended>, nat>, Store) {
    if requests == [] then (Ok([]), s)
    else
      var n := |requests| - 1;
      var (done, s') := AppendSingly(v, s, requests[..n]);
      if done.Err? then (done, s')
      else
        match AppendReport(v, s', requests[n])
        case (Ok(appended), s'') => (Ok(done.value + [appended]), s'')
        case (Err(_), s'') => (Err(n), s'')
  }

  // ---- A revision or revocation ----

  datatype SuccessorError = ReportInvalid | KeyReused | ParentNotFound | RecordRevoked
      | AlreadySuperseded(successor: Event) | InstrumentMismatch

  function ChildOf(events: seq<Event>, id: Uuid): Option<Event> {
    if events == [] then None
    else if events[|events| - 1].commitment.previousEventId == Some(id) then Some(events[|events| - 1])
    else ChildOf(events[..|events| - 1], id)
  }

  // Why nothing may follow this event, if so.
  function Refusal(events: seq<Event>, parentId: Uuid, successor: Successor): Option<SuccessorError> {
    match FindEvent(events, parentId)
    case None => Some(ParentNotFound)
    case Some(parent) =>
      var child := ChildOf(events, parentId);
      if parent.commitment.eventType == Revocation then Some(RecordRevoked)
      else if child.Some? then Some(AlreadySuperseded(child.value))
      else if successor.Revise? && successor.instrumentId != parent.commitment.instrumentId
          then Some(InstrumentMismatch)
      else None
  }

  function NewSuccessor(v: Service, number: int, parent: Event, businessKey: string, fingerprint: Bytes,
      operatorId: string, successor: Successor): Event {
    var (id, now) := v.draws(number);
    var commitment := SuccessorCommitment(parent, id, businessKey, fingerprint, operatorId, successor, now);
    Event(number, commitment, EventLeaf(v.crypto, commitment))
  }

  function ReplayOrReuse(existing: Event, fingerprint: Bytes): Result<Appended, SuccessorError> {
    if existing.commitment.fingerprint == fingerprint then Ok((existing, false)) else Err(KeyReused)
  }

  function AppendSuccessor(v: Service, s: Store, parentId: Uuid, businessKey: string, fingerprint: Bytes,
      operatorId: string, successor: Successor)
    : (Result<Appended, SuccessorError>, Store)
  {
    match ByKey(s.events, businessKey)
    case Some(existing) => (ReplayOrReuse(existing, fingerprint), s)
    case None =>
      var refusal := Refusal(s.events, parentId, successor);
      if refusal.Some? then (Err(refusal.value), s)
      else
        var event := NewSuccessor(v, s.nextSequence, FindEvent(s.events, parentId).value, businessKey, fingerprint,
            operatorId, successor);
        (Ok((event, true)), Store(InsertRow(s.events, event), s.nextSequence + 1))
  }

  // A revision carries a report, a revocation a reason.
  datatype SubmitSuccessor = SubmitRevision(instrumentId: string, report: string) | SubmitRevocation(reason: string)

  function SuccessorOf(v: Service, request: SubmitSuccessor): Option<Successor> {
    match request
    case SubmitRevocation(reason) => Some(Revoke(reason))
    case SubmitRevision(instrumentId, report) =>
      match v.canonical.digest(report)
      case None => None
      case Some(digest) => Some(Revise(instrumentId, digest))
  }

  // The whole request with nobody else under way.
  function SubmitSuccessorAlone(v: Service, s: Store, parentId: Uuid, businessKey: string, operatorId: string,
      request: SubmitSuccessor): (Result<Appended, SuccessorError>, Store)
  {
    match SuccessorOf(v, request)
    case None => (Err(ReportInvalid), s)
    case Some(successor) =>
      AppendSuccessor(v, s, parentId, businessKey,
          v.canonical.successorFingerprint(businessKey, parentId, operatorId, successor), operatorId, successor)
  }

  // The same when others commit meanwhile, early ones after its key was looked up and before
  // its parent is, late ones before its row is stored: a violated unique constraint is settled
  // from the row with the key, else from the parent's successor. (Where the parent's row is
  // locked no late rival can follow it; the model lets them.)
  function SubmitSuccessorRaced(v: Service, s: Store, parentId: Uuid, businessKey: string, operatorId: string,
      request: SubmitSuccessor, early: seq<Commitment>, late: seq<Commitment>): (Result<Appended, SuccessorError>,
          Store)
  {
    match SuccessorOf(v, request)
    case None => (Err(ReportInvalid), s)
    case Some(successor) =>
      var fingerprint := v.canonical.successorFingerprint(businessKey, parentId, operatorId, successor);
      var existing := ByKey(s.events, businessKey);
      if existing.Some? then (ReplayOrReuse(existing.value, fingerprint), s)
      else
        var before := CommitRivals(v.crypto, s, early);
        var refusal := Refusal(before.events, parentId, successor);
        if refusal.Some? then (Err(refusal.value), before)
        else
          var event := NewSuccessor(v, before.nextSequence, FindEvent(before.events, parentId).value, businessKey,
              fingerprint, operatorId, successor);
          var raced := CommitRivals(v.crypto, Store(before.events, before.nextSequence + 1), late);
          var taken, child := ByKey(raced.events, businessKey), ChildOf(raced.events, parentId);
          if taken.Some? then (ReplayOrReuse(taken.value, fingerprint), raced)
          else if child.Some? then (Err(AlreadySuperseded(child.value)), raced)
          else (Ok((event, true)), Store(InsertRow(raced.events, event), raced.nextSequence))
  }

  // ---- A batch ----

  // The first occurrence of item i's key in the batch.
  function FirstIndex(items: seq<PreparedReport>, businessKey: string): Option<nat> {
    if items == [] then None
    else
      var n := |items| - 1;
      match FirstIndex(items[..n], businessKey)
      case Some(i) => Some(i)
      case None => if items[n].request.businessKey == businessKey then Some(n) else None
  }

  // The first item whose key came before with other content.
  function BatchConflict(items: seq<PreparedReport>): Option<(nat, nat)> {
    if items == [] then None
    else
      var n := |items| - 1;
      match BatchConflict(items[..n])
      case Some(found) => Some(found)
      case None =>
        match FirstIndex(items[..n], items[n].request.businessKey)
        case Some(i) => if i < n && items[i].fingerprint != items[n].fingerprint then Some((n, i)) else None
        case None => None
  }

  function PrepareAll(v: Service, requests: seq<SubmitReport>): Result<seq<PreparedReport>, nat> {
    if requests == [] then Ok([])
    else
      var n := |requests| - 1;
      var done := PrepareAll(v, requests[..n]);
      if done.Err? then done
      else
        match Prepare(v, requests[n])
        case None => Err(n)
        case Some(item) => Ok(done.value + [item])
  }

  // The items inserted in order within one transaction; an error is the index whose key is
  // committed with other content.
  function InsertItems(v: Service, s: Store, items: seq<PreparedReport>): (Result<seq<Appended>, nat>, Store) {
    if items == [] then (Ok([]), s)
    else
      var n := |items| - 1;
      var (done, s') := InsertItems(v, s, items[..n]);
      if done.Err? then (done, s')
      else
        var (appended, s'') := AppendOne(v, s', items[n]);
        (if appended.Some? then Ok(done.value + [appended.value]) else Err(n), s'')
  }

  function CommittedConflict(events: seq<Event>, items: seq<PreparedReport>): Option<nat> {
    if items == [] then None
    else
      var n := |items| - 1;
      match CommittedConflict(events, items[..n])
      case Some(i) => Some(i)
      case None =>
        match ByKey(events, items[n].request.businessKey)
        case Some(row) => if row.commitment.fingerprint != items[n].fingerprint then Some(n) else None
        case None => None
  }

  // What was answered before insertion stopped.
  function MadeBefore(v: Service, s: Store, items: seq<PreparedReport>): seq<Appended> {
    if items == [] then []
    else
      var n := |items| - 1;
      var made := MadeBefore(v, s, items[..n]);
      var (done, s') := InsertItems(v, s, items[..n]);
      if done.Err? then made
      else
        var appended := AppendOne(v, s', items[n]).0;
        if appended.Some? then made + [appended.value] else made
  }

  function CreatedRows(made: seq<Appended>): seq<Event> {
    if made == [] then []
    else
      var n := |made| - 1;
      CreatedRows(made[..n]) + if made[n].1 then [made[n].0] else []
  }

  // What others commit while this attempt is under way.
  function Rivals(rivals: seq<seq<Commitment>>, attempt: nat): seq<Commitment> {
    if attempt < |rivals| then rivals[attempt] else []
  }

  // A key that this attempt meant to create has been committed by then.
  predicate Collides(made: seq<Appended>, events: seq<Event>) {
    exists i | 0 <= i < |made| :: made[i].1 && ByKey(events, made[i].0.commitment.businessKey).Some?
  }

  const BATCH_INSERT_ATTEMPTS := 4

  // Attempts from number attempt on. A rolled-back attempt leaves only the numbers it drew.
  function Attempts(v: Service, s: Store, items: seq<PreparedReport>, rivals: seq<seq<Commitment>>, attempt: nat)
    : (Result<seq<Appended>, BatchError>, Store)
    decreases BATCH_INSERT_ATTEMPTS - attempt
  {
    var (inserted, s') := InsertItems(v, s, items);
    var raced := CommitRivals(v.crypto, Store(s.events, s'.nextSequence), Rivals(rivals, attempt));
    if !Collides(MadeBefore(v, s, items), raced.events) then
      match inserted
      case Err(index) => (Err(ConflictWithCommitted(index)), raced)
      case Ok(results) => (Ok(results), Store(InsertRows(raced.events, CreatedRows(results)), raced.nextSequence))
    else
      var conflict := CommittedConflict(raced.events, items);
      if conflict.Some? then (Err(ConflictWithCommitted(conflict.value)), raced)
      else if attempt + 1 >= BATCH_INSERT_ATTEMPTS then (Err(IntegrityError), raced)
      else Attempts(v, raced, items, rivals, attempt + 1)
  }

  function AppendBatch(v: Service, s: Store, requests: seq<SubmitReport>,
      rivals: seq<seq<Commitment>>): (Result<seq<Appended>, BatchError>, Store) {
    match PrepareAll(v, requests)
    case Err(index) => (Err(ItemInvalid(index)), s)
    case Ok(items) =>
      match BatchConflict(items)
      case Some((index, firstIndex)) => (Err(ConflictInBatch(index, firstIndex)), s)
      case None => Attempts(v, s, items, rivals, 0)
  }

  // ---- The service as it runs ----

  class EventService {
    const service: Service

    constructor (service: Service)
      ensures this.service == service
    {
      this.service := service;
    }

    // What other transactions commit after the look-up: early before the number is drawn, late
    // before the row is stored.
    method AppendSingle(db: Database, request: SubmitReport, early: seq<Commitment>,
        late: seq<Commitment>) returns (result: Result<Appended, AppendError>)
      modifies db`events, db`nextSequence
      ensures (result, Store(db.events, db.nextSequence))
           == AppendReportRaced(service, Store(old(db.events), old(db.nextSequence)), request, early, late)
    {
      var digest := service.canonical.digest(request.report);
      if digest.None? {
        return Err(InvalidReport);
      }
      var fingerprint := service.canonical.fingerprint(request.businessKey, request.instrumentId, request.operatorId,
          digest.value);
      var existing := ByKey(db.events, request.businessKey);
      if existing.Some? {
        return ReplayOrConflict(existing.value, fingerprint);
      }
      var before := CommitRivals(service.crypto, Store(db.events, db.nextSequence), early);
      db.events, db.nextSequence := before.events, before.nextSequence;
      var event := NewEvent(service, db.nextSequence, PreparedReport(request, digest.value, fingerprint));
      var raced := CommitRivals(service.crypto, Store(db.events, db.nextSequence + 1), late);
      db.events, db.nextSequence := raced.events, raced.nextSequence;
      existing := ByKey(db.events, request.businessKey);
      if existing.Some? {
        return ReplayOrConflict(existing.value, fingerprint);
      }
      db.events := InsertRow(db.events, event);
      return Ok((event, true));
    }

    method AppendRevisionOrRevocation(db: Database, parentId: Uuid, businessKey: string, operatorId: string,
        request: SubmitSuccessor, early: seq<Commitment>,
        late: seq<Commitment>) returns (result: Result<Appended, SuccessorError>)
      modifies db`events, db`nextSequence
      ensures (result, Store(db.events, db.nextSequence))
           == SubmitSuccessorRaced(service, Store(old(db.events), old(db.nextSequence)), parentId, businessKey,
               operatorId, request, early, late)
    {
      var prepared := SuccessorOf(service, request);
      if prepared.None? {
        return Err(ReportInvalid);
      }
      var successor := prepared.value;
      var fingerprint := service.canonical.successorFingerprint(businessKey, parentId, operatorId, successor);
      var existing := ByKey(db.events, businessKey);
      if existing.Some? {
        if existing.value.commitment.fingerprint != fingerprint {
          return Err(KeyReused);
        }
        return Ok((existing.value, false));
      }
      var before := CommitRivals(service.crypto, Store(db.events, db.nextSequence), early);
      db.events, db.nextSequence := before.events, before.nextSequence;
      var parent := FindEvent(db.events, parentId);
      if parent.None? {
        return Err(ParentNotFound);
      }
      if parent.value.commitment.eventType == Revocation {
        return Err(RecordRevoked);
      }
      var child := ChildOf(db.events, parentId);
      if child.Some? {
        return Err(AlreadySuperseded(child.value));
      }
      if successor.Revise? && successor.instrumentId != parent.value.commitment.instrumentId {
        return Err(InstrumentMismatch);
      }
      var event := NewSuccessor(service, db.nextSequence, parent.value, businessKey, fingerprint, operatorId,
          successor);
      var raced := CommitRivals(service.crypto, Store(db.events, db.nextSequence + 1), late);
      db.events, db.nextSequence := raced.events, raced.nextSequence;
      existing := ByKey(db.events, businessKey);
      if existing.Some? {
        if existing.value.commitment.fingerprint != fingerprint {
          return Err(KeyReused);
        }
        return Ok((existing.value, false));
      }
      child := ChildOf(db.events, parentId);
      if child.Some? {
        return Err(AlreadySuperseded(child.value));
      }
      db.events := InsertRow(db.events, event);
      return Ok((event, true));
    }

    // One attempt, on the transaction's own view of the table.
    method InsertReportBatch(start: Store, items: seq<PreparedReport>) returns (stopped: Option<nat>,
        results: seq<Appended>, store: Store)
      ensures (if stopped.Some? then Err(stopped.value) else Ok(results), store) == InsertItems(service, start, items)
      ensures results == MadeBefore(service, start, items)
    {
      var keys := set i | 0 <= i < |items| :: items[i].request.businessKey;
      var resolved: map<string, Event> := map key | key in keys && ByKey(start.events, key).Some? ::
          ByKey(start.events, key).value;
      var appended: map<string, Event> := map[];
      results := [];
      store := start;
      for i := 0 to |items|
        invariant (Ok(results), store) == InsertItems(service, start, items[..i])
        invariant results == MadeBefore(service, start, items[..i])
        invariant forall key | key in keys ::
            ByKey(store.events, key) == if key in resolved then Some(resolved[key]) else None
        invariant appended.Keys <= resolved.Keys
      {
        var item, key := items[i], items[i].request.businessKey;
        assert items[..i + 1][..i] == items[..i] && key in keys;
        assert items[..i + 1][i] == item;
        if key in resolved {
          if resolved[key].commitment.fingerprint != item.fingerprint {
            BatchStopsHere(service, start, items, i);
            return Some(i), results, store;
          }
          results := results + [(resolved[key], false)];
        } else if key !in appended {
          var event := NewEvent(service, store.nextSequence, item);
          InsertedKey(store.events, event);
          store := Store(InsertRow(store.events, event), store.nextSequence + 1);
          appended := appended[key := event];
          resolved := resolved[key := event];
          results := results + [(event, true)];
        } else {
          // A key that this batch appended is always resolved as well.
          assert false;
        }
      }
      assert items[..|items|] == items;
      return None, results, store;
    }

    // Every report is prepared before the transaction; the first that cannot be rendered is named.
    method PrepareBatch(requests: seq<SubmitReport>) returns (result: Result<seq<PreparedReport>, nat>)
      ensures result == PrepareAll(service, requests)
    {
      var prepared: seq<PreparedReport> := [];
      for i := 0 to |requests|
        invariant PrepareAll(service, requests[..i]) == Ok(prepared) && |prepared| == i
      {
        assert requests[..i + 1][..i] == requests[..i] && requests[..i + 1][i] == requests[i];
        var digest := service.canonical.digest(requests[i].report);
        if digest.None? {
          PreparationStopsHere(service, requests, i);
          return Err(i);
        }
        var r := requests[i];
        prepared := prepared + [PreparedReport(r, digest.value,
            service.canonical.fingerprint(r.businessKey, r.instrumentId, r.operatorId, digest.value))];
      }
      assert requests[..|requests|] == requests;
      return Ok(prepared);
    }

    // Collisions inside the batch, found before the transaction opens.
    method FindBatchConflict(prepared: seq<PreparedReport>) returns (conflict: Option<(nat, nat)>)
      ensures conflict == BatchConflict(prepared)
    {
      var firstIndex: map<string, nat> := map[];
      for i := 0 to |prepared|
        invariant BatchConflict(prepared[..i]) == None
        invariant forall key ::
            FirstIndex(prepared[..i], key) == if key in firstIndex then Some(firstIndex[key]) else None
        invariant forall key | key in firstIndex :: firstIndex[key] < i
      {
        assert prepared[..i + 1][..i] == prepared[..i] && prepared[..i + 1][i] == prepared[i];
        var key := prepared[i].request.businessKey;
        if key !in firstIndex {
          firstIndex := firstIndex[key := i];
        } else if prepared[firstIndex[key]].fingerprint != prepared[i].fingerprint {
          ConflictStopsHere(prepared, i);
          return Some((i, firstIndex[key]));
        }
      }
      assert prepared[..|prepared|] == prepared;
      return None;
    }

    // The rivals are what other transactions commit during each attempt.
    method AppendReportBatch(db: Database, requests: seq<SubmitReport>, rivals: seq<seq<Commitment>>)
      returns (result: Result<seq<Appended>, BatchError>)
      modifies db`events, db`nextSequence
      ensures (result, Store(db.events, db.nextSequence))
          == AppendBatch(service, Store(old(db.events), old(db.nextSequence)), requests, rivals)
    {
      hide PrepareAll, BatchConflict, InsertItems, MadeBefore, CommitRivals, CommittedConflict, CreatedRows,
          InsertRows, Collides;
      var prepared := PrepareBatch(requests);
      if prepared.Err? {
        return Err(ItemInvalid(prepared.error));
      }
      var items := prepared.value;
      var found := FindBatchConflict(items);
      if found.Some? {
        return Err(ConflictInBatch(found.value.0, found.value.1));
      }
      ghost var before := Store(db.events, db.nextSequence);
      var attempt := 0;
      while true
        invariant 0 <= attempt < BATCH_INSERT_ATTEMPTS
        invariant Attempts(service, before, items, rivals, 0)
            == Attempts(service, Store(db.events, db.nextSequence), items, rivals, attempt)
        decreases BATCH_INSERT_ATTEMPTS - attempt
      {
        var stopped, results, store := InsertReportBatch(Store(db.events, db.nextSequence), items);
        var raced := CommitRivals(service.crypto, Store(db.events, store.nextSequence), Rivals(rivals, attempt));
        db.events, db.nextSequence := raced.events, raced.nextSequence;
        if !Collides(results, db.events) {
          if stopped.Some? {
            return Err(ConflictWithCommitted(stopped.value));
          }
          db.events := InsertRows(db.events, CreatedRows(results));
          return Ok(results);
        }
        var conflict := CommittedConflict(db.events, items);
        if conflict.Some? {
          return Err(ConflictWithCommitted(conflict.value));
        }
        if attempt + 1 >= BATCH_INSERT_ATTEMPTS {
          return Err(IntegrityError);
        }
        attempt := attempt + 1;
      }
    }
  }

  lemma {:induction false} BatchStopsHere(v: Service, s: Store, items: seq<PreparedReport>, i: nat)
    requires i < |items| && InsertItems(v, s, items[..i + 1]).0.Err?
    ensures InsertItems(v, s, items) == InsertItems(v, s, items[..i + 1])
        && MadeBefore(v, s, items) == MadeBefore(v, s, items[..i + 1])
    decreases |items|
  {
    if i + 1 < |items| {
      assert items[..|items| - 1][..i + 1] == items[..i + 1];
      BatchStopsHere(v, s, items[..|items| - 1], i);
    } else {
      assert items[..i + 1] == items;
    }
  }

  lemma {:induction false} PreparationStopsHere(v: Service, requests: seq<SubmitReport>, i: nat)
    requires i < |requests| && PrepareAll(v, requests[..i + 1]).Err?
    ensures PrepareAll(v, requests) == PrepareAll(v, requests[..i + 1])
    decreases |requests|
  {
    if i + 1 < |requests| {
      assert requests[..|requests| - 1][..i + 1] == requests[..i + 1];
      PreparationStopsHere(v, requests[..|requests| - 1], i);
    } else {
      assert requests[..i + 1] == requests;
    }
  }

  lemma {:induction false} ConflictStopsHere(items: seq<PreparedReport>, i: nat)
    requires i < |items| && BatchConflict(items[..i + 1]).Some?
    ensures BatchConflict(items) == BatchConflict(items[..i + 1])
    decreases |items|
  {
    if i + 1 < |items| {
      assert items[..|items| - 1][..i + 1] == items[..i + 1];
      ConflictStopsHere(items[..|items| - 1], i);
    } else {
      assert items[..i + 1] == items;
    }
  }

  // After a new key's row is inserted that key leads to it, and every other key where it did.
  lemma {:induction false} InsertedKey(events: seq<Event>, row: Event)
    requires ByKey(events, row.commitment.businessKey) == None
    ensures forall key ::
        ByKey(InsertRow(events, row), key) == if key == row.commitment.businessKey then Some(row)
        else ByKey(events, key)
  {
    if events != [] {
      var n := |events| - 1;
      if events[n].sequence < row.sequence {
        assert (events + [row])[..n + 1] == events;
      } else {
        var below := InsertRow(events[..n], row);
        InsertedKey(events[..n], row);
        assert (below + [events[n]])[..|below|] == below;
      }
    } else {
      assert [row][..0] == [];
    }
  }
}
