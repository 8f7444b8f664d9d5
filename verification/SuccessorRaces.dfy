/** When a raced revision or revocation answers as if it had been alone, and when it does not
    (src/ledger/service.py:356-441). */
module SuccessorRaces {
  import opened Wrappers
  import opened Hashing
  import opened Domain
  import opened Protocol
  import opened Reports
  import opened BatchProofs
  import opened RaceProofs

  // The call that everything below is about.
  datatype Call = Call(parentId: Uuid, businessKey: string, operatorId: string, request: SubmitSuccessor)

  type Answer = (Result<Appended, SuccessorError>, Store)

  function Alone(v: Service, s: Store, call: Call): Answer {
    SubmitSuccessorAlone(v, s, call.parentId, call.businessKey, call.operatorId, call.request)
  }

  function Raced(v: Service, s: Store, call: Call, early: seq<Commitment>, late: seq<Commitment>): Answer {
    SubmitSuccessorRaced(v, s, call.parentId, call.businessKey, call.operatorId, call.request, early, late)
  }

  // ---- Tables under the unique constraints ----

  ghost predicate UniqueRows(events: seq<Event>) {
    forall e, f | e in events && f in events && Clash(e, f) :: e == f
  }

  lemma {:induction false} RivalsKeepUnique(c: Crypto, s: Store, rivals: seq<Commitment>)
    requires UniqueRows(s.events)
    ensures UniqueRows(CommitRivals(c, s, rivals).events)
  {
    hide InsertRow, EventLeaf;
    if rivals == [] {
    } else {
      var n := |rivals| - 1;
      var s' := CommitRivals(c, s, rivals[..n]);
      RivalsKeepUnique(c, s, rivals[..n]);
      InsertedMembers(s'.events, Event(s'.nextSequence, rivals[n], EventLeaf(c, rivals[n])));
    }
  }

  ghost predicate Within(events: seq<Event>, events': seq<Event>) {
    forall e | e in events :: e in events'
  }

  // In growing tables an event and a successor that are found stay found.
  lemma FoundStays(events: seq<Event>, events': seq<Event>, id: Uuid)
    requires Within(events, events') && UniqueRows(events')
    ensures FindEvent(events, id).Some? ==> FindEvent(events', id) == FindEvent(events, id)
    ensures ChildOf(events, id).Some? ==> ChildOf(events', id) == ChildOf(events, id)
  {
    hide FindEvent, ChildOf;
    FindEventFound(events, id);
    FindEventFound(events', id);
    ChildOfIs(events, id);
    ChildOfIs(events', id);
  }

  // A reason to refuse that is there earlier and later is there in between.
  lemma RefusalBetween(events: seq<Event>, between: seq<Event>, events': seq<Event>, parentId: Uuid,
      successor: Successor)
    requires Within(events, between) && Within(between, events') && UniqueRows(events')
    requires Refusal(events, parentId, successor) == Refusal(events', parentId, successor)
    ensures Refusal(between, parentId, successor) == Refusal(events, parentId, successor)
  {
    hide FindEvent, ChildOf, UniqueRows;
    assert UniqueRows(between) by { WithinUnique(between, events'); }
    FoundStays(events, between, parentId);
    FoundStays(between, events', parentId);
  }

  lemma WithinUnique(events: seq<Event>, events': seq<Event>)
    requires Within(events, events') && UniqueRows(events')
    ensures UniqueRows(events)
  {
  }

  // ---- Serial answers ----

  // The call alone, and then some others.
  ghost function AloneThen(v: Service, s: Store, call: Call, rivals: seq<Commitment>): Answer {
    var (result, s') := Alone(v, s, call);
    (result, CommitRivals(v.crypto, s', rivals))
  }

  // The tables when the call has looked up its key, its parent, and after the late rivals; the
  // number that it drew stays drawn.
  ghost function Before(v: Service, s: Store, early: seq<Commitment>): Store {
    CommitRivals(v.crypto, s, early)
  }

  ghost function Drawn(v: Service, s: Store, early: seq<Commitment>): Store {
    Store(Before(v, s, early).events, Before(v, s, early).nextSequence + 1)
  }

  // An answer that the call gives alone at some moment: among the early rivals, between early
  // and late, or among the late rivals.
  ghost predicate Serial(v: Service, s: Store, call: Call, early: seq<Commitment>, late: seq<Commitment>,
      answer: Answer) {
    || (exists k | 0 <= k <= |early| :: answer == AloneThen(v, Before(v, s, early[..k]), call, early[k..]))
    || answer == AloneThen(v, Before(v, s, early), call, late)
    || (exists k | 0 <= k <= |late| ::
          answer == AloneThen(v, CommitRivals(v.crypto, Drawn(v, s, early), late[..k]), call, late[k..]))
  }

  // How many of the rivals commit before the key is taken.
  ghost function FreeFor(c: Crypto, s: Store, rivals: seq<Commitment>, key: string): (k: nat)
    ensures k <= |rivals|
    ensures ByKey(s.events, key) == None ==> ByKey(CommitRivals(c, s, rivals[..k]).events, key) == None
    ensures k < |rivals| ==> ByKey(CommitRivals(c, s, rivals[..k + 1]).events, key).Some?
  {
    if rivals == [] || ByKey(CommitRivals(c, s, rivals).events, key) == None then
      assert rivals[..|rivals|] == rivals;
      |rivals|
    else
      var n := |rivals| - 1;
      var k := FreeFor(c, s, rivals[..n], key);
      assert rivals[..n][..k] == rivals[..k];
      assert if k < n then rivals[..n][..k + 1] == rivals[..k + 1] else rivals[..k + 1] == rivals;
      k
  }

  // The code looks the key up once, before it looks at the parent. So a call is refused
  // although its key is taken when a rival took the key in between and the parent is refused
  // for a reason that was not there before the key was taken.
  ghost predicate RefusedThoughTaken(v: Service, s: Store, call: Call, early: seq<Commitment>) {
    var (key, successor) := (call.businessKey, SuccessorOf(v, call.request));
    var free := early[..FreeFor(v.crypto, s, early, key)];
    && successor.Some?
    && ByKey(s.events, key) == None && ByKey(Before(v, s, early).events, key).Some?
    && Refusal(Before(v, s, early).events, call.parentId, successor.value).Some?
    && Refusal(Before(v, s, free).events, call.parentId, successor.value)
         != Refusal(Before(v, s, early).events, call.parentId, successor.value)
  }

  // What a call answers alone.
  lemma AloneAnswers(v: Service, s: Store, call: Call)
    requires SuccessorOf(v, call.request).Some?
    ensures var (result, s') := Alone(v, s, call);
      var refusal := Refusal(s.events, call.parentId, SuccessorOf(v, call.request).value);
      && (ByKey(s.events, call.businessKey).Some? ==> s' == s && (result.Ok? || result.error.KeyReused?))
      && (ByKey(s.events, call.businessKey).None? && refusal.Some? ==> result == Err(refusal.value) && s' == s)
      && (ByKey(s.events, call.businessKey).None? && refusal.None? ==> result.Ok?)
      && (refusal.Some? ==> !refusal.value.KeyReused?)
  {
    hide ByKey, FindEvent, ChildOf, InsertRow, NewSuccessor;
  }

  lemma RacedAnswers(v: Service, s: Store, call: Call, early: seq<Commitment>, late: seq<Commitment>)
    requires SuccessorOf(v, call.request).Some? && ByKey(s.events, call.businessKey) == None
    requires Refusal(Before(v, s, early).events, call.parentId, SuccessorOf(v, call.request).value).Some?
    ensures Raced(v, s, call, early, late)
        == (Err(Refusal(Before(v, s, early).events, call.parentId, SuccessorOf(v, call.request).value).value),
            Before(v, s, early))
  {
    hide ByKey, FindEvent, ChildOf, InsertRow, NewSuccessor, CommitRivals, Refusal;
  }

  lemma PrefixesGrow(c: Crypto, s: Store, rivals: seq<Commitment>, j: nat, k: nat)
    requires j <= k <= |rivals|
    ensures CommitRivals(c, s, rivals[..k]) == CommitRivals(c, CommitRivals(c, s, rivals[..j]), rivals[j..k])
    ensures Within(CommitRivals(c, s, rivals[..j]).events, CommitRivals(c, s, rivals[..k]).events)
    ensures forall key | ByKey(CommitRivals(c, s, rivals[..j]).events, key).Some? ::
      ByKey(CommitRivals(c, s, rivals[..k]).events, key).Some?
  {
    hide CommitRivals, ByKey, FromRival;
    assert rivals[..j] + rivals[j..k] == rivals[..k];
    RivalsInTwo(c, s, rivals[..j], rivals[j..k]);
    RivalsOnlyAdd(c, CommitRivals(c, s, rivals[..j]), rivals[j..k]);
    forall key | ByKey(CommitRivals(c, s, rivals[..j]).events, key).Some?
      ensures ByKey(CommitRivals(c, s, rivals[..k]).events, key).Some? {
      RivalsKeepKeys(c, CommitRivals(c, s, rivals[..j]), rivals[j..k], key);
    }
  }

  // Refused before the key was taken: an answer at the last moment at which the key was free.
  lemma RefusedIsSerial(v: Service, s: Store, call: Call, early: seq<Commitment>, late: seq<Commitment>)
    requires SuccessorOf(v, call.request).Some? && ByKey(s.events, call.businessKey) == None
    requires Refusal(Before(v, s, early).events, call.parentId, SuccessorOf(v, call.request).value).Some?
    requires !RefusedThoughTaken(v, s, call, early)
    ensures Serial(v, s, call, early, late, Raced(v, s, call, early, late))
  {
    hide ByKey, Refusal, CommitRivals, Alone, Raced, SuccessorOf, FreeFor;
    var k := FreeFor(v.crypto, s, early, call.businessKey);
    assert early[..|early|] == early;
    RacedAnswers(v, s, call, early, late);
    AloneAnswers(v, Before(v, s, early[..k]), call);
    PrefixesGrow(v.crypto, s, early, k, |early|);
    if ByKey(Before(v, s, early).events, call.businessKey).None? {
      assert k == |early| by { PrefixesGrow(v.crypto, s, early, if k < |early| then k + 1 else k, |early|); }
    }
    assert early[k..|early|] == early[k..];
    assert Raced(v, s, call, early, late) == AloneThen(v, Before(v, s, early[..k]), call, early[k..]);
  }

  lemma NotSerialAt(v: Service, s: Store, call: Call, early: seq<Commitment>, late: seq<Commitment>, k: nat)
    requires UniqueRows(s.events) && RefusedThoughTaken(v, s, call, early) && k <= |early|
    ensures Alone(v, Before(v, s, early[..k]), call).0 != Raced(v, s, call, early, late).0
  {
    hide ByKey, Refusal, CommitRivals, Alone, Raced, SuccessorOf, FreeFor, UniqueRows, Within;
    var free := FreeFor(v.crypto, s, early, call.businessKey);
    var now := Before(v, s, early[..k]);
    assert early[..|early|] == early;
    RacedAnswers(v, s, call, early, late);
    AloneAnswers(v, now, call);
    if k <= free {
      PrefixesGrow(v.crypto, s, early, k, free);
      PrefixesGrow(v.crypto, s, early, free, |early|);
      RivalsKeepUnique(v.crypto, s, early);
      var (parentId, successor) := (call.parentId, SuccessorOf(v, call.request).value);
      if Refusal(now.events, parentId, successor) == Refusal(Before(v, s, early).events, parentId, successor) {
        RefusalBetween(now.events, Before(v, s, early[..free]).events, Before(v, s, early).events, parentId, successor);
      }
    } else {
      PrefixesGrow(v.crypto, s, early, free + 1, k);
      AloneAnswers(v, Before(v, s, early), call);
    }
  }

  lemma TakenAnswers(v: Service, s: Store, call: Call, early: seq<Commitment>, late: seq<Commitment>,
      now: Store)
    requires RefusedThoughTaken(v, s, call, early) && ByKey(now.events, call.businessKey).Some?
    ensures Alone(v, now, call).0 != Raced(v, s, call, early, late).0
  {
    hide ByKey, Refusal, CommitRivals, Alone, Raced, SuccessorOf, FreeFor;
    RacedAnswers(v, s, call, early, late);
    AloneAnswers(v, now, call);
    AloneAnswers(v, Before(v, s, early), call);
  }

  lemma RefusedIsNotSerial(v: Service, s: Store, call: Call, early: seq<Commitment>, late: seq<Commitment>)
    requires UniqueRows(s.events) && RefusedThoughTaken(v, s, call, early)
    ensures !Serial(v, s, call, early, late, Raced(v, s, call, early, late))
  {
    hide ByKey, Refusal, CommitRivals, Alone, Raced, SuccessorOf, FreeFor, UniqueRows;
    forall k | 0 <= k <= |early| ensures
        Raced(v, s, call, early, late) != AloneThen(v, Before(v, s, early[..k]), call, early[k..]) {
      NotSerialAt(v, s, call, early, late, k);
    }
    TakenAnswers(v, s, call, early, late, Before(v, s, early));
    forall k | 0 <= k <= |late| ensures Raced(v, s, call, early, late)
        != AloneThen(v, CommitRivals(v.crypto, Drawn(v, s, early), late[..k]), call, late[k..]) {
      RivalsKeepKeys(v.crypto, Drawn(v, s, early), late[..k], call.businessKey);
      TakenAnswers(v, s, call, early, late, CommitRivals(v.crypto, Drawn(v, s, early), late[..k]));
    }
  }

  // A call that nothing refused. Its insertion meets a rival's key or a rival's successor, and
  // is settled as if it had come last, or meets neither, and came before the late rivals.
  lemma SettledIsSerial(v: Service, s: Store, call: Call, early: seq<Commitment>, late: seq<Commitment>)
    requires UniqueRows(s.events)
    requires SuccessorOf(v, call.request).Some? && ByKey(s.events, call.businessKey) == None
    requires Refusal(Before(v, s, early).events, call.parentId, SuccessorOf(v, call.request).value) == None
    requires var raced := CommitRivals(v.crypto, Drawn(v, s, early), late);
      ByKey(raced.events, call.businessKey).Some? || ChildOf(raced.events, call.parentId).Some?
    ensures Raced(v, s, call, early, late) == Alone(v, CommitRivals(v.crypto, Drawn(v, s, early), late), call)
  {
    hide ByKey, FindEvent, ChildOf, InsertRow, NewSuccessor, CommitRivals, UniqueRows;
    var drawn := Drawn(v, s, early);
    RivalsKeepUnique(v.crypto, s, early);
    RivalsKeepUnique(v.crypto, drawn, late);
    RivalsOnlyAdd(v.crypto, drawn, late);
    FoundStays(drawn.events, CommitRivals(v.crypto, drawn, late).events, call.parentId);
  }

  lemma NewSuccessorFits(v: Service, number: int, parent: Event, call: Call, fingerprint: Bytes,
      successor: Successor, events: seq<Event>)
    requires NewId(v, number, events) && ByKey(events, call.businessKey) == None
    requires parent.commitment.eventId == call.parentId && ChildOf(events, call.parentId) == None
    ensures var event := NewSuccessor(v, number, parent, call.businessKey, fingerprint, call.operatorId, successor);
      NoClash(events, event) && event.sequence == number
  {
    hide EventLeaf;
    ByKeyIs(events, call.businessKey);
    ChildOfIs(events, call.parentId);
  }

  lemma CreatedIsSerial(v: Service, s: Store, call: Call, early: seq<Commitment>, late: seq<Commitment>)
    requires NumbersBelow(s)
    requires SuccessorOf(v, call.request).Some? && ByKey(s.events, call.businessKey) == None
    requires Refusal(Before(v, s, early).events, call.parentId, SuccessorOf(v, call.request).value) == None
    requires var raced := CommitRivals(v.crypto, Drawn(v, s, early), late);
      && ByKey(raced.events, call.businessKey) == None && ChildOf(raced.events, call.parentId) == None
      && NewId(v, Before(v, s, early).nextSequence, raced.events)
    ensures Raced(v, s, call, early, late) == AloneThen(v, Before(v, s, early), call, late)
  {
    hide ByKey, FindEvent, ChildOf, InsertRow, NewSuccessor, CommitRivals, NoClash, NumbersBelow, NewId;
    var before := Before(v, s, early);
    var drawn := Drawn(v, s, early);
    var raced := CommitRivals(v.crypto, drawn, late);
    var successor := SuccessorOf(v, call.request).value;
    var fingerprint := v.canonical.successorFingerprint(call.businessKey, call.parentId, call.operatorId, successor);
    FindEventFound(before.events, call.parentId);
    var parent := FindEvent(before.events, call.parentId).value;
    var event := NewSuccessor(v, before.nextSequence, parent, call.businessKey, fingerprint, call.operatorId,
        successor);
    RivalsNumbered(v.crypto, s, early);
    RivalsKeepKeys(v.crypto, drawn, late, call.businessKey);
    NewSuccessorFits(v, before.nextSequence, parent, call, fingerprint, successor, raced.events);
    NumberDrawnBelow(before);
    RivalsCommute(v.crypto, drawn, event, late);
  }

  // A raced revision or revocation whose key was free when it was looked up gives a serial
  // answer exactly when it is not refused though its key is taken. (If the key was known
  // already, or the report cannot be rendered, the call is its look-up alone.)
  lemma RacedSuccessorIsSerial(v: Service, s: Store, call: Call, early: seq<Commitment>, late: seq<Commitment>)
    requires NumbersBelow(s) && UniqueRows(s.events)
    requires NewId(v, Before(v, s, early).nextSequence, CommitRivals(v.crypto, Drawn(v, s, early), late).events)
    ensures SuccessorOf(v, call.request).None? || ByKey(s.events, call.businessKey).Some? ==>
        Raced(v, s, call, early, late) == Alone(v, s, call)
    ensures SuccessorOf(v, call.request).Some? && ByKey(s.events, call.businessKey).None? ==>
        (Serial(v, s, call, early, late, Raced(v, s, call, early, late)) <==> !RefusedThoughTaken(v, s, call, early))
  {
    hide ByKey, FindEvent, ChildOf, InsertRow, NewSuccessor, CommitRivals, UniqueRows, NumbersBelow, NewId, FreeFor,
        RefusedThoughTaken, Serial, Refusal, SuccessorOf;
    if SuccessorOf(v, call.request).Some? && ByKey(s.events, call.businessKey) == None {
      if RefusedThoughTaken(v, s, call, early) {
        RefusedIsNotSerial(v, s, call, early, late);
      } else if Refusal(Before(v, s, early).events, call.parentId, SuccessorOf(v, call.request).value).Some? {
        RefusedIsSerial(v, s, call, early, late);
      } else {
        UnrefusedIsSerial(v, s, call, early, late);
      }
    }
  }

  lemma UnrefusedIsSerial(v: Service, s: Store, call: Call, early: seq<Commitment>, late: seq<Commitment>)
    requires NumbersBelow(s) && UniqueRows(s.events)
    requires NewId(v, Before(v, s, early).nextSequence, CommitRivals(v.crypto, Drawn(v, s, early), late).events)
    requires SuccessorOf(v, call.request).Some? && ByKey(s.events, call.businessKey) == None
    requires Refusal(Before(v, s, early).events, call.parentId, SuccessorOf(v, call.request).value) == None
    ensures Serial(v, s, call, early, late, Raced(v, s, call, early, late))
  {
    hide ByKey, ChildOf, CommitRivals, UniqueRows, NumbersBelow, NewId, Refusal, SuccessorOf, Raced, Alone;
    var raced := CommitRivals(v.crypto, Drawn(v, s, early), late);
    if ByKey(raced.events, call.businessKey).None? && ChildOf(raced.events, call.parentId).None? {
      CreatedIsSerial(v, s, call, early, late);
    } else {
      SettledIsSerial(v, s, call, early, late);
      NoMoreRivals(v, raced, call);
      assert late[..|late|] == late && late[|late|..] == [];
      assert Raced(v, s, call, early, late)
          == AloneThen(v, CommitRivals(v.crypto, Drawn(v, s, early), late[..|late|]), call, late[|late|..]);
    }
  }

  lemma NoMoreRivals(v: Service, s: Store, call: Call)
    ensures AloneThen(v, s, call, []) == Alone(v, s, call)
  {
  }

  // ---- The same request twice at once ----

  // The row that a call creates alone.
  ghost function CreatedRow(v: Service, s: Store, call: Call): Event
    requires SuccessorOf(v, call.request).Some? && FindEvent(s.events, call.parentId).Some?
  {
    var successor := SuccessorOf(v, call.request).value;
    NewSuccessor(v, s.nextSequence, FindEvent(s.events, call.parentId).value, call.businessKey,
        v.canonical.successorFingerprint(call.businessKey, call.parentId, call.operatorId, successor),
        call.operatorId, successor)
  }

  ghost predicate Creates(v: Service, s: Store, call: Call) {
    && SuccessorOf(v, call.request).Some? && ByKey(s.events, call.businessKey) == None
    && Refusal(s.events, call.parentId, SuccessorOf(v, call.request).value) == None
    && NumbersBelow(s) && NewId(v, s.nextSequence, s.events)
  }

  lemma TwinAtEnd(v: Service, s: Store, call: Call)
    requires Creates(v, s, call)
    ensures FindEvent(s.events, call.parentId).Some?
    ensures var event := CreatedRow(v, s, call);
      && CommitRivals(v.crypto, s, [event.commitment]) == Store(s.events + [event], s.nextSequence + 1)
      && Alone(v, s, call) == (Ok((event, true)), Store(s.events + [event], s.nextSequence + 1))
      && event.commitment.businessKey == call.businessKey
      && event.commitment.previousEventId == Some(call.parentId)
      && event.commitment.eventId != call.parentId
      && event.commitment.fingerprint == v.canonical.successorFingerprint(call.businessKey, call.parentId,
          call.operatorId, SuccessorOf(v, call.request).value)
  {
    hide ByKey, FindEvent, ChildOf, InsertRow, NoClash, EventLeaf;
    var event := CreatedRow(v, s, call);
    var successor := SuccessorOf(v, call.request).value;
    FindEventFound(s.events, call.parentId);
    NewSuccessorFits(v, s.nextSequence, FindEvent(s.events, call.parentId).value, call, event.commitment.fingerprint,
        successor, s.events);
    InsertAtEnd(s.events, event);
    assert [event.commitment][..0] == [] && CommitRivals(v.crypto, s, []) == s;
  }

  lemma LookUpsAtEnd(events: seq<Event>, event: Event, id: Uuid)
    ensures ByKey(events + [event], event.commitment.businessKey) == Some(event)
    ensures event.commitment.previousEventId == Some(id) ==> ChildOf(events + [event], id) == Some(event)
    ensures event.commitment.eventId != id ==> FindEvent(events + [event], id) == FindEvent(events, id)
  {
    assert (events + [event])[..|events|] == events;
  }

  // Every revision or revocation that is created can also be refused: submitted twice at once,
  // the second looking its key up before the first commits, the second is told that the event
  // has a successor already. That is the row of its own content and key, which it would get as
  // a replay if it had come later; so its answer is not serial.
  lemma TwinIsRefused(v: Service, s: Store, call: Call, late: seq<Commitment>)
    requires Creates(v, s, call) && UniqueRows(s.events)
    ensures var (first, s') := Alone(v, s, call);
      && first.Ok? && first.value.1
      && var event, twin := first.value.0, [first.value.0.commitment];
      && CommitRivals(v.crypto, s, twin) == s'
      && Alone(v, s', call) == (Ok((event, false)), s')
      && Raced(v, s, call, twin, late) == (Err(AlreadySuperseded(event)), s')
      && !Serial(v, s, call, twin, late, Raced(v, s, call, twin, late))
  {
    hide ByKey, FindEvent, ChildOf, NewSuccessor, CommitRivals, UniqueRows, FreeFor, Serial;
    TwinAtEnd(v, s, call);
    var event := CreatedRow(v, s, call);
    LookUpsAtEnd(s.events, event, call.parentId);
    var free := FreeFor(v.crypto, s, [event.commitment], call.businessKey);
    assert [event.commitment][..1] == [event.commitment];
    assert free == 0;
    NobodyYet(v.crypto, s, [event.commitment]);
    assert RefusedThoughTaken(v, s, call, [event.commitment]);
    RefusedIsNotSerial(v, s, call, [event.commitment], late);
  }

  lemma NobodyYet(c: Crypto, s: Store, rivals: seq<Commitment>)
    ensures CommitRivals(c, s, rivals[..0]) == s
  {
  }
}
