/** The service's calls, raced or not, are interleavings of the protocol's steps. */
module CallRuns {
  import opened Wrappers
  import opened Hashing
  import opened Domain
  import opened Protocol
  import opened Runs
  import opened Reports
  import opened BatchProofs
  import opened RaceProofs
  import opened SuccessorRaces

  // ---- The steps of one writer ----

  // Beside writer t nobody has stored a row, and no sealer is under way.
  ghost predicate Quiet(s: System, t: nat) {
    t !in s.writers && s.sealer.None? && forall u | u in s.writers :: s.writers[u].rows == []
  }

  // No writer has stored a row that clashes with this one.
  ghost predicate Apart(s: System, row: Event) {
    forall u | u in s.writers :: NoClash(s.writers[u].rows, row)
  }

  function Numbers(s: System, nextSequence: int): System {
    s.(nextSequence := nextSequence)
  }

  function Commits(s: System, events: seq<Event>): System {
    s.(db := s.db.(events := events))
  }

  function RowOf(c: Crypto, m: Commitment, number: int): Event {
    Event(number, m, EventLeaf(c, m))
  }

  lemma Begun(c: Crypto, s: System, t: nat)
    requires Quiet(s, t)
    ensures Next(c, s, Begin(t)) == WithWriter(s, t, Writer([], Resting))
  {
    hide EventLeaf, Clash;
  }

  function PreparedBy(step: Step): Commitment
    requires step.PrepareReport?
  {
    ReportCommitment(step.id, step.businessKey, step.fingerprint, step.instrumentId, step.operatorId,
        step.reportDigest, step.now)
  }

  lemma ReportPrepares(c: Crypto, s: System, t: nat, rows: seq<Event>, step: Step)
    requires step.PrepareReport? && step.t == t
    ensures Next(c, WithWriter(s, t, Writer(rows, Resting)), step)
         == WithWriter(s, t, Writer(rows, Prepared(PreparedBy(step))))
  {
    hide EventLeaf, Clash;
    assert s.writers[t := Writer(rows, Resting)][t := Writer(rows, Prepared(PreparedBy(step)))]
        == s.writers[t := Writer(rows, Prepared(PreparedBy(step)))];
  }

  lemma SuccessorPrepares(c: Crypto, s: System, t: nat, step: Step)
    requires step.PrepareSuccessor? && step.t == t && t !in s.writers
    ensures Next(c, WithWriter(s, t, Writer([], Resting)), step) ==
      if MayFollow(s, step.parentId, step.successor) then
        WithWriter(s, t, Writer([], Prepared(SuccessorCommitment(FindEvent(s.db.events, step.parentId).value, step.id,
            step.businessKey, step.fingerprint, step.operatorId, step.successor, step.now))))
      else s
  {
    hide EventLeaf, Clash, FindEvent, SuccessorCommitment;
    var begun := WithWriter(s, t, Writer([], Resting));
    if MayFollow(s, step.parentId, step.successor) {
      assert MayFollow(begun, step.parentId, step.successor);
      var w := Writer([], Prepared(SuccessorCommitment(FindEvent(s.db.events, step.parentId).value, step.id,
          step.businessKey, step.fingerprint, step.operatorId, step.successor, step.now)));
      assert begun.writers[t := w] == s.writers[t := w];
    } else {
      assert !MayFollow(begun, step.parentId, step.successor);
      assert begun.writers - {t} == s.writers;
    }
  }

  lemma NumberDrawn(c: Crypto, s: System, t: nat, rows: seq<Event>, m: Commitment)
    ensures Next(c, WithWriter(s, t, Writer(rows, Prepared(m))), DrawNumber(t))
         == WithWriter(Numbers(s, s.nextSequence + 1), t, Writer(rows, Numbered(m, s.nextSequence)))
  {
    hide Clash, EventLeaf, InFlight;
    var w := Writer(rows, Numbered(m, s.nextSequence));
    assert s.writers[t := Writer(rows, Prepared(m))][t := w] == s.writers[t := w];
  }

  lemma RowStored(c: Crypto, s: System, t: nat, rows: seq<Event>, m: Commitment, number: int)
    requires t !in s.writers && Apart(s, RowOf(c, m, number))
    requires NoClash(s.db.events, RowOf(c, m, number)) && NoClash(rows, RowOf(c, m, number))
    ensures Next(c, WithWriter(s, t, Writer(rows, Numbered(m, number))), StoreRow(t))
         == WithWriter(s, t, Writer(rows + [RowOf(c, m, number)], Resting))
  {
    hide Clash, EventLeaf;
    var before := WithWriter(s, t, Writer(rows, Numbered(m, number)));
    var row := RowOf(c, m, number);
    forall e | InFlight(before, e) ensures !Clash(e, row) {
      var u :| u in before.writers && e in before.writers[u].rows;
      assert u != t ==> NoClash(s.writers[u].rows, row);
    }
    assert before.writers[t := Writer(rows + [row], Resting)] == s.writers[t := Writer(rows + [row], Resting)];
  }

  lemma RowRefused(c: Crypto, s: System, t: nat, rows: seq<Event>, m: Commitment, number: int)
    requires t !in s.writers && !NoClash(s.db.events, RowOf(c, m, number))
    ensures Next(c, WithWriter(s, t, Writer(rows, Numbered(m, number))), StoreRow(t)) == s
  {
    hide Clash, EventLeaf;
    assert WithWriter(s, t, Writer(rows, Numbered(m, number))).writers - {t} == s.writers;
  }

  lemma RowsCommitted(c: Crypto, s: System, t: nat, rows: seq<Event>)
    requires t !in s.writers
    ensures Next(c, WithWriter(s, t, Writer(rows, Resting)), Commit(t)) == Commits(s, InsertRows(s.db.events, rows))
  {
    hide InsertRow, Clash, InFlight, EventLeaf;
    assert WithWriter(s, t, Writer(rows, Resting)).writers - {t} == s.writers;
  }

  lemma NothingToCommit(c: Crypto, s: System, t: nat)
    requires t !in s.writers
    ensures Next(c, s, Commit(t)) == s
  {
    hide InsertRow, Clash, InFlight, EventLeaf;
  }

  lemma OneRow(events: seq<Event>, row: Event)
    ensures InsertRows(events, [row]) == InsertRow(events, row)
  {
    hide InsertRow;
    assert [row][..0] == [] && InsertRows(events, []) == events;
  }

  lemma OneStep(c: Crypto, s: System, step: Step)
    ensures Exec(c, s, [step]) == Next(c, s, step)
  {
    hide Next;
    assert [step][..0] == [] && Exec(c, s, []) == s;
  }

  lemma {:induction false} ExecInTwo(c: Crypto, s: System, a: seq<Step>, b: seq<Step>)
    ensures Exec(c, s, a + b) == Exec(c, Exec(c, s, a), b)
    decreases |b|
  {
    hide Next;
    if b == [] {
      assert a + b == a;
    } else {
      var n := |b| - 1;
      ExecInTwo(c, s, a, b[..n]);
      assert (a + b)[..|a| + n] == a + b[..n];
    }
  }

  lemma TwoSteps(c: Crypto, s: System, a: Step, b: Step)
    ensures Exec(c, s, [a, b]) == Next(c, Next(c, s, a), b)
  {
    hide Next;
    OneStep(c, s, a);
    assert [a, b][..1] == [a];
  }

  // Storing a numbered commitment commits its row, or finds it clashing and leaves.
  lemma StoresOrLeaves(c: Crypto, s: System, t: nat, m: Commitment, number: int)
    requires t !in s.writers
    requires NoClash(s.db.events, RowOf(c, m, number)) ==> Apart(s, RowOf(c, m, number))
    ensures Exec(c, WithWriter(s, t, Writer([], Numbered(m, number))), [StoreRow(t), Commit(t)]) ==
      Commits(s, if NoClash(s.db.events, RowOf(c, m, number)) then InsertRow(s.db.events, RowOf(c, m, number))
      else s.db.events)
  {
    hide Next, NoClash, InsertRow, InsertRows, Apart, RowOf;
    var row := RowOf(c, m, number);
    TwoSteps(c, WithWriter(s, t, Writer([], Numbered(m, number))), StoreRow(t), Commit(t));
    if NoClash(s.db.events, row) {
      NothingClashes(row);
      RowStored(c, s, t, [], m, number);
      assert [] + [row] == [row];
      RowsCommitted(c, s, t, [row]);
      OneRow(s.db.events, row);
    } else {
      RowRefused(c, s, t, [], m, number);
      NothingToCommit(c, s, t);
    }
  }

  lemma NothingClashes(row: Event)
    ensures NoClash([], row)
  {
  }

  // ---- The steps of the rivals ----

  // Rivals that have prepared what they will commit.
  ghost predicate Ready(s: System, ws: seq<nat>, rivals: seq<Commitment>) {
    && |ws| == |rivals|
    && (forall i, j | 0 <= i < j < |ws| :: ws[i] != ws[j])
    && (forall i | 0 <= i < |ws| :: ws[i] in s.writers && s.writers[ws[i]] == Writer([], Prepared(rivals[i])))
  }

  function RivalSteps(ws: seq<nat>): seq<Step> {
    if ws == [] then []
    else
      var u := ws[|ws| - 1];
      RivalSteps(ws[..|ws| - 1]) + [DrawNumber(u), StoreRow(u), Commit(u)]
  }

  function StoreOf(s: System): Store {
    Store(s.db.events, s.nextSequence)
  }

  // The state with this table, these writers having left.
  function Left(s: System, ws: seq<nat>, store: Store): System {
    Commits(Numbers(s, store.nextSequence), store.events).(writers := s.writers - (set u | u in ws))
  }

  lemma RivalRuns(c: Crypto, s: System, u: nat, m: Commitment)
    requires u !in s.writers
    requires var row := RowOf(c, m, s.nextSequence); NoClash(s.db.events, row) ==> Apart(s, row)
    ensures Exec(c, WithWriter(s, u, Writer([], Prepared(m))), [DrawNumber(u), StoreRow(u), Commit(u)])
        == Left(s, [], CommitRival(c, StoreOf(s), m))
  {
    hide Next, NoClash, InsertRow, Apart, EventLeaf;
    var prepared := WithWriter(s, u, Writer([], Prepared(m)));
    assert [DrawNumber(u), StoreRow(u), Commit(u)] == [DrawNumber(u)] + [StoreRow(u), Commit(u)];
    ExecInTwo(c, prepared, [DrawNumber(u)], [StoreRow(u), Commit(u)]);
    OneStep(c, prepared, DrawNumber(u));
    NumberDrawn(c, s, u, [], m);
    ApartStays(s, Numbers(s, s.nextSequence + 1), RowOf(c, m, s.nextSequence));
    StoresOrLeaves(c, Numbers(s, s.nextSequence + 1), u, m, s.nextSequence);
    assert s.writers - (set w | w in []) == s.writers;
  }

  lemma ApartStays(s: System, s': System, row: Event)
    requires forall u | u in s'.writers :: u in s.writers && s'.writers[u].rows == s.writers[u].rows
    ensures Apart(s, row) ==> Apart(s', row)
  {
    hide NoClash;
  }

  // Rows of the rivals do not clash with what other writers have stored.
  ghost predicate OutOfTheWay(s: System, events: seq<Event>) {
    forall u, f | u in s.writers && f in s.writers[u].rows :: NoClash(events, f)
  }

  lemma {:induction false} RivalsRun(c: Crypto, s: System, ws: seq<nat>, rivals: seq<Commitment>)
    requires Ready(s, ws, rivals) && OutOfTheWay(s, CommitRivals(c, StoreOf(s), rivals).events)
    ensures Exec(c, s, RivalSteps(ws)) == Left(s, ws, CommitRivals(c, StoreOf(s), rivals))
  {
    hide Next, NoClash, InsertRow, EventLeaf, CommitRival, OutOfTheWay;
    if ws == [] {
      assert s.writers - (set u | u in ws) == s.writers;
    } else {
      var n := |ws| - 1;
      var (u, m) := (ws[n], rivals[n]);
      var store := CommitRivals(c, StoreOf(s), rivals[..n]);
      var before := Left(s, ws[..n], store);
      var others := Rest(before, u);
      assert ws == ws[..n] + [u];
      OutOfTheWayBefore(c, s, rivals);
      RivalsRun(c, s, ws[..n], rivals[..n]);
      ExecInTwo(c, s, RivalSteps(ws[..n]), [DrawNumber(u), StoreRow(u), Commit(u)]);
      assert before == WithWriter(others, u, Writer([], Prepared(m)));
      LastOutOfTheWay(c, s, others, rivals);
      RivalRuns(c, others, u, m);
      LeftInTwo(s, ws, store, CommitRival(c, store, m));
    }
  }

  lemma LeftInTwo(s: System, ws: seq<nat>, store: Store, store': Store)
    requires ws != []
    ensures Left(Rest(Left(s, ws[..|ws| - 1], store), ws[|ws| - 1]), [], store') == Left(s, ws, store')
  {
    var n := |ws| - 1;
    assert ws == ws[..n] + [ws[n]];
  }

  lemma OutOfTheWayBefore(c: Crypto, s: System, rivals: seq<Commitment>)
    requires rivals != [] && OutOfTheWay(s, CommitRivals(c, StoreOf(s), rivals).events)
    ensures OutOfTheWay(s, CommitRivals(c, StoreOf(s), rivals[..|rivals| - 1]).events)
  {
    hide CommitRival, CommitRivals, Clash;
    var n := |rivals| - 1;
    assert rivals == rivals[..n] + [rivals[n]];
    RivalsInTwo(c, StoreOf(s), rivals[..n], [rivals[n]]);
    RivalsOnlyAdd(c, CommitRivals(c, StoreOf(s), rivals[..n]), [rivals[n]]);
    forall u, f | u in s.writers && f in s.writers[u].rows
      ensures NoClash(CommitRivals(c, StoreOf(s), rivals[..n]).events, f) {
      assert NoClash(CommitRivals(c, StoreOf(s), rivals).events, f);
    }
  }

  lemma LastOutOfTheWay(c: Crypto, s: System, others: System, rivals: seq<Commitment>)
    requires rivals != [] && OutOfTheWay(s, CommitRivals(c, StoreOf(s), rivals).events)
    requires StoreOf(others) == CommitRivals(c, StoreOf(s), rivals[..|rivals| - 1])
    requires forall u | u in others.writers :: u in s.writers && others.writers[u] == s.writers[u]
    ensures var row := RowOf(c, rivals[|rivals| - 1], others.nextSequence);
      NoClash(others.db.events, row) ==> Apart(others, row)
  {
    hide InsertRow, EventLeaf;
    var row := RowOf(c, rivals[|rivals| - 1], others.nextSequence);
    InsertedMembers(others.db.events, row);
    if NoClash(others.db.events, row) {
      assert row in CommitRivals(c, StoreOf(s), rivals).events;
      forall u, f | u in others.writers && f in others.writers[u].rows ensures !Clash(f, row) {
        assert f in s.writers[u].rows && NoClash(CommitRivals(c, StoreOf(s), rivals).events, f);
      }
    }
  }

  // ---- A call among its rivals ----

  // In every run the table is one that the theorems about raced calls speak of.
  lemma RunsLeaveSoundTables(c: Crypto, master: Keyring, steps: seq<Step>)
    requires Trusted(master, steps)
    ensures var s := Exec(c, INIT, steps); NumbersBelow(StoreOf(s)) && UniqueRows(s.db.events)
  {
    hide Next, Clash;
    InitInv(c, master);
    RunKeepsInv(c, master, INIT, steps);
    var s := Exec(c, INIT, steps);
    forall e, f | e in s.db.events && f in s.db.events && Clash(e, f) ensures e == f {
      assert IsRow(s, e) && IsRow(s, f);
    }
  }

  lemma QuietIsOutOfTheWay(s: System, t: nat, events: seq<Event>)
    requires Quiet(s, t)
    ensures OutOfTheWay(s, events) && forall row :: Apart(s, row)
  {
  }

  // The early rivals leave a state in which the call and the late rivals go on.
  lemma EarlyRivalsRun(c: Crypto, s: System, t: nat, ws: seq<nat>, early: seq<Commitment>, ws': seq<nat>,
      late: seq<Commitment>)
    requires Quiet(s, t) && |ws| == |early| && Ready(s, ws + ws', early + late)
    ensures var before := Left(s, ws, CommitRivals(c, StoreOf(s), early));
      && Exec(c, s, RivalSteps(ws)) == before
      && Quiet(before, t) && Ready(before, ws', late)
    ensures forall store, store' :: Left(Left(s, ws, store), ws', store') == Left(s, ws + ws', store')
  {
    hide CommitRivals, Next, NoClash;
    var (all, rivals) := (ws + ws', early + late);
    assert forall i | 0 <= i < |ws| :: all[i] == ws[i] && rivals[i] == early[i];
    assert forall i | 0 <= i < |ws'| :: all[|ws| + i] == ws'[i] && rivals[|ws| + i] == late[i];
    QuietIsOutOfTheWay(s, t, CommitRivals(c, StoreOf(s), early).events);
    RivalsRun(c, s, ws, early);
    assert forall store, store' :: Left(Left(s, ws, store), ws', store').writers == Left(s, all, store').writers;
  }

  function StoringSteps(t: nat, ws: seq<nat>): seq<Step> {
    [DrawNumber(t)] + RivalSteps(ws) + [StoreRow(t), Commit(t)]
  }

  // Once prepared, the call draws its number, the late rivals commit, and its row is stored
  // and committed if it clashes with nothing then.
  lemma PreparedCallRuns(c: Crypto, s: System, t: nat, m: Commitment, ws: seq<nat>, late: seq<Commitment>)
    requires Quiet(s, t) && Ready(s, ws, late)
    ensures var raced := CommitRivals(c, Store(s.db.events, s.nextSequence + 1), late);
      var row := RowOf(c, m, s.nextSequence);
      Exec(c, WithWriter(s, t, Writer([], Prepared(m))), StoringSteps(t, ws))
        == Left(s, ws, Store(if NoClash(raced.events, row) then InsertRow(raced.events, row) else raced.events,
        raced.nextSequence))
  {
    hide Next, NoClash, InsertRow, CommitRivals, Exec, RivalSteps, EventLeaf, OutOfTheWay, Apart;
    var (prepared, number) := (WithWriter(s, t, Writer([], Prepared(m))), s.nextSequence);
    var drawn := WithWriter(Numbers(s, number + 1), t, Writer([], Numbered(m, number)));
    var raced := CommitRivals(c, StoreOf(drawn), late);
    ExecInTwo(c, prepared, [DrawNumber(t)] + RivalSteps(ws), [StoreRow(t), Commit(t)]);
    ExecInTwo(c, prepared, [DrawNumber(t)], RivalSteps(ws));
    OneStep(c, prepared, DrawNumber(t));
    NumberDrawn(c, s, t, [], m);
    NumberedIsOutOfTheWay(s, t, Numbered(m, number), raced.events);
    RivalsRun(c, drawn, ws, late);
    var left := Left(Numbers(s, number + 1), ws, raced);
    assert Left(drawn, ws, raced) == WithWriter(left, t, Writer([], Numbered(m, number))) by {
      assert forall i | 0 <= i < |ws| :: ws[i] != t;
    }
    QuietIsOutOfTheWay(s, t, []);
    ApartStays(s, left, RowOf(c, m, number));
    StoresOrLeaves(c, left, t, m, number);
  }

  lemma NumberedIsOutOfTheWay(s: System, t: nat, stage: Stage, events: seq<Event>)
    requires Quiet(s, t)
    ensures OutOfTheWay(WithWriter(Numbers(s, s.nextSequence + 1), t, Writer([], stage)), events)
  {
  }

  // Submitting a report whose key is free, while others commit before and after it draws its
  // number, is the interleaving of its steps with theirs.
  lemma RacedReportIsARun(v: Service, s: System, t: nat, request: SubmitReport, ws: seq<nat>,
      early: seq<Commitment>, ws': seq<nat>, late: seq<Commitment>)
    requires Prepare(v, request).Some? && ByKey(s.db.events, request.businessKey) == None
    requires Quiet(s, t) && |ws| == |early| && Ready(s, ws + ws', early + late)
    requires var before := CommitRivals(v.crypto, StoreOf(s), early);
      NewId(v, before.nextSequence, CommitRivals(v.crypto, Store(before.events, before.nextSequence + 1), late).events)
    ensures var item := Prepare(v, request).value;
      var (id, now) := v.draws(CommitRivals(v.crypto, StoreOf(s), early).nextSequence);
      var prepare := PrepareReport(t, id, request.businessKey, item.fingerprint, request.instrumentId,
          request.operatorId, item.reportDigest, now);
      Exec(v.crypto, s, RivalSteps(ws) + [Begin(t), prepare] + StoringSteps(t, ws'))
        == Left(s, ws + ws', AppendReportRaced(v, StoreOf(s), request, early, late).1)
  {
    hide Next, NoClash, InsertRow, CommitRivals, Exec, RivalSteps, EventLeaf, ByKey, StoringSteps, Ready, NewId, Left;
    var c := v.crypto;
    var (item, before) := (Prepare(v, request).value, CommitRivals(c, StoreOf(s), early));
    var (id, now) := v.draws(before.nextSequence);
    var prepare := PrepareReport(t, id, request.businessKey, item.fingerprint, request.instrumentId,
        request.operatorId, item.reportDigest, now);
    var (m, left) := (PreparedBy(prepare), Left(s, ws, before));
    var raced := CommitRivals(c, Store(before.events, before.nextSequence + 1), late);
    EarlyRivalsRun(c, s, t, ws, early, ws', late);
    ExecInTwo(c, s, RivalSteps(ws) + [Begin(t), prepare], StoringSteps(t, ws'));
    ExecInTwo(c, s, RivalSteps(ws), [Begin(t), prepare]);
    TwoSteps(c, left, Begin(t), prepare);
    Begun(c, left, t);
    ReportPrepares(c, left, t, [], prepare);
    LeftTable(s, ws, before);
    PreparedCallRuns(c, left, t, m, ws', late);
    if ByKey(raced.events, request.businessKey).None? {
      NewReportFits(v, before.nextSequence, item, raced.events);
    } else {
      KeyClashes(raced.events, RowOf(c, m, before.nextSequence));
    }
    ReportRow(v, request, before.nextSequence);
  }

  lemma LeftTable(s: System, ws: seq<nat>, store: Store)
    ensures StoreOf(Left(s, ws, store)) == store
  {
  }

  lemma KeyClashes(events: seq<Event>, row: Event)
    requires ByKey(events, row.commitment.businessKey).Some?
    ensures !NoClash(events, row)
  {
    ByKeyIs(events, row.commitment.businessKey);
  }

  lemma ReportRow(v: Service, request: SubmitReport, number: int)
    requires Prepare(v, request).Some?
    ensures var item := Prepare(v, request).value;
      var (id, now) := v.draws(number);
      NewEvent(v, number, item)
          == RowOf(v.crypto, ReportCommitment(id, request.businessKey, item.fingerprint, request.instrumentId,
              request.operatorId, item.reportDigest, now), number)
  {
    hide EventLeaf;
  }

  // So is submitting a revision or revocation: refused, it ends when its parent was looked at.
  function CallSteps(v: Service, t: nat, call: Call, number: int): seq<Step>
    requires SuccessorOf(v, call.request).Some?
  {
    var (id, now) := v.draws(number);
    var successor := SuccessorOf(v, call.request).value;
    [Begin(t), PrepareSuccessor(t, call.parentId, id, call.businessKey,
        v.canonical.successorFingerprint(call.businessKey, call.parentId, call.operatorId, successor),
        call.operatorId, successor, now)]
  }

  lemma RacedSuccessorIsARun(v: Service, s: System, t: nat, call: Call, ws: seq<nat>,
      early: seq<Commitment>, ws': seq<nat>, late: seq<Commitment>)
    requires SuccessorOf(v, call.request).Some? && ByKey(s.db.events, call.businessKey) == None
    requires Quiet(s, t) && |ws| == |early| && Ready(s, ws + ws', early + late)
    requires var before := CommitRivals(v.crypto, StoreOf(s), early);
      NewId(v, before.nextSequence, CommitRivals(v.crypto, Store(before.events, before.nextSequence + 1), late).events)
    ensures var before := CommitRivals(v.crypto, StoreOf(s), early);
      var steps := RivalSteps(ws) + CallSteps(v, t, call, before.nextSequence);
      var store := Raced(v, StoreOf(s), call, early, late).1;
      if Refusal(before.events, call.parentId, SuccessorOf(v, call.request).value).Some?
          then Exec(v.crypto, s, steps) == Left(s, ws, store)
      else Exec(v.crypto, s, steps + StoringSteps(t, ws')) == Left(s, ws + ws', store)
  {
    hide Next, NoClash, InsertRow, CommitRivals, Exec, RivalSteps, EventLeaf, ByKey, StoringSteps, Ready, NewId, Left,
        FindEvent, ChildOf, SuccessorCommitment, Quiet, SuccessorOf;
    var c := v.crypto;
    var (successor, before) := (SuccessorOf(v, call.request).value, CommitRivals(c, StoreOf(s), early));
    var raced := CommitRivals(c, Store(before.events, before.nextSequence + 1), late);
    var steps := CallSteps(v, t, call, before.nextSequence);
    var left := Left(s, ws, before);
    EarlyRivalsRun(c, s, t, ws, early, ws', late);
    ExecInTwo(c, s, RivalSteps(ws), steps);
    ExecInTwo(c, s, RivalSteps(ws) + steps, StoringSteps(t, ws'));
    TwoSteps(c, left, steps[0], steps[1]);
    Begun(c, left, t);
    LeftTable(s, ws, before);
    WhoIsAbsent(left, t);
    SuccessorPrepares(c, left, t, steps[1]);
    RefusalIsMayFollow(left, call.parentId, successor);
    if Refusal(before.events, call.parentId, successor).None? {
      var event := CreatedRow(v, before, call);
      FindEventFound(before.events, call.parentId);
      PreparedCallRuns(c, left, t, event.commitment, ws', late);
      SuccessorRow(v, before, call);
      SuccessorFits(v, before, call, raced.events);
    }
  }

  lemma WhoIsAbsent(s: System, t: nat)
    requires Quiet(s, t)
    ensures t !in s.writers
  {
  }

  lemma RefusalIsMayFollow(s: System, parentId: Uuid, successor: Successor)
    ensures Refusal(s.db.events, parentId, successor).None? <==> MayFollow(s, parentId, successor)
  {
    hide FindEvent, ChildOf;
    ChildOfIs(s.db.events, parentId);
  }

  lemma SuccessorRow(v: Service, s: Store, call: Call)
    requires SuccessorOf(v, call.request).Some? && FindEvent(s.events, call.parentId).Some?
    ensures var event := CreatedRow(v, s, call);
      var successor, (id, now) := SuccessorOf(v, call.request).value, v.draws(s.nextSequence);
      && event == RowOf(v.crypto, event.commitment, s.nextSequence)
      && event.commitment == SuccessorCommitment(FindEvent(s.events, call.parentId).value, id, call.businessKey,
          v.canonical.successorFingerprint(call.businessKey, call.parentId, call.operatorId, successor),
          call.operatorId, successor, now)
  {
    hide EventLeaf, SuccessorCommitment, FindEvent;
  }

  // The created row clashes exactly with a rival's key or a rival's successor of the parent.
  lemma SuccessorFits(v: Service, s: Store, call: Call, events: seq<Event>)
    requires SuccessorOf(v, call.request).Some? && FindEvent(s.events, call.parentId).Some?
    requires NewId(v, s.nextSequence, events)
    ensures NoClash(events, CreatedRow(v, s, call))
       <==> ByKey(events, call.businessKey).None? && ChildOf(events, call.parentId).None?
  {
    hide EventLeaf, ByKey, ChildOf, FindEvent;
    FindEventFound(s.events, call.parentId);
    ByKeyIs(events, call.businessKey);
    ChildOfIs(events, call.parentId);
  }

  // ---- A batch ----

  function ItemSteps(v: Service, t: nat, number: int, item: PreparedReport): seq<Step> {
    var (r, (id, now)) := (item.request, v.draws(number));
    [PrepareReport(t, id, r.businessKey, item.fingerprint, r.instrumentId, r.operatorId, item.reportDigest, now),
        DrawNumber(t), StoreRow(t)]
  }

  // The steps of a batch inside its transaction: three for each key it creates.
  function BatchSteps(v: Service, s: Store, t: nat, items: seq<PreparedReport>): seq<Step> {
    if items == [] then []
    else
      var n := |items| - 1;
      var s' := InsertItems(v, s, items[..n]).1;
      BatchSteps(v, s, t, items[..n])
        + if ByKey(s'.events, items[n].request.businessKey).Some? then []
            else ItemSteps(v, t, s'.nextSequence, items[n])
  }

  // The uuids still to be drawn are pairwise different and not in these tables.
  ghost predicate FreshIds(v: Service, low: int, events: seq<Event>) {
    && (forall k | k >= low :: NewId(v, k, events))
    && (forall j, k | low <= j < k :: v.draws(j).0 != v.draws(k).0)
  }

  // Reports whose uuids go with numbers that were drawn.
  ghost predicate DrawnReports(v: Service, rows: seq<Event>, low: int, high: int) {
    forall e | e in rows :: e.commitment.previousEventId == None
        && exists k | low <= k < high :: e.commitment.eventId == v.draws(k).0
  }

  lemma ItemIsARun(v: Service, s: System, t: nat, rows: seq<Event>, item: PreparedReport)
    requires Quiet(s, t)
    requires NoClash(s.db.events, NewEvent(v, s.nextSequence, item))
        && NoClash(rows, NewEvent(v, s.nextSequence, item))
    ensures Exec(v.crypto, WithWriter(s, t, Writer(rows, Resting)), ItemSteps(v, t, s.nextSequence, item))
        == WithWriter(Numbers(s, s.nextSequence + 1), t,
        Writer(rows + [NewEvent(v, s.nextSequence, item)], Resting))
  {
    hide EventLeaf, NoClash, Clash, Next, Apart, OutOfTheWay;
    var steps := ItemSteps(v, t, s.nextSequence, item);
    var m := PreparedBy(steps[0]);
    RunOfThree(v.crypto, WithWriter(s, t, Writer(rows, Resting)), steps);
    ReportPrepares(v.crypto, s, t, rows, steps[0]);
    NumberDrawn(v.crypto, s, t, rows, m);
    QuietIsOutOfTheWay(s, t, []);
    ApartStays(s, Numbers(s, s.nextSequence + 1), RowOf(v.crypto, m, s.nextSequence));
    RowStored(v.crypto, Numbers(s, s.nextSequence + 1), t, rows, m, s.nextSequence);
  }

  // A report with a new key and a new uuid clashes with nothing in the table or in its batch.
  lemma NewItemFits(v: Service, events: seq<Event>, low: int, rows: seq<Event>, number: int, item: PreparedReport)
    requires FreshIds(v, low, events) && number >= low && DrawnReports(v, rows, low, number)
    requires ByKey(InsertRows(events, rows), item.request.businessKey) == None
    ensures NoClash(events, NewEvent(v, number, item)) && NoClash(rows, NewEvent(v, number, item))
  {
    hide ByKey, InsertRows, EventLeaf;
    ByKeyIs(InsertRows(events, rows), item.request.businessKey);
    RowsInserted(events, rows);
    assert NewId(v, number, events);
    forall e | e in rows ensures !Clash(e, NewEvent(v, number, item)) {
      var k :| low <= k < number && e.commitment.eventId == v.draws(k).0;
      assert e in InsertRows(events, rows);
    }
  }

  lemma OneMoreDrawn(v: Service, rows: seq<Event>, low: int, number: int, item: PreparedReport)
    requires low <= number && DrawnReports(v, rows, low, number)
    ensures DrawnReports(v, rows + [NewEvent(v, number, item)], low, number + 1)
  {
    hide EventLeaf;
    forall e | e in rows + [NewEvent(v, number, item)] ensures e.commitment.previousEventId == None
        && exists k | low <= k < number + 1 :: e.commitment.eventId == v.draws(k).0 {
      if e in rows {
        var k :| low <= k < number && e.commitment.eventId == v.draws(k).0;
      } else {
        assert e.commitment.eventId == v.draws(number).0;
      }
    }
  }

  lemma ItemStores(v: Service, s: System, t: nat, rows: seq<Event>, number: int, item: PreparedReport)
    requires Quiet(s, t) && FreshIds(v, s.nextSequence, s.db.events) && s.nextSequence <= number
    requires DrawnReports(v, rows, s.nextSequence, number)
    requires ByKey(InsertRows(s.db.events, rows), item.request.businessKey) == None
    ensures DrawnReports(v, rows + [NewEvent(v, number, item)], s.nextSequence, number + 1)
    ensures Exec(v.crypto, WithWriter(Numbers(s, number), t, Writer(rows, Resting)), ItemSteps(v, t, number, item))
        == WithWriter(Numbers(s, number + 1), t, Writer(rows + [NewEvent(v, number, item)], Resting))
  {
    hide ByKey, InsertRows, FreshIds, DrawnReports, ItemSteps, NewEvent, NoClash, Quiet, Exec;
    NewItemFits(v, s.db.events, s.nextSequence, rows, number, item);
    QuietStays(s, number, t);
    ItemIsARun(v, Numbers(s, number), t, rows, item);
    OneMoreDrawn(v, rows, s.nextSequence, number, item);
  }

  lemma BatchOfMore(v: Service, s: Store, t: nat, items: seq<PreparedReport>)
    requires items != [] && InsertItems(v, s, items).0.Ok?
    ensures var n := |items| - 1;
      var (done, s') := InsertItems(v, s, items[..n]);
      var (made, added) := (CreatedRows(MadeBefore(v, s, items[..n])), NewEvent(v, s'.nextSequence, items[n]));
      && done.Ok?
      && if ByKey(s'.events, items[n].request.businessKey).Some? then
          && InsertItems(v, s, items).1 == s' && CreatedRows(MadeBefore(v, s, items)) == made
          && BatchSteps(v, s, t, items) == BatchSteps(v, s, t, items[..n])
        else
          && InsertItems(v, s, items).1.nextSequence == s'.nextSequence + 1
          && CreatedRows(MadeBefore(v, s, items)) == made + [added]
          && BatchSteps(v, s, t, items)
               == BatchSteps(v, s, t, items[..n]) + ItemSteps(v, t, s'.nextSequence, items[n])
  {
    hide ByKey, InsertRow, CreatedRows, NewEvent, ItemSteps;
    var n := |items| - 1;
    var (done, s') := InsertItems(v, s, items[..n]);
    var made := MadeBefore(v, s, items[..n]);
    CreatedRowsOfMore(made, AppendOne(v, s', items[n]).0.value);
    assert CreatedRows(made) + [] == CreatedRows(made);
    assert BatchSteps(v, s, t, items[..n]) + [] == BatchSteps(v, s, t, items[..n]);
  }

  // Inside its transaction a batch that inserts all its items stores the rows it creates.
  lemma {:induction false} BatchStores(v: Service, s: System, t: nat, items: seq<PreparedReport>)
    requires Quiet(s, t) && FreshIds(v, s.nextSequence, s.db.events) && InsertItems(v, StoreOf(s), items).0.Ok?
    ensures var (s', rows) := (InsertItems(v, StoreOf(s), items).1, CreatedRows(MadeBefore(v, StoreOf(s), items)));
      && s.nextSequence <= s'.nextSequence && DrawnReports(v, rows, s.nextSequence, s'.nextSequence)
      && Exec(v.crypto, WithWriter(s, t, Writer([], Resting)), BatchSteps(v, StoreOf(s), t, items))
          == WithWriter(Numbers(s, s'.nextSequence), t, Writer(rows, Resting))
  {
    if items == [] {
      NothingDrawn(v, s.nextSequence);
    } else {
      hide InsertItems, MadeBefore, CreatedRows, BatchSteps, ByKey, InsertRows, FreshIds, DrawnReports, ItemSteps,
          NewEvent, Quiet, Exec;
      var n := |items| - 1;
      var s' := InsertItems(v, StoreOf(s), items[..n]).1;
      BatchOfMore(v, StoreOf(s), t, items);
      BatchStores(v, s, t, items[..n]);
      MadeRows(v, StoreOf(s), items[..n]);
      if ByKey(s'.events, items[n].request.businessKey).None? {
        ItemStores(v, s, t, CreatedRows(MadeBefore(v, StoreOf(s), items[..n])), s'.nextSequence, items[n]);
        ExecInTwo(v.crypto, WithWriter(s, t, Writer([], Resting)), BatchSteps(v, StoreOf(s), t, items[..n]),
            ItemSteps(v, t, s'.nextSequence, items[n]));
      }
    }
  }

  lemma NothingDrawn(v: Service, low: int)
    ensures DrawnReports(v, [], low, low)
  {
  }

  lemma QuietStays(s: System, nextSequence: int, t: nat)
    requires Quiet(s, t)
    ensures Quiet(Numbers(s, nextSequence), t)
  {
  }

  // A batch that inserts all its items, and of whose new keys the rivals take none before it
  // commits, is the interleaving of its steps with theirs.
  lemma RacedBatchIsARun(v: Service, s: System, t: nat, items: seq<PreparedReport>, ws: seq<nat>,
      rivals: seq<Commitment>)
    requires Quiet(s, t) && InsertItems(v, StoreOf(s), items).0.Ok?
    requires var drawn := Store(s.db.events, InsertItems(v, StoreOf(s), items).1.nextSequence);
      var raced := CommitRivals(v.crypto, drawn, rivals);
      && FreshIds(v, s.nextSequence, raced.events) && !Collides(MadeBefore(v, StoreOf(s), items), raced.events)
    requires Ready(s, ws, rivals)
    ensures var (done, s') := Attempts(v, StoreOf(s), items, [rivals], 0);
      && done.Ok?
      && Exec(v.crypto, s, [Begin(t)] + BatchSteps(v, StoreOf(s), t, items) + RivalSteps(ws) + [Commit(t)])
          == Left(s, ws, s')
  {
    hide InsertItems, MadeBefore, CreatedRows, InsertRows, BatchSteps, EventLeaf, CommitRivals, Next, FreshIds,
        NoClash, Collides, Exec, RivalSteps, DrawnReports, OutOfTheWay;
    var (c, start) := (v.crypto, StoreOf(s));
    var (s', rows) := (InsertItems(v, start, items).1, CreatedRows(MadeBefore(v, start, items)));
    var raced := CommitRivals(c, Store(s.db.events, s'.nextSequence), rivals);
    var (steps, stored) := (BatchSteps(v, start, t, items),
        WithWriter(Numbers(s, s'.nextSequence), t, Writer(rows, Resting)));
    RivalsOnlyAdd(c, Store(s.db.events, s'.nextSequence), rivals);
    FewerAreFresh(v, s.nextSequence, s.db.events, raced.events);
    BatchStores(v, s, t, items);
    MadeAll(v, start, items);
    ExecInTwo(c, s, [Begin(t)] + steps + RivalSteps(ws), [Commit(t)]);
    ExecInTwo(c, s, [Begin(t)] + steps, RivalSteps(ws));
    ExecInTwo(c, s, [Begin(t)], steps);
    OneStep(c, s, Begin(t));
    Begun(c, s, t);
    BatchOutOfTheWay(v, s, t, items, raced.events);
    assert Ready(stored, ws, rivals);
    RivalsRun(c, stored, ws, rivals);
    var left := Left(Numbers(s, s'.nextSequence), ws, raced);
    assert Left(stored, ws, raced) == WithWriter(left, t, Writer(rows, Resting)) by {
      assert forall i | 0 <= i < |ws| :: ws[i] != t;
    }
    OneStep(c, WithWriter(left, t, Writer(rows, Resting)), Commit(t));
    RowsCommitted(c, left, t, rows);
  }

  lemma FewerAreFresh(v: Service, low: int, events: seq<Event>, events': seq<Event>)
    requires FreshIds(v, low, events') && forall e | e in events :: e in events'
    ensures FreshIds(v, low, events)
  {
    assert forall k | k >= low :: NewId(v, k, events') ==> NewId(v, k, events);
  }

  // Rivals that take none of the batch's keys do not clash with the rows it has stored.
  lemma BatchOutOfTheWay(v: Service, s: System, t: nat, items: seq<PreparedReport>, events: seq<Event>)
    requires Quiet(s, t) && FreshIds(v, s.nextSequence, events)
    requires !Collides(MadeBefore(v, StoreOf(s), items), events)
    requires var (s', rows) := (InsertItems(v, StoreOf(s), items).1,
        CreatedRows(MadeBefore(v, StoreOf(s), items)));
      DrawnReports(v, rows, s.nextSequence, s'.nextSequence)
    ensures var (s', rows) := (InsertItems(v, StoreOf(s), items).1,
        CreatedRows(MadeBefore(v, StoreOf(s), items)));
      OutOfTheWay(WithWriter(Numbers(s, s'.nextSequence), t, Writer(rows, Resting)), events)
  {
    hide InsertItems, MadeBefore, CreatedRows, ByKey;
    var made := MadeBefore(v, StoreOf(s), items);
    forall f | f in CreatedRows(made) ensures NoClash(events, f) {
      CreatedIsMade(made, f);
      ByKeyIs(events, f.commitment.businessKey);
      var k :| s.nextSequence <= k && f.commitment.eventId == v.draws(k).0;
      assert NewId(v, k, events);
    }
  }

  lemma {:induction false} CreatedIsMade(made: seq<Appended>, row: Event)
    requires row in CreatedRows(made)
    ensures exists i | 0 <= i < |made| :: made[i] == (row, true)
  {
    if made == [] {
      assert false;
    } else {
      var n := |made| - 1;
      if made[n] != (row, true) {
        CreatedIsMade(made[..n], row);
        var i :| 0 <= i < n && made[..n][i] == (row, true);
        assert made[i] == (row, true);
      }
    }
  }
}
