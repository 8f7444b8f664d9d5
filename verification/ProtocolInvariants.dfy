/** Every step of every transaction keeps the ledger's invariants, so every run has them. */
module ProtocolInvariants {
  import opened Domain
  import opened Sealing
  import opened Protocol

  // ---- Sequence numbers ----

  lemma RestKeepsNumbering(c: Crypto, s: System, t: nat)
    requires Numbering(c, s)
    ensures Numbering(c, Rest(s, t))
  {
    forall u | u in Rest(s, t).writers ensures WriterNumbered(c, Rest(s, t), Rest(s, t).writers[u]) {
      assert WriterNumbered(c, s, s.writers[u]);
    }
  }

  // Replacing a writer by one that holds no further number.
  lemma SameNumbersKeepNumbering(c: Crypto, s: System, t: nat, w: Writer)
    requires Numbering(c, s) && WriterNumbered(c, s, w)
    requires forall n | Holds(w, n) :: t in s.writers && Holds(s.writers[t], n)
    ensures Numbering(c, WithWriter(s, t, w))
  {
    var s' := WithWriter(s, t, w);
    forall u | u in s'.writers ensures WriterNumbered(c, s', s'.writers[u]) {
      if u != t {
        assert WriterNumbered(c, s, s.writers[u]);
      }
    }
  }

  lemma DrawKeepsNumbering(c: Crypto, s: System, t: nat)
    requires Numbering(c, s) && s.nextSequence > LastOf(s.db)
    ensures Numbering(c, Next(c, s, DrawNumber(t)))
  {
    if t in s.writers && s.writers[t].stage.Prepared? {
      var s' := Next(c, s, DrawNumber(t));
      var old', new' := s.writers[t], s'.writers[t];
      assert WriterNumbered(c, s, old');
      assert forall n | Holds(new', n) :: Holds(old', n) || n == s.nextSequence;
      forall r | r in old'.rows ensures r.sequence < s.nextSequence {
        assert Holds(old', r.sequence);
      }
      forall u | u in s'.writers ensures WriterNumbered(c, s', s'.writers[u]) {
        assert WriterNumbered(c, s, s.writers[u]);
      }
    }
  }

  lemma StoreKeepsNumbering(c: Crypto, s: System, t: nat)
    requires Numbering(c, s)
    ensures Numbering(c, Next(c, s, StoreRow(t)))
  {
    if t in s.writers && s.writers[t].stage.Numbered? {
      var w := s.writers[t];
      var row := Event(w.stage.number, w.stage.commitment, EventLeaf(c, w.stage.commitment));
      var w' := Writer(w.rows + [row], Resting);
      assert WriterNumbered(c, s, w);
      assert Sorted(w'.rows) by {
        assert forall i | 0 <= i < |w.rows| :: w.rows[i] in w.rows;
      }
      forall n | Holds(w', n) ensures Holds(w, n) {
        var r :| r in w'.rows && r.sequence == n;
        assert r in w.rows || r == row;
      }
      SameNumbersKeepNumbering(c, s, t, w');
      RestKeepsNumbering(c, s, t);
    }
  }

  lemma CommitKeepsNumbering(c: Crypto, s: System, t: nat)
    requires Numbering(c, s) && Sorted(s.db.events)
    ensures Numbering(c, Next(c, s, Commit(t)))
  {
    if t in s.writers && s.writers[t].stage.Resting? {
      var s' := Next(c, s, Commit(t));
      WriterRowsAreNew(c, s, t);
      InsertRowsKeep(s.db.events, s.writers[t].rows);
      forall e | e in s'.db.events ensures e.sequence < s'.nextSequence {
        if e in s.writers[t].rows {
          assert Holds(s.writers[t], e.sequence);
        }
      }
      forall u | u in s'.writers ensures WriterNumbered(c, s', s'.writers[u]) {
        var w := s.writers[u];
        assert WriterNumbered(c, s, w) && u != t;
        forall n, e | Holds(w, n) && e in s'.db.events ensures e.sequence != n {
          assert e in s.writers[t].rows ==> Holds(s.writers[t], e.sequence);
        }
      }
    }
  }

  lemma WriterRowsAreNew(c: Crypto, s: System, t: nat)
    requires Numbering(c, s) && t in s.writers
    ensures var rows := s.writers[t].rows;
      && Sorted(rows)
      && (forall r | r in rows ::
          r.sequence > LastOf(s.db) && 1 <= r.sequence < s.nextSequence && r.leafHash == EventLeaf(c, r.commitment))
      && (forall e, r | e in s.db.events && r in rows :: e.sequence != r.sequence)
  {
    var w := s.writers[t];
    assert WriterNumbered(c, s, w);
    forall r | r in w.rows ensures Holds(w, r.sequence) {
    }
  }

  // ---- Rows of all transactions ----

  lemma FewerRowsStayUnique(s: System, s': System)
    requires Unique(s) && forall e | IsRow(s', e) :: IsRow(s, e)
    ensures Unique(s')
  {
  }

  lemma RestRows(s: System, t: nat)
    ensures forall e | IsRow(Rest(s, t), e) :: IsRow(s, e)
  {
    forall e | InFlight(Rest(s, t), e) ensures InFlight(s, e) {
    }
  }

  lemma StageRows(s: System, t: nat, w: Writer)
    requires if t in s.writers then w.rows == s.writers[t].rows else w.rows == []
    ensures forall e :: IsRow(WithWriter(s, t, w), e) <==> IsRow(s, e)
  {
    var s' := WithWriter(s, t, w);
    forall e | InFlight(s, e) ensures InFlight(s', e) {
      var u :| u in s.writers && e in s.writers[u].rows;
      assert u in s'.writers && e in s'.writers[u].rows;
    }
    forall e | InFlight(s', e) ensures InFlight(s, e) {
      var u :| u in s'.writers && e in s'.writers[u].rows;
      assert u in s.writers && e in s.writers[u].rows;
    }
  }

  lemma StoreRows(s: System, t: nat, row: Event)
    requires t in s.writers
    ensures var s' := WithWriter(s, t, Writer(s.writers[t].rows + [row], Resting));
      forall e | IsRow(s', e) :: IsRow(s, e) || e == row
  {
    var s' := WithWriter(s, t, Writer(s.writers[t].rows + [row], Resting));
    forall e | InFlight(s', e) && e != row ensures InFlight(s, e) {
      var u :| u in s'.writers && e in s'.writers[u].rows;
      assert e in s.writers[u].rows;
    }
  }

  lemma CommitRows(c: Crypto, s: System, t: nat)
    requires Numbering(c, s) && Sorted(s.db.events) && t in s.writers && s.writers[t].stage.Resting?
    ensures forall e :: IsRow(Next(c, s, Commit(t)), e) ==> IsRow(s, e)
    ensures forall e | e in s.db.events :: e in Next(c, s, Commit(t)).db.events
  {
    WriterRowsAreNew(c, s, t);
    InsertRowsKeep(s.db.events, s.writers[t].rows);
    RestRows(s, t);
    var s' := Next(c, s, Commit(t));
    forall e | IsRow(s', e) ensures IsRow(s, e) {
      if e in s.writers[t].rows {
        assert InFlight(s, e);
      } else if InFlight(s', e) {
        assert IsRow(Rest(s, t), e);
      }
    }
  }

  lemma StoreKeepsUnique(c: Crypto, s: System, t: nat)
    requires Unique(s)
    ensures Unique(Next(c, s, StoreRow(t)))
  {
    if t in s.writers && s.writers[t].stage.Numbered? {
      var w := s.writers[t];
      var row := Event(w.stage.number, w.stage.commitment, EventLeaf(c, w.stage.commitment));
      RestRows(s, t);
      FewerRowsStayUnique(s, Rest(s, t));
      StoreRows(s, t, row);
      if !(exists e | e in s.db.events :: Clash(e, row)) && !(exists e | InFlight(s, e) :: Clash(e, row)) {
        var s' := Next(c, s, StoreRow(t));
        forall e, f | IsRow(s', e) && IsRow(s', f) && Clash(e, f) ensures e == f {
          assert Clash(f, e);
        }
      }
    }
  }

  // ---- Lineage ----

  lemma LineageGrows(events: seq<Event>, events': seq<Event>, m: Commitment, before: int, before': int)
    requires Lineage(events, m, before) && before <= before' && forall e | e in events :: e in events'
    ensures Lineage(events', m, before')
  {
    if m.previousEventId.Some? {
      var p :| p in events && ParentOf(p, m) && p.sequence < before;
      assert p in events';
    }
  }

  // More committed events, no new rows, no new stages.
  lemma LineagesKept(s: System, s': System)
    requires Lineages(s) && s.nextSequence <= s'.nextSequence
    requires forall e | e in s.db.events :: e in s'.db.events
    requires forall e | IsRow(s', e) :: IsRow(s, e)
    requires forall t | t in s'.writers && !s'.writers[t].stage.Resting? ::
        t in s.writers && s'.writers[t].stage == s.writers[t].stage
    ensures Lineages(s')
  {
    forall e | IsRow(s', e) ensures Lineage(s'.db.events, e.commitment, e.sequence) {
      LineageGrows(s.db.events, s'.db.events, e.commitment, e.sequence, e.sequence);
    }
    forall t | t in s'.writers
        && s'.writers[t].stage.Prepared? ensures Lineage(s'.db.events, s'.writers[t].stage.commitment,
        s'.nextSequence) {
      LineageGrows(s.db.events, s'.db.events, s.writers[t].stage.commitment, s.nextSequence, s'.nextSequence);
    }
    forall t | t in s'.writers
        && s'.writers[t].stage.Numbered? ensures Lineage(s'.db.events, s'.writers[t].stage.commitment,
        s'.writers[t].stage.number) {
      var stage := s.writers[t].stage;
      LineageGrows(s.db.events, s'.db.events, stage.commitment, stage.number, stage.number);
    }
  }

  lemma PrepareKeepsLineages(c: Crypto, s: System, step: Step)
    requires step.PrepareReport? || step.PrepareSuccessor?
    requires Lineages(s) && forall e | e in s.db.events :: e.sequence < s.nextSequence
    ensures Lineages(Next(c, s, step))
  {
    var t, s' := step.t, Next(c, s, step);
    if t in s.writers && s.writers[t].stage.Resting? {
      RestRows(s, t);
      if step.PrepareSuccessor? && !MayFollow(s, step.parentId, step.successor) {
        LineagesKept(s, s');
      } else {
        var w := s'.writers[t];
        StageRows(s, t, w);
        if step.PrepareSuccessor? {
          FindEventFound(s.db.events, step.parentId);
          var p := FindEvent(s.db.events, step.parentId).value;
          assert ParentOf(p, w.stage.commitment);
        }
        forall e | IsRow(s', e) ensures Lineage(s'.db.events, e.commitment, e.sequence) {
          assert IsRow(s, e);
        }
      }
    }
  }

  lemma DrawKeepsLineages(c: Crypto, s: System, t: nat)
    requires Lineages(s)
    ensures Lineages(Next(c, s, DrawNumber(t)))
  {
    if t in s.writers && s.writers[t].stage.Prepared? {
      var s' := Next(c, s, DrawNumber(t));
      StageRows(s, t, s'.writers[t]);
      forall e | IsRow(s', e) ensures IsRow(s, e) {
        assert IsRow(WithWriter(s, t, s'.writers[t]), e) by {
          if InFlight(s', e) {
            assert InFlight(WithWriter(s, t, s'.writers[t]), e);
          }
        }
      }
      forall u | u in s'.writers
          && s'.writers[u].stage.Prepared? ensures Lineage(s'.db.events, s'.writers[u].stage.commitment,
          s'.nextSequence) {
        LineageGrows(s.db.events, s'.db.events, s.writers[u].stage.commitment, s.nextSequence, s'.nextSequence);
      }
    }
  }

  lemma StoreKeepsLineages(c: Crypto, s: System, t: nat)
    requires Lineages(s)
    ensures Lineages(Next(c, s, StoreRow(t)))
  {
    if t in s.writers && s.writers[t].stage.Numbered? {
      var w := s.writers[t];
      var row := Event(w.stage.number, w.stage.commitment, EventLeaf(c, w.stage.commitment));
      RestRows(s, t);
      LineagesKept(s, Rest(s, t));
      StoreRows(s, t, row);
    }
  }
}
