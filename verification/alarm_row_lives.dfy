/** What becomes of an alarm_events row, and which statement does it.

Over every run a row keeps its pair and trigger time, is never removed and never opened again; and each statement
changes the rows its WHERE clause names and no others. */
module AlarmRowLives {
  import opened Options
  import opened AlarmEventRows

  /** ACTIVE or ACKNOWLEDGED, and not cleared at any time. */
  predicate IsOpen(r: Row) { (r.status == RowActive || r.status == RowAcknowledged) && r.clearTime == None }

  predicate IsOpenAt(rows: map<int, Row>, id: int, p: Pair) { id in rows && rows[id].pair == p && IsOpen(rows[id]) }

  /** Every row but id is what it was. */
  ghost predicate OnlyRow(rows: map<int, Row>, rows': map<int, Row>, id: int) {
    forall i :: i != id ==> (i in rows' <==> i in rows) && (i in rows ==> rows'[i] == rows[i])
  }

  // ------------------------------------------------------------ one statement

  /** An insert makes its row exactly when no committed row of its pair is open. */
  lemma InsertIff(db: Db, c: nat)
    requires Enabled(db, Insert(c))
    ensures var db', t := Exec(db, Insert(c)), db.txs[c];
            && db'.rows == db.rows
            && if exists id :: IsOpenAt(db.rows, id, t.pair) then
                 db'.nextId == db.nextId && db'.txs == db.txs[c := NothingInserted(t.pair)]
               else
                 && db'.nextId == db.nextId + 1
                 && db'.txs == db.txs[c := Inserted(t.pair, db.nextId,
                                                    Row(t.pair, RowActive, t.triggerTime, None, None))]
  {
    assert AnyOpen(db.rows, db.txs[c].pair) <==> exists id :: IsOpenAt(db.rows, id, db.txs[c].pair) by {
      if id :| IsOpenAt(db.rows, id, db.txs[c].pair) {
        assert Open(db.rows[id]);
      }
      if id :| id in db.rows && db.rows[id].pair == db.txs[c].pair && Open(db.rows[id]) {
        assert IsOpenAt(db.rows, id, db.txs[c].pair);
      }
    }
  }

  /** Only a commit shows it, and shows it as inserted. */
  lemma CommitShows(db: Db, c: nat)
    requires Enabled(db, Commit(c))
    ensures var db', t := Exec(db, Commit(c)), db.txs[c];
            && c !in db'.txs
            && (t.Adopted? ==> db'.rows == db.rows)
            && (t.Inserted? ==> t.id in db'.rows && db'.rows[t.id] == t.row && OnlyRow(db.rows, db'.rows, t.id))
  {
  }

  /** Without an insert of its own the caller gets the id of the pair's one open row. */
  lemma AdoptsTheOpenRow(db: Db, c: nat, id: int)
    requires Inv(db) && Enabled(db, Adopt(c, id))
    ensures Exec(db, Adopt(c, id)).txs[c] == Adopted(db.txs[c].pair, id) && Exec(db, Adopt(c, id)).rows == db.rows
    ensures forall i :: IsOpenAt(db.rows, i, db.txs[c].pair) <==> i == id
  {
    forall i
      ensures IsOpenAt(db.rows, i, db.txs[c].pair) <==> i == id
    {
      if IsOpenAt(db.rows, i, db.txs[c].pair) {
        assert Open(db.rows[i]) && Open(db.rows[id]);
      }
    }
  }

  /** Closing ends the row at the given time, and another row's life not at all. */
  lemma MarkCloses(db: Db, id: int, at: int)
    ensures var db' := Exec(db, MarkCleared(id, at));
            && OnlyRow(db.rows, db'.rows, id) && (id in db'.rows <==> id in db.rows)
            && db'.nextId == db.nextId && db'.txs == db.txs
            && (id in db.rows ==>
                  db'.rows[id]
                    == Row(db.rows[id].pair, RowCleared, db.rows[id].triggerTime, db.rows[id].ackTime, Some(at)))
  {
  }

  /** An occurrence of the pair since `at` is on record as over. */
  ghost predicate IsOver(rows: map<int, Row>, p: Pair, at: int) {
    exists id :: id in rows && rows[id].pair == p && rows[id].triggerTime == at && rows[id].clearTime.Some?
  }

  lemma IsOverIff(rows: map<int, Row>, p: Pair, at: int)
    ensures IsOver(rows, p, at) <==> exists id :: id in rows && AlarmEventRows.Recorded(rows[id], p, at)
  {
    if id :| id in rows && rows[id].pair == p && rows[id].triggerTime == at && rows[id].clearTime.Some? {
      assert AlarmEventRows.Recorded(rows[id], p, at);
    }
  }

  /** An occurrence is put on record, already closed, exactly when it is not on record yet. */
  lemma RecordsIff(db: Db, p: Pair, at: int, clear: int)
    requires db.nextId !in db.rows
    ensures var db' := Exec(db, InsertCleared(p, at, clear));
            && IsOver(db'.rows, p, at)
            && (IsOver(db.rows, p, at) ==> db' == db)
            && (!IsOver(db.rows, p, at) ==>
                  && db.nextId in db'.rows && db'.rows[db.nextId] == Row(p, RowCleared, at, None, Some(clear))
                  && OnlyRow(db.rows, db'.rows, db.nextId) && db'.nextId == db.nextId + 1 && db'.txs == db.txs)
  {
    var db' := Exec(db, InsertCleared(p, at, clear));
    IsOverIff(db.rows, p, at);
    if !IsOver(db.rows, p, at) {
      assert db'.rows[db.nextId].pair == p;
    }
  }

  /** A second replay of the same history records nothing. */
  lemma RecordedOnce(db: Db, p: Pair, at: int, clear: int, clear': int)
    requires db.nextId !in db.rows
    ensures var db' := Exec(db, InsertCleared(p, at, clear)); Exec(db', InsertCleared(p, at, clear')) == db'
  {
    RecordsIff(db, p, at, clear);
    var db' := Exec(db, InsertCleared(p, at, clear));
    IsOverIff(db'.rows, p, at);
  }

  /** An acknowledgement takes exactly on a row neither acknowledged before nor closed. */
  lemma AcknowledgesIff(db: Db, id: int, at: int)
    ensures var db' := Exec(db, Acknowledge(id, at));
            && OnlyRow(db.rows, db'.rows, id) && (id in db'.rows <==> id in db.rows)
            && db'.nextId == db.nextId && db'.txs == db.txs
            && (id in db.rows ==> var r := db.rows[id];
                  db'.rows[id] == if r.ackTime == None && r.clearTime == None
                                  then Row(r.pair, RowAcknowledged, r.triggerTime, Some(at), None) else r)
  {
  }

  /** Saving a tag's rules closes what is not cleared of its alarms, and nothing of another tag's. */
  lemma SavingCloses(db: Db, tag: int, at: int)
    ensures var db' := Exec(db, SaveRules(tag, at));
            && db'.nextId == db.nextId && db'.txs == db.txs && (forall id :: id in db'.rows <==> id in db.rows)
            && forall id :: id in db.rows ==> var r := db.rows[id];
                 db'.rows[id] == if r.pair.tag == tag && r.status != RowCleared
                                 then Row(r.pair, RowCleared, r.triggerTime, r.ackTime, Some(at)) else r
  {
  }

  // ---------------------------------------------------------------- every run

  /** The row may have been acknowledged and may have been closed since. */
  predicate IsLater(r: Row, r': Row) {
    && r'.pair == r.pair && r'.triggerTime == r.triggerTime
    && (r.ackTime.Some? ==> r'.ackTime == r.ackTime)
    && (r'.ackTime != r.ackTime ==> r.ackTime == None && IsOpen(r))
    && (!IsOpen(r) ==> !IsOpen(r'))
  }

  ghost predicate AreLater(rows: map<int, Row>, rows': map<int, Row>) {
    forall id :: id in rows ==> id in rows' && IsLater(rows[id], rows'[id])
  }

  lemma StatementGoesOn(db: Db, st: Statement)
    requires Inv(db)
    ensures AreLater(db.rows, Exec(db, st).rows)
  {
    var db' := Exec(db, st);
    if Enabled(db, st) {
      match st {
        case MarkCleared(id, at) => MarkCloses(db, id, at);
        case Acknowledge(id, at) => AcknowledgesIff(db, id, at);
        case InsertCleared(p, at, clear) => RecordsIff(db, p, at, clear);
        case SaveRules(tag, at) => SavingCloses(db, tag, at);
        case _ =>
      }
    }
  }

  lemma LaterStill(a: map<int, Row>, b: map<int, Row>, c: map<int, Row>)
    requires AreLater(a, b) && AreLater(b, c)
    ensures AreLater(a, c)
  {
    forall id | id in a
      ensures id in c && IsLater(a[id], c[id])
    {
      assert IsLater(a[id], b[id]) && IsLater(b[id], c[id]);
    }
  }

  /** In every interleaving: a row stays, with its pair and trigger time; it is acknowledged at most once, while
      open; and once closed it is never open again. */
  lemma {:induction false} RowsLiveOnce(db: Db, sts: seq<Statement>)
    requires Inv(db)
    ensures Inv(Run(db, sts)) && AreLater(db.rows, Run(db, sts).rows)
  {
    if |sts| > 0 {
      var init := sts[..|sts| - 1];
      RowsLiveOnce(db, init);
      StatementKeepsInv(Run(db, init), sts[|sts| - 1]);
      StatementGoesOn(Run(db, init), sts[|sts| - 1]);
      LaterStill(db.rows, Run(db, init).rows, Run(db, sts).rows);
    }
  }
}
