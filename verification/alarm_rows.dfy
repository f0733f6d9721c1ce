/** One open alarm_events row per tag and definition, across all processes.

Any number of managers run InsertActive as a transaction of several statements
under the advisory lock of the pair, interleaved with MarkCleared, InsertCleared,
acknowledgements and configuration saves. A transaction's row is invisible to others
until it commits; every statement may fail and roll the transaction back. */
module AlarmEventRows {
  import opened Options

  datatype Pair = Pair(tag: int, def: int)

  datatype RowStatus = RowActive | RowAcknowledged | RowCleared

  datatype Row = Row(pair: Pair, status: RowStatus, triggerTime: int, ackTime: Option<int>, clearTime: Option<int>)

  /** The open-row test every statement uses. */
  predicate Open(r: Row) { !r.status.RowCleared? && r.clearTime.None? }

  /** An InsertActive in progress. The lock is held from Locked on. */
  datatype Tx =
    | Began(pair: Pair, triggerTime: int)
    | Locked(pair: Pair, triggerTime: int)
    | Inserted(pair: Pair, id: int, row: Row)
    | NothingInserted(pair: Pair)
    | Adopted(pair: Pair, id: int)

  predicate Holds(t: Tx, p: Pair) { !t.Began? && t.pair == p }

  /** Committed rows, the id sequence and the open transactions by connection. */
  datatype Db = Db(rows: map<int, Row>, nextId: int, txs: map<nat, Tx>)

  datatype Statement =
    | Begin(c: nat, pair: Pair, triggerTime: int)
    | TakeLock(c: nat)
    | Insert(c: nat)
    | Adopt(c: nat, id: int)
    | Commit(c: nat)
    | Rollback(c: nat)
    | InsertCleared(pair: Pair, triggerTime: int, clearTime: int)
    | MarkCleared(id: int, clearTime: int)
    | Acknowledge(id: int, ackTime: int)
    | SaveRules(tag: int, clearTime: int)

  ghost predicate AnyOpen(rows: map<int, Row>, p: Pair) {
    exists id :: id in rows && rows[id].pair == p && Open(rows[id])
  }

  ghost predicate Enabled(db: Db, st: Statement) {
    match st
    case Begin(c, _, _) => c !in db.txs
    case TakeLock(c) =>
      c in db.txs && db.txs[c].Began? && forall d :: d in db.txs ==> !Holds(db.txs[d], db.txs[c].pair)
    case Insert(c) => c in db.txs && db.txs[c].Locked?
    case Adopt(c, id) =>
      // the latest open row; none to be found is an error, which rolls back
      && c in db.txs && db.txs[c].NothingInserted?
      && id in db.rows && db.rows[id].pair == db.txs[c].pair && Open(db.rows[id])
      && forall j :: j in db.rows && db.rows[j].pair == db.txs[c].pair && Open(db.rows[j]) ==>
           db.rows[j].triggerTime <= db.rows[id].triggerTime
    case Commit(c) => c in db.txs && (db.txs[c].Inserted? || db.txs[c].Adopted?)
    case Rollback(c) => c in db.txs
    case _ => true
  }

  /** The row is of an occurrence that is over. */
  predicate Recorded(r: Row, p: Pair, at: int) { r.pair == p && r.triggerTime == at && r.clearTime.Some? }

  function Close(r: Row, clearTime: int): Row { r.(status := RowCleared, clearTime := Some(clearTime)) }

  ghost function Exec(db: Db, st: Statement): Db {
    if !Enabled(db, st) then db else
    match st
    case Begin(c, p, at) => db.(txs := db.txs[c := Began(p, at)])
    case TakeLock(c) => db.(txs := db.txs[c := Locked(db.txs[c].pair, db.txs[c].triggerTime)])
    case Insert(c) =>
      var t := db.txs[c];
      if AnyOpen(db.rows, t.pair) then db.(txs := db.txs[c := NothingInserted(t.pair)])
      else db.(nextId := db.nextId + 1,
               txs := db.txs[c := Inserted(t.pair, db.nextId, Row(t.pair, RowActive, t.triggerTime, None, None))])
    case Adopt(c, id) => db.(txs := db.txs[c := Adopted(db.txs[c].pair, id)])
    case Commit(c) =>
      var t := db.txs[c];
      db.(rows := if t.Inserted? then db.rows[t.id := t.row] else db.rows, txs := db.txs - {c})
    case Rollback(c) => db.(txs := db.txs - {c})
    case InsertCleared(p, at, clear) =>
      // an occurrence already recorded is not recorded again
      if exists id :: id in db.rows && Recorded(db.rows[id], p, at)
      then db
      else db.(rows := db.rows[db.nextId := Row(p, RowCleared, at, None, Some(clear))], nextId := db.nextId + 1)
    case MarkCleared(id, clear) =>
      if id in db.rows then db.(rows := db.rows[id := Close(db.rows[id], clear)]) else db
    case Acknowledge(id, at) =>
      if id in db.rows && db.rows[id].ackTime.None? && db.rows[id].clearTime.None?
      then db.(rows := db.rows[id := db.rows[id].(status := RowAcknowledged, ackTime := Some(at))]) else db
    case SaveRules(tag, clear) =>
      db.(rows := map id | id in db.rows ::
            if db.rows[id].pair.tag == tag && !db.rows[id].status.RowCleared?
            then Close(db.rows[id], clear) else db.rows[id])
  }

  ghost function Run(db: Db, sts: seq<Statement>): Db {
    if |sts| == 0 then db else Exec(Run(db, sts[..|sts| - 1]), sts[|sts| - 1])
  }

  // ------------------------------------------------------------- invariant

  ghost predicate AtMostOneOpen(rows: map<int, Row>) {
    forall i, j :: i in rows && j in rows && rows[i].pair == rows[j].pair && Open(rows[i]) && Open(rows[j]) ==> i == j
  }

  /** Ids come from the sequence; a cleared row says when. */
  ghost predicate SaneRows(db: Db) {
    && (forall i :: i in db.rows ==> i < db.nextId)
    && (forall i :: i in db.rows ==> (db.rows[i].status.RowCleared? <==> db.rows[i].clearTime.Some?))
  }

  /** One holder per lock; a row not yet committed is the only open one of its pair. */
  ghost predicate LocksProtect(db: Db) {
    && (forall c, d, p :: c in db.txs && d in db.txs && Holds(db.txs[c], p) && Holds(db.txs[d], p) ==> c == d)
    && (forall c :: c in db.txs && db.txs[c].Inserted? ==>
          && db.txs[c].id < db.nextId && db.txs[c].id !in db.rows
          && db.txs[c].row.pair == db.txs[c].pair && db.txs[c].row.status.RowActive? && db.txs[c].row.clearTime.None?
          && !AnyOpen(db.rows, db.txs[c].pair))
    && (forall c, d :: c in db.txs && d in db.txs && db.txs[c].Inserted? && db.txs[d].Inserted? && c != d ==>
          db.txs[c].id != db.txs[d].id)
  }

  ghost predicate Inv(db: Db) { SaneRows(db) && AtMostOneOpen(db.rows) && LocksProtect(db) }

  /** A change of committed rows that opens none. */
  ghost predicate OpensNone(db: Db, db': Db) {
    && db'.txs == db.txs && db'.nextId >= db.nextId
    && (forall i :: i in db'.rows ==> i in db.rows || (i == db.nextId < db'.nextId))
    && (forall i :: i in db'.rows && Open(db'.rows[i]) ==>
          i in db.rows && Open(db.rows[i]) && db.rows[i].pair == db'.rows[i].pair)
    && (forall i :: i in db'.rows ==> (db'.rows[i].status.RowCleared? <==> db'.rows[i].clearTime.Some?))
  }

  lemma OpeningNoneKeepsInv(db: Db, db': Db)
    requires Inv(db) && OpensNone(db, db')
    ensures Inv(db')
  {
  }

  lemma TransactionKeepsInv(db: Db, st: Statement)
    requires Inv(db) && Enabled(db, st) && (st.Begin? || st.TakeLock? || st.Insert? || st.Adopt? || st.Rollback?)
    ensures Inv(Exec(db, st))
  {
  }

  lemma CommitKeepsInv(db: Db, c: nat)
    requires Inv(db) && Enabled(db, Commit(c))
    ensures Inv(Exec(db, Commit(c)))
  {
    var db' := Exec(db, Commit(c));
    var t := db.txs[c];
    if t.Inserted? {
      forall d | d in db'.txs && db'.txs[d].Inserted?
        ensures !AnyOpen(db'.rows, db'.txs[d].pair)
      {
        assert Holds(db.txs[d], db.txs[d].pair) && Holds(t, t.pair);
        assert db.txs[d].pair != t.pair;
      }
    }
  }

  lemma StatementKeepsInv(db: Db, st: Statement)
    requires Inv(db)
    ensures Inv(Exec(db, st))
  {
    if Enabled(db, st) {
      match st {
        case Commit(c) => CommitKeepsInv(db, c);
        case InsertCleared(_, _, _) => OpeningNoneKeepsInv(db, Exec(db, st));
        case MarkCleared(_, _) => OpeningNoneKeepsInv(db, Exec(db, st));
        case Acknowledge(_, _) => OpeningNoneKeepsInv(db, Exec(db, st));
        case SaveRules(_, _) => OpeningNoneKeepsInv(db, Exec(db, st));
        case _ => TransactionKeepsInv(db, st);
      }
    }
  }

  /** In every interleaving, from a table without duplicates: at most one row per tag
      and definition is open. */
  lemma {:induction false} OneOpenRowInEveryRun(db: Db, sts: seq<Statement>)
    requires db.txs == map[] && SaneRows(db) && AtMostOneOpen(db.rows)
    ensures Inv(Run(db, sts)) && AtMostOneOpen(Run(db, sts).rows)
  {
    if |sts| > 0 {
      OneOpenRowInEveryRun(db, sts[..|sts| - 1]);
      StatementKeepsInv(Run(db, sts[..|sts| - 1]), sts[|sts| - 1]);
    }
  }

  /** A committed insert leaves its own row as the one open row of the pair. */
  lemma CommittedInsertIsTheOpenRow(db: Db, c: nat)
    requires Inv(db) && Enabled(db, Commit(c)) && db.txs[c].Inserted?
    ensures var rows := Exec(db, Commit(c)).rows;
            && db.txs[c].id in rows
            && forall i :: i in rows && rows[i].pair == db.txs[c].pair ==> (Open(rows[i]) <==> i == db.txs[c].id)
  {
    assert !AnyOpen(db.rows, db.txs[c].pair);
  }

  // ------------------------------------------------------ the unlocked sweep

  /** The comm_loss sweep's guarded INSERT: one statement, no lock. */
  ghost function Sweep(db: Db, p: Pair, now: int): Db {
    if AnyOpen(db.rows, p) then db
    else db.(rows := db.rows[db.nextId := Row(p, RowActive, now, None, None)], nextId := db.nextId + 1)
  }

  /** Even as one atomic statement the sweep is safe exactly when no InsertActive of
      the same pair sits between its insert and its commit. */
  lemma SweepIsSafeIff(db: Db, p: Pair, now: int)
    requires Inv(db)
    ensures Inv(Sweep(db, p, now)) <==> forall c :: c in db.txs && db.txs[c].Inserted? ==> db.txs[c].pair != p
  {
    var db' := Sweep(db, p, now);
    if c :| c in db.txs && db.txs[c].Inserted? && db.txs[c].pair == p {
      assert db'.rows[db.nextId].pair == p && Open(db'.rows[db.nextId]);
      assert AnyOpen(db'.rows, p);
    } else {
      SafeSweep(db, p, now);
    }
  }

  lemma SafeSweep(db: Db, p: Pair, now: int)
    requires Inv(db) && forall c :: c in db.txs && db.txs[c].Inserted? ==> db.txs[c].pair != p
    ensures Inv(Sweep(db, p, now))
  {
    var db' := Sweep(db, p, now);
    if !AnyOpen(db.rows, p) {
      assert forall i :: i in db'.rows && i != db.nextId ==> i in db.rows && db.rows[i] == db'.rows[i];
    }
  }

  /** Otherwise the transaction's commit leaves two open rows. */
  lemma SweepDuringInsertStacksARow(db: Db, c: nat, now: int)
    requires Inv(db) && c in db.txs && db.txs[c].Inserted?
    ensures !AtMostOneOpen(Exec(Sweep(db, db.txs[c].pair, now), Commit(c)).rows)
  {
    var t := db.txs[c];
    var swept := Sweep(db, t.pair, now);
    var rows := Exec(swept, Commit(c)).rows;
    assert swept.rows[db.nextId].pair == t.pair && t.id != db.nextId;
    assert rows[t.id] == t.row && Open(rows[t.id]);
    assert rows[db.nextId].pair == t.pair && Open(rows[db.nextId]);
  }
}
