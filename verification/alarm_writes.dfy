/** What one occurrence leaves in the store.

Over every run with arbitrary store failures: an occurrence that was not restored
from the database has no row, or one opened row, or that same row opened and then
closed, or one row written already closed; its reference takes a row id at most
once; and when none of its store calls failed, executing its CLEARED leaves exactly
the opened row, closed. */
module AlarmWrites {
  import opened Options
  import opened AlarmRules
  import opened AlarmEngine
  import opened AlarmOccurrences
  import opened AlarmDrain

  /** The row id of an occurrence, counting one returned by the store but not yet
      written to the reference. */
  function RowId(s: System, r: nat): int {
    var pc := s.At(s.drainer);
    if s.draining && pc.Storing? && pc.act.ref == r then pc.id else s.engine.RowOf(r)
  }

  /** The writes an occurrence can have, given its row id. */
  predicate GoodWrites(w: seq<Write>, id: int, restored: bool) {
    if restored then id > 0 && (w == [] || w == [Marked(id)])
    else
      || (id == 0 && w == [])
      || (id > 0 && (w == [Opened(id)] || w == [Opened(id), Marked(id)] || w == [Recorded(id)]))
  }

  predicate Ended(w: seq<Write>) { |w| > 0 && !w[|w| - 1].Opened? }

  /** Once an action is through the store, it is done unless a call failed. */
  predicate Settled(s: System, a: Action) {
    s.hasStore && a.ref !in s.failed ==>
      s.engine.RowOf(a.ref) > 0 && (a.status.Cleared? ==> Ended(s.WritesOf(a.ref)))
  }

  /** What the drainer's position says about its action. */
  ghost predicate AtPc(s: System, pc: Pc)
    requires Executing(pc)
  {
    var r := pc.act.ref;
    var row := s.engine.RowOf(r);
    match pc
    case Inserting(act) => act.status.Active? && row == 0
    case Marking(act, id) => act.status.Cleared? && row == id > 0 && !Ended(s.WritesOf(r))
    case Recording(act) => act.status.Cleared? && row == 0 && r in s.failed
    case Storing(act, id) =>
      && row == 0 && id > 0
      && s.WritesOf(r) == [if act.status.Active? then Opened(id) else Recorded(id)]
    case Persisted(act) => Settled(s, act)
    case Finished(act) => Settled(s, act)
    case _ => true
  }

  ghost predicate Books(s: System, restored: nat) {
    && (forall r: nat :: GoodWrites(s.WritesOf(r), RowId(s, r), r < restored))
    && (forall r: nat :: s.WritesOf(r) != [] && s.WritesOf(r)[0].Recorded? ==> r in s.failed)
    && (forall r: nat :: Ended(s.WritesOf(r)) ==> EndQueued(s, r))
    && (forall a :: a in s.executed ==> Settled(s, a))
    && (s.draining && Executing(s.At(s.drainer)) ==> AtPc(s, s.At(s.drainer)))
  }

  /** A closed occurrence had its CLEARED executed, or past the store. */
  ghost predicate EndQueued(s: System, r: nat) {
    || (exists a :: a in s.executed && a.ref == r && a.status.Cleared?)
    || (var pc := s.At(s.drainer);
        s.draining && (pc.Storing? || pc.Persisted? || pc.Finished?) && pc.act.ref == r && pc.act.status.Cleared?)
  }

  ghost predicate Inv(s: System, restored: nat) {
    Protocol(s) && Orderly(s.engine, restored) && PendingAreDefined(s.engine) && Books(s, restored)
  }

  // ------------------------------------------------------- reading the row id

  /** The action in flight comes after everything executed. */
  lemma InFlightIndex(s: System)
    requires Protocol(s) && s.draining
    ensures var act := s.At(s.drainer).act; var q := s.engine.Queued();
            && |s.executed| < |q| && q[|s.executed|] == act
            && forall i :: 0 <= i < |s.executed| ==> q[i] == s.executed[i]
  {
    assert Executing(s.At(s.drainer));
    assert s.engine.popped == s.executed + [s.At(s.drainer).act];
  }

  /** A CLEARED about to be persisted finds its occurrence not closed yet. */
  lemma NotEndedYet(s: System, restored: nat)
    requires Inv(s, restored) && s.draining && s.At(s.drainer).Popped? && s.At(s.drainer).act.status.Cleared?
    ensures !Ended(s.WritesOf(s.At(s.drainer).act.ref))
  {
    NoEarlierCleared(s, restored);
    assert Ended(s.WritesOf(s.At(s.drainer).act.ref)) ==> EndQueued(s, s.At(s.drainer).act.ref);
  }

  lemma NoEarlierCleared(s: System, restored: nat)
    requires Inv(s, restored) && s.draining
    ensures forall a :: a in s.executed && a.ref == s.At(s.drainer).act.ref ==> !a.status.Cleared?
  {
    InFlightIndex(s);
    forall a | a in s.executed && a.ref == s.At(s.drainer).act.ref
      ensures !a.status.Cleared?
    {
      var i := MemberIndex(s.executed, a);
    }
  }

  /** Its ACTIVE was executed before it; without a row, that one failed. */
  lemma UnpersistedMeansFailed(s: System, restored: nat)
    requires Inv(s, restored) && s.draining && s.hasStore
    requires s.At(s.drainer).Popped? && s.At(s.drainer).act.status.Cleared?
    requires s.engine.RowOf(s.At(s.drainer).act.ref) == 0
    ensures s.At(s.drainer).act.ref in s.failed
  {
    var act := s.At(s.drainer).act;
    var q := s.engine.Queued();
    InFlightIndex(s);
    assert GoodWrites(s.WritesOf(act.ref), RowId(s, act.ref), act.ref < restored);
    assert act in q;
    var b :| b in q && b.ref == act.ref && b.status.Active?;
    var j := MemberIndex(q, b);
    assert j < |s.executed|;
    assert Settled(s, s.executed[j]);
  }

  /** Nothing the books look at changes, except the drainer's position. */
  ghost predicate SameBooks(s: System, s': System) {
    && s'.writes == s.writes && s'.failed == s.failed && s'.hasStore == s.hasStore
    && (forall r: nat :: s'.engine.RowOf(r) == s.engine.RowOf(r))
    && (forall r: nat :: RowId(s', r) == RowId(s, r))
  }

  lemma SameBooksSettled(s: System, s': System)
    requires SameBooks(s, s')
    ensures forall a :: Settled(s', a) == Settled(s, a)
    ensures forall r: nat :: s'.WritesOf(r) == s.WritesOf(r)
  {
  }

  lemma ReadKeepsBooks(s: System, t: nat, restored: nat)
    requires Inv(s, restored) && s.At(t).Popped?
    ensures Books(Do(s, ReadRef(t)), restored)
  {
    var s' := Do(s, ReadRef(t));
    assert Executing(s.At(t)) && t == s.drainer && s.draining;
    assert s'.At(t) != s.At(t) && s'.engine == s.engine;
    SameBooksSettled(s, s');
    var act := s.At(t).act;
    assert GoodWrites(s.WritesOf(act.ref), RowId(s, act.ref), act.ref < restored);
    if act.status.Cleared? {
      NotEndedYet(s, restored);
      if s.hasStore && s.engine.RowOf(act.ref) == 0 {
        UnpersistedMeansFailed(s, restored);
      }
    }
    forall r: nat | Ended(s'.WritesOf(r))
      ensures EndQueued(s', r)
    {
      assert EndQueued(s, r);
    }
  }

  // ------------------------------------------------------------ store answers

  lemma FailureKeepsBooks(s: System, t: nat, id: int, restored: nat)
    requires Inv(s, restored) && Enabled(s, StoreAnswers(t, false, id))
    ensures Books(Do(s, StoreAnswers(t, false, id)), restored)
  {
    var s' := Do(s, StoreAnswers(t, false, id));
    assert Executing(s.At(t)) && t == s.drainer && s.draining;
    assert s'.engine == s.engine && s'.At(t) == Persisted(s.At(t).act) && s'.failed == s.failed + {s.At(t).act.ref};
    assert forall r: nat :: s'.WritesOf(r) == s.WritesOf(r) && RowId(s', r) == RowId(s, r);
    forall r: nat | Ended(s'.WritesOf(r))
      ensures EndQueued(s', r)
    {
      assert EndQueued(s, r);
    }
    forall a | a in s'.executed
      ensures Settled(s', a)
    {
      assert Settled(s, a);
    }
  }

  lemma SuccessIsGoodWrite(s: System, t: nat, id: int, restored: nat)
    requires Inv(s, restored) && Enabled(s, StoreAnswers(t, true, id))
    ensures var s', r := Do(s, StoreAnswers(t, true, id)), s.At(t).act.ref;
            GoodWrites(s'.WritesOf(r), RowId(s', r), r < restored)
  {
    var pc := s.At(t);
    assert Executing(pc) && t == s.drainer && s.draining;
    assert AtPc(s, pc);
    assert GoodWrites(s.WritesOf(pc.act.ref), RowId(s, pc.act.ref), pc.act.ref < restored);
  }

  /** Nothing is written but for occurrence r. */
  ghost predicate OnlyWrote(s: System, s': System, r: nat) {
    && s' == s.(threads := s'.threads, writes := s'.writes)
    && (forall u: nat :: u != r ==> s'.WritesOf(u) == s.WritesOf(u) && RowId(s', u) == RowId(s, u))
    && (Ended(s.WritesOf(r)) ==> Ended(s'.WritesOf(r)))
    && forall u: nat :: EndQueued(s, u) ==> EndQueued(s', u)
  }

  /** The write is one its occurrence can have. */
  ghost predicate FitsBooks(s: System, r: nat, restored: nat) {
    && GoodWrites(s.WritesOf(r), RowId(s, r), r < restored)
    && (s.WritesOf(r) != [] && s.WritesOf(r)[0].Recorded? ==> r in s.failed)
    && (Ended(s.WritesOf(r)) ==> EndQueued(s, r))
    && (s.draining && Executing(s.At(s.drainer)) ==> AtPc(s, s.At(s.drainer)))
  }

  lemma OneWriteKeepsBooks(s: System, s': System, r: nat, restored: nat)
    requires Books(s, restored) && OnlyWrote(s, s', r) && FitsBooks(s', r, restored)
    ensures Books(s', restored)
  {
    forall u: nat
      ensures GoodWrites(s'.WritesOf(u), RowId(s', u), u < restored)
      ensures s'.WritesOf(u) != [] && s'.WritesOf(u)[0].Recorded? ==> u in s'.failed
      ensures Ended(s'.WritesOf(u)) ==> EndQueued(s', u)
    {
      if u != r {
        assert s'.WritesOf(u) == s.WritesOf(u) && RowId(s', u) == RowId(s, u);
        assert Ended(s.WritesOf(u)) ==> EndQueued(s, u);
      }
    }
    forall a | a in s'.executed
      ensures Settled(s', a)
    {
      assert Settled(s, a);
      assert a.ref != r ==> s'.WritesOf(a.ref) == s.WritesOf(a.ref);
    }
  }

  lemma SuccessWritesOne(s: System, t: nat, id: int, restored: nat)
    requires Inv(s, restored) && Enabled(s, StoreAnswers(t, true, id))
    ensures OnlyWrote(s, Do(s, StoreAnswers(t, true, id)), s.At(t).act.ref)
  {
    assert Executing(s.At(t)) && t == s.drainer && s.draining;
  }

  lemma SuccessFits(s: System, t: nat, id: int, restored: nat)
    requires Inv(s, restored) && Enabled(s, StoreAnswers(t, true, id))
    ensures FitsBooks(Do(s, StoreAnswers(t, true, id)), s.At(t).act.ref, restored)
  {
    assert Executing(s.At(t)) && t == s.drainer && s.draining;
    assert AtPc(s, s.At(t));
    SuccessIsGoodWrite(s, t, id, restored);
  }

  lemma SuccessKeepsBooks(s: System, t: nat, id: int, restored: nat)
    requires Inv(s, restored) && Enabled(s, StoreAnswers(t, true, id))
    ensures Books(Do(s, StoreAnswers(t, true, id)), restored)
  {
    SuccessWritesOne(s, t, id, restored);
    SuccessFits(s, t, id, restored);
    OneWriteKeepsBooks(s, Do(s, StoreAnswers(t, true, id)), s.At(t).act.ref, restored);
  }

  // ------------------------------------------------------- the other moves

  lemma WriteKeepsBooks(s: System, t: nat, restored: nat)
    requires Inv(s, restored) && s.At(t).Storing?
    ensures Books(Do(s, WriteRef(t)), restored)
  {
    var s' := Do(s, WriteRef(t));
    var pc := s.At(t);
    var r := pc.act.ref;
    assert Executing(pc) && t == s.drainer && s.draining && AtPc(s, pc);
    InFlightIndex(s);
    assert pc.act in s.engine.Queued();
    assert forall u: nat :: s'.engine.RowOf(u) == if u == r then pc.id else s.engine.RowOf(u);
    assert forall u: nat :: s'.WritesOf(u) == s.WritesOf(u) && RowId(s', u) == RowId(s, u);
    forall u: nat | Ended(s'.WritesOf(u))
      ensures EndQueued(s', u)
    {
      assert EndQueued(s, u);
    }
    forall a | a in s'.executed
      ensures Settled(s', a)
    {
      assert Settled(s, a);
    }
  }

  lemma PublishKeepsBooks(s: System, t: nat, restored: nat)
    requires Inv(s, restored) && s.At(t).Persisted?
    ensures Books(Do(s, Publish(t)), restored)
  {
    var s' := Do(s, Publish(t));
    assert Executing(s.At(t)) && t == s.drainer && s.draining && AtPc(s, s.At(t));
    assert s'.engine == s.engine && s'.At(t) == Finished(s.At(t).act);
    SameBooksSettled(s, s');
    forall r: nat | Ended(s'.WritesOf(r))
      ensures EndQueued(s', r)
    {
      assert EndQueued(s, r);
    }
  }

  /** The books when nothing is in flight. */
  ghost predicate QuietBooks(s: System, restored: nat) {
    && (forall r: nat :: GoodWrites(s.WritesOf(r), s.engine.RowOf(r), r < restored))
    && (forall r: nat :: s.WritesOf(r) != [] && s.WritesOf(r)[0].Recorded? ==> r in s.failed)
    && (forall r: nat :: Ended(s.WritesOf(r)) ==> exists a :: a in s.executed && a.ref == r && a.status.Cleared?)
    && (forall a :: a in s.executed ==> Settled(s, a))
  }

  /** Taking the next action, or leaving, from a state with nothing in flight. */
  lemma TakeNextKeepsBooks(s: System, t: nat, restored: nat)
    requires QuietBooks(s, restored)
    ensures Books(TakeNext(s, t), restored)
  {
    var s' := TakeNext(s, t);
    assert forall r: nat :: s'.WritesOf(r) == s.WritesOf(r) && s'.engine.RowOf(r) == s.engine.RowOf(r);
    assert s'.draining ==> s'.drainer == t && s'.At(t).Popped?;
    assert forall a :: Settled(s', a) == Settled(s, a);
    forall r: nat | Ended(s'.WritesOf(r))
      ensures EndQueued(s', r)
    {
      var a :| a in s.executed && a.ref == r && a.status.Cleared?;
      assert a in s'.executed;
    }
  }

  lemma FinishQuietsBooks(s: System, restored: nat)
    requires Books(s, restored) && s.draining && s.At(s.drainer).Finished?
    ensures QuietBooks(s.(executed := s.executed + [s.At(s.drainer).act]), restored)
  {
    var act := s.At(s.drainer).act;
    assert AtPc(s, s.At(s.drainer));
    var r := s.(executed := s.executed + [act]);
    assert forall u: nat :: r.WritesOf(u) == s.WritesOf(u) && RowId(s, u) == r.engine.RowOf(u);
    assert forall a :: Settled(r, a) == Settled(s, a);
    forall u: nat | Ended(r.WritesOf(u))
      ensures exists a :: a in r.executed && a.ref == u && a.status.Cleared?
    {
      assert EndQueued(s, u);
      if a :| a in s.executed && a.ref == u && a.status.Cleared? {
        assert a in r.executed;
      } else {
        assert act in r.executed;
      }
    }
  }

  lemma NextKeepsBooks(s: System, t: nat, restored: nat)
    requires Inv(s, restored) && s.At(t).Finished?
    ensures Books(Do(s, Next(t)), restored)
  {
    assert Executing(s.At(t)) && t == s.drainer && s.draining;
    FinishQuietsBooks(s, restored);
    TakeNextKeepsBooks(s.(executed := s.executed + [s.At(t).act]), t, restored);
  }

  lemma IdleBooksAreQuiet(s: System, restored: nat)
    requires Books(s, restored) && !s.draining
    ensures QuietBooks(s, restored)
  {
    assert forall r: nat :: RowId(s, r) == s.engine.RowOf(r);
    forall r: nat | Ended(s.WritesOf(r))
      ensures exists a :: a in s.executed && a.ref == r && a.status.Cleared?
    {
      assert EndQueued(s, r);
    }
  }

  lemma BusyCallKeepsBooks(s: System, t: nat, restored: nat)
    requires Books(s, restored) && s.draining && t != s.drainer
    ensures Books(s.Go(t, Idle), restored)
  {
    var s' := s.Go(t, Idle);
    assert s'.At(s.drainer) == s.At(s.drainer);
    SameBooksSettled(s, s');
    forall r: nat | Ended(s'.WritesOf(r))
      ensures EndQueued(s', r)
    {
      assert EndQueued(s, r);
    }
  }

  lemma CallKeepsBooks(s: System, t: nat, restored: nat)
    requires Inv(s, restored) && s.At(t).WillDrain?
    ensures Books(Do(s, CallDrain(t)), restored)
  {
    if s.draining {
      assert t != s.drainer;
      BusyCallKeepsBooks(s, t, restored);
    } else {
      IdleBooksAreQuiet(s, restored);
      TakeNextKeepsBooks(s, t, restored);
    }
  }

  lemma {:induction false} StepsKeepRows(e: Engine, ms: seq<Micro>)
    ensures e.rows <= Steps(e, ms).rows && forall i :: |e.rows| <= i < |Steps(e, ms).rows| ==> Steps(e, ms).rows[i] == 0
  {
    if |ms| > 0 {
      StepsKeepRows(e, ms[..|ms| - 1]);
    }
  }

  lemma RowsStay(e: Engine, ms: seq<Micro>, ref: nat)
    ensures Steps(e, ms).RowOf(ref) == e.RowOf(ref)
  {
    StepsKeepRows(e, ms);
    SameRows(e, Steps(e, ms));
  }

  lemma SectionKeepsRows(e: Engine, ev: Event)
    ensures forall r: nat :: Section(e, ev).RowOf(r) == e.RowOf(r)
  {
    var pre, ms := SectionShape(e, ev);
    StepsKeepRows(pre, ms);
    SameRows(e, Section(e, ev));
  }

  lemma SameRows(e: Engine, e': Engine)
    requires e.rows <= e'.rows && forall i :: |e.rows| <= i < |e'.rows| ==> e'.rows[i] == 0
    ensures forall r: nat :: e'.RowOf(r) == e.RowOf(r)
  {
  }

  lemma SectionOfBooks(s: System, t: nat, e: Engine, pc: Pc, restored: nat)
    requires Inv(s, restored) && s.At(t).Idle? && !Executing(pc)
    requires forall r: nat :: e.RowOf(r) == s.engine.RowOf(r)
    ensures Books(s.(engine := e).Go(t, pc), restored)
  {
    var s' := s.(engine := e).Go(t, pc);
    assert s.draining ==> Executing(s.At(s.drainer)) && t != s.drainer;
    assert s.draining ==> s'.At(s.drainer) == s.At(s.drainer);
    SameBooksSettled(s, s');
    forall r: nat | Ended(s'.WritesOf(r))
      ensures EndQueued(s', r)
    {
      assert EndQueued(s, r);
    }
  }

  lemma MoveKeepsBooks(s: System, mv: Move, restored: nat)
    requires Inv(s, restored) && Enabled(s, mv)
    ensures Books(Do(s, mv), restored)
  {
    match mv {
      case Lock(t, ev) =>
        SectionKeepsRows(s.engine, ev);
        SectionOfBooks(s, t, Section(s.engine, ev), if CallsDrain(s.engine, ev) then WillDrain else Idle, restored);
      case CallDrain(t) => CallKeepsBooks(s, t, restored);
      case ReadRef(t) => ReadKeepsBooks(s, t, restored);
      case StoreAnswers(t, ok, id) =>
        if ok { SuccessKeepsBooks(s, t, id, restored); } else { FailureKeepsBooks(s, t, id, restored); }
      case WriteRef(t) => WriteKeepsBooks(s, t, restored);
      case Publish(t) => PublishKeepsBooks(s, t, restored);
      case Next(t) => NextKeepsBooks(s, t, restored);
    }
  }

  // ------------------------------------------------------------ every run

  lemma SameQueueKeepsOrderly(e: Engine, e': Engine, restored: nat)
    requires Orderly(e, restored)
    requires e'.tracks == e.tracks && e'.defs == e.defs && |e'.rows| == |e.rows| && e'.Queued() == e.Queued()
    ensures Orderly(e', restored)
  {
  }

  lemma MoveKeepsInv(s: System, mv: Move, restored: nat)
    requires Inv(s, restored) && Enabled(s, mv)
    ensures Inv(Do(s, mv), restored)
  {
    MoveKeepsProtocol(s, mv);
    MoveKeepsBooks(s, mv, restored);
    if mv.Lock? {
      SectionKeepsOrderly(s.engine, mv.ev, restored);
    } else {
      OnlySectionsChangeTheQueue(s, mv);
      IoKeepsTracks(s, mv);
      SameQueueKeepsOrderly(s.engine, Do(s, mv).engine, restored);
    }
  }

  lemma IoKeepsTracks(s: System, mv: Move)
    requires Enabled(s, mv) && !mv.Lock?
    ensures var e, e' := s.engine, Do(s, mv).engine;
            e'.tracks == e.tracks && e'.defs == e.defs && |e'.rows| == |e.rows|
  {
  }

  lemma {:induction false} EveryRunKeepsInv(s: System, restored: nat, moves: seq<Move>)
    requires Initial(s, restored) && IsRun(s, moves)
    ensures Inv(After(s, moves), restored)
  {
    if |moves| == 0 {
      assert s.InFlight() == [];
      assert forall r: nat :: RowId(s, r) == s.engine.RowOf(r);
    } else {
      EveryRunKeepsInv(s, restored, moves[..|moves| - 1]);
      MoveKeepsInv(After(s, moves[..|moves| - 1]), moves[|moves| - 1], restored);
    }
  }

  /** In every run, with any store failures: the actions of an occurrence end with
      their one CLEARED; its successful writes are none, its row opened, its row
      opened and closed, or one row recorded closed (for a restored alarm: its row
      closed, at most once). */
  lemma OccurrenceInEveryRun(s: System, restored: nat, moves: seq<Move>, r: nat)
    requires Initial(s, restored) && IsRun(s, moves)
    ensures var z := After(s, moves);
            && ClearedIsLast(z.engine.Queued()) && Announced(z.engine.Queued(), restored)
            && GoodWrites(z.WritesOf(r), RowId(z, r), r < restored)
            && (forall a :: a in z.executed && a.ref == r && a.status.Cleared? && z.hasStore && r !in z.failed ==>
                  z.WritesOf(r) == if r < restored then [Marked(RowId(z, r))]
                    else [Opened(RowId(z, r)), Marked(RowId(z, r))])
  {
    EveryRunKeepsInv(s, restored, moves);
    var z := After(s, moves);
    assert GoodWrites(z.WritesOf(r), RowId(z, r), r < restored);
    forall a | a in z.executed && a.ref == r && a.status.Cleared? && z.hasStore && r !in z.failed
      ensures z.WritesOf(r)
              == if r < restored then [Marked(RowId(z, r))] else [Opened(RowId(z, r)), Marked(RowId(z, r))]
    {
      assert Settled(z, a);
    }
  }

  /** A row id, once in the reference, never changes. */
  lemma RowIdIsSetOnce(s: System, mv: Move, restored: nat, r: nat)
    requires Inv(s, restored) && Enabled(s, mv) && s.engine.RowOf(r) != 0
    ensures Do(s, mv).engine.RowOf(r) == s.engine.RowOf(r)
  {
    match mv {
      case Lock(t, ev) => SectionKeepsRows(s.engine, ev);
      case WriteRef(t) =>
        assert Executing(s.At(t)) && t == s.drainer && s.draining;
        assert AtPc(s, s.At(t));
      case _ =>
    }
  }
}
