/** Goroutines, the queue and the store.

The state machine of the whole manager: any number of goroutines run locked
sections and call drainIO; one of them at a time executes the queued actions with
the lock released, against a store whose every call may fail. A move is one stretch
between two points where the lock changes hands or the store answers.

Proved over every run: at most one goroutine executes; nothing queued is lost,
duplicated, reordered or stranded; an occurrence's row id is set at most once; and
each occurrence leaves in the store exactly the writes the design promises. */
module AlarmDrain {
  import opened AlarmRules
  import opened AlarmEngine
  import opened AlarmOccurrences

  /** A successful store call. */
  datatype Write =
    | Opened(id: int)    // InsertActive returned this row
    | Marked(id: int)    // MarkCleared closed this row
    | Recorded(id: int)  // InsertCleared wrote this already-closed row

  /** Where a goroutine stands. Past WillDrain it is inside drainIO. */
  datatype Pc =
    | Idle
    | WillDrain                           // section done, drainIO still to be called
    | Popped(act: Action)                 // taken from the queue, lock released
    | Inserting(act: Action)              // InsertActive is running
    | Marking(act: Action, id: int)       // MarkCleared is running
    | Recording(act: Action)              // InsertCleared is running
    | Storing(act: Action, id: int)       // the row exists, its id not yet in the reference
    | Persisted(act: Action)              // only the notification is left
    | Finished(act: Action)

  predicate Executing(pc: Pc) { !pc.Idle? && !pc.WillDrain? }

  /** `writes[r]` are the successful writes of occurrence r, `failed` the occurrences
      with a failed store call; `executed` and `notices` the actions carried out and
      published, in order. `drainer` names the goroutine that set the draining flag. */
  datatype System = System(
    engine: Engine, draining: bool, threads: map<nat, Pc>, hasStore: bool,
    executed: seq<Action>, notices: seq<Action>, writes: map<nat, seq<Write>>, failed: set<nat>, drainer: nat)
  {
    function At(t: nat): Pc { if t in threads then threads[t] else Idle }
    function WritesOf(r: nat): seq<Write> { if r in writes then writes[r] else [] }
    function Go(t: nat, pc: Pc): System { this.(threads := threads[t := pc]) }
    function Wrote(r: nat, w: Write): System { this.(writes := writes[r := WritesOf(r) + [w]]) }

    /** The action being executed, if any. */
    function InFlight(): seq<Action> {
      if draining && Executing(At(drainer)) then [At(drainer).act] else []
    }
  }

  datatype Move =
    | Lock(t: nat, ev: Event)                     // a locked section
    | CallDrain(t: nat)
    | ReadRef(t: nat)                             // persistActive / persistCleared look at the row id
    | StoreAnswers(t: nat, ok: bool, id: int)
    | WriteRef(t: nat)
    | Publish(t: nat)
    | Next(t: nat)                                // back under the lock, for the next action

  ghost predicate Enabled(s: System, mv: Move) {
    match mv
    case Lock(t, ev) => s.At(t).Idle? && Possible(s.engine, ev)
    case CallDrain(t) => s.At(t).WillDrain?
    case ReadRef(t) => s.At(t).Popped?
    case StoreAnswers(t, ok, id) => id > 0 && (s.At(t).Inserting? || s.At(t).Marking? || s.At(t).Recording?)
    case WriteRef(t) => s.At(t).Storing?
    case Publish(t) => s.At(t).Persisted?
    case Next(t) => s.At(t).Finished?
  }

  /** A section that returns early does not call drainIO. */
  predicate CallsDrain(e: Engine, ev: Event) {
    match ev
    case Sample(tag, reading, quality, _, _, _) =>
      |DefsOf(e.defs, tag)| != 0 && quality == QUALITY_GOOD && reading.Numeric?
    case Batch(tag, points, quality, _) =>
      |points| != 0 && |DefsOf(e.defs, tag)| != 0 && quality == QUALITY_GOOD
    case _ => true
  }

  /** Under the lock, draining: the next action, or leave. */
  function TakeNext(s: System, t: nat): System {
    if |s.engine.pending| == 0 then s.(draining := false).Go(t, Idle)
    else
      var act := s.engine.pending[0];
      s.(engine := s.engine.(pending := s.engine.pending[1..], popped := s.engine.popped + [act]),
         draining := true, drainer := t).Go(t, Popped(act))
  }

  function SetRow(e: Engine, r: nat, id: int): Engine {
    if r < |e.rows| then e.(rows := e.rows[r := id]) else e
  }

  ghost function Do(s: System, mv: Move): System {
    if !Enabled(s, mv) then s else
    match mv
    case Lock(t, ev) =>
      s.(engine := Section(s.engine, ev)).Go(t, if CallsDrain(s.engine, ev) then WillDrain else Idle)
    case CallDrain(t) => if s.draining then s.Go(t, Idle) else TakeNext(s, t)
    case ReadRef(t) =>
      var act := s.At(t).act;
      var id := s.engine.RowOf(act.ref);
      s.Go(t, if !s.hasStore then Persisted(act)
              else if act.status.Active? then (if id > 0 then Persisted(act) else Inserting(act))
              else if id > 0 then Marking(act, id) else Recording(act))
    case StoreAnswers(t, ok, id) =>
      var pc := s.At(t);
      if !ok then s.(failed := s.failed + {pc.act.ref}).Go(t, Persisted(pc.act))
      else if pc.Marking? then s.Wrote(pc.act.ref, Marked(pc.id)).Go(t, Persisted(pc.act))
      else s.Wrote(pc.act.ref, if pc.Inserting? then Opened(id) else Recorded(id)).Go(t, Storing(pc.act, id))
    case WriteRef(t) =>
      var pc := s.At(t);
      s.(engine := SetRow(s.engine, pc.act.ref, pc.id)).Go(t, Persisted(pc.act))
    case Publish(t) =>
      var act := s.At(t).act;
      s.(notices := if act.notify then s.notices + [act] else s.notices).Go(t, Finished(act))
    case Next(t) => TakeNext(s.(executed := s.executed + [s.At(t).act]), t)
  }

  ghost function After(s: System, moves: seq<Move>): System {
    if |moves| == 0 then s else Do(After(s, moves[..|moves| - 1]), moves[|moves| - 1])
  }

  /** The runs of the system. */
  ghost predicate IsRun(s: System, moves: seq<Move>) {
    |moves| > 0 ==>
      && IsRun(s, moves[..|moves| - 1])
      && Enabled(After(s, moves[..|moves| - 1]), moves[|moves| - 1])
  }

  /** The actions the operator is told about, in order. */
  function Notifying(q: seq<Action>): seq<Action> {
    if |q| == 0 then [] else Notifying(q[..|q| - 1]) + if q[|q| - 1].notify then [q[|q| - 1]] else []
  }

  // ---------------------------------------------------------- the protocol

  /** One drainer, and it is the one holding the flag. */
  ghost predicate OneDrainer(s: System) {
    forall t :: Executing(s.At(t)) <==> s.draining && t == s.drainer
  }

  /** The drainer owns the oldest unfinished action; nothing else was popped. */
  ghost predicate FifoHistory(s: System) {
    && s.engine.popped == s.executed + s.InFlight()
    && s.notices == Notifying(if s.draining && s.At(s.drainer).Finished? then s.engine.popped else s.executed)
  }

  /** Work in the queue has somebody bound to do it. */
  ghost predicate NobodyStranded(s: System) {
    |s.engine.pending| > 0 ==> s.draining || exists t :: s.At(t).WillDrain?
  }

  ghost predicate Protocol(s: System) { OneDrainer(s) && FifoHistory(s) && NobodyStranded(s) }

  lemma {:induction false} NotifyingSnoc(q: seq<Action>, a: Action)
    ensures Notifying(q + [a]) == Notifying(q) + if a.notify then [a] else []
  {
    assert (q + [a])[..|q|] == q;
  }

  lemma TakeNextKeepsProtocol(s: System, t: nat)
    requires forall u :: u != t ==> !Executing(s.At(u))
    requires s.engine.popped == s.executed && s.notices == Notifying(s.executed)
    ensures Protocol(TakeNext(s, t))
  {
    var s' := TakeNext(s, t);
    assert s'.At(t) == if |s.engine.pending| == 0 then Idle else Popped(s.engine.pending[0]);
    assert forall u :: u != t ==> s'.At(u) == s.At(u);
    if |s.engine.pending| == 0 {
      assert s'.InFlight() == [];
    }
  }

  /** A section that returns early leaves the queue as it was. */
  lemma EarlyReturnQueuesNothing(e: Engine, ev: Event)
    requires !CallsDrain(e, ev)
    ensures Section(e, ev).pending == e.pending
  {
  }

  lemma SectionKeepsPopped(e: Engine, ev: Event)
    ensures Section(e, ev).popped == e.popped
  {
    var pre, ms := SectionShape(e, ev);
    StepsKeepPopped(pre, ms);
  }

  lemma {:induction false} StepsKeepPopped(e: Engine, ms: seq<Micro>)
    ensures Steps(e, ms).popped == e.popped
  {
    if |ms| > 0 {
      StepsKeepPopped(e, ms[..|ms| - 1]);
    }
  }

  lemma SectionOfProtocol(s: System, t: nat, e: Engine, pc: Pc)
    requires Protocol(s) && s.At(t).Idle? && e.popped == s.engine.popped
    requires pc.WillDrain? || (pc.Idle? && e.pending == s.engine.pending)
    ensures Protocol(s.(engine := e).Go(t, pc))
  {
    var s' := s.(engine := e).Go(t, pc);
    assert forall u :: s'.At(u) == if u == t then pc else s.At(u);
    if |e.pending| > 0 && !s.draining && pc.Idle? {
      var u :| s.At(u).WillDrain?;
      assert s'.At(u).WillDrain?;
    }
  }

  lemma LockKeepsProtocol(s: System, t: nat, ev: Event)
    requires Protocol(s) && Enabled(s, Lock(t, ev))
    ensures Protocol(Do(s, Lock(t, ev)))
  {
    SectionKeepsPopped(s.engine, ev);
    if !CallsDrain(s.engine, ev) {
      EarlyReturnQueuesNothing(s.engine, ev);
    }
    SectionOfProtocol(s, t, Section(s.engine, ev), if CallsDrain(s.engine, ev) then WillDrain else Idle);
  }

  /** The drainer moves on with the same action. */
  ghost predicate StaysInFlight(s: System, s': System, t: nat) {
    && Executing(s.At(t)) && Executing(s'.At(t)) && s'.At(t).act == s.At(t).act
    && (forall u :: u != t ==> s'.At(u) == s.At(u))
    && s'.draining == s.draining && s'.drainer == s.drainer && s'.executed == s.executed
    && s'.engine.pending == s.engine.pending && s'.engine.popped == s.engine.popped
    && !s.At(t).Finished?
    && s'.notices == (if s'.At(t).Finished? && s.At(t).act.notify then s.notices + [s.At(t).act] else s.notices)
  }

  lemma InFlightKeepsProtocol(s: System, s': System, t: nat)
    requires Protocol(s) && StaysInFlight(s, s', t)
    ensures Protocol(s') && s'.InFlight() == s.InFlight()
  {
    NotifyingSnoc(s.executed, s.At(t).act);
    assert s.drainer == t;
    if exists u :: s.At(u).WillDrain? {
      var u :| s.At(u).WillDrain?;
      assert s'.At(u).WillDrain?;
    }
  }

  lemma IoStaysInFlight(s: System, mv: Move)
    requires Enabled(s, mv) && (mv.ReadRef? || mv.StoreAnswers? || mv.WriteRef? || mv.Publish?)
    ensures StaysInFlight(s, Do(s, mv), mv.t)
  {
  }

  lemma LeaveKeepsProtocol(s: System, t: nat)
    requires Protocol(s) && s.At(t).WillDrain? && s.draining
    ensures Protocol(s.Go(t, Idle))
  {
    var s' := s.Go(t, Idle);
    assert forall u :: s'.At(u) == if u == t then Idle else s.At(u);
  }

  lemma NextKeepsProtocol(s: System, t: nat)
    requires Protocol(s) && s.At(t).Finished?
    ensures Protocol(TakeNext(s.(executed := s.executed + [s.At(t).act]), t))
  {
    assert Executing(s.At(t)) && t == s.drainer && s.draining;
    var r := s.(executed := s.executed + [s.At(t).act]);
    assert forall u :: r.At(u) == s.At(u);
    TakeNextKeepsProtocol(r, t);
  }

  /** Draining neither loses, duplicates nor reorders: only a section changes what
      has been queued, and then only what is still pending. */
  lemma OnlySectionsChangeTheQueue(s: System, mv: Move)
    requires Protocol(s) && Enabled(s, mv)
    ensures !mv.Lock? ==> Do(s, mv).engine.Queued() == s.engine.Queued()
    ensures s.engine.popped <= Do(s, mv).engine.popped
  {
    match mv {
      case Lock(t, ev) => SectionKeepsPopped(s.engine, ev);
      case CallDrain(t) =>
        if !s.draining {
          TakingKeepsQueue(s, t);
        }
      case Next(t) => TakingKeepsQueue(s.(executed := s.executed + [s.At(t).act]), t);
      case _ => IoStaysInFlight(s, mv);
    }
  }

  lemma TakingKeepsQueue(s: System, t: nat)
    ensures TakeNext(s, t).engine.Queued() == s.engine.Queued() && s.engine.popped <= TakeNext(s, t).engine.popped
  {
    if |s.engine.pending| > 0 {
      assert s.engine.pending == [s.engine.pending[0]] + s.engine.pending[1..];
    }
  }

  lemma MoveKeepsProtocol(s: System, mv: Move)
    requires Protocol(s) && Enabled(s, mv)
    ensures Protocol(Do(s, mv))
  {
    match mv {
      case Lock(t, ev) => LockKeepsProtocol(s, t, ev);
      case CallDrain(t) =>
        if s.draining {
          LeaveKeepsProtocol(s, t);
        } else {
          TakeNextKeepsProtocol(s, t);
        }
      case Next(t) => NextKeepsProtocol(s, t);
      case _ =>
        IoStaysInFlight(s, mv);
        InFlightKeepsProtocol(s, Do(s, mv), mv.t);
    }
  }

  /** At the start nothing runs and nothing is queued. The alarms tracked are those loaded
      from the database, fired, and the first `restored` event references hold their rows. */
  ghost predicate Initial(s: System, restored: nat) {
    && !s.draining && s.threads == map[] && s.writes == map[] && s.failed == {}
    && s.executed == [] && s.notices == [] && s.engine.pending == [] && s.engine.popped == []
    && Orderly(s.engine, restored) && |s.engine.rows| == restored
    && (forall r :: 0 <= r < restored ==> s.engine.rows[r] > 0)
    && forall k :: k in s.engine.tracks ==> s.engine.tracks[k].triggered
  }

  /** In every run: at most one goroutine executes; what was executed, what is in
      flight and what is pending make up the queue history, in order; callbacks come
      in that order too; and with nobody draining or about to, nothing is pending. */
  lemma {:induction false} DrainProtocol(s: System, restored: nat, moves: seq<Move>)
    requires Initial(s, restored) && IsRun(s, moves)
    ensures var z := After(s, moves);
            && Protocol(z)
            && (forall t, u :: Executing(z.At(t)) && Executing(z.At(u)) ==> t == u)
            && z.engine.Queued() == z.executed + z.InFlight() + z.engine.pending
            && (!z.draining && (forall t :: !z.At(t).WillDrain?) ==> z.engine.pending == [])
  {
    if |moves| == 0 {
      assert s.InFlight() == [];
    } else {
      DrainProtocol(s, restored, moves[..|moves| - 1]);
      MoveKeepsProtocol(After(s, moves[..|moves| - 1]), moves[|moves| - 1]);
    }
  }
}
