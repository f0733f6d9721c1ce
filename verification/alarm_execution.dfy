/** What carrying out one action does, from the queue to the operator.

Whatever other goroutines do meanwhile, the store is called at most once, for the write the action and the row
id call for; the row id it returns is kept; and the operator is told of the action whether the store answered
or failed. */
module AlarmExecution {
  import opened AlarmRules
  import opened AlarmEngine
  import opened AlarmOccurrences
  import opened AlarmDrain
  import opened AlarmWrites

  /** What the store answered goroutine t. */
  function Answers(moves: seq<Move>, t: nat): seq<Move> {
    if |moves| == 0 then []
    else
      var last := moves[|moves| - 1];
      Answers(moves[..|moves| - 1], t) + if last.StoreAnswers? && last.t == t then [last] else []
  }

  predicate MovesOn(mv: Move, t: nat) { mv.Next? && mv.t == t }

  /** The store is called unless there is none or the ACTIVE has its row already. */
  predicate NeedsStore(s: System, a: Action) { s.hasStore && (a.status.Cleared? || s.engine.RowOf(a.ref) <= 0) }

  /** The write a successful call makes: an ACTIVE opens its row; a CLEARED closes the row there is, or is
      recorded with its own. */
  function WriteOf(s: System, a: Action, id: int): Write {
    if a.status.Active? then Opened(id)
    else if s.engine.RowOf(a.ref) > 0 then Marked(s.engine.RowOf(a.ref))
    else Recorded(id)
  }

  function RowAfter(s: System, a: Action, id: int): int {
    if s.engine.RowOf(a.ref) > 0 then s.engine.RowOf(a.ref) else id
  }

  /** The occurrence's writes, row id and failures are as they were. */
  ghost predicate Untouched(s: System, z: System, r: nat) {
    && z.WritesOf(r) == s.WritesOf(r) && z.engine.RowOf(r) == s.engine.RowOf(r) && z.hasStore == s.hasStore
    && (r in z.failed <==> r in s.failed)
  }

  /** The store's answers are what the action calls for, and have been acted on. */
  ghost predicate IsStored(s: System, z: System, a: Action, t: nat, answers: seq<Move>) {
    if !NeedsStore(s, a) then answers == [] && Untouched(s, z, a.ref)
    else
      && |answers| == 1 && answers[0].StoreAnswers?
      && if answers[0].ok then
           && z.WritesOf(a.ref) == s.WritesOf(a.ref) + [WriteOf(s, a, answers[0].id)]
           && z.engine.RowOf(a.ref) == RowAfter(s, a, answers[0].id)
           && (a.ref in z.failed <==> a.ref in s.failed)
         else
           && z.WritesOf(a.ref) == s.WritesOf(a.ref) && z.engine.RowOf(a.ref) == s.engine.RowOf(a.ref)
           && a.ref in z.failed
  }

  /** How far goroutine t has come with the action it took in s. */
  ghost predicate Underway(s: System, z: System, a: Action, t: nat, answers: seq<Move>) {
    var pc, row := z.At(t), s.engine.RowOf(a.ref);
    && Executing(pc) && pc.act == a
    && (pc.Finished? || z.notices == s.notices)
    && match pc
       case Popped(_) => answers == [] && Untouched(s, z, a.ref)
       case Inserting(_) => NeedsStore(s, a) && a.status.Active? && answers == [] && Untouched(s, z, a.ref)
       case Marking(_, id) =>
         NeedsStore(s, a) && a.status.Cleared? && id == row > 0 && answers == [] && Untouched(s, z, a.ref)
       case Recording(_) =>
         NeedsStore(s, a) && a.status.Cleared? && row <= 0 && answers == [] && Untouched(s, z, a.ref)
       case Storing(_, id) =>
         && NeedsStore(s, a) && row <= 0 && answers == [StoreAnswers(t, true, id)]
         && z.WritesOf(a.ref) == s.WritesOf(a.ref) + [WriteOf(s, a, id)]
         && z.engine.RowOf(a.ref) == row && (a.ref in z.failed <==> a.ref in s.failed)
       case Persisted(_) => IsStored(s, z, a, t, answers)
       case Finished(_) =>
         IsStored(s, z, a, t, answers) && z.notices == s.notices + if a.notify then [a] else []
  }

  /** A move of another goroutine. */
  lemma OthersLeaveItAlone(z: System, mv: Move, t: nat, restored: nat)
    requires Inv(z, restored) && Enabled(z, mv) && Executing(z.At(t)) && mv.t != t
    ensures var z' := Do(z, mv);
            && z'.At(t) == z.At(t) && z'.notices == z.notices && z'.writes == z.writes && z'.failed == z.failed
            && z'.hasStore == z.hasStore && forall r: nat :: z'.engine.RowOf(r) == z.engine.RowOf(r)
  {
    assert z.draining && t == z.drainer && !Executing(z.At(mv.t));
    match mv {
      case Lock(_, ev) => SectionKeepsRows(z.engine, ev);
      case _ =>
    }
  }

  lemma OthersKeepUnderway(s: System, z: System, z': System, a: Action, t: nat, answers: seq<Move>)
    requires Underway(s, z, a, t, answers)
    requires z'.At(t) == z.At(t) && z'.notices == z.notices && z'.writes == z.writes && z'.failed == z.failed
    requires z'.hasStore == z.hasStore && forall r: nat :: z'.engine.RowOf(r) == z.engine.RowOf(r)
    ensures Underway(s, z', a, t, answers)
  {
  }

  lemma ReadGoesOn(s: System, z: System, a: Action, t: nat)
    requires Underway(s, z, a, t, []) && z.At(t).Popped?
    ensures Underway(s, Do(z, ReadRef(t)), a, t, [])
  {
  }

  lemma AnswerGoesOn(s: System, z: System, a: Action, t: nat, ok: bool, id: int)
    requires Underway(s, z, a, t, []) && Enabled(z, StoreAnswers(t, ok, id))
    ensures Underway(s, Do(z, StoreAnswers(t, ok, id)), a, t, [StoreAnswers(t, ok, id)])
  {
  }

  lemma WriteGoesOn(s: System, z: System, a: Action, t: nat, answers: seq<Move>)
    requires Underway(s, z, a, t, answers) && z.At(t).Storing? && a.ref < |z.engine.rows|
    ensures Underway(s, Do(z, WriteRef(t)), a, t, answers)
  {
  }

  lemma PublishGoesOn(s: System, z: System, a: Action, t: nat, answers: seq<Move>)
    requires Underway(s, z, a, t, answers) && z.At(t).Persisted?
    ensures Underway(s, Do(z, Publish(t)), a, t, answers)
  {
  }

  lemma OwnMoveGoesOn(s: System, z: System, mv: Move, a: Action, answers: seq<Move>)
    requires Underway(s, z, a, mv.t, answers) && Enabled(z, mv) && !mv.Next? && a.ref < |z.engine.rows|
    ensures Underway(s, Do(z, mv), a, mv.t, answers + if mv.StoreAnswers? then [mv] else [])
  {
    assert answers + [] == answers;
    match mv {
      case ReadRef(t) => ReadGoesOn(s, z, a, t);
      case StoreAnswers(t, ok, id) => AnswerGoesOn(s, z, a, t, ok, id);
      case WriteRef(t) => WriteGoesOn(s, z, a, t, answers);
      case Publish(t) => PublishGoesOn(s, z, a, t, answers);
      case _ =>
    }
  }

  /** In every run, with any store failures and any other goroutines, until t takes the next action. */
  lemma {:induction false} ActionIsCarriedOut(s: System, t: nat, moves: seq<Move>, restored: nat)
    requires Inv(s, restored) && s.At(t).Popped? && IsRun(s, moves)
    requires forall i :: 0 <= i < |moves| ==> !MovesOn(moves[i], t)
    ensures var z := After(s, moves);
            Inv(z, restored) && Underway(s, z, s.At(t).act, t, Answers(moves, t))
  {
    if |moves| > 0 {
      var init, mv, a := moves[..|moves| - 1], moves[|moves| - 1], s.At(t).act;
      var z := After(s, init);
      ActionIsCarriedOut(s, t, init, restored);
      MoveKeepsInv(z, mv, restored);
      assert !MovesOn(moves[|moves| - 1], t);
      if mv.t == t {
        RefIsThere(z, t, restored);
        OwnMoveGoesOn(s, z, mv, a, Answers(init, t));
      } else {
        OthersLeaveItAlone(z, mv, t, restored);
        OthersKeepUnderway(s, z, Do(z, mv), a, t, Answers(init, t));
        assert Answers(init, t) + [] == Answers(init, t);
      }
    }
  }

  lemma RefIsThere(z: System, t: nat, restored: nat)
    requires Inv(z, restored) && Executing(z.At(t))
    ensures z.At(t).act.ref < |z.engine.rows|
  {
    InFlightIndex(z);
    assert z.At(t).act in z.engine.Queued();
  }


  /** Once it is through: the store answered as often as called for, what it wrote and returned is kept, and the
      operator was told exactly when the action says so, also after a failed call. */
  lemma ActionIsDone(s: System, t: nat, moves: seq<Move>, restored: nat)
    requires Inv(s, restored) && s.At(t).Popped? && IsRun(s, moves) && After(s, moves).At(t).Finished?
    requires forall i :: 0 <= i < |moves| ==> !MovesOn(moves[i], t)
    ensures var z, a := After(s, moves), s.At(t).act;
            && IsStored(s, z, a, t, Answers(moves, t))
            && z.notices == s.notices + if a.notify then [a] else []
  {
    ActionIsCarriedOut(s, t, moves, restored);
  }
}
