/** What a batch of past readings does to one rule, in limits, values and nanoseconds. */
module AlarmBatches {
  import opened Options
  import opened AlarmRules
  import opened AlarmEngine
  import opened AlarmFrames
  import opened AlarmNotify
  import opened AlarmEarly
  import opened AlarmEnds
  import opened AlarmNumbers
  import Replay = AlarmReplay
  import Occurrences = AlarmOccurrences
  import Spans = AlarmSpans
  import Told = AlarmTold
  import Writes = AlarmWrites

  /** What a reading means to the rule. */
  function NumberMark(def: Definition, at: Time, v: Value): Spans.Mark {
    Spans.Mark(at, Beyond(def, v), !Beyond(def, v) && WellWithin(def, v))
  }

  /** What the usable readings mean to it, in their order. */
  function NumberMarks(def: Definition, points: seq<Point>): seq<Spans.Mark> {
    if |points| == 0 then []
    else
      var p := points[|points| - 1];
      NumberMarks(def, points[..|points| - 1])
      + if p.reading.Numeric? then [NumberMark(def, p.at, p.reading.v)] else []
  }

  lemma {:induction false} MarksInNumbers(def: Definition, points: seq<Point>)
    requires !IsHealth(def.alarmType)
    ensures MarksOf(def, points) == NumberMarks(def, points)
  {
    if |points| > 0 {
      MarksInNumbers(def, points[..|points| - 1]);
      if points[|points| - 1].reading.Numeric? {
        TestsInNumbers(def, points[|points| - 1].reading.v);
      }
    }
  }

  // ------------------------------------------------------ an untracked rule

  /** The rule's state after a batch. */
  lemma BatchState(e: Engine, tag: int, def: Definition, points: seq<Point>, wall: Time)
    requires RefsOwned(e) && Replay.ValueRule(e, tag, def) && |points| > 0
    ensures var k, ms := Key(tag, def.id), NumberMarks(def, SortByTime(points));
            StateOf(EvaluateSeries(e, tag, points, 192, wall).TrackOf(k))
            == Spans.RunFrom(def.delaySeconds * 1_000_000_000, StateOf(e.TrackOf(k)), ms)
  {
    var sorted := SortByTime(points);
    MarksInNumbers(def, sorted);
    SeriesLives(e, BatchAlive(e, tag, sorted, wall), tag, def, sorted, KnownRules(e, tag), wall);
  }

  /** Readings m back to j are beyond the limit in a row for the delay, and none after m is well within. */
  ghost predicate LeavesOpen(delay: int, ms: seq<Spans.Mark>, j: int, m: int) {
    Spans.Due(delay, ms, j, m) && Spans.Quiet(ms, m, |ms|)
  }

  /** From untracked, over any batch in any order: the rule is fired afterwards exactly when some readings
      in a row were beyond the limit for the delay and none after them is well within it; it is under
      track without being fired exactly when it is not, and the last reading is beyond. */
  lemma BatchRaisesIff(e: Engine, tag: int, def: Definition, points: seq<Point>, wall: Time)
    requires RefsOwned(e) && Replay.ValueRule(e, tag, def) && Key(tag, def.id) !in e.tracks && |points| > 0
    ensures var k, ms := Key(tag, def.id), NumberMarks(def, SortByTime(points));
            var after, delay := EvaluateSeries(e, tag, points, 192, wall).TrackOf(k), def.delaySeconds * 1_000_000_000;
            && ((after.Some? && after.value.triggered) <==> exists j, m :: LeavesOpen(delay, ms, j, m))
            && ((after.Some? && !after.value.triggered) <==>
                 |ms| > 0 && ms[|ms| - 1].violates && !exists j, m :: LeavesOpen(delay, ms, j, m))
  {
    var k, sorted := Key(tag, def.id), SortByTime(points);
    MarksInNumbers(def, sorted);
    MarksInOrder(def, sorted);
    BatchState(e, tag, def, points, wall);
    EndState(def.delaySeconds * 1_000_000_000, NumberMarks(def, sorted));
  }

  lemma EndState(delay: int, ms: seq<Spans.Mark>)
    requires Spans.InOrder(ms)
    ensures var s := Spans.RunFrom(delay, Spans.Idle, ms);
            && (s.Open? <==> exists j, m :: LeavesOpen(delay, ms, j, m))
            && (s.Waiting? <==> |ms| > 0 && ms[|ms| - 1].violates && !s.Open?)
  {
    assert ms[..|ms|] == ms;
    Spans.StatesTell(delay, ms, |ms|);
    var s := Spans.At(delay, ms, |ms|);
    if s.Open? {
      var j, m :| Spans.OpenFrom(delay, ms, |ms|, s.firedAt, j, m);
      assert LeavesOpen(delay, ms, j, m);
    }
    if j, m :| LeavesOpen(delay, ms, j, m) {
      assert Spans.DueTells(delay, ms, |ms|, j, m);
    }
    if |ms| > 0 && ms[|ms| - 1].violates {
      Spans.ViolationIsTracked(delay, ms, |ms|);
    }
  }

  // ------------------------------------------------------- a fired alarm

  /** A usable reading of the batch is well within the limit; and no later than the time, if asked. */
  ghost predicate SomeWithin(def: Definition, points: seq<Point>, early: bool, time: Time) {
    exists p :: p in points && p.reading.Numeric? && !Beyond(def, p.reading.v) && WellWithin(def, p.reading.v)
      && (early ==> p.at <= time)
  }

  lemma SomeWithinIsClears(e: Engine, k: Key, def: Definition, points: seq<Point>, wall: Time, early: bool, time: Time)
    requires Replay.ValueRule(e, k.tag, def) && def.id == k.id
    ensures SomeWithin(def, points, early, time) <==>
      SomeClears(SeriesMicros(k.tag, DefsOf(e.defs, k.tag), points, KnownRules(e, k.tag), wall), k, early, time)
  {
    var defs, known := DefsOf(e.defs, k.tag), KnownRules(e, k.tag);
    var ms := SeriesMicros(k.tag, defs, points, known, wall);
    if SomeWithin(def, points, early, time) {
      var p :| p in points && p.reading.Numeric? && !Beyond(def, p.reading.v) && WellWithin(def, p.reading.v)
        && (early ==> p.at <= time);
      TestsInNumbers(def, p.reading.v);
      SeriesHolds(k.tag, defs, points, known, wall, p, def);
      var m := Micro(k, Replay(def, p.at, p.reading.v, def.id in known, wall));
      assert m in ms && Clears(m, k);
    }
    if SomeClears(ms, k, early, time) {
      var m :| m in ms && Clears(m, k) && (early ==> m.ev.at <= time);
      SeriesMicrosOfPoints(e, k.tag, points, wall);
      assert OfPoint(e, k.tag, points, m);
      OneOfItsId(defs, def, m.ev.def);
      TestsInNumbers(def, m.ev.v);
      var p :| p in points && p.reading == Numeric(m.ev.v) && p.at == m.ev.at;
    }
  }

  lemma FateInNumbers(e: Engine, k: Key, def: Definition, sorted: seq<Point>, wall: Time)
    requires RefsOwned(e) && Fired(e, k) && SortedByTime(sorted) && |sorted| > 0
    requires Replay.ValueRule(e, k.tag, def) && def.id == k.id
    ensures var done, t := ReplaySorted(e, k.tag, sorted, wall), e.tracks[k];
            && (!SomeWithin(def, sorted, false, 0) ==> done.TrackOf(k) == Some(t) && !Closed(done, t.ref))
            && (SomeWithin(def, sorted, true, t.firedAt) ==> Lost(done, t.ref))
            && (SomeWithin(def, sorted, false, 0) && !SomeWithin(def, sorted, true, t.firedAt) ==>
                  RefsOwned(done) && Closed(done, t.ref))
  {
    var pre, t := BatchAlive(e, k.tag, sorted, wall), e.tracks[k];
    BatchAliveIsAlive(e, k.tag, sorted, wall);
    Replay.RefsIgnoreSamples(e, pre.samples);
    assert KnownRules(pre, k.tag) == KnownRules(e, k.tag);
    SeriesInTime(k.tag, DefsOf(e.defs, k.tag), sorted, KnownRules(e, k.tag), wall);
    FateOfAll(pre, SeriesMicros(k.tag, DefsOf(e.defs, k.tag), sorted, KnownRules(e, k.tag), wall), k);
    SomeWithinIsClears(e, k, def, sorted, wall, false, 0);
    SomeWithinIsClears(e, k, def, sorted, wall, true, t.firedAt);
    assert SomeClears(SeriesMicros(k.tag, DefsOf(e.defs, k.tag), sorted, KnownRules(e, k.tag), wall), k, false,
                      t.firedAt)
      <==> SomeClears(SeriesMicros(k.tag, DefsOf(e.defs, k.tag), sorted, KnownRules(e, k.tag), wall), k, false, 0);
  }

  /** From fired, over any batch in any order: the alarm is still there, as it was, exactly when no usable
      reading is well within the limit; and its end is queued exactly when one is and none that is, is
      as early as the alarm. */
  lemma BatchEndsIff(e: Engine, tag: int, def: Definition, points: seq<Point>, wall: Time)
    requires RefsOwned(e) && Replay.ValueRule(e, tag, def) && Fired(e, Key(tag, def.id)) && |points| > 0
    ensures var k, e' := Key(tag, def.id), EvaluateSeries(e, tag, points, 192, wall);
            var t := e.tracks[k];
            && (e'.TrackOf(k) == Some(t) <==> !SomeWithin(def, points, false, 0))
            && (Closed(e', t.ref) <==> SomeWithin(def, points, false, 0) && !SomeWithin(def, points, true, t.firedAt))
  {
    var k, sorted := Key(tag, def.id), SortByTime(points);
    var t, done := e.tracks[k], ReplaySorted(e, tag, sorted, wall);
    SortedMembers(points);
    FateInNumbers(e, k, def, sorted, wall);
    NewsKeepsClosed(e, done, tag, t.ref);
    if Closed(done, t.ref) && RefsOwned(done) {
      ClosedIsNotTracked(done, k, t.ref);
    }
  }

  lemma ClosedIsNotTracked(e: Engine, k: Key, ref: nat)
    requires RefsOwned(e) && Closed(e, ref)
    ensures k in e.tracks ==> e.tracks[k].ref != ref
  {
  }

  lemma NewsKeepsClosed(start: Engine, done: Engine, tag: int, ref: nat)
    ensures Closed(WithNews(start, done, tag), ref) <==> Closed(done, ref)
  {
    var e' := WithNews(start, done, tag);
    assert Occurrences.SameButNotify(e'.Queued(), done.Queued());
    if Closed(done, ref) {
      var a :| a in done.Queued() && a.ref == ref && a.status.Cleared?;
      var i := MemberIndex(done.Queued(), a);
      assert e'.Queued()[i].ref == ref && e'.Queued()[i].status.Cleared?;
    }
    if Closed(e', ref) {
      var a :| a in e'.Queued() && a.ref == ref && a.status.Cleared?;
      var i := MemberIndex(e'.Queued(), a);
      assert done.Queued()[i].ref == ref && done.Queued()[i].status.Cleared?;
    }
  }

  // --------------------------------------------------------- one reading

  /** What one reading of a batch makes of the rule's track, and what it queues, but for the question
      whether the operator is told; `pulled` takes the queued actions of the occurrence out again. */
  ghost predicate Replayed(tag: int, def: Definition, v: Value, at: Time, wall: Time, before: Option<Track>,
                           after: Option<Track>, queued: seq<Action>, pulled: bool, newRef: nat) {
    var delay := def.delaySeconds * 1_000_000_000;
    if Beyond(def, v) then
      var t := if before.Some? then before.value else Track(def, at, false, v, 0, newRef, 0);
      var firedAt := t.activeSince + delay;
      && !pulled
      && if t.triggered || at < firedAt then after == Some(t) && queued == []
         else
           && after == Some(t.(triggered := true, firedAt := firedAt, nextRetry := wall + 30_000_000_000))
           && queued == [Action(tag, def, t.initial, Active, t.ref, firedAt, None, false)]
    else if before.None? || !before.value.triggered then after == None && queued == [] && !pulled
    else if !WellWithin(def, v) then after == before && queued == [] && !pulled
    else
      var t := before.value;
      && after == None && (pulled <==> at <= t.firedAt)
      && queued == if pulled then [] else [Action(tag, def, v, Cleared, t.ref, t.firedAt, Some(at), false)]
  }

  function Untold(q: seq<Action>): (r: seq<Action>)
    ensures |r| == |q|
  {
    seq(|q|, i requires 0 <= i < |q| => q[i].(notify := false))
  }

  lemma ReplayInNumbers(tag: int, track: Option<Track>, newRef: nat, def: Definition, at: Time, v: Value, known: bool,
                        wall: Time)
    requires !IsHealth(def.alarmType)
    ensures var out := ReplayStep(tag, track, newRef, def, at, v, known, wall);
            Replayed(tag, def, v, at, wall, track, out.track, Untold(out.queued), out.pulled, newRef)
  {
    TestsInNumbers(def, v);
  }

  lemma {:induction false} OfRuleUntold(q: seq<Action>, k: Key)
    ensures OfRule(Untold(q), k) == Untold(OfRule(q, k))
  {
    if |q| > 0 {
      var n := |q| - 1;
      OfRuleUntold(q[..n], k);
      assert Untold(q)[..n] == Untold(q[..n]);
      assert Untold(q)[n].Rule() == q[n].Rule();
      assert Untold(OfRule(q[..n], k) + [q[n]]) == Untold(OfRule(q[..n], k)) + [q[n].(notify := false)];
    }
  }

  /** Marking the news changes nothing but what is told. */
  lemma NewsOnlyTells(start: Engine, done: Engine, tag: int, k: Key)
    ensures Untold(OfRule(WithNews(start, done, tag).pending, k)) == Untold(OfRule(done.pending, k))
  {
    var q := done.pending;
    var marked := MarkNews(q, |start.pending|, done.tracks, tag);
    assert Untold(marked) == Untold(q);
    OfRuleUntold(q, k);
    OfRuleUntold(marked, k);
  }

  /** The rule's share of the queue after a batch: the actions of a pulled occurrence out, the new one in. */
  ghost predicate Shares(e: Engine, e': Engine, k: Key, queued: seq<Action>, pulled: bool) {
    var kept := if pulled && k in e.tracks then Without(OfRule(e.pending, k), k, e.tracks[k].ref)
      else OfRule(e.pending, k);
    Untold(OfRule(e'.pending, k)) == Untold(kept + queued)
  }

  lemma PointTurns(e: Engine, tag: int, def: Definition, at: Time, v: Value, known: set<int>, wall: Time)
    returns (out: Outcome, newRef: nat)
    requires RefsOwned(e) && Replay.ValueRule(e, tag, def)
    ensures var k, e' := Key(tag, def.id), Steps(e, PointMicros(tag, DefsOf(e.defs, tag), at, v, known, wall));
            && newRef >= |e.rows| && e'.TrackOf(k) == out.track && Shares(e, e', k, out.queued, out.pulled)
            && Replayed(tag, def, v, at, wall, e.TrackOf(k), out.track, Untold(out.queued), out.pulled, newRef)
  {
    var k, defs := Key(tag, def.id), DefsOf(e.defs, tag);
    var ms := PointMicros(tag, defs, at, v, known, wall);
    Replay.PointMicrosShape(tag, defs, at, v, known, wall);
    var d := MemberIndex(defs, def);
    var i := Replay.PointMicrosOnce(tag, defs, at, v, known, wall, d);
    assert forall j :: 0 <= j < |ms| ==> ms[j] in ms;
    var mid := StepsWithOne(e, ms, k, i);
    Writes.StepsKeepRows(e, ms[..i]);
    StepOwn(mid, ms[i]);
    newRef := |mid.rows|;
    out := ReplayStep(tag, mid.TrackOf(k), newRef, def, at, v, def.id in known, wall);
    ReplayInNumbers(tag, mid.TrackOf(k), newRef, def, at, v, def.id in known, wall);
    OwnShare(e, mid, k, ms[i], out);
  }

  lemma OwnShare(e: Engine, mid: Engine, k: Key, m: Micro, out: Outcome)
    requires RefsOwned(mid) && WellKeyed(m) && m.key == k && OutcomeOf(mid, m) == out
    requires mid.TrackOf(k) == e.TrackOf(k) && OfRule(mid.pending, k) == OfRule(e.pending, k)
    ensures Shares(e, Step(mid, m), k, out.queued, out.pulled)
  {
    StepOwn(mid, m);
    OutcomesAreProper(mid, m);
    if out.pulled {
      OfRuleWithoutOwn(mid.pending, k, mid.tracks[k].ref);
      assert Without(OfRule(e.pending, k), k, e.tracks[k].ref) + []
        == Without(OfRule(e.pending, k), k, e.tracks[k].ref);
    }
  }

  /** A batch of one usable reading through all the rules of its tag, seen from one value rule. */
  lemma ReadingOnRule(e: Engine, tag: int, def: Definition, v: Value, at: Time, wall: Time)
    returns (queued: seq<Action>, pulled: bool, newRef: nat)
    requires RefsOwned(e) && Replay.ValueRule(e, tag, def)
    ensures var k, e' := Key(tag, def.id), EvaluateSeries(e, tag, [Point(Numeric(v), at)], 192, wall);
            && newRef >= |e.rows| && Shares(e, e', k, queued, pulled)
            && Replayed(tag, def, v, at, wall, e.TrackOf(k), e'.TrackOf(k), Untold(queued), pulled, newRef)
  {
    var p, k := Point(Numeric(v), at), Key(tag, def.id);
    var defs, known := DefsOf(e.defs, tag), KnownRules(e, tag);
    Told.OneReading(p);
    var pre := BatchAlive(e, tag, [p], wall);
    Replay.RefsIgnoreSamples(e, pre.samples);
    assert [p][..0] == [];
    assert SeriesMicros(tag, defs, [], known, wall) == [];
    assert SeriesMicros(tag, defs, [p], known, wall) == PointMicros(tag, defs, at, v, known, wall);
    var out;
    out, newRef := PointTurns(pre, tag, def, at, v, known, wall);
    NewsOnlyTells(e, ReplaySorted(e, tag, [p], wall), tag, k);
    queued, pulled := out.queued, out.pulled;
  }

  /** A batch of bad quality, without readings or on a tag without rules changes nothing at all. */
  lemma UnjudgedBatch(e: Engine, tag: int, points: seq<Point>, quality: int, wall: Time)
    requires quality != 192 || points == [] || DefsOf(e.defs, tag) == []
    ensures EvaluateSeries(e, tag, points, quality, wall) == e
  {
  }


  // ---------------------------------------------------------------- the sort

  /** The readings of one time, as they came. */
  function Taken(points: seq<Point>, at: Time): seq<Point> {
    if |points| == 0 then []
    else
      var p := points[|points| - 1];
      Taken(points[..|points| - 1], at) + Only(p, at)
  }

  function Only(p: Point, at: Time): seq<Point> { if p.at == at then [p] else [] }

  lemma TakenSnoc(points: seq<Point>, p: Point, at: Time)
    ensures Taken(points + [p], at) == Taken(points, at) + Only(p, at)
  {
    assert (points + [p])[..|points|] == points;
  }

  lemma {:induction false} InsertedIsTaken(points: seq<Point>, p: Point, at: Time)
    requires SortedByTime(points)
    ensures Taken(InsertByTime(points, p), at) == Taken(points, at) + Only(p, at)
  {
    if |points| > 0 && points[|points| - 1].at > p.at {
      var init, last := points[..|points| - 1], points[|points| - 1];
      InsertedIsTaken(init, p, at);
      TakenSnoc(InsertByTime(init, p), last, at);
      TakenSnoc(init, last, at);
      assert points == init + [last];
      OneOfThem(Taken(init, at), p, last, at);
    } else {
      TakenSnoc(points, p, at);
    }
  }

  lemma OneOfThem(before: seq<Point>, p: Point, last: Point, at: Time)
    requires p.at < last.at
    ensures before + Only(p, at) + Only(last, at) == before + Only(last, at) + Only(p, at)
  {
  }

  /** A batch is put in the order of its times, and the readings of one time stay as they came. */
  lemma {:induction false} SortKeepsArrival(points: seq<Point>, at: Time)
    ensures Taken(SortByTime(points), at) == Taken(points, at)
    ensures forall i, j :: 0 <= i < j < |SortByTime(points)| ==> SortByTime(points)[i].at <= SortByTime(points)[j].at
  {
    if |points| > 0 {
      SortKeepsArrival(points[..|points| - 1], at);
      InsertedIsTaken(SortByTime(points[..|points| - 1]), points[|points| - 1], at);
    }
  }
}
