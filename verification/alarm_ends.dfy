/** How often an alarm ends within a batch, read off the batch's readings before it is replayed. */
module AlarmEnds {
  import opened Options
  import opened AlarmRules
  import opened AlarmEngine
  import opened AlarmFrames
  import opened AlarmNotify
  import opened AlarmSpans
  import Replay = AlarmReplay

  function MarkOf(def: Definition, at: Time, v: Value): Mark {
    Mark(at, Violated(def, v), !Violated(def, v) && BackInSpec(def, v))
  }

  /** What the usable readings mean to the rule. */
  function MarksOf(def: Definition, points: seq<Point>): seq<Mark> {
    if |points| == 0 then []
    else
      var p := points[|points| - 1];
      MarksOf(def, points[..|points| - 1]) + MarksOfOne(def, p)
  }

  function MarksOfOne(def: Definition, p: Point): seq<Mark> {
    if p.reading.Numeric? then [MarkOf(def, p.at, p.reading.v)] else []
  }

  function StateOf(t: Option<Track>): State {
    if t.None? then Idle else if t.value.triggered then Open(t.value.firedAt) else Waiting(t.value.activeSince)
  }

  function DelayOf(def: Definition): int { Nanos(def.delaySeconds) }

  lemma {:induction false} MarksInOrder(def: Definition, points: seq<Point>)
    requires SortedByTime(points)
    ensures InOrder(MarksOf(def, points))
    ensures |points| > 0 ==> forall i :: 0 <= i < |MarksOf(def, points)| ==>
      MarksOf(def, points)[i].at <= points[|points| - 1].at
  {
    if |points| > 0 {
      MarksInOrder(def, points[..|points| - 1]);
    }
  }

  lemma {:induction false} MarksMembers(def: Definition, points: seq<Point>)
    ensures forall m :: m in MarksOf(def, points) <==>
      exists p :: p in points && p.reading.Numeric? && m == MarkOf(def, p.at, p.reading.v)
  {
    if |points| > 0 {
      var init, last := points[..|points| - 1], points[|points| - 1];
      MarksMembers(def, init);
      assert points == init + [last];
      forall m
        ensures m in MarksOf(def, points)
          <==> exists p :: p in points && p.reading.Numeric? && m == MarkOf(def, p.at, p.reading.v)
      {
        if m in MarksOf(def, init) {
          var p :| p in init && p.reading.Numeric? && m == MarkOf(def, p.at, p.reading.v);
          assert p in points;
        }
        assert last in points;
      }
    }
  }

  /** One reading moves the rule as its mark says. */
  lemma StepIsNext(tag: int, t: Option<Track>, newRef: nat, def: Definition, at: Time, v: Value, known: bool,
                   wall: Time)
    ensures var out, s, m := ReplayStep(tag, t, newRef, def, at, v, known, wall), StateOf(t), MarkOf(def, at, v);
            && StateOf(out.track) == Next(DelayOf(def), s, m)
            && |Replay.Closed(out.queued)| == (if Closes(s, m) then 1 else 0)
  {
    var out := ReplayStep(tag, t, newRef, def, at, v, known, wall);
    if |out.queued| == 1 {
      assert out.queued[..0] == [];
      assert Replay.Closed([]) == [];
    }
  }

  /** The rule's life through a list of readings is that of their marks. */
  ghost predicate Lives(e: Engine, r: Engine, k: Key, def: Definition, ms: seq<Mark>) {
    var s := StateOf(e.TrackOf(k));
    && RefsOwned(r) && r.defs == e.defs && StateOf(r.TrackOf(k)) == RunFrom(DelayOf(def), s, ms)
    && |Replay.Closed(OfRule(r.pending, k))| == |Replay.Closed(OfRule(e.pending, k))| + Closings(DelayOf(def), s, ms)
  }

  lemma {:induction false} SeriesLives(e: Engine, alive: Engine, tag: int, def: Definition, points: seq<Point>,
                                       known: set<int>, wall: Time)
    requires RefsOwned(e) && Replay.ValueRule(e, tag, def) && alive == e.(samples := alive.samples)
    ensures Lives(e, Steps(alive, SeriesMicros(tag, DefsOf(e.defs, tag), points, known, wall)), Key(tag, def.id),
                  def, MarksOf(def, points))
  {
    var defs := DefsOf(e.defs, tag);
    if |points| == 0 {
      LivesAtFirst(e, alive, Key(tag, def.id), def);
    } else {
      var n := |points| - 1;
      SeriesLives(e, alive, tag, def, points[..n], known, wall);
      StepsConcat(alive, SeriesMicros(tag, defs, points[..n], known, wall),
                  MicrosOf(tag, defs, points[n], known, wall));
      NextLives(e, Steps(alive, SeriesMicros(tag, defs, points[..n], known, wall)), tag, def, points[n], known, wall,
                MarksOf(def, points[..n]));
    }
  }

  lemma LivesAtFirst(e: Engine, alive: Engine, k: Key, def: Definition)
    requires RefsOwned(e) && alive == e.(samples := alive.samples)
    ensures Lives(e, alive, k, def, [])
  {
    Replay.RefsIgnoreSamples(e, alive.samples);
  }

  lemma NextLives(e: Engine, r: Engine, tag: int, def: Definition, p: Point, known: set<int>, wall: Time, ms: seq<Mark>)
    requires Replay.ValueRule(e, tag, def) && Lives(e, r, Key(tag, def.id), def, ms)
    ensures Lives(e, Steps(r, MicrosOf(tag, DefsOf(e.defs, tag), p, known, wall)), Key(tag, def.id), def,
                  ms + MarksOfOne(def, p))
  {
    if p.reading.Numeric? {
      PointLives(e, r, tag, def, p.at, p.reading.v, known, wall, ms);
    } else {
      assert ms + [] == ms;
    }
  }

  lemma PointLives(e: Engine, r: Engine, tag: int, def: Definition, at: Time, v: Value, known: set<int>, wall: Time,
                   ms: seq<Mark>)
    requires Replay.ValueRule(e, tag, def) && Lives(e, r, Key(tag, def.id), def, ms)
    ensures Lives(e, Steps(r, PointMicros(tag, DefsOf(e.defs, tag), at, v, known, wall)), Key(tag, def.id), def,
                  ms + [MarkOf(def, at, v)])
  {
    var newRef := Replay.ReplayOfValueRule(r, tag, def, at, v, known, wall);
    StepIsNext(tag, r.TrackOf(Key(tag, def.id)), newRef, def, at, v, def.id in known, wall);
    assert (ms + [MarkOf(def, at, v)])[..|ms|] == ms;
  }

  /** How many alarms of the rule a batch ends. */
  lemma BatchCloses(e: Engine, tag: int, def: Definition, points: seq<Point>, wall: Time)
    requires RefsOwned(e) && Replay.ValueRule(e, tag, def) && |points| > 0
    ensures var k, e' := Key(tag, def.id), EvaluateSeries(e, tag, points, QUALITY_GOOD, wall);
            |Replay.Closed(OfRule(e'.pending, k))| == |Replay.Closed(OfRule(e.pending, k))|
              + Closings(DelayOf(def), StateOf(e.TrackOf(k)), MarksOf(def, SortByTime(points)))
  {
    var sorted := SortByTime(points);
    SeriesLives(e, BatchAlive(e, tag, sorted, wall), tag, def, sorted, KnownRules(e, tag), wall);
    var done := ReplaySorted(e, tag, sorted, wall);
    Replay.ClosedMarkNews(done.pending, |e.pending|, done.tracks, tag, Key(tag, def.id));
  }

  lemma {:induction false} ClosedCounts(w: seq<Action>)
    ensures |Replay.Closed(w)| == CountCleared(w)
  {
    if |w| > 0 {
      ClosedCounts(w[..|w| - 1]);
    }
  }

  lemma AddedCloses(e: Engine, e': Engine, k: Key)
    requires e.pending <= e'.pending
    ensures CountCleared(Added(e, e', k))
            == |Replay.Closed(OfRule(e'.pending, k))| - |Replay.Closed(OfRule(e.pending, k))|
  {
    var n := NewActions(e, e');
    assert e'.pending == e.pending + n;
    OfRuleConcat(e.pending, n, k);
    Replay.ClosedConcat(OfRule(e.pending, k), OfRule(n, k));
    ClosedCounts(OfRule(n, k));
  }

  // -------------------------------------------------------- ending twice

  /** An alarm known before the batch ends and a further one of the rule is raised and ended
      within it: said of the definition and the readings. */
  ghost predicate EndsTwice(e: Engine, k: Key, points: seq<Point>) {
    exists d :: d in DefsOf(e.defs, k.tag) && d.id == k.id && !IsHealth(d.alarmType)
      && EndsAgain(DelayOf(d), MarksOf(d, SortByTime(points)))
  }

  lemma NoEarlyMark(e: Engine, k: Key, def: Definition, points: seq<Point>)
    requires Fired(e, k) && !EarlyEnd(e, k, points) && def in DefsOf(e.defs, k.tag) && def.id == k.id
    requires !IsHealth(def.alarmType)
    ensures forall i :: 0 <= i < |MarksOf(def, points)| && MarksOf(def, points)[i].clears ==>
      MarksOf(def, points)[i].at > e.tracks[k].firedAt
  {
    var ms := MarksOf(def, points);
    MarksMembers(def, points);
    forall i | 0 <= i < |ms| && ms[i].clears
      ensures ms[i].at > e.tracks[k].firedAt
    {
      assert ms[i] in ms;
      var p :| p in points && p.reading.Numeric? && ms[i] == MarkOf(def, p.at, p.reading.v);
      assert AlarmNotify.Ends(def, k, p);
    }
  }

  lemma ReplayPassesBy(e: Engine, k: Key, sorted: seq<Point>, wall: Time)
    requires RefsOwned(e) && |sorted| > 0
    requires forall d :: d in DefsOf(e.defs, k.tag) && d.id == k.id ==> IsHealth(d.alarmType)
    ensures OfRule(ReplaySorted(e, k.tag, sorted, wall).pending, k) == OfRule(e.pending, k)
  {
    var pre, known := BatchAlive(e, k.tag, sorted, wall), KnownRules(e, k.tag);
    var ms := SeriesMicros(k.tag, DefsOf(e.defs, k.tag), sorted, known, wall);
    SeriesMicrosOfPoints(e, k.tag, sorted, wall);
    forall i | 0 <= i < |ms|
      ensures WellKeyed(ms[i]) && ms[i].key != k
    {
      assert ms[i] in ms;
    }
    BatchAliveIsAlive(e, k.tag, sorted, wall);
    Replay.RefsIgnoreSamples(e, pre.samples);
    StepsForeign(pre, ms, k);
  }
}
