/** The alarm manager as the object it is: fields updated in place by loops.

Every method is proved to do to its fields exactly what the corresponding
section of `AlarmEngine` does to the state value. Ranging over a map takes its
keys in an arbitrary order, and returns the order it took. */
module AlarmManager {
  import opened Options
  import opened AlarmRules
  import opened AlarmEngine

  /** Ranging over a map's keys: some order, each key once. */
  method Range<T(!new, ==)>(s: set<T>) returns (order: seq<T>)
    ensures Enumerates(order, s)
  {
    order := [];
    var left := s;
    while left != {}
      invariant forall x :: x in s <==> x in order || x in left
      invariant forall x :: x in left ==> x !in order
      invariant forall i, j :: 0 <= i < j < |order| ==> order[i] != order[j]
      decreases |left|
    {
      var x :| x in left;
      left := left - {x};
      order := order + [x];
    }
  }

  lemma WithoutSnoc(q: seq<Action>, i: nat, k: Key, ref: nat)
    requires i < |q|
    ensures Without(q[..i + 1], k, ref)
         == Without(q[..i], k, ref) + if SameOccurrence(q[i], k, ref) then [] else [q[i]]
  {
    assert q[..i + 1][..i] == q[..i];
  }

  /** What the health tick decides depends on the samples and definitions only. */
  lemma {:induction false} HealthMicrosReadSamples(a: Engine, b: Engine, tags: seq<int>, now: Time)
    requires a.samples == b.samples && a.defs == b.defs
    ensures HealthMicros(a, tags, now) == HealthMicros(b, tags, now)
    ensures StartClocks(a, now) == StartClocks(b, now)
  {
    if |tags| > 0 {
      HealthMicrosReadSamples(a, b, tags[..|tags| - 1], now);
    }
  }

  lemma DelayMicrosSnoc(order: seq<Key>, i: nat, now: Time)
    requires i < |order|
    ensures DelayMicros(order[..i + 1], now) == DelayMicros(order[..i], now) + [Micro(order[i], Delay(now))]
  {
  }

  lemma LiveMicrosNext(tag: int, defs: seq<Definition>, i: nat, at: Time, v: Value)
    requires i < |defs|
    ensures LiveMicros(tag, defs[..i + 1], at, v) == LiveMicros(tag, defs[..i], at, v)
      + if IsHealth(defs[i].alarmType) then [] else [Micro(Key(tag, defs[i].id), Live(defs[i], at, v))]
    ensures IsHealth(defs[i].alarmType) ==> LiveMicros(tag, defs[..i + 1], at, v) == LiveMicros(tag, defs[..i], at, v)
  {
    assert defs[..i + 1][..i] == defs[..i];
  }

  class Manager {
    var definitions: map<int, seq<Definition>>
    var tracks: map<Key, Track>
    var samples: map<int, SampleState>
    var pending: seq<Action>
    var rows: seq<int>
    ghost var popped: seq<Action>

    ghost function State(): Engine
      reads this
    {
      Engine(definitions, tracks, samples, pending, popped, rows)
    }

    constructor ()
      ensures State() == Engine(map[], map[], map[], [], [], [])
    {
      definitions, tracks, samples, pending, rows, popped := map[], map[], map[], [], [], [];
    }

    method QueueIO(a: Action)
      modifies this`pending
      ensures pending == old(pending) + [a]
    {
      pending := pending + [a];
    }

    /** A new event reference, not persisted yet. */
    method NewRef() returns (r: nat)
      modifies this`rows
      ensures r == |old(rows)| && rows == old(rows) + [0]
    {
      r := |rows|;
      rows := rows + [0];
    }

    method Forget(k: Key)
      modifies this`tracks
      ensures tracks == Put(old(tracks), k, None)
    {
      tracks := tracks - {k};
    }

    /** One rule of a live sample. */
    method LiveRule(tag: int, def: Definition, at: Time, v: Value)
      modifies this`tracks, this`pending, this`rows
      ensures State() == Step(old(State()), Micro(Key(tag, def.id), Live(def, at, v)))
    {
      var k := Key(tag, def.id);
      if Violated(def, v) {
        if k !in tracks {
          var r := NewRef();
          var t := Track(def, at, false, v, ZERO_TIME, r, ZERO_TIME);
          if def.delaySeconds == 0 {
            t := t.(triggered := true, firedAt := at, nextRetry := at + INSERT_RETRY_INTERVAL);
            QueueIO(Action(tag, def, v, Active, r, at, None, true));
          }
          tracks := tracks[k := t];
        }
      } else if k in tracks {
        var t := tracks[k];
        if !t.triggered {
          Forget(k);
        } else if BackInSpec(def, v) {
          QueueIO(Action(tag, def, v, Cleared, t.ref, t.firedAt, Some(at), true));
          Forget(k);
        }
      }
      assert tracks == Step(old(State()), Micro(k, Live(def, at, v))).tracks;
      assert pending == Step(old(State()), Micro(k, Live(def, at, v))).pending;
    }

    /** evaluateAt: a sample against all the value rules of its tag. */
    method EvaluateAt(tag: int, reading: Reading, quality: int, at: Time, markLife: bool, wall: Time)
      modifies this
      ensures State() == AlarmEngine.EvaluateAt(old(State()), tag, reading, quality, at, markLife, wall)
    {
      if tag !in definitions || |definitions[tag]| == 0 {
        return;
      }
      var defs := definitions[tag];
      var now := if at == ZERO_TIME then wall else at;
      if markLife && quality == QUALITY_GOOD && reading.Numeric? {
        RecordGoodSample(tag, defs, reading.v, wall);
      }
      if quality != QUALITY_GOOD || !reading.Numeric? {
        return;
      }
      LiveRules(tag, defs, now, reading.v);
    }

    /** The loop of evaluateAt over the rules of the tag. */
    method LiveRules(tag: int, defs: seq<Definition>, at: Time, v: Value)
      modifies this`tracks, this`pending, this`rows
      ensures State() == Steps(old(State()), LiveMicros(tag, defs, at, v))
    {
      ghost var base := State();
      for i := 0 to |defs|
        invariant State() == Steps(base, LiveMicros(tag, defs[..i], at, v))
      {
        LiveMicrosNext(tag, defs, i, at, v);
        if !IsHealth(defs[i].alarmType) {
          LiveRule(tag, defs[i], at, v);
          StepsSnoc(base, LiveMicros(tag, defs[..i], at, v), Micro(Key(tag, defs[i].id), Live(defs[i], at, v)));
        }
      }
      assert defs[..|defs|] == defs;
    }

    method RecordGoodSample(tag: int, defs: seq<Definition>, v: Value, now: Time)
      modifies this`samples
      ensures State() == RecordGood(old(State()), tag, defs, v, now)
    {
      var anchors := if tag in samples then samples[tag].anchors else map[];
      ghost var start := anchors;
      for i := 0 to |defs|
        invariant anchors == MoveAnchors(start, defs[..i], v, now)
      {
        assert defs[..i + 1][..i] == defs[..i];
        var def := defs[i];
        if def.alarmType.Frozen? {
          if def.id !in anchors || Moved(v, anchors[def.id].value, def.deadband) {
            anchors := anchors[def.id := Anchor(v, now)];
          }
        }
      }
      assert defs[..|defs|] == defs;
      samples := samples[tag := SampleState(now, v, true, anchors)];
    }

    /** One track of the tick. */
    method DelayRule(k: Key, now: Time)
      modifies this`tracks, this`pending
      ensures State() == Step(old(State()), Micro(k, Delay(now)))
    {
      if k in tracks {
        var t := tracks[k];
        if !t.triggered {
          if WholeSeconds(now - t.activeSince) >= t.def.delaySeconds {
            var firedAt := t.activeSince + Nanos(t.def.delaySeconds);
            if firedAt > now {
              firedAt := now;
            }
            tracks := tracks[k := t.(triggered := true, firedAt := firedAt, nextRetry := now + INSERT_RETRY_INTERVAL)];
            QueueIO(Action(k.tag, t.def, t.initial, Active, t.ref, firedAt, None, true));
          }
        } else if (if t.ref < |rows| then rows[t.ref] else 0) == 0 && now >= t.nextRetry {
          tracks := tracks[k := t.(nextRetry := now + INSERT_RETRY_INTERVAL)];
          QueueIO(Action(k.tag, t.def, t.initial, Active, t.ref, t.firedAt, None, false));
        }
      }
      assert tracks == Step(old(State()), Micro(k, Delay(now))).tracks;
      assert pending == Step(old(State()), Micro(k, Delay(now))).pending;
    }

    /** tickDelays: every track, then every health rule. */
    method TickDelays(now: Time) returns (order: seq<Key>, tags: seq<int>)
      modifies this
      ensures Enumerates(order, old(tracks).Keys) && Enumerates(tags, old(definitions).Keys)
      ensures State() == Tick(old(State()), now, order, tags)
    {
      ghost var start := State();
      order := RunDelays(now);
      tags := TickHealth(now);
      HealthMicrosReadSamples(start, Steps(start, DelayMicros(order, now)), tags, now);
      StepsConcat(start, DelayMicros(order, now), HealthMicros(start, tags, now));
    }

    /** The loop of tickDelays over the tracks. */
    method RunDelays(now: Time) returns (order: seq<Key>)
      modifies this`tracks, this`pending, this`rows
      ensures Enumerates(order, old(tracks).Keys)
      ensures State() == Steps(old(State()), DelayMicros(order, now))
    {
      ghost var start := State();
      order := Range(tracks.Keys);
      for i := 0 to |order|
        invariant State() == Steps(start, DelayMicros(order[..i], now))
      {
        DelayRule(order[i], now);
        StepsSnoc(start, DelayMicros(order[..i], now), Micro(order[i], Delay(now)));
        DelayMicrosSnoc(order, i, now);
      }
      assert order[..|order|] == order;
    }

    /** tickHealth: judges every health rule against the clock. */
    method TickHealth(now: Time) returns (tags: seq<int>)
      modifies this`tracks, this`pending, this`rows, this`samples
      ensures Enumerates(tags, definitions.Keys)
      ensures State()
              == Steps(old(State()), HealthMicros(old(State()), tags, now)).(samples := StartClocks(old(State()), now))
    {
      ghost var start := State();
      tags := Range(definitions.Keys);
      for i := 0 to |tags|
        invariant forall t :: t in samples <==> t in start.samples || (t in tags[..i] && HasHealth(definitions[t]))
        invariant forall t :: t in samples ==> samples[t] == ClockOf(start, t, now)
        invariant State() == Steps(start, HealthMicros(start, tags[..i], now)).(samples := samples)
      {
        assert tags[..i + 1][..i] == tags[..i];
        HealthOfTag(tags[i], now, start, HealthMicros(start, tags[..i], now));
      }
      assert tags[..|tags|] == tags;
      assert forall t :: t in StartClocks(start, now) <==> t in samples;
      assert samples == StartClocks(start, now);
    }

    /** One tag of the health tick: judged, or given a clock. */
    method HealthOfTag(tag: int, now: Time, ghost start: Engine, ghost prefix: seq<Micro>)
      requires tag in definitions && definitions == start.defs
      requires State() == Steps(start, prefix).(samples := samples)
      requires tag in samples <==> tag in start.samples
      requires tag in samples ==> samples[tag] == start.samples[tag]
      modifies this`tracks, this`pending, this`rows, this`samples
      ensures var ms := if tag in start.samples
                        then VerdictMicros(tag, start.samples[tag], DefsOf(start.defs, tag), now) else [];
              State() == Steps(start, prefix + ms).(samples := samples)
      ensures samples == if tag in old(samples) || !HasHealth(start.defs[tag]) then old(samples)
                         else old(samples)[tag := ClockOf(start, tag, now)]
    {
      if tag in samples {
        JudgeTag(tag, samples[tag], definitions[tag], now, start, prefix);
      } else {
        assert prefix + [] == prefix;
        if HasHealth(definitions[tag]) {
          samples := samples[tag := SampleState(now, Num(0.0), false, map[])];
        }
      }
    }

    /** The health rules of one tag. */
    method JudgeTag(tag: int, s: SampleState, defs: seq<Definition>, now: Time, ghost start: Engine,
                    ghost prefix: seq<Micro>)
      requires State() == Steps(start, prefix).(samples := samples)
      modifies this`tracks, this`pending, this`rows
      ensures State() == Steps(start, prefix + VerdictMicros(tag, s, defs, now)).(samples := samples)
    {
      assert prefix + VerdictMicros(tag, s, defs[..0], now) == prefix;
      for i := 0 to |defs|
        invariant State() == Steps(start, prefix + VerdictMicros(tag, s, defs[..i], now)).(samples := samples)
      {
        ghost var before := prefix + VerdictMicros(tag, s, defs[..i], now);
        assert defs[..i + 1][..i] == defs[..i];
        var def := defs[i];
        if IsHealth(def.alarmType) {
          ghost var m := Micro(Key(tag, def.id), Verdict(def, Unhealthy(s, def, now), s.lastValue, now));
          ApplyHealth(tag, def, Unhealthy(s, def, now), s.lastValue, now);
          StepIgnoresSamples(Steps(start, before), samples, m);
          StepsSnoc(start, before, m);
          assert before + [m] == prefix + VerdictMicros(tag, s, defs[..i + 1], now);
        } else {
          assert before == prefix + VerdictMicros(tag, s, defs[..i + 1], now);
        }
      }
      assert defs[..|defs|] == defs;
    }

    method ApplyHealth(tag: int, def: Definition, violated: bool, v: Value, now: Time)
      modifies this`tracks, this`pending, this`rows
      ensures State() == Step(old(State()), Micro(Key(tag, def.id), Verdict(def, violated, v, now)))
    {
      var k := Key(tag, def.id);
      if violated && k !in tracks {
        var r := NewRef();
        tracks := tracks[k := Track(def, now, true, v, now, r, now + INSERT_RETRY_INTERVAL)];
        QueueIO(Action(tag, def, v, Active, r, now, None, true));
      } else if !violated && k in tracks {
        QueueIO(Action(tag, def, v, Cleared, tracks[k].ref, tracks[k].firedAt, None, true));
        Forget(k);
      }
      assert tracks == Step(old(State()), Micro(k, Verdict(def, violated, v, now))).tracks;
      assert pending == Step(old(State()), Micro(k, Verdict(def, violated, v, now))).pending;
    }

    /** seriesStep: one rule of one reading of a batch. */
    method SeriesStep(tag: int, def: Definition, at: Time, v: Value, known: bool, wall: Time)
      modifies this`tracks, this`pending, this`rows
      ensures State() == Step(old(State()), Micro(Key(tag, def.id), Replay(def, at, v, known, wall)))
    {
      var k := Key(tag, def.id);
      if Violated(def, v) {
        if k !in tracks {
          var r := NewRef();
          tracks := tracks[k := Track(def, at, false, v, ZERO_TIME, r, ZERO_TIME)];
        }
        var t := tracks[k];
        var delay := Nanos(def.delaySeconds);
        if !t.triggered && at - t.activeSince >= delay {
          var firedAt := t.activeSince + delay;
          tracks := tracks[k := t.(triggered := true, firedAt := firedAt, nextRetry := wall + INSERT_RETRY_INTERVAL)];
          QueueIO(Action(tag, def, t.initial, Active, t.ref, firedAt, None, false));
        }
      } else if k in tracks {
        var t := tracks[k];
        if !t.triggered {
          Forget(k);
        } else if BackInSpec(def, v) {
          if at <= t.firedAt {
            PullBack(k, t.ref);
          } else {
            QueueIO(Action(tag, def, v, Cleared, t.ref, t.firedAt, Some(at), known));
          }
          Forget(k);
        }
      }
      assert tracks == Step(old(State()), Micro(k, Replay(def, at, v, known, wall))).tracks;
      assert pending == Step(old(State()), Micro(k, Replay(def, at, v, known, wall))).pending;
    }

    /** Takes the actions of one occurrence back out of the queue. */
    method PullBack(k: Key, ref: nat)
      modifies this`pending
      ensures pending == Without(old(pending), k, ref)
    {
      var kept: seq<Action> := [];
      for i := 0 to |pending|
        invariant pending == old(pending)
        invariant kept == Without(pending[..i], k, ref)
      {
        WithoutSnoc(pending, i, k, ref);
        if !SameOccurrence(pending[i], k, ref) {
          kept := kept + [pending[i]];
        }
      }
      assert pending[..|pending|] == pending;
      pending := kept;
    }

    /** EvaluateTagSeries: a batch of past readings, oldest first. */
    method EvaluateTagSeries(tag: int, points: seq<Point>, quality: int, wall: Time)
      modifies this
      ensures State() == EvaluateSeries(old(State()), tag, points, quality, wall)
    {
      if |points| == 0 || tag !in definitions || |definitions[tag]| == 0 {
        return;
      }
      var sorted := SortByTime(points);
      var defs := definitions[tag];
      if quality == QUALITY_GOOD {
        if sorted[|sorted| - 1].reading.Numeric? {
          RecordGoodSample(tag, defs, sorted[|sorted| - 1].reading.v, wall);
        }
      }
      if quality != QUALITY_GOOD {
        return;
      }
      var known := KnownRules(Engine(definitions, tracks, samples, pending, [], rows), tag);
      assert known == KnownRules(old(State()), tag);
      var firstIO := |pending|;
      ghost var alive := State();
      ReplayAll(tag, defs, sorted, known, wall);
      ghost var done := State();
      assert done == Steps(alive, SeriesMicros(tag, defs, sorted, KnownRules(old(State()), tag), wall));
      NotifyNews(tag, firstIO);
      assert State() == done.(pending := MarkNews(done.pending, |old(pending)|, done.tracks, tag));
    }

    method ReplayAll(tag: int, defs: seq<Definition>, points: seq<Point>, known: set<int>, wall: Time)
      modifies this`tracks, this`pending, this`rows
      ensures State() == Steps(old(State()), SeriesMicros(tag, defs, points, known, wall))
    {
      ghost var base := State();
      for i := 0 to |points|
        invariant State() == Steps(base, SeriesMicros(tag, defs, points[..i], known, wall))
      {
        ghost var before := SeriesMicros(tag, defs, points[..i], known, wall);
        assert points[..i + 1][..i] == points[..i];
        var p := points[i];
        if p.reading.Numeric? {
          ReplayPoint(tag, defs, p.at, p.reading.v, known, wall);
          StepsConcat(base, before, PointMicros(tag, defs, p.at, p.reading.v, known, wall));
        } else {
          assert SeriesMicros(tag, defs, points[..i + 1], known, wall) == before;
        }
      }
      assert points[..|points|] == points;
    }

    /** One reading of a batch through every value rule. */
    method ReplayPoint(tag: int, defs: seq<Definition>, at: Time, v: Value, known: set<int>, wall: Time)
      modifies this`tracks, this`pending, this`rows
      ensures State() == Steps(old(State()), PointMicros(tag, defs, at, v, known, wall))
    {
      ghost var base := State();
      for i := 0 to |defs|
        invariant State() == Steps(base, PointMicros(tag, defs[..i], at, v, known, wall))
      {
        ghost var before := PointMicros(tag, defs[..i], at, v, known, wall);
        assert defs[..i + 1][..i] == defs[..i];
        if !IsHealth(defs[i].alarmType) {
          SeriesStep(tag, defs[i], at, v, defs[i].id in known, wall);
          StepsSnoc(base, before, Micro(Key(tag, defs[i].id), Replay(defs[i], at, v, defs[i].id in known, wall)));
        } else {
          assert PointMicros(tag, defs[..i + 1], at, v, known, wall) == before;
        }
      }
      assert defs[..|defs|] == defs;
    }

    /** Marks the alarms raised since `first` that are still open. */
    method NotifyNews(tag: int, first: nat)
      modifies this`pending
      ensures pending == MarkNews(old(pending), first, tracks, tag)
    {
      ghost var was := pending;
      var i := first;
      while i < |pending|
        invariant |pending| == |was|
        invariant forall j :: 0 <= j < |was| ==>
          pending[j] == if first <= j < i && IsNews(tracks, tag, was[j]) then was[j].(notify := true) else was[j]
      {
        if IsNews(tracks, tag, pending[i]) {
          pending := pending[i := pending[i].(notify := true)];
        }
        i := i + 1;
      }
      assert pending == MarkNews(was, first, tracks, tag);
    }

    /** LoadDefinitions, from the point where the new rules have been read. */
    method LoadDefinitions(newDefs: map<int, seq<Definition>>) returns (order: seq<Key>)
      modifies this
      ensures Enumerates(order, old(tracks).Keys)
      ensures State() == Reload(old(State()), newDefs, order)
    {
      definitions := newDefs;
      samples := PruneSamples(samples, newDefs);
      ghost var base := State();
      order := Range(tracks.Keys);
      for i := 0 to |order|
        invariant forall j :: i <= j < |order| ==> order[j] in tracks
        invariant State() == Steps(base, DropMicros(order[..i], newDefs))
      {
        DropMicrosUpTo(order, i, newDefs);
        if !Defined(newDefs, order[i]) {
          DropRule(order[i]);
          StepsSnoc(base, DropMicros(order[..i], newDefs), Micro(order[i], Drop));
        }
      }
      assert order[..|order|] == order;
    }

    method DropRule(k: Key)
      requires k in tracks
      modifies this`tracks, this`pending
      ensures State() == Step(old(State()), Micro(k, Drop))
    {
      var t := tracks[k];
      if t.triggered {
        QueueIO(Action(k.tag, t.def, t.initial, Cleared, t.ref, t.firedAt, None, true));
      }
      Forget(k);
      assert pending == Step(old(State()), Micro(k, Drop)).pending;
    }
  }

  lemma DropMicrosUpTo(order: seq<Key>, i: nat, defs: map<int, seq<Definition>>)
    requires i < |order|
    ensures var before, after := DropMicros(order[..i], defs), DropMicros(order[..i + 1], defs);
            if Defined(defs, order[i]) then after == before else after == before + [Micro(order[i], Drop)]
  {
    assert order[..i + 1][..i] == order[..i];
  }

  lemma StepIgnoresSamples(e: Engine, s: map<int, SampleState>, m: Micro)
    ensures Step(e.(samples := s), m) == Step(e, m).(samples := s)
  {
  }
}
