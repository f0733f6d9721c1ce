/** The health rules: judged on the clock, against what the samples left behind.

After every tick that finds health state for the tag, a comm_loss rule is tracked
exactly when the silence has reached its timeout, and a frozen rule exactly when the
tag is heard from but has stayed within the deadband of one value for the timeout. */
module AlarmHealth {
  import opened Options
  import opened AlarmRules
  import opened AlarmEngine
  import opened AlarmFrames
  import opened AlarmOccurrences
  import opened AlarmDrain
  import Replay = AlarmReplay

  ghost predicate HealthRule(e: Engine, tag: int, def: Definition) {
    && tag in e.defs && DistinctIds(e.defs[tag]) && def in e.defs[tag] && IsHealth(def.alarmType)
    && tag in e.samples
  }

  /** The verdict on a health rule, as the tick of its tag issues it. */
  function VerdictOn(e: Engine, tag: int, def: Definition, now: Time): Micro
    requires tag in e.samples
  {
    Micro(Key(tag, def.id), Verdict(def, Unhealthy(e.samples[tag], def, now), e.samples[tag].lastValue, now))
  }

  lemma {:induction false} VerdictMicrosOnce(tag: int, s: SampleState, defs: seq<Definition>, now: Time, d: nat)
    returns (i: nat)
    requires DistinctIds(defs) && d < |defs| && IsHealth(defs[d].alarmType)
    ensures var ms := VerdictMicros(tag, s, defs, now);
            && i < |ms|
            && ms[i] == Micro(Key(tag, defs[d].id), Verdict(defs[d], Unhealthy(s, defs[d], now), s.lastValue, now))
            && forall j :: 0 <= j < |ms| && j != i ==> ms[j].key != Key(tag, defs[d].id)
  {
    var n := |defs| - 1;
    var init := VerdictMicros(tag, s, defs[..n], now);
    Replay.VerdictMicrosShape(tag, s, defs[..n], now);
    if d == n {
      i := |init|;
      forall j | 0 <= j < |init|
        ensures init[j].key != Key(tag, defs[d].id)
      {
        assert init[j] in init;
      }
    } else {
      i := VerdictMicrosOnce(tag, s, defs[..n], now, d);
    }
  }

  /** The tick judges the rule exactly once. */
  lemma {:induction false} HealthMicrosOnce(e: Engine, tags: seq<int>, now: Time, tag: int, def: Definition)
    returns (i: nat)
    requires HealthRule(e, tag, def) && tag in tags && forall a, b :: 0 <= a < b < |tags| ==> tags[a] != tags[b]
    ensures var ms := HealthMicros(e, tags, now);
            && i < |ms| && ms[i] == VerdictOn(e, tag, def, now)
            && forall j :: 0 <= j < |ms| && j != i ==> ms[j].key != Key(tag, def.id)
  {
    var n := |tags| - 1;
    var init := HealthMicros(e, tags[..n], now);
    Replay.HealthMicrosShape(e, tags[..n], now);
    if tags[n] == tag {
      var d := MemberIndex(e.defs[tag], def);
      var at := VerdictMicrosOnce(tag, e.samples[tag], e.defs[tag], now, d);
      i := |init| + at;
      forall j | 0 <= j < |init|
        ensures init[j].key != Key(tag, def.id)
      {
        assert init[j] in init;
        assert tag !in tags[..n];
      }
    } else {
      i := HealthMicrosOnce(e, tags[..n], now, tag, def);
      if tags[n] in e.samples {
        var last := VerdictMicros(tags[n], e.samples[tags[n]], DefsOf(e.defs, tags[n]), now);
        Replay.VerdictMicrosShape(tags[n], e.samples[tags[n]], DefsOf(e.defs, tags[n]), now);
        assert forall j :: 0 <= j < |last| ==> last[j] in last;
      }
    }
  }

  /** What the rule's share of the state becomes under one of its events. */
  ghost predicate Becomes(e: Engine, e': Engine, k: Key, out: Outcome) {
    RefsOwned(e') && e'.TrackOf(k) == out.track
      && (!out.pulled ==> OfRule(e'.pending, k) == OfRule(e.pending, k) + out.queued)
  }

  lemma OneEventBecomes(e: Engine, ms: seq<Micro>, k: Key, i: nat) returns (persisted: bool, newRef: nat)
    requires RefsOwned(e) && forall m :: m in ms ==> WellKeyed(m)
    requires i < |ms| && ms[i].key == k && forall j :: 0 <= j < |ms| && j != i ==> ms[j].key != k
    ensures Becomes(e, Steps(e, ms), k, RuleStep(k.tag, e.TrackOf(k), persisted, newRef, ms[i].ev))
  {
    assert forall j :: 0 <= j < |ms| ==> ms[j] in ms;
    var mid := StepsWithOne(e, ms, k, i);
    StepOwn(mid, ms[i]);
    var t := mid.TrackOf(k);
    persisted, newRef := t.Some? && mid.RowOf(t.value.ref) != 0, |mid.rows|;
  }

  lemma DelaysBecome(e: Engine, order: seq<Key>, k: Key, now: Time) returns (persisted: bool)
    requires RefsOwned(e) && Enumerates(order, e.tracks.Keys)
    ensures Becomes(e, Steps(e, DelayMicros(order, now)), k, DelayStep(k.tag, e.TrackOf(k), persisted, now))
  {
    var delays := DelayMicros(order, now);
    if k in e.tracks {
      var newRef;
      var i := MemberIndex(order, k);
      persisted, newRef := OneEventBecomes(e, delays, k, i);
    } else {
      StepsForeign(e, delays, k);
      persisted := false;
    }
  }

  /** The tick, for a health rule: the tick of its track, then its verdict. */
  lemma TickOfHealthRule(e: Engine, tag: int, def: Definition, now: Time, order: seq<Key>, tags: seq<int>)
    returns (ticked: Engine, persisted: bool, newRef: nat)
    requires RefsOwned(e) && HealthRule(e, tag, def)
    requires Enumerates(order, e.tracks.Keys) && Enumerates(tags, e.defs.Keys)
    ensures var k := Key(tag, def.id);
            && Becomes(e, ticked, k, DelayStep(tag, e.TrackOf(k), persisted, now))
            && Becomes(ticked, Tick(e, now, order, tags), k,
                 VerdictStep(tag, ticked.TrackOf(k), newRef, def, Unhealthy(e.samples[tag], def, now),
                             e.samples[tag].lastValue, now))
  {
    var k := Key(tag, def.id);
    persisted := DelaysBecome(e, order, k, now);
    ticked := Steps(e, DelayMicros(order, now));
    newRef := VerdictsBecome(e, ticked, tag, def, now, tags);
    StepsConcat(e, DelayMicros(order, now), HealthMicros(e, tags, now));
  }

  lemma VerdictsBecome(e: Engine, ticked: Engine, tag: int, def: Definition, now: Time, tags: seq<int>)
    returns (newRef: nat)
    requires RefsOwned(ticked) && HealthRule(e, tag, def) && Enumerates(tags, e.defs.Keys)
    ensures var k := Key(tag, def.id);
            Becomes(ticked, Steps(ticked, HealthMicros(e, tags, now)).(samples := StartClocks(e, now)), k,
                 VerdictStep(tag, ticked.TrackOf(k), newRef, def, Unhealthy(e.samples[tag], def, now),
                             e.samples[tag].lastValue, now))
  {
    var k, verdicts := Key(tag, def.id), HealthMicros(e, tags, now);
    var i := HealthMicrosOnce(e, tags, now, tag, def);
    Replay.HealthMicrosShape(e, tags, now);
    newRef := OneVerdictBecomes(ticked, verdicts, k, i);
    BecomesIgnoresSamples(ticked, Steps(ticked, verdicts), k, VerdictOf(ticked, k, newRef, verdicts[i].ev),
                          StartClocks(e, now));
  }

  function VerdictOf(e: Engine, k: Key, newRef: nat, ev: RuleEvent): Outcome
    requires ev.Verdict?
  {
    VerdictStep(k.tag, e.TrackOf(k), newRef, ev.def, ev.violated, ev.v, ev.now)
  }

  lemma OneVerdictBecomes(e: Engine, ms: seq<Micro>, k: Key, i: nat) returns (newRef: nat)
    requires RefsOwned(e) && forall m :: m in ms ==> WellKeyed(m)
    requires i < |ms| && ms[i].key == k && ms[i].ev.Verdict? && forall j :: 0 <= j < |ms| && j != i ==> ms[j].key != k
    ensures Becomes(e, Steps(e, ms), k, VerdictOf(e, k, newRef, ms[i].ev))
  {
    var p;
    p, newRef := OneEventBecomes(e, ms, k, i);
  }

  lemma BecomesIgnoresSamples(e: Engine, e': Engine, k: Key, out: Outcome, samples: map<int, SampleState>)
    requires Becomes(e, e', k, out)
    ensures Becomes(e, e'.(samples := samples), k, out)
  {
    Replay.RefsIgnoreSamples(e', samples);
  }

  /** After the tick a health rule is tracked exactly when it is judged unhealthy. */
  lemma TrackedIffUnhealthy(e: Engine, tag: int, def: Definition, now: Time, order: seq<Key>, tags: seq<int>)
    requires RefsOwned(e) && HealthRule(e, tag, def)
    requires Enumerates(order, e.tracks.Keys) && Enumerates(tags, e.defs.Keys)
    ensures Key(tag, def.id) in Tick(e, now, order, tags).tracks <==> Unhealthy(e.samples[tag], def, now)
  {
    var ticked, persisted, newRef := TickOfHealthRule(e, tag, def, now, order, tags);
  }

  /** comm_loss: tracked exactly when the silence has reached the timeout. */
  lemma CommLossIffSilent(e: Engine, tag: int, def: Definition, now: Time, order: seq<Key>, tags: seq<int>)
    requires RefsOwned(e) && HealthRule(e, tag, def) && def.alarmType.CommLoss?
    requires Enumerates(order, e.tracks.Keys) && Enumerates(tags, e.defs.Keys)
    ensures Key(tag, def.id) in Tick(e, now, order, tags).tracks
            <==> now - e.samples[tag].lastGood
                 >= (if def.delaySeconds > 0 then def.delaySeconds else 60) * 1_000_000_000
  {
    TrackedIffUnhealthy(e, tag, def, now, order, tags);
  }

  // ------------------------------------------------------- frozen, over a history

  /** A trustworthy reading and when it arrived. */
  datatype Good = Good(v: Value, at: Time)

  /** The reading a frozen rule measures stillness from: the last real change. */
  function AnchorIndex(h: seq<Good>, deadband: real): (i: nat)
    requires |h| > 0
    ensures i < |h|
  {
    if |h| == 1 then 0
    else
      var i := AnchorIndex(h[..|h| - 1], deadband);
      if Moved(h[|h| - 1].v, h[i].v, deadband) then |h| - 1 else i
  }

  /** Since the anchor no reading has left the deadband around it. */
  lemma {:induction false} StillSinceAnchor(h: seq<Good>, deadband: real)
    requires |h| > 0 && deadband >= 0.0
    ensures var i := AnchorIndex(h, deadband);
            forall j :: i <= j < |h| ==> Near(h[j].v, h[i].v, deadband)
  {
    if |h| > 1 {
      StillSinceAnchor(h[..|h| - 1], deadband);
    }
  }

  /** The tag's memory is that of the good readings `h` since the rule exists. */
  ghost predicate Remembers(s: SampleState, def: Definition, h: seq<Good>) {
    && Anchored(s.anchors, def, h)
    && (|h| > 0 ==> s.hasValue && s.lastGood == h[|h| - 1].at && s.lastValue == h[|h| - 1].v)
  }

  lemma {:induction false} MoveAnchorsOwn(anchors: map<int, Anchor>, defs: seq<Definition>, v: Value, now: Time, d: nat)
    requires DistinctIds(defs) && d < |defs|
    ensures var id := defs[d].id; var r := MoveAnchors(anchors, defs, v, now);
            var own := MoveAnchor(anchors, defs[d], v, now);
            (id in r <==> id in own) && (id in r ==> r[id] == own[id])
  {
    var n := |defs| - 1;
    if d == n {
      MoveAnchorsOther(anchors, defs[..n], v, now, defs[d].id);
    } else {
      MoveAnchorsOwn(anchors, defs[..n], v, now, d);
    }
  }

  lemma {:induction false} MoveAnchorsOther(anchors: map<int, Anchor>, defs: seq<Definition>, v: Value, now: Time,
                                            id: int)
    requires forall i :: 0 <= i < |defs| ==> defs[i].id != id
    ensures var r := MoveAnchors(anchors, defs, v, now);
            (id in r <==> id in anchors) && (id in r ==> r[id] == anchors[id])
  {
    if |defs| > 0 {
      MoveAnchorsOther(anchors, defs[..|defs| - 1], v, now, id);
    }
  }

  /** A frozen rule of the tag, under definitions with distinct ids. */
  ghost predicate FrozenRule(defs: map<int, seq<Definition>>, tag: int, def: Definition) {
    tag in defs && DistinctIds(defs[tag]) && def in defs[tag] && def.alarmType.Frozen?
  }

  lemma RecordRemembers(e: Engine, tag: int, def: Definition, v: Value, now: Time, h: seq<Good>)
    requires FrozenRule(e.defs, tag, def)
    requires if tag in e.samples then Remembers(e.samples[tag], def, h) else h == []
    ensures tag in RecordGood(e, tag, e.defs[tag], v, now).samples
    ensures Remembers(RecordGood(e, tag, e.defs[tag], v, now).samples[tag], def, h + [Good(v, now)])
  {
    var anchors := if tag in e.samples then e.samples[tag].anchors else map[];
    var d := MemberIndex(e.defs[tag], def);
    MoveAnchorsOwn(anchors, e.defs[tag], v, now, d);
    AnchorFollows(anchors, def, v, now, h);
  }

  /** The anchor kept for the rule is the reading its history measures stillness from. */
  ghost predicate Anchored(anchors: map<int, Anchor>, def: Definition, h: seq<Good>) {
    if |h| == 0 then def.id !in anchors
    else
      var i := AnchorIndex(h, def.deadband);
      def.id in anchors && anchors[def.id] == Anchor(h[i].v, h[i].at)
  }

  lemma AnchorFollows(anchors: map<int, Anchor>, def: Definition, v: Value, now: Time, h: seq<Good>)
    requires def.alarmType.Frozen? && Anchored(anchors, def, h)
    ensures Anchored(MoveAnchor(anchors, def, v, now), def, h + [Good(v, now)])
  {
    var h' := h + [Good(v, now)];
    assert h'[..|h|] == h;
  }

  /** The readings a section records as signs of life of a tag. */
  function SignsOfLife(e: Engine, ev: Event, tag: int): seq<Good> {
    match ev
    case Sample(t, reading, quality, _, markLife, wall) =>
      if t == tag && |DefsOf(e.defs, tag)| > 0 && markLife && quality == QUALITY_GOOD && reading.Numeric?
      then [Good(reading.v, wall)] else []
    case Batch(t, points, quality, wall) =>
      if t == tag && |points| > 0 && |DefsOf(e.defs, tag)| > 0 && quality == QUALITY_GOOD
      then
        var last := SortByTime(points)[|points| - 1].reading;
        if last.Numeric? then [Good(last.v, wall)] else []
      else []
    case _ => []
  }

  ghost predicate Recalls(e: Engine, tag: int, def: Definition, h: seq<Good>) {
    if tag in e.samples then Remembers(e.samples[tag], def, h) else h == []
  }

  /** The tag's memory after a section: as before, or with the sign of life. */
  ghost predicate MemoryAfter(e: Engine, e': Engine, tag: int, live: seq<Good>) {
    if live == [] then
      && (tag in e'.samples <==> tag in e.samples)
      && (tag in e.samples ==> e'.samples[tag] == e.samples[tag])
    else
      var r := RecordGood(e, tag, DefsOf(e.defs, tag), live[0].v, live[0].at);
      tag in e'.samples && e'.samples[tag] == r.samples[tag]
  }

  lemma SampleMemory(e: Engine, ev: Event, tag: int)
    requires ev.Sample?
    ensures MemoryAfter(e, Section(e, ev), tag, SignsOfLife(e, ev, tag))
  {
    var defs := DefsOf(e.defs, ev.tag);
    if |defs| != 0 && ev.quality == QUALITY_GOOD && ev.reading.Numeric? {
      var pre := if ev.markLife then RecordGood(e, ev.tag, defs, ev.reading.v, ev.wall) else e;
      StepsKeepSamples(pre, LiveMicros(ev.tag, defs, if ev.at == ZERO_TIME then ev.wall else ev.at, ev.reading.v));
    }
  }

  lemma BatchMemory(e: Engine, ev: Event, tag: int)
    requires ev.Batch?
    ensures MemoryAfter(e, Section(e, ev), tag, SignsOfLife(e, ev, tag))
  {
    if |ev.points| > 0 && |DefsOf(e.defs, ev.tag)| > 0 && ev.quality == QUALITY_GOOD {
      BatchSamples(e, ev);
    }
  }

  lemma BatchSamples(e: Engine, ev: Event)
    requires ev.Batch? && |ev.points| > 0 && |DefsOf(e.defs, ev.tag)| > 0 && ev.quality == QUALITY_GOOD
    ensures Section(e, ev).samples == BatchAlive(e, ev.tag, SortByTime(ev.points), ev.wall).samples
  {
    var sorted := SortByTime(ev.points);
    var alive := BatchAlive(e, ev.tag, sorted, ev.wall);
    StepsKeepSamples(alive, SeriesMicros(ev.tag, DefsOf(e.defs, ev.tag), sorted, KnownRules(e, ev.tag), ev.wall));
  }

  lemma {:induction false} StepsKeepSamples(e: Engine, ms: seq<Micro>)
    ensures Steps(e, ms).samples == e.samples
  {
    if |ms| > 0 {
      StepsKeepSamples(e, ms[..|ms| - 1]);
    }
  }

  /** Every section that keeps the rule as it is keeps its memory right. */
  lemma SectionRecalls(e: Engine, ev: Event, tag: int, def: Definition, h: seq<Good>)
    requires FrozenRule(e.defs, tag, def) && Recalls(e, tag, def, h)
    requires ev.NewRules? ==> FrozenRule(ev.defs, tag, def)
    ensures Recalls(Section(e, ev), tag, def, h + SignsOfLife(e, ev, tag))
  {
    var live := SignsOfLife(e, ev, tag);
    match ev {
      case TickAt(now, order, tags) =>
        assert h + live == h;
      case NewRules(defs, order) =>
        StepsKeepSamples(e.(defs := defs, samples := PruneSamples(e.samples, defs)), DropMicros(order, defs));
        var d := MemberIndex(defs[tag], def);
        assert IsHealth(defs[tag][d].alarmType);
        assert HasHealth(defs[tag]) && KeepsAnchor(defs[tag], def.id);
        assert h + live == h;
      case _ =>
        if ev.Sample? { SampleMemory(e, ev, tag); } else { BatchMemory(e, ev, tag); }
        if live == [] {
          assert h + live == h;
        } else {
          RecordRemembers(e, tag, def, live[0].v, live[0].at, h);
          assert h + live == h + [Good(live[0].v, live[0].at)];
        }
    }
  }

  /** frozen: tracked exactly when the tag was heard from within the timeout and the
      last real change is at least the timeout old; and then every reading since that
      change lies within the deadband of its value. */
  lemma FrozenIffStill(e: Engine, tag: int, def: Definition, now: Time, order: seq<Key>, tags: seq<int>, h: seq<Good>)
    requires RefsOwned(e) && HealthRule(e, tag, def) && def.alarmType.Frozen? && def.deadband >= 0.0
    requires Enumerates(order, e.tracks.Keys) && Enumerates(tags, e.defs.Keys)
    requires |h| > 0 && Remembers(e.samples[tag], def, h)
    ensures var i := AnchorIndex(h, def.deadband); var tracked := Key(tag, def.id) in Tick(e, now, order, tags).tracks;
            var timeout := (if def.delaySeconds > 0 then def.delaySeconds else 60) * 1_000_000_000;
            && (tracked <==> now - h[|h| - 1].at <= timeout <= now - h[i].at)
            && (forall j :: i <= j < |h| ==> Near(h[j].v, h[i].v, def.deadband))
  {
    TrackedIffUnhealthy(e, tag, def, now, order, tags);
    StillSinceAnchor(h, def.deadband);
  }

  /** The numbers are at most the deadband apart; a NaN is near everything. */
  predicate Near(v: Value, a: Value, deadband: real) { v.Num? && a.Num? ==> -deadband <= v.x - a.x <= deadband }

  /** The anchor is the first reading, or one that left the deadband around the anchor before it. */
  lemma {:induction false} AnchorIsAChange(h: seq<Good>, deadband: real)
    requires |h| > 0
    ensures var i := AnchorIndex(h, deadband);
            i > 0 ==> !Near(h[i].v, h[AnchorIndex(h[..i], deadband)].v, deadband)
  {
    var init := h[..|h| - 1];
    var i := AnchorIndex(h, deadband);
    if 0 < i < |h| - 1 {
      AnchorIsAChange(init, deadband);
      assert init[..i] == h[..i];
    }
  }

  /** One unplugged cable raises one alarm: comm_loss and frozen rules with the same
      timeout hold together only at the instant the silence equals it. */
  lemma MuteIsNotFrozen(e: Engine, tag: int, mute: Definition, frozen: Definition, now: Time, order: seq<Key>,
                        tags: seq<int>)
    requires RefsOwned(e) && HealthRule(e, tag, mute) && HealthRule(e, tag, frozen)
    requires mute.alarmType.CommLoss? && frozen.alarmType.Frozen?
    requires (if mute.delaySeconds > 0 then mute.delaySeconds else 60)
             == if frozen.delaySeconds > 0 then frozen.delaySeconds else 60
    requires Enumerates(order, e.tracks.Keys) && Enumerates(tags, e.defs.Keys)
    ensures var tracks := Tick(e, now, order, tags).tracks;
            Key(tag, mute.id) in tracks && Key(tag, frozen.id) in tracks ==>
              now - e.samples[tag].lastGood == (if mute.delaySeconds > 0 then mute.delaySeconds else 60) * 1_000_000_000
  {
    TrackedIffUnhealthy(e, tag, mute, now, order, tags);
    TrackedIffUnhealthy(e, tag, frozen, now, order, tags);
  }

  // ------------------------------------------------------------ every run

  /** The signs of life of a tag over a run of the whole system. */
  ghost function GoodReadings(s: System, moves: seq<Move>, tag: int): seq<Good> {
    if |moves| == 0 then []
    else
      var n := |moves| - 1;
      GoodReadings(s, moves[..n], tag)
      + if moves[n].Lock? then SignsOfLife(After(s, moves[..n]).engine, moves[n].ev, tag) else []
  }

  ghost predicate KeepsRule(moves: seq<Move>, tag: int, def: Definition) {
    forall i :: 0 <= i < |moves| && moves[i].Lock? && moves[i].ev.NewRules? ==> FrozenRule(moves[i].ev.defs, tag, def)
  }

  lemma SectionDefs(e: Engine, ev: Event)
    ensures Section(e, ev).defs == if ev.NewRules? then ev.defs else e.defs
  {
    var pre, ms := SectionShape(e, ev);
    Replay.StepsKeepDefs(pre, ms);
  }

  lemma IoLeavesSamples(s: System, mv: Move)
    requires Enabled(s, mv) && !mv.Lock?
    ensures Do(s, mv).engine.samples == s.engine.samples && Do(s, mv).engine.defs == s.engine.defs
  {
  }

  /** In every run that keeps a frozen rule as it is, what the rule is judged on is
      the history of good readings, in whatever order the sections interleaved. */
  lemma {:induction false} EveryRunRecalls(s: System, moves: seq<Move>, tag: int, def: Definition)
    requires IsRun(s, moves) && KeepsRule(moves, tag, def)
    requires FrozenRule(s.engine.defs, tag, def) && tag !in s.engine.samples
    ensures FrozenRule(After(s, moves).engine.defs, tag, def)
    ensures Recalls(After(s, moves).engine, tag, def, GoodReadings(s, moves, tag))
  {
    if |moves| > 0 {
      var n := |moves| - 1;
      EveryRunRecalls(s, moves[..n], tag, def);
      var z, h := After(s, moves[..n]), GoodReadings(s, moves[..n], tag);
      if moves[n].Lock? {
        SectionDefs(z.engine, moves[n].ev);
        SectionRecalls(z.engine, moves[n].ev, tag, def, h);
      } else {
        IoLeavesSamples(z, moves[n]);
        assert GoodReadings(s, moves, tag) == h;
      }
    }
  }
}
