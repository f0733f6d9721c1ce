/** What a sample, a tick and a batch do to one rule, in limits, values and nanoseconds.

Every statement is about the whole operation on all the rules of the manager, and none of them
speaks through the tests and constants that the operations share. */
module AlarmNumbers {
  import opened Options
  import opened AlarmRules
  import opened AlarmEngine
  import opened AlarmFrames
  import Replay = AlarmReplay
  import Writes = AlarmWrites
  import Health = AlarmHealth
  import Occurrences = AlarmOccurrences

  predicate IsHigh(t: AlarmType) { t == High || t == HighHigh }
  predicate IsLow(t: AlarmType) { t == Low || t == LowLow }

  /** The reading is on the wrong side of the limit. A rule without a limit has no wrong side, and a
      NaN is nowhere but not zero. */
  predicate Beyond(def: Definition, v: Value) {
    || (IsHigh(def.alarmType) && v.Num? && def.threshold.Some? && def.threshold.value < v.x)
    || (IsLow(def.alarmType) && v.Num? && def.threshold.Some? && v.x < def.threshold.value)
    || (def.alarmType == BoolTrue && !(v.Num? && v.x == 0.0))
    || (def.alarmType == BoolFalse && v.Num? && v.x == 0.0)
  }

  /** The reading is at least the deadband on the right side of it. */
  predicate WellWithin(def: Definition, v: Value) {
    || (IsHigh(def.alarmType) && v.Num? && def.threshold.Some? && v.x + def.deadband <= def.threshold.value)
    || (IsLow(def.alarmType) && v.Num? && def.threshold.Some? && def.threshold.value <= v.x - def.deadband)
    || (def.alarmType == BoolTrue && v.Num? && v.x == 0.0)
    || (def.alarmType == BoolFalse && !(v.Num? && v.x == 0.0))
    || def.alarmType.Unknown?
  }

  lemma TestsInNumbers(def: Definition, v: Value)
    ensures Violated(def, v) <==> Beyond(def, v)
    ensures !IsHealth(def.alarmType) ==> (BackInSpec(def, v) <==> WellWithin(def, v))
  {
  }

  // ------------------------------------------------------------ one sample

  /** What a sample of value v, taken as of `now`, makes of the rule's track, and what it queues. */
  ghost predicate Sampled(tag: int, def: Definition, v: Value, now: Time, before: Option<Track>,
                          after: Option<Track>, queued: seq<Action>, newRef: nat) {
    match before
    case None =>
      if !Beyond(def, v) then after == None && queued == []
      else if def.delaySeconds != 0 then
        after == Some(Track(def, now, false, v, 0, newRef, 0)) && queued == []
      else
        && after == Some(Track(def, now, true, v, now, newRef, now + 30_000_000_000))
        && queued == [Action(tag, def, v, Active, newRef, now, None, true)]
    case Some(t) =>
      if Beyond(def, v) || (t.triggered && !WellWithin(def, v)) then after == before && queued == []
      else
        && after == None
        && queued == if t.triggered then [Action(tag, def, v, Cleared, t.ref, t.firedAt, Some(now), true)] else []
  }

  /** The rule's track and its share of the queue become these. */
  ghost predicate Turns(e: Engine, e': Engine, k: Key, after: Option<Track>, queued: seq<Action>) {
    e'.TrackOf(k) == after && OfRule(e'.pending, k) == OfRule(e.pending, k) + queued
  }

  lemma LiveInNumbers(tag: int, track: Option<Track>, newRef: nat, def: Definition, now: Time, v: Value)
    requires !IsHealth(def.alarmType)
    ensures var out := LiveStep(tag, track, newRef, def, now, v);
            !out.pulled && Sampled(tag, def, v, now, track, out.track, out.queued, newRef)
  {
    TestsInNumbers(def, v);
  }

  lemma LiveTurns(e: Engine, tag: int, def: Definition, now: Time, v: Value)
    returns (queued: seq<Action>, newRef: nat)
    requires RefsOwned(e) && Replay.ValueRule(e, tag, def)
    ensures var k, e' := Key(tag, def.id), Steps(e, LiveMicros(tag, DefsOf(e.defs, tag), now, v));
            && newRef >= |e.rows| && Turns(e, e', k, e'.TrackOf(k), queued)
            && Sampled(tag, def, v, now, e.TrackOf(k), e'.TrackOf(k), queued, newRef)
  {
    var k, defs := Key(tag, def.id), DefsOf(e.defs, tag);
    var ms := LiveMicros(tag, defs, now, v);
    Replay.LiveMicrosShape(tag, defs, now, v);
    var d := MemberIndex(defs, def);
    var i := Replay.LiveMicrosOnce(tag, defs, now, v, d);
    assert forall j :: 0 <= j < |ms| ==> ms[j] in ms;
    var mid := StepsWithOne(e, ms, k, i);
    Writes.StepsKeepRows(e, ms[..i]);
    StepOwn(mid, ms[i]);
    newRef := |mid.rows|;
    queued := LiveStep(tag, mid.TrackOf(k), newRef, def, now, v).queued;
    LiveInNumbers(tag, mid.TrackOf(k), newRef, def, now, v);
  }

  /** A good sample through all the rules of its tag, seen from one value rule. A time that is not
      given is the wall clock's. */
  lemma SampleOnRule(e: Engine, tag: int, def: Definition, v: Value, at: Time, markLife: bool, wall: Time)
    returns (queued: seq<Action>, newRef: nat)
    requires RefsOwned(e) && Replay.ValueRule(e, tag, def)
    ensures var k, e' := Key(tag, def.id), EvaluateAt(e, tag, Numeric(v), 192, at, markLife, wall);
            && newRef >= |e.rows| && Turns(e, e', k, e'.TrackOf(k), queued)
            && Sampled(tag, def, v, if at == 0 then wall else at, e.TrackOf(k), e'.TrackOf(k), queued, newRef)
  {
    var alive := if markLife then RecordGood(e, tag, DefsOf(e.defs, tag), v, wall) else e;
    Replay.RefsIgnoreSamples(e, alive.samples);
    queued, newRef := LiveTurns(alive, tag, def, if at == 0 then wall else at, v);
  }

  /** Against a limit: an untracked rule comes under track exactly beyond it, and a fired alarm ends
      exactly when the reading is back by the deadband. */
  lemma LimitsIff(e: Engine, tag: int, def: Definition, x: real, limit: real, at: Time, markLife: bool, wall: Time)
    requires RefsOwned(e) && Replay.ValueRule(e, tag, def) && def.threshold == Some(limit) && def.deadband >= 0.0
    ensures var k, e' := Key(tag, def.id), EvaluateAt(e, tag, Numeric(Num(x)), 192, at, markLife, wall);
            && (IsHigh(def.alarmType) && k !in e.tracks ==> (k in e'.tracks <==> x > limit))
            && (IsLow(def.alarmType) && k !in e.tracks ==> (k in e'.tracks <==> x < limit))
            && (IsHigh(def.alarmType) && k in e.tracks && e.tracks[k].triggered ==>
                  (k !in e'.tracks <==> x <= limit - def.deadband))
            && (IsLow(def.alarmType) && k in e.tracks && e.tracks[k].triggered ==>
                  (k !in e'.tracks <==> x >= limit + def.deadband))
  {
    var queued, newRef := SampleOnRule(e, tag, def, Num(x), at, markLife, wall);
  }

  /** Without a limit nothing ever comes under track, and nothing fired ever ends. */
  lemma NoLimitNoAlarm(e: Engine, tag: int, def: Definition, v: Value, at: Time, markLife: bool, wall: Time)
    requires RefsOwned(e) && Replay.ValueRule(e, tag, def) && def.threshold == None
    requires IsHigh(def.alarmType) || IsLow(def.alarmType)
    ensures var k, e' := Key(tag, def.id), EvaluateAt(e, tag, Numeric(v), 192, at, markLife, wall);
            && (k !in e.tracks ==> k !in e'.tracks)
            && (k in e.tracks && e.tracks[k].triggered ==> e'.TrackOf(k) == e.TrackOf(k))
  {
    var queued, newRef := SampleOnRule(e, tag, def, v, at, markLife, wall);
  }

  lemma SwitchSampled(tag: int, def: Definition, x: real, now: Time, before: Option<Track>, after: Option<Track>,
                      queued: seq<Action>, newRef: nat)
    requires Sampled(tag, def, Num(x), now, before, after, queued, newRef)
    ensures def.alarmType == BoolTrue ==> (after.Some? <==> x != 0.0)
    ensures def.alarmType == BoolFalse ==> (after.Some? <==> x == 0.0)
  {
  }

  /** bool_true is beyond at anything but zero and ends at zero; bool_false the other way round. */
  lemma SwitchesIff(e: Engine, tag: int, def: Definition, x: real, at: Time, markLife: bool, wall: Time)
    requires RefsOwned(e) && Replay.ValueRule(e, tag, def)
    ensures var k, e' := Key(tag, def.id), EvaluateAt(e, tag, Numeric(Num(x)), 192, at, markLife, wall);
            && (def.alarmType == BoolTrue ==> (k in e'.tracks <==> x != 0.0))
            && (def.alarmType == BoolFalse ==> (k in e'.tracks <==> x == 0.0))
  {
    var queued, newRef := SampleOnRule(e, tag, def, Num(x), at, markLife, wall);
    var k, now := Key(tag, def.id), if at == 0 then wall else at;
    var e' := EvaluateAt(e, tag, Numeric(Num(x)), 192, at, markLife, wall);
    SwitchSampled(tag, def, x, now, e.TrackOf(k), e'.TrackOf(k), queued, newRef);
  }

  /** A sample of bad quality, of no number or on a tag without rules changes nothing at all. */
  lemma UnjudgedSample(e: Engine, tag: int, reading: Reading, quality: int, at: Time, markLife: bool, wall: Time)
    requires quality != 192 || !reading.Numeric? || DefsOf(e.defs, tag) == []
    ensures EvaluateAt(e, tag, reading, quality, at, markLife, wall) == e
  {
  }

  /** The other tags' rules, and the tag's health rules, are not for a sample to judge. */
  lemma SampleLeavesOthers(e: Engine, tag: int, v: Value, at: Time, markLife: bool, wall: Time, k: Key)
    requires RefsOwned(e) && forall d :: d in DefsOf(e.defs, tag) && k == Key(tag, d.id) ==> IsHealth(d.alarmType)
    ensures Turns(e, EvaluateAt(e, tag, Numeric(v), 192, at, markLife, wall), k, e.TrackOf(k), [])
  {
    var defs, now := DefsOf(e.defs, tag), if at == 0 then wall else at;
    var alive := if markLife then RecordGood(e, tag, defs, v, wall) else e;
    Replay.RefsIgnoreSamples(e, alive.samples);
    var ms := LiveMicros(tag, defs, now, v);
    Replay.LiveMicrosShape(tag, defs, now, v);
    forall i | 0 <= i < |ms|
      ensures WellKeyed(ms[i]) && ms[i].key != k
    {
      assert ms[i] in ms;
    }
    StepsForeign(alive, ms, k);
  }

  // -------------------------------------------------------------- one tick

  /** What a tick at `now` makes of a track whose alarm has a row or not, and what it queues: a delay
      of whole seconds that has run out fires the rule, stamped with its end, and an alarm without a
      row is offered again thirty seconds after it was last. */
  ghost predicate Ticked(k: Key, now: Time, hasRow: bool, before: Option<Track>, after: Option<Track>,
                         queued: seq<Action>) {
    match before
    case None => after == None && queued == []
    case Some(t) =>
      if t.triggered then
        if hasRow || now < t.nextRetry then after == before && queued == []
        else
          && after == Some(t.(nextRetry := now + 30_000_000_000))
          && queued == [Action(k.tag, t.def, t.initial, Active, t.ref, t.firedAt, None, false)]
      else if !IsOver(now - t.activeSince, t.def.delaySeconds) then after == before && queued == []
      else
        var due := t.activeSince + t.def.delaySeconds * 1_000_000_000;
        var firedAt := if due > now then now else due;
        && after == Some(t.(triggered := true, firedAt := firedAt, nextRetry := now + 30_000_000_000))
        && queued == [Action(k.tag, t.def, t.initial, Active, t.ref, firedAt, None, true)]
  }

  /** A delay of some seconds is over after that many; none at all, already in the second before. */
  predicate IsOver(elapsed: int, seconds: int) {
    if seconds == 0 then elapsed > -1_000_000_000 else elapsed >= seconds * 1_000_000_000
  }

  lemma DelayInNumbers(k: Key, track: Option<Track>, persisted: bool, now: Time)
    requires track.Some? && !track.value.triggered ==> track.value.def.delaySeconds >= 0
    ensures var out := DelayStep(k.tag, track, persisted, now);
            !out.pulled && Ticked(k, now, persisted, track, out.track, out.queued)
  {
    if track.Some? {
      WholeSecondsReach(now - track.value.activeSince, track.value.def.delaySeconds);
    }
  }

  /** The rule is waiting for less than nothing. */
  predicate DelaysBackwards(e: Engine, k: Key) {
    k in e.tracks && !e.tracks[k].triggered && e.tracks[k].def.delaySeconds < 0
  }

  predicate HasRow(e: Engine, k: Key) { k in e.tracks && e.RowOf(e.tracks[k].ref) != 0 }

  lemma DelaysTurn(e: Engine, k: Key, now: Time, order: seq<Key>) returns (queued: seq<Action>)
    requires RefsOwned(e) && Enumerates(order, e.tracks.Keys)
    requires !DelaysBackwards(e, k)
    ensures var e' := Steps(e, DelayMicros(order, now));
            && RefsOwned(e') && Turns(e, e', k, e'.TrackOf(k), queued)
            && Ticked(k, now, HasRow(e, k), e.TrackOf(k), e'.TrackOf(k), queued)
  {
    var ms := DelayMicros(order, now);
    if k in e.tracks {
      var i := MemberIndex(order, k);
      var mid := StepsWithOne(e, ms, k, i);
      Writes.RowsStay(e, ms[..i], e.tracks[k].ref);
      StepOwn(mid, ms[i]);
      DelayInNumbers(k, e.TrackOf(k), HasRow(e, k), now);
      queued := DelayStep(k.tag, e.TrackOf(k), HasRow(e, k), now).queued;
    } else {
      StepsForeign(e, ms, k);
      queued := [];
    }
  }

  /** A whole tick, whatever orders it takes its maps in, seen from one value rule. */
  lemma TickOnValueRule(e: Engine, tag: int, def: Definition, now: Time, order: seq<Key>, tags: seq<int>)
    returns (queued: seq<Action>)
    requires RefsOwned(e) && Replay.ValueRule(e, tag, def) && Enumerates(order, e.tracks.Keys)
    requires !DelaysBackwards(e, Key(tag, def.id))
    ensures var k, e' := Key(tag, def.id), Tick(e, now, order, tags);
            && Turns(e, e', k, e'.TrackOf(k), queued)
            && Ticked(k, now, HasRow(e, k), e.TrackOf(k), e'.TrackOf(k), queued)
  {
    var k := Key(tag, def.id);
    queued := DelaysTurn(e, k, now, order);
    var ticked, verdicts := Steps(e, DelayMicros(order, now)), HealthMicros(e, tags, now);
    Replay.HealthMicrosShape(e, tags, now);
    forall i | 0 <= i < |verdicts|
      ensures WellKeyed(verdicts[i]) && verdicts[i].key != k
    {
      assert verdicts[i] in verdicts;
      if verdicts[i].key == k {
        OneOfItsId(DefsOf(e.defs, tag), def, verdicts[i].ev.def);
      }
    }
    StepsForeign(ticked, verdicts, k);
    StepsConcat(e, DelayMicros(order, now), verdicts);
  }


  // ------------------------------------------------------------ health rules

  /** What a health rule's timeout is. */
  predicate IsTimeout(def: Definition, timeout: int) {
    timeout == (if def.delaySeconds > 0 then def.delaySeconds else 60) * 1_000_000_000
  }

  /** comm_loss holds when the tag has been silent for the timeout; frozen when it has not been, and its
      value has not moved for the timeout. */
  predicate Holds(s: SampleState, def: Definition, now: Time, timeout: int) {
    || (def.alarmType == CommLoss && s.lastGood + timeout <= now)
    || (def.alarmType == Frozen && s.hasValue && def.id in s.anchors && now <= s.lastGood + timeout
        && s.anchors[def.id].since + timeout <= now)
  }

  lemma HealthInNumbers(s: SampleState, def: Definition, now: Time, timeout: int)
    requires IsHealth(def.alarmType) && IsTimeout(def, timeout)
    ensures Unhealthy(s, def, now) <==> Holds(s, def, now, timeout)
  {
  }

  /** What the verdict makes of the rule's track: raised at once with the last value, cleared at once. */
  ghost predicate Judged(tag: int, def: Definition, v: Value, now: Time, holds: bool, before: Option<Track>,
                         after: Option<Track>, queued: seq<Action>, newRef: nat) {
    if before.None? && holds then
      && after == Some(Track(def, now, true, v, now, newRef, now + 30_000_000_000))
      && queued == [Action(tag, def, v, Active, newRef, now, None, true)]
    else if before.Some? && !holds then
      && after == None
      && queued == [Action(tag, def, v, Cleared, before.value.ref, before.value.firedAt, None, true)]
    else after == before && queued == []
  }

  lemma VerdictInNumbers(tag: int, track: Option<Track>, newRef: nat, def: Definition, holds: bool, v: Value, now: Time)
    ensures var out := VerdictStep(tag, track, newRef, def, holds, v, now);
            !out.pulled && Judged(tag, def, v, now, holds, track, out.track, out.queued, newRef)
  {
  }

  lemma VerdictsTurn(e: Engine, ticked: Engine, tag: int, def: Definition, now: Time, tags: seq<int>, timeout: int)
    returns (queued: seq<Action>, newRef: nat)
    requires RefsOwned(ticked) && Health.HealthRule(e, tag, def) && Enumerates(tags, e.defs.Keys)
    requires IsTimeout(def, timeout)
    ensures var k, e' := Key(tag, def.id), Steps(ticked, HealthMicros(e, tags, now));
            && newRef >= |ticked.rows| && Turns(ticked, e', k, e'.TrackOf(k), queued)
            && Judged(tag, def, e.samples[tag].lastValue, now, Holds(e.samples[tag], def, now, timeout),
                      ticked.TrackOf(k), e'.TrackOf(k), queued, newRef)
  {
    var k, ms := Key(tag, def.id), HealthMicros(e, tags, now);
    var i := Health.HealthMicrosOnce(e, tags, now, tag, def);
    Replay.HealthMicrosShape(e, tags, now);
    assert forall j :: 0 <= j < |ms| ==> ms[j] in ms;
    var mid := StepsWithOne(ticked, ms, k, i);
    Writes.StepsKeepRows(ticked, ms[..i]);
    StepOwn(mid, ms[i]);
    newRef := |mid.rows|;
    var holds, v := Unhealthy(e.samples[tag], def, now), e.samples[tag].lastValue;
    HealthInNumbers(e.samples[tag], def, now, timeout);
    VerdictInNumbers(tag, mid.TrackOf(k), newRef, def, holds, v, now);
    queued := VerdictStep(tag, mid.TrackOf(k), newRef, def, holds, v, now).queued;
  }

  /** A whole tick, seen from one health rule: the tick of its track, and then the verdict. */
  lemma TickOnHealthRule(e: Engine, tag: int, def: Definition, now: Time, order: seq<Key>, tags: seq<int>, timeout: int)
    returns (mid: Option<Track>, offered: seq<Action>, queued: seq<Action>, newRef: nat)
    requires RefsOwned(e) && Health.HealthRule(e, tag, def) && IsTimeout(def, timeout)
    requires Enumerates(order, e.tracks.Keys) && Enumerates(tags, e.defs.Keys)
    requires !DelaysBackwards(e, Key(tag, def.id))
    ensures var k, e' := Key(tag, def.id), Tick(e, now, order, tags);
            && newRef >= |e.rows| && Turns(e, e', k, e'.TrackOf(k), offered + queued)
            && Ticked(k, now, HasRow(e, k), e.TrackOf(k), mid, offered)
            && Judged(tag, def, e.samples[tag].lastValue, now, Holds(e.samples[tag], def, now, timeout), mid,
                      e'.TrackOf(k), queued, newRef)
  {
    var k, ticked := Key(tag, def.id), Steps(e, DelayMicros(order, now));
    offered := DelaysTurn(e, k, now, order);
    mid := ticked.TrackOf(k);
    Writes.StepsKeepRows(e, DelayMicros(order, now));
    queued, newRef := VerdictsTurn(e, ticked, tag, def, now, tags, timeout);
    StepsConcat(e, DelayMicros(order, now), HealthMicros(e, tags, now));
    Joined(OfRule(e.pending, k), offered, queued);
  }

  lemma Joined(a: seq<Action>, b: seq<Action>, c: seq<Action>)
    ensures (a + b) + c == a + (b + c)
  {
  }

  /** A tag whose memory is lost is silent from the first tick that finds a health rule on it. */
  lemma ClockStarts(e: Engine, tag: int, def: Definition, now: Time, order: seq<Key>, tags: seq<int>)
    requires def in DefsOf(e.defs, tag) && (def.alarmType == CommLoss || def.alarmType == Frozen) && tag !in e.samples
    ensures var s := Tick(e, now, order, tags).samples;
            tag in s && s[tag].lastGood == now && !s[tag].hasValue && s[tag].anchors == map[]
  {
    var i := MemberIndex(DefsOf(e.defs, tag), def);
  }

  // -------------------------------------------------------------- a reload

  /** Some definition of the key's tag has its id. */
  predicate IsDefined(defs: map<int, seq<Definition>>, k: Key) {
    k.tag in defs && exists d :: d in defs[k.tag] && d.id == k.id
  }

  lemma {:induction false} DropMicrosOnce(order: seq<Key>, defs: map<int, seq<Definition>>, k: Key) returns (i: nat)
    requires k in order && !Defined(defs, k) && forall a, b :: 0 <= a < b < |order| ==> order[a] != order[b]
    ensures var ms := DropMicros(order, defs);
            && i < |ms| && ms[i] == Micro(k, Drop) && forall j :: 0 <= j < |ms| && j != i ==> ms[j].key != k
  {
    var n := |order| - 1;
    var init := DropMicros(order[..n], defs);
    if order[n] == k {
      i := |init|;
      Occurrences.DropMicrosShape(order[..n], defs);
      forall j | 0 <= j < |init|
        ensures init[j].key != k
      {
        assert init[j] in init;
      }
    } else {
      i := DropMicrosOnce(order[..n], defs, k);
    }
  }

  lemma DefinedInNumbers(defs: map<int, seq<Definition>>, k: Key)
    ensures Defined(defs, k) <==> IsDefined(defs, k)
  {
    var rules := DefsOf(defs, k.tag);
    if IsDefined(defs, k) {
      var d :| d in defs[k.tag] && d.id == k.id;
      var i := MemberIndex(rules, d);
      assert rules[i].id == k.id;
    }
    if Defined(defs, k) {
      var i :| 0 <= i < |rules| && rules[i].id == k.id;
      assert rules[i] in defs[k.tag];
    }
  }

  lemma DropsTurn(e: Engine, defs: map<int, seq<Definition>>, order: seq<Key>, k: Key)
    requires RefsOwned(e) && Enumerates(order, e.tracks.Keys) && k in e.tracks && !Defined(defs, k)
    ensures var t := e.tracks[k];
            Turns(e, Steps(e, DropMicros(order, defs)), k, None,
                  if t.triggered then [Action(k.tag, t.def, t.initial, Cleared, t.ref, t.firedAt, None, true)] else [])
  {
    var ms := DropMicros(order, defs);
    Occurrences.DropMicrosShape(order, defs);
    assert forall j :: 0 <= j < |ms| ==> ms[j] in ms;
    var i := DropMicrosOnce(order, defs, k);
    var mid := StepsWithOne(e, ms, k, i);
    StepOwn(mid, ms[i]);
  }

  lemma DropsPassBy(e: Engine, defs: map<int, seq<Definition>>, order: seq<Key>, k: Key)
    requires RefsOwned(e) && Enumerates(order, e.tracks.Keys) && (k !in e.tracks || Defined(defs, k))
    ensures Turns(e, Steps(e, DropMicros(order, defs)), k, e.TrackOf(k), [])
  {
    var ms := DropMicros(order, defs);
    Occurrences.DropMicrosShape(order, defs);
    forall i | 0 <= i < |ms|
      ensures WellKeyed(ms[i]) && ms[i].key != k
    {
      assert ms[i] in ms;
    }
    StepsForeign(e, ms, k);
  }

  /** A reload, in whatever order it takes the tracks: a rule that is gone loses its track, and if it had
      fired its alarm is cleared; a rule that stays keeps everything. */
  lemma ReloadOnRule(e: Engine, defs: map<int, seq<Definition>>, order: seq<Key>, k: Key)
    requires RefsOwned(e) && Enumerates(order, e.tracks.Keys)
    ensures var e', t := Reload(e, defs, order), e.TrackOf(k);
            && e'.defs == defs
            && (t.None? || IsDefined(defs, k) ==> Turns(e, e', k, t, []))
            && (t.Some? && !IsDefined(defs, k) && !t.value.triggered ==> Turns(e, e', k, None, []))
            && (t.Some? && !IsDefined(defs, k) && t.value.triggered ==>
                  Turns(e, e', k, None, [Action(k.tag, t.value.def, t.value.initial, Cleared, t.value.ref,
                                                t.value.firedAt, None, true)]))
  {
    var pre := e.(defs := defs, samples := PruneSamples(e.samples, defs));
    assert pre.Queued() == e.Queued();
    DefinedInNumbers(defs, k);
    Replay.StepsKeepDefs(pre, DropMicros(order, defs));
    if k in e.tracks && !Defined(defs, k) {
      DropsTurn(pre, defs, order, k);
    } else {
      DropsPassBy(pre, defs, order, k);
    }
  }

  ghost predicate HasHealthRule(defs: map<int, seq<Definition>>, tag: int) {
    exists d :: d in DefsOf(defs, tag) && (d.alarmType == CommLoss || d.alarmType == Frozen)
  }

  ghost predicate HasFrozenRule(defs: map<int, seq<Definition>>, tag: int, id: int) {
    exists d :: d in DefsOf(defs, tag) && d.id == id && d.alarmType == Frozen
  }

  /** What a tag remembers outlives a reload exactly while it has a health rule, and a frozen rule's
      anchor exactly while that rule stays. */
  lemma ReloadPrunes(e: Engine, defs: map<int, seq<Definition>>, order: seq<Key>, tag: int)
    ensures var s := Reload(e, defs, order).samples;
            && (tag in s <==> tag in e.samples && HasHealthRule(defs, tag))
            && (tag in s ==>
                  && s[tag] == e.samples[tag].(anchors := s[tag].anchors)
                  && (forall id ::
                        id in s[tag].anchors <==> id in e.samples[tag].anchors && HasFrozenRule(defs, tag, id))
                  && forall id :: id in s[tag].anchors ==> s[tag].anchors[id] == e.samples[tag].anchors[id])
  {
    Health.StepsKeepSamples(e.(defs := defs, samples := PruneSamples(e.samples, defs)), DropMicros(order, defs));
    HealthRulesInNumbers(DefsOf(defs, tag));
    assert HasHealth(DefsOf(defs, tag)) <==> HasHealthRule(defs, tag);
    assert forall id :: KeepsAnchor(DefsOf(defs, tag), id) <==> HasFrozenRule(defs, tag, id);
  }

  lemma HealthRulesInNumbers(rules: seq<Definition>)
    ensures HasHealth(rules) <==> exists d :: d in rules && (d.alarmType == CommLoss || d.alarmType == Frozen)
    ensures forall id :: KeepsAnchor(rules, id) <==> exists d :: d in rules && d.id == id && d.alarmType == Frozen
  {
    forall d | d in rules
      ensures exists i :: 0 <= i < |rules| && rules[i] == d
    {
      var i := MemberIndex(rules, d);
    }
    assert forall i :: 0 <= i < |rules| ==> rules[i] in rules;
  }
}
