/** Replaying a batch is living through it.

For every value rule, running a batch of past readings through
EvaluateTagSeries gives the same occurrences, with the same trigger and clear
times, as feeding each reading to evaluateAt at its own time and ticking the
delays there, except that occurrences of no duration are dropped. */
module AlarmReplay {
  import opened Options
  import opened AlarmRules
  import opened AlarmEngine
  import opened AlarmFrames

  /** An occurrence that has ended. */
  datatype Occurrence = Occurrence(triggeredAt: Time, clearedAt: Option<Time>)

  function Closed(q: seq<Action>): seq<Occurrence> {
    if |q| == 0 then []
    else
      var a := q[|q| - 1];
      Closed(q[..|q| - 1]) + if a.status.Cleared? then [Occurrence(a.triggeredAt, a.clearedAt)] else []
  }

  /** The occurrences that lasted. */
  function Lasting(os: seq<Occurrence>): seq<Occurrence> {
    if |os| == 0 then []
    else
      var o := os[|os| - 1];
      Lasting(os[..|os| - 1])
      + if o.clearedAt.Some? && o.clearedAt.value <= o.triggeredAt then [] else [o]
  }

  lemma {:induction false} ClosedConcat(a: seq<Action>, b: seq<Action>)
    ensures Closed(a + b) == Closed(a) + Closed(b)
  {
    if |b| == 0 {
      assert a + b == a;
    } else {
      ClosedConcat(a, b[..|b| - 1]);
      assert (a + b)[..|a + b| - 1] == a + b[..|b| - 1];
    }
  }

  lemma {:induction false} LastingConcat(a: seq<Occurrence>, b: seq<Occurrence>)
    ensures Lasting(a + b) == Lasting(a) + Lasting(b)
  {
    if |b| == 0 {
      assert a + b == a;
    } else {
      LastingConcat(a, b[..|b| - 1]);
      assert (a + b)[..|a + b| - 1] == a + b[..|b| - 1];
    }
  }

  /** Pulling an occurrence back only takes ACTIVE actions out. */
  lemma {:induction false} ClosedWithout(q: seq<Action>, k: Key, ref: nat)
    requires forall a :: a in q && SameOccurrence(a, k, ref) ==> a.status.Active?
    ensures Closed(OfRule(Without(q, k, ref), k)) == Closed(OfRule(q, k))
  {
    if |q| > 0 {
      var init, last := q[..|q| - 1], q[|q| - 1];
      ClosedWithout(init, k, ref);
      var own := if last.Rule() == k then [last] else [];
      ClosedConcat(OfRule(init, k), own);
      if !SameOccurrence(last, k, ref) {
        OfRuleConcat(Without(init, k, ref), [last], k);
        assert OfRule([last], k) == own;
        ClosedConcat(OfRule(Without(init, k, ref), k), own);
      } else {
        assert last in q;
        assert Closed(own) == [];
      }
    }
  }

  lemma {:induction false} ClosedMarkNews(q: seq<Action>, first: nat, tracks: map<Key, Track>, tag: int, k: Key)
    ensures Closed(OfRule(MarkNews(q, first, tracks, tag), k)) == Closed(OfRule(q, k))
  {
    if |q| > 0 {
      var n := |q| - 1;
      ClosedMarkNews(q[..n], first, tracks, tag, k);
      var marked := MarkNews(q, first, tracks, tag);
      assert marked[..n] == MarkNews(q[..n], first, tracks, tag);
      var own := if q[n].Rule() == k then [q[n]] else [];
      var own' := if q[n].Rule() == k then [marked[n]] else [];
      ClosedConcat(OfRule(q[..n], k), own);
      ClosedConcat(OfRule(marked[..n], k), own');
      assert Closed(own) == Closed(own');
    }
  }

  /** Two tracks of the same rule that differ in their bookkeeping only. */
  predicate Match(a: Option<Track>, b: Option<Track>, def: Definition) {
    match (a, b)
    case (None, None) => true
    case (Some(s), Some(t)) =>
      && s.def == def && t.def == def
      && s.activeSince == t.activeSince && s.triggered == t.triggered
      && s.initial == t.initial && s.firedAt == t.firedAt
      && (!s.triggered ==> def.delaySeconds > 0)
    case _ => false
  }

  /** One reading: the replayed rule against the live rule and its tick. */
  lemma ReplayIsLiveThenTick(tag: int, a: Option<Track>, b: Option<Track>, def: Definition, at: Time, v: Value,
                             refA: nat, refB: nat, known: bool, wall: Time, persisted: bool)
    requires Match(a, b, def) && def.delaySeconds >= 0
    ensures var replay := ReplayStep(tag, a, refA, def, at, v, known, wall);
            var live := LiveStep(tag, b, refB, def, at, v);
            var tick := DelayStep(tag, live.track, persisted, at);
            && Match(replay.track, tick.track, def)
            && Closed(replay.queued) == Lasting(Closed(live.queued) + Closed(tick.queued))
            && !live.pulled && !tick.pulled
  {
    if Violated(def, v) {
      ReplayOfViolation(tag, a, b, def, at, v, refA, refB, known, wall, persisted);
    } else {
      ReplayOfCalm(tag, a, b, def, at, v, refA, refB, known, wall, persisted);
    }
  }

  lemma ReplayOfViolation(tag: int, a: Option<Track>, b: Option<Track>, def: Definition, at: Time, v: Value,
                          refA: nat, refB: nat, known: bool, wall: Time, persisted: bool)
    requires Match(a, b, def) && def.delaySeconds >= 0 && Violated(def, v)
    ensures var replay := ReplayStep(tag, a, refA, def, at, v, known, wall);
            var live := LiveStep(tag, b, refB, def, at, v);
            var tick := DelayStep(tag, live.track, persisted, at);
            && Match(replay.track, tick.track, def) && !live.pulled && !tick.pulled
            && Closed(replay.queued) == Lasting(Closed(live.queued) + Closed(tick.queued)) == []
  {
    var replay, live := ReplayStep(tag, a, refA, def, at, v, known, wall), LiveStep(tag, b, refB, def, at, v);
    var tick := DelayStep(tag, live.track, persisted, at);
    WholeSecondsReach(at - live.track.value.activeSince, def.delaySeconds);
    NothingCloses(replay.queued);
    NothingCloses(live.queued);
    NothingCloses(tick.queued);
  }

  lemma NothingCloses(q: seq<Action>)
    requires |q| <= 1 && forall a :: a in q ==> a.status.Active?
    ensures Closed(q) == []
  {
  }

  lemma ReplayOfCalm(tag: int, a: Option<Track>, b: Option<Track>, def: Definition, at: Time, v: Value,
                     refA: nat, refB: nat, known: bool, wall: Time, persisted: bool)
    requires Match(a, b, def) && def.delaySeconds >= 0 && !Violated(def, v)
    ensures var replay := ReplayStep(tag, a, refA, def, at, v, known, wall);
            var live := LiveStep(tag, b, refB, def, at, v);
            var tick := DelayStep(tag, live.track, persisted, at);
            && Match(replay.track, tick.track, def) && !live.pulled && !tick.pulled
            && Closed(replay.queued) == Lasting(Closed(live.queued) + Closed(tick.queued))
  {
    if b.Some? && b.value.triggered && BackInSpec(def, v) {
      ReplayOfEnd(tag, a, b, def, at, v, refA, refB, known, wall);
    } else {
      var live := LiveStep(tag, b, refB, def, at, v);
      assert live.queued == [] && Closed([]) == [];
      NothingCloses(DelayStep(tag, live.track, persisted, at).queued);
    }
  }

  /** A fired rule back in spec: the replay keeps the occurrence only if it lasted. */
  lemma ReplayOfEnd(tag: int, a: Option<Track>, b: Option<Track>, def: Definition, at: Time, v: Value,
                    refA: nat, refB: nat, known: bool, wall: Time)
    requires Match(a, b, def) && !Violated(def, v) && b.Some? && b.value.triggered && BackInSpec(def, v)
    ensures var replay, live := ReplayStep(tag, a, refA, def, at, v, known, wall), LiveStep(tag, b, refB, def, at, v);
            && replay.track == live.track == None && !live.pulled
            && Closed(replay.queued) == Lasting(Closed(live.queued) + [])
  {
    var ended := Action(tag, def, v, Cleared, b.value.ref, b.value.firedAt, Some(at), true);
    var kept := Action(tag, def, v, Cleared, a.value.ref, a.value.firedAt, Some(at), known);
    OneCloses(ended);
    OneCloses(kept);
    assert Closed([ended]) + [] == Closed([ended]);
  }

  lemma OneCloses(a: Action)
    requires a.status.Cleared? && a.clearedAt.Some?
    ensures Closed([a]) == [Occurrence(a.triggeredAt, a.clearedAt)]
    ensures Lasting(Closed([a])) == if a.clearedAt.value <= a.triggeredAt then [] else Closed([a])
  {
    var o := [Occurrence(a.triggeredAt, a.clearedAt)];
    assert [a][..0] == [] && o[..0] == [];
  }

  // --------------------------------------------- one reading, whole engine

  lemma {:induction false} LiveMicrosShape(tag: int, defs: seq<Definition>, at: Time, v: Value)
    ensures forall m :: m in LiveMicros(tag, defs, at, v) ==>
      m.key.tag == tag && m.ev.Live? && m.ev.def in defs && m.key.id == m.ev.def.id && !IsHealth(m.ev.def.alarmType)
  {
    if |defs| > 0 {
      LiveMicrosShape(tag, defs[..|defs| - 1], at, v);
    }
  }

  /** Distinct ids: the rule's own event is in the list exactly once. */
  lemma {:induction false} LiveMicrosOnce(tag: int, defs: seq<Definition>, at: Time, v: Value, d: nat) returns (i: nat)
    requires DistinctIds(defs) && d < |defs| && !IsHealth(defs[d].alarmType)
    ensures var ms := LiveMicros(tag, defs, at, v);
            && i < |ms| && ms[i] == Micro(Key(tag, defs[d].id), Live(defs[d], at, v))
            && forall j :: 0 <= j < |ms| && j != i ==> ms[j].key != Key(tag, defs[d].id)
  {
    var n := |defs| - 1;
    var init := LiveMicros(tag, defs[..n], at, v);
    LiveMicrosShape(tag, defs[..n], at, v);
    if d == n {
      i := |init|;
      forall j | 0 <= j < |init|
        ensures init[j].key != Key(tag, defs[d].id)
      {
        assert init[j] in init;
      }
    } else {
      i := LiveMicrosOnce(tag, defs[..n], at, v, d);
    }
  }

  lemma {:induction false} PointMicrosShape(tag: int, defs: seq<Definition>, at: Time, v: Value, known: set<int>,
                                            wall: Time)
    ensures forall m :: m in PointMicros(tag, defs, at, v, known, wall) ==>
      m.key.tag == tag && m.ev.Replay? && m.ev.def in defs && m.key.id == m.ev.def.id && !IsHealth(m.ev.def.alarmType)
  {
    if |defs| > 0 {
      PointMicrosShape(tag, defs[..|defs| - 1], at, v, known, wall);
    }
  }

  lemma {:induction false} PointMicrosOnce(tag: int, defs: seq<Definition>, at: Time, v: Value, known: set<int>,
                                           wall: Time, d: nat)
    returns (i: nat)
    requires DistinctIds(defs) && d < |defs| && !IsHealth(defs[d].alarmType)
    ensures var ms := PointMicros(tag, defs, at, v, known, wall);
            && i < |ms| && ms[i] == Micro(Key(tag, defs[d].id), Replay(defs[d], at, v, defs[d].id in known, wall))
            && forall j :: 0 <= j < |ms| && j != i ==> ms[j].key != Key(tag, defs[d].id)
  {
    var n := |defs| - 1;
    var init := PointMicros(tag, defs[..n], at, v, known, wall);
    PointMicrosShape(tag, defs[..n], at, v, known, wall);
    if d == n {
      i := |init|;
      forall j | 0 <= j < |init|
        ensures init[j].key != Key(tag, defs[d].id)
      {
        assert init[j] in init;
      }
    } else {
      i := PointMicrosOnce(tag, defs[..n], at, v, known, wall, d);
    }
  }

  lemma {:induction false} VerdictMicrosShape(tag: int, s: SampleState, defs: seq<Definition>, now: Time)
    ensures forall m :: m in VerdictMicros(tag, s, defs, now) ==>
      m.key.tag == tag && m.ev.Verdict? && m.ev.def in defs && m.key.id == m.ev.def.id && IsHealth(m.ev.def.alarmType)
      && m.ev == Verdict(m.ev.def, Unhealthy(s, m.ev.def, now), s.lastValue, now)
  {
    if |defs| > 0 {
      VerdictMicrosShape(tag, s, defs[..|defs| - 1], now);
    }
  }

  /** The health tick only judges health rules of the current definitions. */
  lemma {:induction false} HealthMicrosShape(e: Engine, tags: seq<int>, now: Time)
    ensures forall m :: m in HealthMicros(e, tags, now) ==>
      m.ev.Verdict? && m.ev.def in DefsOf(e.defs, m.key.tag) && m.key.id == m.ev.def.id && IsHealth(m.ev.def.alarmType)
      && m.key.tag in tags
  {
    if |tags| > 0 {
      HealthMicrosShape(e, tags[..|tags| - 1], now);
      var tag := tags[|tags| - 1];
      if tag in e.samples {
        VerdictMicrosShape(tag, e.samples[tag], DefsOf(e.defs, tag), now);
      }
    }
  }

  /** A value rule among the definitions of its tag. */
  ghost predicate ValueRule(e: Engine, tag: int, def: Definition) {
    DistinctIds(DefsOf(e.defs, tag)) && def in DefsOf(e.defs, tag) && !IsHealth(def.alarmType)
  }

  /** A rule's own event seen through its occurrences. */
  lemma OwnClosed(e: Engine, m: Micro)
    requires RefsOwned(e) && WellKeyed(m)
    ensures Closed(OfRule(Step(e, m).pending, m.key))
            == Closed(OfRule(e.pending, m.key)) + Closed(OutcomeOf(e, m).queued)
  {
    StepOwn(e, m);
    OutcomesAreProper(e, m);
    var out := OutcomeOf(e, m);
    if out.pulled {
      assert forall a :: a in e.pending ==> a in e.Queued();
      ClosedWithout(e.pending, m.key, e.tracks[m.key].ref);
      assert Closed(out.queued) == [];
    } else {
      ClosedConcat(OfRule(e.pending, m.key), out.queued);
    }
  }

  /** What a section does to one rule: the rule event it contains for it. */
  ghost predicate Moves(e: Engine, e': Engine, k: Key, out: Outcome) {
    && RefsOwned(e') && e'.defs == e.defs
    && e'.TrackOf(k) == out.track
    && Closed(OfRule(e'.pending, k)) == Closed(OfRule(e.pending, k)) + Closed(out.queued)
  }

  lemma OneEventMoves(e: Engine, ms: seq<Micro>, k: Key, i: nat) returns (persisted: bool, newRef: nat)
    requires RefsOwned(e) && forall m :: m in ms ==> WellKeyed(m)
    requires i < |ms| && ms[i].key == k && forall j :: 0 <= j < |ms| && j != i ==> ms[j].key != k
    ensures Moves(e, Steps(e, ms), k, RuleStep(k.tag, e.TrackOf(k), persisted, newRef, ms[i].ev))
  {
    assert forall j :: 0 <= j < |ms| ==> ms[j] in ms;
    var mid := StepsWithOne(e, ms, k, i);
    StepsKeepDefs(e, ms);
    StepOwn(mid, ms[i]);
    OwnClosed(mid, ms[i]);
    var t := mid.TrackOf(k);
    persisted, newRef := t.Some? && mid.RowOf(t.value.ref) != 0, |mid.rows|;
  }

  /** The tick, for a value rule, is the tick of its own track. */
  lemma TickOfValueRule(e: Engine, tag: int, def: Definition, now: Time, order: seq<Key>, tags: seq<int>)
    returns (persisted: bool)
    requires RefsOwned(e) && ValueRule(e, tag, def) && Enumerates(order, e.tracks.Keys)
    ensures var k := Key(tag, def.id);
            Moves(e, Tick(e, now, order, tags), k, DelayStep(tag, e.TrackOf(k), persisted, now))
  {
    var k := Key(tag, def.id);
    var delays, verdicts := DelayMicros(order, now), HealthMicros(e, tags, now);
    var ticked := Steps(e, delays);
    persisted := DelaysOfRule(e, order, k, now);
    HealthMicrosShape(e, tags, now);
    assert forall j :: 0 <= j < |verdicts| ==> verdicts[j] in verdicts;
    StepsForeign(ticked, verdicts, k);
    StepsKeepDefs(ticked, verdicts);
    StepsConcat(e, delays, verdicts);
    RefsIgnoreSamples(Steps(ticked, verdicts), StartClocks(e, now));
  }

  lemma RefsIgnoreSamples(e: Engine, samples: map<int, SampleState>)
    requires RefsOwned(e)
    ensures RefsOwned(e.(samples := samples))
  {
    assert e.(samples := samples).Queued() == e.Queued();
  }

  lemma DelaysOfRule(e: Engine, order: seq<Key>, k: Key, now: Time) returns (persisted: bool)
    requires RefsOwned(e) && Enumerates(order, e.tracks.Keys)
    ensures Moves(e, Steps(e, DelayMicros(order, now)), k, DelayStep(k.tag, e.TrackOf(k), persisted, now))
  {
    if k in e.tracks {
      var newRef;
      var i := MemberIndex(order, k);
      persisted, newRef := OneEventMoves(e, DelayMicros(order, now), k, i);
    } else {
      DelaysOfOthers(e, order, k, now);
      persisted := false;
    }
  }

  lemma DelaysOfOthers(e: Engine, order: seq<Key>, k: Key, now: Time)
    requires RefsOwned(e) && Enumerates(order, e.tracks.Keys) && k !in e.tracks
    ensures Moves(e, Steps(e, DelayMicros(order, now)), k, Outcome(None, [], false))
  {
    StepsForeign(e, DelayMicros(order, now), k);
    StepsKeepDefs(e, DelayMicros(order, now));
  }

  lemma {:induction false} StepsKeepDefs(e: Engine, ms: seq<Micro>)
    ensures Steps(e, ms).defs == e.defs
  {
    if |ms| > 0 {
      StepsKeepDefs(e, ms[..|ms| - 1]);
    }
  }

  /** The orders in which each tick of the live feed ranges over its maps. */
  datatype Orders = Orders(tracks: seq<Key>, tags: seq<int>)

  /** One reading, live: evaluateAt at its own time; a usable one is followed by
      tickDelays at that time. */
  function Feed(e: Engine, tag: int, p: Point, o: Orders): Engine {
    var judged := EvaluateAt(e, tag, p.reading, QUALITY_GOOD, p.at, true, p.at);
    if p.reading.Numeric? then Tick(judged, p.at, o.tracks, o.tags) else judged
  }

  function FeedAll(e: Engine, tag: int, points: seq<Point>, orders: seq<Orders>): Engine
    requires |orders| == |points|
  {
    if |points| == 0 then e
    else
      var n := |points| - 1;
      Feed(FeedAll(e, tag, points[..n], orders[..n]), tag, points[n], orders[n])
  }

  /** Every tick of the feed takes every track, once. */
  ghost predicate Fair(e: Engine, tag: int, points: seq<Point>, orders: seq<Orders>)
    requires |orders| == |points|
  {
    |points| > 0 ==>
      var n := |points| - 1;
      var p := points[n];
      var before := FeedAll(e, tag, points[..n], orders[..n]);
      && Fair(e, tag, points[..n], orders[..n])
      && Enumerates(orders[n].tracks, EvaluateAt(before, tag, p.reading, QUALITY_GOOD, p.at, true, p.at).tracks.Keys)
  }

  /** The two engines agree on a rule: same track, and the lasting occurrences
      closed live since `start` are those closed by the replay. */
  ghost predicate Agree(start: Engine, replay: Engine, live: Engine, tag: int, def: Definition) {
    var k := Key(tag, def.id);
    var was := Closed(OfRule(start.pending, k));
    var r, l := Closed(OfRule(replay.pending, k)), Closed(OfRule(live.pending, k));
    && Match(replay.TrackOf(k), live.TrackOf(k), def)
    && was <= r && was <= l
    && r[|was|..] == Lasting(l[|was|..])
  }

  lemma EvaluateOfValueRule(e: Engine, tag: int, def: Definition, at: Time, v: Value) returns (newRef: nat)
    requires RefsOwned(e) && ValueRule(e, tag, def)
    ensures var k := Key(tag, def.id);
            Moves(e, EvaluateAt(e, tag, Numeric(v), QUALITY_GOOD, at, true, at), k,
                  LiveStep(tag, e.TrackOf(k), newRef, def, at, v))
  {
    var defs := DefsOf(e.defs, tag);
    var alive := RecordGood(e, tag, defs, v, at);
    RefsIgnoreSamples(e, alive.samples);
    LiveMicrosShape(tag, defs, at, v);
    var d := MemberIndex(defs, def);
    var i := LiveMicrosOnce(tag, defs, at, v, d);
    newRef := OneLiveMoves(alive, LiveMicros(tag, defs, at, v), Key(tag, def.id), i);
  }

  function LiveOf(e: Engine, k: Key, newRef: nat, ev: RuleEvent): Outcome
    requires ev.Live?
  {
    LiveStep(k.tag, e.TrackOf(k), newRef, ev.def, ev.at, ev.v)
  }

  lemma OneLiveMoves(e: Engine, ms: seq<Micro>, k: Key, i: nat) returns (newRef: nat)
    requires RefsOwned(e) && forall m :: m in ms ==> WellKeyed(m)
    requires i < |ms| && ms[i].key == k && ms[i].ev.Live? && forall j :: 0 <= j < |ms| && j != i ==> ms[j].key != k
    ensures Moves(e, Steps(e, ms), k, LiveOf(e, k, newRef, ms[i].ev))
  {
    var persisted;
    persisted, newRef := OneEventMoves(e, ms, k, i);
  }

  function ReplayOf(e: Engine, k: Key, newRef: nat, ev: RuleEvent): Outcome
    requires ev.Replay?
  {
    ReplayStep(k.tag, e.TrackOf(k), newRef, ev.def, ev.at, ev.v, ev.known, ev.wall)
  }

  lemma OneReplayMoves(e: Engine, ms: seq<Micro>, k: Key, i: nat) returns (newRef: nat)
    requires RefsOwned(e) && forall m :: m in ms ==> WellKeyed(m)
    requires i < |ms| && ms[i].key == k && ms[i].ev.Replay? && forall j :: 0 <= j < |ms| && j != i ==> ms[j].key != k
    ensures Moves(e, Steps(e, ms), k, ReplayOf(e, k, newRef, ms[i].ev))
  {
    var persisted;
    persisted, newRef := OneEventMoves(e, ms, k, i);
  }

  lemma ReplayOfValueRule(e: Engine, tag: int, def: Definition, at: Time, v: Value, known: set<int>, wall: Time)
    returns (newRef: nat)
    requires RefsOwned(e) && ValueRule(e, tag, def)
    ensures var k := Key(tag, def.id);
            Moves(e, Steps(e, PointMicros(tag, DefsOf(e.defs, tag), at, v, known, wall)), k,
                  ReplayStep(tag, e.TrackOf(k), newRef, def, at, v, def.id in known, wall))
  {
    var defs := DefsOf(e.defs, tag);
    PointMicrosShape(tag, defs, at, v, known, wall);
    var d := MemberIndex(defs, def);
    var i := PointMicrosOnce(tag, defs, at, v, known, wall, d);
    newRef := OneReplayMoves(e, PointMicros(tag, defs, at, v, known, wall), Key(tag, def.id), i);
  }

  ghost predicate InStep(start: Engine, r: Engine, l: Engine, tag: int, def: Definition) {
    && RefsOwned(r) && RefsOwned(l) && r.defs == start.defs && l.defs == start.defs
    && Agree(start, r, l, tag, def)
  }

  lemma LastingExtend(was: seq<Occurrence>, r: seq<Occurrence>, l: seq<Occurrence>,
                      dr: seq<Occurrence>, dl: seq<Occurrence>, dt: seq<Occurrence>)
    requires was <= r && was <= l && r[|was|..] == Lasting(l[|was|..]) && dr == Lasting(dl + dt)
    ensures was <= r + dr && was <= l + dl + dt && (r + dr)[|was|..] == Lasting((l + dl + dt)[|was|..])
  {
    var d := dl + dt;
    assert l + dl + dt == l + d;
    LastingConcat(l[|was|..], d);
    TailOfSum(r, dr, |was|);
    TailOfSum(l, d, |was|);
  }

  lemma TailOfSum<T>(s: seq<T>, d: seq<T>, n: nat)
    requires n <= |s|
    ensures (s + d)[n..] == s[n..] + d && (s + d)[..n] == s[..n]
  {
  }

  /** One reading keeps the two engines in agreement. */
  lemma PointKeepsAgreement(start: Engine, r: Engine, l: Engine, tag: int, def: Definition, p: Point, o: Orders,
                            known: set<int>, wall: Time)
    requires InStep(start, r, l, tag, def) && def.delaySeconds >= 0 && ValueRule(start, tag, def)
    requires p.reading.Numeric?
    requires Enumerates(o.tracks, EvaluateAt(l, tag, p.reading, QUALITY_GOOD, p.at, true, p.at).tracks.Keys)
    ensures InStep(start, Steps(r, PointMicros(tag, DefsOf(start.defs, tag), p.at, p.reading.v, known, wall)),
                   Feed(l, tag, p, o), tag, def)
  {
    var k, v, at := Key(tag, def.id), p.reading.v, p.at;
    assert p.reading == Numeric(v);
    var refR := ReplayOfValueRule(r, tag, def, at, v, known, wall);
    var refL := EvaluateOfValueRule(l, tag, def, at, v);
    var judged := EvaluateAt(l, tag, p.reading, QUALITY_GOOD, at, true, at);
    var persisted := TickOfValueRule(judged, tag, def, at, o.tracks, o.tags);
    ReplayIsLiveThenTick(tag, r.TrackOf(k), l.TrackOf(k), def, at, v, refR, refL, def.id in known, wall, persisted);
    var replay := ReplayStep(tag, r.TrackOf(k), refR, def, at, v, def.id in known, wall);
    var live := LiveStep(tag, l.TrackOf(k), refL, def, at, v);
    var tick := DelayStep(tag, live.track, persisted, at);
    var wasL := Closed(OfRule(l.pending, k));
    LastingExtend(Closed(OfRule(start.pending, k)), Closed(OfRule(r.pending, k)), wasL,
                  Closed(replay.queued), Closed(live.queued), Closed(tick.queued));
  }

  lemma {:induction false} SeriesKeepsAgreement(e: Engine, alive: Engine, tag: int, def: Definition, points: seq<Point>,
                                                orders: seq<Orders>, known: set<int>, wall: Time)
    requires RefsOwned(e) && ValueRule(e, tag, def) && def.delaySeconds >= 0
    requires alive == e.(samples := alive.samples)
    requires Match(e.TrackOf(Key(tag, def.id)), e.TrackOf(Key(tag, def.id)), def)
    requires |orders| == |points| && Fair(e, tag, points, orders)
    ensures InStep(e, Steps(alive, SeriesMicros(tag, DefsOf(e.defs, tag), points, known, wall)),
                   FeedAll(e, tag, points, orders), tag, def)
  {
    var defs := DefsOf(e.defs, tag);
    if |points| == 0 {
      RefsIgnoreSamples(e, alive.samples);
    } else {
      var n := |points| - 1;
      SeriesKeepsAgreement(e, alive, tag, def, points[..n], orders[..n], known, wall);
      var r := Steps(alive, SeriesMicros(tag, defs, points[..n], known, wall));
      var l := FeedAll(e, tag, points[..n], orders[..n]);
      NextPoint(e, r, l, tag, def, points[n], orders[n], known, wall);
      StepsConcat(alive, SeriesMicros(tag, defs, points[..n], known, wall),
                  MicrosOf(tag, defs, points[n], known, wall));
    }
  }

  lemma NextPoint(start: Engine, r: Engine, l: Engine, tag: int, def: Definition, p: Point, o: Orders,
                  known: set<int>, wall: Time)
    requires InStep(start, r, l, tag, def) && def.delaySeconds >= 0 && ValueRule(start, tag, def)
    requires Enumerates(o.tracks, EvaluateAt(l, tag, p.reading, QUALITY_GOOD, p.at, true, p.at).tracks.Keys)
    ensures InStep(start, Steps(r, MicrosOf(tag, DefsOf(start.defs, tag), p, known, wall)), Feed(l, tag, p, o), tag,
                   def)
  {
    if p.reading.Numeric? {
      PointKeepsAgreement(start, r, l, tag, def, p, o, known, wall);
    }
  }

  /** The theorem, for any batch in any order of arrival: the replay leaves the
      rule as the live feed does, and closes exactly its lasting occurrences. */
  lemma BatchReplaysLive(e: Engine, tag: int, def: Definition, points: seq<Point>, orders: seq<Orders>, wall: Time)
    requires RefsOwned(e) && ValueRule(e, tag, def) && def.delaySeconds >= 0
    requires Match(e.TrackOf(Key(tag, def.id)), e.TrackOf(Key(tag, def.id)), def)
    requires |orders| == |points| && Fair(e, tag, SortByTime(points), orders)
    ensures Agree(e, EvaluateSeries(e, tag, points, QUALITY_GOOD, wall), FeedAll(e, tag, SortByTime(points), orders),
                  tag, def)
  {
    if |points| > 0 {
      var sorted := SortByTime(points);
      SeriesKeepsAgreement(e, BatchAlive(e, tag, sorted, wall), tag, def, sorted, orders, KnownRules(e, tag), wall);
      NewsAgrees(e, ReplaySorted(e, tag, sorted, wall), FeedAll(e, tag, sorted, orders), tag, def);
    }
  }

  /** Marking the news changes nothing the two agree on. */
  lemma NewsAgrees(start: Engine, done: Engine, live: Engine, tag: int, def: Definition)
    requires Agree(start, done, live, tag, def)
    ensures Agree(start, WithNews(start, done, tag), live, tag, def)
  {
    ClosedMarkNews(done.pending, |start.pending|, done.tracks, tag, Key(tag, def.id));
  }

  // ------------------------------------- when the replay is exactly the feed

  predicate Lasts(o: Occurrence) { o.clearedAt.Some? ==> o.clearedAt.value > o.triggeredAt }

  lemma {:induction false} LastingKeepsAll(os: seq<Occurrence>)
    requires forall i :: 0 <= i < |os| ==> Lasts(os[i])
    ensures Lasting(os) == os
  {
    if |os| > 0 {
      LastingKeepsAll(os[..|os| - 1]);
    }
  }

  lemma {:induction false} LastingDropsSome(os: seq<Occurrence>)
    ensures |Lasting(os)| <= |os|
    ensures |Lasting(os)| == |os| ==> forall i :: 0 <= i < |os| ==> Lasts(os[i])
  {
    if |os| > 0 {
      LastingDropsSome(os[..|os| - 1]);
    }
  }

  /** Readings in strictly increasing time order, after `start`. */
  predicate StrictlyAfter(points: seq<Point>, start: Time) {
    && (forall i :: 0 <= i < |points| ==> points[i].at > start)
    && (forall i, j :: 0 <= i < j < |points| ==> points[i].at < points[j].at)
  }

  /** The live side of a strict feed: what it closed since `e` lasted, and an open
      alarm began no later than the newest reading. */
  ghost predicate OnlyLasting(e: Engine, l: Engine, k: Key, newest: Time) {
    var was, now := Closed(OfRule(e.pending, k)), Closed(OfRule(l.pending, k));
    && RefsOwned(l) && l.defs == e.defs
    && was <= now && (forall i :: |was| <= i < |now| ==> Lasts(now[i]))
    && (l.TrackOf(k).Some? && l.TrackOf(k).value.triggered ==> l.TrackOf(k).value.firedAt <= newest)
  }

  /** One live reading and its tick, for an alarm that began before it. */
  lemma LiveThenTickLasts(tag: int, t: Option<Track>, def: Definition, at: Time, v: Value, newRef: nat, persisted: bool)
    requires t.Some? && t.value.triggered ==> t.value.firedAt < at
    ensures var live := LiveStep(tag, t, newRef, def, at, v);
            var tick := DelayStep(tag, live.track, persisted, at);
            && (forall o :: o in Closed(live.queued) + Closed(tick.queued) ==> Lasts(o))
            && (tick.track.Some? && tick.track.value.triggered ==> tick.track.value.firedAt <= at)
  {
    var live := LiveStep(tag, t, newRef, def, at, v);
    assert Closed(DelayStep(tag, live.track, persisted, at).queued) == [];
    assert Closed(live.queued) == if |live.queued| == 1 && live.queued[0].status.Cleared?
                                  then [Occurrence(live.queued[0].triggeredAt, live.queued[0].clearedAt)] else [];
  }

  lemma FeedKeepsLasting(e: Engine, l: Engine, tag: int, def: Definition, p: Point, o: Orders, newest: Time)
    requires ValueRule(e, tag, def) && OnlyLasting(e, l, Key(tag, def.id), newest) && newest < p.at
    requires Enumerates(o.tracks, EvaluateAt(l, tag, p.reading, QUALITY_GOOD, p.at, true, p.at).tracks.Keys)
    ensures OnlyLasting(e, Feed(l, tag, p, o), Key(tag, def.id), p.at)
  {
    if p.reading.Numeric? {
      var k, v := Key(tag, def.id), p.reading.v;
      assert p.reading == Numeric(v);
      var newRef := EvaluateOfValueRule(l, tag, def, p.at, v);
      var judged := EvaluateAt(l, tag, p.reading, QUALITY_GOOD, p.at, true, p.at);
      var persisted := TickOfValueRule(judged, tag, def, p.at, o.tracks, o.tags);
      LiveThenTickLasts(tag, l.TrackOf(k), def, p.at, v, newRef, persisted);
      var live := LiveStep(tag, l.TrackOf(k), newRef, def, p.at, v);
      var tick := DelayStep(tag, live.track, persisted, p.at);
      AppendLasts(Closed(OfRule(e.pending, k)), Closed(OfRule(l.pending, k)), Closed(live.queued), Closed(tick.queued));
    }
  }

  lemma AppendLasts(was: seq<Occurrence>, now: seq<Occurrence>, a: seq<Occurrence>, b: seq<Occurrence>)
    requires was <= now && (forall i :: |was| <= i < |now| ==> Lasts(now[i]))
    requires forall o :: o in a + b ==> Lasts(o)
    ensures was <= now + a + b && forall i :: |was| <= i < |now + a + b| ==> Lasts((now + a + b)[i])
  {
    assert now + a + b == now + (a + b);
    forall i | |now| <= i < |now + a + b|
      ensures Lasts((now + a + b)[i])
    {
      assert (now + a + b)[i] == (a + b)[i - |now|];
    }
  }

  lemma {:induction false} StrictFeedLasts(e: Engine, tag: int, def: Definition, points: seq<Point>,
                                           orders: seq<Orders>, start: Time)
    requires RefsOwned(e) && ValueRule(e, tag, def)
    requires var t := e.TrackOf(Key(tag, def.id)); t.Some? && t.value.triggered ==> t.value.firedAt <= start
    requires StrictlyAfter(points, start) && |orders| == |points| && Fair(e, tag, points, orders)
    ensures OnlyLasting(e, FeedAll(e, tag, points, orders), Key(tag, def.id),
                        if |points| == 0 then start else points[|points| - 1].at)
  {
    if |points| > 0 {
      var n := |points| - 1;
      StrictFeedLasts(e, tag, def, points[..n], orders[..n], start);
      FeedKeepsLasting(e, FeedAll(e, tag, points[..n], orders[..n]), tag, def, points[n], orders[n],
                       if n == 0 then start else points[n - 1].at);
    }
  }

  /** With strictly increasing times, all after the alarm a batch may find open
      was fired, nothing is dropped: replay and feed close the same occurrences. */
  lemma StrictBatchReplaysLiveExactly(e: Engine, tag: int, def: Definition, points: seq<Point>, orders: seq<Orders>,
                                      start: Time, wall: Time)
    requires RefsOwned(e) && ValueRule(e, tag, def) && def.delaySeconds >= 0
    requires var t := e.TrackOf(Key(tag, def.id));
             Match(t, t, def) && (t.Some? && t.value.triggered ==> t.value.firedAt <= start)
    requires StrictlyAfter(SortByTime(points), start)
    requires |orders| == |points| && Fair(e, tag, SortByTime(points), orders)
    ensures var r := EvaluateSeries(e, tag, points, QUALITY_GOOD, wall);
            var l := FeedAll(e, tag, SortByTime(points), orders);
            var k := Key(tag, def.id);
            && Match(r.TrackOf(k), l.TrackOf(k), def)
            && Closed(OfRule(r.pending, k)) == Closed(OfRule(l.pending, k))
  {
    BatchReplaysLive(e, tag, def, points, orders, wall);
    StrictFeedLasts(e, tag, def, SortByTime(points), orders, start);
    ExactIffFeedLasts(e, tag, def, points, orders, wall);
  }

  /** The replay closes what the feed closes if and only if every occurrence the feed closes lasted. */
  lemma ExactIffFeedLasts(e: Engine, tag: int, def: Definition, points: seq<Point>, orders: seq<Orders>, wall: Time)
    requires RefsOwned(e) && ValueRule(e, tag, def) && def.delaySeconds >= 0
    requires Match(e.TrackOf(Key(tag, def.id)), e.TrackOf(Key(tag, def.id)), def)
    requires |orders| == |points| && Fair(e, tag, SortByTime(points), orders)
    ensures var k := Key(tag, def.id);
            var was := Closed(OfRule(e.pending, k));
            var r := Closed(OfRule(EvaluateSeries(e, tag, points, QUALITY_GOOD, wall).pending, k));
            var l := Closed(OfRule(FeedAll(e, tag, SortByTime(points), orders).pending, k));
            r == l <==> forall i :: |was| <= i < |l| ==> Lasts(l[i])
  {
    BatchReplaysLive(e, tag, def, points, orders, wall);
    var k := Key(tag, def.id);
    var was := Closed(OfRule(e.pending, k));
    var r := Closed(OfRule(EvaluateSeries(e, tag, points, QUALITY_GOOD, wall).pending, k));
    var l := Closed(OfRule(FeedAll(e, tag, SortByTime(points), orders).pending, k));
    ExactIffAllLast(was, r, l);
  }

  lemma ExactIffAllLast(was: seq<Occurrence>, r: seq<Occurrence>, l: seq<Occurrence>)
    requires was <= r && was <= l && r[|was|..] == Lasting(l[|was|..])
    ensures r == l <==> forall i :: |was| <= i < |l| ==> Lasts(l[i])
  {
    var added := l[|was|..];
    assert r == was + r[|was|..] && l == was + added;
    LastingDropsSome(added);
    if forall i :: |was| <= i < |l| ==> Lasts(l[i]) {
      LastingKeepsAll(added);
    }
  }
}
