/** Retrying an alarm that could not be written.

A fired alarm without a row has an attempt queued or under way, or the tick offers it to the
store again as soon as its retry is due. The retry is due thirty seconds after the time the
attempt went by: the wall time of its section, except that a live reading fires by its own
time. So two attempts are thirty seconds apart unless the first was a live reading taken
before it arrived, and then they need not be: `HourOldReadingIsRetriedAtOnce`. */
module AlarmRetries {
  import opened Options
  import opened AlarmRules
  import opened AlarmEngine
  import opened AlarmFrames
  import opened AlarmOccurrences
  import opened AlarmDrain
  import opened AlarmFiring
  import Replay = AlarmReplay
  import Writes = AlarmWrites

  /** The time an event of the rule goes by when it schedules a retry. */
  function Clock(ev: RuleEvent): Time
    requires !ev.Drop?
  {
    match ev
    case Live(_, at, _) => at
    case Replay(_, _, _, _, wall) => wall
    case Delay(now) => now
    case Verdict(_, _, _, now) => now
  }

  /** The event was brought by a section that ran at wall time `wall`. */
  predicate HappensAt(ev: RuleEvent, wall: Time) {
    match ev
    case Live(_, _, _) => true
    case Replay(_, _, _, _, w) => w == wall
    case Delay(now) => now == wall
    case Verdict(_, _, _, now) => now == wall
    case Drop => true
  }

  /** A reading judged live after the time it was taken. */
  predicate LateLive(ev: RuleEvent, wall: Time) { ev.Live? && ev.at < wall }

  /** The wall times of the sections that brought the events of a rule. */
  ghost predicate Timely(h: seq<RuleMove>, walls: seq<Time>) {
    |walls| == |h| && forall i :: 0 <= i < |h| ==> HappensAt(h[i].ev, walls[i])
  }

  /** What the i-th event of a rule's life queues. */
  function QueuedAt(tag: int, start: Option<Track>, h: seq<RuleMove>, i: nat): seq<Action>
    requires i < |h|
  {
    RuleStep(tag, TrackFrom(tag, start, h[..i]), h[i].persisted, h[i].newRef, h[i].ev).queued
  }

  /** The i-th event offers the alarm to the store. */
  predicate Attempts(tag: int, start: Option<Track>, h: seq<RuleMove>, i: nat)
    requires i < |h|
  {
    var q := QueuedAt(tag, start, h, i);
    |q| == 1 && q[0].status.Active?
  }

  /** From after event i to before event j it is one alarm. */
  ghost predicate OneAlarm(tag: int, start: Option<Track>, h: seq<RuleMove>, i: int, j: int) {
    forall n :: i < n <= j && 0 <= n <= |h| ==> FiredTrack(TrackFrom(tag, start, h[..n]))
  }

  /** What one event does to a fired alarm and to the time of its next retry. */
  lemma FiredStep(tag: int, t: Track, persisted: bool, newRef: nat, ev: RuleEvent)
    requires t.triggered
    ensures var out := RuleStep(tag, Some(t), persisted, newRef, ev);
            var attempt := |out.queued| == 1 && out.queued[0].status.Active?;
            && (attempt <==> ev.Delay? && !persisted && ev.now >= t.nextRetry)
            && (attempt ==> out.queued[0].ref == t.ref)
            && (out.track.Some? && out.track.value.triggered ==>
                  out.track.value.ref == t.ref
                    && out.track.value.nextRetry == if attempt then ev.now + INSERT_RETRY_INTERVAL else t.nextRetry)
  {
  }

  /** An event that fires an alarm offers it to the store and schedules the retry. */
  lemma FiringStep(tag: int, t: Option<Track>, persisted: bool, newRef: nat, ev: RuleEvent)
    requires !FiredTrack(t) && FiredTrack(RuleStep(tag, t, persisted, newRef, ev).track)
    ensures var out := RuleStep(tag, t, persisted, newRef, ev);
            && !ev.Drop? && |out.queued| == 1 && out.queued[0].status.Active?
            && out.track.value.nextRetry == Clock(ev) + INSERT_RETRY_INTERVAL
  {
  }

  /** The event goes by an earlier time than its section exactly when it is a late reading. */
  lemma ClockIsLateIff(ev: RuleEvent, wall: Time)
    requires !ev.Drop? && HappensAt(ev, wall)
    ensures Clock(ev) < wall <==> LateLive(ev, wall)
  {
  }

  lemma AttemptsLeaveFired(tag: int, start: Option<Track>, h: seq<RuleMove>, i: nat)
    requires i < |h| && Attempts(tag, start, h, i)
    ensures FiredTrack(TrackFrom(tag, start, h[..i + 1])) && !h[i].ev.Drop?
    ensures TrackFrom(tag, start, h[..i + 1]).value.nextRetry == Clock(h[i].ev) + INSERT_RETRY_INTERVAL
  {
    assert h[..i + 1][..i] == h[..i];
  }

  /** The next retry is never scheduled sooner than the interval after an attempt. */
  lemma {:induction false} RetryComesLater(tag: int, start: Option<Track>, h: seq<RuleMove>, i: nat, n: nat)
    requires i < n <= |h| && Attempts(tag, start, h, i) && OneAlarm(tag, start, h, i, n)
    ensures !h[i].ev.Drop? && FiredTrack(TrackFrom(tag, start, h[..n]))
    ensures TrackFrom(tag, start, h[..n]).value.nextRetry >= Clock(h[i].ev) + INSERT_RETRY_INTERVAL
  {
    AttemptsLeaveFired(tag, start, h, i);
    if n > i + 1 {
      RetryComesLater(tag, start, h, i, n - 1);
      assert h[..n][..n - 1] == h[..n - 1];
      var m := h[n - 1];
      FiredStep(tag, TrackFrom(tag, start, h[..n - 1]).value, m.persisted, m.newRef, m.ev);
    }
  }

  /** An attempt for the alarm schedules the retry no sooner than the interval after it was made
      exactly when it is not a late reading. */
  lemma RetryIsSpacedIff(tag: int, start: Option<Track>, h: seq<RuleMove>, walls: seq<Time>, i: nat)
    requires i < |h| && Timely(h, walls) && Attempts(tag, start, h, i)
    ensures var t := TrackFrom(tag, start, h[..i + 1]);
            FiredTrack(t) && (t.value.nextRetry >= walls[i] + INSERT_RETRY_INTERVAL <==> !LateLive(h[i].ev, walls[i]))
  {
    AttemptsLeaveFired(tag, start, h, i);
    ClockIsLateIff(h[i].ev, walls[i]);
  }

  /** Events i and j are attempts for one alarm. */
  ghost predicate AreAttempts(tag: int, start: Option<Track>, h: seq<RuleMove>, i: nat, j: nat)
    requires i < j < |h|
  {
    Attempts(tag, start, h, i) && Attempts(tag, start, h, j) && OneAlarm(tag, start, h, i, j)
  }

  /** Two attempts for the same alarm are at least the interval apart, unless the first was a late
      reading; then they are the interval after that reading was taken. */
  lemma AttemptsAreSpaced(tag: int, start: Option<Track>, h: seq<RuleMove>, walls: seq<Time>, i: nat, j: nat)
    requires Timely(h, walls)
    requires i < j < |h| && AreAttempts(tag, start, h, i, j)
    ensures !h[i].ev.Drop? && h[j].ev.Delay? && walls[j] >= Clock(h[i].ev) + INSERT_RETRY_INTERVAL
    ensures !LateLive(h[i].ev, walls[i]) ==> walls[j] >= walls[i] + INSERT_RETRY_INTERVAL
  {
    RetryComesLater(tag, start, h, i, j);
    FiredStep(tag, TrackFrom(tag, start, h[..j]).value, h[j].persisted, h[j].newRef, h[j].ev);
    ClockIsLateIff(h[i].ev, walls[i]);
  }

  /** A fired alarm that was not restored had an attempt, and its next one is due exactly the
      interval after the last. */
  lemma {:induction false} LastAttempt(tag: int, h: seq<RuleMove>, n: nat) returns (i: nat)
    requires n <= |h| && FiredTrack(TrackFrom(tag, None, h[..n]))
    ensures i < n && Attempts(tag, None, h, i) && OneAlarm(tag, None, h, i, n) && !h[i].ev.Drop?
    ensures TrackFrom(tag, None, h[..n]).value.nextRetry == Clock(h[i].ev) + INSERT_RETRY_INTERVAL
  {
    assert n > 0;
    assert h[..n][..n - 1] == h[..n - 1];
    var t, m := TrackFrom(tag, None, h[..n - 1]), h[n - 1];
    if !FiredTrack(t) {
      FiringStep(tag, t, m.persisted, m.newRef, m.ev);
      i := n - 1;
    } else {
      FiredStep(tag, t.value, m.persisted, m.newRef, m.ev);
      if Attempts(tag, None, h, n - 1) {
        i := n - 1;
      } else {
        i := LastAttempt(tag, h, n - 1);
      }
    }
  }

  // ------------------------------------------------------------- in every run

  function WallOf(ev: Event): Time {
    match ev
    case Sample(_, _, _, _, _, wall) => wall
    case Batch(_, _, _, wall) => wall
    case TickAt(now, _, _) => now
    case NewRules(_, _) => ZERO_TIME
  }

  function Repeated(wall: Time, n: nat): (r: seq<Time>)
    ensures |r| == n && forall i :: 0 <= i < n ==> r[i] == wall
  {
    seq(n, i requires 0 <= i < n => wall)
  }

  /** The wall times of the sections behind `RunHistory`. */
  ghost function RunWalls(s: System, moves: seq<Move>, k: Key): seq<Time> {
    if |moves| == 0 then []
    else
      var n := |moves| - 1;
      var e := After(s, moves[..n]).engine;
      RunWalls(s, moves[..n], k)
      + if moves[n].Lock? then Repeated(WallOf(moves[n].ev), |Project(e, SectionMicros(e, moves[n].ev), k)|) else []
  }

  lemma {:induction false} SeriesHappens(tag: int, defs: seq<Definition>, points: seq<Point>, known: set<int>,
                                         wall: Time)
    ensures forall m :: m in SeriesMicros(tag, defs, points, known, wall) ==> HappensAt(m.ev, wall)
  {
    if |points| > 0 {
      var p := points[|points| - 1];
      SeriesHappens(tag, defs, points[..|points| - 1], known, wall);
      if p.reading.Numeric? {
        PointsHappen(tag, defs, p.at, p.reading.v, known, wall);
      }
    }
  }

  lemma {:induction false} PointsHappen(tag: int, defs: seq<Definition>, at: Time, v: Value, known: set<int>,
                                        wall: Time)
    ensures forall m :: m in PointMicros(tag, defs, at, v, known, wall) ==> HappensAt(m.ev, wall)
  {
    if |defs| > 0 {
      PointsHappen(tag, defs[..|defs| - 1], at, v, known, wall);
    }
  }

  lemma {:induction false} VerdictsHappen(tag: int, s: SampleState, defs: seq<Definition>, now: Time)
    ensures forall m :: m in VerdictMicros(tag, s, defs, now) ==> HappensAt(m.ev, now)
  {
    if |defs| > 0 {
      VerdictsHappen(tag, s, defs[..|defs| - 1], now);
    }
  }

  lemma {:induction false} HealthHappens(e: Engine, tags: seq<int>, now: Time)
    ensures forall m :: m in HealthMicros(e, tags, now) ==> HappensAt(m.ev, now)
  {
    if |tags| > 0 {
      var tag := tags[|tags| - 1];
      HealthHappens(e, tags[..|tags| - 1], now);
      if tag in e.samples {
        VerdictsHappen(tag, e.samples[tag], DefsOf(e.defs, tag), now);
      }
    }
  }

  lemma SectionHappens(e: Engine, ev: Event)
    ensures forall m :: m in SectionMicros(e, ev) ==> HappensAt(m.ev, WallOf(ev))
  {
    match ev {
      case Sample(tag, reading, quality, at, _, wall) =>
        if reading.Numeric? {
          Replay.LiveMicrosShape(tag, DefsOf(e.defs, tag), if at == ZERO_TIME then wall else at, reading.v);
        }
      case Batch(tag, points, _, wall) =>
        SeriesHappens(tag, DefsOf(e.defs, tag), SortByTime(points), KnownRules(e, tag), wall);
      case TickAt(now, order, tags) => HealthHappens(e, tags, now);
      case NewRules(defs, order) => DropMicrosShape(order, defs);
    }
  }

  lemma {:induction false} ProjectHappens(e: Engine, ms: seq<Micro>, k: Key, wall: Time)
    requires forall m :: m in ms ==> HappensAt(m.ev, wall)
    ensures Timely(Project(e, ms, k), Repeated(wall, |Project(e, ms, k)|))
  {
    if |ms| > 0 {
      ProjectHappens(e, ms[..|ms| - 1], k, wall);
      assert ms[|ms| - 1] in ms;
    }
  }

  lemma TimelyConcat(h: seq<RuleMove>, walls: seq<Time>, h': seq<RuleMove>, walls': seq<Time>)
    requires Timely(h, walls) && Timely(h', walls')
    ensures Timely(h + h', walls + walls')
  {
  }

  lemma {:induction false} RunIsTimely(s: System, moves: seq<Move>, k: Key)
    ensures Timely(RunHistory(s, moves, k), RunWalls(s, moves, k))
  {
    if |moves| > 0 {
      var n := |moves| - 1;
      RunIsTimely(s, moves[..n], k);
      if moves[n].Lock? {
        var e, ev := After(s, moves[..n]).engine, moves[n].ev;
        var own := Project(e, SectionMicros(e, ev), k);
        SectionHappens(e, ev);
        ProjectHappens(e, SectionMicros(e, ev), k, WallOf(ev));
        TimelyConcat(RunHistory(s, moves[..n], k), RunWalls(s, moves[..n], k), own, Repeated(WallOf(ev), |own|));
      }
    }
  }

  /** Attempts for one alarm are the interval apart, but for one that follows a late reading. */
  ghost predicate WellSpaced(tag: int, start: Option<Track>, h: seq<RuleMove>, walls: seq<Time>) {
    |walls| == |h| && forall i, j :: 0 <= i < j < |h| && AreAttempts(tag, start, h, i, j) ==>
      LateLive(h[i].ev, walls[i]) || walls[j] >= walls[i] + INSERT_RETRY_INTERVAL
  }

  /** In every run and interleaving the attempts for one alarm are thirty seconds of wall time
      apart, but for one that follows a late reading. */
  lemma AttemptsInEveryRun(s: System, moves: seq<Move>, k: Key)
    ensures WellSpaced(k.tag, s.engine.TrackOf(k), RunHistory(s, moves, k), RunWalls(s, moves, k))
  {
    var start, h, walls := s.engine.TrackOf(k), RunHistory(s, moves, k), RunWalls(s, moves, k);
    RunIsTimely(s, moves, k);
    forall i, j | 0 <= i < j < |h| && AreAttempts(k.tag, start, h, i, j)
      ensures LateLive(h[i].ev, walls[i]) || walls[j] >= walls[i] + INSERT_RETRY_INTERVAL
    {
      AttemptsAreSpaced(k.tag, start, h, walls, i, j);
    }
  }

  /** An alarm fired in a run: its last attempt, and when the next one is due. */
  lemma NextRetryInEveryRun(s: System, restored: nat, moves: seq<Move>, k: Key) returns (i: nat)
    requires Initial(s, restored) && IsRun(s, moves) && k !in s.engine.tracks
    requires FiredTrack(After(s, moves).engine.TrackOf(k))
    ensures var h, walls := RunHistory(s, moves, k), RunWalls(s, moves, k);
            && |walls| == |h| && i < |h| && Attempts(k.tag, None, h, i) && OneAlarm(k.tag, None, h, i, |h|)
            && !h[i].ev.Drop?
            && After(s, moves).engine.tracks[k].nextRetry == Clock(h[i].ev) + INSERT_RETRY_INTERVAL
            && (After(s, moves).engine.tracks[k].nextRetry < walls[i] + INSERT_RETRY_INTERVAL
                <==> LateLive(h[i].ev, walls[i]))
  {
    RunsAreHistories(s, moves, k);
    RunIsTimely(s, moves, k);
    var h := RunHistory(s, moves, k);
    assert h[..|h|] == h;
    i := LastAttempt(k.tag, h, |h|);
    ClockIsLateIff(h[i].ev, RunWalls(s, moves, k)[i]);
  }

  // --------------------------------------------------------------- the tick

  /** The alarm as a retry offers it. */
  function Again(k: Key, t: Track): Action {
    Action(k.tag, t.def, t.initial, Active, t.ref, t.firedAt, None, false)
  }

  ghost predicate Offers(q: seq<Action>, ref: nat) { exists a :: a in q && a.ref == ref && a.status.Active? }

  /** What the tick queues for a fired alarm. */
  function OfferedAt(e: Engine, k: Key, t: Track, now: Time): seq<Action> {
    if e.RowOf(t.ref) == 0 && now >= t.nextRetry then [Again(k, t)] else []
  }

  lemma DelayOffers(e: Engine, k: Key, now: Time)
    requires RefsOwned(e) && FiredTrack(e.TrackOf(k))
    ensures var t, done := e.tracks[k], Step(e, Micro(k, Delay(now)));
            && k in done.tracks && done.tracks[k].ref == t.ref && done.tracks[k].triggered
            && OfRule(done.pending, k) == OfRule(e.pending, k) + OfferedAt(e, k, t, now)
  {
    StepOwn(e, Micro(k, Delay(now)));
  }

  lemma DelaysOffer(e: Engine, k: Key, now: Time, order: seq<Key>)
    requires RefsOwned(e) && FiredTrack(e.TrackOf(k)) && Enumerates(order, e.tracks.Keys)
    ensures var t, done := e.tracks[k], Steps(e, DelayMicros(order, now));
            && RefsOwned(done) && FiredTrack(done.TrackOf(k)) && done.tracks[k].ref == t.ref
            && OfRule(done.pending, k) == OfRule(e.pending, k) + OfferedAt(e, k, t, now)
  {
    var ms := DelayMicros(order, now);
    var i := MemberIndex(order, k);
    var mid := StepsWithOne(e, ms, k, i);
    Writes.RowsStay(e, ms[..i], e.tracks[k].ref);
    DelayOffers(mid, k, now);
  }

  /** A health verdict never offers an alarm that is fired already. */
  lemma VerdictOffersNew(e: Engine, m: Micro, k: Key, ref: nat) returns (more: seq<Action>)
    requires RefsOwned(e) && WellKeyed(m) && m.ev.Verdict? && ref < |e.rows|
    ensures RefsOwned(Step(e, m)) && ref < |Step(e, m).rows|
    ensures OfRule(Step(e, m).pending, k) == OfRule(e.pending, k) + more && !Offers(more, ref)
  {
    StepKeepsRefs(e, m);
    if m.key == k {
      StepOwn(e, m);
      more := OutcomeOf(e, m).queued;
    } else {
      StepForeign(e, m, k);
      more := [];
    }
  }

  lemma OffersJoin(before: seq<Action>, a: seq<Action>, b: seq<Action>, ref: nat)
    ensures (before + a) + b == before + (a + b)
    ensures Offers(a + b, ref) <==> Offers(a, ref) || Offers(b, ref)
  {
    assert forall x :: x in a + b <==> x in a || x in b;
  }

  lemma {:induction false} VerdictsOfferNew(e: Engine, ms: seq<Micro>, k: Key, ref: nat) returns (later: seq<Action>)
    requires RefsOwned(e) && ref < |e.rows| && forall m :: m in ms ==> WellKeyed(m) && m.ev.Verdict?
    ensures RefsOwned(Steps(e, ms)) && ref < |Steps(e, ms).rows|
    ensures OfRule(Steps(e, ms).pending, k) == OfRule(e.pending, k) + later && !Offers(later, ref)
  {
    later := [];
    if |ms| > 0 {
      var init, m := ms[..|ms| - 1], ms[|ms| - 1];
      var before := VerdictsOfferNew(e, init, k, ref);
      var more := VerdictOffersNew(Steps(e, init), m, k, ref);
      OffersJoin(OfRule(e.pending, k), before, more, ref);
      later := before + more;
    }
  }

  /** The tick offers a fired alarm to the store once more exactly when it has no row and its retry
      is due; whatever else it queues for the rule comes after and is not an offer of that alarm. */
  lemma TickOffersWhenDue(e: Engine, k: Key, now: Time, order: seq<Key>, tags: seq<int>) returns (later: seq<Action>)
    requires RefsOwned(e) && FiredTrack(e.TrackOf(k)) && Enumerates(order, e.tracks.Keys)
    ensures var t := e.tracks[k];
            OfRule(Tick(e, now, order, tags).pending, k) == OfRule(e.pending, k) + OfferedAt(e, k, t, now) + later
    ensures !Offers(later, e.tracks[k].ref)
  {
    DelaysOffer(e, k, now, order);
    var verdicts := HealthMicros(e, tags, now);
    Replay.HealthMicrosShape(e, tags, now);
    later := VerdictsOfferNew(Steps(e, DelayMicros(order, now)), verdicts, k, e.tracks[k].ref);
    StepsConcat(e, DelayMicros(order, now), verdicts);
  }

  // ------------------------------------------------------- an alarm without a row

  /** An attempt for the alarm is queued or in flight. */
  ghost predicate UnderWay(s: System, ref: nat) {
    exists a :: (a in s.engine.pending || a in s.InFlight()) && a.ref == ref && a.status.Active?
  }

  /** In every run a fired alarm without a row has an attempt queued or in flight, or one that
      failed; and the tick queues another exactly from `nextRetry` on. */
  lemma UnsavedIsRetried(s: System, restored: nat, moves: seq<Move>, k: Key, now: Time, order: seq<Key>, tags: seq<int>)
    returns (later: seq<Action>)
    requires Initial(s, restored) && IsRun(s, moves) && s.hasStore
    requires var e := After(s, moves).engine;
             FiredTrack(e.TrackOf(k)) && e.RowOf(e.tracks[k].ref) == 0 && Enumerates(order, e.tracks.Keys)
    ensures var z := After(s, moves);
            var t, ticked := z.engine.tracks[k], Section(z.engine, TickAt(now, order, tags));
            && (UnderWay(z, t.ref) || t.ref in z.failed)
            && OfRule(ticked.pending, k)
                  == OfRule(z.engine.pending, k) + (if now >= t.nextRetry then [Again(k, t)] else []) + later
            && !Offers(later, t.ref)
  {
    Writes.EveryRunKeepsInv(s, restored, moves);
    StoreStays(s, moves);
    var z := After(s, moves);
    UnsavedIsUnderWay(z, restored, k);
    later := TickOffersWhenDue(z.engine, k, now, order, tags);
  }

  lemma {:induction false} StoreStays(s: System, moves: seq<Move>)
    ensures After(s, moves).hasStore == s.hasStore
  {
    if |moves| > 0 {
      StoreStays(s, moves[..|moves| - 1]);
    }
  }

  lemma UnsavedIsUnderWay(z: System, restored: nat, k: Key)
    requires Writes.Inv(z, restored) && z.hasStore && FiredTrack(z.engine.TrackOf(k))
    requires z.engine.RowOf(z.engine.tracks[k].ref) == 0
    ensures UnderWay(z, z.engine.tracks[k].ref) || z.engine.tracks[k].ref in z.failed
  {
    var ref := z.engine.tracks[k].ref;
    RestoredHaveRows(z, restored, ref);
    var b :| b in z.engine.Queued() && b.ref == ref && b.status.Active?;
    assert z.engine.popped == z.executed + z.InFlight();
    if b in z.executed {
      assert Writes.Settled(z, b);
    } else {
      assert b in z.engine.pending || b in z.InFlight();
    }
  }

  lemma RestoredHaveRows(z: System, restored: nat, ref: nat)
    requires Writes.Inv(z, restored) && z.engine.RowOf(ref) == 0
    ensures ref >= restored || Writes.RowId(z, ref) != z.engine.RowOf(ref)
  {
    assert Writes.GoodWrites(z.WritesOf(ref), Writes.RowId(z, ref), ref < restored);
  }

  // ----------------------------------------------------------- a late reading

  /** The rule fired on a reading, and the alarm is queued for the first time. */
  ghost predicate FiredOn(e: Engine, done: Engine, k: Key, def: Definition, at: Time, v: Value) {
    && RefsOwned(done) && k in done.tracks
    && var t := done.tracks[k];
    && t.triggered && t.nextRetry == at + INSERT_RETRY_INTERVAL && done.RowOf(t.ref) == 0
    && Again(k, t) == Action(k.tag, def, v, Active, t.ref, at, None, false)
    && OfRule(done.pending, k) == OfRule(e.pending, k) + [Again(k, t).(notify := true)]
  }

  lemma LiveFires(e: Engine, tag: int, def: Definition, at: Time, v: Value)
    requires RefsOwned(e) && Replay.ValueRule(e, tag, def) && def.delaySeconds == 0 && Violated(def, v)
    requires Key(tag, def.id) !in e.tracks
    ensures FiredOn(e, Steps(e, LiveMicros(tag, DefsOf(e.defs, tag), at, v)), Key(tag, def.id), def, at, v)
  {
    var k, defs := Key(tag, def.id), DefsOf(e.defs, tag);
    var ms := LiveMicros(tag, defs, at, v);
    Replay.LiveMicrosShape(tag, defs, at, v);
    var d := MemberIndex(defs, def);
    var i := Replay.LiveMicrosOnce(tag, defs, at, v, d);
    assert forall j :: 0 <= j < |ms| ==> ms[j] in ms;
    var mid := StepsWithOne(e, ms, k, i);
    Writes.StepsKeepRows(e, ms[..i]);
    Writes.StepsKeepRows(e, ms);
    StepOwn(mid, ms[i]);
  }

  /** The first attempt is queued by the reading's own section. */
  lemma SampleFires(e: Engine, tag: int, def: Definition, at: Time, v: Value, markLife: bool, wall: Time)
    requires RefsOwned(e) && Replay.ValueRule(e, tag, def) && def.delaySeconds == 0 && Violated(def, v)
    requires Key(tag, def.id) !in e.tracks && at != ZERO_TIME
    ensures FiredOn(e, Section(e, Sample(tag, Numeric(v), QUALITY_GOOD, at, markLife, wall)), Key(tag, def.id), def,
                    at, v)
  {
    var defs := DefsOf(e.defs, tag);
    var alive := if markLife then RecordGood(e, tag, defs, v, wall) else e;
    Replay.RefsIgnoreSamples(e, alive.samples);
    LiveFires(alive, tag, def, at, v);
  }

  /** And the second by the first tick that is thirty seconds later than the time the reading was
      taken, however soon after the first attempt: at once, when the reading is that old. */
  lemma LateReadingIsRetriedAt(e: Engine, first: Engine, tag: int, def: Definition, at: Time, v: Value,
                               now: Time, order: seq<Key>, tags: seq<int>) returns (later: seq<Action>)
    requires FiredOn(e, first, Key(tag, def.id), def, at, v) && Enumerates(order, first.tracks.Keys)
    ensures var k, second := Key(tag, def.id), Section(first, TickAt(now, order, tags));
            var t := first.tracks[k];
            && OfRule(second.pending, k)
               == OfRule(first.pending, k) + (if now >= at + INSERT_RETRY_INTERVAL then [Again(k, t)] else []) + later
            && !Offers(later, t.ref)
  {
    later := TickOffersWhenDue(first, Key(tag, def.id), now, order, tags);
  }

  /** A reading an hour old: the tick a second after it offers the alarm a second time. */
  lemma HourOldReadingIsRetriedAtOnce(e: Engine, tag: int, def: Definition, v: Value, wall: Time, order: seq<Key>,
                                      tags: seq<int>)
    returns (a: Action, later: seq<Action>)
    requires RefsOwned(e) && Replay.ValueRule(e, tag, def) && def.delaySeconds == 0 && Violated(def, v)
    requires Key(tag, def.id) !in e.tracks && wall - 3600 * SECOND != ZERO_TIME
    requires Enumerates(order,
                        Section(e, Sample(tag, Numeric(v), QUALITY_GOOD, wall - 3600 * SECOND, true, wall)).tracks.Keys)
    ensures var first := Section(e, Sample(tag, Numeric(v), QUALITY_GOOD, wall - 3600 * SECOND, true, wall));
            var second := Section(first, TickAt(wall + SECOND, order, tags));
            && a.status.Active?
            && OfRule(second.pending, Key(tag, def.id))
                  == OfRule(e.pending, Key(tag, def.id)) + [a.(notify := true), a] + later
  {
    var at, k := wall - 3600 * SECOND, Key(tag, def.id);
    SampleFires(e, tag, def, at, v, true, wall);
    var first := Section(e, Sample(tag, Numeric(v), QUALITY_GOOD, at, true, wall));
    a := Again(k, first.tracks[k]);
    later := LateReadingIsRetriedAt(e, first, tag, def, at, v, wall + SECOND, order, tags);
    assert OfRule(e.pending, k) + [a.(notify := true)] + [a] == OfRule(e.pending, k) + [a.(notify := true), a];
  }
}
