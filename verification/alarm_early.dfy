/** Batch readings no later than an alarm fired before the batch.

The zero-duration branch takes such an alarm for one raised and ended within the batch: it
drops the track and queues nothing. Here is the exact condition, on the readings, for the
alarm to be accounted for after a batch, and for the queue the batch found to stay in front
of what it adds, which is where the batch looks for its news. */
module AlarmEarly {
  import opened Options
  import opened AlarmRules
  import opened AlarmEngine
  import opened AlarmFrames
  import opened AlarmOccurrences
  import opened AlarmNotify
  import Replay = AlarmReplay

  /** The alarm with this reference is still tracked, or its end is queued. */
  ghost predicate Accounted(e: Engine, k: Key, ref: nat) {
    (k in e.tracks && e.tracks[k].ref == ref) || Closed(e, ref)
  }

  ghost predicate Closed(e: Engine, ref: nat) {
    exists a :: a in e.Queued() && a.ref == ref && a.status.Cleared?
  }

  /** Nothing tracks the alarm, nothing pending belongs to it and nothing says it is over. */
  ghost predicate Lost(e: Engine, ref: nat) {
    && ref < |e.rows| && !Closed(e, ref)
    && (forall j :: j in e.tracks ==> e.tracks[j].ref != ref)
    && (forall a :: a in e.pending ==> a.ref != ref)
  }

  /** The alarm is tracked as it was found. */
  ghost predicate Kept(e0: Engine, e: Engine, k: Key) {
    k in e0.tracks && e.TrackOf(k) == e0.TrackOf(k) && !Closed(e, e0.tracks[k].ref)
  }

  lemma ApplyMembers(e: Engine, k: Key, out: Outcome)
    requires RefsOwned(e) && Proper(e, k, out)
    ensures forall a :: a in Apply(e, k, out).Queued() ==> a in e.Queued() || a in out.queued
    ensures forall a :: a in Apply(e, k, out).pending ==> a in e.pending || a in out.queued
    ensures forall a :: a in e.Queued() && a.status.Cleared? ==> a in Apply(e, k, out).Queued()
  {
    if out.pulled {
      WithoutMembers(e.pending, k, e.tracks[k].ref);
    }
  }

  lemma ApplyKeepsLost(e: Engine, k: Key, out: Outcome, ref: nat)
    requires RefsOwned(e) && Proper(e, k, out) && Lost(e, ref)
    ensures Lost(Apply(e, k, out), ref)
  {
    ApplyMembers(e, k, out);
  }

  lemma ApplyKeepsClosed(e: Engine, k: Key, out: Outcome, ref: nat)
    requires RefsOwned(e) && Proper(e, k, out) && Closed(e, ref)
    ensures Closed(Apply(e, k, out), ref)
  {
    ApplyMembers(e, k, out);
    var a :| a in e.Queued() && a.ref == ref && a.status.Cleared?;
    assert a in Apply(e, k, out).Queued();
  }

  lemma ForeignKeepsKept(e0: Engine, e: Engine, j: Key, out: Outcome, k: Key)
    requires RefsOwned(e) && Proper(e, j, out) && Kept(e0, e, k) && j != k
    ensures Kept(e0, Apply(e, j, out), k)
  {
    ApplyForeign(e, j, out, k);
    ApplyKeepsOpen(e, j, out, e.tracks[k].ref);
  }

  /** Only the rule that owns a reference closes it. */
  lemma ApplyKeepsOpen(e: Engine, j: Key, out: Outcome, ref: nat)
    requires RefsOwned(e) && Proper(e, j, out) && !Closed(e, ref) && ref < |e.rows|
    requires (j in e.tracks ==> e.tracks[j].ref != ref)
    ensures !Closed(Apply(e, j, out), ref)
  {
    ApplyMembers(e, j, out);
    forall a | a in Apply(e, j, out).Queued() && a.ref == ref
      ensures a.status.Active?
    {
      assert a in e.Queued() || a in out.queued;
    }
  }

  /** A reading of a batch on the alarm as it was found: it goes on unless the reading passes the
      clearing test; it is then lost if the reading is no later, and closed otherwise. */
  lemma OwnReading(e0: Engine, e: Engine, m: Micro, k: Key)
    requires RefsOwned(e) && Fired(e0, k) && Kept(e0, e, k) && m.key == k && m.ev.Replay? && WellKeyed(m)
    ensures var e', ref, firedAt := Step(e, m), e0.tracks[k].ref, e0.tracks[k].firedAt;
            var clears := !Violated(m.ev.def, m.ev.v) && BackInSpec(m.ev.def, m.ev.v);
            if !clears then Kept(e0, e', k) else if m.ev.at <= firedAt then Lost(e', ref) else Closed(e', ref)
  {
    OutcomesAreProper(e, m);
    var out, ref := OutcomeOf(e, m), e0.tracks[k].ref;
    ApplyMembers(e, k, out);
    if out.pulled {
      WithoutMembers(e.pending, k, ref);
    } else if |out.queued| == 1 {
      assert out.queued[0] in Step(e, m).Queued();
    }
  }

  predicate Clears(m: Micro, k: Key) {
    m.key == k && m.ev.Replay? && !Violated(m.ev.def, m.ev.v) && BackInSpec(m.ev.def, m.ev.v)
  }

  ghost predicate SomeClears(ms: seq<Micro>, k: Key, early: bool, firedAt: Time) {
    exists m :: m in ms && Clears(m, k) && (early ==> m.ev.at <= firedAt)
  }

  /** Replayed readings in the order of their times. */
  ghost predicate InTime(ms: seq<Micro>) {
    && (forall m :: m in ms ==> m.ev.Replay? && WellKeyed(m))
    && forall i, j :: 0 <= i < j < |ms| ==> ms[i].ev.Replay? && ms[j].ev.Replay? && ms[i].ev.at <= ms[j].ev.at
  }

  /** What has become of the alarm: as found, lost, or closed. */
  ghost predicate Fate(e0: Engine, ms: seq<Micro>, k: Key)
    requires Fired(e0, k)
  {
    var e, ref, firedAt := Steps(e0, ms), e0.tracks[k].ref, e0.tracks[k].firedAt;
    && RefsOwned(e)
    && (!SomeClears(ms, k, false, firedAt) ==> Kept(e0, e, k))
    && (SomeClears(ms, k, true, firedAt) ==> Lost(e, ref))
    && (SomeClears(ms, k, false, firedAt) && !SomeClears(ms, k, true, firedAt) ==> Closed(e, ref))
  }

  lemma SomeClearsSnoc(ms: seq<Micro>, m: Micro, k: Key, early: bool, firedAt: Time)
    ensures SomeClears(ms + [m], k, early, firedAt)
      <==> SomeClears(ms, k, early, firedAt) || (Clears(m, k) && (early ==> m.ev.at <= firedAt))
  {
    if SomeClears(ms, k, early, firedAt) {
      var x :| x in ms && Clears(x, k) && (early ==> x.ev.at <= firedAt);
      assert x in ms + [m];
    }
    assert m in ms + [m];
  }

  lemma OneMoreReading(e0: Engine, ms: seq<Micro>, m: Micro, k: Key)
    requires Fired(e0, k) && Fate(e0, ms, k) && InTime(ms + [m])
    ensures Fate(e0, ms + [m], k)
  {
    var e, ref, firedAt := Steps(e0, ms), e0.tracks[k].ref, e0.tracks[k].firedAt;
    StepsSnoc(e0, ms, m);
    assert m in ms + [m];
    StepKeepsRefs(e, m);
    OutcomesAreProper(e, m);
    SomeClearsSnoc(ms, m, k, false, firedAt);
    SomeClearsSnoc(ms, m, k, true, firedAt);
    if SomeClears(ms, k, true, firedAt) {
      ApplyKeepsLost(e, m.key, OutcomeOf(e, m), ref);
    } else if SomeClears(ms, k, false, firedAt) {
      ApplyKeepsClosed(e, m.key, OutcomeOf(e, m), ref);
      LaterStays(ms, m, k, firedAt);
    } else if m.key == k {
      OwnReading(e0, e, m, k);
    } else {
      ForeignKeepsKept(e0, e, m.key, OutcomeOf(e, m), k);
    }
  }

  /** Once a reading after the alarm has cleared it, none of the later ones is early. */
  lemma LaterStays(ms: seq<Micro>, m: Micro, k: Key, firedAt: Time)
    requires InTime(ms + [m]) && SomeClears(ms, k, false, firedAt) && !SomeClears(ms, k, true, firedAt)
    ensures m.ev.at > firedAt
  {
    var x :| x in ms && Clears(x, k);
    var i := MemberIndex(ms, x);
    assert (ms + [m])[i] == x && (ms + [m])[|ms|] == m;
  }

  lemma {:induction false} FateOfAll(e0: Engine, ms: seq<Micro>, k: Key)
    requires RefsOwned(e0) && Fired(e0, k) && InTime(ms)
    ensures Fate(e0, ms, k)
  {
    if |ms| == 0 {
      assert !Closed(e0, e0.tracks[k].ref);
    } else {
      var init := ms[..|ms| - 1];
      assert ms == init + [ms[|ms| - 1]];
      FateOfAll(e0, init, k);
      OneMoreReading(e0, init, ms[|ms| - 1], k);
    }
  }

  // ------------------------------------------------------ from readings to events

  lemma {:induction false} PointMicrosAt(tag: int, defs: seq<Definition>, p: Point, known: set<int>, wall: Time)
    requires p.reading.Numeric?
    ensures forall m :: m in PointMicros(tag, defs, p.at, p.reading.v, known, wall) ==>
      m.ev.Replay? && WellKeyed(m) && m.ev.at == p.at
    ensures forall d :: d in defs && !IsHealth(d.alarmType) ==>
      Micro(Key(tag, d.id), Replay(d, p.at, p.reading.v, d.id in known, wall)) in PointMicros(tag, defs, p.at,
                                                                                              p.reading.v, known, wall)
  {
    if |defs| > 0 {
      PointMicrosAt(tag, defs[..|defs| - 1], p, known, wall);
      assert defs == defs[..|defs| - 1] + [defs[|defs| - 1]];
    }
  }

  lemma {:induction false} SeriesInTime(tag: int, defs: seq<Definition>, points: seq<Point>, known: set<int>,
                                        wall: Time)
    requires SortedByTime(points)
    ensures InTime(SeriesMicros(tag, defs, points, known, wall))
    ensures |points| > 0 ==> forall m :: m in SeriesMicros(tag, defs, points, known, wall) ==>
      m.ev.Replay? && m.ev.at <= points[|points| - 1].at
  {
    if |points| > 0 {
      var n := |points| - 1;
      var p, before := points[n], SeriesMicros(tag, defs, points[..n], known, wall);
      SeriesInTime(tag, defs, points[..n], known, wall);
      if p.reading.Numeric? {
        PointMicrosAt(tag, defs, p, known, wall);
      }
      JoinInTime(before, MicrosOf(tag, defs, p, known, wall), p.at);
    }
  }

  lemma JoinInTime(a: seq<Micro>, b: seq<Micro>, at: Time)
    requires InTime(a) && forall m :: m in a ==> m.ev.at <= at
    requires forall m :: m in b ==> m.ev.Replay? && WellKeyed(m) && m.ev.at == at
    ensures InTime(a + b) && forall m :: m in a + b ==> m.ev.at <= at
  {
    forall i, j | 0 <= i < j < |a + b|
      ensures (a + b)[i].ev.Replay? && (a + b)[j].ev.Replay? && (a + b)[i].ev.at <= (a + b)[j].ev.at
    {
      if i < |a| {
        assert a[i] in a;
      } else {
        assert b[i - |a|] in b;
      }
      if j >= |a| {
        assert b[j - |a|] in b;
      }
    }
  }

  lemma {:induction false} SeriesHolds(tag: int, defs: seq<Definition>, points: seq<Point>, known: set<int>, wall: Time,
                                       p: Point, d: Definition)
    requires p in points && p.reading.Numeric? && d in defs && !IsHealth(d.alarmType)
    ensures Micro(Key(tag, d.id), Replay(d, p.at, p.reading.v, d.id in known, wall))
              in SeriesMicros(tag, defs, points, known, wall)
  {
    var n := |points| - 1;
    if points[n] == p {
      PointMicrosAt(tag, defs, p, known, wall);
    } else {
      SeriesHolds(tag, defs, points[..n], known, wall, p, d);
    }
  }

  /** An early end among the readings is one among the events. */
  lemma EarlyEndIsClears(e: Engine, k: Key, points: seq<Point>, wall: Time)
    requires Fired(e, k)
    ensures EarlyEnd(e, k, points) <==>
      SomeClears(SeriesMicros(k.tag, DefsOf(e.defs, k.tag), points, KnownRules(e, k.tag), wall), k, true,
                 e.tracks[k].firedAt)
  {
    var defs, known := DefsOf(e.defs, k.tag), KnownRules(e, k.tag);
    var ms := SeriesMicros(k.tag, defs, points, known, wall);
    SeriesMicrosOfPoints(e, k.tag, points, wall);
    if EarlyEnd(e, k, points) {
      var p, d :| p in points && d in defs && Ends(d, k, p) && p.at <= e.tracks[k].firedAt;
      SeriesHolds(k.tag, defs, points, known, wall, p, d);
      var m := Micro(k, Replay(d, p.at, p.reading.v, d.id in known, wall));
      assert m in ms && Clears(m, k);
    }
    if SomeClears(ms, k, true, e.tracks[k].firedAt) {
      var m :| m in ms && Clears(m, k) && m.ev.at <= e.tracks[k].firedAt;
      ClearsByIsEarlyEnd(e, k.tag, points, m);
    }
  }

  // --------------------------------------------------------------- theorems

  /** The fate of the alarm at the end of the replay. */
  lemma FateOfBatch(e: Engine, k: Key, sorted: seq<Point>, wall: Time)
    requires RefsOwned(e) && Fired(e, k) && SortedByTime(sorted) && |sorted| > 0
    ensures var done, ref := ReplaySorted(e, k.tag, sorted, wall), e.tracks[k].ref;
            if EarlyEnd(e, k, sorted) then Lost(done, ref) else Accounted(done, k, ref)
  {
    var pre := BatchAlive(e, k.tag, sorted, wall);
    BatchAliveIsAlive(e, k.tag, sorted, wall);
    Replay.RefsIgnoreSamples(e, pre.samples);
    EarlyEndIgnoresSamples(e, pre, sorted);
    assert KnownRules(pre, k.tag) == KnownRules(e, k.tag);
    SeriesInTime(k.tag, DefsOf(e.defs, k.tag), sorted, KnownRules(e, k.tag), wall);
    FateOfAll(pre, SeriesMicros(k.tag, DefsOf(e.defs, k.tag), sorted, KnownRules(e, k.tag), wall), k);
    EarlyEndIsClears(pre, k, sorted, wall);
  }

  lemma NewsKeepsFate(start: Engine, done: Engine, tag: int, k: Key, ref: nat)
    ensures var e' := WithNews(start, done, tag);
            && (Lost(done, ref) ==> Lost(e', ref) && !Accounted(e', k, ref))
            && (Accounted(done, k, ref) ==> Accounted(e', k, ref))
  {
    var e' := WithNews(start, done, tag);
    assert SameButNotify(e'.pending, done.pending) && SameButNotify(e'.Queued(), done.Queued())
      && SameButNotify(done.Queued(), e'.Queued());
    forall a | a in e'.Queued()
      ensures exists b :: b in done.Queued() && b.ref == a.ref && b.status == a.status
    {
      var b := NotifyMember(done.Queued(), e'.Queued(), a);
    }
    forall a | a in e'.pending
      ensures exists b :: b in done.pending && b.ref == a.ref
    {
      var b := NotifyMember(done.pending, e'.pending, a);
    }
    if Closed(done, ref) {
      var a :| a in done.Queued() && a.ref == ref && a.status.Cleared?;
      var b := NotifyMember(e'.Queued(), done.Queued(), a);
    }
  }

  /** An alarm fired before a batch is accounted for after it, tracked or its end queued, if and
      only if no usable reading of the batch both passes the clearing test of a rule of its id
      and is no later than the alarm. */
  lemma AccountedIff(e: Engine, k: Key, points: seq<Point>, wall: Time)
    requires RefsOwned(e) && Fired(e, k)
    ensures Accounted(EvaluateSeries(e, k.tag, points, QUALITY_GOOD, wall), k, e.tracks[k].ref)
      <==> !EarlyEnd(e, k, points)
  {
    if |points| > 0 && |DefsOf(e.defs, k.tag)| > 0 {
      var sorted := SortByTime(points);
      SortedEndsEarly(e, k, points);
      FateOfBatch(e, k, sorted, wall);
      NewsKeepsFate(e, ReplaySorted(e, k.tag, sorted, wall), k.tag, k, e.tracks[k].ref);
    }
  }

  /** The queue a batch found stays in front of what it adds, so that its news is where it looks
      for it, if and only if no early reading ends an alarm whose ACTIVE is still queued. */
  lemma FrontStaysIff(e: Engine, tag: int, points: seq<Point>, wall: Time)
    requires RefsOwned(e) && DelayedAreSilent(e)
    ensures e.pending <= EvaluateSeries(e, tag, points, QUALITY_GOOD, wall).pending <==> FrontStays(e, tag, points)
  {
    if |points| > 0 && |DefsOf(e.defs, tag)| > 0 {
      var sorted := SortByTime(points);
      var done := ReplaySorted(e, tag, sorted, wall);
      forall j: Key
        ensures EarlyEnd(e, j, sorted) <==> EarlyEnd(e, j, points)
      {
        SortedEndsEarly(e, j, points);
      }
      if FrontStays(e, tag, points) {
        FrontOfBatch(e, tag, sorted, wall);
        assert WithNews(e, done, tag).pending[..|e.pending|] == e.pending;
      } else {
        var j: Key :| j.tag == tag && EarlyEnd(e, j, points) && !NoneQueued(e, e.pending, j);
        FateOfBatch(e, j, sorted, wall);
        NewsKeepsFate(e, done, tag, j, e.tracks[j].ref);
        var a :| a in e.pending && a.ref == e.tracks[j].ref;
        LostIsNotInFront(e, WithNews(e, done, tag), a);
      }
    }
  }

  lemma LostIsNotInFront(e: Engine, e': Engine, a: Action)
    requires a in e.pending && Lost(e', a.ref)
    ensures !(e.pending <= e'.pending)
  {
    var i := MemberIndex(e.pending, a);
    assert i < |e'.pending| ==> e'.pending[i] in e'.pending;
  }

  lemma FrontOfBatch(e: Engine, tag: int, sorted: seq<Point>, wall: Time)
    requires RefsOwned(e) && DelayedAreSilent(e) && FrontStays(e, tag, sorted) && |sorted| > 0
    ensures e.pending <= ReplaySorted(e, tag, sorted, wall).pending
  {
    var pre := BatchAlive(e, tag, sorted, wall);
    BatchAliveIsAlive(e, tag, sorted, wall);
    Replay.RefsIgnoreSamples(e, pre.samples);
    EarlyEndIgnoresSamples(e, pre, sorted);
    assert KnownRules(pre, tag) == KnownRules(e, tag) && pre.Queued() == e.Queued();
    FrontMicrosOf(pre, tag, sorted, wall);
    FrontSteps(pre, SeriesMicros(tag, DefsOf(e.defs, tag), sorted, KnownRules(e, tag), wall), tag);
  }
}
