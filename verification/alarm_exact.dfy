/** When a batch replayed closes exactly what the same readings fed live would close.

The live feed closes one occurrence more for every alarm that lasts no time, which the replay
drops. Said of the readings: an alarm found open, or come of an excursion found under way, is
cleared no later than it was fired, or one is raised and cleared by two readings of one time. */
module AlarmExact {
  import opened Options
  import opened AlarmRules
  import opened AlarmEngine
  import opened AlarmFrames
  import opened AlarmReplay
  import opened AlarmEnds
  import Spans = AlarmSpans

  /** A live reading queues the end of an alarm exactly when it clears a fired one. */
  lemma LiveQueues(tag: int, t: Option<Track>, newRef: nat, def: Definition, at: Time, v: Value)
    ensures var q, s, m := LiveStep(tag, t, newRef, def, at, v).queued, StateOf(t), MarkOf(def, at, v);
            && |q| <= 1 && (|q| == 1 && q[0].status.Cleared? <==> Spans.Closes(s, m) || Spans.Drops(s, m))
            && (|q| == 1 && q[0].status.Cleared? ==> q[0].clearedAt.Some?)
  {
  }

  lemma TickQueues(tag: int, t: Option<Track>, persisted: bool, now: Time)
    ensures Closed(DelayStep(tag, t, persisted, now).queued) == []
  {
    NothingCloses(DelayStep(tag, t, persisted, now).queued);
  }

  lemma ClosedOfOne(q: seq<Action>)
    requires |q| <= 1 && (|q| == 1 && q[0].status.Cleared? ==> q[0].clearedAt.Some?)
    ensures |Closed(q)| == if |q| == 1 && q[0].status.Cleared? then 1 else 0
  {
    assert |q| == 1 ==> q[..0] == [];
    assert Closed([]) == [];
  }

  /** A live reading and its tick end an alarm whenever the reading clears it. */
  lemma LiveCloses(tag: int, t: Option<Track>, newRef: nat, def: Definition, at: Time, v: Value, persisted: bool)
    ensures var live := LiveStep(tag, t, newRef, def, at, v);
            var tick := DelayStep(tag, live.track, persisted, at);
            var s, m := StateOf(t), MarkOf(def, at, v);
            |Closed(live.queued)| + |Closed(tick.queued)|
              == (if Spans.Closes(s, m) then 1 else 0) + if Spans.Drops(s, m) then 1 else 0
  {
    LiveQueues(tag, t, newRef, def, at, v);
    ClosedOfOne(LiveStep(tag, t, newRef, def, at, v).queued);
    TickQueues(tag, LiveStep(tag, t, newRef, def, at, v).track, persisted, at);
  }

  /** The occurrences the feed has closed are those the marks end or drop. */
  ghost predicate FeedCounts(e: Engine, l: Engine, k: Key, def: Definition, ms: seq<Spans.Mark>) {
    var s := StateOf(e.TrackOf(k));
    && RefsOwned(l) && l.defs == e.defs && StateOf(l.TrackOf(k)) == Spans.RunFrom(DelayOf(def), s, ms)
    && |Closed(OfRule(l.pending, k))|
       == |Closed(OfRule(e.pending, k))| + Spans.Closings(DelayOf(def), s, ms) + Spans.Dropped(DelayOf(def), s, ms)
  }

  /** A live reading and its tick move the rule as the replayed reading does. */
  lemma LiveMovesOn(tag: int, t: Option<Track>, newRef: nat, def: Definition, at: Time, v: Value, persisted: bool)
    requires Match(t, t, def) && def.delaySeconds >= 0
    ensures var live := LiveStep(tag, t, newRef, def, at, v);
            StateOf(DelayStep(tag, live.track, persisted, at).track)
              == Spans.Next(DelayOf(def), StateOf(t), MarkOf(def, at, v))
  {
    ReplayIsLiveThenTick(tag, t, t, def, at, v, newRef, newRef, false, at, persisted);
    StepIsNext(tag, t, newRef, def, at, v, false, at);
  }

  lemma FeedPoint(e: Engine, l: Engine, tag: int, def: Definition, p: Point, o: Orders, ms: seq<Spans.Mark>)
    requires ValueRule(e, tag, def) && def.delaySeconds >= 0 && FeedCounts(e, l, Key(tag, def.id), def, ms)
    requires Match(l.TrackOf(Key(tag, def.id)), l.TrackOf(Key(tag, def.id)), def) && p.reading.Numeric?
    requires Enumerates(o.tracks, EvaluateAt(l, tag, p.reading, QUALITY_GOOD, p.at, true, p.at).tracks.Keys)
    ensures FeedCounts(e, Feed(l, tag, p, o), Key(tag, def.id), def, ms + [MarkOf(def, p.at, p.reading.v)])
  {
    var k, v := Key(tag, def.id), p.reading.v;
    assert p.reading == Numeric(v);
    var newRef := EvaluateOfValueRule(l, tag, def, p.at, v);
    var judged := EvaluateAt(l, tag, p.reading, QUALITY_GOOD, p.at, true, p.at);
    var persisted := TickOfValueRule(judged, tag, def, p.at, o.tracks, o.tags);
    LiveCloses(tag, l.TrackOf(k), newRef, def, p.at, v, persisted);
    LiveMovesOn(tag, l.TrackOf(k), newRef, def, p.at, v, persisted);
    assert (ms + [MarkOf(def, p.at, v)])[..|ms|] == ms;
  }

  lemma NextFeeds(e: Engine, l: Engine, tag: int, def: Definition, p: Point, o: Orders, ms: seq<Spans.Mark>)
    requires ValueRule(e, tag, def) && def.delaySeconds >= 0 && FeedCounts(e, l, Key(tag, def.id), def, ms)
    requires Match(l.TrackOf(Key(tag, def.id)), l.TrackOf(Key(tag, def.id)), def)
    requires Enumerates(o.tracks, EvaluateAt(l, tag, p.reading, QUALITY_GOOD, p.at, true, p.at).tracks.Keys)
    ensures FeedCounts(e, Feed(l, tag, p, o), Key(tag, def.id), def, ms + MarksOfOne(def, p))
  {
    if p.reading.Numeric? {
      FeedPoint(e, l, tag, def, p, o, ms);
    } else {
      assert ms + [] == ms;
    }
  }

  lemma {:induction false} FeedCountsAll(e: Engine, tag: int, def: Definition, points: seq<Point>, orders: seq<Orders>)
    requires RefsOwned(e) && ValueRule(e, tag, def) && def.delaySeconds >= 0
    requires Match(e.TrackOf(Key(tag, def.id)), e.TrackOf(Key(tag, def.id)), def)
    requires |orders| == |points| && Fair(e, tag, points, orders)
    ensures FeedCounts(e, FeedAll(e, tag, points, orders), Key(tag, def.id), def, MarksOf(def, points))
  {
    if |points| > 0 {
      var n := |points| - 1;
      FeedCountsAll(e, tag, def, points[..n], orders[..n]);
      SeriesKeepsAgreement(e, e, tag, def, points[..n], orders[..n], {}, 0);
      var l := FeedAll(e, tag, points[..n], orders[..n]);
      MatchesItself(Steps(e, SeriesMicros(tag, DefsOf(e.defs, tag), points[..n], {}, 0)).TrackOf(Key(tag, def.id)),
                    l.TrackOf(Key(tag, def.id)), def);
      NextFeeds(e, l, tag, def, points[n], orders[n], MarksOf(def, points[..n]));
    }
  }

  lemma MatchesItself(a: Option<Track>, b: Option<Track>, def: Definition)
    requires Match(a, b, def)
    ensures Match(b, b, def)
  {
  }

  lemma LastingSameLength(was: seq<Occurrence>, r: seq<Occurrence>, l: seq<Occurrence>)
    requires was <= r && was <= l && r[|was|..] == Lasting(l[|was|..])
    ensures r == l <==> |r| == |l|
  {
    var added := l[|was|..];
    assert r == was + r[|was|..] && l == was + added;
    LastingDropsSome(added);
    if |r| == |l| {
      LastingKeepsAll(added);
    }
  }

  /** The replay closes what the feed closes exactly when it drops nothing. */
  lemma ExactIffNoneDropped(e: Engine, tag: int, def: Definition, points: seq<Point>, orders: seq<Orders>, wall: Time)
    requires RefsOwned(e) && ValueRule(e, tag, def) && def.delaySeconds >= 0
    requires Match(e.TrackOf(Key(tag, def.id)), e.TrackOf(Key(tag, def.id)), def)
    requires |orders| == |points| && Fair(e, tag, SortByTime(points), orders)
    ensures var k := Key(tag, def.id);
            var r := Closed(OfRule(EvaluateSeries(e, tag, points, QUALITY_GOOD, wall).pending, k));
            var l := Closed(OfRule(FeedAll(e, tag, SortByTime(points), orders).pending, k));
            r == l <==> Spans.Dropped(DelayOf(def), StateOf(e.TrackOf(k)), MarksOf(def, SortByTime(points))) == 0
  {
    var k, sorted := Key(tag, def.id), SortByTime(points);
    BatchReplaysLive(e, tag, def, points, orders, wall);
    FeedCountsAll(e, tag, def, sorted, orders);
    if |points| > 0 {
      BatchCloses(e, tag, def, points, wall);
    }
    LastingSameLength(Closed(OfRule(e.pending, k)),
                      Closed(OfRule(EvaluateSeries(e, tag, points, QUALITY_GOOD, wall).pending, k)),
                      Closed(OfRule(FeedAll(e, tag, sorted, orders).pending, k)));
  }

  /** The replay closes exactly the occurrences the live feed closes if and only if, on the
      readings, no alarm lasts no time. */
  lemma ReplayIsExactIff(e: Engine, tag: int, def: Definition, points: seq<Point>, orders: seq<Orders>, wall: Time)
    requires RefsOwned(e) && ValueRule(e, tag, def) && def.delaySeconds >= 0
    requires Match(e.TrackOf(Key(tag, def.id)), e.TrackOf(Key(tag, def.id)), def)
    requires |orders| == |points| && Fair(e, tag, SortByTime(points), orders)
    ensures var k := Key(tag, def.id);
            var r := Closed(OfRule(EvaluateSeries(e, tag, points, QUALITY_GOOD, wall).pending, k));
            var l := Closed(OfRule(FeedAll(e, tag, SortByTime(points), orders).pending, k));
            r == l <==> !Spans.EndsAtOnceFrom(DelayOf(def), StateOf(e.TrackOf(k)), MarksOf(def, SortByTime(points)))
  {
    ExactIffNoneDropped(e, tag, def, points, orders, wall);
    MarksInOrder(def, SortByTime(points));
    Spans.DroppedIff(DelayOf(def), StateOf(e.TrackOf(Key(tag, def.id))), MarksOf(def, SortByTime(points)));
  }
}
