/** Notifications over whole runs, and the inputs on which they go wrong. */
module AlarmTold {
  import opened Options
  import opened AlarmRules
  import opened AlarmEngine
  import opened AlarmFrames
  import opened AlarmOccurrences
  import opened AlarmNotify
  import opened AlarmFront
  import opened AlarmDrain
  import Replay = AlarmReplay
  import Writes = AlarmWrites
  import Health = AlarmHealth

  /** A batch judged on the rule's tag tells the truth about it. Every other section does. */
  ghost predicate CleanFor(e: Engine, ev: Event, k: Key, open: bool) {
    ev.Batch? && ev.tag == k.tag && CallsDrain(e, ev) ==> IsTruthful(e, ev.points, Section(e, ev), k, open)
  }

  lemma {:induction false} StepsKeepSilence(e: Engine, ms: seq<Micro>)
    requires RefsOwned(e) && DelayedAreSilent(e) && forall m :: m in ms ==> WellKeyed(m)
    ensures RefsOwned(Steps(e, ms)) && DelayedAreSilent(Steps(e, ms))
  {
    if |ms| > 0 {
      StepsKeepSilence(e, ms[..|ms| - 1]);
      StepKeepsRefs(Steps(e, ms[..|ms| - 1]), ms[|ms| - 1]);
      StepKeepsSilence(Steps(e, ms[..|ms| - 1]), ms[|ms| - 1]);
    }
  }

  lemma NotifyKeepsSilence(e: Engine, e': Engine)
    requires DelayedAreSilent(e) && e'.tracks == e.tracks && SameButNotify(e'.Queued(), e.Queued())
    ensures DelayedAreSilent(e')
  {
    forall k, a | k in e'.tracks && !e'.tracks[k].triggered && a in e'.Queued()
      ensures a.ref != e'.tracks[k].ref
    {
      var b := NotifyMember(e.Queued(), e'.Queued(), a);
    }
  }

  lemma SectionKeepsSilence(e: Engine, ev: Event)
    requires RefsOwned(e) && DelayedAreSilent(e)
    ensures DelayedAreSilent(Section(e, ev))
  {
    var pre, ms := SectionShape(e, ev);
    assert pre.Queued() == e.Queued();
    StepsKeepSilence(pre, ms);
    assert SameButNotify(Section(e, ev).Queued(), Steps(pre, ms).Queued());
    NotifyKeepsSilence(Steps(pre, ms), Section(e, ev));
  }

  lemma {:induction false} SeriesMicrosTag(tag: int, defs: seq<Definition>, points: seq<Point>, known: set<int>,
                                           wall: Time)
    ensures forall m :: m in SeriesMicros(tag, defs, points, known, wall) ==>
      m.key.tag == tag && m.ev.Replay? && WellKeyed(m)
  {
    if |points| > 0 {
      var p := points[|points| - 1];
      SeriesMicrosTag(tag, defs, points[..|points| - 1], known, wall);
      if p.reading.Numeric? {
        Replay.PointMicrosShape(tag, defs, p.at, p.reading.v, known, wall);
      }
    }
  }

  lemma {:induction false} MarkNewsOfOther(q: seq<Action>, first: nat, tracks: map<Key, Track>, tag: int, k: Key)
    requires k.tag != tag
    ensures OfRule(MarkNews(q, first, tracks, tag), k) == OfRule(q, k)
  {
    if |q| > 0 {
      var n := |q| - 1;
      MarkNewsOfOther(q[..n], first, tracks, tag, k);
      assert MarkNews(q, first, tracks, tag)[..n] == MarkNews(q[..n], first, tracks, tag);
    }
  }

  /** The replay of a batch passes by the rules of other tags. */
  lemma ReplayOfOther(e: Engine, tag: int, sorted: seq<Point>, wall: Time, k: Key)
    requires RefsOwned(e) && tag != k.tag && |sorted| > 0
    ensures var done := ReplaySorted(e, tag, sorted, wall);
            done.TrackOf(k) == e.TrackOf(k) && OfRule(done.pending, k) == OfRule(e.pending, k)
              && done.popped == e.popped
  {
    var pre := BatchAlive(e, tag, sorted, wall);
    var ms := SeriesMicros(tag, DefsOf(e.defs, tag), sorted, KnownRules(e, tag), wall);
    BatchAliveIsAlive(e, tag, sorted, wall);
    Replay.RefsIgnoreSamples(e, pre.samples);
    SeriesMicrosTag(tag, DefsOf(e.defs, tag), sorted, KnownRules(e, tag), wall);
    assert forall i :: 0 <= i < |ms| ==> ms[i] in ms;
    StepsForeign(pre, ms, k);
    StepsKeepPopped(pre, ms);
  }

  lemma OtherBatchTells(e: Engine, ev: Event, k: Key, open: bool)
    requires RefsOwned(e) && ToldTruth(e, k, open) && ev.Batch? && ev.tag != k.tag
    ensures ToldTruth(Section(e, ev), k, open)
  {
    if |ev.points| > 0 && |DefsOf(e.defs, ev.tag)| > 0 && ev.quality == QUALITY_GOOD {
      var sorted := SortByTime(ev.points);
      var done := ReplaySorted(e, ev.tag, sorted, ev.wall);
      ReplayOfOther(e, ev.tag, sorted, ev.wall, k);
      MarkNewsOfOther(done.pending, |e.pending|, done.tracks, ev.tag, k);
      SameShareTellsTruth(e, WithNews(e, done, ev.tag), k, open);
    }
  }

  lemma SameShareTellsTruth(e: Engine, e': Engine, k: Key, open: bool)
    requires ToldTruth(e, k, open) && e'.popped == e.popped
    requires OfRule(e'.pending, k) == OfRule(e.pending, k) && e'.TrackOf(k) == e.TrackOf(k)
    ensures ToldTruth(e', k, open)
  {
    QueuedOfRule(e, k);
    QueuedOfRule(e', k);
  }

  lemma OwnBatchTellsIff(e: Engine, ev: Event, k: Key, open: bool)
    requires RefsOwned(e) && UniqueIds(e.defs) && DelayedAreSilent(e) && ToldTruth(e, k, open)
    requires ev.Batch? && ev.tag == k.tag
    ensures ToldTruth(Section(e, ev), k, open) <==> CleanFor(e, ev, k, open)
  {
    if CallsDrain(e, ev) {
      BatchTellsTruthIff(e, ev.points, ev.wall, k, open);
    }
  }

  lemma LiveSectionTells(e: Engine, ev: Event, k: Key, open: bool, restored: nat)
    requires Orderly(e, restored) && DelayedAreSilent(e) && ToldTruth(e, k, open)
    requires PendingAreDefined(e) && !ev.Batch? && Possible(e, ev)
    ensures ToldTruth(Section(e, ev), k, open)
  {
    PendingSortsAreKept(e, ev);
    var pre, ms := SectionShape(e, ev);
    assert pre.Queued() == e.Queued();
    LiveEventsTellTruth(pre, ms, k, open, restored);
    SameShareTellsTruth(Steps(pre, ms), Section(e, ev), k, open);
  }

  lemma SectionTellsIff(e: Engine, ev: Event, k: Key, open: bool, restored: nat)
    requires Orderly(e, restored) && DelayedAreSilent(e) && ToldTruth(e, k, open)
    requires PendingAreDefined(e) && Possible(e, ev)
    ensures ToldTruth(Section(e, ev), k, open) <==> CleanFor(e, ev, k, open)
  {
    if !ev.Batch? {
      LiveSectionTells(e, ev, k, open, restored);
    } else if ev.tag == k.tag {
      OwnBatchTellsIff(e, ev, k, open);
    } else {
      OtherBatchTells(e, ev, k, open);
    }
  }

  // ------------------------------------------------------------ every run

  /** Every batch of the run tells the truth about the rule. */
  ghost predicate CleanRun(s: System, moves: seq<Move>, k: Key) {
    |moves| > 0 ==>
      var n := |moves| - 1;
      && CleanRun(s, moves[..n], k)
      && (moves[n].Lock? ==> CleanFor(After(s, moves[..n]).engine, moves[n].ev, k, Fired(s.engine, k)))
  }

  /** After every move of the run the operator has been told, or will be by what is queued, what is true. */
  ghost predicate ToldThroughout(s: System, moves: seq<Move>, k: Key) {
    && ToldTruth(After(s, moves).engine, k, Fired(s.engine, k))
    && (|moves| > 0 ==> ToldThroughout(s, moves[..|moves| - 1], k))
  }

  lemma MoveTellsIff(s: System, mv: Move, k: Key, open: bool, restored: nat)
    requires Writes.Inv(s, restored) && Enabled(s, mv) && DelayedAreSilent(s.engine) && ToldTruth(s.engine, k, open)
    ensures ToldTruth(Do(s, mv).engine, k, open) <==> (mv.Lock? ==> CleanFor(s.engine, mv.ev, k, open))
  {
    if mv.Lock? {
      SectionTellsIff(s.engine, mv.ev, k, open, restored);
    } else {
      OnlySectionsChangeTheQueue(s, mv);
      Writes.IoKeepsTracks(s, mv);
    }
  }

  lemma MoveKeepsSilence(s: System, mv: Move, restored: nat)
    requires Writes.Inv(s, restored) && Enabled(s, mv) && DelayedAreSilent(s.engine)
    ensures DelayedAreSilent(Do(s, mv).engine)
  {
    if mv.Lock? {
      SectionKeepsSilence(s.engine, mv.ev);
    } else {
      OnlySectionsChangeTheQueue(s, mv);
      Writes.IoKeepsTracks(s, mv);
    }
  }

  lemma {:induction false} EveryRunIsSilent(s: System, restored: nat, moves: seq<Move>)
    requires Initial(s, restored) && IsRun(s, moves)
    ensures DelayedAreSilent(After(s, moves).engine)
  {
    if |moves| == 0 {
      assert s.engine.Queued() == [];
    } else {
      var n := |moves| - 1;
      EveryRunIsSilent(s, restored, moves[..n]);
      Writes.EveryRunKeepsInv(s, restored, moves[..n]);
      MoveKeepsSilence(After(s, moves[..n]), moves[n], restored);
    }
  }

  lemma {:induction false} EveryRunTellsIff(s: System, restored: nat, moves: seq<Move>, k: Key)
    requires Initial(s, restored) && IsRun(s, moves)
    ensures ToldThroughout(s, moves, k) <==> CleanRun(s, moves, k)
  {
    if |moves| == 0 {
      assert s.engine.Queued() == [];
    } else {
      var n := |moves| - 1;
      EveryRunTellsIff(s, restored, moves[..n], k);
      if ToldThroughout(s, moves[..n], k) {
        EveryRunIsSilent(s, restored, moves[..n]);
        Writes.EveryRunKeepsInv(s, restored, moves[..n]);
        MoveTellsIff(After(s, moves[..n]), moves[n], k, Fired(s.engine, k), restored);
      }
    }
  }

  lemma {:induction false} ToldNotifying(q: seq<Action>, k: Key)
    ensures Told(OfRule(Notifying(q), k)) == Told(OfRule(q, k))
  {
    if |q| > 0 {
      var init, last := q[..|q| - 1], q[|q| - 1];
      ToldNotifying(init, k);
      var own := if last.Rule() == k then [last] else [];
      ToldConcat(OfRule(init, k), own);
      if last.notify {
        OfRuleConcat(Notifying(init), [last], k);
        assert OfRule([last], k) == own;
        ToldConcat(OfRule(Notifying(init), k), own);
      } else {
        assert Notifying(q) == Notifying(init);
        assert Told(own) == [];
      }
    }
  }

  /** Over every run, whatever the interleaving and the store failures: the operator is told what is
      true throughout if and only if every batch on the rule's tag is truthful; and then the rule's
      callbacks alternate. */
  lemma NotificationsAlternate(s: System, restored: nat, moves: seq<Move>, k: Key)
    requires Initial(s, restored) && IsRun(s, moves)
    ensures ToldThroughout(s, moves, k) <==> CleanRun(s, moves, k)
    ensures CleanRun(s, moves, k) ==> Believed(Told(OfRule(After(s, moves).notices, k)), Fired(s.engine, k)).Some?
  {
    EveryRunTellsIff(s, restored, moves, k);
    DrainProtocol(s, restored, moves);
    if CleanRun(s, moves, k) {
      NoticesArePrefix(After(s, moves), k, Fired(s.engine, k));
    }
  }

  lemma NoticedPrefix(z: System) returns (done: seq<Action>)
    requires Protocol(z)
    ensures z.notices == Notifying(done) && |done| <= |z.engine.Queued()|
    ensures z.engine.Queued() == done + z.engine.Queued()[|done|..]
  {
    done := if z.draining && z.At(z.drainer).Finished? then z.engine.popped else z.executed;
    assert z.engine.popped == z.executed + z.InFlight();
  }

  lemma NoticesArePrefix(z: System, k: Key, open: bool)
    requires Protocol(z) && ToldTruth(z.engine, k, open)
    ensures Believed(Told(OfRule(z.notices, k)), open).Some?
  {
    var done := NoticedPrefix(z);
    ToldNotifying(done, k);
    var rest := z.engine.Queued()[|done|..];
    OfRuleConcat(done, rest, k);
    ToldConcat(OfRule(done, k), OfRule(rest, k));
    BelievedConcat(Told(OfRule(done, k)), Told(OfRule(rest, k)), open);
  }

  // --------------------------------------------- where the code tells a lie

  /** Why the type of a rule must not change under its track: were a value rule in its delay to
      become a health rule, which no save path does and no run here reaches, the next tick of a
      healthy tag would tell the operator of the end of an alarm that was never announced. */
  lemma RetypedRuleClearsUnannounced(e: Engine, tag: int, def: Definition, now: Time, order: seq<Key>, tags: seq<int>,
                                     open: bool)
    requires RefsOwned(e) && Health.HealthRule(e, tag, def) && !Unhealthy(e.samples[tag], def, now)
    requires Enumerates(order, e.tracks.Keys) && Enumerates(tags, e.defs.Keys)
    requires var k := Key(tag, def.id);
             k in e.tracks && !e.tracks[k].triggered
             && WholeSeconds(now - e.tracks[k].activeSince) < e.tracks[k].def.delaySeconds
             && ToldTruth(e, k, open)
    ensures var k := Key(tag, def.id); var e' := Tick(e, now, order, tags);
            && Told(OfRule(e'.pending, k)) == Told(OfRule(e.pending, k)) + [Cleared]
            && !ToldTruth(e', k, open)
  {
    var k := Key(tag, def.id);
    var ticked, persisted, newRef := Health.TickOfHealthRule(e, tag, def, now, order, tags);
    var e' := Tick(e, now, order, tags);
    var verdict := VerdictStep(tag, ticked.TrackOf(k), newRef, def, false, e.samples[tag].lastValue, now);
    var w, a := OfRule(e.pending, k), verdict.queued[0];
    assert OfRule(ticked.pending, k) == w;
    assert OfRule(e'.pending, k) == w + [a];
    StepsKeepPopped(e, DelayMicros(order, now) + HealthMicros(e, tags, now));
    UnannouncedLies(e, e', k, a, open);
  }

  lemma UnannouncedLies(e: Engine, e': Engine, k: Key, a: Action, open: bool)
    requires ToldTruth(e, k, open) && !Fired(e, k) && e'.popped == e.popped
    requires OfRule(e'.pending, k) == OfRule(e.pending, k) + [a] && a.notify && a.status.Cleared?
    ensures Told(OfRule(e'.pending, k)) == Told(OfRule(e.pending, k)) + [Cleared]
    ensures !ToldTruth(e', k, open)
  {
    QueuedOfRule(e, k);
    QueuedOfRule(e', k);
    assert Told([a]) == [Cleared];
    ToldConcat(OfRule(e.pending, k), [a]);
    AssocAppend(OfRule(e.popped, k), OfRule(e.pending, k), [a]);
    ToldConcat(OfRule(e.Queued(), k), [a]);
    BelievedConcat(Told(OfRule(e.Queued(), k)), [Cleared], open);
    assert Believed([Cleared], false) == None;
  }

  /** The readings of a batch on a tag with one rule are one event each. */
  lemma OneRulePoint(tag: int, def: Definition, at: Time, v: Value, known: set<int>, wall: Time)
    requires !IsHealth(def.alarmType)
    ensures PointMicros(tag, [def], at, v, known, wall)
            == [Micro(Key(tag, def.id), Replay(def, at, v, def.id in known, wall))]
  {
    assert [def][..0] == [];
    assert PointMicros(tag, [], at, v, known, wall) == [];
  }

  lemma OneReading(p: Point)
    ensures SortByTime([p]) == [p]
  {
    assert [p][..0] == [];
    assert SortByTime([]) == [];
    assert InsertByTime([], p) == [p];
  }

  lemma TwoReadings(p: Point, q: Point)
    requires p.at <= q.at
    ensures SortByTime([p, q]) == [p, q]
  {
    OneReading(p);
    assert [p, q][..1] == [p];
  }

  /** One reading no later than an alarm fired before the batch, back in spec: the track is
      dropped. If its ACTIVE was already written its row stays open, until a later alarm of the
      rule adopts it, and the operator is not told that this one is over. */
  lemma EarlyReadingOrphansTheRow(e: Engine, k: Key, def: Definition, at: Time, v: Value, wall: Time, open: bool)
    requires RefsOwned(e) && ToldTruth(e, k, open) && Fired(e, k)
    requires DefsOf(e.defs, k.tag) == [def] && def.id == k.id && !IsHealth(def.alarmType)
    requires !Violated(def, v) && BackInSpec(def, v) && at <= e.tracks[k].firedAt
    requires forall a :: a in e.pending ==> a.ref != e.tracks[k].ref
    ensures var e' := EvaluateSeries(e, k.tag, [Point(Numeric(v), at)], QUALITY_GOOD, wall);
            && k !in e'.tracks && OfRule(e'.pending, k) == OfRule(e.pending, k) && !ToldTruth(e', k, open)
  {
    var p := Point(Numeric(v), at);
    OneReading(p);
    var pre := BatchAlive(e, k.tag, [p], wall);
    BatchAliveIsAlive(e, k.tag, [p], wall);
    var known := KnownRules(e, k.tag);
    var m := Micro(k, Replay(def, at, v, def.id in known, wall));
    OneRulePoint(k.tag, def, at, v, known, wall);
    assert [p][..0] == [];
    assert SeriesMicros(k.tag, [def], [], known, wall) == [];
    assert SeriesMicros(k.tag, [def], [p], known, wall) == [m];
    StepsSnoc(pre, [], m);
    assert [] + [m] == [m];
    var done := Step(pre, m);
    assert done == ReplaySorted(e, k.tag, [p], wall);
    DroppedSilently(e, pre, m);
    var e' := WithNews(e, done, k.tag);
    assert MarkNews(e.pending, |e.pending|, done.tracks, k.tag) == e.pending;
    QueuedOfRule(e, k);
    QueuedOfRule(e', k);
  }

  lemma DroppedSilently(e: Engine, pre: Engine, m: Micro)
    requires pre == e.(samples := pre.samples) && m.key in e.tracks && e.tracks[m.key].triggered
    requires m.ev.Replay? && !Violated(m.ev.def, m.ev.v) && BackInSpec(m.ev.def, m.ev.v)
    requires m.ev.at <= e.tracks[m.key].firedAt
    requires forall a :: a in e.pending ==> a.ref != e.tracks[m.key].ref
    ensures m.key !in Step(pre, m).tracks && Step(pre, m).pending == e.pending && Step(pre, m).popped == e.popped
  {
    WithoutNothing(e.pending, m.key, e.tracks[m.key].ref);
    assert OutcomeOf(pre, m) == Outcome(None, [], true);
  }

  lemma TwoRulePoints(e: Engine, tag: int, def: Definition, p: Point, q: Point, wall: Time)
    requires p.reading.Numeric? && q.reading.Numeric? && p.at <= q.at
    requires DefsOf(e.defs, tag) == [def] && !IsHealth(def.alarmType)
    ensures var k, known := Key(tag, def.id), def.id in KnownRules(e, tag);
            && SortByTime([p, q]) == [p, q]
            && ReplaySorted(e, tag, [p, q], wall)
               == Step(Step(BatchAlive(e, tag, [p, q], wall), Micro(k, Replay(def, p.at, p.reading.v, known, wall))),
                       Micro(k, Replay(def, q.at, q.reading.v, known, wall)))
  {
    TwoReadings(p, q);
    var k, known := Key(tag, def.id), KnownRules(e, tag);
    var m := Micro(k, Replay(def, p.at, p.reading.v, def.id in known, wall));
    var n := Micro(k, Replay(def, q.at, q.reading.v, def.id in known, wall));
    OneRulePoint(tag, def, p.at, p.reading.v, known, wall);
    OneRulePoint(tag, def, q.at, q.reading.v, known, wall);
    assert [p][..0] == [] && [p, q][..1] == [p];
    assert SeriesMicros(tag, [def], [], known, wall) == [];
    assert SeriesMicros(tag, [def], [p], known, wall) == [m];
    assert SeriesMicros(tag, [def], [p, q], known, wall) == [m, n];
    var pre := BatchAlive(e, tag, [p, q], wall);
    StepsSnoc(pre, [], m);
    StepsSnoc(pre, [m], n);
    assert [] + [m] == [m] && [m] + [n] == [m, n];
  }

  lemma ReplayRaises(e: Engine, k: Key, def: Definition, at: Time, v: Value, known: bool, wall: Time)
    requires k !in e.tracks && Violated(def, v) && def.delaySeconds == 0
    ensures var e' := Step(e, Micro(k, Replay(def, at, v, known, wall)));
            && e'.pending == e.pending + [Action(k.tag, def, v, Active, |e.rows|, at, None, false)]
            && k in e'.tracks && e'.tracks[k].triggered && e'.tracks[k].firedAt == at
  {
  }

  lemma ReplayEnds(e: Engine, k: Key, def: Definition, at: Time, v: Value, known: bool, wall: Time)
    requires Fired(e, k) && !Violated(def, v) && BackInSpec(def, v) && at > e.tracks[k].firedAt
    ensures var e' := Step(e, Micro(k, Replay(def, at, v, known, wall)));
            && e'.pending == e.pending
                  + [Action(k.tag, def, v, Cleared, e.tracks[k].ref, e.tracks[k].firedAt, Some(at), known)]
            && k !in e'.tracks
  {
  }

  lemma ReplayPulls(e: Engine, k: Key, def: Definition, at: Time, v: Value, known: bool, wall: Time)
    requires Fired(e, k) && !Violated(def, v) && BackInSpec(def, v) && at <= e.tracks[k].firedAt
    requires |e.pending| == 1 && SameOccurrence(e.pending[0], k, e.tracks[k].ref)
    ensures var e' := Step(e, Micro(k, Replay(def, at, v, known, wall)));
            e'.pending == [] && k !in e'.tracks
  {
    assert e.pending[..0] == [];
    assert Without(e.pending, k, e.tracks[k].ref) == [];
  }

  /** The same early reading while the ACTIVE is still queued, followed by a new
      excursion: pulling the old action out moves the new one in front of where the
      batch looks for news, and an alarm that is open is never announced. */
  lemma EarlyReadingSilencesNews(e: Engine, k: Key, def: Definition, early: Time, low: Value, late: Time, high: Value,
                                 wall: Time)
    requires RefsOwned(e) && Fired(e, k) && |e.pending| == 1
    requires SameOccurrence(e.pending[0], k, e.tracks[k].ref)
    requires DefsOf(e.defs, k.tag) == [def] && def.id == k.id && !IsHealth(def.alarmType) && def.delaySeconds == 0
    requires !Violated(def, low) && BackInSpec(def, low) && Violated(def, high)
    requires early <= e.tracks[k].firedAt && early <= late
    ensures var e' := EvaluateSeries(e, k.tag, [Point(Numeric(low), early), Point(Numeric(high), late)],
                                     QUALITY_GOOD, wall);
            && Fired(e', k) && Told(OfRule(e'.pending, k)) == []
  {
    var p, q := Point(Numeric(low), early), Point(Numeric(high), late);
    TwoRulePoints(e, k.tag, def, p, q, wall);
    var pre := BatchAlive(e, k.tag, [p, q], wall);
    BatchAliveIsAlive(e, k.tag, [p, q], wall);
    var known := def.id in KnownRules(e, k.tag);
    ReplayPulls(pre, k, def, early, low, known, wall);
    var mid := Step(pre, Micro(k, Replay(def, early, low, known, wall)));
    ReplayRaises(mid, k, def, late, high, known, wall);
    UnmarkedNews(e, Step(mid, Micro(k, Replay(def, late, high, known, wall))), k,
                 Action(k.tag, def, high, Active, |mid.rows|, late, None, false));
  }

  lemma UnmarkedNews(e: Engine, done: Engine, k: Key, a: Action)
    requires |e.pending| == 1 && done.pending == [a] && a.Rule() == k && !a.notify
    ensures Told(OfRule(WithNews(e, done, k.tag).pending, k)) == []
  {
    assert MarkNews([a], 1, done.tracks, k.tag) == [a];
    OneOfRule(a, k);
  }

  lemma InsertLast(ps: seq<Point>, p: Point)
    requires SortedByTime(ps) && (|ps| > 0 ==> ps[|ps| - 1].at <= p.at)
    ensures InsertByTime(ps, p) == ps + [p]
  {
  }

  lemma SortSnoc(ps: seq<Point>, p: Point)
    requires SortByTime(ps) == ps && (|ps| > 0 ==> ps[|ps| - 1].at <= p.at)
    ensures SortByTime(ps + [p]) == ps + [p]
  {
    assert (ps + [p])[..|ps|] == ps;
    InsertLast(ps, p);
  }

  lemma ThreePoints(p: Point, q: Point, r: Point)
    ensures [p, q] + [r] == [p, q, r]
  {
  }

  lemma ThreeReadings(p: Point, q: Point, r: Point)
    requires p.at <= q.at <= r.at
    ensures SortByTime([p, q, r]) == [p, q, r]
  {
    TwoReadings(p, q);
    ThreePoints(p, q, r);
    SortSnoc([p, q], r);
  }

  lemma ThreeRulePoints(e: Engine, tag: int, def: Definition, p: Point, q: Point, r: Point, wall: Time)
    requires p.reading.Numeric? && q.reading.Numeric? && r.reading.Numeric? && p.at <= q.at <= r.at
    requires DefsOf(e.defs, tag) == [def] && !IsHealth(def.alarmType)
    ensures var k, known := Key(tag, def.id), def.id in KnownRules(e, tag);
            && SortByTime([p, q, r]) == [p, q, r]
            && ReplaySorted(e, tag, [p, q, r], wall)
               == Step(Step(Step(BatchAlive(e, tag, [p, q, r], wall),
                                 Micro(k, Replay(def, p.at, p.reading.v, known, wall))),
                            Micro(k, Replay(def, q.at, q.reading.v, known, wall))),
                       Micro(k, Replay(def, r.at, r.reading.v, known, wall)))
  {
    ThreeReadings(p, q, r);
    var k, known := Key(tag, def.id), KnownRules(e, tag);
    var m := Micro(k, Replay(def, p.at, p.reading.v, def.id in known, wall));
    var n := Micro(k, Replay(def, q.at, q.reading.v, def.id in known, wall));
    var o := Micro(k, Replay(def, r.at, r.reading.v, def.id in known, wall));
    SeriesOfThree(tag, def, p, q, r, known, wall, m, n, o);
    StepsOfThree(BatchAlive(e, tag, [p, q, r], wall), m, n, o);
  }

  lemma SeriesOfThree(tag: int, def: Definition, p: Point, q: Point, r: Point, known: set<int>, wall: Time, m: Micro,
                      n: Micro, o: Micro)
    requires p.reading.Numeric? && q.reading.Numeric? && r.reading.Numeric? && !IsHealth(def.alarmType)
    requires m == Micro(Key(tag, def.id), Replay(def, p.at, p.reading.v, def.id in known, wall))
    requires n == Micro(Key(tag, def.id), Replay(def, q.at, q.reading.v, def.id in known, wall))
    requires o == Micro(Key(tag, def.id), Replay(def, r.at, r.reading.v, def.id in known, wall))
    ensures SeriesMicros(tag, [def], [p, q, r], known, wall) == [m, n, o]
  {
    OneRulePoint(tag, def, p.at, p.reading.v, known, wall);
    OneRulePoint(tag, def, q.at, q.reading.v, known, wall);
    OneRulePoint(tag, def, r.at, r.reading.v, known, wall);
    assert [p][..0] == [] && [p, q][..1] == [p] && [p, q, r][..2] == [p, q];
    assert SeriesMicros(tag, [def], [], known, wall) == [];
    assert SeriesMicros(tag, [def], [p], known, wall) == [m];
    assert SeriesMicros(tag, [def], [p, q], known, wall) == [m, n];
  }

  lemma StepsOfThree(e: Engine, m: Micro, n: Micro, o: Micro)
    ensures Steps(e, [m, n, o]) == Step(Step(Step(e, m), n), o)
  {
    StepsSnoc(e, [], m);
    StepsSnoc(e, [m], n);
    StepsSnoc(e, [m, n], o);
    assert [] + [m] == [m] && [m] + [n] == [m, n] && [m, n] + [o] == [m, n, o];
  }

  /** An alarm known before the batch that ends, comes back and ends again: the
      operator is told twice in a row that it is over. */
  lemma KnownRuleEndsTwice(e: Engine, k: Key, def: Definition, t1: Time, t2: Time, t3: Time, low: Value, high: Value,
                           wall: Time)
    requires RefsOwned(e) && Fired(e, k) && e.tracks[k].firedAt < t1 < t2 < t3 && e.pending == []
    requires DefsOf(e.defs, k.tag) == [def] && def.id == k.id && !IsHealth(def.alarmType) && def.delaySeconds == 0
    requires !Violated(def, low) && BackInSpec(def, low) && Violated(def, high)
    ensures var points := [Point(Numeric(low), t1), Point(Numeric(high), t2), Point(Numeric(low), t3)];
            Told(OfRule(EvaluateSeries(e, k.tag, points, QUALITY_GOOD, wall).pending, k)) == [Cleared, Cleared]
  {
    var points := [Point(Numeric(low), t1), Point(Numeric(high), t2), Point(Numeric(low), t3)];
    ThreeRulePoints(e, k.tag, def, points[0], points[1], points[2], wall);
    var pre := BatchAlive(e, k.tag, points, wall);
    BatchAliveIsAlive(e, k.tag, points, wall);
    assert def.id in KnownRules(e, k.tag);
    var a1, a2, a3 := EndsTwiceInSteps(pre, k, def, t1, t2, t3, low, high, wall);
    AllOfRule(e, ReplaySorted(e, k.tag, points, wall), k, a1, a2, a3);
    ThreeOfRule(a1, a2, a3, k);
  }

  lemma AllOfRule(e: Engine, done: Engine, k: Key, a: Action, b: Action, c: Action)
    requires done.pending == [a, b, c] && a.Rule() == b.Rule() == c.Rule() == k && k !in done.tracks
    ensures WithNews(e, done, k.tag).pending == [a, b, c]
  {
  }

  /** End, raise and end again: the three actions queued. */
  lemma EndsTwiceInSteps(e: Engine, k: Key, def: Definition, t1: Time, t2: Time, t3: Time, low: Value, high: Value,
                         wall: Time)
    returns (a1: Action, a2: Action, a3: Action)
    requires Fired(e, k) && e.tracks[k].firedAt < t1 < t2 < t3 && e.pending == [] && def.id == k.id
    requires def.delaySeconds == 0
    requires !Violated(def, low) && BackInSpec(def, low) && Violated(def, high)
    ensures var e1 := Step(e, Micro(k, Replay(def, t1, low, true, wall)));
            var e2 := Step(e1, Micro(k, Replay(def, t2, high, true, wall)));
            var e3 := Step(e2, Micro(k, Replay(def, t3, low, true, wall)));
            e3.pending == [a1, a2, a3] && k !in e3.tracks
    ensures a1.Rule() == a2.Rule() == a3.Rule() == k && a1.notify && !a2.notify && a3.notify
    ensures a1.status == a3.status == Cleared
  {
    ReplayEnds(e, k, def, t1, low, true, wall);
    var e1 := Step(e, Micro(k, Replay(def, t1, low, true, wall)));
    ReplayRaises(e1, k, def, t2, high, true, wall);
    var e2 := Step(e1, Micro(k, Replay(def, t2, high, true, wall)));
    ReplayEnds(e2, k, def, t3, low, true, wall);
    a1 := Action(k.tag, def, low, Cleared, e.tracks[k].ref, e.tracks[k].firedAt, Some(t1), true);
    a2 := Action(k.tag, def, high, Active, |e1.rows|, t2, None, false);
    a3 := Action(k.tag, def, low, Cleared, e2.tracks[k].ref, t2, Some(t3), true);
    InThree(a1, a2, a3);
  }

  lemma InThree(a: Action, b: Action, c: Action)
    ensures [] + [a] + [b] + [c] == [a, b, c]
  {
  }

  lemma ThreeOfRule(a: Action, b: Action, c: Action, k: Key)
    requires a.Rule() == b.Rule() == c.Rule() == k && a.notify && !b.notify && c.notify
    ensures Told(OfRule([a, b, c], k)) == [a.status, c.status]
  {
    OneOfRule(a, k);
    OneOfRule(b, k);
    OneOfRule(c, k);
    OfRuleConcat([a], [b], k);
    OfRuleConcat([a] + [b], [c], k);
    assert [a, b, c] == [a] + [b] + [c];
    ToldConcat([a], [b]);
    ToldConcat([a] + [b], [c]);
  }

  lemma OneOfRule(a: Action, k: Key)
    requires a.Rule() == k
    ensures OfRule([a], k) == [a] && Told([a]) == if a.notify then [a.status] else []
  {
    assert [a][..0] == [];
  }
}
