/** A value rule fires after its condition has persisted, and not again before the
deadband has been left.

`TrackFrom` is the life of one rule: its own events in order. The reference is
`Streak`, the readings violating the rule in an unbroken row up to now, defined on the
history alone. */
module AlarmFiring {
  import opened Options
  import opened AlarmRules
  import opened AlarmEngine
  import opened AlarmOccurrences
  import opened AlarmDrain
  import Replay = AlarmReplay

  /** One event of the rule, with what else it depends on. */
  datatype RuleMove = RuleMove(ev: RuleEvent, persisted: bool, newRef: nat)

  function TrackFrom(tag: int, start: Option<Track>, h: seq<RuleMove>): Option<Track> {
    if |h| == 0 then start
    else
      var m := h[|h| - 1];
      RuleStep(tag, TrackFrom(tag, start, h[..|h| - 1]), m.persisted, m.newRef, m.ev).track
  }

  predicate IsSample(ev: RuleEvent) { ev.Live? || ev.Replay? }

  /** The history of a value rule whose definition does not change. */
  predicate HistoryOf(def: Definition, h: seq<RuleMove>) {
    forall i :: 0 <= i < |h| ==> (IsSample(h[i].ev) && h[i].ev.def == def) || h[i].ev.Delay?
  }

  datatype Sampled = Sampled(at: Time, v: Value)

  /** Every reading of the rule processed so far. */
  function Samples(h: seq<RuleMove>): seq<Sampled> {
    if |h| == 0 then []
    else
      var ev := h[|h| - 1].ev;
      Samples(h[..|h| - 1]) + if IsSample(ev) then [Sampled(ev.at, ev.v)] else []
  }

  /** The readings that violate in a row, up to the newest. */
  function Streak(def: Definition, h: seq<RuleMove>): seq<Sampled> {
    if |h| == 0 then []
    else
      var ev := h[|h| - 1].ev;
      var before := Streak(def, h[..|h| - 1]);
      if !IsSample(ev) then before
      else if Violated(def, ev.v) then before + [Sampled(ev.at, ev.v)]
      else []
  }

  /** What a streak is, said of the readings: the last of them, all violating, and the
      one before them did not. */
  lemma {:induction false} StreakIsMaximal(def: Definition, h: seq<RuleMove>)
    ensures var all, s := Samples(h), Streak(def, h);
            && |s| <= |all| && all[|all| - |s|..] == s
            && (forall i :: 0 <= i < |s| ==> Violated(def, s[i].v))
            && (|s| < |all| ==> !Violated(def, all[|all| - |s| - 1].v))
  {
    if |h| > 0 {
      StreakIsMaximal(def, h[..|h| - 1]);
    }
  }

  predicate FiredTrack(t: Option<Track>) { t.Some? && t.value.triggered }

  /** What a rule's track says about its history. */
  ghost predicate TrackTellsStreak(def: Definition, t: Option<Track>, h: seq<RuleMove>) {
    var s := Streak(def, h);
    && (t.None? ==> s == [])
    && (t.Some? && !t.value.triggered ==>
          t.value.def == def && def.delaySeconds > 0 && s != [] && t.value.activeSince == s[0].at
            && t.value.initial == s[0].v)
  }

  /** A rule begins its life untracked, or with an alarm restored as fired. */
  predicate Begins(start: Option<Track>) { start.None? || start.value.triggered }

  lemma {:induction false} TracksTellStreaks(tag: int, start: Option<Track>, def: Definition, h: seq<RuleMove>)
    requires Begins(start) && HistoryOf(def, h) && def.delaySeconds >= 0
    ensures TrackTellsStreak(def, TrackFrom(tag, start, h), h)
  {
    if |h| > 0 {
      TracksTellStreaks(tag, start, def, h[..|h| - 1]);
    }
  }

  /** The instant the newest event is judged at: a tick's own time, a replayed
      reading's own time; a live reading fires only a rule without delay. */
  predicate Due(def: Definition, s: seq<Sampled>, ev: RuleEvent) {
    && s != []
    && match ev
       case Delay(now) => now - s[0].at >= Nanos(def.delaySeconds)
       case Replay(_, at, _, _, _) => at - s[0].at >= Nanos(def.delaySeconds)
       case _ => def.delaySeconds == 0
  }

  /** A rule that has not fired fires on an event exactly when the readings have
      violated it in a row since at least the delay; it is then stamped with the first
      of them plus the delay. */
  lemma FiresExactlyWhenDue(tag: int, start: Option<Track>, def: Definition, h: seq<RuleMove>, m: RuleMove)
    requires Begins(start) && HistoryOf(def, h + [m]) && def.delaySeconds >= 0
    requires !FiredTrack(TrackFrom(tag, start, h))
    ensures var t, s := TrackFrom(tag, start, h + [m]), Streak(def, h + [m]);
            && (FiredTrack(t) <==> Due(def, s, m.ev))
            && (FiredTrack(t) ==> t.value.firedAt == s[0].at + Nanos(def.delaySeconds) && t.value.initial == s[0].v)
  {
    var h' := h + [m];
    assert h'[..|h|] == h;
    assert forall i :: 0 <= i < |h| ==> h'[i] == h[i];
    assert h'[|h|] == m;
    TracksTellStreaks(tag, start, def, h);
    var t := TrackFrom(tag, start, h);
    if m.ev.Delay? && t.Some? {
      WholeSecondsReach(m.ev.now - t.value.activeSince, def.delaySeconds);
    }
  }

  /** The clearing test passed on this event. */
  predicate Clears(def: Definition, ev: RuleEvent) {
    IsSample(ev) && !Violated(def, ev.v) && BackInSpec(def, ev.v)
  }

  /** From fired to not fired leads only a reading that passes the clearing test. */
  lemma {:induction false} OnlyClearingEnds(tag: int, start: Option<Track>, def: Definition, h: seq<RuleMove>, i: nat,
                                            j: nat)
    returns (n: nat)
    requires HistoryOf(def, h) && i <= j <= |h|
    requires FiredTrack(TrackFrom(tag, start, h[..i])) && !FiredTrack(TrackFrom(tag, start, h[..j]))
    ensures i <= n < j && Clears(def, h[n].ev)
  {
    assert i < j;
    var last := j - 1;
    assert h[..j][..last] == h[..last];
    if FiredTrack(TrackFrom(tag, start, h[..last])) {
      n := last;
    } else {
      n := OnlyClearingEnds(tag, start, def, h, i, last);
    }
  }

  /** The i-th event fires the rule. */
  predicate FiresAt(tag: int, start: Option<Track>, h: seq<RuleMove>, i: nat)
    requires i < |h|
  {
    !FiredTrack(TrackFrom(tag, start, h[..i])) && FiredTrack(TrackFrom(tag, start, h[..i + 1]))
  }

  ghost predicate ClearsWithin(def: Definition, h: seq<RuleMove>, i: int, j: int) {
    exists n :: i < n < j && 0 <= n < |h| && Clears(def, h[n].ev)
  }

  /** Between two firings some reading left the deadband. */
  lemma ClearsBetweenFirings(tag: int, start: Option<Track>, def: Definition, h: seq<RuleMove>, i: nat, j: nat)
    requires HistoryOf(def, h) && i < j < |h| && FiresAt(tag, start, h, i) && FiresAt(tag, start, h, j)
    ensures ClearsWithin(def, h, i, j)
  {
    var n := OnlyClearingEnds(tag, start, def, h, i + 1, j);
  }

  // ------------------------------------------------- a rule inside the system

  /** The rule's share of a list of events. */
  function Project(e: Engine, ms: seq<Micro>, k: Key): seq<RuleMove> {
    if |ms| == 0 then []
    else
      var m, mid := ms[|ms| - 1], Steps(e, ms[..|ms| - 1]);
      var t := mid.TrackOf(k);
      Project(e, ms[..|ms| - 1], k)
      + if m.key == k then [RuleMove(m.ev, t.Some? && mid.RowOf(t.value.ref) != 0, |mid.rows|)] else []
  }

  lemma {:induction false} TrackFromConcat(tag: int, start: Option<Track>, a: seq<RuleMove>, b: seq<RuleMove>)
    ensures TrackFrom(tag, start, a + b) == TrackFrom(tag, TrackFrom(tag, start, a), b)
  {
    if |b| == 0 {
      assert a + b == a;
    } else {
      TrackFromConcat(tag, start, a, b[..|b| - 1]);
      assert (a + b)[..|a + b| - 1] == a + b[..|b| - 1];
    }
  }

  lemma {:induction false} ProjectIsTheRule(e: Engine, ms: seq<Micro>, k: Key)
    ensures Steps(e, ms).TrackOf(k) == TrackFrom(k.tag, e.TrackOf(k), Project(e, ms, k))
  {
    if |ms| > 0 {
      var init, m := ms[..|ms| - 1], ms[|ms| - 1];
      ProjectIsTheRule(e, init, k);
      if m.key == k {
        assert Project(e, ms, k)[..|Project(e, init, k)|] == Project(e, init, k);
      } else {
        StepFrame(Steps(e, init), m, k);
        assert Project(e, ms, k) == Project(e, init, k);
      }
    }
  }

  /** The rule events a section executes. */
  function SectionMicros(e: Engine, ev: Event): seq<Micro> {
    match ev
    case Sample(tag, reading, quality, at, _, wall) =>
      if |DefsOf(e.defs, tag)| == 0 || quality != QUALITY_GOOD || !reading.Numeric? then []
      else LiveMicros(tag, DefsOf(e.defs, tag), if at == ZERO_TIME then wall else at, reading.v)
    case Batch(tag, points, quality, wall) =>
      if |points| == 0 || |DefsOf(e.defs, tag)| == 0 || quality != QUALITY_GOOD then []
      else SeriesMicros(tag, DefsOf(e.defs, tag), SortByTime(points), KnownRules(e, tag), wall)
    case TickAt(now, order, tags) => DelayMicros(order, now) + HealthMicros(e, tags, now)
    case NewRules(defs, order) => DropMicros(order, defs)
  }

  lemma {:induction false} StepsIgnoreSamplesAndDefs(e: Engine, f: Engine, ms: seq<Micro>)
    requires f == e.(samples := f.samples, defs := f.defs)
    ensures Steps(f, ms) == Steps(e, ms).(samples := f.samples, defs := f.defs)
  {
    if |ms| > 0 {
      StepsIgnoreSamplesAndDefs(e, f, ms[..|ms| - 1]);
      StepIgnoresSamplesAndDefs(Steps(e, ms[..|ms| - 1]), Steps(f, ms[..|ms| - 1]), ms[|ms| - 1]);
    }
  }

  lemma StepIgnoresSamplesAndDefs(e: Engine, f: Engine, m: Micro)
    requires f == e.(samples := f.samples, defs := f.defs)
    ensures Step(f, m) == Step(e, m).(samples := f.samples, defs := f.defs)
  {
    assert OutcomeOf(f, m) == OutcomeOf(e, m);
  }

  lemma SectionIsItsMicros(e: Engine, ev: Event)
    ensures Section(e, ev).tracks == Steps(e, SectionMicros(e, ev)).tracks
  {
    match ev {
      case Sample(_, _, _, _, _, _) => SampleIsItsMicros(e, ev);
      case Batch(_, _, _, _) => BatchIsItsMicros(e, ev);
      case TickAt(now, order, tags) =>
      case NewRules(defs, order) =>
        StepsIgnoreSamplesAndDefs(e, e.(defs := defs, samples := PruneSamples(e.samples, defs)),
                                  DropMicros(order, defs));
    }
  }

  lemma SampleIsItsMicros(e: Engine, ev: Event)
    requires ev.Sample?
    ensures Section(e, ev).tracks == Steps(e, SectionMicros(e, ev)).tracks
  {
    var judged := ev.markLife && ev.reading.Numeric?;
    var alive := if judged then RecordGood(e, ev.tag, DefsOf(e.defs, ev.tag), ev.reading.v, ev.wall) else e;
    StepsIgnoreSamplesAndDefs(e, alive, SectionMicros(e, ev));
  }

  lemma BatchIsItsMicros(e: Engine, ev: Event)
    requires ev.Batch?
    ensures Section(e, ev).tracks == Steps(e, SectionMicros(e, ev)).tracks
  {
    if |ev.points| > 0 {
      StepsIgnoreSamplesAndDefs(e, BatchAlive(e, ev.tag, SortByTime(ev.points), ev.wall), SectionMicros(e, ev));
    }
  }

  /** Everything that happened to a rule in a run of the whole system. */
  ghost function RunHistory(s: System, moves: seq<Move>, k: Key): seq<RuleMove> {
    if |moves| == 0 then []
    else
      var n := |moves| - 1;
      var e := After(s, moves[..n]).engine;
      RunHistory(s, moves[..n], k)
      + if moves[n].Lock? then Project(e, SectionMicros(e, moves[n].ev), k) else []
  }

  /** In every run the rule's track is the one its own history gives. */
  lemma {:induction false} RunsAreHistories(s: System, moves: seq<Move>, k: Key)
    requires IsRun(s, moves)
    ensures After(s, moves).engine.TrackOf(k) == TrackFrom(k.tag, s.engine.TrackOf(k), RunHistory(s, moves, k))
  {
    if |moves| > 0 {
      var n := |moves| - 1;
      RunsAreHistories(s, moves[..n], k);
      var z := After(s, moves[..n]);
      if moves[n].Lock? {
        var ms := SectionMicros(z.engine, moves[n].ev);
        SectionIsItsMicros(z.engine, moves[n].ev);
        ProjectIsTheRule(z.engine, ms, k);
        TrackFromConcat(k.tag, s.engine.TrackOf(k), RunHistory(s, moves[..n], k), Project(z.engine, ms, k));
      } else {
        IoLeavesTracks(z, moves[n]);
        assert RunHistory(s, moves, k) == RunHistory(s, moves[..n], k);
      }
    }
  }

  lemma IoLeavesTracks(s: System, mv: Move)
    requires Enabled(s, mv) && !mv.Lock?
    ensures Do(s, mv).engine.tracks == s.engine.tracks && Do(s, mv).engine.defs == s.engine.defs
  {
  }

  // ------------------------------------------------ firing, in every run

  /** def is the one definition of its id on the tag, and a value rule. */
  ghost predicate HasValueRule(defs: map<int, seq<Definition>>, tag: int, def: Definition) {
    def in DefsOf(defs, tag) && DistinctIds(DefsOf(defs, tag)) && !IsHealth(def.alarmType)
  }

  /** Every reload of the run keeps the rule as it is. */
  ghost predicate KeepsValueRule(moves: seq<Move>, tag: int, def: Definition) {
    forall i :: 0 <= i < |moves| && moves[i].Lock? && moves[i].ev.NewRules? ==> HasValueRule(moves[i].ev.defs, tag, def)
  }

  lemma SectionMicrosBacked(e: Engine, ev: Event)
    ensures var defs := if ev.NewRules? then ev.defs else e.defs;
            forall m :: m in SectionMicros(e, ev) ==>
              Backed(defs, m) && (m.ev.Drop? ==> ev.NewRules? && !Defined(ev.defs, m.key))
  {
    match ev {
      case Sample(tag, reading, quality, at, _, wall) =>
        if reading.Numeric? {
          Replay.LiveMicrosShape(tag, DefsOf(e.defs, tag), if at == ZERO_TIME then wall else at, reading.v);
        }
      case Batch(tag, points, quality, wall) => SeriesMicrosBacked(tag, e.defs, SortByTime(points),
                                                                   KnownRules(e, tag), wall);
      case TickAt(now, order, tags) => Replay.HealthMicrosShape(e, tags, now);
      case NewRules(defs, order) => DropMicrosShape(order, defs);
    }
  }

  /** An event of the rule is one of its readings or a tick. */
  lemma OwnEvents(defs: map<int, seq<Definition>>, tag: int, def: Definition, m: Micro)
    requires HasValueRule(defs, tag, def) && m.key == Key(tag, def.id) && Backed(defs, m)
    requires m.ev.Drop? ==> !Defined(defs, m.key)
    ensures (IsSample(m.ev) && m.ev.def == def) || m.ev.Delay?
  {
    var i := MemberIndex(DefsOf(defs, tag), def);
    assert Defined(defs, m.key);
    if m.ev.Live? || m.ev.Replay? || m.ev.Verdict? {
      OneOfItsId(DefsOf(defs, tag), def, m.ev.def);
    }
  }

  lemma {:induction false} ProjectHistory(e: Engine, ms: seq<Micro>, defs: map<int, seq<Definition>>, tag: int,
                                          def: Definition)
    requires HasValueRule(defs, tag, def)
    requires forall m :: m in ms ==> Backed(defs, m) && (m.ev.Drop? ==> !Defined(defs, m.key))
    ensures HistoryOf(def, Project(e, ms, Key(tag, def.id)))
  {
    if |ms| > 0 {
      ProjectHistory(e, ms[..|ms| - 1], defs, tag, def);
      assert ms[|ms| - 1] in ms;
      if ms[|ms| - 1].key == Key(tag, def.id) {
        OwnEvents(defs, tag, def, ms[|ms| - 1]);
      }
    }
  }

  lemma SectionKeepsValueRule(e: Engine, ev: Event, tag: int, def: Definition)
    requires HasValueRule(e.defs, tag, def) && (ev.NewRules? ==> HasValueRule(ev.defs, tag, def))
    ensures HasValueRule(Section(e, ev).defs, tag, def)
    ensures HistoryOf(def, Project(e, SectionMicros(e, ev), Key(tag, def.id)))
  {
    var pre, ms := SectionShape(e, ev);
    Replay.StepsKeepDefs(pre, ms);
    SectionMicrosBacked(e, ev);
    ProjectHistory(e, SectionMicros(e, ev), if ev.NewRules? then ev.defs else e.defs, tag, def);
  }

  /** In a run whose reloads keep the rule, all that happens to it is its readings and ticks. */
  lemma {:induction false} RunHistoryOf(s: System, moves: seq<Move>, tag: int, def: Definition)
    requires IsRun(s, moves) && HasValueRule(s.engine.defs, tag, def) && KeepsValueRule(moves, tag, def)
    ensures HasValueRule(After(s, moves).engine.defs, tag, def)
    ensures HistoryOf(def, RunHistory(s, moves, Key(tag, def.id)))
  {
    if |moves| > 0 {
      var n := |moves| - 1;
      RunHistoryOf(s, moves[..n], tag, def);
      var z := After(s, moves[..n]);
      if moves[n].Lock? {
        SectionKeepsValueRule(z.engine, moves[n].ev, tag, def);
      } else {
        IoLeavesTracks(z, moves[n]);
      }
    }
  }

  /** The i-th event of the rule fires it exactly when it is not fired yet and due, and stamps
      it with the first reading of the streak plus the delay. */
  ghost predicate FiresWhenDue(tag: int, start: Option<Track>, def: Definition, h: seq<RuleMove>, i: nat)
    requires i < |h|
  {
    var s, t := Streak(def, h[..i + 1]), TrackFrom(tag, start, h[..i + 1]);
    && (FiresAt(tag, start, h, i) <==> !FiredTrack(TrackFrom(tag, start, h[..i])) && Due(def, s, h[i].ev))
    && (FiresAt(tag, start, h, i) ==> t.value.firedAt == s[0].at + Nanos(def.delaySeconds) && t.value.initial == s[0].v)
  }

  lemma FiresWhenDueAt(tag: int, start: Option<Track>, def: Definition, h: seq<RuleMove>, i: nat)
    requires Begins(start) && HistoryOf(def, h) && def.delaySeconds >= 0 && i < |h|
    ensures FiresWhenDue(tag, start, def, h, i)
  {
    assert h[..i + 1] == h[..i] + [h[i]];
    if !FiredTrack(TrackFrom(tag, start, h[..i])) {
      FiresExactlyWhenDue(tag, start, def, h[..i], h[i]);
    }
  }

  /** In every run with the rule unchanged, in every interleaving: its track is that of its own
      readings and ticks; it fires exactly when its readings have violated it in a row for
      the delay; and between two firings some reading passed the clearing test. */
  lemma FiringInEveryRun(s: System, restored: nat, moves: seq<Move>, tag: int, def: Definition)
    requires Initial(s, restored) && IsRun(s, moves) && HasValueRule(s.engine.defs, tag, def)
    requires KeepsValueRule(moves, tag, def)
    requires def.delaySeconds >= 0
    ensures var k := Key(tag, def.id);
            var start, h := s.engine.TrackOf(k), RunHistory(s, moves, k);
            && HistoryOf(def, h) && After(s, moves).engine.TrackOf(k) == TrackFrom(tag, start, h)
            && (forall i :: 0 <= i < |h| ==> FiresWhenDue(tag, start, def, h, i))
            && forall i, j :: 0 <= i < j < |h| && FiresAt(tag, start, h, i) && FiresAt(tag, start, h, j) ==>
                  ClearsWithin(def, h, i, j)
  {
    var k := Key(tag, def.id);
    var start, h := s.engine.TrackOf(k), RunHistory(s, moves, k);
    RunHistoryOf(s, moves, tag, def);
    RunsAreHistories(s, moves, k);
    forall i | 0 <= i < |h|
      ensures FiresWhenDue(tag, start, def, h, i)
    {
      FiresWhenDueAt(tag, start, def, h, i);
    }
    forall i, j | 0 <= i < j < |h| && FiresAt(tag, start, h, i) && FiresAt(tag, start, h, j)
      ensures ClearsWithin(def, h, i, j)
    {
      ClearsBetweenFirings(tag, start, def, h, i, j);
    }
  }

  /** An alarm found active after a run, and not restored at its start, was fired by an event of
      the run, when its readings were due, and no reading has cleared it since. */
  lemma ActiveMeansDue(s: System, restored: nat, moves: seq<Move>, tag: int, def: Definition) returns (i: nat)
    requires Initial(s, restored) && IsRun(s, moves) && HasValueRule(s.engine.defs, tag, def)
    requires KeepsValueRule(moves, tag, def)
    requires def.delaySeconds >= 0 && Key(tag, def.id) !in s.engine.tracks
    requires FiredTrack(After(s, moves).engine.TrackOf(Key(tag, def.id)))
    ensures var h := RunHistory(s, moves, Key(tag, def.id));
            && i < |h| && Due(def, Streak(def, h[..i + 1]), h[i].ev)
            && After(s, moves).engine.TrackOf(Key(tag, def.id)).value.firedAt
                  == Streak(def, h[..i + 1])[0].at + Nanos(def.delaySeconds)
            && forall n :: i < n < |h| ==> FiredTrack(TrackFrom(tag, None, h[..n]))
  {
    var k := Key(tag, def.id);
    var h := RunHistory(s, moves, k);
    RunHistoryOf(s, moves, tag, def);
    RunsAreHistories(s, moves, k);
    assert h[..|h|] == h;
    i := LastFiring(tag, def, h, |h|);
    FiresWhenDueAt(tag, None, def, h, i);
  }

  /** The firing that led to the alarm a prefix of the history ends with. */
  lemma {:induction false} LastFiring(tag: int, def: Definition, h: seq<RuleMove>, n: nat) returns (i: nat)
    requires HistoryOf(def, h) && n <= |h| && FiredTrack(TrackFrom(tag, None, h[..n]))
    ensures i < n && FiresAt(tag, None, h, i)
    ensures TrackFrom(tag, None, h[..n]).value.firedAt == TrackFrom(tag, None, h[..i + 1]).value.firedAt
    ensures forall j :: i < j <= n ==> FiredTrack(TrackFrom(tag, None, h[..j]))
  {
    assert n > 0;
    assert h[..n][..n - 1] == h[..n - 1];
    if FiredTrack(TrackFrom(tag, None, h[..n - 1])) {
      i := LastFiring(tag, def, h, n - 1);
    } else {
      i := n - 1;
    }
  }
}
