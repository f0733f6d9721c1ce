/** The actions of one occurrence.

Whatever the manager is asked to do, the actions queued under one event
reference read ACTIVE, retried ACTIVEs, then at most one CLEARED. A CLEARED
never comes without an ACTIVE, except for an alarm restored from the database. */
module AlarmOccurrences {
  import opened Options
  import opened AlarmRules
  import opened AlarmEngine
  import opened AlarmFrames
  import Replay = AlarmReplay

  /** What the manager may be asked to do under its lock. */
  datatype Event =
    | Sample(tag: int, reading: Reading, quality: int, at: Time, markLife: bool, wall: Time)
    | Batch(tag: int, points: seq<Point>, quality: int, wall: Time)
    | TickAt(now: Time, order: seq<Key>, tags: seq<int>)
    | NewRules(defs: map<int, seq<Definition>>, order: seq<Key>)

  function Section(e: Engine, ev: Event): Engine {
    match ev
    case Sample(tag, reading, quality, at, markLife, wall) => EvaluateAt(e, tag, reading, quality, at, markLife, wall)
    case Batch(tag, points, quality, wall) => EvaluateSeries(e, tag, points, quality, wall)
    case TickAt(now, order, tags) => Tick(e, now, order, tags)
    case NewRules(defs, order) => Reload(e, defs, order)
  }

  ghost predicate UniqueIds(defs: map<int, seq<Definition>>) {
    forall tag :: tag in defs ==> DistinctIds(defs[tag])
  }

  /** A definition's id keeps its type: saving replaces the rows of a tag by new ones
      under new ids, and mirroring copies ids together with their types. */
  ghost predicate KeepsTypes(defs: map<int, seq<Definition>>, defs': map<int, seq<Definition>>) {
    forall tag, d, d' :: d in DefsOf(defs, tag) && d' in DefsOf(defs', tag) && d.id == d'.id ==>
      d.alarmType == d'.alarmType
  }

  /** Ranges take each key once, and definitions are rows of one table. */
  ghost predicate Possible(e: Engine, ev: Event) {
    match ev
    case TickAt(now, order, tags) => Enumerates(order, e.tracks.Keys) && Enumerates(tags, e.defs.Keys)
    case NewRules(defs, order) => Enumerates(order, e.tracks.Keys) && UniqueIds(defs) && KeepsTypes(e.defs, defs)
    case _ => true
  }

  /** The event's definition is one of the current ones, of the right sort. */
  predicate Backed(defs: map<int, seq<Definition>>, m: Micro) {
    match m.ev
    case Live(def, _, _) => def in DefsOf(defs, m.key.tag) && def.id == m.key.id && !IsHealth(def.alarmType)
    case Replay(def, _, _, _, _) => def in DefsOf(defs, m.key.tag) && def.id == m.key.id && !IsHealth(def.alarmType)
    case Verdict(def, _, _, _) => def in DefsOf(defs, m.key.tag) && def.id == m.key.id && IsHealth(def.alarmType)
    case Delay(_) => true
    case Drop => true
  }

  /** Equal up to the notification flags. */
  ghost predicate SameButNotify(a: seq<Action>, b: seq<Action>) {
    |a| == |b| && forall i :: 0 <= i < |a| ==> a[i].(notify := false) == b[i].(notify := false)
  }

  lemma {:induction false} SeriesMicrosBacked(tag: int, defs: map<int, seq<Definition>>, points: seq<Point>,
                                              known: set<int>, wall: Time)
    ensures forall m :: m in SeriesMicros(tag, DefsOf(defs, tag), points, known, wall) ==>
      Backed(defs, m) && m.ev.Replay?
  {
    if |points| > 0 {
      var p := points[|points| - 1];
      SeriesMicrosBacked(tag, defs, points[..|points| - 1], known, wall);
      if p.reading.Numeric? {
        Replay.PointMicrosShape(tag, DefsOf(defs, tag), p.at, p.reading.v, known, wall);
      }
    }
  }

  lemma {:induction false} DropMicrosShape(order: seq<Key>, defs: map<int, seq<Definition>>)
    ensures forall m :: m in DropMicros(order, defs) ==> m.ev == Drop && m.key in order && !Defined(defs, m.key)
  {
    if |order| > 0 {
      DropMicrosShape(order[..|order| - 1], defs);
    }
  }

  /** A section is: new definitions and samples, a list of backed rule events,
      and for a batch some notification flags. */
  ghost predicate Shape(e: Engine, ev: Event, pre: Engine, ms: seq<Micro>) {
    var done := Steps(pre, ms);
    var e' := Section(e, ev);
    && pre == e.(defs := pre.defs, samples := pre.samples)
    && pre.defs == (if ev.NewRules? then ev.defs else e.defs)
    && (forall m :: m in ms ==> Backed(pre.defs, m) && (m.ev.Replay? ==> ev.Batch?))
    && e' == done.(samples := e'.samples, pending := e'.pending)
    && SameButNotify(e'.pending, done.pending)
    && (!ev.Batch? ==> e'.pending == done.pending)
  }

  lemma SectionShape(e: Engine, ev: Event) returns (pre: Engine, ms: seq<Micro>)
    ensures Shape(e, ev, pre, ms)
    ensures ev.NewRules? ==> ms == DropMicros(ev.order, ev.defs)
  {
    match ev {
      case Sample(_, _, _, _, _, _) => pre, ms := SampleShape(e, ev);
      case Batch(_, _, _, _) => pre, ms := BatchShape(e, ev);
      case TickAt(now, order, tags) =>
        pre, ms := e, DelayMicros(order, now) + HealthMicros(e, tags, now);
        Replay.HealthMicrosShape(e, tags, now);
      case NewRules(defs, order) =>
        pre, ms := e.(defs := defs, samples := PruneSamples(e.samples, defs)), DropMicros(order, defs);
        DropMicrosShape(order, defs);
    }
  }

  lemma SampleShape(e: Engine, ev: Event) returns (pre: Engine, ms: seq<Micro>)
    requires ev.Sample?
    ensures Shape(e, ev, pre, ms)
  {
    pre, ms := e, [];
    var defs := DefsOf(e.defs, ev.tag);
    if |defs| != 0 && ev.quality == QUALITY_GOOD && ev.reading.Numeric? {
      var at := if ev.at == ZERO_TIME then ev.wall else ev.at;
      pre := if ev.markLife then RecordGood(e, ev.tag, defs, ev.reading.v, ev.wall) else e;
      ms := LiveMicros(ev.tag, defs, at, ev.reading.v);
      Replay.LiveMicrosShape(ev.tag, defs, at, ev.reading.v);
    }
  }

  lemma BatchShape(e: Engine, ev: Event) returns (pre: Engine, ms: seq<Micro>)
    requires ev.Batch?
    ensures Shape(e, ev, pre, ms)
  {
    pre, ms := e, [];
    var defs := DefsOf(e.defs, ev.tag);
    if |ev.points| != 0 && |defs| != 0 && ev.quality == QUALITY_GOOD {
      var sorted := SortByTime(ev.points);
      pre := BatchAlive(e, ev.tag, sorted, ev.wall);
      ms := SeriesMicros(ev.tag, defs, sorted, KnownRules(e, ev.tag), ev.wall);
      SeriesMicrosBacked(ev.tag, e.defs, sorted, KnownRules(e, ev.tag), ev.wall);
      var done := Steps(pre, ms);
      assert Section(e, ev) == WithNews(e, done, ev.tag);
    }
  }

  // ------------------------------------------------------------ invariants

  /** After a CLEARED nothing more is queued for the occurrence. */
  ghost predicate ClearedIsLast(q: seq<Action>) {
    forall i, j :: 0 <= i < j < |q| && q[i].ref == q[j].ref ==> q[i].status.Active?
  }

  /** No CLEARED without an ACTIVE, unless the alarm was restored. */
  ghost predicate Announced(q: seq<Action>, restored: nat) {
    forall a :: a in q && a.status.Cleared? && a.ref >= restored ==>
      exists b :: b in q && b.ref == a.ref && b.status.Active?
  }

  /** A fired alarm has its ACTIVE queued, unless it was restored. */
  ghost predicate FiredAreQueued(e: Engine, restored: nat) {
    forall k :: k in e.tracks && e.tracks[k].triggered && e.tracks[k].ref >= restored ==>
      exists b :: b in e.Queued() && b.ref == e.tracks[k].ref && b.status.Active?
  }

  /** A rule still in its delay is a value rule in the current definitions. */
  ghost predicate PendingAreValueRules(e: Engine) {
    forall k, d :: k in e.tracks && !e.tracks[k].triggered && d in DefsOf(e.defs, k.tag) && d.id == k.id ==>
      !IsHealth(d.alarmType)
  }

  /** A rule still in its delay has a current definition. */
  ghost predicate PendingAreDefined(e: Engine) {
    forall k :: k in e.tracks && !e.tracks[k].triggered ==> Defined(e.defs, k)
  }

  ghost predicate Orderly(e: Engine, restored: nat) {
    && RefsOwned(e) && UniqueIds(e.defs)
    && ClearedIsLast(e.Queued()) && Announced(e.Queued(), restored)
    && FiredAreQueued(e, restored) && PendingAreValueRules(e)
    && restored <= |e.rows|
  }

  lemma {:induction false} WithoutKeepsClearedIsLast(p: seq<Action>, q: seq<Action>, k: Key, ref: nat)
    requires ClearedIsLast(p + q)
    ensures ClearedIsLast(p + Without(q, k, ref))
  {
    if |q| == 0 {
    } else {
      var init, last := q[..|q| - 1], q[|q| - 1];
      assert p + q == (p + init) + [last];
      assert forall i :: 0 <= i < |p + init| ==> (p + init)[i] == (p + q)[i];
      WithoutKeepsClearedIsLast(p, init, k, ref);
      WithoutMembers(init, k, ref);
      var r := p + Without(init, k, ref);
      if !SameOccurrence(last, k, ref) {
        assert p + Without(q, k, ref) == r + [last];
        forall i | 0 <= i < |r| && r[i].ref == last.ref
          ensures r[i].status.Active?
        {
          assert r[i] in p + init;
          var j :| 0 <= j < |p + init| && (p + init)[j] == r[i];
          assert (p + q)[j] == r[i] && (p + q)[|p + init|] == last;
        }
      }
    }
  }

  /** The outcome fires or clears fired alarms only: no CLEARED for a rule that is
      still in its delay. */
  ghost predicate Sound(e: Engine, k: Key, out: Outcome) {
    var t := e.TrackOf(k);
    && Proper(e, k, out)
    && (|out.queued| == 1 && out.queued[0].status.Cleared? ==> t.value.triggered)
    && (out.track.Some? && out.track.value.triggered && !(t.Some? && t.value.triggered) ==>
          |out.queued| == 1 && out.queued[0].status.Active?)
  }

  lemma BackedOutcomesAreSound(e: Engine, m: Micro)
    requires RefsOwned(e) && UniqueIds(e.defs) && PendingAreValueRules(e) && Backed(e.defs, m)
    ensures Sound(e, m.key, OutcomeOf(e, m))
    ensures PendingAreValueRules(Step(e, m))
  {
    OutcomesAreProper(e, m);
    var out := OutcomeOf(e, m);
    if out.track.Some? && !out.track.value.triggered && e.TrackOf(m.key).None? {
      assert m.ev.Live? || m.ev.Replay?;
      var defs := DefsOf(e.defs, m.key.tag);
      forall d | d in defs && d.id == m.key.id
        ensures d == m.ev.def
      {
        OneOfItsId(defs, d, m.ev.def);
      }
    }
  }

  lemma ApplyKeepsQueueOrder(e: Engine, k: Key, out: Outcome, restored: nat)
    requires RefsOwned(e) && Proper(e, k, out) && ClearedIsLast(e.Queued())
    ensures ClearedIsLast(Apply(e, k, out).Queued())
  {
    if out.pulled {
      WithoutKeepsClearedIsLast(e.popped, e.pending, k, e.tracks[k].ref);
      assert Apply(e, k, out).Queued() == e.popped + Without(e.pending, k, e.tracks[k].ref);
    } else {
      var q, q' := e.Queued(), Apply(e, k, out).Queued();
      assert q' == q + out.queued;
      if |out.queued| == 1 {
        forall i | 0 <= i < |q| && q[i].ref == out.queued[0].ref
          ensures q[i].status.Active?
        {
          assert q[i] in q;
        }
      }
    }
  }

  lemma ApplyKeepsAnnounced(e: Engine, k: Key, out: Outcome, restored: nat)
    requires RefsOwned(e) && Sound(e, k, out)
    requires Announced(e.Queued(), restored) && FiredAreQueued(e, restored)
    ensures Announced(Apply(e, k, out).Queued(), restored) && FiredAreQueued(Apply(e, k, out), restored)
  {
    var e' := Apply(e, k, out);
    var q, q' := e.Queued(), e'.Queued();
    if out.pulled {
      var ref := e.tracks[k].ref;
      WithoutMembers(e.pending, k, ref);
      assert forall a :: a in q && a.ref != ref ==> a in q';
      forall a | a in q' && a.status.Cleared? && a.ref >= restored
        ensures exists b :: b in q' && b.ref == a.ref && b.status.Active?
      {
        assert a in q;
        var b :| b in q && b.ref == a.ref && b.status.Active?;
        assert b in q';
      }
      forall j | j in e'.tracks && e'.tracks[j].triggered && e'.tracks[j].ref >= restored
        ensures exists b :: b in q' && b.ref == e'.tracks[j].ref && b.status.Active?
      {
        var b :| b in q && b.ref == e.tracks[j].ref && b.status.Active?;
        assert b in q';
      }
    } else {
      assert q' == q + out.queued;
      forall a | a in q' && a.status.Cleared? && a.ref >= restored
        ensures exists b :: b in q' && b.ref == a.ref && b.status.Active?
      {
        var b :| b in q && b.ref == a.ref && b.status.Active?;
        assert b in q';
      }
      forall j | j in e'.tracks && e'.tracks[j].triggered && e'.tracks[j].ref >= restored
        ensures exists b :: b in q' && b.ref == e'.tracks[j].ref && b.status.Active?
      {
        if j == k && !(k in e.tracks && e.tracks[k].triggered) {
          assert out.queued[0] in q';
        } else {
          var b :| b in q && b.ref == e.tracks[j].ref && b.status.Active?;
          assert b in q';
        }
      }
    }
  }

  lemma StepKeepsOrderly(e: Engine, m: Micro, restored: nat)
    requires Orderly(e, restored) && Backed(e.defs, m)
    ensures Orderly(Step(e, m), restored)
  {
    BackedOutcomesAreSound(e, m);
    StepKeepsRefs(e, m);
    ApplyKeepsQueueOrder(e, m.key, OutcomeOf(e, m), restored);
    ApplyKeepsAnnounced(e, m.key, OutcomeOf(e, m), restored);
  }

  lemma {:induction false} StepsKeepOrderly(e: Engine, ms: seq<Micro>, restored: nat)
    requires Orderly(e, restored) && forall m :: m in ms ==> Backed(e.defs, m)
    ensures Orderly(Steps(e, ms), restored)
  {
    if |ms| > 0 {
      var init := ms[..|ms| - 1];
      StepsKeepOrderly(e, init, restored);
      Replay.StepsKeepDefs(e, init);
      StepKeepsOrderly(Steps(e, init), ms[|ms| - 1], restored);
    }
  }

  lemma NotifyKeepsQueue(q: seq<Action>, q': seq<Action>, restored: nat)
    requires SameButNotify(q', q) && ClearedIsLast(q) && Announced(q, restored)
    ensures ClearedIsLast(q') && Announced(q', restored)
  {
    forall a | a in q' && a.status.Cleared? && a.ref >= restored
      ensures exists b :: b in q' && b.ref == a.ref && b.status.Active?
    {
      var i := MemberIndex(q', a);
      assert q[i] in q;
      var b :| b in q && b.ref == a.ref && b.status.Active?;
      var j := MemberIndex(q, b);
      assert q'[j] in q';
    }
  }

  lemma NotifyMember(q: seq<Action>, q': seq<Action>, a: Action) returns (b: Action)
    requires SameButNotify(q', q) && a in q'
    ensures b in q && b.Rule() == a.Rule() && b.ref == a.ref && b.status == a.status
  {
    var i := MemberIndex(q', a);
    b := q[i];
    assert b.(notify := false) == a.(notify := false);
  }

  lemma NotifyKeepsRefs(e: Engine, e': Engine)
    requires RefsOwned(e) && e'.tracks == e.tracks && e'.rows == e.rows && SameButNotify(e'.Queued(), e.Queued())
    ensures RefsOwned(e')
  {
    forall a | a in e'.Queued()
      ensures a.ref < |e'.rows|
      ensures forall k :: k in e'.tracks && a.ref == e'.tracks[k].ref ==> a.Rule() == k && a.status.Active?
    {
      var b := NotifyMember(e.Queued(), e'.Queued(), a);
    }
  }

  lemma NotifyKeepsFired(e: Engine, e': Engine, restored: nat)
    requires FiredAreQueued(e, restored) && e'.tracks == e.tracks && SameButNotify(e.Queued(), e'.Queued())
    ensures FiredAreQueued(e', restored)
  {
    forall k | k in e'.tracks && e'.tracks[k].triggered && e'.tracks[k].ref >= restored
      ensures exists b :: b in e'.Queued() && b.ref == e'.tracks[k].ref && b.status.Active?
    {
      var b :| b in e.Queued() && b.ref == e.tracks[k].ref && b.status.Active?;
      var b' := NotifyMember(e'.Queued(), e.Queued(), b);
    }
  }

  lemma NotifyKeepsOrderly(e: Engine, e': Engine, restored: nat)
    requires Orderly(e, restored) && e' == e.(samples := e'.samples, pending := e'.pending)
    requires SameButNotify(e'.pending, e.pending)
    ensures Orderly(e', restored)
  {
    assert SameButNotify(e'.Queued(), e.Queued()) && SameButNotify(e.Queued(), e'.Queued());
    NotifyKeepsRefs(e, e');
    NotifyKeepsQueue(e.Queued(), e'.Queued(), restored);
    NotifyKeepsFired(e, e', restored);
  }

  /** A reload turns no rule still in its delay into a health rule. */
  ghost predicate KeepsPendingSorts(e: Engine, ev: Event) {
    ev.NewRules? ==>
      forall k, d :: k in e.tracks && !e.tracks[k].triggered && d in DefsOf(ev.defs, k.tag) && d.id == k.id ==>
        !IsHealth(d.alarmType)
  }

  lemma PendingSortsAreKept(e: Engine, ev: Event)
    requires PendingAreValueRules(e) && PendingAreDefined(e) && Possible(e, ev)
    ensures KeepsPendingSorts(e, ev)
  {
    if ev.NewRules? {
      forall k, d | k in e.tracks && !e.tracks[k].triggered && d in DefsOf(ev.defs, k.tag) && d.id == k.id
        ensures !IsHealth(d.alarmType)
      {
        var i :| 0 <= i < |DefsOf(e.defs, k.tag)| && DefsOf(e.defs, k.tag)[i].id == k.id;
        var was := DefsOf(e.defs, k.tag)[i];
        assert was in DefsOf(e.defs, k.tag) && was.id == d.id;
      }
    }
  }

  lemma StepKeepsDefined(e: Engine, m: Micro)
    requires PendingAreDefined(e) && Backed(e.defs, m)
    ensures PendingAreDefined(Step(e, m))
  {
    var out := OutcomeOf(e, m);
    if out.track.Some? && !out.track.value.triggered && e.TrackOf(m.key).None? {
      var i := MemberIndex(DefsOf(e.defs, m.key.tag), m.ev.def);
      assert Defined(e.defs, m.key);
    }
  }

  lemma {:induction false} StepsKeepDefined(e: Engine, ms: seq<Micro>)
    requires PendingAreDefined(e) && forall m :: m in ms ==> Backed(e.defs, m)
    ensures PendingAreDefined(Steps(e, ms))
  {
    if |ms| > 0 {
      var init := ms[..|ms| - 1];
      StepsKeepDefined(e, init);
      Replay.StepsKeepDefs(e, init);
      StepKeepsDefined(Steps(e, init), ms[|ms| - 1]);
    }
  }

  lemma DropForgets(e: Engine, k: Key)
    ensures Step(e, Micro(k, Drop)).tracks == e.tracks - {k}
  {
  }

  /** A reload leaves no track without a definition. */
  lemma {:induction false} DropsLeaveDefined(e: Engine, order: seq<Key>, defs: map<int, seq<Definition>>)
    ensures forall k :: k in Steps(e, DropMicros(order, defs)).tracks ==>
      k in e.tracks && (k in order ==> Defined(defs, k))
  {
    if |order| > 0 {
      var init, k := order[..|order| - 1], order[|order| - 1];
      DropsLeaveDefined(e, init, defs);
      assert order == init + [k];
      if !Defined(defs, k) {
        StepsSnoc(e, DropMicros(init, defs), Micro(k, Drop));
        DropForgets(Steps(e, DropMicros(init, defs)), k);
      } else {
        assert DropMicros(order, defs) == DropMicros(init, defs);
      }
    }
  }

  lemma SectionKeepsDefined(e: Engine, ev: Event)
    requires PendingAreDefined(e) && Possible(e, ev)
    ensures PendingAreDefined(Section(e, ev))
  {
    var pre, ms := SectionShape(e, ev);
    Replay.StepsKeepDefs(pre, ms);
    if ev.NewRules? {
      DropsLeaveDefined(pre, ev.order, ev.defs);
    } else {
      StepsKeepDefined(pre, ms);
    }
  }

  /** Every section keeps the order of the occurrences. */
  lemma SectionKeepsOrderly(e: Engine, ev: Event, restored: nat)
    requires Orderly(e, restored) && PendingAreDefined(e) && Possible(e, ev)
    ensures Orderly(Section(e, ev), restored) && PendingAreDefined(Section(e, ev))
  {
    PendingSortsAreKept(e, ev);
    SectionKeepsDefined(e, ev);
    var pre, ms := SectionShape(e, ev);
    assert pre.Queued() == e.Queued();
    StepsKeepOrderly(pre, ms, restored);
    NotifyKeepsOrderly(Steps(pre, ms), Section(e, ev), restored);
  }
}
