/** The alarm manager's state as a value, and each of its locked sections as a
function of it.

A section is a list of rule events executed in order under the manager's lock.
Where the source ranges over a map the order is a parameter, so that whatever is
proved of a section holds for every order. */
module AlarmEngine {
  import opened Options
  import opened AlarmRules

  datatype Anchor = Anchor(value: Value, since: Time)

  datatype SampleState = SampleState(lastGood: Time, lastValue: Value, hasValue: bool, anchors: map<int, Anchor>)

  /** `rows[r]` is the alarm_events row id held by event reference r, zero while
      the occurrence is not persisted. `popped` is the history of the actions the
      drainers have taken out of `pending`. */
  datatype Engine = Engine(
    defs: map<int, seq<Definition>>,
    tracks: map<Key, Track>,
    samples: map<int, SampleState>,
    pending: seq<Action>,
    popped: seq<Action>,
    rows: seq<int>)
  {
    /** Everything queued so far and not pulled back, oldest first. */
    function Queued(): seq<Action> { popped + pending }

    function TrackOf(k: Key): Option<Track> { if k in tracks then Some(tracks[k]) else None }

    function RowOf(r: nat): int { if r < |rows| then rows[r] else 0 }
  }

  datatype Micro = Micro(key: Key, ev: RuleEvent)

  /** An order in which a range over a map may take its keys. */
  ghost predicate Enumerates<T(!new)>(order: seq<T>, s: set<T>) {
    && (forall x :: x in order <==> x in s)
    && (forall i, j :: 0 <= i < j < |order| ==> order[i] != order[j])
  }

  datatype Point = Point(reading: Reading, at: Time)

  function Put(tracks: map<Key, Track>, k: Key, t: Option<Track>): (r: map<Key, Track>)
    ensures forall j :: j in r <==> (if j == k then t.Some? else j in tracks)
    ensures forall j :: j in r ==> r[j] == if j == k then t.value else tracks[j]
  {
    if t.Some? then tracks[k := t.value] else map j | j in tracks && j != k :: tracks[j]
  }

  predicate SameOccurrence(a: Action, k: Key, ref: nat) { a.Rule() == k && a.ref == ref }

  /** The queue without the actions of one occurrence. */
  function Without(q: seq<Action>, k: Key, ref: nat): (r: seq<Action>)
    ensures |r| <= |q|
  {
    if |q| == 0 then []
    else
      var rest := Without(q[..|q| - 1], k, ref);
      if SameOccurrence(q[|q| - 1], k, ref) then rest else rest + [q[|q| - 1]]
  }

  function OutcomeOf(e: Engine, m: Micro): Outcome {
    var track := e.TrackOf(m.key);
    RuleStep(m.key.tag, track, track.Some? && e.RowOf(track.value.ref) != 0, |e.rows|, m.ev)
  }

  function Apply(e: Engine, k: Key, out: Outcome): Engine {
    var track := e.TrackOf(k);
    e.(tracks := Put(e.tracks, k, out.track),
       pending := (if out.pulled && track.Some? then Without(e.pending, k, track.value.ref) else e.pending)
         + out.queued,
       rows := if track.None? && out.track.Some? then e.rows + [0] else e.rows)
  }

  /** One rule event, seen from the whole engine. */
  function Step(e: Engine, m: Micro): Engine { Apply(e, m.key, OutcomeOf(e, m)) }

  function Steps(e: Engine, ms: seq<Micro>): Engine {
    if |ms| == 0 then e else Step(Steps(e, ms[..|ms| - 1]), ms[|ms| - 1])
  }

  lemma StepsSnoc(e: Engine, ms: seq<Micro>, m: Micro)
    ensures Steps(e, ms + [m]) == Step(Steps(e, ms), m)
  {
    assert (ms + [m])[..|ms|] == ms;
  }

  lemma {:induction false} StepsConcat(e: Engine, a: seq<Micro>, b: seq<Micro>)
    ensures Steps(e, a + b) == Steps(Steps(e, a), b)
  {
    if |b| == 0 {
      assert a + b == a;
    } else {
      var b' := b[..|b| - 1];
      var m := b[|b| - 1];
      StepsConcat(e, a, b');
      assert b == b' + [m];
      StepsSnoc(Steps(e, a), b', m);
      assert a + b == (a + b') + [m];
      StepsSnoc(e, a + b', m);
    }
  }

  // ---------------------------------------------------------------- samples

  predicate Moved(v: Value, a: Value, deadband: real) {
    v.Num? && a.Num? && (v.x - a.x > deadband || a.x - v.x > deadband)
  }

  function MoveAnchor(anchors: map<int, Anchor>, def: Definition, v: Value, now: Time): map<int, Anchor> {
    if !def.alarmType.Frozen? then anchors
    else if def.id !in anchors || Moved(v, anchors[def.id].value, def.deadband) then anchors[def.id := Anchor(v, now)]
    else anchors
  }

  function MoveAnchors(anchors: map<int, Anchor>, defs: seq<Definition>, v: Value, now: Time): map<int, Anchor> {
    if |defs| == 0 then anchors
    else MoveAnchor(MoveAnchors(anchors, defs[..|defs| - 1], v, now), defs[|defs| - 1], v, now)
  }

  /** A trustworthy reading: the sign of life the health rules wait for. */
  function RecordGood(e: Engine, tag: int, defs: seq<Definition>, v: Value, now: Time): Engine {
    var anchors := if tag in e.samples then e.samples[tag].anchors else map[];
    e.(samples := e.samples[tag := SampleState(now, v, true, MoveAnchors(anchors, defs, v, now))])
  }

  predicate HasHealth(defs: seq<Definition>) { exists i :: 0 <= i < |defs| && IsHealth(defs[i].alarmType) }

  function DefsOf(defs: map<int, seq<Definition>>, tag: int): seq<Definition> {
    if tag in defs then defs[tag] else []
  }

  predicate Defined(defs: map<int, seq<Definition>>, k: Key) {
    exists i :: 0 <= i < |DefsOf(defs, k.tag)| && DefsOf(defs, k.tag)[i].id == k.id
  }

  predicate KeepsAnchor(defs: seq<Definition>, id: int) {
    exists i :: 0 <= i < |defs| && defs[i].id == id && defs[i].alarmType.Frozen?
  }

  function PruneSample(s: SampleState, defs: seq<Definition>): SampleState {
    s.(anchors := map id | id in s.anchors && KeepsAnchor(defs, id) :: s.anchors[id])
  }

  function PruneSamples(samples: map<int, SampleState>, defs: map<int, seq<Definition>>): map<int, SampleState> {
    map tag | tag in samples && HasHealth(DefsOf(defs, tag)) :: PruneSample(samples[tag], DefsOf(defs, tag))
  }

  // ------------------------------------------------------- the locked sections

  /** One sample through the value rules of its tag. */
  function LiveMicros(tag: int, defs: seq<Definition>, at: Time, v: Value): seq<Micro> {
    if |defs| == 0 then []
    else
      var d := defs[|defs| - 1];
      LiveMicros(tag, defs[..|defs| - 1], at, v)
      + if IsHealth(d.alarmType) then [] else [Micro(Key(tag, d.id), Live(d, at, v))]
  }

  function EvaluateAt(e: Engine, tag: int, reading: Reading, quality: int, at: Time, markLife: bool,
                      wall: Time): Engine {
    var defs := DefsOf(e.defs, tag);
    if |defs| == 0 || quality != QUALITY_GOOD || !reading.Numeric? then e
    else
      var alive := if markLife then RecordGood(e, tag, defs, reading.v, wall) else e;
      Steps(alive, LiveMicros(tag, defs, if at == ZERO_TIME then wall else at, reading.v))
  }

  function DelayMicros(order: seq<Key>, now: Time): seq<Micro> {
    seq(|order|, i requires 0 <= i < |order| => Micro(order[i], Delay(now)))
  }

  function HealthTimeout(def: Definition): int {
    Nanos(if def.delaySeconds <= 0 then DEFAULT_HEALTH_TIMEOUT_SECONDS else def.delaySeconds)
  }

  /** Whether a health rule holds at `now`, given what its tag remembers. */
  predicate Unhealthy(s: SampleState, def: Definition, now: Time) {
    var silence := now - s.lastGood;
    if def.alarmType.CommLoss? then silence >= HealthTimeout(def)
    else
      && s.hasValue && def.id in s.anchors
      && silence <= HealthTimeout(def)
      && now - s.anchors[def.id].since >= HealthTimeout(def)
  }

  function VerdictMicros(tag: int, s: SampleState, defs: seq<Definition>, now: Time): seq<Micro> {
    if |defs| == 0 then []
    else
      var d := defs[|defs| - 1];
      VerdictMicros(tag, s, defs[..|defs| - 1], now)
      + if IsHealth(d.alarmType)
        then [Micro(Key(tag, d.id), Verdict(d, Unhealthy(s, d, now), s.lastValue, now))] else []
  }

  /** Tags in `order`; a tag without health state is only given a clock. */
  function HealthMicros(e: Engine, order: seq<int>, now: Time): seq<Micro> {
    if |order| == 0 then []
    else
      var tag := order[|order| - 1];
      HealthMicros(e, order[..|order| - 1], now)
      + if tag in e.samples then VerdictMicros(tag, e.samples[tag], DefsOf(e.defs, tag), now) else []
  }

  function ClockOf(e: Engine, tag: int, now: Time): SampleState {
    if tag in e.samples then e.samples[tag] else SampleState(now, Num(0.0), false, map[])
  }

  function StartClocks(e: Engine, now: Time): map<int, SampleState> {
    map tag | tag in e.samples.Keys + e.defs.Keys && (tag in e.samples || HasHealth(e.defs[tag]))
      :: ClockOf(e, tag, now)
  }

  /** The one-second tick. `order` lists the tracks, `tags` the tags with rules. */
  function Tick(e: Engine, now: Time, order: seq<Key>, tags: seq<int>): Engine {
    Steps(e, DelayMicros(order, now) + HealthMicros(e, tags, now)).(samples := StartClocks(e, now))
  }

  /** New definitions. `order` lists the tracks. */
  function Reload(e: Engine, defs: map<int, seq<Definition>>, order: seq<Key>): Engine {
    Steps(e.(defs := defs, samples := PruneSamples(e.samples, defs)), DropMicros(order, defs))
  }

  function DropMicros(order: seq<Key>, defs: map<int, seq<Definition>>): seq<Micro> {
    if |order| == 0 then []
    else
      var k := order[|order| - 1];
      DropMicros(order[..|order| - 1], defs) + if Defined(defs, k) then [] else [Micro(k, Drop)]
  }

  /** One reading of a batch through the value rules. */
  function PointMicros(tag: int, defs: seq<Definition>, at: Time, v: Value, known: set<int>, wall: Time): seq<Micro> {
    if |defs| == 0 then []
    else
      var d := defs[|defs| - 1];
      PointMicros(tag, defs[..|defs| - 1], at, v, known, wall)
      + if IsHealth(d.alarmType) then [] else [Micro(Key(tag, d.id), Replay(d, at, v, d.id in known, wall))]
  }

  function SeriesMicros(tag: int, defs: seq<Definition>, points: seq<Point>, known: set<int>, wall: Time): seq<Micro> {
    if |points| == 0 then []
    else
      SeriesMicros(tag, defs, points[..|points| - 1], known, wall)
      + MicrosOf(tag, defs, points[|points| - 1], known, wall)
  }

  function MicrosOf(tag: int, defs: seq<Definition>, p: Point, known: set<int>, wall: Time): seq<Micro> {
    if p.reading.Numeric? then PointMicros(tag, defs, p.at, p.reading.v, known, wall) else []
  }

  /** The rules of a tag the operator already knows about. */
  function KnownRules(e: Engine, tag: int): set<int> {
    set k | k in e.tracks && k.tag == tag && e.tracks[k].triggered :: k.id
  }

  /** An alarm raised in the batch and still open at its end is news. */
  predicate IsNews(tracks: map<Key, Track>, tag: int, a: Action) {
    a.tag == tag && a.status.Active? && a.Rule() in tracks && tracks[a.Rule()].ref == a.ref
  }

  function MarkNews(q: seq<Action>, first: nat, tracks: map<Key, Track>, tag: int): (r: seq<Action>)
    ensures |r| == |q|
  {
    seq(|q|, i requires 0 <= i < |q| =>
      if i >= first && IsNews(tracks, tag, q[i]) then q[i].(notify := true) else q[i])
  }

  predicate SortedByTime(ps: seq<Point>) { forall i, j :: 0 <= i < j < |ps| ==> ps[i].at <= ps[j].at }

  /** Places p after every point that is not later than it: insertion keeps the
      arrival order of points with equal times. */
  function InsertByTime(ps: seq<Point>, p: Point): (r: seq<Point>)
    requires SortedByTime(ps)
    ensures |r| == |ps| + 1 && multiset(r) == multiset(ps) + multiset{p}
    ensures r[|ps|] == if |ps| == 0 || ps[|ps| - 1].at <= p.at then p else ps[|ps| - 1]
    ensures SortedByTime(r)
  {
    if |ps| == 0 || ps[|ps| - 1].at <= p.at then ps + [p]
    else
      assert ps == ps[..|ps| - 1] + [ps[|ps| - 1]];
      InsertByTime(ps[..|ps| - 1], p) + [ps[|ps| - 1]]
  }

  function SortByTime(ps: seq<Point>): (r: seq<Point>)
    ensures SortedByTime(r) && multiset(r) == multiset(ps) && |r| == |ps|
  {
    if |ps| == 0 then []
    else
      assert ps == ps[..|ps| - 1] + [ps[|ps| - 1]];
      InsertByTime(SortByTime(ps[..|ps| - 1]), ps[|ps| - 1])
  }

  /** The newest reading of a batch is a sign of life. */
  function BatchAlive(e: Engine, tag: int, sorted: seq<Point>, wall: Time): Engine
    requires |sorted| > 0
  {
    var last := sorted[|sorted| - 1].reading;
    if last.Numeric? then RecordGood(e, tag, DefsOf(e.defs, tag), last.v, wall) else e
  }

  function ReplaySorted(e: Engine, tag: int, sorted: seq<Point>, wall: Time): Engine
    requires |sorted| > 0
  {
    Steps(BatchAlive(e, tag, sorted, wall), SeriesMicros(tag, DefsOf(e.defs, tag), sorted, KnownRules(e, tag), wall))
  }

  /** The end of a batch begun at `start`: what it raised and left open is news. */
  function WithNews(start: Engine, done: Engine, tag: int): Engine {
    done.(pending := MarkNews(done.pending, |start.pending|, done.tracks, tag))
  }

  /** A batch of past readings of one tag. */
  function EvaluateSeries(e: Engine, tag: int, points: seq<Point>, quality: int, wall: Time): Engine {
    if |points| == 0 || |DefsOf(e.defs, tag)| == 0 || quality != QUALITY_GOOD then e
    else WithNews(e, ReplaySorted(e, tag, SortByTime(points), wall), tag)
  }

  // --------------------------------------------------------------- frames

  /** A rule event leaves the other rules' tracks, the definitions, the samples
      and the popped history alone. */
  lemma StepFrame(e: Engine, m: Micro, k: Key)
    requires k != m.key
    ensures Step(e, m).TrackOf(k) == e.TrackOf(k)
    ensures Step(e, m).samples == e.samples && Step(e, m).popped == e.popped && Step(e, m).defs == e.defs
  {
  }

  /** No two definitions of a tag share an id: they are rows of one table. */
  predicate DistinctIds(defs: seq<Definition>) {
    forall i, j :: 0 <= i < j < |defs| ==> defs[i].id != defs[j].id
  }

  lemma OneOfItsId(defs: seq<Definition>, a: Definition, b: Definition)
    requires DistinctIds(defs) && a in defs && b in defs && a.id == b.id
    ensures a == b
  {
    var i := MemberIndex(defs, a);
    var j := MemberIndex(defs, b);
  }
}
