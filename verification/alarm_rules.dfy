/** The alarm rules of one tag and the way one event moves one rule.

A rule is tracked from the moment its condition is met until it clears. Every
entry point of the alarm manager is a loop over rules; `RuleStep` is the body of
those loops: what one sample, one tick, one health verdict or one configuration
reload does to the track of one rule, and which durable actions it queues.
*/
module AlarmRules {
  import opened Options

  /** Nanoseconds. Zero is the zero time, which callers use for "not given". */
  type Time = int

  const ZERO_TIME: Time := 0
  const SECOND: int := 1_000_000_000
  /** Minimum spacing between attempts to persist an alarm whose insert failed. */
  const INSERT_RETRY_INTERVAL: int := 30 * SECOND
  const QUALITY_GOOD: int := 192
  const DEFAULT_HEALTH_TIMEOUT_SECONDS: int := 60

  /** A floating-point reading. */
  datatype Value = NaN | Num(x: real)

  /** What a driver hands over: a value the rules can compare, or not. */
  datatype Reading = Numeric(v: Value) | NotNumeric

  datatype AlarmType =
    | BoolTrue | BoolFalse
    | High | HighHigh | Low | LowLow
    | CommLoss | Frozen
    | Unknown(name: string)

  datatype Definition = Definition(
    id: int, alarmType: AlarmType, threshold: Option<real>, deadband: real, delaySeconds: int)

  /** A rule of a tag: the key of the track map. */
  datatype Key = Key(tag: int, id: int)

  datatype Status = Active | Cleared

  /** The state of a rule whose condition has been met. `ref` is the identity of
      the event reference the track shares with its queued actions. */
  datatype Track = Track(
    def: Definition, activeSince: Time, triggered: bool, initial: Value,
    firedAt: Time, ref: nat, nextRetry: Time)

  /** One durable write plus notification that a transition decided on. */
  datatype Action = Action(
    tag: int, def: Definition, value: Value, status: Status, ref: nat,
    triggeredAt: Time, clearedAt: Option<Time>, notify: bool)
  {
    function Rule(): Key { Key(tag, def.id) }
  }

  predicate IsHealth(t: AlarmType) { t.CommLoss? || t.Frozen? }

  predicate Violated(def: Definition, v: Value) {
    match def.alarmType
    case BoolTrue => v != Num(0.0)
    case BoolFalse => v == Num(0.0)
    case High => v.Num? && def.threshold.Some? && v.x > def.threshold.value
    case HighHigh => v.Num? && def.threshold.Some? && v.x > def.threshold.value
    case Low => v.Num? && def.threshold.Some? && v.x < def.threshold.value
    case LowLow => v.Num? && def.threshold.Some? && v.x < def.threshold.value
    case _ => false
  }

  /** The clearing test, with the deadband. */
  predicate BackInSpec(def: Definition, v: Value) {
    match def.alarmType
    case BoolTrue => v == Num(0.0)
    case BoolFalse => v != Num(0.0)
    case High => v.Num? && def.threshold.Some? && v.x <= def.threshold.value - def.deadband
    case HighHigh => v.Num? && def.threshold.Some? && v.x <= def.threshold.value - def.deadband
    case Low => v.Num? && def.threshold.Some? && v.x >= def.threshold.value + def.deadband
    case LowLow => v.Num? && def.threshold.Some? && v.x >= def.threshold.value + def.deadband
    case _ => true
  }

  function Nanos(seconds: int): int { seconds * SECOND }

  /** Whole seconds in a duration, truncated toward zero. */
  function WholeSeconds(d: int): int {
    if d >= 0 then d / SECOND else -((-d) / SECOND)
  }

  /** For a delay of at least one second, comparing truncated seconds is the same
      as comparing durations; a zero delay also accepts the last second before. */
  lemma WholeSecondsReach(d: int, delay: int)
    ensures delay >= 1 ==> (WholeSeconds(d) >= delay <==> d >= Nanos(delay))
    ensures delay == 0 ==> (WholeSeconds(d) >= delay <==> d > -SECOND)
  {
    if d < 0 {
      assert (-d) / SECOND == 0 <==> -d < SECOND;
    }
  }

  /** What happens to one rule. */
  datatype RuleEvent =
    | Live(def: Definition, at: Time, v: Value)
    | Replay(def: Definition, at: Time, v: Value, known: bool, wall: Time)
    | Delay(now: Time)
    | Verdict(def: Definition, violated: bool, v: Value, now: Time)
    | Drop

  /** The rule's track afterwards, the actions queued, and whether the actions
      still queued for the old track are pulled back out. */
  datatype Outcome = Outcome(track: Option<Track>, queued: seq<Action>, pulled: bool)

  function RuleStep(tag: int, track: Option<Track>, persisted: bool, newRef: nat, ev: RuleEvent): Outcome {
    match ev
    case Live(def, at, v) => LiveStep(tag, track, newRef, def, at, v)
    case Replay(def, at, v, known, wall) => ReplayStep(tag, track, newRef, def, at, v, known, wall)
    case Delay(now) => DelayStep(tag, track, persisted, now)
    case Verdict(def, violated, v, now) => VerdictStep(tag, track, newRef, def, violated, v, now)
    case Drop => DropStep(tag, track)
  }

  /** A sample arriving live. */
  function LiveStep(tag: int, track: Option<Track>, newRef: nat, def: Definition, at: Time, v: Value): Outcome {
    if Violated(def, v) then
      if track.Some? then Outcome(track, [], false)
      else if def.delaySeconds == 0 then
        Outcome(Some(Track(def, at, true, v, at, newRef, at + INSERT_RETRY_INTERVAL)),
                [Action(tag, def, v, Active, newRef, at, None, true)], false)
      else
        Outcome(Some(Track(def, at, false, v, ZERO_TIME, newRef, ZERO_TIME)), [], false)
    else if track.None? then Outcome(None, [], false)
    else if !track.value.triggered then Outcome(None, [], false)
    else if BackInSpec(def, v) then
      Outcome(None, [Action(tag, def, v, Cleared, track.value.ref, track.value.firedAt, Some(at), true)], false)
    else Outcome(track, [], false)
  }

  /** A reading of a batch, judged on the readings' own times. */
  function ReplayStep(tag: int, track: Option<Track>, newRef: nat, def: Definition, at: Time, v: Value,
                      known: bool, wall: Time): Outcome {
    if Violated(def, v) then
      var t := if track.Some? then track.value
               else Track(def, at, false, v, ZERO_TIME, newRef, ZERO_TIME);
      var delay := Nanos(def.delaySeconds);
      if !t.triggered && at - t.activeSince >= delay then
        var firedAt := t.activeSince + delay;
        Outcome(Some(t.(triggered := true, firedAt := firedAt, nextRetry := wall + INSERT_RETRY_INTERVAL)),
                [Action(tag, def, t.initial, Active, t.ref, firedAt, None, false)], false)
      else Outcome(Some(t), [], false)
    else if track.None? then Outcome(None, [], false)
    else if !track.value.triggered then Outcome(None, [], false)
    else if BackInSpec(def, v) then
      if at <= track.value.firedAt then Outcome(None, [], true)
      else Outcome(None, [Action(tag, def, v, Cleared, track.value.ref, track.value.firedAt, Some(at), known)], false)
    else Outcome(track, [], false)
  }

  /** The one-second tick: a delay that ran out, or a failed insert to retry. */
  function DelayStep(tag: int, track: Option<Track>, persisted: bool, now: Time): Outcome {
    if track.None? then Outcome(None, [], false)
    else
      var t := track.value;
      if !t.triggered then
        if WholeSeconds(now - t.activeSince) >= t.def.delaySeconds then
          var due := t.activeSince + Nanos(t.def.delaySeconds);
          var firedAt := if due > now then now else due;
          Outcome(Some(t.(triggered := true, firedAt := firedAt, nextRetry := now + INSERT_RETRY_INTERVAL)),
                  [Action(tag, t.def, t.initial, Active, t.ref, firedAt, None, true)], false)
        else Outcome(track, [], false)
      else if !persisted && now >= t.nextRetry then
        Outcome(Some(t.(nextRetry := now + INSERT_RETRY_INTERVAL)),
                [Action(tag, t.def, t.initial, Active, t.ref, t.firedAt, None, false)], false)
      else Outcome(track, [], false)
  }

  /** A health verdict: it fires and clears at once. */
  function VerdictStep(tag: int, track: Option<Track>, newRef: nat, def: Definition, violated: bool,
                       v: Value, now: Time): Outcome {
    if violated && track.None? then
      Outcome(Some(Track(def, now, true, v, now, newRef, now + INSERT_RETRY_INTERVAL)),
              [Action(tag, def, v, Active, newRef, now, None, true)], false)
    else if !violated && track.Some? then
      Outcome(None, [Action(tag, def, v, Cleared, track.value.ref, track.value.firedAt, None, true)], false)
    else Outcome(track, [], false)
  }

  /** The definition is gone: a fired alarm is cleared, a pending one forgotten. */
  function DropStep(tag: int, track: Option<Track>): Outcome {
    if track.Some? && track.value.triggered then
      var t := track.value;
      Outcome(None, [Action(tag, t.def, t.initial, Cleared, t.ref, t.firedAt, None, true)], false)
    else Outcome(None, [], false)
  }

  /** With a deadband that is not negative, no value both violates and clears. */
  lemma ViolatedExcludesBackInSpec(def: Definition, v: Value)
    requires def.deadband >= 0.0 && !def.alarmType.Unknown? && !IsHealth(def.alarmType)
    ensures !(Violated(def, v) && BackInSpec(def, v))
  {
  }
}
