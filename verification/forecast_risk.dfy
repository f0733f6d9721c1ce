/** Risks: which alarm rules a forecast may trip, how likely and when.

A rule is tripped with near certainty when even the optimistic edge of the band crosses it,
likely when the median does, possibly when only the pessimistic edge does; a drift that
reaches a limit after the horizon is followed there along the median's line. */
module ForecastRisk {
  import opened Options
  import opened ForecastSeries
  import opened ForecastShape

  datatype RuleType = High | HighHigh | Low | LowLow | BoolTrue | BoolFalse | OtherRule

  datatype Threshold = Threshold(rule: RuleType, value: real)

  datatype Likelihood = AlmostCertain | Likely | Possible | Trend

  datatype Risk = Risk(likelihood: Likelihood, at: int)

  const MAX_EXTRAPOLATION: int := 365 * 24 * HOUR

  /** Durations are 64-bit. */
  const MAX_DURATION: int := 0x8000_0000_0000_0000

  predicate IsStateRule(rule: RuleType) { rule in {BoolTrue, BoolFalse} }

  predicate Above(rule: RuleType) { rule in {High, HighHigh, BoolTrue} }

  predicate Crosses(th: Threshold, x: real) {
    match th.rule
    case High | HighHigh => x > th.value
    case Low | LowLow => x < th.value
    case BoolTrue => x > 0.5
    case BoolFalse => x < 0.5
    case OtherRule => false
  }

  /** Whether the rule says anything about this kind of signal and is not tripped now. */
  predicate Applies(th: Threshold, kind: Kind, last: Number) {
    match th.rule
    case BoolTrue => kind == State && last == Some(0.0)
    case BoolFalse => kind == State && last != Some(0.0)
    case OtherRule => false
    case _ => last.Some? ==> !Crosses(th, last.value)
  }

  function Hits(th: Threshold, q: seq<Number>): (h: seq<bool>)
    ensures |h| == |q|
  {
    seq(|q|, i requires 0 <= i < |q| => q[i].Some? && Crosses(th, q[i].value))
  }

  function FirstTrue(h: seq<bool>): (r: Option<nat>)
    ensures r.Some? ==> r.value < |h| && h[r.value] && forall k :: 0 <= k < r.value ==> !h[k]
    ensures r.None? ==> forall k :: 0 <= k < |h| ==> !h[k]
  {
    if |h| == 0 then None
    else
      var r := FirstTrue(h[..|h| - 1]);
      if r.Some? then r else if h[|h| - 1] then Some(|h| - 1) else None
  }

  /** firstCrossing. */
  method FirstCrossing(q: seq<Number>, th: Threshold) returns (r: Option<nat>)
    ensures r == FirstTrue(Hits(th, q))
  {
    for i := 0 to |q|
      invariant forall k :: 0 <= k < i ==> !Hits(th, q)[k]
    {
      if q[i].Some? && Crosses(th, q[i].value) {
        assert Hits(th, q)[i];
        return Some(i);
      }
    }
    return None;
  }

  /** The last step with a number. */
  function LastIndex(q: seq<Number>): (r: Option<nat>)
    ensures r.Some? ==> r.value < |q| && q[r.value].Some? && forall k :: r.value < k < |q| ==> q[k].None?
    ensures r.None? ==> forall k :: 0 <= k < |q| ==> q[k].None?
  {
    if |q| == 0 then None else if q[|q| - 1].Some? then Some(|q| - 1) else LastIndex(q[..|q| - 1])
  }

  function FirstIndex(q: seq<Number>): (r: Option<nat>)
    ensures r.Some? ==> r.value < |q| && q[r.value].Some? && forall k :: 0 <= k < r.value ==> q[k].None?
    ensures r.None? ==> forall k :: 0 <= k < |q| ==> q[k].None?
  {
    if |q| == 0 then None
    else
      var r := FirstIndex(q[..|q| - 1]);
      if r.Some? then r else if q[|q| - 1].Some? then Some(|q| - 1) else None
  }

  /** A straight line: through value `b` at step `ib`, rising by `slope` a step. */
  datatype Line = Line(b: real, ib: nat, slope: real)

  /** The median's line, from its first number to its last. */
  function MedianLine(q: seq<Number>): Option<Line> {
    var ia, ib := FirstIndex(q), LastIndex(q);
    if ia.None? || ib.None? || ib.value <= ia.value then None
    else
      var a, b := q[ia.value].value, q[ib.value].value;
      Some(Line(b, ib.value, (b - a) / (ib.value - ia.value) as real))
  }

  /** A number of nanoseconds as a duration; one that does not fit becomes whatever the
      processor makes of it. */
  function ToDuration(x: real, overflow: int): int {
    if 0.0 <= x < MAX_DURATION as real then x.Floor else overflow
  }

  /** How long the line takes to reach the limit. */
  function Reach(line: Line, limit: real, step: int): real
    requires line.slope != 0.0
  {
    (limit - line.b) / line.slope * step as real
  }

  /** extrapolate. */
  function Extrapolate(f: Forecast, limit: real, overflow: int): Option<int> {
    if |f.q50| < 2 || f.step <= 0 then None
    else
      var line := MedianLine(f.q50);
      if line.None? || line.value.slope == 0.0 || (limit - line.value.b) / line.value.slope <= 0.0 then None
      else
        var d := ToDuration(Reach(line.value, limit, f.step), overflow);
        if d > MAX_EXTRAPOLATION then None else Some(f.start + line.value.ib * f.step + d)
  }

  /** The scan of extrapolate for the median's first and last numbers. */
  method ScanMedian(q: seq<Number>) returns (line: Option<Line>)
    ensures line == MedianLine(q)
  {
    var a: Number, b: Number := None, None;
    var ia, ib := 0, 0;
    for i := 0 to |q|
      invariant a.None? <==> FirstIndex(q[..i]).None?
      invariant b.None? <==> LastIndex(q[..i]).None?
      invariant a.Some? ==> 0 <= ia < i && FirstIndex(q[..i]) == Some(ia) && q[ia] == a
      invariant b.Some? ==> 0 <= ib < i && LastIndex(q[..i]) == Some(ib) && q[ib] == b
    {
      assert q[..i + 1][..i] == q[..i];
      if q[i].None? {
        continue;
      }
      if a.None? {
        a, ia := q[i], i;
      }
      b, ib := q[i], i;
    }
    assert q[..|q|] == q;
    if a.None? || b.None? || ib <= ia {
      return None;
    }
    return Some(Line(b.value, ib, (b.value - a.value) / (ib - ia) as real));
  }

  function Optimistic(f: Forecast, th: Threshold): seq<Number> { if Above(th.rule) then f.q10 else f.q90 }
  function Pessimistic(f: Forecast, th: Threshold): seq<Number> { if Above(th.rule) then f.q90 else f.q10 }

  function First(q: seq<Number>, th: Threshold): Option<nat> { FirstTrue(Hits(th, q)) }

  /** risk. */
  function RiskOf(f: Forecast, kind: Kind, last: Number, th: Threshold, overflow: int): Option<Risk> {
    if !Applies(th, kind, last) then None
    else if First(Optimistic(f, th), th).Some? then
      Some(Risk(AlmostCertain, f.start + First(Optimistic(f, th), th).value * f.step))
    else if First(f.q50, th).Some? then Some(Risk(Likely, f.start + First(f.q50, th).value * f.step))
    else if First(Pessimistic(f, th), th).Some? then
      Some(Risk(Possible, f.start + First(Pessimistic(f, th), th).value * f.step))
    else if kind == Degradation && !IsStateRule(th.rule) then
      var t := Extrapolate(f, th.value, overflow);
      if t.Some? then Some(Risk(Trend, t.value)) else None
    else None
  }

  // --------------------------------------------------------------- the band

  ghost predicate NoLater(a: Option<nat>, b: Option<nat>) { b.Some? ==> a.Some? && a.value <= b.value }

  lemma FirstIsMonotone(h: seq<bool>, h': seq<bool>)
    requires |h| == |h'| && forall i :: 0 <= i < |h| && h'[i] ==> h[i]
    ensures NoLater(FirstTrue(h), FirstTrue(h'))
  {
  }

  /** With quantiles in order the pessimistic edge crosses first, then the median, then
      the optimistic edge. */
  lemma EdgesCrossInOrder(f: Forecast, th: Threshold)
    requires InOrderEverywhere(f)
    ensures NoLater(First(Pessimistic(f, th), th), First(f.q50, th))
    ensures NoLater(First(f.q50, th), First(Optimistic(f, th), th))
  {
    InOrderIsUnder(f);
    var p, m, o := Hits(th, Pessimistic(f, th)), Hits(th, f.q50), Hits(th, Optimistic(f, th));
    forall i | 0 <= i < |m|
      ensures (m[i] ==> p[i]) && (o[i] ==> m[i])
    {
      assert (f.q10[i].Some? <==> f.q50[i].Some?) && (f.q50[i].Some? <==> f.q90[i].Some?);
      assert !Exceeds(f.q10[i], f.q50[i]) && !Exceeds(f.q50[i], f.q90[i]);
    }
    FirstIsMonotone(p, m);
    FirstIsMonotone(m, o);
  }

  /** Step i is the first where q crosses. */
  ghost predicate CrossesFirst(q: seq<Number>, th: Threshold, i: nat) {
    && i < |q| && q[i].Some? && Crosses(th, q[i].value)
    && forall k :: 0 <= k < i && q[k].Some? ==> !Crosses(th, q[k].value)
  }

  ghost predicate NeverCrosses(q: seq<Number>, th: Threshold) {
    forall k :: 0 <= k < |q| && q[k].Some? ==> !Crosses(th, q[k].value)
  }

  lemma FirstIsFirst(q: seq<Number>, th: Threshold)
    ensures First(q, th).Some? ==> CrossesFirst(q, th, First(q, th).value)
    ensures First(q, th).None? ==> NeverCrosses(q, th)
  {
    assert forall k :: 0 <= k < |q| ==> Hits(th, q)[k] == (q[k].Some? && Crosses(th, q[k].value));
  }

  /** What a reported risk says about the band: which edge first crosses when, and that no
      more certain one ever does. */
  ghost predicate Means(f: Forecast, th: Threshold, r: Option<Risk>, overflow: int) {
    match r
    case Some(Risk(AlmostCertain, at)) =>
      exists i: nat :: CrossesFirst(Optimistic(f, th), th, i) && at == f.start + i * f.step
    case Some(Risk(Likely, at)) =>
      NeverCrosses(Optimistic(f, th), th) && exists i: nat :: CrossesFirst(f.q50, th, i) && at == f.start + i * f.step
    case Some(Risk(Possible, at)) =>
      && NeverCrosses(Optimistic(f, th), th) && NeverCrosses(f.q50, th)
      && exists i: nat :: CrossesFirst(Pessimistic(f, th), th, i) && at == f.start + i * f.step
    case Some(Risk(Trend, at)) => NeverCrosses(f.q10, th) && NeverCrosses(f.q50, th) && NeverCrosses(f.q90, th)
                                  && Extrapolate(f, th.value, overflow) == Some(at)
    case None => NeverCrosses(f.q10, th) && NeverCrosses(f.q50, th) && NeverCrosses(f.q90, th)
  }

  lemma RiskMeans(f: Forecast, kind: Kind, last: Number, th: Threshold, overflow: int)
    requires Applies(th, kind, last)
    ensures Means(f, th, RiskOf(f, kind, last, th, overflow), overflow)
  {
    FirstIsFirst(Optimistic(f, th), th);
    FirstIsFirst(f.q50, th);
    FirstIsFirst(Pessimistic(f, th), th);
  }

  // ------------------------------------------------------------ the drift

  /** The line's value at a time. */
  function On(line: Line, f: Forecast, t: int): real
    requires f.step > 0
  {
    line.b + line.slope * ((t - (f.start + line.ib * f.step)) as real / f.step as real)
  }

  /** Whichever way the line goes, it is at the limit within the tick after t. */
  ghost predicate Meets(line: Line, f: Forecast, t: int, limit: real)
    requires f.step > 0
  {
    On(line, f, t) <= limit < On(line, f, t + 1) || On(line, f, t + 1) < limit <= On(line, f, t)
  }

  /** The line is at the limit between d and d + 1 exactly when that is how long it takes. */
  lemma OnTheLineIff(slope: real, gap: real, step: real, d: real)
    requires slope != 0.0 && step > 0.0
    ensures (slope * (d / step) <= gap < slope * ((d + 1.0) / step))
            || (slope * ((d + 1.0) / step) < gap <= slope * (d / step))
      <==> d <= gap / slope * step < d + 1.0
  {
    Quotients(d, gap / slope, step);
    Quotients(d + 1.0, gap / slope, step);
    assert d / step < (d + 1.0) / step by { Quotients(d, (d + 1.0) / step, step); }
    BetweenIff(slope, gap, gap / slope, d / step, (d + 1.0) / step);
  }

  lemma Quotients(a: real, x: real, s: real)
    requires s > 0.0
    ensures (a / s <= x <==> a <= x * s) && (a / s < x <==> a < x * s)
  {
    Cancelled(s, x, a / s);
    Cancelled(s, a / s, x);
    assert a / s * s == a;
  }

  lemma BetweenIff(slope: real, gap: real, x: real, y: real, z: real)
    requires slope != 0.0 && slope * x == gap && y < z
    ensures (slope * y <= gap < slope * z) || (slope * z < gap <= slope * y) <==> y <= x < z
  {
    if slope > 0.0 {
      Ordered3(slope, x, y, z);
    } else {
      Ordered3(-slope, x, y, z);
      assert slope * y == -(-slope * y) && slope * z == -(-slope * z) && gap == -(-slope * x);
    }
  }

  lemma Ordered3(k: real, x: real, y: real, z: real)
    requires k > 0.0 && y < z
    ensures k * y < k * z && (x < y <==> k * x < k * y) && (x < z <==> k * x < k * z)
  {
    Cancelled(k, y, z);
    Cancelled(k, x, y);
    Cancelled(k, x, z);
  }

  lemma Cancelled(k: real, x: real, y: real)
    requires k > 0.0
    ensures x < y <==> x * k < y * k
  {
  }

  lemma Scaled(k: real, x: real, y: real)
    requires k >= 0.0 && x <= y
    ensures k * x <= k * y
  {
  }

  lemma Scaled'(k: real, x: real, y: real)
    requires k > 0.0 && x < y
    ensures k * x < k * y
  {
  }

  /** The reported time is on the median's line at the limit, no sooner than its last step and
      no later than a year after it. */
  ghost predicate IsRight(f: Forecast, limit: real, t: int)
    requires f.step > 0 && MedianLine(f.q50).Some?
  {
    var line := MedianLine(f.q50).value;
    var from := f.start + line.ib * f.step;
    Meets(line, f, t, limit) && from <= t <= from + MAX_EXTRAPOLATION
  }

  lemma MeetsIff(line: Line, f: Forecast, limit: real, d: int)
    requires f.step > 0 && line.slope != 0.0
    ensures Meets(line, f, f.start + line.ib * f.step + d, limit)
      <==> d as real <= Reach(line, limit, f.step) < d as real + 1.0
  {
    var t := f.start + line.ib * f.step + d;
    assert t - (f.start + line.ib * f.step) == d && t + 1 - (f.start + line.ib * f.step) == d + 1;
    assert (d + 1) as real == d as real + 1.0;
    OnTheLineIff(line.slope, limit - line.b, f.step as real, d as real);
  }

  /** A drift that is reported is reported rightly if and only if the time it takes fits a
      duration: one that does not fit becomes whatever number the processor makes of it. */
  lemma DriftIsRightIff(f: Forecast, limit: real, overflow: int)
    requires Extrapolate(f, limit, overflow).Some?
    ensures IsRight(f, limit, Extrapolate(f, limit, overflow).value)
      <==> Reach(MedianLine(f.q50).value, limit, f.step) < MAX_DURATION as real
  {
    var line := MedianLine(f.q50).value;
    var x := Reach(line, limit, f.step);
    ReachIsPositive((limit - line.b) / line.slope, f.step as real);
    MeetsIff(line, f, limit, ToDuration(x, overflow));
  }

  lemma ReachIsPositive(x: real, step: real)
    requires x > 0.0 && step > 0.0
    ensures x * step > 0.0
  {
  }

  // ------------------------------------------------------ raising a limit

  function Rank(r: Option<Risk>): int {
    match r
    case None => 0
    case Some(Risk(Trend, _)) => 1
    case Some(Risk(Possible, _)) => 2
    case Some(Risk(Likely, _)) => 3
    case Some(Risk(AlmostCertain, _)) => 4
  }

  /** r' is no likelier than r, and no earlier at the same likelihood. */
  ghost predicate NoWorse(r': Option<Risk>, r: Option<Risk>) {
    Rank(r') <= Rank(r) && (r.Some? && r'.Some? && Rank(r') == Rank(r) ==> r.value.at <= r'.value.at)
  }

  predicate IsHigh(rule: RuleType) { rule in {High, HighHigh} }

  /** No quantile is anywhere above the limit. */
  predicate Clear(f: Forecast, th: Threshold) {
    First(f.q10, th).None? && First(f.q50, th).None? && First(f.q90, th).None?
  }

  lemma HigherIsHitLess(q: seq<Number>, th: Threshold, th': Threshold)
    requires IsHigh(th.rule) && th'.rule == th.rule && th.value <= th'.value
    ensures NoLater(First(q, th), First(q, th'))
  {
    FirstIsMonotone(Hits(th, q), Hits(th', q));
  }

  lemma LaterStep(f: Forecast, i: nat, j: nat)
    requires i <= j && f.step >= 0
    ensures f.start + i * f.step <= f.start + j * f.step
  {
  }

  /** A drift over a gap, at a slope per step, takes no more than a year; or so long that the time
      does not fit a duration. Neither divides. */
  predicate Soon(gap: real, slope: real, step: int) { gap * step as real < (MAX_EXTRAPOLATION + 1) as real * slope }
  predicate TooLong(gap: real, slope: real, step: int) { gap * step as real >= MAX_DURATION as real * slope }

  /** A rising drift is reported: it has some way to go, and takes no more than a year or is
      taken for one that does. */
  predicate IsFollowed(gap: real, slope: real, step: int, overflow: int) {
    gap > 0.0 && (Soon(gap, slope, step) || (TooLong(gap, slope, step) && overflow <= MAX_EXTRAPOLATION))
  }

  /** Of two gaps, the wider one alone is reported; or both are, and the number made of the wider
      one's time is less than the narrower one's time. */
  predicate WiderIsWorse(gap: real, gap': real, slope: real, step: int, overflow: int) {
    || (IsFollowed(gap', slope, step, overflow) && !IsFollowed(gap, slope, step, overflow))
    || (IsFollowed(gap, slope, step, overflow) && IsFollowed(gap', slope, step, overflow)
        && TooLong(gap', slope, step) && !TooLong(gap, slope, step)
        && gap * step as real >= (overflow + 1) as real * slope)
  }

  /** The median rises, and the drift to the higher limit is worse than to the lower one. */
  predicate DriftGetsWorse(f: Forecast, limit: real, limit': real, overflow: int) {
    && |f.q50| >= 2 && f.step > 0 && MedianLine(f.q50).Some? && MedianLine(f.q50).value.slope > 0.0
    && WiderIsWorse(limit - MedianLine(f.q50).value.b, limit' - MedianLine(f.q50).value.b,
                    MedianLine(f.q50).value.slope, f.step, overflow)
  }

  /** Comparing the time a gap takes without dividing. */
  lemma TimeTo(gap: real, slope: real, step: real, bound: real)
    requires slope > 0.0
    ensures gap / slope * step < bound <==> gap * step < bound * slope
  {
    var x := gap / slope;
    assert x * slope == gap;
    Cancelled(slope, x * step, bound);
    assert x * step * slope == x * slope * step;
  }

  lemma PositiveGap(gap: real, slope: real)
    requires slope > 0.0
    ensures gap / slope > 0.0 <==> gap > 0.0
  {
    Quotients(gap, 0.0, slope);
  }

  /** When a rising drift is reported, and with what time. */
  lemma RisingDrift(f: Forecast, limit: real, overflow: int, line: Line)
    requires |f.q50| >= 2 && f.step > 0 && MedianLine(f.q50) == Some(line) && line.slope > 0.0
    ensures var gap := limit - line.b;
            && (Extrapolate(f, limit, overflow).Some? <==> IsFollowed(gap, line.slope, f.step, overflow))
            && (IsFollowed(gap, line.slope, f.step, overflow) ==>
                  Extrapolate(f, limit, overflow).value == f.start + line.ib * f.step
                    + if TooLong(gap, line.slope, f.step) then overflow else Reach(line, limit, f.step).Floor)
  {
    var gap, x := limit - line.b, Reach(line, limit, f.step);
    PositiveGap(gap, line.slope);
    TimeTo(gap, line.slope, f.step as real, (MAX_EXTRAPOLATION + 1) as real);
    TimeTo(gap, line.slope, f.step as real, MAX_DURATION as real);
    if gap > 0.0 {
      ReachIsPositive(gap / line.slope, f.step as real);
      FloorBelow(x, MAX_EXTRAPOLATION + 1);
    }
  }

  lemma FloorBelow(x: real, n: int)
    ensures x.Floor < n <==> x < n as real
  {
  }

  lemma NoRiseNoDrift(f: Forecast, th: Threshold, overflow: int)
    requires IsHigh(th.rule) && First(f.q50, th).None?
    requires !(|f.q50| >= 2 && f.step > 0 && MedianLine(f.q50).Some? && MedianLine(f.q50).value.slope > 0.0)
    ensures Extrapolate(f, th.value, overflow).None?
  {
    if MedianLine(f.q50).Some? {
      var line := MedianLine(f.q50).value;
      assert !Hits(th, f.q50)[line.ib];
      if line.slope < 0.0 {
        FallingNeverReaches(line, th.value);
      }
    }
  }

  lemma FallingNeverReaches(line: Line, limit: real)
    requires line.b <= limit && line.slope < 0.0
    ensures (limit - line.b) / line.slope <= 0.0
  {
    var x := (limit - line.b) / line.slope;
    assert x * line.slope == limit - line.b;
    if x > 0.0 {
      Scaled'(x, line.slope, 0.0);
    }
  }

  lemma FloorIsMonotone(x: real, y: real)
    requires x <= y
    ensures x.Floor <= y.Floor
  {
  }

  /** The higher limit is reached no sooner. */
  lemma WiderTakesLonger(gap: real, gap': real, slope: real, step: real)
    requires slope > 0.0 && step > 0.0 && gap <= gap'
    ensures gap / slope * step <= gap' / slope * step
  {
    var x, x' := gap / slope, gap' / slope;
    assert x * slope == gap && x' * slope == gap';
    Cancelled(slope, x', x);
    Scaled(step, x, x');
  }

  lemma ReachGrows(line: Line, limit: real, limit': real, step: int)
    requires line.slope > 0.0 && step > 0 && limit <= limit'
    ensures Reach(line, limit, step) <= Reach(line, limit', step)
  {
    WiderTakesLonger(limit - line.b, limit' - line.b, line.slope, step as real);
  }

  /** What is reported of a drift that takes x: whether, and when. */
  ghost predicate Reported(r: Option<int>, x: real, followed: bool, late: bool, base: int, overflow: int) {
    && (r.Some? <==> followed) && (late <==> x >= MAX_DURATION as real)
    && (followed ==> r.value == base + if late then overflow else x.Floor)
  }

  lemma RisingDriftReported(f: Forecast, limit: real, overflow: int, line: Line)
    requires |f.q50| >= 2 && f.step > 0 && MedianLine(f.q50) == Some(line) && line.slope > 0.0
    ensures ReportedTo(Extrapolate(f, limit, overflow), line, limit, f.step, f.start + line.ib * f.step, overflow)
  {
    RisingDrift(f, limit, overflow, line);
    TimeTo(limit - line.b, line.slope, f.step as real, MAX_DURATION as real);
  }

  lemma LongerIsWorseIff(r: Option<int>, x: real, followed: bool, late: bool, r': Option<int>, x': real,
                         followed': bool, late': bool,
                         base: int, overflow: int)
    requires Reported(r, x, followed, late, base, overflow) && Reported(r', x', followed', late', base, overflow)
    requires x <= x'
    ensures (r'.Some? && r.None?) || (r.Some? && r'.Some? && r'.value < r.value)
      <==> (followed' && !followed) || (followed && followed' && late' && !late && x >= (overflow + 1) as real)
  {
    FloorIsMonotone(x, x');
    FloorBelow(x, overflow + 1);
  }

  /** The drift to a higher limit is no worse, or it is in the one way the numbers say. */
  lemma RisingDriftIsNoWorse(f: Forecast, limit: real, limit': real, overflow: int, line: Line)
    requires |f.q50| >= 2 && f.step > 0 && MedianLine(f.q50) == Some(line) && line.slope > 0.0 && limit <= limit'
    ensures var r, r' := Extrapolate(f, limit, overflow), Extrapolate(f, limit', overflow);
            ((r'.Some? && r.None?) || (r.Some? && r'.Some? && r'.value < r.value))
              <==> WiderIsWorse(limit - line.b, limit' - line.b, line.slope, f.step, overflow)
  {
    RisingDriftReported(f, limit, overflow, line);
    RisingDriftReported(f, limit', overflow, line);
    WiderIsWorseIff(line, limit, limit', f.step, overflow, f.start + line.ib * f.step,
                    Extrapolate(f, limit, overflow), Extrapolate(f, limit', overflow));
  }

  /** The drift to a limit is reported as its numbers say. */
  ghost predicate ReportedTo(r: Option<int>, line: Line, limit: real, step: int, base: int, overflow: int)
    requires line.slope != 0.0
  {
    Reported(r, Reach(line, limit, step), IsFollowed(limit - line.b, line.slope, step, overflow),
             TooLong(limit - line.b, line.slope, step), base, overflow)
  }

  lemma WiderIsWorseIff(line: Line, limit: real, limit': real, step: int, overflow: int, base: int, r: Option<int>,
                        r': Option<int>)
    requires line.slope > 0.0 && step > 0 && limit <= limit'
    ensures ReportedTo(r, line, limit, step, base, overflow) && ReportedTo(r', line, limit', step, base, overflow) ==>
      (((r'.Some? && r.None?) || (r.Some? && r'.Some? && r'.value < r.value))
       <==> WiderIsWorse(limit - line.b, limit' - line.b, line.slope, step, overflow))
  {
    var gap, gap', slope := limit - line.b, limit' - line.b, line.slope;
    if ReportedTo(r, line, limit, step, base, overflow) && ReportedTo(r', line, limit', step, base, overflow) {
      ReachGrows(line, limit, limit', step);
      TimeTo(gap, slope, step as real, (overflow + 1) as real);
      LongerIsWorseIff(r, Reach(line, limit, step), IsFollowed(gap, slope, step, overflow), TooLong(gap, slope, step),
                       r', Reach(line, limit', step), IsFollowed(gap', slope, step, overflow),
                       TooLong(gap', slope, step), base, overflow);
    }
  }

  /** Raising a high limit that is not tripped now never makes its alarm likelier, nor earlier at the
      same likelihood, if and only if it is not a drift that gets worse: one whose median ends at the
      lower limit or takes more than a year to it, or one whose time to the higher limit does not
      fit a duration. */
  lemma RaisingALimit(f: Forecast, kind: Kind, last: Number, th: Threshold, th': Threshold, overflow: int)
    requires IsHigh(th.rule) && th'.rule == th.rule && th.value <= th'.value && Applies(th, kind, last) && f.step >= 0
    ensures NoWorse(RiskOf(f, kind, last, th', overflow), RiskOf(f, kind, last, th, overflow)) <==>
            !(kind == Degradation && Clear(f, th) && DriftGetsWorse(f, th.value, th'.value, overflow))
  {
    HigherIsHitLess(f.q10, th, th');
    HigherIsHitLess(f.q50, th, th');
    HigherIsHitLess(f.q90, th, th');
    if !Clear(f, th) {
      StepsInTime(f, th, th');
    } else if kind == Degradation {
      if |f.q50| >= 2 && f.step > 0 && MedianLine(f.q50).Some? && MedianLine(f.q50).value.slope > 0.0 {
        RisingDriftIsNoWorse(f, th.value, th'.value, overflow, MedianLine(f.q50).value);
      } else {
        NoRiseNoDrift(f, th', overflow);
      }
    }
  }

  lemma StepsInTime(f: Forecast, th: Threshold, th': Threshold)
    requires f.step >= 0
    ensures forall q: seq<Number> ::
      First(q, th).Some? && First(q, th').Some? && First(q, th).value <= First(q, th').value ==>
              f.start + First(q, th).value * f.step <= f.start + First(q, th').value * f.step
  {
    forall q: seq<Number> | First(q, th).Some? && First(q, th').Some? && First(q, th).value <= First(q, th').value
      ensures f.start + First(q, th).value * f.step <= f.start + First(q, th').value * f.step
    {
      LaterStep(f, First(q, th).value, First(q, th').value);
    }
  }

  // --------------------------------------------------- where the drift goes wrong

  /** A forecast whose quantiles all climb from 0 to 1 in an hour. */
  const CLIMB: Forecast := Forecast(0, HOUR, [Some(0.0), Some(1.0)], [Some(0.0), Some(1.0)], [Some(0.0), Some(1.0)])

  lemma ClimbsByOne()
    ensures MedianLine(CLIMB.q50) == Some(Line(1.0, 1, 1.0))
  {
    var q := CLIMB.q50;
    assert q[..1] == [Some(0.0)] && q[..1][..0] == [];
    assert FirstIndex(q[..1][..0]) == None && FirstIndex(q[..1]) == Some(0);
  }

  /** Ten million to go at one an hour, on a processor that makes the least number of a duration
      that does not fit: the drift is reported centuries before the forecast begins. */
  lemma OverflowingDriftIsWrong()
    ensures Extrapolate(CLIMB, 10_000_001.0, -MAX_DURATION) == Some(HOUR - MAX_DURATION)
    ensures !IsRight(CLIMB, 10_000_001.0, HOUR - MAX_DURATION)
  {
    ClimbsByOne();
    DriftIsRightIff(CLIMB, 10_000_001.0, -MAX_DURATION);
  }

  /** The median ends at the lower limit, which it does not cross: no risk. Raised by one, the
      limit is an hour away. */
  lemma RaisedLimitDrifts(overflow: int)
    ensures RiskOf(CLIMB, Degradation, Some(0.0), Threshold(High, 1.0), overflow) == None
    ensures RiskOf(CLIMB, Degradation, Some(0.0), Threshold(High, 2.0), overflow) == Some(Risk(Trend, 2 * HOUR))
  {
    ClimbsByOne();
    NothingAbove(1.0);
    NothingAbove(2.0);
    assert Reach(Line(1.0, 1, 1.0), 2.0, HOUR) == HOUR as real;
  }

  lemma NothingAbove(limit: real)
    requires limit >= 1.0
    ensures First(CLIMB.q50, Threshold(High, limit)).None?
  {
  }
}
