/** Which risk a forecast has, in the numbers of its quantiles and of the rule. */
module ForecastLimits {
  import opened Options
  import opened ForecastSeries
  import opened ForecastShape
  import opened ForecastRisk

  // -------------------------------------------------------------- the rules

  /** The number a rule compares with: its threshold, or one half of the time. */
  function LimitOf(th: Threshold): real { if th.rule in {BoolTrue, BoolFalse} then 0.5 else th.value }

  /** The side of the limit where the alarm is. */
  predicate AlarmIsAbove(rule: RuleType) { rule == High || rule == HighHigh || rule == BoolTrue }

  predicate IsOut(x: Number, above: bool, limit: real) {
    x.Some? && if above then x.value > limit else x.value < limit
  }

  /** The rule speaks of this kind of signal, and is not tripped by the last value. */
  predicate IsInForce(th: Threshold, kind: Kind, last: Number) {
    match th.rule
    case High | HighHigh => last.None? || last.value <= th.value
    case Low | LowLow => last.None? || last.value >= th.value
    case BoolTrue => kind == State && last == Some(0.0)
    case BoolFalse => kind == State && (last.None? || last.value != 0.0)
    case OtherRule => false
  }

  lemma InForceIff(th: Threshold, kind: Kind, last: Number)
    ensures Applies(th, kind, last) <==> IsInForce(th, kind, last)
  {
  }

  lemma CrossesIff(th: Threshold, x: real)
    requires th.rule != OtherRule
    ensures Crosses(th, x) <==> IsOut(Some(x), AlarmIsAbove(th.rule), LimitOf(th))
  {
  }

  // --------------------------------------------------------------- the band

  /** Step i is the first that is out. */
  ghost predicate GoesOutAt(q: seq<Number>, above: bool, limit: real, i: nat) {
    i < |q| && IsOut(q[i], above, limit) && forall k :: 0 <= k < i ==> !IsOut(q[k], above, limit)
  }

  ghost predicate StaysIn(q: seq<Number>, above: bool, limit: real) {
    forall k :: 0 <= k < |q| ==> !IsOut(q[k], above, limit)
  }

  /** The time of the first step that is out. */
  ghost predicate GoesOut(f: Forecast, q: seq<Number>, above: bool, limit: real, at: int) {
    exists i: nat :: GoesOutAt(q, above, limit, i) && at == f.start + i * f.step
  }

  lemma FirstIsOut(q: seq<Number>, th: Threshold)
    requires th.rule != OtherRule
    ensures First(q, th).Some? ==> GoesOutAt(q, AlarmIsAbove(th.rule), LimitOf(th), First(q, th).value)
    ensures First(q, th).None? ==> StaysIn(q, AlarmIsAbove(th.rule), LimitOf(th))
  {
    forall k | 0 <= k < |q|
      ensures Hits(th, q)[k] == IsOut(q[k], AlarmIsAbove(th.rule), LimitOf(th))
    {
      if q[k].Some? {
        CrossesIff(th, q[k].value);
      }
    }
  }

  lemma GoesOutOnce(q: seq<Number>, above: bool, limit: real, i: nat, j: nat)
    requires GoesOutAt(q, above, limit, i) && GoesOutAt(q, above, limit, j)
    ensures i == j
  {
  }

  lemma FirstOnce(f: Forecast, q: seq<Number>, th: Threshold, at: int)
    requires th.rule != OtherRule
    ensures var above, limit := AlarmIsAbove(th.rule), LimitOf(th);
            && (StaysIn(q, above, limit) <==> First(q, th).None?)
            && (GoesOut(f, q, above, limit, at) <==>
                  First(q, th).Some? && at == f.start + First(q, th).value * f.step)
  {
    var above, limit := AlarmIsAbove(th.rule), LimitOf(th);
    FirstIsOut(q, th);
    if i: nat :| GoesOutAt(q, above, limit, i) && at == f.start + i * f.step {
      assert !StaysIn(q, above, limit);
      GoesOutOnce(q, above, limit, i, First(q, th).value);
    }
  }

  // -------------------------------------------------------------- the drift

  predicate IsFirstNumber(q: seq<Number>, i: nat) {
    i < |q| && q[i].Some? && forall k :: 0 <= k < i ==> q[k].None?
  }

  predicate IsLastNumber(q: seq<Number>, i: nat) {
    i < |q| && q[i].Some? && forall k :: i < k < |q| ==> q[k].None?
  }

  /** A drift from a to b in n steps goes on to the limit. */
  predicate HeadsFor(a: real, b: real, limit: real) { (b > a && limit > b) || (b < a && limit < b) }

  /** How long it takes, in nanoseconds. */
  function TimeToGo(a: real, b: real, n: int, limit: real, step: int): real
    requires b != a
  {
    (limit - b) * n as real * step as real / (b - a)
  }

  /** Whole nanoseconds; and what the processor makes of 2^63 or more of them. */
  predicate IsWhole(x: real, d: int, overflow: int) {
    if x >= 9_223_372_036_854_775_808.0 then d == overflow else d as real <= x < (d + 1) as real
  }

  /** The median drifts from its first number, at i, to its last, at j, and on to the limit: within 365 days. */
  predicate DriftsTo(f: Forecast, i: nat, j: nat, limit: real, t: int, overflow: int) {
    && f.step > 0 && i < j && IsFirstNumber(f.q50, i) && IsLastNumber(f.q50, j)
    && HeadsFor(f.q50[i].value, f.q50[j].value, limit)
    && var d := t - (f.start + j * f.step);
       && d <= 31_536_000_000_000_000
       && IsWhole(TimeToGo(f.q50[i].value, f.q50[j].value, j - i, limit, f.step), d, overflow)
  }

  ghost predicate Drifts(f: Forecast, limit: real, t: int, overflow: int) {
    exists i: nat, j: nat :: DriftsTo(f, i, j, limit, t, overflow)
  }

  lemma SlopeHeads(a: real, b: real, n: real, limit: real)
    requires n > 0.0 && a != b
    ensures (b - a) / n != 0.0 && ((limit - b) / ((b - a) / n) > 0.0 <==> HeadsFor(a, b, limit))
  {
    var k := (b - a) / n;
    assert k * n == b - a;
    var y := (limit - b) / k;
    assert y * k == limit - b;
    SameSign(k, n, b - a);
    SameSign(y, k, limit - b);
  }

  lemma SameSign(y: real, k: real, p: real)
    requires y * k == p && k != 0.0
    ensures p == 0.0 <==> y == 0.0
    ensures k > 0.0 ==> (y > 0.0 <==> p > 0.0)
    ensures k < 0.0 ==> (y > 0.0 <==> p < 0.0)
  {
  }

  lemma SlopeTime(a: real, b: real, n: int, limit: real, step: int)
    requires n > 0 && a != b && (b - a) / n as real != 0.0
    ensures (limit - b) / ((b - a) / n as real) * step as real == TimeToGo(a, b, n, limit, step)
  {
    var k, s := (b - a) / n as real, step as real;
    assert k * n as real == b - a;
    var y := (limit - b) / k;
    assert y * k == limit - b;
    Regrouped(y, k, n as real, s, limit - b, b - a);
    assert y * s == (limit - b) * n as real * s / (b - a);
  }

  lemma Regrouped(y: real, k: real, n: real, s: real, gap: real, rise: real)
    requires y * k == gap && k * n == rise
    ensures y * s * rise == gap * n * s
  {
    assert y * s * (k * n) == (y * k) * n * s;
  }

  lemma LineIs(f: Forecast)
    ensures MedianLine(f.q50).Some? <==> exists i: nat, j: nat :: i < j && AreEnds(f.q50, i, j)
    ensures MedianLine(f.q50).Some? ==> exists i: nat :: IsLineFrom(f.q50, i, MedianLine(f.q50).value)
  {
    var q := f.q50;
    var first, last := FirstIndex(q), LastIndex(q);
    if MedianLine(q).Some? {
      assert AreEnds(q, first.value, last.value);
      assert IsLineFrom(q, first.value, MedianLine(q).value);
    }
    if i: nat, j: nat :| i < j && AreEnds(q, i, j) {
      assert first == Some(i) && last == Some(j);
    }
  }

  predicate AreEnds(q: seq<Number>, i: nat, j: nat) { IsFirstNumber(q, i) && IsLastNumber(q, j) }

  predicate IsLineFrom(q: seq<Number>, i: nat, line: Line) {
    && i < line.ib && AreEnds(q, i, line.ib) && line.b == q[line.ib].value
    && line.slope == (q[line.ib].value - q[i].value) / (line.ib - i) as real
  }

  lemma EndsOnce(q: seq<Number>, i: nat, j: nat, i': nat, j': nat)
    requires AreEnds(q, i, j) && AreEnds(q, i', j')
    ensures i == i' && j == j'
  {
  }

  lemma ToDurationIsWhole(x: real, overflow: int, d: int)
    requires x > 0.0
    ensures ToDuration(x, overflow) == d <==> IsWhole(x, d, overflow)
  {
  }

  /** On the median's line, the drift is followed exactly to where it heads. */
  lemma LineDriftIff(f: Forecast, i: nat, line: Line, limit: real, t: int, overflow: int)
    requires MedianLine(f.q50) == Some(line) && IsLineFrom(f.q50, i, line)
    ensures Extrapolate(f, limit, overflow) == Some(t) <==> DriftsTo(f, i, line.ib, limit, t, overflow)
  {
    var a, b, n := f.q50[i].value, line.b, line.ib - i;
    if f.step > 0 && a != b {
      SlopeHeads(a, b, n as real, limit);
      SlopeTime(a, b, n, limit, f.step);
      if HeadsFor(a, b, limit) {
        ReachIsPositive((limit - b) / line.slope, f.step as real);
        ToDurationIsWhole(Reach(line, limit, f.step), overflow, t - (f.start + line.ib * f.step));
      }
    }
  }

  /** A drift is reported exactly where it goes, or where the processor puts it. */
  lemma DriftIff(f: Forecast, limit: real, t: int, overflow: int)
    ensures Extrapolate(f, limit, overflow) == Some(t) <==> Drifts(f, limit, t, overflow)
  {
    LineIs(f);
    if MedianLine(f.q50).Some? {
      var line := MedianLine(f.q50).value;
      var i: nat :| IsLineFrom(f.q50, i, line);
      LineDriftIff(f, i, line, limit, t, overflow);
      if Drifts(f, limit, t, overflow) {
        var i': nat, j': nat :| DriftsTo(f, i', j', limit, t, overflow);
        EndsOnce(f.q50, i, line.ib, i', j');
      }
    } else if Drifts(f, limit, t, overflow) {
      var i': nat, j': nat :| DriftsTo(f, i', j', limit, t, overflow);
      assert AreEnds(f.q50, i', j');
    }
  }

  // --------------------------------------------------------------- the risk

  /** The risk of a rule in force. The tenth percentile being above a limit, or the ninetieth below it, is almost
      certain; the median out is likely; the other edge out is possible; and a degradation that heads for the
      limit of a measured value is a trend. */
  ghost predicate IsRisk(f: Forecast, th: Threshold, kind: Kind, overflow: int, r: Option<Risk>) {
    var above, limit := AlarmIsAbove(th.rule), LimitOf(th);
    var sure, far := if above then f.q10 else f.q90, if above then f.q90 else f.q10;
    var followed := kind == Degradation && th.rule != BoolTrue && th.rule != BoolFalse;
    match r
    case Some(Risk(AlmostCertain, at)) => GoesOut(f, sure, above, limit, at)
    case Some(Risk(Likely, at)) => StaysIn(sure, above, limit) && GoesOut(f, f.q50, above, limit, at)
    case Some(Risk(Possible, at)) =>
      StaysIn(sure, above, limit) && StaysIn(f.q50, above, limit) && GoesOut(f, far, above, limit, at)
    case Some(Risk(Trend, at)) =>
      && StaysIn(sure, above, limit) && StaysIn(f.q50, above, limit) && StaysIn(far, above, limit)
      && followed && Drifts(f, limit, at, overflow)
    case None =>
      && StaysIn(sure, above, limit) && StaysIn(f.q50, above, limit) && StaysIn(far, above, limit)
      && !(followed && exists t :: Drifts(f, limit, t, overflow))
  }

  /** The drift's part of the risk. */
  lemma DriftOf(f: Forecast, limit: real, overflow: int)
    ensures var d := Extrapolate(f, limit, overflow);
            && (d.None? <==> forall t :: !Drifts(f, limit, t, overflow))
            && forall t :: Drifts(f, limit, t, overflow) <==> d == Some(t)
  {
    forall t
      ensures Drifts(f, limit, t, overflow) <==> Extrapolate(f, limit, overflow) == Some(t)
    {
      DriftIff(f, limit, t, overflow);
    }
  }

  /** The three edges, and the drift where one is followed, decide. */
  lemma EdgesDecide(f: Forecast, kind: Kind, last: Number, th: Threshold, overflow: int, r: Option<Risk>)
    requires Applies(th, kind, last) && th.rule != OtherRule
    ensures RiskOf(f, kind, last, th, overflow) == r <==> IsRisk(f, th, kind, overflow, r)
  {
    var at := if r.Some? then r.value.at else 0;
    FirstOnce(f, Optimistic(f, th), th, at);
    FirstOnce(f, f.q50, th, at);
    FirstOnce(f, Pessimistic(f, th), th, at);
    if kind == Degradation && !IsStateRule(th.rule) {
      DriftOf(f, th.value, overflow);
    }
  }

  /** A rule not in force has no risk, and one in force has exactly the risk its numbers say. */
  lemma RiskIff(f: Forecast, kind: Kind, last: Number, th: Threshold, overflow: int, r: Option<Risk>)
    ensures RiskOf(f, kind, last, th, overflow) == r <==>
            if IsInForce(th, kind, last) then IsRisk(f, th, kind, overflow, r) else r == None
  {
    InForceIff(th, kind, last);
    if IsInForce(th, kind, last) {
      EdgesDecide(f, kind, last, th, overflow, r);
    }
  }
}
