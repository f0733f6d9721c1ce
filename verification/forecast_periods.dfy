/** Period totals: what a counter will have counted, or how long a state will have been on,
by the end of a shift, a day or a month. Within the horizon the forecast says; past it the
total follows the forecast's own average rate. */
module ForecastPeriods {
  import opened Options
  import opened ForecastSeries
  import opened ForecastShape

  const MAX_PERIOD_EXTRAPOLATION: int := 31 * 24 * HOUR

  datatype Total = Total(soFar: real, q10: real, q50: real, q90: real, extrapolated: bool)

  /** Steps needed to cover a time. */
  function Steps(d: int, step: int): (n: int)
    requires d > 0 && step > 0
    ensures n >= 1 && (n - 1) * step < d <= n * step
  {
    (d + step - 1) / step
  }

  function Max0(x: real): real { if x < 0.0 then 0.0 else x }

  /** counterRest. */
  function CounterRest(q: seq<Number>, last: Number, steps: int, d: int, step: int): Number
    requires |q| > 0 && steps >= 1 && step > 0
  {
    if last.None? then None
    else if steps <= |q| then
      if q[steps - 1].None? then None else Some(Max0(q[steps - 1].value - last.value))
    else if q[|q| - 1].None? then None
    else
      Some(Extrapolated(Max0(q[|q| - 1].value - last.value), |q| * step, d))
  }

  /** A gain over one time, followed at the same rate over another. */
  function Extrapolated(gain: real, over: int, d: int): real
    requires over > 0
  {
    gain / Hours(over) * Hours(d)
  }

  function Sum(q: seq<Number>): real {
    if |q| == 0 then 0.0 else Sum(q[..|q| - 1]) + if q[|q| - 1].Some? then Clamp01(q[|q| - 1]).value else 0.0
  }

  function Min(a: int, b: int): int { if a < b then a else b }

  /** A sum over n steps, followed at its average over more of them. */
  function Followed(sum: real, n: nat, more: nat): real
    requires n > 0
  {
    sum + sum / n as real * more as real
  }

  function InHours(steps: real, step: int): real { steps * Hours(step) }

  /** The share of time on added over the steps, in steps. */
  function StateSteps(q: seq<Number>, steps: int): Number
    requires steps >= 1
  {
    var seen := q[..Min(steps, |q|)];
    if ObservedIn(seen) == 0 then None
    else if steps > |q| then Some(Followed(Sum(seen), ObservedIn(seen), steps - |q|))
    else Some(Sum(seen))
  }

  function StateRest(q: seq<Number>, steps: int, step: int): Number
    requires steps >= 1
  {
    var s := StateSteps(q, steps);
    if s.None? then None else Some(InHours(s.value, step))
  }

  /** stateRest. */
  method StateRestLoop(q: seq<Number>, steps: int, step: int) returns (hours: Number)
    requires steps >= 1
    ensures hours == StateRest(q, steps, step)
  {
    var sum, n, i := 0.0, 0, 0;
    while i < steps && i < |q|
      invariant 0 <= i <= Min(steps, |q|)
      invariant sum == Sum(q[..i]) && n == ObservedIn(q[..i])
    {
      assert q[..i + 1][..i] == q[..i];
      if q[i].Some? {
        sum := sum + Clamp01(q[i]).value;
        n := n + 1;
      }
      i := i + 1;
    }
    ghost var seen := q[..Min(steps, |q|)];
    assert seen == q[..i];
    if n == 0 {
      return None;
    }
    if steps > |q| {
      sum := Followed(sum, n, steps - |q|);
    }
    assert StateSteps(q, steps) == Some(sum);
    return Some(InHours(sum, step));
  }

  function Rest(f: Forecast, kind: Kind, last: Number, q: seq<Number>, end: int): Number
    requires |q| > 0 && f.step > 0 && end > f.start
  {
    var steps := Steps(end - f.start, f.step);
    if kind == Counter then CounterRest(q, last, steps, end - f.start, f.step) else StateRest(q, steps, f.step)
  }

  /** A period that ends after the forecast starts and not too far past its horizon. */
  predicate InReach(f: Forecast, end: int) {
    |f.q50| > 0 && f.start < end <= f.start + |f.q50| * f.step + MAX_PERIOD_EXTRAPOLATION
  }

  /** ProjectTotal. */
  function ProjectTotal(f: Forecast, kind: Kind, last: Number, soFar: real, end: int): Option<Total>
    requires WellFormed(f) && f.step > 0
  {
    if kind !in {Counter, State} || !InReach(f, end) then None
    else
      var a, b, c := Rest(f, kind, last, f.q10, end), Rest(f, kind, last, f.q50, end), Rest(f, kind, last, f.q90, end);
      if a.None? || b.None? || c.None? then None
      else Some(Total(soFar, soFar + a.value, soFar + b.value, soFar + c.value, Steps(end - f.start, f.step) > |f.q50|))
  }

  // --------------------------------------------------------------- counters

  lemma ExtrapolatedGrows(gain: real, over: int, d: int, d': int)
    requires gain >= 0.0 && over > 0 && d <= d'
    ensures Extrapolated(gain, over, over) == gain
    ensures Extrapolated(gain, over, d) <= Extrapolated(gain, over, d')
  {
    var rate := gain / Hours(over);
    assert Hours(over) > 0.0;
    assert rate >= 0.0;
    assert Hours(d) <= Hours(d');
    Times(rate, Hours(d), Hours(d'));
    assert rate * Hours(over) == gain;
  }

  lemma Times(a: real, x: real, y: real)
    requires a >= 0.0 && x <= y
    ensures a * x <= a * y
  {
  }

  lemma ExtrapolatedOrders(gain: real, gain': real, over: int, d: int)
    requires 0.0 <= gain <= gain' && over > 0 && d >= 0
    ensures 0.0 <= Extrapolated(gain, over, d) <= Extrapolated(gain', over, d)
  {
    var h := Hours(over);
    assert h > 0.0;
    assert gain / h <= gain' / h;
    assert gain / h >= 0.0;
    Times(Hours(d), gain / h, gain' / h);
    Times(Hours(d), 0.0, gain / h);
  }

  lemma StepsGrow(d: int, d': int, step: int)
    requires 0 < d <= d' && step > 0
    ensures Steps(d, step) <= Steps(d', step)
  {
    if Steps(d', step) < Steps(d, step) {
      var n, n' := Steps(d, step), Steps(d', step);
      assert n' * step <= (n - 1) * step by {
        assert n' <= n - 1;
        TimesInt(step, n', n - 1);
      }
    }
  }

  lemma TimesInt(a: int, x: int, y: int)
    requires a >= 0 && x <= y
    ensures x * a <= y * a
  {
  }

  /** What a counter still adds never shrinks as the period's end moves later, across the
      switch to extrapolation as well. */
  lemma CounterRestGrows(q: seq<Number>, last: Number, d: int, d': int, step: int)
    requires |q| > 0 && AllKnown(q) && last.Some? && Rising(last, q) && 0 < d <= d' && step > 0
    ensures var r, r' := CounterRest(q, last, Steps(d, step), d, step), CounterRest(q, last, Steps(d', step), d', step);
            r.Some? && r'.Some? && 0.0 <= r.value <= r'.value
  {
    var n, n', l := Steps(d, step), Steps(d', step), |q|;
    StepsGrow(d, d', step);
    assert !Exceeds(last, q[l - 1]);
    var gain := q[l - 1].value - last.value;
    ExtrapolatedGrows(gain, l * step, l * step, l * step);
    if n' > l {
      TimesInt(step, l, n' - 1);
      ExtrapolatedGrows(gain, l * step, l * step, d');
      if n > l {
        TimesInt(step, l, n - 1);
        ExtrapolatedGrows(gain, l * step, d, d');
        ExtrapolatedGrows(gain, l * step, l * step, d);
      } else {
        assert n - 1 < l - 1 ==> !Exceeds(q[n - 1], q[l - 1]);
        assert !Exceeds(last, q[n - 1]);
      }
    } else {
      assert !Exceeds(last, q[n - 1]);
      assert n < n' ==> !Exceeds(q[n - 1], q[n' - 1]);
    }
  }

  lemma CounterRestOrders(lo: seq<Number>, hi: seq<Number>, last: Number, d: int, step: int)
    requires |lo| > 0 && Under(lo, hi) && AllKnown(lo) && last.Some? && Rising(last, lo) && Rising(last, hi) && 0 < d
    requires step > 0
    ensures var r, r' := CounterRest(lo, last, Steps(d, step), d, step), CounterRest(hi, last, Steps(d, step), d, step);
            r.Some? && r'.Some? && 0.0 <= r.value <= r'.value
  {
    var n, l := Steps(d, step), |lo|;
    if n > l {
      assert !Exceeds(last, lo[l - 1]) && !Exceeds(lo[l - 1], hi[l - 1]);
      assert hi[l - 1].Some?;
      ExtrapolatedOrders(lo[l - 1].value - last.value, hi[l - 1].value - last.value, l * step, d);
    } else {
      assert !Exceeds(last, lo[n - 1]) && !Exceeds(lo[n - 1], hi[n - 1]);
      assert hi[n - 1].Some?;
    }
  }

  ghost predicate InOrderFrom(t: Total) { t.soFar <= t.q10 <= t.q50 <= t.q90 }

  ghost predicate NoLess(t: Total, t': Total) { t.q10 <= t'.q10 && t.q50 <= t'.q50 && t.q90 <= t'.q90 }

  /** A complete shaped counter forecast has a total for every period in reach, in order and
      no less than what was counted. */
  lemma CounterTotal(f: Forecast, last: Number, soFar: real, end: int)
    requires Sound(f, Counter, last) && AllKnown(f.q50) && last.Some? && f.step > 0
    ensures ProjectTotal(f, Counter, last, soFar, end).Some? <==> InReach(f, end)
    ensures InReach(f, end) ==> InOrderFrom(ProjectTotal(f, Counter, last, soFar, end).value)
  {
    if InReach(f, end) {
      InOrderIsUnder(f);
      assert AllKnown(f.q10);
      CounterRestOrders(f.q10, f.q50, last, end - f.start, f.step);
      CounterRestOrders(f.q50, f.q90, last, end - f.start, f.step);
    }
  }

  /** And the later the period ends, the more it holds. */
  lemma CounterTotalGrows(f: Forecast, last: Number, soFar: real, end: int, end': int)
    requires Sound(f, Counter, last) && AllKnown(f.q50) && last.Some? && f.step > 0
    requires end <= end' && InReach(f, end) && InReach(f, end')
    ensures ProjectTotal(f, Counter, last, soFar, end).Some? && ProjectTotal(f, Counter, last, soFar, end').Some?
    ensures NoLess(ProjectTotal(f, Counter, last, soFar, end).value, ProjectTotal(f, Counter, last, soFar, end').value)
  {
    InOrderIsUnder(f);
    assert AllKnown(f.q10) && AllKnown(f.q90);
    CounterRestGrows(f.q10, last, end - f.start, end' - f.start, f.step);
    CounterRestGrows(f.q50, last, end - f.start, end' - f.start, f.step);
    CounterRestGrows(f.q90, last, end - f.start, end' - f.start, f.step);
  }

  lemma StepsOfWhole(n: int, step: int)
    requires n >= 1 && step > 0
    ensures n * step > 0 && Steps(n * step, step) == n
  {
    TimesInt(step, 1, n);
    var m := Steps(n * step, step);
    if m < n {
      TimesInt(step, m, n - 1);
    } else if m > n {
      TimesInt(step, n, m - 1);
    }
  }

  /** A period that ends with a forecast step holds what was counted and what that step says
      is still to come. */
  lemma CounterTotalAtStep(f: Forecast, last: Number, soFar: real, n: nat)
    requires Sound(f, Counter, last) && AllKnown(f.q50) && last.Some? && f.step > 0 && 1 <= n <= |f.q50|
    ensures WellFormed(f) && f.q10[n - 1].Some? && f.q50[n - 1].Some? && f.q90[n - 1].Some?
    ensures ProjectTotal(f, Counter, last, soFar, f.start + n * f.step)
         == Some(Total(soFar, soFar + (f.q10[n - 1].value - last.value), soFar + (f.q50[n - 1].value - last.value),
                       soFar + (f.q90[n - 1].value - last.value), false))
  {
    StepsOfWhole(n, f.step);
    TimesInt(f.step, n, |f.q50|);
    assert Empty(At(f, n - 1)) || Ordered(At(f, n - 1));
    assert !Exceeds(last, f.q10[n - 1]) && !Exceeds(last, f.q50[n - 1]) && !Exceeds(last, f.q90[n - 1]);
  }

  /** Past the end of the forecast what is still to come is in proportion to the time. */
  lemma CounterRestIsProportional(q: seq<Number>, last: Number, d: int, step: int)
    requires |q| > 0 && AllKnown(q) && last.Some? && Rising(last, q) && step > 0 && d > |q| * step
    ensures d > 0
    ensures var r := CounterRest(q, last, Steps(d, step), d, step);
            r.Some? && r.value * Hours(|q| * step) == (q[|q| - 1].value - last.value) * Hours(d)
  {
    var n, l := Steps(d, step), |q|;
    if n <= l {
      TimesInt(step, n, l);
    }
    assert !Exceeds(last, q[l - 1]);
    Proportion(q[l - 1].value - last.value, Hours(l * step), Hours(d));
  }

  lemma Proportion(gain: real, over: real, d: real)
    requires over > 0.0
    ensures gain / over * d * over == gain * d
  {
    var rate := gain / over;
    assert rate * over == gain;
    assert rate * d * over == rate * over * d;
  }

  // ----------------------------------------------------------------- states

  lemma {:induction false} SumIsBounded(q: seq<Number>)
    ensures 0.0 <= Sum(q) <= ObservedIn(q) as real && ObservedIn(q) <= |q|
  {
    if |q| > 0 {
      SumIsBounded(q[..|q| - 1]);
    }
  }

  lemma {:induction false} SumGrows(q: seq<Number>, n: nat)
    requires n <= |q|
    ensures Sum(q[..n]) <= Sum(q) && ObservedIn(q[..n]) <= ObservedIn(q)
  {
    if n < |q| {
      SumGrows(q[..|q| - 1], n);
      assert q[..|q| - 1][..n] == q[..n];
    } else {
      assert q[..n] == q;
    }
  }

  lemma {:induction false} SumOrders(lo: seq<Number>, hi: seq<Number>)
    requires Under(lo, hi)
    ensures ObservedIn(lo) == ObservedIn(hi) && Sum(lo) <= Sum(hi)
  {
    if |lo| > 0 {
      SumOrders(lo[..|lo| - 1], hi[..|hi| - 1]);
    }
  }

  lemma AverageFollowed(sum: real, n: nat, more: nat)
    requires 0.0 <= sum <= n as real && n > 0
    ensures sum <= Followed(sum, n, more) <= sum + more as real
  {
    AverageIsAShare(sum, n as real);
    ShareFollowed(sum / n as real, more as real);
  }

  lemma AverageIsAShare(sum: real, n: real)
    requires 0.0 <= sum <= n && n > 0.0
    ensures 0.0 <= sum / n <= 1.0
  {
    assert sum / n * n == sum;
  }

  lemma ShareFollowed(share: real, more: real)
    requires 0.0 <= share <= 1.0 && more >= 0.0
    ensures 0.0 <= share * more <= more
  {
  }

  lemma FollowedGrows(sum: real, n: nat, more: nat, more': nat)
    requires 0.0 <= sum && n > 0 && more <= more'
    ensures Followed(sum, n, more) <= Followed(sum, n, more')
  {
    Times(sum / n as real, more as real, more' as real);
  }

  lemma FollowedOrders(sum: real, sum': real, n: nat, more: nat)
    requires sum <= sum' && n > 0
    ensures Followed(sum, n, more) <= Followed(sum', n, more)
  {
    assert sum / n as real <= sum' / n as real;
    Times(more as real, sum / n as real, sum' / n as real);
  }

  /** A state is on for no less than nothing and no more than all of the steps. */
  lemma StateStepsAreBounded(q: seq<Number>, steps: int)
    requires steps >= 1
    ensures StateSteps(q, steps).Some? ==> 0.0 <= StateSteps(q, steps).value <= steps as real
  {
    var seen := q[..Min(steps, |q|)];
    SumIsBounded(seen);
    if ObservedIn(seen) > 0 && steps > |q| {
      AverageFollowed(Sum(seen), ObservedIn(seen), steps - |q|);
      assert Sum(seen) <= |q| as real;
      assert |q| as real + (steps - |q|) as real == steps as real;
    }
  }

  lemma StateStepsGrow(q: seq<Number>, steps: int, steps': int)
    requires 1 <= steps <= steps' && StateSteps(q, steps).Some?
    ensures StateSteps(q, steps').Some? && StateSteps(q, steps).value <= StateSteps(q, steps').value
  {
    var seen, seen' := q[..Min(steps, |q|)], q[..Min(steps', |q|)];
    assert seen'[..Min(steps, |q|)] == seen;
    SumGrows(seen', Min(steps, |q|));
    SumIsBounded(seen');
    if steps' > |q| {
      AverageFollowed(Sum(seen'), ObservedIn(seen'), steps' - |q|);
      if steps > |q| {
        assert seen == seen';
        FollowedGrows(Sum(seen), ObservedIn(seen), steps - |q|, steps' - |q|);
      }
    }
  }

  lemma StateStepsOrder(lo: seq<Number>, hi: seq<Number>, steps: int)
    requires steps >= 1 && Under(lo, hi)
    ensures StateSteps(lo, steps).Some? <==> StateSteps(hi, steps).Some?
    ensures StateSteps(lo, steps).Some? ==> StateSteps(lo, steps).value <= StateSteps(hi, steps).value
  {
    var m := Min(steps, |lo|);
    SumOrders(lo[..m], hi[..m]);
    var n, a, b := ObservedIn(lo[..m]), Sum(lo[..m]), Sum(hi[..m]);
    if n > 0 && steps > |lo| {
      FollowedOrders(a, b, n, steps - |lo|);
    }
  }

  /** Steps turned into hours keep their order. */
  lemma HoursOrder(a: real, b: real, step: int)
    requires a <= b && step > 0
    ensures InHours(0.0, step) == 0.0 && InHours(a, step) <= InHours(b, step)
  {
    Times(Hours(step), a, b);
  }

  lemma StateRestIsBounded(q: seq<Number>, steps: int, step: int)
    requires steps >= 1 && step > 0 && StateRest(q, steps, step).Some?
    ensures 0.0 <= StateRest(q, steps, step).value <= InHours(steps as real, step)
  {
    StateStepsAreBounded(q, steps);
    var s := StateSteps(q, steps).value;
    HoursOrder(0.0, s, step);
    HoursOrder(s, steps as real, step);
  }

  lemma StateRestOrders(lo: seq<Number>, hi: seq<Number>, steps: int, step: int)
    requires steps >= 1 && step > 0 && Under(lo, hi) && StateRest(lo, steps, step).Some?
    ensures StateRest(hi, steps, step).Some? && StateRest(lo, steps, step).value <= StateRest(hi, steps, step).value
  {
    StateStepsOrder(lo, hi, steps);
    HoursOrder(StateSteps(lo, steps).value, StateSteps(hi, steps).value, step);
  }

  /** A state's total is in order, no less than the hours so far and no more than those and all
      the steps to come. */
  lemma StateTotal(f: Forecast, last: Number, soFar: real, end: int)
    requires InOrderEverywhere(f) && f.step > 0 && ProjectTotal(f, State, last, soFar, end).Some?
    ensures InOrderFrom(ProjectTotal(f, State, last, soFar, end).value)
    ensures ProjectTotal(f, State, last, soFar, end).value.q90 <= soFar
            + InHours(Steps(end - f.start, f.step) as real, f.step)
  {
    var steps := Steps(end - f.start, f.step);
    InOrderIsUnder(f);
    StateRestOrders(f.q10, f.q50, steps, f.step);
    StateRestOrders(f.q50, f.q90, steps, f.step);
    StateRestIsBounded(f.q10, steps, f.step);
    StateRestIsBounded(f.q90, steps, f.step);
  }

  lemma StateHoursGrow(q: seq<Number>, steps: int, steps': int, step: int)
    requires 1 <= steps <= steps' && step > 0 && StateRest(q, steps, step).Some?
    ensures StateRest(q, steps', step).Some? && StateRest(q, steps, step).value <= StateRest(q, steps', step).value
  {
    StateStepsGrow(q, steps, steps');
    HoursOrder(StateSteps(q, steps).value, StateSteps(q, steps').value, step);
  }

  lemma StateRestGrows(f: Forecast, last: Number, q: seq<Number>, end: int, end': int)
    requires |q| > 0 && f.step > 0 && f.start < end <= end' && Rest(f, State, last, q, end).Some?
    ensures Rest(f, State, last, q, end').Some?
    ensures Rest(f, State, last, q, end).value <= Rest(f, State, last, q, end').value
  {
    StepsGrow(end - f.start, end' - f.start, f.step);
    StateHoursGrow(q, Steps(end - f.start, f.step), Steps(end' - f.start, f.step), f.step);
  }

  lemma StateTotalGrows(f: Forecast, last: Number, soFar: real, end: int, end': int)
    requires WellFormed(f) && f.step > 0 && end <= end' && InReach(f, end')
    requires ProjectTotal(f, State, last, soFar, end).Some?
    ensures ProjectTotal(f, State, last, soFar, end').Some?
    ensures NoLess(ProjectTotal(f, State, last, soFar, end).value, ProjectTotal(f, State, last, soFar, end').value)
  {
    StateRestGrows(f, last, f.q10, end, end');
    StateRestGrows(f, last, f.q50, end, end');
    StateRestGrows(f, last, f.q90, end, end');
  }
}
