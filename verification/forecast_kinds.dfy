/** What the statistical engine's forecast of each kind is, measured on the series itself.

The statements are about the forecast a request gets, in quantiles of plain lists of numbers, and
say of every step where its three numbers come from. */
module ForecastKinds {
  import opened Options
  import opened ForecastSeries
  import opened ForecastShape
  import opened ForecastResets
  import opened ForecastQuantile
  import opened ForecastEngine
  import opened ForecastStatistical
  import Exact = ForecastExact

  // ------------------------------------------------------------ quantiles

  /** x stands at position q * (n - 1) of the n numbers in order, on the line between its neighbours. */
  ghost predicate StandsAt(a: seq<real>, q: real, x: real) {
    exists k: nat :: IsStep(a, q, x, k)
  }

  predicate IsStep(a: seq<real>, q: real, x: real, k: nat) {
    var pos := q * (|a| - 1) as real;
    && k < |a| && k as real <= pos
    && if k + 1 == |a| then pos == k as real && x == a[k]
       else pos < (k + 1) as real && x == a[k] + (pos - k as real) * (a[k + 1] - a[k])
  }

  /** x is the quantile q of the numbers: put in order, it stands where it should. */
  ghost predicate IsQuantile(s: seq<real>, q: real, x: real) {
    exists a :: Ascending(a) && multiset(a) == multiset(s) && StandsAt(a, q, x)
  }

  lemma PositionStands(a: seq<real>, q: real, pos: real)
    requires |a| > 0 && 0.0 <= pos <= (|a| - 1) as real && pos == q * (|a| - 1) as real
    ensures StandsAt(a, q, AtPosition(a, pos))
  {
    var k: nat := pos.Floor;
    if pos == k as real && k + 1 < |a| {
      assert a[k] + (pos - k as real) * (a[k + 1] - a[k]) == a[k];
    }
    assert IsStep(a, q, AtPosition(a, pos), k);
  }

  lemma QuantileStands(a: seq<real>, q: real)
    requires |a| > 0 && 0.0 <= q <= 1.0
    ensures StandsAt(a, q, Quantile(a, q))
  {
    PositionStands(a, q, Position(|a|, q));
  }

  lemma QuantileIsRight(s: seq<real>, q: real)
    requires |s| > 0 && 0.0 <= q <= 1.0
    ensures IsQuantile(s, q, Quantile(Sort(s), q))
  {
    SortAscends(s);
    var a := Sort(s);
    QuantileStands(a, q);
    assert Ascending(a) && multiset(a) == multiset(s);
  }

  /** The band of some numbers around a base: their first, fifth and ninth tenths. */
  ghost predicate IsBand(b: Band, base: real, s: seq<real>) {
    && Whole(b)
    && IsQuantile(s, 0.1, b.lo.value - base) && IsQuantile(s, 0.5, b.mid.value - base)
    && IsQuantile(s, 0.9, b.hi.value - base)
  }

  function BandOf(t: Triple): Band { Band(Some(t.lo), Some(t.mid), Some(t.hi)) }

  lemma QuantilesAreABand(s: seq<real>, base: real)
    requires |s| > 0
    ensures IsBand(BandOf(Moved(Quantiles(s), base)), base, s)
  {
    QuantileIsRight(s, 0.1);
    QuantileIsRight(s, 0.5);
    QuantileIsRight(s, 0.9);
  }

  // ----------------------------------------------------- the forecast's steps

  /** The forecast holds the bands, step by step, or nothing. */
  ghost predicate Carries(f: Forecast, b: Bands) {
    && WellFormed(f)
    && match b
       case None => forall k :: 0 <= k < |f.q50| ==> At(f, k) == Band(None, None, None)
       case Some(t) => |t| == |f.q50| && forall k :: 0 <= k < |t| ==> At(f, k) == BandOf(t[k])
  }

  lemma CarriedAt(f: Forecast, bands: seq<Triple>, k: nat)
    requires Carries(f, Some(bands)) && k < |bands|
    ensures |bands| == |f.q50| && At(f, k) == BandOf(bands[k])
  {
  }

  lemma ForecastCarries(r: Request)
    ensures Carries(StatisticalForecast(r), StatisticalBands(r)) && |StatisticalForecast(r).q50| == r.horizon
  {
  }

  /** It begins where the series ends and goes in its steps. */
  lemma ForecastFollows(r: Request)
    ensures var f := StatisticalForecast(r);
            f.start == r.series.start + |r.series.values| * r.series.step && f.step == r.series.step
  {
  }

  /** The series as the methods see it: its gaps filled. */
  function Numbers(r: Request): seq<real>
    requires AllKnown(Filled(r.series.values))
  {
    Known(Filled(r.series.values))
  }

  /** A series with a number somewhere. */
  lemma NumbersAreThere(r: Request)
    requires HasNumber(r.series.values)
    ensures AllKnown(Filled(r.series.values)) && |Numbers(r)| == |r.series.values| > 0
  {
    FilledIsWhole(r.series.values);
  }

  lemma NoBands(r: Request)
    requires !HasNumber(r.series.values)
    ensures StatisticalBands(r) == None
  {
    var v := r.series.values;
    LastSeenIsSeen(v);
    FilledLast(v);
  }

  /** Without one there is no forecast. */
  lemma NothingToGoBy(r: Request)
    requires !HasNumber(r.series.values)
    ensures IsNothing(StatisticalForecast(r), r.horizon)
  {
    NoBands(r);
    ForecastCarries(r);
  }

  ghost predicate IsNothing(f: Forecast, horizon: nat) {
    WellFormed(f) && |f.q50| == horizon && forall k :: 0 <= k < horizon ==> At(f, k) == Band(None, None, None)
  }

  lemma BandsAre(r: Request)
    requires HasNumber(r.series.values) && r.horizon > 0
    ensures AllKnown(Filled(r.series.values)) && |Filled(r.series.values)| > 0
    ensures StatisticalBands(r) == BandsOf(Filled(r.series.values), r.kind, r.period, r.horizon)
  {
    NumbersAreThere(r);
  }

  // -------------------------------------------------------------- changes

  function MovesOver(v: seq<real>, h: nat): (m: seq<real>)
    requires h <= |v|
    ensures |m| == |v| - h && forall t :: 0 <= t < |m| ==> m[t] == v[t + h] - v[t]
  {
    seq(|v| - h, t requires 0 <= t < |v| - h => v[t + h] - v[t])
  }

  /** The horizons measured: each of the first eight, after them about 24 more, and the last; as far as eight
      moves over them are known. */
  predicate IsMeasured(horizon: nat, n: nat, h: int) {
    && 1 <= h <= horizon && n - h >= 8
    && (h <= 8 || h == horizon || horizon <= 32 || h % ((horizon + 23) / 24) == 0)
  }

  lemma MeasuredIsRight(horizon: nat, n: nat, h: nat)
    ensures Measured(horizon, n, h) <==> IsMeasured(horizon, n, h)
  {
  }

  /** p is the last horizon measured before h, and q the first after it. */
  ghost predicate IsBefore(horizon: nat, n: nat, p: int, h: int) {
    IsMeasured(horizon, n, p) && p < h && forall k :: p < k < h ==> !IsMeasured(horizon, n, k)
  }

  ghost predicate IsAfter(horizon: nat, n: nat, h: int, q: int) {
    IsMeasured(horizon, n, q) && h < q && forall k :: h < k < q ==> !IsMeasured(horizon, n, k)
  }

  /** The grid's point before a place is the last measured horizon up to it. */
  lemma {:induction false} GridLast(horizon: nat, n: nat, p: nat, h: nat)
    requires IsMeasured(horizon, n, p) && p <= h && forall k :: p < k <= h ==> !IsMeasured(horizon, n, k)
    ensures |Grid(horizon, n, h)| > 0 && Grid(horizon, n, h)[|Grid(horizon, n, h)| - 1] == p
  {
    MeasuredIsRight(horizon, n, h);
    if p < h {
      GridLast(horizon, n, p, h - 1);
    }
  }

  /** And shorter grids are the beginnings of longer ones. */
  lemma {:induction false} GridBegins(horizon: nat, n: nat, h: nat, top: nat)
    requires h <= top
    ensures Grid(horizon, n, h) <= Grid(horizon, n, top)
  {
    if h < top {
      GridBegins(horizon, n, h, top - 1);
    }
  }

  lemma {:induction false} GridStays(horizon: nat, n: nat, h: nat, top: nat)
    requires h <= top && forall k :: h < k <= top ==> !IsMeasured(horizon, n, k)
    ensures Grid(horizon, n, top) == Grid(horizon, n, h)
  {
    if h < top {
      MeasuredIsRight(horizon, n, top);
      GridStays(horizon, n, h, top - 1);
    }
  }

  /** Between two measured horizons the band is on the line between theirs. */
  lemma BandBetween(v: seq<real>, horizon: nat, p: nat, h: nat, q: nat)
    requires |v| >= 9 && 1 <= h <= horizon && !IsMeasured(horizon, |v|, h)
    requires IsBefore(horizon, |v|, p, h) && IsAfter(horizon, |v|, h, q)
    ensures ChangeBand(v, horizon, h) == Between(Part(h, p, q), MoveBand(v, p), MoveBand(v, q))
  {
    var n := |v|;
    var at, all := Grid(horizon, n, h), Grid(horizon, n, horizon);
    GridLast(horizon, n, p, h);
    GridStays(horizon, n, h, q - 1);
    MeasuredIsRight(horizon, n, q);
    assert Grid(horizon, n, q) == at + [q];
    GridBegins(horizon, n, q, horizon);
    assert all[|at| - 1] == (at + [q])[|at| - 1] == p && all[|at|] == (at + [q])[|at|] == q;
  }

  /** And past the last one it is the last one's. */
  lemma BandPast(v: seq<real>, horizon: nat, p: nat, h: nat)
    requires |v| >= 9 && 1 <= h <= horizon
    requires IsBefore(horizon, |v|, p, h) && forall k :: h <= k <= horizon ==> !IsMeasured(horizon, |v|, k)
    ensures ChangeBand(v, horizon, h) == MoveBand(v, p)
  {
    GridLast(horizon, |v|, p, h);
    GridStays(horizon, |v|, h, horizon);
  }

  /** g gives the bands of the changes over so many steps. */
  ghost predicate GivesChanges(g: nat -> Triple, v: seq<real>, horizon: nat) {
    |v| >= 9 && forall h :: 1 <= h <= horizon ==> g(h) == ChangeBand(v, horizon, h)
  }

  function MovedBands(g: nat -> Triple, base: real, top: nat): seq<Triple> {
    seq(top, k requires 0 <= k < top => Moved(g(k + 1), base))
  }

  lemma MovedSnoc(g: nat -> Triple, base: real, top: nat)
    requires top > 0
    ensures MovedBands(g, base, top) == MovedBands(g, base, top - 1) + [Moved(g(top), base)]
  {
  }

  lemma {:induction false} ChangeBandsAre(v: seq<real>, horizon: nat, top: nat, g: nat -> Triple)
    requires top <= horizon && |v| >= 9 && GivesChanges(g, v, horizon)
    ensures ChangeBands(v, horizon, top) == MovedBands(g, v[|v| - 1], top)
  {
    if top > 0 {
      ChangeBandsAre(v, horizon, top - 1, g);
      MovedSnoc(g, v[|v| - 1], top);
    }
  }

  lemma ChangesGiven(v: seq<real>, horizon: nat) returns (g: nat -> Triple)
    requires |v| >= 9
    ensures GivesChanges(g, v, horizon)
  {
    g := (k: nat) => if 1 <= k <= horizon then ChangeBand(v, horizon, k) else Triple(0.0, 0.0, 0.0);
  }

  /** At every step the forecast shows the band of the changes over so many steps, moved to a base. */
  ghost predicate Shows(f: Forecast, g: nat -> Triple, base: real)
    requires WellFormed(f)
  {
    forall h :: 1 <= h <= |f.q50| ==> ShowsAt(f, g, base, h)
  }

  predicate ShowsAt(f: Forecast, g: nat -> Triple, base: real, h: nat)
    requires WellFormed(f) && 1 <= h <= |f.q50|
  {
    At(f, h - 1) == BandOf(Moved(g(h), base))
  }

  /** b lies as far along from a to c as h from p to q, at every quantile. */
  predicate IsOnLine(a: Band, b: Band, c: Band, p: int, h: int, q: int) {
    && Whole(a) && Whole(b) && Whole(c)
    && (b.lo.value - a.lo.value) * (q - p) as real == (c.lo.value - a.lo.value) * (h - p) as real
    && (b.mid.value - a.mid.value) * (q - p) as real == (c.mid.value - a.mid.value) * (h - p) as real
    && (b.hi.value - a.hi.value) * (q - p) as real == (c.hi.value - a.hi.value) * (h - p) as real
  }

  /** Step h of a forecast by changes: at a measured horizon, the band of the moves over h steps around the
      base; between two of them, on the line; past the last one, as there. */
  ghost predicate IsChange(f: Forecast, v: seq<real>, base: real, h: nat)
    requires WellFormed(f) && 1 <= h <= |f.q50|
  {
    var n := |v|;
    && (IsMeasured(|f.q50|, n, h) ==> IsBand(At(f, h - 1), base, MovesOver(v, h)))
    && (!IsMeasured(|f.q50|, n, h) ==>
          forall p: nat, q: nat :: IsBefore(|f.q50|, n, p, h) && IsAfter(|f.q50|, n, h, q) ==>
            IsOnLine(At(f, p - 1), At(f, h - 1), At(f, q - 1), p, h, q))
    && ((forall k :: h <= k <= |f.q50| ==> !IsMeasured(|f.q50|, n, k)) ==>
          forall p: nat :: IsBefore(|f.q50|, n, p, h) ==> At(f, h - 1) == At(f, p - 1))
  }

  /** The forecast by changes: at every step, or at none when fewer than nine values are there. */
  ghost predicate IsByChanges(f: Forecast, v: seq<real>, base: real) {
    && WellFormed(f)
    && if |v| < 9 then IsNothing(f, |f.q50|) else forall h :: 1 <= h <= |f.q50| ==> IsChange(f, v, base, h)
  }

  lemma MeasuredStep(f: Forecast, v: seq<real>, g: nat -> Triple, base: real, h: nat)
    requires WellFormed(f) && GivesChanges(g, v, |f.q50|) && 1 <= h <= |f.q50|
    requires ShowsAt(f, g, base, h) && IsMeasured(|f.q50|, |v|, h)
    ensures IsBand(At(f, h - 1), base, MovesOver(v, h))
  {
    MeasuredIsGiven(v, g, |f.q50|, h);
    assert MovesOver(v, h) == Moves(v, h);
    QuantilesAreABand(Moves(v, h), base);
  }

  lemma MeasuredIsGiven(v: seq<real>, g: nat -> Triple, horizon: nat, h: nat)
    requires GivesChanges(g, v, horizon) && IsMeasured(horizon, |v|, h)
    ensures g(h) == MoveBand(v, h)
  {
    MeasuredIsRight(horizon, |v|, h);
    MeasuredIsExact(v, horizon, h);
  }

  lemma MixIsOnLine(w: real, a: real, c: real, base: real, part: real, whole: real)
    requires w * whole == part
    ensures ((base + Mix(w, a, c)) - (base + a)) * whole == ((base + c) - (base + a)) * part
  {
    assert w * (c - a) * whole == (c - a) * (w * whole);
  }

  lemma BetweenIsOnLine(a: Triple, c: Triple, base: real, p: nat, h: nat, q: nat)
    requires p <= h < q
    ensures IsOnLine(BandOf(Moved(a, base)), BandOf(Moved(Between(Part(h, p, q), a, c), base)),
                     BandOf(Moved(c, base)), p, h, q)
  {
    var w, part, whole := Part(h, p, q), (h - p) as real, (q - p) as real;
    assert w * whole == part;
    MixIsOnLine(w, a.lo, c.lo, base, part, whole);
    MixIsOnLine(w, a.mid, c.mid, base, part, whole);
    MixIsOnLine(w, a.hi, c.hi, base, part, whole);
  }

  lemma GivenBetween(v: seq<real>, g: nat -> Triple, horizon: nat, p: nat, h: nat, q: nat)
    requires GivesChanges(g, v, horizon) && 1 <= h <= horizon && !IsMeasured(horizon, |v|, h)
    requires IsBefore(horizon, |v|, p, h) && IsAfter(horizon, |v|, h, q)
    ensures g(h) == Between(Part(h, p, q), g(p), g(q))
  {
    BandBetween(v, horizon, p, h, q);
    MeasuredIsGiven(v, g, horizon, p);
    MeasuredIsGiven(v, g, horizon, q);
  }

  lemma StepBetween(f: Forecast, v: seq<real>, g: nat -> Triple, base: real, p: nat, h: nat, q: nat)
    requires WellFormed(f) && GivesChanges(g, v, |f.q50|) && 1 <= h <= |f.q50| && !IsMeasured(|f.q50|, |v|, h)
    requires IsBefore(|f.q50|, |v|, p, h) && IsAfter(|f.q50|, |v|, h, q)
    requires ShowsAt(f, g, base, p) && ShowsAt(f, g, base, h) && ShowsAt(f, g, base, q)
    ensures IsOnLine(At(f, p - 1), At(f, h - 1), At(f, q - 1), p, h, q)
  {
    GivenBetween(v, g, |f.q50|, p, h, q);
    BetweenIsOnLine(g(p), g(q), base, p, h, q);
  }

  lemma StepPast(f: Forecast, v: seq<real>, g: nat -> Triple, base: real, p: nat, h: nat)
    requires WellFormed(f) && GivesChanges(g, v, |f.q50|) && 1 <= h <= |f.q50| && IsBefore(|f.q50|, |v|, p, h)
    requires forall k :: h <= k <= |f.q50| ==> !IsMeasured(|f.q50|, |v|, k)
    requires ShowsAt(f, g, base, p) && ShowsAt(f, g, base, h)
    ensures At(f, h - 1) == At(f, p - 1)
  {
    MeasuredIsGiven(v, g, |f.q50|, p);
    BandPast(v, |f.q50|, p, h);
  }

  lemma ShownIsChange(f: Forecast, v: seq<real>, g: nat -> Triple, base: real, h: nat)
    requires WellFormed(f) && GivesChanges(g, v, |f.q50|) && 1 <= h <= |f.q50| && Shows(f, g, base)
    ensures IsChange(f, v, base, h)
  {
    var n := |v|;
    assert ShowsAt(f, g, base, h);
    if IsMeasured(|f.q50|, n, h) {
      MeasuredStep(f, v, g, base, h);
    } else {
      forall p: nat, q: nat | IsBefore(|f.q50|, n, p, h) && IsAfter(|f.q50|, n, h, q)
        ensures IsOnLine(At(f, p - 1), At(f, h - 1), At(f, q - 1), p, h, q)
      {
        assert ShowsAt(f, g, base, p) && ShowsAt(f, g, base, q);
        StepBetween(f, v, g, base, p, h, q);
      }
    }
    if forall k :: h <= k <= |f.q50| ==> !IsMeasured(|f.q50|, n, k) {
      forall p: nat | IsBefore(|f.q50|, n, p, h)
        ensures At(f, h - 1) == At(f, p - 1)
      {
        assert ShowsAt(f, g, base, p);
        StepPast(f, v, g, base, p, h);
      }
    }
  }

  lemma ShownIsByChanges(f: Forecast, v: seq<real>, g: nat -> Triple, base: real)
    requires WellFormed(f) && GivesChanges(g, v, |f.q50|) && Shows(f, g, base)
    ensures IsByChanges(f, v, base)
  {
    forall h | 1 <= h <= |f.q50|
      ensures IsChange(f, v, base, h)
    {
      ShownIsChange(f, v, g, base, h);
    }
  }

  lemma MovedShows(f: Forecast, g: nat -> Triple, base: real)
    requires Carries(f, Some(MovedBands(g, base, |f.q50|)))
    ensures Shows(f, g, base)
  {
    forall h | 1 <= h <= |f.q50|
      ensures ShowsAt(f, g, base, h)
    {
      CarriedAt(f, MovedBands(g, base, |f.q50|), h - 1);
    }
  }

  lemma MovedIsByChanges(f: Forecast, v: seq<real>, g: nat -> Triple, base: real)
    requires Carries(f, Some(MovedBands(g, base, |f.q50|))) && GivesChanges(g, v, |f.q50|)
    ensures IsByChanges(f, v, base)
  {
    MovedShows(f, g, base);
    ShownIsByChanges(f, v, g, base);
  }

  lemma ChangedIsByChanges(f: Forecast, v: seq<real>)
    requires |v| > 0 && Carries(f, Changed(v, |f.q50|))
    ensures IsByChanges(f, v, v[|v| - 1])
  {
    if |v| >= 9 {
      var g := ChangesGiven(v, |f.q50|);
      ChangeBandsAre(v, |f.q50|, |f.q50|, g);
      MovedIsByChanges(f, v, g, v[|v| - 1]);
    }
  }

  // -------------------------------------------------------------- counters

  /** The counter counted on through its resets: up by every rise, and not down. */
  ghost predicate CountsOn(v: seq<real>, u: seq<real>) {
    && |u| == |v| && (|v| > 0 ==> u[0] == v[0])
    && forall t :: 0 < t < |v| ==> CountsOnAt(v, u, t)
  }

  predicate CountsOnAt(v: seq<real>, u: seq<real>, t: nat)
    requires 0 < t < |v| == |u|
  {
    u[t] - u[t - 1] == if v[t] >= v[t - 1] then v[t] - v[t - 1] else 0.0
  }

  lemma ResetFreeCountsOn(v: seq<Number>)
    requires AllKnown(v)
    ensures AllKnown(ResetFree(v)) && CountsOn(Known(v), Known(ResetFree(v)))
  {
    ResetFreeIsKnown(v);
    if |v| > 0 {
      OffsetSnoc(v, 0);
      assert v[..0] == [];
    }
    forall t | 0 < t < |v|
      ensures CountsOnAt(Known(v), Known(ResetFree(v)), t)
    {
      OffsetSnoc(v, t);
      LastSeenUpTo(v, t - 1);
    }
  }

  lemma ShiftedTwice(g: nat -> Triple, a: real, b: real, top: nat)
    ensures Shifted(MovedBands(g, a, top), b - a) == MovedBands(g, b, top)
  {
    forall k | 0 <= k < top
      ensures Shifted(MovedBands(g, a, top), b - a)[k] == MovedBands(g, b, top)[k]
    {
      MovedTwice(g(k + 1), a, b);
    }
  }

  lemma MovedTwice(t: Triple, a: real, b: real)
    ensures Moved(Moved(t, a), b - a) == Moved(t, b)
  {
  }

  lemma CountedIs(v: seq<Number>, free: seq<real>, horizon: nat, changed: seq<Triple>, d: real)
    requires AllKnown(v) && |v| >= 9 && AllKnown(ResetFree(v)) && free == Known(ResetFree(v)) && |free| == |v|
    requires Changed(free, horizon) == Some(changed) && d == v[|v| - 1].value - free[|free| - 1]
    ensures Counted(v, horizon) == Some(Shifted(changed, d))
  {
  }

  lemma ChangedIs(v: seq<real>, horizon: nat, g: nat -> Triple)
    requires GivesChanges(g, v, horizon)
    ensures Changed(v, horizon) == Some(MovedBands(g, v[|v| - 1], horizon))
  {
    ChangeBandsAre(v, horizon, horizon, g);
  }

  lemma CountedCarries(f: Forecast, v: seq<Number>, free: seq<real>, g: nat -> Triple, a: real, last: real)
    requires AllKnown(v) && |v| >= 9 && AllKnown(ResetFree(v)) && free == Known(ResetFree(v)) && |free| == |v|
    requires Changed(free, |f.q50|) == Some(MovedBands(g, a, |f.q50|)) && a == free[|free| - 1]
    requires last == v[|v| - 1].value && Carries(f, Counted(v, |f.q50|))
    ensures Carries(f, Some(MovedBands(g, last, |f.q50|)))
  {
    CountedIs(v, free, |f.q50|, MovedBands(g, a, |f.q50|), last - a);
    ShiftedTwice(g, a, last, |f.q50|);
  }

  lemma CountedIsByChanges(f: Forecast, v: seq<Number>, free: seq<real>)
    requires AllKnown(v) && |v| > 0 && AllKnown(ResetFree(v)) && free == Known(ResetFree(v)) && |free| == |v|
    requires Carries(f, Counted(v, |f.q50|))
    ensures IsByChanges(f, free, v[|v| - 1].value)
  {
    if |v| >= 9 {
      var g := ChangesGiven(free, |f.q50|);
      ChangedIs(free, |f.q50|, g);
      CountedCarries(f, v, free, g, free[|free| - 1], v[|v| - 1].value);
      MovedIsByChanges(f, free, g, v[|v| - 1].value);
    }
  }

  // --------------------------------------------------------------- seasons

  /** What was known of the same moment in the last four seasons before t. */
  ghost predicate IsKnownBefore(s: seq<real>, v: seq<real>, p: nat, t: int) {
    s == Taken(v, t - p) + Taken(v, t - 2 * p) + Taken(v, t - 3 * p) + Taken(v, t - 4 * p)
  }

  function Taken(v: seq<real>, i: int): seq<real> { if 0 <= i < |v| then [v[i]] else [] }

  lemma EarlierIsKnown(v: seq<real>, p: nat, t: nat)
    ensures IsKnownBefore(Earlier(v, p, t, 4), v, p, t)
  {
    assert Earlier(v, p, t, 0) == [];
    assert Earlier(v, p, t, 1) == Taken(v, t - p);
    assert Earlier(v, p, t, 2) == Taken(v, t - p) + Taken(v, t - 2 * p);
    assert Earlier(v, p, t, 3) == Taken(v, t - p) + Taken(v, t - 2 * p) + Taken(v, t - 3 * p);
  }

  /** m is the median of what was known of that moment. */
  ghost predicate IsLevel(v: seq<real>, p: nat, t: int, m: real) {
    exists s :: IsKnownBefore(s, v, p, t) && IsQuantile(s, 0.5, m)
  }

  lemma SeasonIsLevel(v: seq<real>, p: nat, t: nat)
    requires SeasonAt(v, p, t).Some?
    ensures IsLevel(v, p, t, SeasonAt(v, p, t).value)
  {
    EarlierIsKnown(v, p, t);
    QuantileIsRight(Earlier(v, p, t, 4), 0.5);
  }

  /** Something is known of a moment less than four seasons past the end. */
  lemma SeasonIsKnownIff(v: seq<real>, p: nat, t: nat)
    requires 0 < p <= |v| && p <= t
    ensures SeasonAt(v, p, t).Some? <==> t < |v| + 4 * p
  {
    EarlierIsKnown(v, p, t);
    var s := Earlier(v, p, t, 4);
    if t < |v| + p {
      assert Taken(v, t - p) == [v[t - p]];
    } else if t < |v| + 2 * p {
      assert Taken(v, t - 2 * p) == [v[t - 2 * p]];
    } else if t < |v| + 3 * p {
      assert Taken(v, t - 3 * p) == [v[t - 3 * p]];
    } else if t < |v| + 4 * p {
      assert Taken(v, t - 4 * p) == [v[t - 4 * p]];
    } else {
      assert s == [];
    }
  }

  /** How far each value strayed from what was known of its moment before. */
  ghost predicate AreStrays(s: seq<real>, v: seq<real>, p: nat) {
    |s| == |v| - p && forall i :: 0 <= i < |s| ==> IsStray(v, p, p + i, s[i])
  }

  ghost predicate IsStray(v: seq<real>, p: nat, t: nat, x: real) { t < |v| && IsLevel(v, p, t, v[t] - x) }

  lemma LevelStray(v: seq<real>, p: nat, t: nat, x: real, m: real)
    requires t < |v| && IsLevel(v, p, t, m) && m == v[t] - x
    ensures IsStray(v, p, t, x)
  {
  }

  lemma StrayIs(v: seq<real>, p: nat, t: nat, x: real)
    requires p <= t < |v| && SeasonAt(v, p, t).Some? && x == v[t] - SeasonAt(v, p, t).value
    ensures IsStray(v, p, t, x)
  {
    SeasonIsLevel(v, p, t);
    LevelStray(v, p, t, x, SeasonAt(v, p, t).value);
  }

  lemma {:induction false} StrayedLength(v: seq<real>, p: nat, top: nat)
    requires 0 < p <= top <= |v|
    ensures |Strayed(v, p, top)| == top - p
  {
    if top > p {
      StrayedLength(v, p, top - 1);
      SeasonIsKnownIff(v, p, top - 1);
    }
  }

  lemma {:induction false} StrayedAt(v: seq<real>, p: nat, top: nat, t: nat)
    requires 0 < p <= t < top <= |v|
    ensures |Strayed(v, p, top)| == top - p && SeasonAt(v, p, t).Some?
    ensures Strayed(v, p, top)[t - p] == v[t] - SeasonAt(v, p, t).value
  {
    StrayedLength(v, p, top);
    StrayedLength(v, p, top - 1);
    SeasonIsKnownIff(v, p, t);
    if t < top - 1 {
      StrayedAt(v, p, top - 1, t);
    }
  }

  lemma OneStray(v: seq<real>, p: nat, t: nat, x: real)
    requires 0 < p <= t < |v| && |Strayed(v, p, |v|)| == |v| - p && x == Strayed(v, p, |v|)[t - p]
    ensures SeasonAt(v, p, t).Some? && x == v[t] - SeasonAt(v, p, t).value
  {
    StrayedAt(v, p, |v|, t);
  }

  lemma StrayedAre(v: seq<real>, p: nat, s: seq<real>)
    requires 0 < p <= |v| && s == Strayed(v, p, |v|)
    ensures AreStrays(s, v, p)
  {
    StrayedLength(v, p, |v|);
    forall i | 0 <= i < |v| - p
      ensures IsStray(v, p, p + i, s[i])
    {
      OneStray(v, p, p + i, s[i]);
      StrayIs(v, p, p + i, s[i]);
    }
  }

  /** Step k of a seasonal forecast: the level of its moment, with the band of the strays around it; and past
      the four known seasons, what was forecast a season before. */
  ghost predicate IsSeasonal(f: Forecast, v: seq<real>, p: nat, strays: seq<real>, k: nat)
    requires WellFormed(f) && k < |f.q50|
  {
    if k < 4 * p then exists m :: IsLevel(v, p, |v| + k, m) && IsBand(At(f, k), m, strays)
    else At(f, k) == At(f, k - p)
  }

  function Around(g: nat -> real, q: Triple, h: nat): seq<Triple> { seq(h, k requires 0 <= k < h => Moved(q, g(k))) }

  lemma AroundSnoc(g: nat -> real, q: Triple, h: nat)
    requires h > 0
    ensures Around(g, q, h) == Around(g, q, h - 1) + [Moved(q, g(h - 1))]
  {
  }

  lemma {:induction false} SeasonBandsAre(v: seq<real>, p: nat, h: nat, g: nat -> real, q: Triple)
    requires 0 < p <= |v| && |Strayed(v, p, |v|)| > 0 && q == Quantiles(Strayed(v, p, |v|))
    requires forall k :: g(k) == SeasonLevel(v, p, k)
    ensures SeasonBands(v, p, h) == Around(g, q, h)
  {
    if h > 0 {
      SeasonBandsAre(v, p, h - 1, g, q);
      AroundSnoc(g, q, h);
    }
  }

  lemma SeasonStep(f: Forecast, v: seq<real>, p: nat, k: nat)
    requires 0 < p <= |v| && |Strayed(v, p, |v|)| > 0 && k < |f.q50| && Carries(f, Some(SeasonBands(v, p, |f.q50|)))
    ensures At(f, k) == BandOf(Moved(Quantiles(Strayed(v, p, |v|)), SeasonLevel(v, p, k)))
  {
    var g, q := (i: nat) => SeasonLevel(v, p, i), Quantiles(Strayed(v, p, |v|));
    SeasonBandsAre(v, p, |f.q50|, g, q);
    CarriedAt(f, Around(g, q, |f.q50|), k);
  }

  lemma KnownLevel(v: seq<real>, p: nat, k: nat)
    requires 0 < p <= |v| && SeasonAt(v, p, |v| + k).Some?
    ensures SeasonLevel(v, p, k) == SeasonAt(v, p, |v| + k).value
  {
  }

  lemma KnownSeason(v: seq<real>, p: nat, k: nat)
    requires 0 < p <= |v| && k < 4 * p
    ensures IsLevel(v, p, |v| + k, SeasonLevel(v, p, k))
  {
    SeasonIsKnownIff(v, p, |v| + k);
    KnownLevel(v, p, k);
    SeasonIsLevel(v, p, |v| + k);
  }

  lemma PastSeason(v: seq<real>, p: nat, k: nat)
    requires 0 < p <= |v| && k >= 4 * p
    ensures k >= p && SeasonLevel(v, p, k) == SeasonLevel(v, p, k - p)
  {
    SeasonIsKnownIff(v, p, |v| + k);
  }

  lemma SeasonalStep(f: Forecast, v: seq<real>, p: nat, k: nat, strays: seq<real>)
    requires 0 < p <= |v| && k < |f.q50| && strays == Strayed(v, p, |v|) && |strays| > 0
    requires Carries(f, Some(SeasonBands(v, p, |f.q50|)))
    ensures IsSeasonal(f, v, p, strays, k)
  {
    SeasonStep(f, v, p, k);
    if k < 4 * p {
      KnownSeason(v, p, k);
      QuantilesAreABand(strays, SeasonLevel(v, p, k));
    } else {
      PastSeason(v, p, k);
      SeasonStep(f, v, p, k - p);
    }
  }

  /** The forecast by seasons. */
  ghost predicate IsBySeasons(f: Forecast, v: seq<real>, p: nat) {
    WellFormed(f) && exists strays :: AreStrays(strays, v, p) && forall k :: 0 <= k < |f.q50| ==>
      IsSeasonal(f, v, p, strays, k)
  }

  lemma SeasonsAreBySeasons(f: Forecast, v: seq<real>, p: nat)
    requires 0 < p < |v| && |Strayed(v, p, |v|)| > 0 && Carries(f, Some(SeasonBands(v, p, |f.q50|)))
    ensures IsBySeasons(f, v, p)
  {
    var strays := Strayed(v, p, |v|);
    StrayedAre(v, p, strays);
    forall k | 0 <= k < |f.q50|
      ensures IsSeasonal(f, v, p, strays, k)
    {
      SeasonalStep(f, v, p, k, strays);
    }
  }

  // ---------------------------------------------------------------- trends

  /** Twelve times the sums of the places of n numbers and of their squares. */
  predicate ArePlaceSums(s: Sums, n: real) {
    2.0 * s.x == n * n - n && 6.0 * s.xx == 2.0 * (n * n * n) - 3.0 * (n * n) + n
  }

  lemma {:induction false} PlaceSums(v: seq<real>, n: real)
    requires n == |v| as real
    ensures ArePlaceSums(SumsOf(v), n)
  {
    if |v| > 0 {
      var w, i := v[..|v| - 1], (|v| - 1) as real;
      PlaceSums(w, i);
      OneMorePlace(SumsOf(w), SumsOf(v), i, n);
    }
  }

  lemma OneMorePlace(s: Sums, t: Sums, i: real, n: real)
    requires ArePlaceSums(s, i) && n == i + 1.0 && t.x == s.x + i && t.xx == s.xx + i * i
    ensures ArePlaceSums(t, n)
  {
    Powers(i);
  }

  lemma Powers(i: real)
    ensures (i + 1.0) * (i + 1.0) == i * i + 2.0 * i + 1.0
    ensures (i + 1.0) * (i + 1.0) * (i + 1.0) == i * i * i + 3.0 * (i * i) + 3.0 * i + 1.0
  {
  }

  lemma FitExists(v: seq<real>)
    requires |v| >= 3
    ensures LinearFit(v).Some?
  {
    PlaceSums(v, |v| as real);
    SumsSpread(SumsOf(v), |v| as real);
  }

  lemma SumsSpread(s: Sums, n: real)
    requires n >= 3.0 && ArePlaceSums(s, n)
    ensures FitOf(s, n).Some?
  {
    Spread(n, s.x, s.xx);
  }

  /** The places are not all the same. */
  lemma Spread(n: real, x: real, xx: real)
    requires n >= 3.0 && 2.0 * x == n * n - n && 6.0 * xx == 2.0 * (n * n * n) - 3.0 * (n * n) + n
    ensures n * xx - x * x != 0.0
  {
    var m := n * n;
    assert 4.0 * (x * x) == (m - n) * (m - n);
    assert (m - n) * (m - n) == m * m - 2.0 * (m * n) + m;
    assert n * (n * n * n) == m * m && n * m == n * n * n;
    assert 12.0 * (n * xx) == 4.0 * (m * m) - 6.0 * (n * m) + 2.0 * m;
    assert 12.0 * (n * xx - x * x) == m * m - m;
    assert m >= 9.0;
    assert m * m - m == m * (m - 1.0);
    assert m * (m - 1.0) > 0.0;
  }

  lemma {:induction false} TrendBandsAt(v: seq<real>, fit: Fit, top: nat, h: nat)
    requires |v| > 0 && 1 <= h <= top
    ensures TrendBands(v, fit, top)[h - 1] == TrendTriple(v, fit, h)
  {
    if h < top {
      TrendBandsAt(v, fit, top - 1, h);
    }
  }

  /** What is left of the values above a line. */
  function Above(v: seq<real>, slope: real, icept: real): (s: seq<real>)
    ensures |s| == |v| && forall i :: 0 <= i < |v| ==> s[i] == v[i] - (icept + slope * i as real)
  {
    seq(|v|, i requires 0 <= i < |v| => v[i] - (icept + slope * i as real))
  }

  function SquareSum(s: seq<real>): real { if |s| == 0 then 0.0 else SquareSum(s[..|s| - 1]) + s[|s| - 1] * s[|s| - 1] }

  /** No line leaves less of the values, in squares. */
  ghost predicate IsClosest(v: seq<real>, slope: real, icept: real) {
    forall k, c :: SquareSum(Above(v, slope, icept)) <= SquareSum(Above(v, k, c))
  }

  lemma {:induction false} SquaresAreDots(s: seq<real>)
    ensures SquareSum(s) == Dot(s, s)
  {
    if |s| > 0 {
      SquaresAreDots(s[..|s| - 1]);
    }
  }

  lemma FitIsClosest(v: seq<real>, fit: Fit)
    requires LinearFit(v) == Some(fit)
    ensures IsClosest(v, fit.slope, fit.icept)
  {
    forall k, c
      ensures SquareSum(Above(v, fit.slope, fit.icept)) <= SquareSum(Above(v, k, c))
    {
      FitIsLeastSquares(v, fit, Fit(k, c));
      SquaresOfLine(v, fit);
      SquaresOfLine(v, Fit(k, c));
    }
  }

  lemma SquaresOfLine(v: seq<real>, line: Fit)
    ensures SquareSum(Above(v, line.slope, line.icept)) == Squares(v, line)
  {
    AboveIsResidual(v, line);
    SquaresAreDots(Residuals(v, line));
  }

  lemma AboveIsResidual(v: seq<real>, line: Fit)
    ensures Above(v, line.slope, line.icept) == Residuals(v, line)
  {
    forall i | 0 <= i < |v|
      ensures Above(v, line.slope, line.icept)[i] == Residuals(v, line)[i]
    {
      assert Residuals(v, line)[i] == Residual(v, line, i);
    }
  }

  /** Step h of a trend: the last value and h slopes, with the first and the last tenth of what the values
      leave above the line. */
  ghost predicate IsTrend(f: Forecast, h: nat, last: real, slope: real, above: seq<real>)
    requires WellFormed(f) && 1 <= h <= |f.q50|
  {
    var b := At(f, h - 1);
    && Whole(b) && b.mid.value == last + slope * h as real
    && IsQuantile(above, 0.1, b.lo.value - b.mid.value) && IsQuantile(above, 0.9, b.hi.value - b.mid.value)
  }

  lemma TrendSides(v: seq<real>, fit: Fit, h: nat, above: seq<real>)
    requires |v| > 0 && above == Residuals(v, fit)
    ensures var t := TrendTriple(v, fit, h);
            IsQuantile(above, 0.1, t.lo - t.mid) && IsQuantile(above, 0.9, t.hi - t.mid)
  {
    QuantileIsRight(above, 0.1);
    QuantileIsRight(above, 0.9);
    var t := TrendTriple(v, fit, h);
    assert t.lo - t.mid == Quantile(Sort(above), 0.1) && t.hi - t.mid == Quantile(Sort(above), 0.9);
  }

  lemma TripleIsTrend(f: Forecast, h: nat, t: Triple, last: real, slope: real, above: seq<real>)
    requires WellFormed(f) && 1 <= h <= |f.q50| && At(f, h - 1) == BandOf(t) && t.mid == last + slope * h as real
    requires IsQuantile(above, 0.1, t.lo - t.mid) && IsQuantile(above, 0.9, t.hi - t.mid)
    ensures IsTrend(f, h, last, slope, above)
  {
  }

  lemma TrendStep(f: Forecast, v: seq<real>, fit: Fit, h: nat, above: seq<real>, t: Triple)
    requires |v| > 0 && WellFormed(f) && 1 <= h <= |f.q50| && above == Residuals(v, fit)
    requires At(f, h - 1) == BandOf(t) && t == TrendTriple(v, fit, h)
    ensures IsTrend(f, h, v[|v| - 1], fit.slope, above)
  {
    TrendStartsAtTheSignal(v, fit, h);
    TrendSides(v, fit, h, above);
    TripleIsTrend(f, h, t, v[|v| - 1], fit.slope, above);
  }

  lemma TrendAt(f: Forecast, v: seq<real>, fit: Fit, h: nat)
    requires |v| > 0 && 1 <= h <= |f.q50| && Carries(f, Some(TrendBands(v, fit, |f.q50|)))
    ensures At(f, h - 1) == BandOf(TrendTriple(v, fit, h))
  {
    TrendBandsAt(v, fit, |f.q50|, h);
    CarriedAt(f, TrendBands(v, fit, |f.q50|), h - 1);
  }

  /** The forecast by trend: along a line that is closest to the values. */
  ghost predicate IsByTrend(f: Forecast, v: seq<real>) {
    WellFormed(f) && |v| > 0 && exists slope, icept :: IsClosest(v, slope, icept) && FollowsLine(f, v, slope, icept)
  }

  ghost predicate FollowsLine(f: Forecast, v: seq<real>, slope: real, icept: real)
    requires WellFormed(f) && |v| > 0
  {
    var last, above := v[|v| - 1], Above(v, slope, icept);
    forall h :: 1 <= h <= |f.q50| ==> IsTrend(f, h, last, slope, above)
  }

  lemma TrendIsByTrend(f: Forecast, v: seq<real>, fit: Fit)
    requires |v| > 0 && LinearFit(v) == Some(fit) && Carries(f, Some(TrendBands(v, fit, |f.q50|)))
    ensures IsByTrend(f, v)
  {
    FitIsClosest(v, fit);
    AboveIsResidual(v, fit);
    var last, above := v[|v| - 1], Above(v, fit.slope, fit.icept);
    forall h | 1 <= h <= |f.q50|
      ensures IsTrend(f, h, last, fit.slope, above)
    {
      TrendAt(f, v, fit, h);
      TrendStep(f, v, fit, h, above, TrendTriple(v, fit, h));
    }
    assert FollowsLine(f, v, fit.slope, fit.icept);
  }

  // ------------------------------------------- signals whose future is plain

  /** A signal that repeats itself. */
  ghost predicate ComesBack(v: seq<real>, p: nat) { forall i :: 0 <= i && i + p < |v| ==> IsBack(v, i, p) }

  predicate IsBack(v: seq<real>, i: nat, p: nat)
    requires i + p < |v|
  {
    v[i + p] == v[i]
  }

  lemma {:induction false} PhaseIsRest(t: nat, p: nat)
    requires p > 0
    ensures Exact.Phase(t, p) == t % p
  {
    if t >= p {
      PhaseIsRest(t - p, p);
      RestStays(t, p);
    }
  }

  lemma RestStays(t: nat, p: nat)
    requires 0 < p <= t
    ensures (t - p) % p == t % p
  {
    var q, m := (t - p) / p, (t - p) % p;
    assert t == (q + 1) * p + m;
    OneRest(q + 1, m, t / p, t % p, p);
  }

  lemma OneRest(q: int, m: int, q': int, m': int, p: int)
    requires q * p + m == q' * p + m' && 0 <= m < p && 0 <= m' < p
    ensures m == m'
  {
    assert (q - q') * p == m' - m && (q' - q) * p == m - m';
    if q > q' {
      AtLeastOnce(q - q', p);
    } else if q < q' {
      AtLeastOnce(q' - q, p);
    }
  }

  lemma AtLeastOnce(d: int, p: int)
    requires d >= 1 && p > 0
    ensures d * p >= p
  {
  }

  /** The value at the place of its cycle where step k past the end falls. */
  function InCycle(v: seq<real>, p: nat, k: nat): real
    requires 0 < p <= |v|
  {
    v[(|v| + k) % p]
  }

  lemma LevelComesBack(v: seq<real>, p: nat, k: nat, m: real)
    requires 0 < p <= |v| && ComesBack(v, p) && |Strayed(v, p, |v|)| > 0 && m == InCycle(v, p, k)
    ensures Moved(Quantiles(Strayed(v, p, |v|)), SeasonLevel(v, p, k)) == Triple(m, m, m)
  {
    forall i
      ensures Exact.LikeBefore(v, p, i)
    {
      if p <= i < |v| {
        assert IsBack(v, i - p, p);
      }
    }
    Exact.LevelIsThePhase(v, p, k);
    Exact.NoBandAround(v, p, SeasonLevel(v, p, k));
    PhaseIsRest(|v| + k, p);
  }

  /** The forecast is m at step k, at every quantile. */
  ghost predicate IsJust(f: Forecast, k: int, m: real) {
    WellFormed(f) && 0 <= k < |f.q50| && At(f, k) == Band(Some(m), Some(m), Some(m))
  }

  lemma CycleStep(f: Forecast, v: seq<real>, p: nat, k: nat, m: real)
    requires 0 < p <= |v| && |Strayed(v, p, |v|)| > 0 && k < |f.q50| && Carries(f, Some(SeasonBands(v, p, |f.q50|)))
    requires ComesBack(v, p) && m == InCycle(v, p, k)
    ensures IsJust(f, k, m)
  {
    SeasonStep(f, v, p, k);
    LevelComesBack(v, p, k, m);
  }

  ghost predicate IsStraight(v: seq<real>, slope: real) { forall i :: 0 <= i < |v| - 1 ==> v[i + 1] - v[i] == slope }

  lemma LineOfChanges(f: Forecast, v: seq<real>, slope: real, h: nat, furthest: nat, m: real)
    requires |v| >= 9 && 1 <= h <= furthest && IsMeasured(|f.q50|, |v|, furthest)
    requires Carries(f, Changed(v, |f.q50|)) && IsStraight(v, slope) && m == v[|v| - 1] + slope * h as real
    ensures IsJust(f, h - 1, m)
  {
    var g := ChangesGiven(v, |f.q50|);
    ChangeBandsAre(v, |f.q50|, |f.q50|, g);
    MovedShows(f, g, v[|v| - 1]);
    FurthestIsFurther(|f.q50|, |v|, furthest);
    LineShown(v, slope, |f.q50|, h, m, g);
    assert ShowsAt(f, g, v[|v| - 1], h);
  }

  lemma LineShown(v: seq<real>, slope: real, horizon: nat, h: nat, m: real, g: nat -> Triple)
    requires GivesChanges(g, v, horizon) && 1 <= h <= horizon && h <= Exact.Furthest(horizon, |v|)
    requires IsStraight(v, slope) && m == v[|v| - 1] + slope * h as real
    ensures Moved(g(h), v[|v| - 1]) == Triple(m, m, m)
  {
    assert Exact.IsLine(v, slope);
    Exact.LineIsContinued(v, slope, horizon, h);
  }

  lemma FurthestIsFurther(horizon: nat, n: nat, h: nat)
    requires IsMeasured(horizon, n, h) && n >= 9
    ensures Exact.Furthest(horizon, n) >= h
  {
    MeasuredIsRight(horizon, n, h);
    GridPoints(horizon, n, h - 1, horizon);
    GridPoints(horizon, n, h, horizon);
    GridIsEmptyIff(horizon, n, horizon);
    var all := Grid(horizon, n, horizon);
    assert |Grid(horizon, n, h)| == |Grid(horizon, n, h - 1)| + 1;
    assert all[|all| - 1] > h - 1;
  }

  // ------------------------------------------------------------ every kind

  lemma ForecastOf(r: Request) returns (f: Forecast)
    requires HasNumber(r.series.values) && r.horizon > 0
    ensures f == StatisticalForecast(r) && |f.q50| == r.horizon && AllKnown(Filled(r.series.values))
    ensures |Filled(r.series.values)| > 0 && |Numbers(r)| == |r.series.values|
    ensures Carries(f, BandsOf(Filled(r.series.values), r.kind, r.period, r.horizon))
  {
    f := StatisticalForecast(r);
    NumbersAreThere(r);
    BandsAre(r);
    ForecastCarries(r);
  }

  lemma ProcessCarries(r: Request) returns (f: Forecast)
    requires HasNumber(r.series.values) && r.horizon > 0 && r.kind == Process
    ensures f == StatisticalForecast(r) && |f.q50| == r.horizon && AllKnown(Filled(r.series.values)) && |Numbers(r)| > 0
    ensures Carries(f, Changed(Numbers(r), |f.q50|))
  {
    f := ForecastOf(r);
  }

  /** A process is forecast by its changes, from its last value. */
  lemma ProcessIsByChanges(r: Request)
    requires HasNumber(r.series.values) && r.horizon > 0 && r.kind == Process
    ensures AllKnown(Filled(r.series.values)) && |Numbers(r)| > 0
    ensures IsByChanges(StatisticalForecast(r), Numbers(r), Numbers(r)[|Numbers(r)| - 1])
  {
    var f := ProcessCarries(r);
    ChangedIsByChanges(f, Numbers(r));
  }

  /** A counter is forecast by the changes of the counter counted on through its resets, from its own last
      value. */
  lemma CounterIsByChanges(r: Request)
    requires HasNumber(r.series.values) && r.horizon > 0 && r.kind == Counter
    ensures AllKnown(Filled(r.series.values)) && |Numbers(r)| > 0 && AllKnown(ResetFree(Filled(r.series.values)))
    ensures var free := Known(ResetFree(Filled(r.series.values)));
            CountsOn(Numbers(r), free) && IsByChanges(StatisticalForecast(r), free, Numbers(r)[|Numbers(r)| - 1])
  {
    var f := ForecastOf(r);
    ResetFreeCountsOn(Filled(r.series.values));
    CountedIsByChanges(f, Filled(r.series.values), Known(ResetFree(Filled(r.series.values))));
  }

  /** A cyclic signal or a state has a season to go by: at least two of them are there, and eight values
      more than one. */
  predicate HasSeason(r: Request) {
    r.period > 0 && |r.series.values| >= 2 * r.period && |r.series.values| >= r.period + 8
  }

  lemma CycleCarries(r: Request) returns (f: Forecast)
    requires HasNumber(r.series.values) && r.horizon > 0 && (r.kind == Cyclic || r.kind == State)
    ensures f == StatisticalForecast(r) && |f.q50| == r.horizon && AllKnown(Filled(r.series.values))
    ensures |Numbers(r)| == |r.series.values| > 0
    ensures HasSeason(r) ==>
      && |Strayed(Numbers(r), r.period, |Numbers(r)|)| > 0
      && Carries(f, Some(SeasonBands(Numbers(r), r.period, |f.q50|)))
    ensures !HasSeason(r) ==> Carries(f, Changed(Numbers(r), |f.q50|))
  {
    f := ForecastOf(r);
    var v := Numbers(r);
    if r.period > 0 && |v| >= 2 * r.period {
      StrayedLength(v, r.period, |v|);
    }
  }

  /** It is then forecast by its seasons, and otherwise by its changes. */
  lemma CycleIsBySeasons(r: Request)
    requires HasNumber(r.series.values) && r.horizon > 0 && (r.kind == Cyclic || r.kind == State)
    ensures AllKnown(Filled(r.series.values)) && |Numbers(r)| > 0
    ensures HasSeason(r) ==> IsBySeasons(StatisticalForecast(r), Numbers(r), r.period)
    ensures !HasSeason(r) ==> IsByChanges(StatisticalForecast(r), Numbers(r), Numbers(r)[|Numbers(r)| - 1])
  {
    var f := CycleCarries(r);
    if HasSeason(r) {
      SeasonsAreBySeasons(f, Numbers(r), r.period);
    } else {
      ChangedIsByChanges(f, Numbers(r));
    }
  }

  /** A degradation of at least three values is forecast by its trend; a shorter one not at all. */
  lemma DegradationIsByTrend(r: Request)
    requires HasNumber(r.series.values) && r.horizon > 0 && r.kind == Degradation
    ensures AllKnown(Filled(r.series.values))
    ensures |r.series.values| >= 3 ==> IsByTrend(StatisticalForecast(r), Numbers(r))
    ensures |r.series.values| < 3 ==> IsNothing(StatisticalForecast(r), r.horizon)
  {
    var f := ForecastOf(r);
    var v := Numbers(r);
    if |v| >= 3 {
      FitExists(v);
      TrendIsByTrend(f, v, LinearFit(v).value);
    }
  }

  /** A cycle is repeated, at every quantile and however far ahead. */
  lemma CycleComesBack(r: Request, k: nat)
    requires HasNumber(r.series.values) && (r.kind == Cyclic || r.kind == State) && HasSeason(r) && k < r.horizon
    requires AllKnown(Filled(r.series.values)) && ComesBack(Numbers(r), r.period)
    ensures |Numbers(r)| >= r.period && IsJust(StatisticalForecast(r), k, InCycle(Numbers(r), r.period, k))
  {
    var f := CycleCarries(r);
    CycleStep(f, Numbers(r), r.period, k, InCycle(Numbers(r), r.period, k));
  }

  /** A straight line of a process is continued, at every quantile, up to the furthest measured horizon. */
  lemma LineGoesOn(r: Request, v: seq<real>, slope: real, h: nat, furthest: nat)
    requires HasNumber(r.series.values) && r.kind == Process && AllKnown(Filled(r.series.values)) && v == Numbers(r)
    requires |v| >= 9 && IsStraight(v, slope) && 1 <= h <= furthest && IsMeasured(r.horizon, |v|, furthest)
    ensures IsJust(StatisticalForecast(r), h - 1, v[|v| - 1] + slope * h as real)
  {
    var f := ProcessCarries(r);
    LineOfChanges(f, v, slope, h, furthest, v[|v| - 1] + slope * h as real);
  }
}
