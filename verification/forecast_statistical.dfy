/** Seasons, trends and the choice between the statistical methods. */
module ForecastStatistical {
  import opened Options
  import opened ForecastSeries
  import opened ForecastShape
  import opened ForecastResets
  import opened ForecastQuantile
  import opened ForecastEngine

  // -------------------------------------------------------------- seasons

  /** The same moment in the last `seasons` seasons, as far as they are known. */
  function Earlier(v: seq<real>, p: nat, t: nat, seasons: nat): seq<real> {
    if seasons == 0 then []
    else
      var j := t - seasons * p;
      Earlier(v, p, t, seasons - 1) + if 0 <= j < |v| then [v[j]] else []
  }

  /** The median of the same moment in the last four seasons. */
  function SeasonAt(v: seq<real>, p: nat, t: nat): Number {
    var known := Earlier(v, p, t, 4);
    if |known| == 0 then None else Some(Quantile(Sort(known), 0.5))
  }

  method MeasureSeason(v: seq<real>, p: nat, t: nat) returns (m: Number)
    ensures m == SeasonAt(v, p, t)
  {
    var vals: seq<real> := [];
    for k := 1 to 5
      invariant vals == Earlier(v, p, t, k - 1)
    {
      var j := t - k * p;
      if 0 <= j < |v| {
        vals := vals + [v[j]];
      }
    }
    if |vals| == 0 {
      return None;
    }
    return Some(Quantile(Sort(vals), 0.5));
  }

  /** How far the values before `top` strayed from their seasons. */
  function Strayed(v: seq<real>, p: nat, top: nat): seq<real>
    requires top <= |v|
  {
    if top <= p then []
    else
      var m := SeasonAt(v, p, top - 1);
      Strayed(v, p, top - 1) + if m.Some? then [v[top - 1] - m.value] else []
  }

  /** The level h steps after the end: the season's, or past the known seasons the forecast's
      own of a season before. */
  function SeasonLevel(v: seq<real>, p: nat, h: nat): real
    requires 0 < p <= |v|
    decreases h
  {
    var m := SeasonAt(v, p, |v| + h);
    if m.Some? then m.value
    else if h < p then v[|v| + h - p]
    else SeasonLevel(v, p, h - p)
  }

  function SeasonBands(v: seq<real>, p: nat, h: nat): (r: seq<Triple>)
    requires 0 < p <= |v| && |Strayed(v, p, |v|)| > 0
    ensures |r| == h
  {
    if h == 0 then []
    else SeasonBands(v, p, h - 1) + [Moved(Quantiles(Strayed(v, p, |v|)), SeasonLevel(v, p, h - 1))]
  }

  method Stray(v: seq<real>, p: nat) returns (resid: seq<real>)
    requires p <= |v|
    ensures resid == Strayed(v, p, |v|)
  {
    resid := [];
    for t := p to |v|
      invariant resid == Strayed(v, p, t)
    {
      var m := MeasureSeason(v, p, t);
      if m.Some? {
        resid := resid + [v[t] - m.value];
      }
    }
  }

  ghost predicate IsExtended(v: seq<real>, p: nat, h: nat, ext: seq<real>)
    requires 0 < p <= |v|
  {
    |ext| == |v| + h && ext[..|v|] == v && forall k :: 0 <= k < h ==> ext[|v| + k] == SeasonLevel(v, p, k)
  }

  method ExtendSeason(v: seq<real>, p: nat, h: nat, ext: seq<real>) returns (m: real)
    requires 0 < p <= |v| && IsExtended(v, p, h, ext)
    ensures m == SeasonLevel(v, p, h) && IsExtended(v, p, h + 1, ext + [m])
  {
    var season := MeasureSeason(v, p, |v| + h);
    if season.Some? {
      m := season.value;
    } else {
      m := ext[|ext| - p];
      SeasonBefore(v, p, h, ext);
    }
    assert m == SeasonLevel(v, p, h);
    OneMore(v, p, h, ext, m);
  }

  lemma SeasonBefore(v: seq<real>, p: nat, h: nat, ext: seq<real>)
    requires 0 < p <= |v| && IsExtended(v, p, h, ext)
    ensures ext[|ext| - p] == if h < p then v[|v| + h - p] else SeasonLevel(v, p, h - p)
  {
    if h < p {
      assert ext[|ext| - p] == ext[..|v|][|v| + h - p];
    } else {
      var k := h - p;
      assert ext[|v| + k] == SeasonLevel(v, p, k);
    }
  }

  lemma OneMore(v: seq<real>, p: nat, h: nat, ext: seq<real>, m: real)
    requires 0 < p <= |v| && IsExtended(v, p, h, ext) && m == SeasonLevel(v, p, h)
    ensures IsExtended(v, p, h + 1, ext + [m])
  {
    assert (ext + [m])[..|v|] == ext[..|v|];
  }

  /** seasonal. */
  method Seasonal(v: seq<real>, p: nat, f: Buffers)
    requires 0 < p <= |v| && f.Valid()
    modifies f.q10, f.q50, f.q90
    ensures |Strayed(v, p, |v|)| < 8 && |v| < 9 ==> f.Forecast() == old(f.Forecast())
    ensures |Strayed(v, p, |v|)| < 8 && |v| >= 9 ==> Holds(f, ChangeBands(v, f.q50.Length, f.q50.Length))
    ensures |Strayed(v, p, |v|)| >= 8 ==> Holds(f, SeasonBands(v, p, f.q50.Length))
  {
    var resid := Stray(v, p);
    if |resid| < 8 {
      Changes(v, f);
      return;
    }
    var band := Quantiles(resid);
    var ext := v;
    for h := 0 to f.q50.Length
      invariant IsExtended(v, p, h, ext) && Holds(f, SeasonBands(v, p, h))
    {
      var m := ExtendSeason(v, p, h, ext);
      ext := ext + [m];
      Write(f, h, Moved(band, m), SeasonBands(v, p, h));
    }
  }

  lemma {:induction false} SeasonBandsAreOrdered(v: seq<real>, p: nat, h: nat, k: nat)
    requires 0 < p <= |v| && |Strayed(v, p, |v|)| > 0 && k < h
    ensures IsOrdered(SeasonBands(v, p, h)[k])
  {
    if k < h - 1 {
      SeasonBandsAreOrdered(v, p, h - 1, k);
    } else {
      QuantilesAreOrdered(Strayed(v, p, |v|));
    }
  }

  lemma {:induction false} ChangeBandsAreOrdered(v: seq<real>, horizon: nat, h: nat, k: nat)
    requires k < h <= horizon && |v| >= 9
    ensures IsOrdered(ChangeBands(v, horizon, h)[k])
  {
    var init := ChangeBands(v, horizon, h - 1);
    if k < h - 1 {
      ChangeBandsAreOrdered(v, horizon, h - 1, k);
      assert ChangeBands(v, horizon, h)[k] == init[k];
    } else {
      LastChangeBand(v, horizon, h);
    }
  }

  lemma LastChangeBand(v: seq<real>, horizon: nat, h: nat)
    requires 1 <= h <= horizon && |v| >= 9
    ensures IsOrdered(ChangeBands(v, horizon, h)[h - 1])
  {
    ChangeBandIsOrdered(v, horizon, h);
    assert ChangeBands(v, horizon, h)[h - 1] == Moved(ChangeBand(v, horizon, h), v[|v| - 1]);
  }

  // --------------------------------------------------------------- trends

  /** Sums over steps and values, as a fit needs them. */
  datatype Sums = Sums(x: real, y: real, xx: real, xy: real)

  function SumsOf(v: seq<real>): Sums {
    if |v| == 0 then Sums(0.0, 0.0, 0.0, 0.0)
    else
      var s, i, y := SumsOf(v[..|v| - 1]), (|v| - 1) as real, v[|v| - 1];
      Sums(s.x + i, s.y + y, s.xx + i * i, s.xy + i * y)
  }

  datatype Fit = Fit(slope: real, icept: real)

  function FitOf(s: Sums, n: real): Option<Fit>
    requires n > 0.0
  {
    var den := n * s.xx - s.x * s.x;
    if den == 0.0 then None
    else
      var slope := (n * s.xy - s.x * s.y) / den;
      Some(Fit(slope, (s.y - slope * s.x) / n))
  }

  /** linearFit, on a series without gaps. */
  function LinearFit(v: seq<real>): Option<Fit> {
    if |v| < 3 then None else FitOf(SumsOf(v), |v| as real)
  }

  method LinearFitLoop(v: seq<real>) returns (fit: Option<Fit>)
    ensures fit == LinearFit(v)
  {
    var s := Sums(0.0, 0.0, 0.0, 0.0);
    for i := 0 to |v|
      invariant s == SumsOf(v[..i])
    {
      assert v[..i + 1][..i] == v[..i];
      var fi := i as real;
      s := Sums(s.x + fi, s.y + v[i], s.xx + fi * fi, s.xy + fi * v[i]);
    }
    assert v[..|v|] == v;
    if |v| < 3 {
      return None;
    }
    return FitOf(s, |v| as real);
  }

  /** What the line misses of each value. */
  function Residual(v: seq<real>, fit: Fit, i: nat): real
    requires i < |v|
  {
    v[i] - (fit.icept + fit.slope * i as real)
  }

  function Residuals(v: seq<real>, fit: Fit): (r: seq<real>)
    ensures |r| == |v|
  {
    seq(|v|, i requires 0 <= i < |v| => Residual(v, fit, i))
  }

  /** The line, moved to start where the signal is. */
  function TrendMedian(v: seq<real>, fit: Fit, h: nat): real
    requires |v| > 0
  {
    var offset := v[|v| - 1] - (fit.icept + fit.slope * (|v| - 1) as real);
    fit.icept + fit.slope * (|v| - 1 + h) as real + offset
  }

  function TrendTriple(v: seq<real>, fit: Fit, h: nat): Triple
    requires |v| > 0
  {
    var m := TrendMedian(v, fit, h);
    Triple(m + Quantiles(Residuals(v, fit)).lo, m, m + Quantiles(Residuals(v, fit)).hi)
  }

  function TrendBands(v: seq<real>, fit: Fit, h: nat): (r: seq<Triple>)
    requires |v| > 0
    ensures |r| == h
  {
    if h == 0 then [] else TrendBands(v, fit, h - 1) + [TrendTriple(v, fit, h)]
  }

  /** The median starts at the last value and follows the slope. */
  lemma TrendStartsAtTheSignal(v: seq<real>, fit: Fit, h: nat)
    requires |v| > 0
    ensures TrendTriple(v, fit, h).mid == v[|v| - 1] + fit.slope * h as real
  {
    var a, b := (|v| - 1) as real, h as real;
    assert (|v| - 1 + h) as real == a + b;
    assert fit.slope * (a + b) == fit.slope * a + fit.slope * b;
  }

  method WriteTrend(v: seq<real>, fit: Fit, resid: seq<real>, f: Buffers, h: nat)
    requires |v| > 0 && f.Valid() && 1 <= h <= f.q50.Length && resid == Residuals(v, fit)
    requires Holds(f, TrendBands(v, fit, h - 1))
    modifies f.q10, f.q50, f.q90
    ensures Holds(f, TrendBands(v, fit, h))
  {
    var band, m := Quantiles(resid), TrendMedian(v, fit, h);
    Write(f, h - 1, Triple(m + band.lo, m, m + band.hi), TrendBands(v, fit, h - 1));
  }

  method Missed(v: seq<real>, fit: Fit) returns (resid: seq<real>)
    ensures resid == Residuals(v, fit)
  {
    resid := [];
    for i := 0 to |v|
      invariant |resid| == i && forall k :: 0 <= k < i ==> resid[k] == Residual(v, fit, k)
    {
      resid := resid + [Residual(v, fit, i)];
    }
  }

  /** trend. */
  method FollowTrend(v: seq<real>, f: Buffers)
    requires |v| > 0 && f.Valid()
    modifies f.q10, f.q50, f.q90
    ensures LinearFit(v).None? && |v| < 9 ==> f.Forecast() == old(f.Forecast())
    ensures LinearFit(v).None? && |v| >= 9 ==> Holds(f, ChangeBands(v, f.q50.Length, f.q50.Length))
    ensures LinearFit(v).Some? ==> Holds(f, TrendBands(v, LinearFit(v).value, f.q50.Length))
  {
    var fit := LinearFitLoop(v);
    if fit.None? {
      Changes(v, f);
      return;
    }
    var resid := Missed(v, fit.value);
    for h := 1 to f.q50.Length + 1
      invariant Holds(f, TrendBands(v, fit.value, h - 1))
    {
      WriteTrend(v, fit.value, resid, f, h);
    }
  }

  /** The normal equations, in the sums of the series. */
  ghost predicate Balanced(s: Sums, n: real, fit: Fit) {
    s.y - n * fit.icept - fit.slope * s.x == 0.0 && s.xy - fit.icept * s.x - fit.slope * s.xx == 0.0
  }

  // --------------------------------------------------- least squares

  function Total(r: seq<real>): real { if |r| == 0 then 0.0 else Total(r[..|r| - 1]) + r[|r| - 1] }

  function Dot(w: seq<real>, r: seq<real>): real
    requires |w| == |r|
  {
    if |r| == 0 then 0.0 else Dot(w[..|r| - 1], r[..|r| - 1]) + w[|r| - 1] * r[|r| - 1]
  }

  function Places(n: nat): (w: seq<real>)
    ensures |w| == n
  {
    seq(n, i requires 0 <= i < n => i as real)
  }

  lemma PlacesPrefix(n: nat)
    requires n > 0
    ensures Places(n)[..n - 1] == Places(n - 1) && Places(n)[n - 1] == (n - 1) as real
  {
  }

  /** The sums of the series, said of its values and their places. */
  lemma {:induction false} SumsAreDots(v: seq<real>)
    ensures SumsOf(v) == Sums(Total(Places(|v|)), Total(v), Dot(Places(|v|), Places(|v|)), Dot(Places(|v|), v))
  {
    if |v| > 0 {
      SumsAreDots(v[..|v| - 1]);
      PlacesPrefix(|v|);
    }
  }

  /** r'[i] is r[i] + d[i]. */
  ghost predicate IsSum(r': seq<real>, r: seq<real>, d: seq<real>) {
    |r'| == |r| == |d| && forall i :: 0 <= i < |r| ==> r'[i] == r[i] + d[i]
  }

  lemma SquareMoves(m: real, m': real, p: real, r: real, d: real)
    requires m' >= m + 2.0 * p
    ensures m' + (r + d) * (r + d) >= (m + r * r) + 2.0 * (p + d * r)
  {
    assert (r + d) * (r + d) == r * r + 2.0 * (d * r) + d * d;
  }

  lemma {:induction false} SquaresMove(r: seq<real>, r': seq<real>, d: seq<real>)
    requires IsSum(r', r, d)
    ensures Dot(r', r') >= Dot(r, r) + 2.0 * Dot(d, r)
  {
    if |r| > 0 {
      var n := |r| - 1;
      SquaresMove(r[..n], r'[..n], d[..n]);
      SquareMoves(Dot(r[..n], r[..n]), Dot(r'[..n], r'[..n]), Dot(d[..n], r[..n]), r[n], d[n]);
    }
  }

  function Scaled(q: real, w: seq<real>): (r: seq<real>)
    ensures |r| == |w|
  {
    seq(|w|, i requires 0 <= i < |w| => q * w[i])
  }

  function Constant(p: real, n: nat): (r: seq<real>)
    ensures |r| == n
  {
    seq(n, i requires 0 <= i < n => p)
  }

  lemma ScaledPrefix(q: real, w: seq<real>)
    requires |w| > 0
    ensures Scaled(q, w)[..|w| - 1] == Scaled(q, w[..|w| - 1])
  {
    var init := w[..|w| - 1];
    forall i | 0 <= i < |init|
      ensures Scaled(q, w)[i] == Scaled(q, init)[i]
    {
      assert init[i] == w[i];
    }
  }

  lemma ConstantPrefix(p: real, n: nat)
    requires n > 0
    ensures Constant(p, n)[..n - 1] == Constant(p, n - 1)
  {
  }

  lemma Regroups(q: real, w: real, r: real)
    ensures (q * w) * r == q * (w * r)
  {
  }

  lemma DotStep(w: real, r: real, d: real)
    ensures w * (r + d) == w * r + w * d
  {
  }

  lemma {:induction false} ScaledTotal(q: real, w: seq<real>)
    ensures Total(Scaled(q, w)) == q * Total(w)
  {
    if |w| > 0 {
      var n := |w| - 1;
      ScaledTotal(q, w[..n]);
      ScaledPrefix(q, w);
      DotStep(q, Total(w[..n]), w[n]);
    }
  }

  lemma {:induction false} ScaledDot(q: real, w: seq<real>, r: seq<real>)
    requires |w| == |r|
    ensures Dot(Scaled(q, w), r) == q * Dot(w, r)
  {
    if |w| > 0 {
      var n := |w| - 1;
      ScaledDot(q, w[..n], r[..n]);
      ScaledPrefix(q, w);
      Regroups(q, w[n], r[n]);
      DotStep(q, Dot(w[..n], r[..n]), w[n] * r[n]);
    }
  }

  lemma {:induction false} ConstantTotal(p: real, n: nat)
    ensures Total(Constant(p, n)) == p * n as real
  {
    if n > 0 {
      ConstantTotal(p, n - 1);
      ConstantPrefix(p, n);
      DotStep(p, (n - 1) as real, 1.0);
    }
  }

  lemma {:induction false} ConstantDot(p: real, r: seq<real>)
    ensures Dot(Constant(p, |r|), r) == p * Total(r)
  {
    if |r| > 0 {
      var n := |r| - 1;
      ConstantDot(p, r[..n]);
      ConstantPrefix(p, |r|);
      DotStep(p, Total(r[..n]), r[n]);
    }
  }

  lemma {:induction false} SumTotal(r': seq<real>, r: seq<real>, d: seq<real>)
    requires IsSum(r', r, d)
    ensures Total(r') == Total(r) + Total(d)
  {
    if |r| > 0 {
      var n := |r| - 1;
      SumTotal(r'[..n], r[..n], d[..n]);
    }
  }

  lemma {:induction false} SumDot(w: seq<real>, r': seq<real>, r: seq<real>, d: seq<real>)
    requires IsSum(r', r, d) && |w| == |r|
    ensures Dot(w, r') == Dot(w, r) + Dot(w, d)
  {
    if |r| > 0 {
      var n := |r| - 1;
      SumDot(w[..n], r'[..n], r[..n], d[..n]);
      DotStep(w[n], r[n], d[n]);
    }
  }

  lemma {:induction false} DotSwaps(w: seq<real>, r: seq<real>)
    requires |w| == |r|
    ensures Dot(w, r) == Dot(r, w)
  {
    if |r| > 0 {
      DotSwaps(w[..|r| - 1], r[..|r| - 1]);
    }
  }

  /** The line's values at the steps of the series. */
  function OnLine(fit: Fit, n: nat): (r: seq<real>)
    ensures |r| == n
  {
    seq(n, i requires 0 <= i < n => fit.icept + fit.slope * i as real)
  }

  lemma OnLineIsSum(fit: Fit, n: nat)
    ensures IsSum(OnLine(fit, n), Constant(fit.icept, n), Scaled(fit.slope, Places(n)))
  {
  }

  lemma TotalOnLine(fit: Fit, n: nat)
    ensures Total(OnLine(fit, n)) == fit.icept * n as real + fit.slope * Total(Places(n))
  {
    OnLineIsSum(fit, n);
    SumTotal(OnLine(fit, n), Constant(fit.icept, n), Scaled(fit.slope, Places(n)));
    ConstantTotal(fit.icept, n);
    ScaledTotal(fit.slope, Places(n));
  }

  lemma DotOnLine(fit: Fit, r: seq<real>, n: nat)
    requires n == |r|
    ensures Dot(r, OnLine(fit, n)) == fit.icept * Total(r) + fit.slope * Dot(Places(n), r)
  {
    OnLineIsSum(fit, n);
    SumDot(r, OnLine(fit, n), Constant(fit.icept, n), Scaled(fit.slope, Places(n)));
    DotSwaps(r, Constant(fit.icept, n));
    DotSwaps(r, Scaled(fit.slope, Places(n)));
    ConstantDot(fit.icept, r);
    ScaledDot(fit.slope, Places(n), r);
  }

  lemma LineAndResiduals(v: seq<real>, fit: Fit)
    ensures IsSum(v, Residuals(v, fit), OnLine(fit, |v|))
  {
  }

  /** The sum of a line's values at n places, and that sum weighed by the places. */
  ghost predicate LineSums(x: real, xx: real, n: real, fit: Fit, total: real, moment: real) {
    total == fit.icept * n + fit.slope * x && moment == fit.icept * x + fit.slope * xx
  }

  lemma OnLineSums(fit: Fit, n: nat)
    ensures LineSums(Total(Places(n)), Dot(Places(n), Places(n)), n as real, fit, Total(OnLine(fit, n)),
                     Dot(Places(n), OnLine(fit, n)))
  {
    TotalOnLine(fit, n);
    DotOnLine(fit, Places(n), n);
  }

  lemma BalancedSums(s: Sums, n: real, fit: Fit, total: real, moment: real, t: real, m: real)
    requires Balanced(s, n, fit) && s.y == total + t && s.xy == moment + m && LineSums(s.x, s.xx, n, fit, t, m)
    ensures total == 0.0 && moment == 0.0
  {
  }

  ghost predicate Balances(r: seq<real>, w: seq<real>) { |r| == |w| && Total(r) == 0.0 && Dot(w, r) == 0.0 }

  /** Values v that miss a line d over w by r, where the line satisfies the normal equations: what
      is missed adds up to nothing, also when weighed. */
  lemma MissesBalance(v: seq<real>, r: seq<real>, d: seq<real>, w: seq<real>, n: real, fit: Fit, s: Sums)
    requires IsSum(v, r, d) && |w| == |v| && s.y == Total(v) && s.xy == Dot(w, v)
    requires Balanced(s, n, fit) && LineSums(s.x, s.xx, n, fit, Total(d), Dot(w, d))
    ensures Balances(r, w)
  {
    SumTotal(v, r, d);
    SumDot(w, v, r, d);
    BalancedSums(s, n, fit, Total(r), Dot(w, r), Total(d), Dot(w, d));
  }

  lemma ResidualsBalance(v: seq<real>, fit: Fit)
    requires Balanced(SumsOf(v), |v| as real, fit)
    ensures Balances(Residuals(v, fit), Places(|v|))
  {
    SumsAreDots(v);
    LineAndResiduals(v, fit);
    OnLineSums(fit, |v|);
    MissesBalance(v, Residuals(v, fit), OnLine(fit, |v|), Places(|v|), |v| as real, fit, SumsOf(v));
  }

  lemma OtherLineMoves(v: seq<real>, fit: Fit, other: Fit, d: seq<real>)
    requires d == OnLine(Fit(fit.slope - other.slope, fit.icept - other.icept), |v|)
    ensures IsSum(Residuals(v, other), Residuals(v, fit), d)
  {
    forall i | 0 <= i < |v|
      ensures Residuals(v, other)[i] == Residuals(v, fit)[i] + d[i]
    {
      ResidualMoves(fit.icept, fit.slope, other.icept, other.slope, i as real, v[i]);
    }
  }

  lemma ResidualMoves(c: real, k: real, c': real, k': real, i: real, y: real)
    ensures y - (c' + k' * i) == (y - (c + k * i)) + ((c - c') + (k - k') * i)
  {
  }

  lemma BalancedIsLeast(v: seq<real>, fit: Fit, other: Fit)
    requires Balances(Residuals(v, fit), Places(|v|))
    ensures Squares(v, fit) <= Squares(v, other)
  {
    var r, away := Residuals(v, fit), Fit(fit.slope - other.slope, fit.icept - other.icept);
    var d := OnLine(away, |v|);
    OtherLineMoves(v, fit, other, d);
    SquaresMove(r, Residuals(v, other), d);
    NothingAlong(r, away, |v|);
  }

  lemma NothingAlong(r: seq<real>, away: Fit, n: nat)
    requires n == |r| && Balances(r, Places(n))
    ensures Dot(OnLine(away, n), r) == 0.0
  {
    DotOnLine(away, r, n);
    DotSwaps(r, OnLine(away, n));
  }

  /** What a line misses of the series, squared and summed. */
  function Squares(v: seq<real>, line: Fit): real { Dot(Residuals(v, line), Residuals(v, line)) }

  /** The fitted line is the least-squares one: no line misses less of the series. */
  lemma FitIsLeastSquares(v: seq<real>, fit: Fit, other: Fit)
    requires LinearFit(v) == Some(fit)
    ensures Squares(v, fit) <= Squares(v, other)
  {
    FitBalances(v, fit);
    ResidualsBalance(v, fit);
    BalancedIsLeast(v, fit, other);
  }

  /** It satisfies the normal equations of the series. */
  lemma FitBalances(v: seq<real>, fit: Fit)
    requires LinearFit(v) == Some(fit)
    ensures Balanced(SumsOf(v), |v| as real, fit)
  {
    NormalEquations(SumsOf(v), |v| as real, fit);
  }

  lemma NormalEquations(s: Sums, n: real, fit: Fit)
    requires n > 0.0 && FitOf(s, n) == Some(fit)
    ensures Balanced(s, n, fit)
  {
    var den, k, c := n * s.xx - s.x * s.x, fit.slope, fit.icept;
    assert k * den == n * s.xy - s.x * s.y;
    assert n * c == s.y - k * s.x;
    SecondEquation(n, k, c, s.x, s.y, s.xx, s.xy);
  }

  lemma SecondEquation(n: real, k: real, c: real, x: real, y: real, xx: real, xy: real)
    requires n > 0.0 && k * (n * xx - x * x) == n * xy - x * y && n * c == y - k * x
    ensures xy - c * x - k * xx == 0.0
  {
    var e := xy - c * x - k * xx;
    assert n * e == n * xy - n * c * x - n * (k * xx);
    assert n * c * x == (y - k * x) * x;
    assert (y - k * x) * x == x * y - k * (x * x);
    assert k * (n * xx - x * x) == n * (k * xx) - k * (x * x);
    assert n * e == 0.0;
  }

  // ------------------------------------------------------ the choice of method

  datatype Request = Request(series: Series, horizon: nat, kind: Kind, period: int)

  /** The bands of every step, or none at all. */
  type Bands = Option<seq<Triple>>

  function Changed(v: seq<real>, horizon: nat): Bands {
    if |v| < 9 then None else Some(ChangeBands(v, horizon, horizon))
  }

  function Seasoned(v: seq<real>, p: nat, horizon: nat): Bands
    requires 0 < p <= |v|
  {
    if |Strayed(v, p, |v|)| < 8 then Changed(v, horizon) else Some(SeasonBands(v, p, horizon))
  }

  function Trended(v: seq<real>, horizon: nat): Bands
    requires |v| > 0
  {
    if LinearFit(v).None? then Changed(v, horizon) else Some(TrendBands(v, LinearFit(v).value, horizon))
  }

  function Shifted(b: seq<Triple>, d: real): (r: seq<Triple>)
    ensures |r| == |b|
  {
    seq(|b|, k requires 0 <= k < |b| => Moved(b[k], d))
  }

  lemma ResetFreeIsKnown(v: seq<Number>)
    requires AllKnown(v)
    ensures AllKnown(ResetFree(v))
  {
  }

  /** A counter's bands are those of the reset-free counter, moved to its last value. */
  function Counted(v: seq<Number>, horizon: nat): Bands
    requires AllKnown(v) && |v| > 0
  {
    ResetFreeIsKnown(v);
    var b := Known(ResetFree(v));
    var changed := Changed(b, horizon);
    if changed.None? then None else Some(Shifted(changed.value, v[|v| - 1].value - b[|b| - 1]))
  }

  function BandsOf(v: seq<Number>, kind: Kind, period: int, horizon: nat): Bands
    requires AllKnown(v) && |v| > 0
  {
    match kind
    case Cyclic | State =>
      if period > 0 && |v| >= 2 * period then Seasoned(Known(v), period, horizon) else Changed(Known(v), horizon)
    case Degradation => Trended(Known(v), horizon)
    case Counter => Counted(v, horizon)
    case Process => Changed(Known(v), horizon)
  }

  /** The buffers hold the bands, or nothing. */
  ghost predicate HoldsBands(f: Buffers, bands: Bands)
    requires f.Valid()
    reads f.q10, f.q50, f.q90
  {
    match bands
    case None => forall k :: 0 <= k < f.q50.Length ==> f.q10[k] == f.q50[k] == f.q90[k] == None
    case Some(b) => |b| == f.q50.Length && Holds(f, b)
  }

  method NewForecast(s: Series, horizon: nat) returns (f: Buffers)
    ensures fresh(f) && fresh(f.q10) && fresh(f.q50) && fresh(f.q90)
    ensures f.Valid() && f.q50.Length == horizon && HoldsBands(f, None) && f.start == s.End() && f.step == s.step
  {
    var nothing: seq<Number> := seq(horizon, i requires 0 <= i < horizon => None);
    f := new Buffers(Forecast(s.End(), s.step, nothing, nothing, nothing));
    assert f.Forecast().q50 == f.q50[..] && f.Forecast().q10 == f.q10[..] && f.Forecast().q90 == f.q90[..];
    forall k | 0 <= k < horizon
      ensures f.q10[k] == f.q50[k] == f.q90[k] == None
    {
      assert f.q10[..][k] == None && f.q50[..][k] == None && f.q90[..][k] == None;
    }
  }

  lemma Untouched(f: Buffers, before: Forecast)
    requires f.Valid() && f.Forecast() == before && |before.q50| == f.q50.Length
    requires forall k :: 0 <= k < |before.q50| ==> At(before, k) == Band(None, None, None)
    ensures HoldsBands(f, None)
  {
    forall k | 0 <= k < f.q50.Length
      ensures f.q10[k] == f.q50[k] == f.q90[k] == None
    {
      assert At(before, k) == Band(f.q10[..][k], f.q50[..][k], f.q90[..][k]);
    }
  }

  method RunChanges(v: seq<real>, f: Buffers)
    requires |v| > 0 && f.Valid() && HoldsBands(f, None)
    modifies f.q10, f.q50, f.q90
    ensures HoldsBands(f, Changed(v, f.q50.Length))
  {
    Changes(v, f);
    if |v| < 9 {
      Untouched(f, old(f.Forecast()));
    }
  }

  method RunSeasonal(v: seq<real>, p: nat, f: Buffers)
    requires 0 < p <= |v| && f.Valid() && HoldsBands(f, None)
    modifies f.q10, f.q50, f.q90
    ensures HoldsBands(f, Seasoned(v, p, f.q50.Length))
  {
    Seasonal(v, p, f);
    if |Strayed(v, p, |v|)| < 8 && |v| < 9 {
      Untouched(f, old(f.Forecast()));
    }
  }

  method RunTrend(v: seq<real>, f: Buffers)
    requires |v| > 0 && f.Valid() && HoldsBands(f, None)
    modifies f.q10, f.q50, f.q90
    ensures HoldsBands(f, Trended(v, f.q50.Length))
  {
    FollowTrend(v, f);
    if LinearFit(v).None? && |v| < 9 {
      Untouched(f, old(f.Forecast()));
    }
  }

  function Plus(x: Number, d: real): Number { if x.None? then None else Some(d + x.value) }

  method ShiftAll(f: Buffers, d: real, ghost bands: Bands)
    requires f.Valid() && HoldsBands(f, bands)
    modifies f.q10, f.q50, f.q90
    ensures HoldsBands(f, if bands.None? then None else Some(Shifted(bands.value, d)))
  {
    for i := 0 to f.q50.Length
      invariant forall k :: 0 <= k < i ==>
        f.q10[k] == Plus(old(f.q10[k]), d) && f.q50[k] == Plus(old(f.q50[k]), d) && f.q90[k] == Plus(old(f.q90[k]), d)
      invariant forall k :: i <= k < f.q50.Length ==>
        f.q10[k] == old(f.q10[k]) && f.q50[k] == old(f.q50[k]) && f.q90[k] == old(f.q90[k])
    {
      f.q10[i], f.q50[i], f.q90[i] := Plus(f.q10[i], d), Plus(f.q50[i], d), Plus(f.q90[i], d);
    }
  }

  method ResetFreeNumbers(v: seq<Number>) returns (b: seq<real>)
    requires AllKnown(v)
    ensures AllKnown(ResetFree(v)) && b == Known(ResetFree(v)) && |b| == |v|
  {
    var free := ResetFreeLoop(v);
    ResetFreeIsKnown(v);
    b := Known(free[..]);
  }

  method RunCounter(v: seq<Number>, f: Buffers)
    requires AllKnown(v) && |v| > 0 && f.Valid() && HoldsBands(f, None)
    modifies f.q10, f.q50, f.q90
    ensures HoldsBands(f, Counted(v, f.q50.Length))
  {
    var b := ResetFreeNumbers(v);
    RunChanges(b, f);
    ShiftAll(f, v[|v| - 1].value - b[|b| - 1], Changed(b, f.q50.Length));
  }

  /** The whole forecast. */
  function StatisticalBands(r: Request): Bands {
    var v := Filled(r.series.values);
    if |v| == 0 || v[|v| - 1].None? || r.horizon == 0 then None
    else
      LastNumberFillsAll(r.series.values);
      BandsOf(v, r.kind, r.period, r.horizon)
  }

  lemma LastNumberFillsAll(v: seq<Number>)
    requires |v| > 0 && Filled(v)[|v| - 1].Some?
    ensures AllKnown(Filled(v))
  {
    FilledIsWhole(v);
    LastSeenIsSeen(v);
  }

  function Nothing(n: nat): (r: seq<Number>)
    ensures |r| == n && forall k :: 0 <= k < n ==> r[k] == None
  {
    seq(n, i requires 0 <= i < n => None)
  }

  /** The forecast a request gets. */
  function StatisticalForecast(r: Request): (f: Forecast)
    ensures WellFormed(f)
  {
    var b := StatisticalBands(r);
    if b.None? then Forecast(r.series.End(), r.series.step, Nothing(r.horizon), Nothing(r.horizon), Nothing(r.horizon))
    else
      var t := b.value;
      Forecast(r.series.End(), r.series.step,
               seq(|t|, k requires 0 <= k < |t| => Some(t[k].lo)),
               seq(|t|, k requires 0 <= k < |t| => Some(t[k].mid)),
               seq(|t|, k requires 0 <= k < |t| => Some(t[k].hi)))
  }

  lemma HoldsTheForecast(r: Request, f: Buffers)
    requires f.Valid() && f.q50.Length == r.horizon && HoldsBands(f, StatisticalBands(r))
    requires f.start == r.series.End() && f.step == r.series.step
    ensures f.Forecast() == StatisticalForecast(r)
  {
    var g := StatisticalForecast(r);
    assert f.q10[..] == g.q10 && f.q50[..] == g.q50 && f.q90[..] == g.q90;
  }

  /** statistical. */
  method Statistical(r: Request) returns (f: Buffers)
    ensures fresh(f) && fresh(f.q10) && fresh(f.q50) && fresh(f.q90)
    ensures f.Valid() && f.Forecast() == StatisticalForecast(r)
  {
    f := NewForecast(r.series, r.horizon);
    var filled := FillForward(r.series.values);
    var v := filled[..];
    if |v| == 0 || v[|v| - 1].None? || r.horizon == 0 {
      HoldsTheForecast(r, f);
      return;
    }
    LastNumberFillsAll(r.series.values);
    RunKind(v, r, f);
    HoldsTheForecast(r, f);
  }

  method RunKind(v: seq<Number>, r: Request, f: Buffers)
    requires AllKnown(v) && |v| > 0 && f.Valid() && HoldsBands(f, None)
    modifies f.q10, f.q50, f.q90
    ensures HoldsBands(f, BandsOf(v, r.kind, r.period, f.q50.Length))
  {
    match r.kind {
      case Cyclic | State =>
        if r.period > 0 && |v| >= 2 * r.period {
          RunSeasonal(Known(v), r.period, f);
        } else {
          RunChanges(Known(v), f);
        }
      case Degradation => RunTrend(Known(v), f);
      case Counter => RunCounter(v, f);
      case Process => RunChanges(Known(v), f);
    }
  }

  // ------------------------------------------------------------- the promise

  /** A forecast has a number at every step and quantile, or none anywhere. */
  lemma WholeOrEmpty(r: Request)
    ensures AllOrNone(StatisticalForecast(r))
    ensures var f := StatisticalForecast(r);
            || (forall i :: 0 <= i < |f.q50| ==> Whole(At(f, i)))
            || (forall i :: 0 <= i < |f.q50| ==> Empty(At(f, i)))
  {
  }

  ghost predicate BandsAreOrdered(b: Bands) {
    b.Some? ==> forall k :: 0 <= k < |b.value| ==> IsOrdered(b.value[k])
  }

  lemma ChangedIsOrdered(v: seq<real>, horizon: nat)
    ensures BandsAreOrdered(Changed(v, horizon))
  {
    if |v| >= 9 {
      forall k | 0 <= k < horizon
        ensures IsOrdered(ChangeBands(v, horizon, horizon)[k])
      {
        ChangeBandsAreOrdered(v, horizon, horizon, k);
      }
    }
  }

  lemma SeasonedIsOrdered(v: seq<real>, p: nat, horizon: nat)
    requires 0 < p <= |v|
    ensures BandsAreOrdered(Seasoned(v, p, horizon))
  {
    ChangedIsOrdered(v, horizon);
    if |Strayed(v, p, |v|)| >= 8 {
      forall k | 0 <= k < horizon
        ensures IsOrdered(SeasonBands(v, p, horizon)[k])
      {
        SeasonBandsAreOrdered(v, p, horizon, k);
      }
    }
  }

  lemma CountedIsOrdered(v: seq<Number>, horizon: nat)
    requires AllKnown(v) && |v| > 0
    ensures BandsAreOrdered(Counted(v, horizon))
  {
    ResetFreeIsKnown(v);
    ChangedIsOrdered(Known(ResetFree(v)), horizon);
  }

  /** Every method but the trend's measures its quantiles in order. */
  lemma BandsComeOrdered(r: Request)
    requires r.kind != Degradation
    ensures BandsAreOrdered(StatisticalBands(r))
  {
    var v := Filled(r.series.values);
    if |v| > 0 && v[|v| - 1].Some? && r.horizon > 0 {
      LastNumberFillsAll(r.series.values);
      ChangedIsOrdered(Known(v), r.horizon);
      match r.kind
      case Cyclic | State =>
        if r.period > 0 && |v| >= 2 * r.period {
          SeasonedIsOrdered(Known(v), r.period, r.horizon);
        }
      case Counter => CountedIsOrdered(v, r.horizon);
      case Process =>
    }
  }

  /** Whatever the series and the kind, the shaped forecast is as the kind implies; and only
      a trend's quantiles ever had to be put in order. */
  lemma StatisticalIsSound(r: Request, last: Number)
    ensures Sound(Shaped(StatisticalForecast(r), r.kind, last), r.kind, last)
    ensures r.kind != Degradation ==> InOrderEverywhere(StatisticalForecast(r))
  {
    WholeOrEmpty(r);
    ShapeIsSound(StatisticalForecast(r), r.kind, last);
    if r.kind != Degradation {
      BandsComeOrdered(r);
      var f, b := StatisticalForecast(r), StatisticalBands(r);
      forall i | 0 <= i < |f.q50|
        ensures Empty(At(f, i)) || Ordered(At(f, i))
      {
        assert b.Some? ==> IsOrdered(b.value[i]);
      }
    }
  }
}
