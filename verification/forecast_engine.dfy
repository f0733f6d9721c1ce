/** The statistical engine: bands measured on the past of the signal itself.

A band is `None` at every step or a number at every step and quantile, and all but the
trend's are in order before anything is shaped. */
module ForecastEngine {
  import opened Options
  import opened ForecastShape
  import opened ForecastQuantile

  datatype Triple = Triple(lo: real, mid: real, hi: real)

  ghost predicate IsOrdered(t: Triple) { t.lo <= t.mid <= t.hi }

  function Quantiles(s: seq<real>): Triple
    requires |s| > 0
  {
    Triple(Quantile(Sort(s), 0.1), Quantile(Sort(s), 0.5), Quantile(Sort(s), 0.9))
  }

  lemma QuantilesAreOrdered(s: seq<real>)
    requires |s| > 0
    ensures IsOrdered(Quantiles(s))
  {
    SortAscends(s);
    QuantilesAscend(Sort(s), 0.1, 0.5);
    QuantilesAscend(Sort(s), 0.5, 0.9);
  }

  function Moved(t: Triple, base: real): Triple { Triple(base + t.lo, base + t.mid, base + t.hi) }

  /** The buffers hold the bands from the first step on. */
  ghost predicate Holds(f: Buffers, bands: seq<Triple>)
    requires f.Valid()
    reads f.q10, f.q50, f.q90
  {
    |bands| <= f.q50.Length && forall k :: 0 <= k < |bands| ==>
      f.q10[k] == Some(bands[k].lo) && f.q50[k] == Some(bands[k].mid) && f.q90[k] == Some(bands[k].hi)
  }

  method Write(f: Buffers, k: nat, t: Triple, ghost bands: seq<Triple>)
    requires f.Valid() && k < f.q50.Length && Holds(f, bands) && |bands| == k
    modifies f.q10, f.q50, f.q90
    ensures Holds(f, bands + [t])
  {
    f.q10[k], f.q50[k], f.q90[k] := Some(t.lo), Some(t.mid), Some(t.hi);
  }

  // -------------------------------------------------------------- changes

  /** How much the signal moved over h steps, at every past moment. */
  function Moves(v: seq<real>, h: nat): (m: seq<real>)
    requires h <= |v|
    ensures |m| == |v| - h
  {
    seq(|v| - h, t requires 0 <= t < |v| - h => v[t + h] - v[t])
  }

  function Stride(horizon: nat): nat { if horizon > 32 then (horizon + 23) / 24 else 1 }

  /** The horizons that are measured: every one up to 8, then every stride, and the last. */
  predicate Measured(horizon: nat, n: nat, h: nat) {
    1 <= h <= horizon && h + 8 <= n && (h <= 8 || h % Stride(horizon) == 0 || h == horizon)
  }

  /** The measured horizons up to h. */
  function Grid(horizon: nat, n: nat, h: nat): seq<nat> {
    if h == 0 then [] else Grid(horizon, n, h - 1) + if Measured(horizon, n, h) then [h] else []
  }

  lemma {:induction false} GridPoints(horizon: nat, n: nat, h: nat, top: nat)
    requires h <= top
    ensures |Grid(horizon, n, h)| <= |Grid(horizon, n, top)|
    ensures forall k :: 0 <= k < |Grid(horizon, n, top)| ==>
      Measured(horizon, n, Grid(horizon, n, top)[k]) && Grid(horizon, n, top)[k] <= top
    ensures forall k :: 0 <= k < |Grid(horizon, n, top)| ==>
      (Grid(horizon, n, top)[k] <= h <==> k < |Grid(horizon, n, h)|)
  {
    if top > h {
      GridPoints(horizon, n, h, top - 1);
    } else if h > 0 {
      GridPoints(horizon, n, h - 1, h - 1);
    }
  }

  lemma GridIsEmptyIff(horizon: nat, n: nat, h: nat)
    requires 1 <= h <= horizon
    ensures |Grid(horizon, n, h)| > 0 <==> n >= 9
    ensures |Grid(horizon, n, h)| > 0 ==> Grid(horizon, n, h)[0] == 1
  {
    if h > 1 {
      GridIsEmptyIff(horizon, n, h - 1);
    } else {
      assert Grid(horizon, n, 0) == [];
    }
  }

  function MoveBand(v: seq<real>, h: nat): Triple
    requires h < |v|
  {
    Quantiles(Moves(v, h))
  }

  function Between(w: real, a: Triple, b: Triple): Triple {
    Triple(Mix(w, a.lo, b.lo), Mix(w, a.mid, b.mid), Mix(w, a.hi, b.hi))
  }

  /** The part of the way from one measured horizon to the next. */
  function Part(h: nat, p: nat, q: nat): (w: real)
    requires p <= h < q
    ensures 0.0 <= w <= 1.0
  {
    (h - p) as real / (q - p) as real
  }

  /** The band at h steps: measured there, or between the two measured horizons around it, or
      as at the last measured one past it. */
  function ChangeBand(v: seq<real>, horizon: nat, h: nat): Triple
    requires 1 <= h <= horizon && |v| >= 9
  {
    var n, all := |v|, Grid(horizon, |v|, horizon);
    GridIsEmptyIff(horizon, n, h);
    GridPoints(horizon, n, h, horizon);
    Around(v, all, |Grid(horizon, n, h)| - 1, h)
  }

  predicate Surrounds(n: nat, all: seq<nat>, g: int, h: nat) {
    && 0 <= g < |all| && all[g] < n
    && (g + 1 < |all| ==> h < all[g + 1] < n)
  }

  function Around(v: seq<real>, all: seq<nat>, g: nat, h: nat): Triple
    requires Surrounds(|v|, all, g, h)
  {
    if g + 1 < |all| && h > all[g] then
      Between(Part(h, all[g], all[g + 1]), MoveBand(v, all[g]), MoveBand(v, all[g + 1]))
    else MoveBand(v, all[g])
  }

  lemma ChangeBandIsOrdered(v: seq<real>, horizon: nat, h: nat)
    requires 1 <= h <= horizon && |v| >= 9
    ensures IsOrdered(ChangeBand(v, horizon, h))
  {
    var n, all := |v|, Grid(horizon, |v|, horizon);
    GridIsEmptyIff(horizon, n, h);
    GridPoints(horizon, n, h, horizon);
    AroundIsOrdered(v, all, |Grid(horizon, n, h)| - 1, h);
  }

  lemma AroundIsOrdered(v: seq<real>, all: seq<nat>, g: nat, h: nat)
    requires Surrounds(|v|, all, g, h)
    ensures IsOrdered(Around(v, all, g, h))
  {
    if g + 1 < |all| && h > all[g] {
      MovesBetween(v, all[g], h, all[g + 1]);
    } else {
      QuantilesAreOrdered(Moves(v, all[g]));
    }
  }

  lemma MovesBetween(v: seq<real>, p: nat, h: nat, q: nat)
    requires p <= h < q < |v|
    ensures IsOrdered(Between(Part(h, p, q), MoveBand(v, p), MoveBand(v, q)))
  {
    QuantilesAreOrdered(Moves(v, p));
    QuantilesAreOrdered(Moves(v, q));
    BetweenIsOrdered(Part(h, p, q), MoveBand(v, p), MoveBand(v, q));
  }

  lemma BetweenIsOrdered(w: real, a: Triple, b: Triple)
    requires 0.0 <= w <= 1.0 && IsOrdered(a) && IsOrdered(b)
    ensures IsOrdered(Between(w, a, b))
  {
    MixOrders(w, a.lo, b.lo, a.mid, b.mid);
    MixOrders(w, a.mid, b.mid, a.hi, b.hi);
  }

  /** At a measured horizon the band is what was measured. */
  lemma MeasuredIsExact(v: seq<real>, horizon: nat, h: nat)
    requires Measured(horizon, |v|, h)
    ensures ChangeBand(v, horizon, h) == MoveBand(v, h)
  {
    GridPoints(horizon, |v|, h, horizon);
    GridPoints(horizon, |v|, h - 1, h);
    GridPoints(horizon, |v|, h - 1, horizon);
    GridIsEmptyIff(horizon, |v|, h);
    var all, g := Grid(horizon, |v|, horizon), |Grid(horizon, |v|, h)| - 1;
    assert all[g] <= h && all[g] > h - 1;
  }

  /** The bands of the first h steps. */
  function ChangeBands(v: seq<real>, horizon: nat, h: nat): (r: seq<Triple>)
    requires h <= horizon && |v| >= 9
    ensures |r| == h
  {
    if h == 0 then []
    else ChangeBands(v, horizon, h - 1) + [Moved(ChangeBand(v, horizon, h), v[|v| - 1])]
  }

  datatype Point = Point(h: nat, band: Triple)

  ghost predicate IsGrid(v: seq<real>, horizon: nat, h: nat, grid: seq<Point>) {
    |grid| == |Grid(horizon, |v|, h)| && forall k :: 0 <= k < |grid| ==>
      grid[k].h == Grid(horizon, |v|, h)[k] < |v| && grid[k].band == MoveBand(v, grid[k].h)
  }

  method CollectMoves(v: seq<real>, h: nat) returns (moves: seq<real>)
    requires h <= |v|
    ensures moves == Moves(v, h)
  {
    moves := [];
    for t := 0 to |v| - h
      invariant |moves| == t && forall k :: 0 <= k < t ==> moves[k] == v[k + h] - v[k]
    {
      moves := moves + [v[t + h] - v[t]];
    }
  }

  lemma GridGrows(v: seq<real>, horizon: nat, h: nat, grid: seq<Point>)
    requires 1 <= h < |v| && IsGrid(v, horizon, h - 1, grid)
    ensures Measured(horizon, |v|, h) ==> IsGrid(v, horizon, h, grid + [Point(h, MoveBand(v, h))])
    ensures !Measured(horizon, |v|, h) ==> IsGrid(v, horizon, h, grid)
  {
  }

  /** The first half of changes: the measurements. */
  method Measure(v: seq<real>, horizon: nat) returns (grid: seq<Point>)
    ensures IsGrid(v, horizon, horizon, grid)
  {
    var n, stride := |v|, Stride(horizon);
    grid := [];
    var h := 1;
    while h <= horizon && h < n
      invariant 1 <= h <= horizon + 1 && (h > 1 ==> h <= n)
      invariant IsGrid(v, horizon, h - 1, grid)
    {
      if h > 8 && h % stride != 0 && h != horizon && h != n - 1 {
        GridGrows(v, horizon, h, grid);
        h := h + 1;
        continue;
      }
      var moves := CollectMoves(v, h);
      if |moves| < 8 {
        break;
      }
      GridGrows(v, horizon, h, grid);
      grid := grid + [Point(h, Quantiles(moves))];
      h := h + 1;
    }
    NoneMeasured(horizon, n, h - 1, horizon);
  }

  lemma {:induction false} NoneMeasured(horizon: nat, n: nat, h: nat, top: nat)
    requires h <= top && (h == top || h + 1 + 8 > n)
    ensures Grid(horizon, n, top) == Grid(horizon, n, h)
  {
    if h < top {
      NoneMeasured(horizon, n, h, top - 1);
    }
  }

  ghost predicate Reached(grid: seq<Point>, g: nat, h: nat) { g < |grid| && (g == 0 || grid[g].h <= h) }

  /** The grid pointer moves on to the last measured horizon that is not past h. */
  method Advance(grid: seq<Point>, from: nat, h: nat) returns (g: nat)
    requires Reached(grid, from, h)
    ensures from <= g < |grid| && (g == 0 || grid[g].h <= h) && (g + 1 < |grid| ==> grid[g + 1].h > h)
  {
    g := from;
    while g + 1 < |grid| && grid[g + 1].h <= h
      invariant from <= g < |grid| && (g == 0 || grid[g].h <= h)
    {
      g := g + 1;
    }
  }

  /** One step of changes. */
  method WriteChange(v: seq<real>, f: Buffers, grid: seq<Point>, from: nat, h: nat) returns (g: nat)
    requires f.Valid() && 1 <= h <= f.q50.Length && |v| >= 9 && IsGrid(v, f.q50.Length, f.q50.Length, grid)
    requires Reached(grid, from, h) && Holds(f, ChangeBands(v, f.q50.Length, h - 1))
    modifies f.q10, f.q50, f.q90
    ensures Reached(grid, g, h + 1) && Holds(f, ChangeBands(v, f.q50.Length, h))
  {
    ghost var bands := ChangeBands(v, f.q50.Length, h - 1);
    var p;
    g, p := BandAt(v, f.q50.Length, grid, from, h);
    Write(f, h - 1, Moved(p, v[|v| - 1]), bands);
  }

  method BandAt(v: seq<real>, horizon: nat, grid: seq<Point>, from: nat, h: nat) returns (g: nat, p: Triple)
    requires 1 <= h <= horizon && |v| >= 9 && IsGrid(v, horizon, horizon, grid) && Reached(grid, from, h)
    ensures Reached(grid, g, h + 1) && p == ChangeBand(v, horizon, h)
  {
    g := Advance(grid, from, h);
    p := grid[g].band;
    if g + 1 < |grid| && h > grid[g].h {
      p := Between(Part(h, grid[g].h, grid[g + 1].h), p, grid[g + 1].band);
    }
    PointerIsGrid(v, horizon, h, grid, g, p);
  }

  /** changes. */
  method Changes(v: seq<real>, f: Buffers)
    requires |v| > 0 && f.Valid()
    modifies f.q10, f.q50, f.q90
    ensures |v| < 9 ==> f.Forecast() == old(f.Forecast())
    ensures |v| >= 9 ==> Holds(f, ChangeBands(v, f.q50.Length, f.q50.Length))
  {
    var horizon := f.q50.Length;
    var grid := Measure(v, horizon);
    if horizon > 0 {
      GridIsEmptyIff(horizon, |v|, horizon);
    }
    if |grid| == 0 {
      return;
    }
    var g := 0;
    for h := 1 to horizon + 1
      invariant Reached(grid, g, h) && Holds(f, ChangeBands(v, horizon, h - 1))
    {
      g := WriteChange(v, f, grid, g, h);
    }
  }

  lemma PointerIsGrid(v: seq<real>, horizon: nat, h: nat, grid: seq<Point>, g: nat, p: Triple)
    requires 1 <= h <= horizon && |v| >= 9 && IsGrid(v, horizon, horizon, grid)
    requires Pointed(grid, g, h) && p == Pointer(grid, g, h)
    ensures p == ChangeBand(v, horizon, h)
  {
    var all := Grid(horizon, |v|, horizon);
    PointerIsAt(horizon, |v|, h, all, grid, g);
    PointsAround(v, all, grid, g, h);
  }

  /** The pointer is at the last measured horizon that is not past h. */
  predicate Pointed(grid: seq<Point>, g: nat, h: nat) {
    g < |grid| && (g == 0 || grid[g].h <= h) && (g + 1 < |grid| ==> grid[g + 1].h > h)
  }

  function Pointer(grid: seq<Point>, g: nat, h: nat): Triple
    requires Pointed(grid, g, h)
  {
    if g + 1 < |grid| && h > grid[g].h
    then Between(Part(h, grid[g].h, grid[g + 1].h), grid[g].band, grid[g + 1].band)
    else grid[g].band
  }

  lemma PointsAround(v: seq<real>, all: seq<nat>, grid: seq<Point>, g: nat, h: nat)
    requires |grid| == |all| && Surrounds(|v|, all, g, h)
    requires forall k :: 0 <= k < |grid| ==> grid[k].h == all[k] < |v| && grid[k].band == MoveBand(v, grid[k].h)
    ensures Pointed(grid, g, h) ==> Around(v, all, g, h) == Pointer(grid, g, h)
  {
  }

  lemma PointerIsAt(horizon: nat, n: nat, h: nat, all: seq<nat>, grid: seq<Point>, g: nat)
    requires 1 <= h <= horizon && n >= 9 && all == Grid(horizon, n, horizon) && Pointed(grid, g, h)
    requires |grid| == |all| && forall k :: 0 <= k < |grid| ==> grid[k].h == all[k] < n
    ensures g == |Grid(horizon, n, h)| - 1 && Surrounds(n, all, g, h)
  {
    GridIsEmptyIff(horizon, n, h);
    GridPoints(horizon, n, h, horizon);
  }
}
