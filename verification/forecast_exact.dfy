/** What the statistical methods make of signals whose future is plain.

A signal that repeats is repeated, a straight line is continued, with bands of no width. */
module ForecastExact {
  import opened Options
  import opened ForecastQuantile
  import opened ForecastEngine
  import opened ForecastStatistical

  ghost predicate AllAre(s: seq<real>, c: real) { forall i :: 0 <= i < |s| ==> s[i] == c }

  lemma SortOfConstant(s: seq<real>, c: real)
    requires AllAre(s, c)
    ensures AllAre(Sort(s), c) && Ascending(Sort(s))
  {
    SortAscends(s);
    forall i | 0 <= i < |Sort(s)|
      ensures Sort(s)[i] == c
    {
      assert Sort(s)[i] in multiset(Sort(s));
      assert Sort(s)[i] in s;
    }
  }

  lemma QuantileOfConstant(s: seq<real>, c: real, q: real)
    requires |s| > 0 && AllAre(s, c) && 0.0 <= q <= 1.0
    ensures Quantile(Sort(s), q) == c
  {
    SortOfConstant(s, c);
    QuantilesAscend(Sort(s), q, q);
  }

  lemma QuantilesOfConstant(s: seq<real>, c: real)
    requires |s| > 0 && AllAre(s, c)
    ensures Quantiles(s) == Triple(c, c, c)
  {
    QuantileOfConstant(s, c, 0.1);
    QuantileOfConstant(s, c, 0.5);
    QuantileOfConstant(s, c, 0.9);
  }

  // ------------------------------------------------------- a straight line

  ghost predicate IsLine(v: seq<real>, slope: real) { forall i :: 0 <= i < |v| - 1 ==> v[i + 1] == v[i] + slope }

  lemma {:induction false} LineMoves(v: seq<real>, slope: real, i: nat, h: nat)
    requires IsLine(v, slope) && i + h < |v|
    ensures v[i + h] == v[i] + slope * h as real
  {
    if h > 0 {
      LineMoves(v, slope, i, h - 1);
      OneMore(slope, h);
      assert v[i + (h - 1) + 1] == v[i + (h - 1)] + slope;
    }
  }

  lemma OneMore(slope: real, h: nat)
    requires h > 0
    ensures slope * h as real == slope * (h - 1) as real + slope
  {
    assert h as real == (h - 1) as real + 1.0;
  }

  lemma LineBand(v: seq<real>, slope: real, h: nat)
    requires IsLine(v, slope) && h < |v|
    ensures var m := slope * h as real; MoveBand(v, h) == Triple(m, m, m)
  {
    forall t | 0 <= t < |v| - h
      ensures Moves(v, h)[t] == slope * h as real
    {
      LineMoves(v, slope, t, h);
    }
    QuantilesOfConstant(Moves(v, h), slope * h as real);
  }

  /** Interpolating between two points of a line stays on the line. */
  lemma MixOnLine(slope: real, p: nat, h: nat, q: nat)
    requires p <= h < q
    ensures Mix(Part(h, p, q), slope * p as real, slope * q as real) == slope * h as real
  {
    var w, span := Part(h, p, q), (q - p) as real;
    assert w * span == (h - p) as real;
    Spread(slope, p as real, q as real, w, span);
    assert p as real + (h - p) as real == h as real;
  }

  lemma Spread(slope: real, p: real, q: real, w: real, span: real)
    requires span == q - p
    ensures Mix(w, slope * p, slope * q) == slope * (p + w * span)
  {
    assert slope * q - slope * p == slope * span;
    assert w * (slope * span) == slope * (w * span);
  }

  /** The furthest horizon that is measured. */
  function Furthest(horizon: nat, n: nat): nat
    requires horizon >= 1 && n >= 9
  {
    GridIsEmptyIff(horizon, n, horizon);
    var all := Grid(horizon, n, horizon);
    all[|all| - 1]
  }

  lemma LineBetween(v: seq<real>, slope: real, p: nat, h: nat, q: nat)
    requires IsLine(v, slope) && p <= h < q < |v|
    ensures var m := slope * h as real; Between(Part(h, p, q), MoveBand(v, p), MoveBand(v, q)) == Triple(m, m, m)
  {
    LineBand(v, slope, p);
    LineBand(v, slope, q);
    MixOnLine(slope, p, h, q);
  }

  lemma LineChangeBand(v: seq<real>, slope: real, horizon: nat, h: nat, m: real)
    requires IsLine(v, slope) && |v| >= 9 && 1 <= h <= horizon && h <= Furthest(horizon, |v|) && m == slope * h as real
    ensures ChangeBand(v, horizon, h) == Triple(m, m, m)
  {
    var n, all := |v|, Grid(horizon, |v|, horizon);
    GridIsEmptyIff(horizon, n, h);
    GridPoints(horizon, n, h, horizon);
    LineAround(v, slope, all, |Grid(horizon, n, h)| - 1, h);
  }

  lemma LineAround(v: seq<real>, slope: real, all: seq<nat>, g: nat, h: nat)
    requires IsLine(v, slope) && Surrounds(|v|, all, g, h) && all[g] <= h <= all[|all| - 1]
    ensures var m := slope * h as real; Around(v, all, g, h) == Triple(m, m, m)
  {
    if g + 1 < |all| && h > all[g] {
      LineBetween(v, slope, all[g], h, all[g + 1]);
    } else {
      assert all[g] == h;
      LineBand(v, slope, h);
    }
  }

  /** A straight line is continued, without a band, up to the furthest measured horizon. */
  lemma LineIsContinued(v: seq<real>, slope: real, horizon: nat, h: nat)
    requires IsLine(v, slope) && |v| >= 9 && 1 <= h <= horizon && h <= Furthest(horizon, |v|)
    ensures var m := v[|v| - 1] + slope * h as real; Moved(ChangeBand(v, horizon, h), v[|v| - 1]) == Triple(m, m, m)
  {
    LineChangeBand(v, slope, horizon, h, slope * h as real);
  }

  // ------------------------------------------------------------- a cycle

  ghost predicate LikeBefore(v: seq<real>, p: nat, i: int) { p <= i < |v| ==> v[i] == v[i - p] }

  ghost predicate Repeats(v: seq<real>, p: nat) { forall i :: LikeBefore(v, p, i) }

  /** Where in the cycle a moment falls. */
  function Phase(t: nat, p: nat): (r: nat)
    requires p > 0
    ensures r < p
  {
    if t < p then t else Phase(t - p, p)
  }

  lemma {:induction false} AtPhase(v: seq<real>, p: nat, i: nat)
    requires 0 < p <= |v| && Repeats(v, p) && i < |v|
    ensures v[i] == v[Phase(i, p)]
  {
    if i >= p {
      assert LikeBefore(v, p, i);
      AtPhase(v, p, i - p);
    }
  }

  lemma {:induction false} PhaseBack(t: nat, p: nat, seasons: nat)
    requires p > 0 && seasons * p <= t
    ensures Phase(t - seasons * p, p) == Phase(t, p)
  {
    if seasons > 0 {
      assert (seasons - 1) * p == seasons * p - p;
      PhaseBack(t, p, seasons - 1);
    }
  }

  lemma {:induction false} EarlierAreAlike(v: seq<real>, p: nat, t: nat, seasons: nat)
    requires 0 < p <= |v| && Repeats(v, p)
    ensures AllAre(Earlier(v, p, t, seasons), v[Phase(t, p)])
  {
    if seasons > 0 {
      EarlierAreAlike(v, p, t, seasons - 1);
      var j := t - seasons * p;
      if 0 <= j < |v| {
        PhaseBack(t, p, seasons);
        AtPhase(v, p, j);
      }
    }
  }

  lemma SeasonIsThePhase(v: seq<real>, p: nat, t: nat)
    requires 0 < p <= |v| && Repeats(v, p) && SeasonAt(v, p, t).Some?
    ensures SeasonAt(v, p, t) == Some(v[Phase(t, p)])
  {
    EarlierAreAlike(v, p, t, 4);
    QuantileOfConstant(Earlier(v, p, t, 4), v[Phase(t, p)], 0.5);
  }

  lemma {:induction false} LevelIsThePhase(v: seq<real>, p: nat, h: nat)
    requires 0 < p <= |v| && Repeats(v, p)
    ensures SeasonLevel(v, p, h) == v[Phase(|v| + h, p)]
    decreases h
  {
    if SeasonAt(v, p, |v| + h).Some? {
      SeasonIsThePhase(v, p, |v| + h);
    } else if h < p {
      AtPhase(v, p, |v| + h - p);
    } else {
      LevelIsThePhase(v, p, h - p);
      assert |v| + h - p == |v| + (h - p);
    }
  }

  lemma {:induction false} NothingStrays(v: seq<real>, p: nat, top: nat)
    requires 0 < p <= |v| && Repeats(v, p) && top <= |v|
    ensures AllAre(Strayed(v, p, top), 0.0)
  {
    if top > p {
      NothingStrays(v, p, top - 1);
      if SeasonAt(v, p, top - 1).Some? {
        SeasonIsThePhase(v, p, top - 1);
        AtPhase(v, p, top - 1);
      }
    }
  }

  /** A signal that repeats is repeated, without a band, however far ahead. */
  lemma {:induction false} CycleIsRepeated(v: seq<real>, p: nat, h: nat, k: nat)
    requires 0 < p <= |v| && Repeats(v, p) && |Strayed(v, p, |v|)| > 0 && k < h
    ensures var m := v[Phase(|v| + k, p)]; SeasonBands(v, p, h)[k] == Triple(m, m, m)
  {
    if k < h - 1 {
      CycleIsRepeated(v, p, h - 1, k);
    } else {
      LevelIsThePhase(v, p, k);
      NoBandAround(v, p, SeasonLevel(v, p, k));
    }
  }

  lemma NoBandAround(v: seq<real>, p: nat, level: real)
    requires 0 < p <= |v| && Repeats(v, p) && |Strayed(v, p, |v|)| > 0
    ensures Moved(Quantiles(Strayed(v, p, |v|)), level) == Triple(level, level, level)
  {
    NothingStrays(v, p, |v|);
    QuantilesOfConstant(Strayed(v, p, |v|), 0.0);
  }
}
