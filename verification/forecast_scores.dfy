/** Scores: how a forecast did on values that were already known, and which of two did better. */
module ForecastScores {
  import opened ForecastSeries

  datatype Score = Score(skill: real, coverage: real, points: nat, flat: bool) {
    predicate Reliable() { points > 0 && (skill > 0.0 || flat) }
  }

  const NO_SCORE: Score := Score(0.0, 0.0, 0, false)

  function Abs(x: real): real { if x < 0.0 then -x else x }

  /** What is counted over the first steps of a test: errors of the forecast and of the naive
      guess, values inside the band, values compared. */
  datatype Counts = Counts(errF: real, errN: real, inside: nat, points: nat)

  function Compare(y: Number, f: Forecast, i: nat, naive: real, c: Counts): Counts
    requires WellFormed(f) && i < |f.q50|
  {
    if y.None? || f.q50[i].None? then c
    else
      Counts(c.errF + Abs(y.value - f.q50[i].value), c.errN + Abs(y.value - naive),
             c.inside
               + if f.q10[i].Some? && f.q90[i].Some? && f.q10[i].value <= y.value <= f.q90[i].value then 1 else 0,
             c.points + 1)
  }

  function Tally(truth: seq<Number>, f: Forecast, naive: real, n: nat): Counts
    requires WellFormed(f) && n <= |truth| && n <= |f.q50|
  {
    if n == 0 then Counts(0.0, 0.0, 0, 0) else Compare(truth[n - 1], f, n - 1, naive, Tally(truth, f, naive, n - 1))
  }

  const EPS: real := 0.000000000001

  function ScoreOf(c: Counts): Score {
    if c.points == 0 then NO_SCORE
    else
      var coverage := c.inside as real / c.points as real;
      if c.errN < EPS && c.errF < EPS then Score(0.0, coverage, c.points, true)
      else if c.errN < EPS then Score(-1.0, coverage, c.points, false)
      else Score(1.0 - c.errF / c.errN, coverage, c.points, false)
  }

  /** The score of a forecast made without the last h values, against them. */
  function Evaluated(values: seq<Number>, f: Forecast, h: int): Score
    requires WellFormed(f)
  {
    var n := |values|;
    if h <= 0 || h > n || LastSeen(values[..n - h]).None? then NO_SCORE
    else ScoreOf(Tally(values[n - h..], f, LastSeen(values[..n - h]).value, if h < |f.q50| then h else |f.q50|))
  }

  /** Evaluate. */
  method Evaluate(values: seq<Number>, f: Forecast, h: int) returns (s: Score)
    requires WellFormed(f)
    ensures s == Evaluated(values, f, h)
  {
    var n := |values|;
    if h <= 0 || h > n {
      return NO_SCORE;
    }
    var head := FillForward(values[..n - h]);
    FilledIsWhole(values[..n - h]);
    if head.Length == 0 || head[head.Length - 1].None? {
      assert head.Length > 0 ==> head[..][head.Length - 1].None?;
      return NO_SCORE;
    }
    assert head[..][head.Length - 1] == head[head.Length - 1];
    var naive := head[head.Length - 1].value;
    ghost var truth := values[n - h..];
    var c, i := Counts(0.0, 0.0, 0, 0), 0;
    while i < h && i < |f.q50|
      invariant 0 <= i <= h && i <= |f.q50|
      invariant c == Tally(truth, f, naive, i)
    {
      assert values[n - h + i] == truth[i];
      c := Compare(values[n - h + i], f, i, naive, c);
      i := i + 1;
    }
    return ScoreOf(c);
  }

  lemma {:induction false} TallyIsBounded(truth: seq<Number>, f: Forecast, naive: real, n: nat)
    requires WellFormed(f) && n <= |truth| && n <= |f.q50|
    ensures var c := Tally(truth, f, naive, n); c.inside <= c.points <= n && c.errF >= 0.0 && c.errN >= 0.0
  {
    if n > 0 {
      TallyIsBounded(truth, f, naive, n - 1);
    }
  }

  lemma Quotient(a: real, b: real)
    requires 0.0 <= a && b > 0.0
    ensures a / b >= 0.0 && (a <= b ==> a / b <= 1.0)
  {
  }

  /** A score is a share of at most h values, and a skill of at most 1; one compared with nothing
      is never reliable. */
  lemma ScoresAreBounded(values: seq<Number>, f: Forecast, h: int)
    requires WellFormed(f)
    ensures var s := Evaluated(values, f, h);
            && 0.0 <= s.coverage <= 1.0 && s.skill <= 1.0 && (s.points > 0 ==> s.points <= h)
            && (s.flat ==> s.skill == 0.0) && (s.points == 0 ==> !s.Reliable())
  {
    var n := |values|;
    if 0 < h <= n && LastSeen(values[..n - h]).Some? {
      var m, naive := if h < |f.q50| then h else |f.q50|, LastSeen(values[..n - h]).value;
      TallyIsBounded(values[n - h..], f, naive, m);
      CountsAreBounded(Tally(values[n - h..], f, naive, m));
    }
  }

  lemma CountsAreBounded(c: Counts)
    requires c.inside <= c.points && c.errF >= 0.0 && c.errN >= 0.0
    ensures var s := ScoreOf(c); 0.0 <= s.coverage <= 1.0 && s.skill <= 1.0 && s.points == c.points
  {
    if c.points > 0 {
      Quotient(c.inside as real, c.points as real);
      if c.errN >= EPS {
        Quotient(c.errF, c.errN);
      }
    }
  }

  // --------------------------------------------------------------- better

  /** better: reliability first, then skill, then the calibration of the band. */
  predicate Better(a: Score, b: Score) {
    if a.Reliable() != b.Reliable() then a.Reliable()
    else if a.skill != b.skill then a.skill > b.skill
    else Abs(a.coverage - 0.8) < Abs(b.coverage - 0.8)
  }

  /** Better is a strict weak order: nothing beats itself, beating is transitive and not mutual,
      and being no better is transitive. */
  lemma BetterIsAWeakOrder(a: Score, b: Score, c: Score)
    ensures !Better(a, a) && !(Better(a, b) && Better(b, a))
    ensures Better(a, b) && Better(b, c) ==> Better(a, c)
    ensures !Better(a, b) && !Better(b, c) ==> !Better(a, c)
  {
  }
}
