/** What Run asks the engines, what it makes of their answers, and what a score measures. */
module ForecastQuestions {
  import opened Options
  import opened ForecastSeries
  import opened ForecastShape
  import opened ForecastResets
  import opened ForecastScores
  import opened ForecastStatistical
  import opened ForecastRun
  import opened ForecastBatch

  // ------------------------------------------------------------ questions

  /** The least number of steps that covers the time, between one and 512. */
  predicate IsHorizon(n: int, hours: int, step: int) {
    var time := hours * 3_600_000_000_000;
    if step <= 0 || time <= step then n == 1
    else if time > 512 * step then n == 512
    else (n - 1) * step < time <= n * step
  }

  lemma HorizonIsRight(hours: int, step: int)
    ensures IsHorizon(HorizonSteps(hours, step), hours, step)
  {
    if step > 0 {
      var time := hours * HOUR;
      RoundedUp(time, step, (time + step - 1) / step);
    }
  }

  lemma RoundedUp(time: int, step: int, n: int)
    requires step > 0 && n == (time + step - 1) / step
    ensures (n - 1) * step < time <= n * step
    ensures time <= step ==> n <= 1
    ensures time > 512 * step ==> n > 512
    ensures step < time <= 512 * step ==> 1 < n <= 512
  {
    var rest := (time + step - 1) % step;
    assert n * step + rest == time + step - 1;
    assert (n - 1) * step == n * step - step;
    if n >= 2 {
      assert n * step >= 2 * step;
    }
    if n > 512 {
      Scaled(513, n, step);
    } else {
      Scaled(n, 512, step);
    }
    if n < 1 {
      Scaled(n, 0, step);
    }
  }

  lemma Scaled(a: int, b: int, step: int)
    requires a <= b && step > 0
    ensures a * step <= b * step
  {
  }

  /** The history the engines see: a counter's without its resets. */
  function Seen(j: Job): seq<Number> {
    if SetKind(j) == Counter then ResetFree(j.series.values) else j.series.values
  }

  /** The part that is hidden for the test: a quarter of the known values or the horizon, whichever is less. */
  predicate IsHoldout(holdout: int, v: seq<Number>, horizon: int) {
    var quarter := |KnownSteps(v)| / 4;
    holdout == if quarter < horizon then quarter else horizon
  }

  lemma PreparedIsRight(j: Job)
    ensures var p := Prepare(j);
            && IsHorizon(p.horizon, j.horizonHours, j.series.step) && IsHoldout(p.holdout, j.series.values, p.horizon)
            && p.series == j.series.(values := Seen(j)) && p.kind == SetKind(j) && p.period == SetPeriod(j)
            && p.known == j.known && p.holdout <= |p.series.values|
  {
    HorizonIsRight(j.horizonHours, j.series.step);
    ObservedIsTheirNumber(j.series.values);
    KnownStepsAreFew(j.series.values);
  }

  lemma HeadIsPrefix(s: Series, n: nat)
    requires n <= |s.values|
    ensures Head(s, n) == s.(values := s.values[..|s.values| - n])
  {
    if n == |s.values| {
      assert s.values[..0] == [];
    }
  }

  /** A tag is asked about twice: for the whole history, and for the part that is hidden of what comes
      before it. */
  lemma AskedTwice(jobs: seq<Job>, i: nat) returns (horizon: nat, holdout: nat)
    requires i < |jobs| && Ready(jobs[i])
    ensures var j, k, qs := jobs[i], Place(jobs, i), Queries(Preps(jobs));
            && IsHorizon(horizon, j.horizonHours, j.series.step) && IsHoldout(holdout, j.series.values, horizon)
            && holdout <= |Seen(j)| && 2 * k + 1 < |qs|
            && qs[2 * k] == Query(Request(j.series.(values := Seen(j)), horizon, SetKind(j), SetPeriod(j)), j.known)
            && qs[2 * k + 1]
               == Query(Request(j.series.(values := Seen(j)[..|Seen(j)| - holdout]), holdout, SetKind(j), SetPeriod(j)),
                        Cut(j.known, |Seen(j)|))
  {
    var j := jobs[i];
    PlacedJob(jobs, i);
    PreparedIsRight(j);
    HeadIsPrefix(Prepare(j).series, Prepare(j).holdout);
    horizon, holdout := Prepare(j).horizon, Prepare(j).holdout;
  }

  lemma {:induction false} KnownStepsAreFew(v: seq<Number>)
    ensures ObservedIn(v) <= |v|
  {
    if |v| > 0 {
      KnownStepsAreFew(v[..|v| - 1]);
    }
  }

  /** The calendar's rows for the test end where the history does. */
  lemma {:induction false} RowsAreCut(rows: Covariates, n: nat)
    ensures |Cut(rows, n)| == |rows|
    ensures forall i :: 0 <= i < |rows| ==> Cut(rows, n)[i] <= rows[i] && |Cut(rows, n)[i]| <= n
    ensures (forall i :: 0 <= i < |rows| ==> n <= |rows[i]|) ==>
      forall i :: 0 <= i < |rows| ==> Cut(rows, n)[i] == rows[i][..n]
  {
    if |rows| > 0 {
      RowsAreCut(rows[1..], if n > |rows[0]| then |rows[0]| else n);
    }
  }

  /** An engine that answers each question on its own is taken at its word: its answer to the first question
      is the forecast, that to the second the test. */
  lemma AnswersAreToTheQuestions(jobs: seq<Job>, i: nat, e: Engine, one: Query -> Forecast)
    requires i < |jobs| && Ready(jobs[i]) && AnswersEach(e, one)
    ensures var k, qs := Place(jobs, i), Queries(Preps(jobs));
            && 2 * k + 1 < |qs| && AnswerAt(e, qs, k) == Says(one(qs[2 * k]), one(qs[2 * k + 1]))
  {
    PlacedJob(jobs, i);
    assert e.reply(Queries(Preps(jobs))) == Some(Each(one, Queries(Preps(jobs))));
  }

  // --------------------------------------------------------------- offers

  /** Every number of the answer, moved by d. */
  ghost predicate IsMovedBy(f: Forecast, g: Forecast, d: real) {
    && g.start == f.start && g.step == f.step && WellFormed(f) && WellFormed(g) && |g.q50| == |f.q50|
    && forall k :: 0 <= k < |f.q50| ==>
         IsMoved(f.q10[k], g.q10[k], d) && IsMoved(f.q50[k], g.q50[k], d) && IsMoved(f.q90[k], g.q90[k], d)
  }

  predicate IsMoved(x: Number, y: Number, d: real) {
    (x.None? <==> y.None?) && (x.Some? && y.Some? ==> y.value - x.value == d)
  }

  /** An answer is offered when it has a median at some step after it was moved and shaped. It is moved by as
      much as brings a reset-free counter back to its last true value, and nothing else is moved. */
  lemma OfferIsRight(name: string, j: Job, full: Forecast, test: Forecast)
    requires WellFormed(full) && WellFormed(test) && Ready(j)
    ensures var p, o := Prepare(j), OfferOf(name, Prepare(j), Says(full, test));
            && (o.Some? <==> HasNumber(Shaped(Unshift(full, p.shift), p.kind, p.last).q50))
            && (o.Some? ==> o.value.name == name && o.value.score == Evaluated(p.series.values, test, p.holdout)
                            && o.value.forecast == Shaped(Unshift(full, p.shift), p.kind, p.last))
            && p.kind == SetKind(j) && p.last == LastSeen(j.series.values)
            && IsMovedBy(full, Unshift(full, p.shift), p.shift)
            && (SetKind(j) != Counter ==> p.shift == 0.0)
            && (SetKind(j) == Counter && p.last.Some? ==>
                  LastSeen(p.series.values).Some? && LastSeen(p.series.values).value + p.shift == p.last.value)
  {
    var p := Prepare(j);
    if SetKind(j) == Counter && p.last.Some? {
      ShiftRestoresLast(j.series.values);
    }
    UnshiftMoves(full, p.shift);
  }

  lemma UnshiftMoves(f: Forecast, d: real)
    requires WellFormed(f)
    ensures IsMovedBy(f, Unshift(f, d), d)
  {
  }

  // --------------------------------------------------------------- scores

  function Sum(terms: seq<real>): real { if |terms| == 0 then 0.0 else Sum(terms[..|terms| - 1]) + terms[|terms| - 1] }

  predicate IsCompared(y: Number, guess: Number) { y.Some? && guess.Some? }

  function Distance(x: real, y: real): real { if x > y then x - y else y - x }

  /** How far the values lie from the medians, and from one guess, step by step; nothing where one is missing. */
  function Missed(truth: seq<Number>, f: Forecast, n: nat): (r: seq<real>)
    requires WellFormed(f) && n <= |truth| && n <= |f.q50|
    ensures |r| == n
  {
    seq(n, i requires 0 <= i < n => if IsCompared(truth[i], f.q50[i]) then Distance(truth[i].value, f.q50[i].value)
        else 0.0)
  }

  function MissedBy(guess: real, truth: seq<Number>, f: Forecast, n: nat): (r: seq<real>)
    requires WellFormed(f) && n <= |truth| && n <= |f.q50|
    ensures |r| == n
  {
    seq(n, i requires 0 <= i < n => if IsCompared(truth[i], f.q50[i]) then Distance(truth[i].value, guess) else 0.0)
  }

  function ComparedSteps(truth: seq<Number>, f: Forecast, n: nat): set<int>
    requires WellFormed(f) && n <= |truth| && n <= |f.q50|
  {
    set i | 0 <= i < n && IsCompared(truth[i], f.q50[i])
  }

  predicate IsInside(y: real, b: Band) { b.lo.Some? && b.hi.Some? && b.lo.value <= y && y <= b.hi.value }

  function InsideSteps(truth: seq<Number>, f: Forecast, n: nat): set<int>
    requires WellFormed(f) && n <= |truth| && n <= |f.q50|
  {
    set i | 0 <= i < n && IsCompared(truth[i], f.q50[i]) && IsInside(truth[i].value, At(f, i))
  }

  lemma {:induction false} TallyIsSums(truth: seq<Number>, f: Forecast, naive: real, n: nat)
    requires WellFormed(f) && n <= |truth| && n <= |f.q50|
    ensures var c := Tally(truth, f, naive, n);
            && c.errF == Sum(Missed(truth, f, n)) && c.errN == Sum(MissedBy(naive, truth, f, n))
            && c.points == |ComparedSteps(truth, f, n)| && c.inside == |InsideSteps(truth, f, n)|
  {
    if n > 0 {
      TallyIsSums(truth, f, naive, n - 1);
      assert Missed(truth, f, n)[..n - 1] == Missed(truth, f, n - 1);
      assert MissedBy(naive, truth, f, n)[..n - 1] == MissedBy(naive, truth, f, n - 1);
      ComparedGrow(truth, f, n);
      InsideGrow(truth, f, n, IsCompared(truth[n - 1], f.q50[n - 1]) && IsInside(truth[n - 1].value, At(f, n - 1)));
    }
  }

  lemma ComparedGrow(truth: seq<Number>, f: Forecast, n: nat)
    requires WellFormed(f) && 0 < n <= |truth| && n <= |f.q50|
    ensures |ComparedSteps(truth, f, n)|
            == |ComparedSteps(truth, f, n - 1)| + if IsCompared(truth[n - 1], f.q50[n - 1]) then 1 else 0
  {
    var last := IsCompared(truth[n - 1], f.q50[n - 1]);
    assert ComparedSteps(truth, f, n) == ComparedSteps(truth, f, n - 1) + if last then {n - 1} else {};
  }

  lemma InsideGrow(truth: seq<Number>, f: Forecast, n: nat, last: bool)
    requires WellFormed(f) && 0 < n <= |truth| && n <= |f.q50|
    requires last == (IsCompared(truth[n - 1], f.q50[n - 1]) && IsInside(truth[n - 1].value, At(f, n - 1)))
    ensures |InsideSteps(truth, f, n)| == |InsideSteps(truth, f, n - 1)| + if last then 1 else 0
  {
    assert InsideSteps(truth, f, n) == InsideSteps(truth, f, n - 1) + if last then {n - 1} else {};
  }

  /** A score, in sums: the share of the compared values inside the band, and how much less the medians
      missed than repeating the last value before them would have; a quiet test is told by its flag. */
  predicate IsScoreOf(s: Score, points: nat, inside: nat, off: real, naive: real) {
    if points == 0 then s == Score(0.0, 0.0, 0, false)
    else
      && s.points == points && s.coverage * points as real == inside as real
      && (s.flat <==> naive < 0.000000000001 && off < 0.000000000001)
      && if naive >= 0.000000000001 then s.skill * naive == naive - off else s.skill == if s.flat then 0.0 else -1.0
  }

  ghost predicate IsScore(s: Score, truth: seq<Number>, f: Forecast, last: real, n: nat)
    requires WellFormed(f) && n <= |truth| && n <= |f.q50|
  {
    IsScoreOf(s, |ComparedSteps(truth, f, n)|, |InsideSteps(truth, f, n)|, Sum(Missed(truth, f, n)),
              Sum(MissedBy(last, truth, f, n)))
  }

  lemma CountsScore(c: Counts)
    ensures IsScoreOf(ScoreOf(c), c.points, c.inside, c.errF, c.errN)
  {
    if c.points > 0 {
      Ratio(c.inside as real, c.points as real);
      if c.errN >= EPS {
        Ratio(c.errF, c.errN);
        Complement(c.errF, c.errN, c.errF / c.errN);
      }
    }
  }

  lemma ScoreIsRight(truth: seq<Number>, f: Forecast, last: real, n: nat)
    requires WellFormed(f) && n <= |truth| && n <= |f.q50|
    ensures IsScore(ScoreOf(Tally(truth, f, last, n)), truth, f, last, n)
  {
    TallyIsSums(truth, f, last, n);
    CountsScore(Tally(truth, f, last, n));
  }

  lemma Ratio(a: real, b: real)
    requires b > 0.0
    ensures a / b * b == a
  {
  }

  lemma Complement(a: real, b: real, q: real)
    requires q * b == a
    ensures (1.0 - q) * b == b - a
  {
  }

  /** A test is scored on the last h values, as far as it goes, against the last value before them; and on
      nothing when there is none. */
  lemma EvaluatedIsRight(values: seq<Number>, f: Forecast, h: int)
    requires WellFormed(f)
    ensures var s, n := Evaluated(values, f, h), |values|;
            if 0 < h <= n && LastSeen(values[..n - h]).Some? then
              IsScore(s, values[n - h..], f, LastSeen(values[..n - h]).value, if h < |f.q50| then h else |f.q50|)
            else s == Score(0.0, 0.0, 0, false)
  {
    var n := |values|;
    if 0 < h <= n && LastSeen(values[..n - h]).Some? {
      ScoreIsRight(values[n - h..], f, LastSeen(values[..n - h]).value, if h < |f.q50| then h else |f.q50|);
    }
  }
}
