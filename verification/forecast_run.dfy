/** Run: every tag forecast by every engine, the best forecast of each kept.

An engine is called once for all tags with two requests each, the forecast and the test that
scores it; the answers are found again by position. Classification, season length and the
calendar's covariates come with the job. */
module ForecastRun {
  import opened Options
  import opened ForecastSeries
  import opened ForecastShape
  import opened ForecastResets
  import opened ForecastScores
  import opened ForecastStatistical

  const MAX_HORIZON_STEPS: int := 512
  const MIN_OBSERVED: int := 24
  const STABLE_MARGIN: real := 0.05
  const MIN_STABLE_COVERAGE: real := 0.6

  type Covariates = seq<seq<real>>

  datatype Job = Job(tag: int, series: Series, enabled: bool, kind: Option<Kind>, horizonHours: int,
                     classified: Kind, classifiedPeriod: int, season: int, known: Covariates)

  /** What an engine is asked. */
  datatype Query = Query(request: Request, known: Covariates)

  datatype Engine = Engine(name: string, reply: seq<Query> -> Option<seq<Forecast>>)

  datatype Status = Ok | Unreliable | Learning | Disabled | Error | Pending

  datatype Fault = EngineFailed | WrongCount | EmptyForecast

  datatype Result = Result(tag: int, status: Status, kind: Option<Kind>, period: int, engine: Option<string>,
                           forecast: Option<Forecast>, score: Score, stable: bool, engines: map<string, Score>,
                           errors: map<string, Fault>)

  datatype Prepared = Prepared(series: Series, shift: real, last: Number, horizon: nat, holdout: nat, kind: Kind,
                               period: int, known: Covariates)

  // -------------------------------------------------------------- prepare

  function HorizonSteps(hours: int, step: int): (n: nat)
    ensures 1 <= n <= MAX_HORIZON_STEPS
  {
    if step <= 0 then 1
    else
      var n := (hours * HOUR + step - 1) / step;
      if n < 1 then 1 else if n > MAX_HORIZON_STEPS then MAX_HORIZON_STEPS else n
  }

  function HoldoutSteps(v: seq<Number>, horizon: nat): nat {
    if ObservedIn(v) / 4 < horizon then ObservedIn(v) / 4 else horizon
  }

  function Start(j: Job): Result { Result(j.tag, Pending, None, 0, None, None, NO_SCORE, false, map[], map[]) }

  function Ready(j: Job): bool { j.enabled && ObservedIn(j.series.values) >= MIN_OBSERVED }

  function KindOf(j: Job): Kind { if j.kind.None? then j.classified else j.kind.value }

  function PeriodOf(j: Job): int {
    if j.kind.None? then j.classifiedPeriod else if j.kind.value in {Cyclic, State} then j.season else 0
  }

  function Prepare(j: Job): Prepared {
    var horizon := HorizonSteps(j.horizonHours, j.series.step);
    var v := j.series.values;
    var counter := KindOf(j) == Counter;
    Prepared(if counter then j.series.(values := ResetFree(v)) else j.series, if counter then -Offset(v) else 0.0,
             LastSeen(v), horizon, HoldoutSteps(v, horizon), KindOf(j), PeriodOf(j), j.known)
  }

  /** The result before any engine is heard. */
  function Opening(j: Job): Result {
    if !j.enabled then Start(j).(status := Disabled)
    else if ObservedIn(j.series.values) < MIN_OBSERVED then Start(j).(status := Learning)
    else Start(j).(kind := Some(KindOf(j)), period := PeriodOf(j))
  }

  method LastOfFilled(v: seq<Number>) returns (last: Number)
    requires |v| > 0
    ensures last == LastSeen(v)
  {
    var vals := FillForward(v);
    FilledIsWhole(v);
    assert vals[..][vals.Length - 1] == vals[vals.Length - 1];
    return vals[vals.Length - 1];
  }

  method Strip(s: Series, kind: Kind) returns (series: Series, shift: real)
    ensures series == if kind == Counter then s.(values := ResetFree(s.values)) else s
    ensures shift == if kind == Counter then -Offset(s.values) else 0.0
  {
    series, shift := s, 0.0;
    if kind == Counter {
      var free;
      free, shift := WithoutResets(s.values);
      series := series.(values := free[..]);
    }
  }

  method PrepareJob(j: Job) returns (p: Option<Prepared>, r: Result)
    ensures r == Opening(j) && p == if Ready(j) then Some(Prepare(j)) else None
  {
    r := Start(j);
    if !j.enabled {
      return None, r.(status := Disabled);
    }
    var observed := Observed(j.series.values);
    assert observed >= MIN_OBSERVED ==> |j.series.values| > 0;
    if observed < MIN_OBSERVED {
      return None, r.(status := Learning);
    }
    var kind, period := KindOf(j), PeriodOf(j);
    var horizon := HorizonSteps(j.horizonHours, j.series.step);
    var holdout := if observed / 4 < horizon then observed / 4 else horizon;
    var last := LastOfFilled(j.series.values);
    var series, shift := Strip(j.series, kind);
    return Some(Prepared(series, shift, last, horizon, holdout, kind, period, j.known)),
           r.(kind := Some(kind), period := period);
  }

  // ------------------------------------------------------------- requests

  function Head(s: Series, n: nat): Series {
    if n >= |s.values| then s.(values := []) else s.(values := s.values[..|s.values| - n])
  }

  /** The first n columns of each row; a short row shortens those after it. */
  function Cut(rows: Covariates, n: nat): Covariates {
    if |rows| == 0 then []
    else
      var m := if n > |rows[0]| then |rows[0]| else n;
      [rows[0][..m]] + Cut(rows[1..], m)
  }

  function FullQuery(p: Prepared): Query { Query(Request(p.series, p.horizon, p.kind, p.period), p.known) }

  function TestQuery(p: Prepared): Query {
    Query(Request(Head(p.series, p.holdout), p.holdout, p.kind, p.period), Cut(p.known, |p.series.values|))
  }

  function Queries(preps: seq<Prepared>): (q: seq<Query>)
    ensures |q| == 2 * |preps|
    ensures forall k :: 0 <= k < |preps| ==> q[2 * k] == FullQuery(preps[k]) && q[2 * k + 1] == TestQuery(preps[k])
  {
    if |preps| == 0 then []
    else Queries(preps[..|preps| - 1]) + [FullQuery(preps[|preps| - 1]), TestQuery(preps[|preps| - 1])]
  }

  /** What one engine has to say about one tag. */
  datatype Answer = Silent(why: Fault) | Says(full: Forecast, test: Forecast)

  function AnswerAt(e: Engine, queries: seq<Query>, k: nat): Answer
    requires 2 * k + 1 < |queries|
  {
    var fs := e.reply(queries);
    if fs.None? then Silent(EngineFailed)
    else if |fs.value| != |queries| then Silent(WrongCount)
    else Says(fs.value[2 * k], fs.value[2 * k + 1])
  }

  // -------------------------------------------------------------- consider

  function PlusAll(q: seq<Number>, d: real): seq<Number> { seq(|q|, i requires 0 <= i < |q| => Plus(q[i], d)) }

  function Unshift(f: Forecast, d: real): (g: Forecast)
    requires WellFormed(f)
    ensures WellFormed(g)
  {
    if d == 0.0 then f else f.(q10 := PlusAll(f.q10, d), q50 := PlusAll(f.q50, d), q90 := PlusAll(f.q90, d))
  }

  predicate Usable(f: Forecast) { exists i :: 0 <= i < |f.q50| && f.q50[i].Some? }

  datatype Choice = Choice(score: Score, name: string, forecast: Forecast)

  /** The best forecast so far and the result so far. */
  datatype Progress = Progress(best: Option<Choice>, result: Result)

  /** What an engine's answer is worth: the shaped forecast and its score. */
  function Offer(name: string, p: Prepared, full: Forecast, test: Forecast): Choice
    requires WellFormed(full) && WellFormed(test)
  {
    Choice(Evaluated(p.series.values, test, p.holdout), name, Shaped(Unshift(full, p.shift), p.kind, p.last))
  }

  /** An engine answers with forecasts of three quantiles a step. */
  predicate Decent(a: Answer) { a.Says? ==> WellFormed(a.full) && WellFormed(a.test) }

  /** consider, and the record of an engine that failed. */
  function Consider(g: Progress, name: string, p: Prepared, a: Answer): Progress
    requires Decent(a)
  {
    if a.Silent? then g.(result := g.result.(errors := g.result.errors[name := a.why]))
    else
      var o := Offer(name, p, a.full, a.test);
      var scored := g.result.(engines := g.result.engines[name := o.score]);
      if !Usable(o.forecast) then g.(result := scored.(errors := scored.errors[name := EmptyForecast]))
      else Progress(if g.best.None? || Better(o.score, g.best.value.score) then Some(o) else g.best, scored)
  }

  predicate Stable(s: Score) { s.points > 0 && s.skill >= -STABLE_MARGIN && s.coverage >= MIN_STABLE_COVERAGE }

  /** conclude. */
  function Conclude(g: Progress): Result {
    if g.best.None? then g.result.(status := Error)
    else
      var c := g.best.value;
      var r := g.result.(engine := Some(c.name), forecast := Some(c.forecast), score := c.score, stable := false);
      if c.score.flat || c.score.skill > STABLE_MARGIN then r.(status := Ok)
      else if Stable(c.score) then r.(status := Ok, stable := true)
      else r.(status := Unreliable)
  }

  // ------------------------------------------------- one tag, all engines

  /** A tag's progress through the engines' answers. */
  function Heard(p: Prepared, r: Result, names: seq<string>, answers: seq<Answer>): Progress
    requires |names| == |answers| && forall i :: 0 <= i < |answers| ==> Decent(answers[i])
  {
    if |answers| == 0 then Progress(None, r)
    else
      var n := |answers| - 1;
      Consider(Heard(p, r, names[..n], answers[..n]), names[n], p, answers[n])
  }

  /** What the answer offers, if it can be used. */
  function OfferOf(name: string, p: Prepared, a: Answer): Option<Choice>
    requires Decent(a)
  {
    if a.Says? && Usable(Offer(name, p, a.full, a.test).forecast) then Some(Offer(name, p, a.full, a.test)) else None
  }

  function Offers(names: seq<string>, p: Prepared, answers: seq<Answer>): (o: seq<Option<Choice>>)
    requires |names| == |answers| && forall i :: 0 <= i < |answers| ==> Decent(answers[i])
    ensures |o| == |answers| && forall i :: 0 <= i < |answers| ==> o[i] == OfferOf(names[i], p, answers[i])
  {
    if |answers| == 0 then []
    else
      var n := |answers| - 1;
      Offers(names[..n], p, answers[..n]) + [OfferOf(names[n], p, answers[n])]
  }

  function Keep(best: Option<Choice>, o: Option<Choice>): Option<Choice> {
    if o.Some? && (best.None? || Better(o.value.score, best.value.score)) then o else best
  }

  function Kept(offers: seq<Option<Choice>>): Option<Choice> {
    if |offers| == 0 then None else Keep(Kept(offers[..|offers| - 1]), offers[|offers| - 1])
  }

  lemma ConsiderKeeps(g: Progress, name: string, p: Prepared, a: Answer)
    requires Decent(a)
    ensures Consider(g, name, p, a).best == Keep(g.best, OfferOf(name, p, a))
  {
  }

  lemma {:induction false} HeardKeeps(p: Prepared, r: Result, names: seq<string>, answers: seq<Answer>)
    requires |names| == |answers| && forall i :: 0 <= i < |answers| ==> Decent(answers[i])
    ensures Heard(p, r, names, answers).best == Kept(Offers(names, p, answers))
  {
    if |answers| > 0 {
      var n := |answers| - 1;
      HeardKeeps(p, r, names[..n], answers[..n]);
      ConsiderKeeps(Heard(p, r, names[..n], answers[..n]), names[n], p, answers[n]);
      assert Offers(names, p, answers)[..n] == Offers(names[..n], p, answers[..n]);
    }
  }

  /** Offer i is made, none is better, and every one before it is worse. */
  ghost predicate IsBest(offers: seq<Option<Choice>>, i: nat) {
    && i < |offers| && offers[i].Some?
    && (forall j :: 0 <= j < |offers| && offers[j].Some? ==> !Better(offers[j].value.score, offers[i].value.score))
    && (forall j :: 0 <= j < i && offers[j].Some? ==> Better(offers[i].value.score, offers[j].value.score))
  }

  lemma {:induction false} KeptIsBest(offers: seq<Option<Choice>>)
    ensures Kept(offers).None? <==> forall i :: 0 <= i < |offers| ==> offers[i].None?
    ensures Kept(offers).Some? ==> exists i: nat :: IsBest(offers, i) && Kept(offers) == offers[i]
  {
    if |offers| > 0 {
      var n := |offers| - 1;
      var init, last := offers[..n], offers[n];
      KeptIsBest(init);
      if Kept(init).Some? {
        var i: nat :| IsBest(init, i) && Kept(init) == init[i];
        if last.Some? && Better(last.value.score, init[i].value.score) {
          NewBest(offers, i);
        } else {
          OldBest(offers, i);
        }
      } else {
        FirstOffer(offers, init);
      }
    }
  }

  lemma FirstOffer(offers: seq<Option<Choice>>, init: seq<Option<Choice>>)
    requires |offers| > 0 && init == offers[..|offers| - 1] && forall i :: 0 <= i < |init| ==> init[i].None?
    ensures offers[|offers| - 1].Some? ==> IsBest(offers, |offers| - 1)
    ensures offers[|offers| - 1].None? ==> forall i :: 0 <= i < |offers| ==> offers[i].None?
  {
    assert forall j :: 0 <= j < |init| ==> offers[j] == init[j];
  }

  lemma NewBest(offers: seq<Option<Choice>>, i: nat)
    requires |offers| > 0 && IsBest(offers[..|offers| - 1], i) && offers[|offers| - 1].Some?
    requires Better(offers[|offers| - 1].value.score, offers[i].value.score)
    ensures IsBest(offers, |offers| - 1)
  {
    var n := |offers| - 1;
    var init, s := offers[..n], offers[n].value.score;
    forall j | 0 <= j < n && offers[j].Some?
      ensures Better(s, offers[j].value.score) && !Better(offers[j].value.score, s)
    {
      assert init[j] == offers[j];
      BetterIsAWeakOrder(s, offers[j].value.score, init[i].value.score);
    }
  }

  lemma OldBest(offers: seq<Option<Choice>>, i: nat)
    requires |offers| > 0 && IsBest(offers[..|offers| - 1], i)
    requires offers[|offers| - 1].Some? ==> !Better(offers[|offers| - 1].value.score, offers[i].value.score)
    ensures IsBest(offers, i)
  {
    var init := offers[..|offers| - 1];
    assert forall j :: 0 <= j < |init| ==> offers[j] == init[j];
  }

  /** The forecast kept is the first of the best offers; none is kept exactly when no answer can be used. */
  lemma KeptIsTheFirstBest(p: Prepared, r: Result, names: seq<string>, answers: seq<Answer>)
    requires |names| == |answers| && forall i :: 0 <= i < |answers| ==> Decent(answers[i])
    ensures var best, offers := Heard(p, r, names, answers).best, Offers(names, p, answers);
            && (best.None? <==> forall i :: 0 <= i < |offers| ==> offers[i].None?)
            && (best.Some? ==> exists i: nat :: IsBest(offers, i) && best == offers[i])
  {
    HeardKeeps(p, r, names, answers);
    KeptIsBest(Offers(names, p, answers));
  }

  /** Apart from the errors on record. */
  ghost predicate SameButErrors(a: Progress, b: Progress) {
    a.best == b.best && a.result.(errors := map[]) == b.result.(errors := map[])
  }

  lemma ConsiderIgnoresErrors(a: Progress, b: Progress, name: string, p: Prepared, answer: Answer)
    requires Decent(answer) && SameButErrors(a, b)
    ensures SameButErrors(Consider(a, name, p, answer), Consider(b, name, p, answer))
  {
  }

  function Without<T>(s: seq<T>, i: nat): seq<T>
    requires i < |s|
  {
    s[..i] + s[i + 1..]
  }

  lemma WithoutPrefix<T>(s: seq<T>, i: nat)
    requires i < |s| - 1
    ensures var r := Without(s, i);
            |r| == |s| - 1 && r[..|r| - 1] == Without(s[..|s| - 1], i) && r[|r| - 1] == s[|s| - 1]
  {
  }

  lemma ConcludeIgnoresErrors(a: Progress, b: Progress)
    requires SameButErrors(a, b)
    ensures Conclude(a).(errors := map[]) == Conclude(b).(errors := map[])
  {
  }

  lemma SilenceIsOnlyAnError(g: Progress, name: string, p: Prepared, a: Answer)
    requires a.Silent?
    ensures SameButErrors(Consider(g, name, p, a), g)
  {
  }

  lemma {:induction false} SilenceChangesOnlyErrors(p: Prepared, r: Result, names: seq<string>, answers: seq<Answer>,
                                                    i: nat)
    requires |names| == |answers| && i < |answers| && answers[i].Silent?
    requires forall i :: 0 <= i < |answers| ==> Decent(answers[i])
    ensures forall k :: 0 <= k < |Without(answers, i)| ==> Decent(Without(answers, i)[k])
    ensures SameButErrors(Heard(p, r, names, answers), Heard(p, r, Without(names, i), Without(answers, i)))
  {
    var n := |answers| - 1;
    var g := Heard(p, r, names[..n], answers[..n]);
    if i == n {
      assert Without(names, i) == names[..n] && Without(answers, i) == answers[..n];
      SilenceIsOnlyAnError(g, names[n], p, answers[n]);
    } else {
      SilenceChangesOnlyErrors(p, r, names[..n], answers[..n], i);
      var ns, as' := Without(names, i), Without(answers, i);
      WithoutPrefix(names, i);
      WithoutPrefix(answers, i);
      ConsiderIgnoresErrors(g, Heard(p, r, ns[..n - 1], as'[..n - 1]), names[n], p, answers[n]);
    }
  }

  /** An engine that fails changes the errors on record and nothing else. */
  lemma FailureChangesOnlyErrors(p: Prepared, r: Result, names: seq<string>, answers: seq<Answer>, i: nat)
    requires |names| == |answers| && i < |answers| && answers[i].Silent?
    requires forall i :: 0 <= i < |answers| ==> Decent(answers[i])
    ensures forall k :: 0 <= k < |Without(answers, i)| ==> Decent(Without(answers, i)[k])
    ensures Conclude(Heard(p, r, names, answers)).(errors := map[])
         == Conclude(Heard(p, r, Without(names, i), Without(answers, i))).(errors := map[])
  {
    SilenceChangesOnlyErrors(p, r, names, answers, i);
    ConcludeIgnoresErrors(Heard(p, r, names, answers), Heard(p, r, Without(names, i), Without(answers, i)));
  }

  // ----------------------------------------------- the verdict, in numbers

  /** Better, in numbers: a forecast that beat the naive guess, or had nothing to beat, before one that did
      not; then the higher skill; then the share inside the band that is nearer to eight in ten. */
  predicate Beats(a: Score, b: Score) {
    var won, won' := a.points > 0 && (a.flat || a.skill > 0.0), b.points > 0 && (b.flat || b.skill > 0.0);
    || (won && !won')
    || (won == won' && a.skill > b.skill)
    || (won == won' && a.skill == b.skill && Off(a.coverage) < Off(b.coverage))
  }

  function Off(coverage: real): real { if coverage > 0.8 then coverage - 0.8 else 0.8 - coverage }

  /** Offer i beats every one before it, and none after it beats it. */
  ghost predicate IsChosen(offers: seq<Option<Choice>>, i: nat) {
    && i < |offers| && offers[i].Some?
    && (forall j :: 0 <= j < i && offers[j].Some? ==> Beats(offers[i].value.score, offers[j].value.score))
    && (forall j :: i < j < |offers| && offers[j].Some? ==> !Beats(offers[j].value.score, offers[i].value.score))
  }

  /** Shown without reserve; and as good as the naive guess, with a band that held. */
  predicate Won(s: Score) { s.flat || s.skill > 0.05 }
  predicate Tied(s: Score) { !Won(s) && s.points > 0 && s.skill >= -0.05 && s.coverage >= 0.6 }

  /** The result says what was chosen and how much it is worth. */
  ghost predicate IsVerdict(r: Result, offers: seq<Option<Choice>>, i: nat)
    requires i < |offers| && offers[i].Some?
  {
    var c := offers[i].value;
    && r.engine == Some(c.name) && r.forecast == Some(c.forecast) && r.score == c.score
    && r.status == (if Won(c.score) || Tied(c.score) then Ok else Unreliable)
    && (r.stable <==> Tied(c.score))
  }

  /** The result of a tag that was forecast: that of the offer chosen; an error when there is none. */
  ghost predicate IsConcluded(r: Result, opening: Result, offers: seq<Option<Choice>>) {
    && r.tag == opening.tag && r.kind == opening.kind && r.period == opening.period
    && if forall i :: 0 <= i < |offers| ==> offers[i].None? then
         r.status == Error && r.engine == opening.engine && r.forecast == opening.forecast && r.stable == opening.stable
       else exists i: nat :: IsChosen(offers, i) && IsVerdict(r, offers, i)
  }

  lemma BestIsChosen(offers: seq<Option<Choice>>, i: nat)
    requires IsBest(offers, i)
    ensures IsChosen(offers, i)
  {
    forall j | 0 <= j < i && offers[j].Some?
      ensures Beats(offers[i].value.score, offers[j].value.score)
    {
      assert Better(offers[i].value.score, offers[j].value.score);
    }
    forall j | i < j < |offers| && offers[j].Some?
      ensures !Beats(offers[j].value.score, offers[i].value.score)
    {
      assert !Better(offers[j].value.score, offers[i].value.score);
    }
  }

  lemma {:induction false} HearingKeeps(p: Prepared, r: Result, names: seq<string>, answers: seq<Answer>)
    requires |names| == |answers| && forall i :: 0 <= i < |answers| ==> Decent(answers[i])
    ensures var g := Heard(p, r, names, answers).result; g == r.(engines := g.engines, errors := g.errors)
  {
    if |answers| > 0 {
      var n := |answers| - 1;
      HearingKeeps(p, r, names[..n], answers[..n]);
    }
  }

  lemma VerdictOnBest(g: Progress, offers: seq<Option<Choice>>, i: nat)
    requires i < |offers| && offers[i].Some? && g.best == offers[i]
    ensures var r := Conclude(g);
            IsVerdict(r, offers, i) && r.tag == g.result.tag && r.kind == g.result.kind && r.period == g.result.period
  {
  }

  lemma ConcludesRight(p: Prepared, r: Result, names: seq<string>, answers: seq<Answer>)
    requires |names| == |answers| && forall i :: 0 <= i < |answers| ==> Decent(answers[i])
    ensures IsConcluded(Conclude(Heard(p, r, names, answers)), r, Offers(names, p, answers))
  {
    KeptIsTheFirstBest(p, r, names, answers);
    HearingKeeps(p, r, names, answers);
    ConcludeIsRight(Heard(p, r, names, answers), r, Offers(names, p, answers));
  }

  lemma ConcludeIsRight(g: Progress, r: Result, offers: seq<Option<Choice>>)
    requires g.result == r.(engines := g.result.engines, errors := g.result.errors)
    requires g.best.None? <==> forall i :: 0 <= i < |offers| ==> offers[i].None?
    requires g.best.Some? ==> exists i: nat :: IsBest(offers, i) && g.best == offers[i]
    ensures IsConcluded(Conclude(g), r, offers)
  {
    if g.best.Some? {
      var i: nat :| IsBest(offers, i) && g.best == offers[i];
      BestIsChosen(offers, i);
      VerdictOnBest(g, offers, i);
    }
  }

  /** What a result has on record of an engine: the score of what it said, or why it said nothing; and that
      what it said was empty. */
  ghost predicate IsOnRecord(r: Result, name: string, p: Prepared, a: Answer)
    requires Decent(a)
  {
    match a
    case Silent(why) => name !in r.engines && name in r.errors && r.errors[name] == why
    case Says(full, test) =>
      && name in r.engines && r.engines[name] == Offer(name, p, full, test).score
      && (name in r.errors <==> OfferOf(name, p, a).None?)
      && (name in r.errors ==> r.errors[name] == EmptyForecast)
  }

  predicate Distinct(names: seq<string>) { forall i, j :: 0 <= i < j < |names| ==> names[i] != names[j] }

  /** Considering an answer puts it on record, and leaves what is on record of the others. */
  lemma ConsiderRecords(g: Progress, name: string, p: Prepared, a: Answer)
    requires Decent(a) && name !in g.result.engines && name !in g.result.errors
    ensures IsOnRecord(Consider(g, name, p, a).result, name, p, a)
  {
  }

  lemma ConsiderLeaves(g: Progress, name: string, p: Prepared, a: Answer, other: string, b: Answer)
    requires Decent(a) && Decent(b) && other != name && IsOnRecord(g.result, other, p, b)
    ensures IsOnRecord(Consider(g, name, p, a).result, other, p, b)
  {
    ConsiderTouches(g, name, p, a, other);
  }

  lemma ConsiderTouches(g: Progress, name: string, p: Prepared, a: Answer, other: string)
    requires Decent(a) && other != name
    ensures var r := Consider(g, name, p, a).result;
            && (other in r.engines <==> other in g.result.engines) && (other in r.errors <==> other in g.result.errors)
            && (other in r.engines ==> r.engines[other] == g.result.engines[other])
            && (other in r.errors ==> r.errors[other] == g.result.errors[other])
  {
  }

  lemma {:induction false} HearingNames(p: Prepared, r: Result, names: seq<string>, answers: seq<Answer>, name: string)
    requires |names| == |answers| && forall i :: 0 <= i < |answers| ==> Decent(answers[i])
    requires name !in names && name !in r.engines && name !in r.errors
    ensures var g := Heard(p, r, names, answers).result; name !in g.engines && name !in g.errors
  {
    if |answers| > 0 {
      var n := |answers| - 1;
      HearingNames(p, r, names[..n], answers[..n], name);
      ConsiderTouches(Heard(p, r, names[..n], answers[..n]), names[n], p, answers[n], name);
    }
  }

  lemma {:induction false} HearingRecords(p: Prepared, r: Result, names: seq<string>, answers: seq<Answer>, i: nat)
    requires |names| == |answers| && forall i :: 0 <= i < |answers| ==> Decent(answers[i])
    requires Distinct(names) && r.engines == map[] && r.errors == map[] && i < |names|
    ensures IsOnRecord(Heard(p, r, names, answers).result, names[i], p, answers[i])
  {
    var n := |answers| - 1;
    var g := Heard(p, r, names[..n], answers[..n]);
    if i == n {
      HearingNames(p, r, names[..n], answers[..n], names[n]);
      ConsiderRecords(g, names[n], p, answers[n]);
    } else {
      HearingRecords(p, r, names[..n], answers[..n], i);
      ConsiderLeaves(g, names[n], p, answers[n], names[i], answers[i]);
    }
  }

  /** Every engine is on record in the result, whichever was chosen, and nothing else is. */
  lemma EveryEngineIsOnRecord(p: Prepared, r: Result, names: seq<string>, answers: seq<Answer>)
    requires |names| == |answers| && forall i :: 0 <= i < |answers| ==> Decent(answers[i])
    requires Distinct(names) && r.engines == map[] && r.errors == map[]
    ensures var z := Conclude(Heard(p, r, names, answers));
            && (forall i :: 0 <= i < |names| ==> IsOnRecord(z, names[i], p, answers[i]))
            && forall name :: name in z.engines || name in z.errors ==> name in names
  {
    var g := Heard(p, r, names, answers);
    ConcludeKeepsRecords(g);
    forall i | 0 <= i < |names|
      ensures IsOnRecord(Conclude(g), names[i], p, answers[i])
    {
      HearingRecords(p, r, names, answers, i);
    }
    forall name | name !in names
      ensures name !in g.result.engines && name !in g.result.errors
    {
      HearingNames(p, r, names, answers, name);
    }
  }

  lemma ConcludeKeepsRecords(g: Progress)
    ensures Conclude(g).engines == g.result.engines && Conclude(g).errors == g.result.errors
  {
  }
}
