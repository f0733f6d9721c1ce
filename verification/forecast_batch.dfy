/** Run's batching: one call per engine for all tags, answers found again by position. */
module ForecastBatch {
  import opened Options
  import opened ForecastSeries
  import opened ForecastShape
  import opened ForecastScores
  import opened ForecastRun

  /** The jobs that are forecast, in order. */
  function Preps(jobs: seq<Job>): seq<Prepared> {
    if |jobs| == 0 then []
    else
      var j := jobs[|jobs| - 1];
      Preps(jobs[..|jobs| - 1]) + if Ready(j) then [Prepare(j)] else []
  }

  /** Where job i stands among them. */
  function Place(jobs: seq<Job>, i: nat): nat
    requires i <= |jobs|
  {
    |Preps(jobs[..i])|
  }

  /** An engine's forecasts have three quantiles a step. */
  ghost predicate DecentEngine(e: Engine) {
    forall qs :: e.reply(qs).Some? ==> forall i :: 0 <= i < |e.reply(qs).value| ==> WellFormed(e.reply(qs).value[i])
  }

  ghost predicate DecentEngines(engines: seq<Engine>) { forall i :: 0 <= i < |engines| ==> DecentEngine(engines[i]) }

  function Names(engines: seq<Engine>): (r: seq<string>)
    ensures |r| == |engines| && forall i :: 0 <= i < |engines| ==> r[i] == engines[i].name
  {
    seq(|engines|, i requires 0 <= i < |engines| => engines[i].name)
  }

  /** What the engines say about tag k of the batch. */
  function Answers(engines: seq<Engine>, queries: seq<Query>, k: nat): (r: seq<Answer>)
    requires 2 * k + 1 < |queries|
    ensures |r| == |engines| && forall i :: 0 <= i < |engines| ==> r[i] == AnswerAt(engines[i], queries, k)
    ensures DecentEngines(engines) ==> forall i :: 0 <= i < |r| ==> Decent(r[i])
  {
    seq(|engines|, i requires 0 <= i < |engines| => AnswerAt(engines[i], queries, k))
  }

  lemma {:induction false} PlacedJob(jobs: seq<Job>, i: nat)
    requires i < |jobs| && Ready(jobs[i])
    ensures Place(jobs, i) < |Preps(jobs)| && Preps(jobs)[Place(jobs, i)] == Prepare(jobs[i])
  {
    if i == |jobs| - 1 {
      assert jobs[..i] == jobs[..|jobs| - 1];
    } else {
      var init := jobs[..|jobs| - 1];
      assert init[..i] == jobs[..i];
      PlacedJob(init, i);
    }
  }

  /** Job i's result of a run. */
  ghost function ResultOf(jobs: seq<Job>, engines: seq<Engine>, i: nat): Result
    requires i < |jobs| && DecentEngines(engines)
  {
    if !Ready(jobs[i]) then Opening(jobs[i])
    else
      PlacedJob(jobs, i);
      Conclude(Heard(Prepare(jobs[i]), Opening(jobs[i]), Names(engines),
                     Answers(engines, Queries(Preps(jobs)), Place(jobs, i))))
  }

  // -------------------------------------------------------- independence

  function Each(one: Query -> Forecast, qs: seq<Query>): (r: seq<Forecast>)
    ensures |r| == |qs| && forall i :: 0 <= i < |qs| ==> r[i] == one(qs[i])
  {
    seq(|qs|, i requires 0 <= i < |qs| => one(qs[i]))
  }

  ghost predicate AnswersEach(e: Engine, one: Query -> Forecast) { forall qs :: e.reply(qs) == Some(Each(one, qs)) }

  ghost predicate AlwaysFails(e: Engine) { forall qs :: e.reply(qs) == None }

  /** The engine treats every query on its own, or fails. */
  ghost predicate Independent(e: Engine) { AlwaysFails(e) || exists one :: AnswersEach(e, one) }

  lemma SameAnswer(e: Engine, qs: seq<Query>, k: nat, qs': seq<Query>, k': nat)
    requires Independent(e) && 2 * k + 1 < |qs| && 2 * k' + 1 < |qs'|
    requires qs[2 * k] == qs'[2 * k'] && qs[2 * k + 1] == qs'[2 * k' + 1]
    ensures AnswerAt(e, qs, k) == AnswerAt(e, qs', k')
  {
    if !AlwaysFails(e) {
      var one :| AnswersEach(e, one);
      assert e.reply(qs) == Some(Each(one, qs)) && e.reply(qs') == Some(Each(one, qs'));
    }
  }

  /** For engines that treat queries independently, a tag's result in any batch is its
      result alone: the positions in the batch never mix tags up. */
  lemma BatchIsEachAlone(jobs: seq<Job>, engines: seq<Engine>, i: nat)
    requires i < |jobs| && DecentEngines(engines) && forall m :: 0 <= m < |engines| ==> Independent(engines[m])
    ensures ResultOf(jobs, engines, i) == ResultOf([jobs[i]], engines, 0)
  {
    if Ready(jobs[i]) {
      var alone := [jobs[i]];
      PlacedJob(jobs, i);
      PlacedJob(alone, 0);
      var qs, qs' := Queries(Preps(jobs)), Queries(Preps(alone));
      var k, k' := Place(jobs, i), Place(alone, 0);
      assert alone[0] == jobs[i];
      forall m | 0 <= m < |engines|
        ensures Answers(engines, qs, k)[m] == Answers(engines, qs', k')[m]
      {
        SameAnswer(engines[m], qs, k, qs', k');
      }
      assert Answers(engines, qs, k) == Answers(engines, qs', k');
    }
  }

  lemma UnshiftKeepsGaps(f: Forecast, d: real)
    requires AllOrNone(f)
    ensures AllOrNone(Unshift(f, d))
  {
    var g := Unshift(f, d);
    forall i | 0 <= i < |g.q50|
      ensures Whole(At(g, i)) || Empty(At(g, i))
    {
      assert Whole(At(f, i)) || Empty(At(f, i));
    }
  }

  /** Whatever engine wins, the forecast shown is as the tag's kind implies. */
  lemma ShownForecastIsSound(p: Prepared, r: Result, names: seq<string>, answers: seq<Answer>)
    requires |names| == |answers|
    requires forall i :: 0 <= i < |answers| ==> Decent(answers[i]) && (answers[i].Says? ==> AllOrNone(answers[i].full))
    ensures var best := Heard(p, r, names, answers).best; best.Some? ==> Sound(best.value.forecast, p.kind, p.last)
  {
    KeptIsTheFirstBest(p, r, names, answers);
    var best, offers := Heard(p, r, names, answers).best, Offers(names, p, answers);
    if best.Some? {
      var i: nat :| IsBest(offers, i) && best == offers[i];
      UnshiftKeepsGaps(answers[i].full, p.shift);
      ShapeIsSound(Unshift(answers[i].full, p.shift), p.kind, p.last);
    }
  }

  // ------------------------------------------------------------- the method

  /** consider: shaped in place, scored, kept if it is the best so far. */
  method ConsiderForecast(g: Progress, name: string, p: Prepared, full: Forecast, test: Forecast) returns (g': Progress)
    requires WellFormed(full) && WellFormed(test)
    ensures g' == Consider(g, name, p, Says(full, test))
  {
    var f := new Buffers(Unshift(full, p.shift));
    f.Shape(p.kind, p.last);
    var shaped := Forecast(f.start, f.step, f.q10[..], f.q50[..], f.q90[..]);
    assert shaped == f.Forecast();
    var score := Evaluate(p.series.values, test, p.holdout);
    var r := g.result.(engines := g.result.engines[name := score]);
    if !Usable(shaped) {
      return g.(result := r.(errors := r.errors[name := EmptyForecast]));
    }
    if g.best.None? || Better(score, g.best.value.score) {
      return Progress(Some(Choice(score, name, shaped)), r);
    }
    return Progress(g.best, r);
  }

  /** The batch of the first n jobs: which job each prepared one is. */
  ghost predicate IsBatch(jobs: seq<Job>, n: nat, preps: seq<Prepared>, idx: seq<nat>) {
    && n <= |jobs| && preps == Preps(jobs[..n]) && |idx| == |preps| && Indexes(idx, n)
    && (forall k :: 0 <= k < |idx| ==>
          Ready(jobs[idx[k]]) && preps[k] == Prepare(jobs[idx[k]]) && Place(jobs, idx[k]) == k)
    && (forall i :: 0 <= i < n && Ready(jobs[i]) ==> i in idx)
  }

  ghost predicate Indexes(idx: seq<nat>, n: nat) {
    (forall k :: 0 <= k < |idx| ==> idx[k] < n) && forall k, l :: 0 <= k < l < |idx| ==> idx[k] < idx[l]
  }

  lemma BatchGrows(jobs: seq<Job>, i: nat, preps: seq<Prepared>, idx: seq<nat>)
    requires i < |jobs| && IsBatch(jobs, i, preps, idx)
    ensures if Ready(jobs[i]) then IsBatch(jobs, i + 1, preps + [Prepare(jobs[i])], idx + [i])
            else IsBatch(jobs, i + 1, preps, idx)
  {
    PrepsGrow(jobs, i);
    assert i in idx + [i];
  }

  lemma PrepsGrow(jobs: seq<Job>, i: nat)
    requires i < |jobs|
    ensures Preps(jobs[..i + 1]) == Preps(jobs[..i]) + if Ready(jobs[i]) then [Prepare(jobs[i])] else []
  {
    assert jobs[..i + 1][..i] == jobs[..i];
  }

  /** Preparing one more job for the batch. */
  method Enlist(jobs: seq<Job>, i: nat, preps: seq<Prepared>, idx: seq<nat>)
    returns (preps': seq<Prepared>, idx': seq<nat>, r: Result)
    requires i < |jobs| && IsBatch(jobs, i, preps, idx)
    ensures IsBatch(jobs, i + 1, preps', idx') && r == Opening(jobs[i])
  {
    var p;
    p, r := PrepareJob(jobs[i]);
    BatchGrows(jobs, i, preps, idx);
    preps', idx' := preps, idx;
    if p.Some? {
      preps', idx' := preps + [p.value], idx + [i];
    }
  }

  method PrepareAll(jobs: seq<Job>) returns (preps: seq<Prepared>, idx: seq<nat>, results: array<Result>)
    ensures IsBatch(jobs, |jobs|, preps, idx)
    ensures fresh(results) && results.Length == |jobs| && forall i :: 0 <= i < |jobs| ==> results[i] == Opening(jobs[i])
  {
    preps, idx := [], [];
    results := new Result[|jobs|](i requires 0 <= i < |jobs| => Start(jobs[i]));
    for i := 0 to |jobs|
      invariant IsBatch(jobs, i, preps, idx)
      invariant forall m :: 0 <= m < i ==> results[m] == Opening(jobs[m])
    {
      preps, idx, results[i] := Enlist(jobs, i, preps, idx);
    }
  }

  method Ask(preps: seq<Prepared>) returns (queries: seq<Query>)
    ensures queries == Queries(preps)
  {
    queries := [];
    for k := 0 to |preps|
      invariant queries == Queries(preps[..k])
    {
      assert preps[..k + 1][..k] == preps[..k];
      queries := queries + [FullQuery(preps[k]), TestQuery(preps[k])];
    }
    assert preps[..|preps|] == preps;
  }

  /** Entry k of the batch. */
  function Entry(results: array<Result>, chosen: array<Option<Choice>>, idx: seq<nat>, k: nat): Progress
    requires k < |idx| <= chosen.Length && idx[k] < results.Length
    reads results, chosen
  {
    Progress(chosen[k], results[idx[k]])
  }

  /** One engine is heard on every tag. */
  method Hear(e: Engine, queries: seq<Query>, preps: seq<Prepared>, idx: seq<nat>, results: array<Result>,
              chosen: array<Option<Choice>>)
    requires |preps| == |idx| == chosen.Length && |queries| == 2 * |preps| && Indexes(idx, results.Length)
    requires DecentEngine(e)
    modifies results, chosen
    ensures forall k :: 0 <= k < |idx| ==>
      Entry(results, chosen, idx, k)
        == Consider(old(Entry(results, chosen, idx, k)), e.name, preps[k], AnswerAt(e, queries, k))
    ensures forall i :: 0 <= i < results.Length && i !in idx ==> results[i] == old(results[i])
  {
    var fs := e.reply(queries);
    for k := 0 to |preps|
      invariant forall l :: 0 <= l < k ==>
        Entry(results, chosen, idx, l)
          == Consider(old(Entry(results, chosen, idx, l)), e.name, preps[l], AnswerAt(e, queries, l))
      invariant forall l :: k <= l < |preps| ==> Entry(results, chosen, idx, l) == old(Entry(results, chosen, idx, l))
      invariant forall i :: 0 <= i < results.Length && i !in idx ==> results[i] == old(results[i])
    {
      var g := Progress(chosen[k], results[idx[k]]);
      assert g == Entry(results, chosen, idx, k);
      if fs.None? || |fs.value| != |queries| {
        var why := if fs.None? then EngineFailed else WrongCount;
        g := g.(result := g.result.(errors := g.result.errors[e.name := why]));
      } else {
        g := ConsiderForecast(g, e.name, preps[k], fs.value[2 * k], fs.value[2 * k + 1]);
      }
      chosen[k], results[idx[k]] := g.best, g.result;
    }
  }

  lemma AnswersSnoc(engines: seq<Engine>, queries: seq<Query>, k: nat, e: nat)
    requires e < |engines| && 2 * k + 1 < |queries|
    ensures Names(engines[..e + 1])[..e] == Names(engines[..e]) && Names(engines[..e + 1])[e] == engines[e].name
    ensures Answers(engines[..e + 1], queries, k)[..e] == Answers(engines[..e], queries, k)
    ensures Answers(engines[..e + 1], queries, k)[e] == AnswerAt(engines[e], queries, k)
  {
  }

  /** Tag k's progress after the first engines. */
  ghost function After(jobs: seq<Job>, engines: seq<Engine>, queries: seq<Query>, preps: seq<Prepared>, idx: seq<nat>,
                       k: nat): Progress
    requires k < |idx| == |preps| && idx[k] < |jobs| && 2 * k + 1 < |queries| && DecentEngines(engines)
  {
    Heard(preps[k], Opening(jobs[idx[k]]), Names(engines), Answers(engines, queries, k))
  }

  lemma AfterOneMore(jobs: seq<Job>, engines: seq<Engine>, queries: seq<Query>, preps: seq<Prepared>, idx: seq<nat>,
                     k: nat, e: nat)
    requires k < |idx| == |preps| && idx[k] < |jobs| && 2 * k + 1 < |queries| && e < |engines| && DecentEngines(engines)
    ensures After(jobs, engines[..e + 1], queries, preps, idx, k)
         == Consider(After(jobs, engines[..e], queries, preps, idx, k), engines[e].name, preps[k],
                     AnswerAt(engines[e], queries, k))
  {
    AnswersSnoc(engines, queries, k, e);
  }

  lemma AfterEach(jobs: seq<Job>, engines: seq<Engine>, queries: seq<Query>, preps: seq<Prepared>, idx: seq<nat>,
                  e: nat)
    requires |idx| == |preps| && |queries| == 2 * |preps| && Indexes(idx, |jobs|) && e < |engines|
    requires DecentEngines(engines)
    ensures forall k :: 0 <= k < |idx| ==>
      After(jobs, engines[..e + 1], queries, preps, idx, k)
      == Consider(After(jobs, engines[..e], queries, preps, idx, k), engines[e].name, preps[k],
                  AnswerAt(engines[e], queries, k))
  {
    forall k | 0 <= k < |idx|
      ensures After(jobs, engines[..e + 1], queries, preps, idx, k)
           == Consider(After(jobs, engines[..e], queries, preps, idx, k), engines[e].name, preps[k],
                       AnswerAt(engines[e], queries, k))
    {
      AfterOneMore(jobs, engines, queries, preps, idx, k, e);
    }
  }

  /** Every entry of the batch has come through the engines. */
  ghost predicate HeardThrough(jobs: seq<Job>, engines: seq<Engine>, queries: seq<Query>, preps: seq<Prepared>,
                               idx: seq<nat>, results: array<Result>, chosen: array<Option<Choice>>)
    requires |preps| == |idx| == chosen.Length && |queries| == 2 * |preps| && results.Length == |jobs|
    requires Indexes(idx, |jobs|) && DecentEngines(engines)
    reads results, chosen
  {
    forall k :: 0 <= k < |idx| ==> Entry(results, chosen, idx, k) == After(jobs, engines, queries, preps, idx, k)
  }

  /** Every engine is heard on every tag. */
  method HearAll(jobs: seq<Job>, engines: seq<Engine>, queries: seq<Query>, preps: seq<Prepared>, idx: seq<nat>,
                 results: array<Result>)
    returns (chosen: array<Option<Choice>>)
    requires |preps| == |idx| && |queries| == 2 * |preps| && results.Length == |jobs| && Indexes(idx, |jobs|)
    requires DecentEngines(engines)
    requires forall i :: 0 <= i < |jobs| ==> results[i] == Opening(jobs[i])
    modifies results
    ensures fresh(chosen) && chosen.Length == |idx|
    ensures HeardThrough(jobs, engines, queries, preps, idx, results, chosen)
    ensures forall i :: 0 <= i < |jobs| && i !in idx ==> results[i] == Opening(jobs[i])
  {
    chosen := new Option<Choice>[|idx|](_ => None);
    for e := 0 to |engines|
      invariant HeardThrough(jobs, engines[..e], queries, preps, idx, results, chosen)
      invariant forall i :: 0 <= i < |jobs| && i !in idx ==> results[i] == Opening(jobs[i])
    {
      HearNext(jobs, engines, e, queries, preps, idx, results, chosen);
    }
    assert engines[..|engines|] == engines;
  }

  method HearNext(jobs: seq<Job>, engines: seq<Engine>, e: nat, queries: seq<Query>, preps: seq<Prepared>,
                  idx: seq<nat>, results: array<Result>, chosen: array<Option<Choice>>)
    requires |preps| == |idx| && |queries| == 2 * |preps| && results.Length == |jobs| && Indexes(idx, |jobs|)
    requires e < |engines| && DecentEngines(engines) && chosen.Length == |idx|
    requires HeardThrough(jobs, engines[..e], queries, preps, idx, results, chosen)
    modifies results, chosen
    ensures HeardThrough(jobs, engines[..e + 1], queries, preps, idx, results, chosen)
    ensures forall i :: 0 <= i < |jobs| && i !in idx ==> results[i] == old(results[i])
  {
    AfterEach(jobs, engines, queries, preps, idx, e);
    Hear(engines[e], queries, preps, idx, results, chosen);
  }

  method ConcludeAll(idx: seq<nat>, results: array<Result>, chosen: array<Option<Choice>>)
    requires |idx| == chosen.Length && Indexes(idx, results.Length)
    modifies results
    ensures forall k :: 0 <= k < |idx| ==> results[idx[k]] == Conclude(old(Entry(results, chosen, idx, k)))
    ensures forall i :: 0 <= i < results.Length && i !in idx ==> results[i] == old(results[i])
  {
    for k := 0 to |idx|
      invariant forall l :: 0 <= l < k ==> results[idx[l]] == Conclude(old(Entry(results, chosen, idx, l)))
      invariant forall l :: k <= l < |idx| ==> results[idx[l]] == old(results[idx[l]])
      invariant forall i :: 0 <= i < results.Length && i !in idx ==> results[i] == old(results[i])
    {
      results[idx[k]] := Conclude(Progress(chosen[k], results[idx[k]]));
    }
  }

  /** Entry k of the batch is job i, and concludes as job i. */
  ghost predicate IsEntry(jobs: seq<Job>, engines: seq<Engine>, preps: seq<Prepared>, idx: seq<nat>, i: nat, k: int)
    requires DecentEngines(engines) && i < |jobs| && |idx| == |preps|
  {
    0 <= k < |idx| && idx[k] == i
      && ResultOf(jobs, engines, i) == Conclude(After(jobs, engines, Queries(preps), preps, idx, k))
  }

  /** The entries of the batch are the results of their jobs. */
  lemma BatchResult(jobs: seq<Job>, engines: seq<Engine>, preps: seq<Prepared>, idx: seq<nat>, i: nat)
    requires IsBatch(jobs, |jobs|, preps, idx) && DecentEngines(engines) && i < |jobs|
    ensures Ready(jobs[i]) ==> exists k :: IsEntry(jobs, engines, preps, idx, i, k)
    ensures !Ready(jobs[i]) ==> i !in idx && ResultOf(jobs, engines, i) == Opening(jobs[i])
  {
    assert jobs[..|jobs|] == jobs;
    if Ready(jobs[i]) {
      var k :| 0 <= k < |idx| && idx[k] == i;
      assert Place(jobs, i) == k;
      assert IsEntry(jobs, engines, preps, idx, i, k);
    }
  }

  // ------------------------------------------------ what the results say

  /** The steps with a number. */
  function KnownSteps(v: seq<Number>): set<int> { set i | 0 <= i < |v| && v[i].Some? }

  lemma {:induction false} ObservedIsTheirNumber(v: seq<Number>)
    ensures ObservedIn(v) == |KnownSteps(v)|
  {
    if |v| > 0 {
      var n := |v| - 1;
      ObservedIsTheirNumber(v[..n]);
      assert KnownSteps(v) == KnownSteps(v[..n]) + if v[n].Some? then {n} else {};
    }
  }

  /** The kind a tag is set to, or is taken for, and its season where it has one. */
  function SetKind(j: Job): Kind { match j.kind case None => j.classified case Some(kind) => kind }

  function SetPeriod(j: Job): int {
    match j.kind
    case None => j.classifiedPeriod
    case Some(Cyclic) => j.season
    case Some(State) => j.season
    case _ => 0
  }

  /** A result that says nothing but why. */
  function Blank(j: Job, status: Status): Result {
    Result(j.tag, status, None, 0, None, None, Score(0.0, 0.0, 0, false), false, map[], map[])
  }

  /** What the engines offer for job i. */
  ghost function OffersFor(jobs: seq<Job>, engines: seq<Engine>, i: nat): seq<Option<Choice>>
    requires i < |jobs| && DecentEngines(engines) && Ready(jobs[i])
  {
    PlacedJob(jobs, i);
    Offers(Names(engines), Prepare(jobs[i]), Answers(engines, Queries(Preps(jobs)), Place(jobs, i)))
  }

  /** The result of job i: switched off; too few values; or what was chosen among the offers. */
  ghost predicate IsResult(jobs: seq<Job>, engines: seq<Engine>, i: nat, r: Result)
    requires i < |jobs| && DecentEngines(engines)
  {
    var j := jobs[i];
    if !j.enabled then r == Blank(j, Disabled)
    else if |KnownSteps(j.series.values)| < 24 then r == Blank(j, Learning)
    else
      && Ready(j)
      && IsConcluded(r, Blank(j, Pending).(kind := Some(SetKind(j)), period := SetPeriod(j)),
                     OffersFor(jobs, engines, i))
  }

  lemma ResultIsRight(jobs: seq<Job>, engines: seq<Engine>, i: nat)
    requires i < |jobs| && DecentEngines(engines)
    ensures IsResult(jobs, engines, i, ResultOf(jobs, engines, i))
  {
    var j := jobs[i];
    ObservedIsTheirNumber(j.series.values);
    if Ready(j) {
      PlacedJob(jobs, i);
      ConcludesRight(Prepare(j), Opening(j), Names(engines), Answers(engines, Queries(Preps(jobs)), Place(jobs, i)));
    }
  }

  /** Run. */
  method Run(jobs: seq<Job>, engines: seq<Engine>) returns (results: array<Result>)
    requires DecentEngines(engines)
    ensures fresh(results) && results.Length == |jobs|
    ensures forall i :: 0 <= i < |jobs| ==>
      results[i] == ResultOf(jobs, engines, i) && IsResult(jobs, engines, i, results[i])
  {
    var preps, idx;
    preps, idx, results := PrepareAll(jobs);
    if |preps| > 0 {
      var queries := Ask(preps);
      var chosen := HearAll(jobs, engines, queries, preps, idx, results);
      ConcludeAll(idx, results, chosen);
    }
    forall i | 0 <= i < |jobs|
      ensures results[i] == ResultOf(jobs, engines, i) && IsResult(jobs, engines, i, results[i])
    {
      BatchResult(jobs, engines, preps, idx, i);
      ResultIsRight(jobs, engines, i);
    }
  }
}
