/** What a batch tells when it takes older actions out of the queue.

A batch looks for its news behind as many actions as it found in the queue. An early reading that
ends an alarm whose actions are still queued takes them out, and then the batch's first actions
stand where the older ones stood: what is news among them is not marked. A batch leaves the same
behind as it would have, had those actions never been queued; only the marks differ. */
module AlarmFront {
  import opened Options
  import opened AlarmRules
  import opened AlarmEngine
  import opened AlarmFrames
  import opened AlarmNotify
  import opened AlarmEarly
  import opened AlarmEnds
  import Replay = AlarmReplay
  import Spans = AlarmSpans

  function WithoutRefs(q: seq<Action>, refs: set<nat>): (r: seq<Action>)
    ensures |r| <= |q|
  {
    if |q| == 0 then []
    else WithoutRefs(q[..|q| - 1], refs) + if q[|q| - 1].ref in refs then [] else [q[|q| - 1]]
  }

  /** The alarms of the tag that early readings of the batch end. */
  ghost function EndedRefs(e: Engine, tag: int, points: seq<Point>): set<nat> {
    set j | j in e.tracks && j.tag == tag && EarlyEnd(e, j, points) :: e.tracks[j].ref
  }

  /** The state without their actions. */
  ghost function Thin(e: Engine, tag: int, points: seq<Point>): Engine {
    e.(pending := WithoutRefs(e.pending, EndedRefs(e, tag, points)))
  }

  lemma {:induction false} WithoutRefsMembers(q: seq<Action>, refs: set<nat>)
    ensures forall a :: a in WithoutRefs(q, refs) <==> a in q && a.ref !in refs
  {
    if |q| > 0 {
      WithoutRefsMembers(q[..|q| - 1], refs);
      assert q == q[..|q| - 1] + [q[|q| - 1]];
    }
  }

  lemma {:induction false} WithoutRefsConcat(a: seq<Action>, b: seq<Action>, refs: set<nat>)
    ensures WithoutRefs(a + b, refs) == WithoutRefs(a, refs) + WithoutRefs(b, refs)
  {
    if |b| == 0 {
      assert a + b == a;
    } else {
      WithoutRefsConcat(a, b[..|b| - 1], refs);
      assert (a + b)[..|a + b| - 1] == a + b[..|b| - 1];
    }
  }

  lemma {:induction false} WithoutRefsNone(q: seq<Action>, refs: set<nat>)
    requires forall a :: a in q ==> a.ref !in refs
    ensures WithoutRefs(q, refs) == q
  {
    if |q| > 0 {
      assert q == q[..|q| - 1] + [q[|q| - 1]];
      WithoutRefsNone(q[..|q| - 1], refs);
    }
  }

  lemma WithoutSnoc(q: seq<Action>, a: Action, k: Key, ref: nat)
    ensures Without(q + [a], k, ref)
            == if SameOccurrence(a, k, ref) then Without(q, k, ref) else Without(q, k, ref) + [a]
  {
    assert (q + [a])[..|q|] == q;
  }

  lemma WithoutRefsSnoc(q: seq<Action>, a: Action, refs: set<nat>)
    ensures WithoutRefs(q + [a], refs) == if a.ref in refs then WithoutRefs(q, refs) else WithoutRefs(q, refs) + [a]
  {
    assert (q + [a])[..|q|] == q;
  }

  lemma {:induction false} WithoutCommutes(q: seq<Action>, k: Key, ref: nat, refs: set<nat>)
    ensures WithoutRefs(Without(q, k, ref), refs) == Without(WithoutRefs(q, refs), k, ref)
  {
    if |q| > 0 {
      var init, last := q[..|q| - 1], q[|q| - 1];
      WithoutCommutes(init, k, ref, refs);
      assert q == init + [last];
      WithoutRefsSnoc(init, last, refs);
      WithoutSnoc(init, last, k, ref);
      WithoutSnoc(WithoutRefs(init, refs), last, k, ref);
      WithoutRefsSnoc(Without(init, k, ref), last, refs);
    }
  }

  // ---------------------------------------------- the same batch on the thin queue

  /** Two states that differ only by queued actions of some alarms. */
  ghost predicate Alike(e: Engine, f: Engine, refs: set<nat>) {
    && f == e.(pending := f.pending)
    && WithoutRefs(f.pending, refs) == WithoutRefs(e.pending, refs)
  }

  lemma ApplyKeepsAlike(e: Engine, f: Engine, k: Key, out: Outcome, refs: set<nat>)
    requires Alike(e, f, refs)
    ensures Alike(Apply(e, k, out), Apply(f, k, out), refs)
  {
    var track := e.TrackOf(k);
    if out.pulled && track.Some? {
      WithoutCommutes(e.pending, k, track.value.ref, refs);
      WithoutCommutes(f.pending, k, track.value.ref, refs);
      WithoutRefsConcat(Without(e.pending, k, track.value.ref), out.queued, refs);
      WithoutRefsConcat(Without(f.pending, k, track.value.ref), out.queued, refs);
    } else {
      WithoutRefsConcat(e.pending, out.queued, refs);
      WithoutRefsConcat(f.pending, out.queued, refs);
    }
  }

  lemma {:induction false} StepsKeepAlike(e: Engine, f: Engine, ms: seq<Micro>, refs: set<nat>)
    requires Alike(e, f, refs)
    ensures Alike(Steps(e, ms), Steps(f, ms), refs)
  {
    if |ms| > 0 {
      var n := |ms| - 1;
      StepsKeepAlike(e, f, ms[..n], refs);
      var a, b := Steps(e, ms[..n]), Steps(f, ms[..n]);
      assert OutcomeOf(b, ms[n]) == OutcomeOf(a, ms[n]);
      ApplyKeepsAlike(a, b, ms[n].key, OutcomeOf(a, ms[n]), refs);
    }
  }

  lemma ThinIsAlike(e: Engine, tag: int, points: seq<Point>)
    ensures Alike(e, Thin(e, tag, points), EndedRefs(e, tag, points))
  {
    var refs := EndedRefs(e, tag, points);
    WithoutRefsMembers(e.pending, refs);
    WithoutRefsNone(WithoutRefs(e.pending, refs), refs);
  }

  /** The thin state is as sound, and the same readings are early in it. */
  lemma ThinIsSound(e: Engine, tag: int, points: seq<Point>)
    requires RefsOwned(e) && DelayedAreSilent(e)
    ensures RefsOwned(Thin(e, tag, points)) && DelayedAreSilent(Thin(e, tag, points))
  {
    WithoutRefsMembers(e.pending, EndedRefs(e, tag, points));
    assert forall a :: a in Thin(e, tag, points).Queued() ==> a in e.Queued();
  }

  lemma ThinEndsAlike(e: Engine, tag: int, points: seq<Point>, k: Key, some: seq<Point>)
    ensures EarlyEnd(Thin(e, tag, points), k, some) <==> EarlyEnd(e, k, some)
  {
  }

  /** In the thin state no early reading ends an alarm whose actions are queued. */
  lemma ThinFrontStays(e: Engine, tag: int, points: seq<Point>)
    ensures FrontStays(Thin(e, tag, points), tag, points)
  {
    var f, refs := Thin(e, tag, points), EndedRefs(e, tag, points);
    WithoutRefsMembers(e.pending, refs);
    forall j: Key | j.tag == tag && EarlyEnd(f, j, points)
      ensures NoneQueued(f, f.pending, j)
    {
      ThinEndsAlike(e, tag, points, j, points);
      assert e.tracks[j].ref in refs;
    }
  }

  /** At the end of the replay nothing queued belongs to an alarm ended early. */
  lemma EndedAreGone(e: Engine, f: Engine, tag: int, sorted: seq<Point>, wall: Time)
    requires RefsOwned(f) && SortedByTime(sorted) && |sorted| > 0 && f == e.(pending := f.pending)
    ensures forall a :: a in ReplaySorted(f, tag, sorted, wall).pending ==> a.ref !in EndedRefs(e, tag, sorted)
  {
    var done := ReplaySorted(f, tag, sorted, wall);
    forall j: Key | j in e.tracks && j.tag == tag && EarlyEnd(e, j, sorted)
      ensures forall a :: a in done.pending ==> a.ref != e.tracks[j].ref
    {
      assert EarlyEnd(f, j, sorted);
      FateOfBatch(f, j, sorted, wall);
    }
  }

  /** The replay leaves the same behind. */
  lemma ThinReplaysAlike(e: Engine, tag: int, sorted: seq<Point>, wall: Time)
    requires RefsOwned(e) && DelayedAreSilent(e) && SortedByTime(sorted) && |sorted| > 0
    ensures ReplaySorted(Thin(e, tag, sorted), tag, sorted, wall) == ReplaySorted(e, tag, sorted, wall)
  {
    var f, refs := Thin(e, tag, sorted), EndedRefs(e, tag, sorted);
    ThinIsAlike(e, tag, sorted);
    ThinIsSound(e, tag, sorted);
    assert KnownRules(f, tag) == KnownRules(e, tag);
    StepsKeepAlike(BatchAlive(e, tag, sorted, wall), BatchAlive(f, tag, sorted, wall),
                   SeriesMicros(tag, DefsOf(e.defs, tag), sorted, KnownRules(e, tag), wall), refs);
    EndedAreGone(e, e, tag, sorted, wall);
    EndedAreGone(e, f, tag, sorted, wall);
    WithoutRefsNone(ReplaySorted(e, tag, sorted, wall).pending, refs);
    WithoutRefsNone(ReplaySorted(f, tag, sorted, wall).pending, refs);
  }

  lemma SortedIsThinAlike(e: Engine, tag: int, points: seq<Point>)
    ensures Thin(e, tag, SortByTime(points)) == Thin(e, tag, points)
  {
    forall j: Key
      ensures EarlyEnd(e, j, SortByTime(points)) <==> EarlyEnd(e, j, points)
    {
      SortedEndsEarly(e, j, points);
    }
    assert EndedRefs(e, tag, SortByTime(points)) == EndedRefs(e, tag, points);
  }

  // ---------------------------------------------------------- where the news is

  /** The rule's alarm raised by the batch and left open: its ACTIVE stands among as many actions
      as the batch found queued. */
  ghost predicate Silenced(e: Engine, e': Engine, k: Key) {
    Fired(e', k) && !Carried(e, e', k)
    && exists i :: 0 <= i < |e'.pending| && i < |e.pending| && IsNewsOf(e', e'.pending[i], k)
  }

  predicate IsNewsOf(e: Engine, a: Action, k: Key) { a.Rule() == k && IsNews(e.tracks, k.tag, a) }

  predicate SameAt(a: Action, b: Action, k: Key) { a.Rule() == b.Rule() && (a.Rule() == k ==> a == b) }

  lemma {:induction false} SameForRule(q: seq<Action>, q': seq<Action>, k: Key)
    requires |q'| == |q| && forall i :: 0 <= i < |q| ==> SameAt(q[i], q'[i], k)
    ensures OfRule(q', k) == OfRule(q, k)
  {
    if |q| > 0 {
      SameForRule(q[..|q| - 1], q'[..|q| - 1], k);
    }
  }

  lemma MarkedAt(q: seq<Action>, first: nat, tracks: map<Key, Track>, tag: int, i: nat)
    requires i < |q|
    ensures MarkNews(q, first, tracks, tag)[i]
            == if i >= first && IsNews(tracks, tag, q[i]) then q[i].(notify := true) else q[i]
  {
  }

  /** None but the last has the reference. */
  ghost predicate OnlyLast(w: seq<Action>, ref: nat)
    requires |w| > 0
  {
    forall a :: a in w[..|w| - 1] ==> a.ref != ref
  }

  predicate Holds(q: seq<Action>, i: nat, k: Key, ref: nat) { i < |q| && q[i].Rule() == k && q[i].ref == ref }

  /** A rule's only action with a reference stands in one place. */
  lemma {:induction false} OnePlace(q: seq<Action>, k: Key, ref: nat, i: nat, j: nat)
    requires Holds(q, i, k, ref) && Holds(q, j, k, ref) && |OfRule(q, k)| > 0 && OnlyLast(OfRule(q, k), ref)
    ensures i == j
  {
    var n := |q| - 1;
    var init := q[..n];
    if q[n].Rule() == k {
      assert OfRule(q, k)[..|OfRule(q, k)| - 1] == OfRule(init, k);
      if i < n {
        PlaceInRule(init, k, i);
      }
      if j < n {
        PlaceInRule(init, k, j);
      }
    } else {
      assert OfRule(q, k) == OfRule(init, k);
      OnePlace(init, k, ref, i, j);
    }
  }

  lemma {:induction false} PlaceInRule(q: seq<Action>, k: Key, i: nat)
    requires i < |q| && q[i].Rule() == k
    ensures q[i] in OfRule(q, k)
  {
    if i < |q| - 1 {
      PlaceInRule(q[..|q| - 1], k, i);
    }
  }

  /** What the rule has queued, when the news behind position `first` is marked: all its news, or none. */
  lemma MarkedFrom(q: seq<Action>, first: nat, tracks: map<Key, Track>, k: Key)
    requires forall i :: 0 <= i < |q| && i < first ==> !(q[i].Rule() == k && IsNews(tracks, k.tag, q[i]))
    ensures OfRule(MarkNews(q, first, tracks, k.tag), k) == MarkNews(OfRule(q, k), 0, tracks, k.tag)
  {
    OfRuleMarked(q, tracks, k.tag, k);
    var all, some := MarkNews(q, 0, tracks, k.tag), MarkNews(q, first, tracks, k.tag);
    forall i | 0 <= i < |q|
      ensures SameAt(all[i], some[i], k)
    {
      MarkedAt(q, 0, tracks, k.tag, i);
      MarkedAt(q, first, tracks, k.tag, i);
    }
    SameForRule(all, some, k);
  }

  lemma UnmarkedUntil(q: seq<Action>, first: nat, tracks: map<Key, Track>, k: Key)
    requires forall i :: first <= i < |q| ==> !(q[i].Rule() == k && IsNews(tracks, k.tag, q[i]))
    ensures OfRule(MarkNews(q, first, tracks, k.tag), k) == OfRule(q, k)
  {
    var some := MarkNews(q, first, tracks, k.tag);
    forall i | 0 <= i < |q|
      ensures SameAt(q[i], some[i], k)
    {
      MarkedAt(q, first, tracks, k.tag, i);
    }
    SameForRule(q, some, k);
  }

  /** Marked too far behind, the rule's word loses its news and nothing else. */
  lemma UnmarkedWord(w: seq<Action>, known: bool, kept: bool, carried: bool, ref: nat)
    requires RuleWord(w, known, kept, carried, true, ref) && !carried
    ensures Told(w) == BatchWord(known, CountCleared(w), false)
  {
    ToldBeforeNews(w, known);
  }

  /** The batch's own news of the rule, in the queue of the replayed batch. */
  ghost predicate StandsBefore(n: seq<Action>, done: Engine, k: Key, gap: int) {
    exists i :: 0 <= i < |n| && i < gap && IsNewsOf(done, n[i], k)
  }

  /** One news at most, and none unless the alarm was raised by the batch and is left open. */
  lemma NewsOfWord(n: seq<Action>, done: Engine, k: Key, known: bool, kept: bool, carried: bool)
    requires RuleWord(OfRule(n, k), known, kept, carried, Fired(done, k), RefOf(done, k))
    requires k in done.tracks && !done.tracks[k].triggered ==> forall a :: a in OfRule(n, k) ==>
      a.ref != done.tracks[k].ref
    ensures forall i :: 0 <= i < |n| && IsNewsOf(done, n[i], k) ==> Fired(done, k) && !carried
    ensures forall i, j :: 0 <= i < |n| && 0 <= j < |n| && IsNewsOf(done, n[i], k) && IsNewsOf(done, n[j], k) ==> i == j
    ensures Fired(done, k) && !carried ==> exists i :: 0 <= i < |n| && IsNewsOf(done, n[i], k)
  {
    forall i | 0 <= i < |n| && IsNewsOf(done, n[i], k)
      ensures Fired(done, k) && !carried
    {
      PlaceInRule(n, k, i);
    }
    forall i, j | 0 <= i < |n| && 0 <= j < |n| && IsNewsOf(done, n[i], k) && IsNewsOf(done, n[j], k)
      ensures i == j
    {
      PlaceInRule(n, k, i);
      OnePlace(n, k, done.tracks[k].ref, i, j);
    }
    if Fired(done, k) && !carried {
      var w := OfRule(n, k);
      OfRuleMembers(n, k);
      assert w[|w| - 1] in n;
      var i := MemberIndex(n, w[|w| - 1]);
      assert IsNewsOf(done, n[i], k);
    }
  }

  /** What the batch tells of the rule when it marks its new actions from `gap` on. */
  lemma GapTells(n: seq<Action>, gap: nat, done: Engine, k: Key, known: bool, kept: bool, carried: bool)
    requires RuleWord(OfRule(n, k), known, kept, carried, Fired(done, k), RefOf(done, k))
    requires k in done.tracks && !done.tracks[k].triggered ==> forall a :: a in OfRule(n, k) ==>
      a.ref != done.tracks[k].ref
    ensures var told := OfRule(MarkNews(n, gap, done.tracks, k.tag), k);
            && Told(told) == BatchWord(known, CountCleared(OfRule(n, k)),
                                       Fired(done, k) && !carried && !StandsBefore(n, done, k, gap))
            && CountCleared(told) == CountCleared(OfRule(n, k))
  {
    NewsOfWord(n, done, k, known, kept, carried);
    var w := OfRule(n, k);
    if StandsBefore(n, done, k, gap) {
      UnmarkedUntil(n, gap, done.tracks, k);
      UnmarkedWord(w, known, kept, carried, RefOf(done, k));
    } else {
      MarkedFrom(n, gap, done.tracks, k);
      OfRuleMembers(n, k);
      MarkedWord(w, known, kept, carried, Fired(done, k), RefOf(done, k), done.tracks, k);
    }
  }

  // ------------------------------------------------------------- the batch

  lemma FrontReplay(e: Engine, sorted: seq<Point>, wall: Time, k: Key)
    requires RefsOwned(e) && DelayedAreSilent(e) && SortedByTime(sorted) && |sorted| > 0
    ensures var f := Thin(e, k.tag, sorted);
            BatchInv(BatchAlive(f, k.tag, sorted, wall), ReplaySorted(e, k.tag, sorted, wall), k.tag, k,
                     !EarlyEnd(e, k, sorted))
  {
    var f := Thin(e, k.tag, sorted);
    ThinReplaysAlike(e, k.tag, sorted, wall);
    ThinIsSound(e, k.tag, sorted);
    ThinFrontStays(e, k.tag, sorted);
    ThinEndsAlike(e, k.tag, sorted, k, sorted);
    BatchAliveIsAlive(f, k.tag, sorted, wall);
    ReplayInBatch(f, BatchAlive(f, k.tag, sorted, wall), sorted, wall, k, !EarlyEnd(e, k, sorted));
  }

  /** The queue without the actions taken out stays in front, the notified events added are the
      rule's word but for news that stands too far in front, and an alarm that is kept is carried
      through exactly when it did not end. */
  ghost predicate TellsBatch(e: Engine, f: Engine, e': Engine, k: Key, kept: bool) {
    && f.pending <= e'.pending && e'.popped == f.popped
    && Told(Added(f, e', k))
       == BatchWord(Fired(f, k), CountCleared(Added(f, e', k)),
                    Fired(e', k) && !Carried(f, e', k) && !Silenced(e, e', k))
    && (Fired(f, k) && kept && CountCleared(Added(f, e', k)) == 0 ==> Carried(f, e', k) && Fired(e', k))
    && (Carried(f, e', k) ==> CountCleared(Added(f, e', k)) == 0)
  }

  lemma MarkedBehind(front: seq<Action>, n: seq<Action>, first: nat, tracks: map<Key, Track>, tag: int)
    requires |front| <= first
    ensures MarkNews(front + n, first, tracks, tag) == front + MarkNews(n, first - |front|, tracks, tag)
  {
  }

  lemma FrontHasNone(pre: Engine, done: Engine, k: Key, kept: bool)
    requires BatchInv(pre, done, k.tag, k, kept) && Fired(done, k) && !Carried(pre, done, k)
    ensures forall i :: 0 <= i < |pre.pending| ==> pre.pending[i].ref != done.tracks[k].ref
  {
    forall i | 0 <= i < |pre.pending|
      ensures pre.pending[i].ref != done.tracks[k].ref
    {
      assert pre.pending[i] in pre.pending;
    }
  }

  lemma StandingBeforeIsSilenced(e: Engine, f: Engine, done: Engine, n: seq<Action>, k: Key)
    requires done.pending == f.pending + n && |f.pending| <= |e.pending|
    requires StandsBefore(n, done, k, |e.pending| - |f.pending|)
    requires Fired(done, k) && !Carried(e, done, k)
    ensures Silenced(e, WithNews(e, done, k.tag), k)
  {
    var e' := WithNews(e, done, k.tag);
    var i :| 0 <= i < |n| && i < |e.pending| - |f.pending| && IsNewsOf(done, n[i], k);
    MarkedAt(done.pending, |e.pending|, done.tracks, k.tag, |f.pending| + i);
    assert IsNewsOf(e', e'.pending[|f.pending| + i], k);
  }

  lemma SilencedStandsBefore(e: Engine, f: Engine, done: Engine, n: seq<Action>, k: Key)
    requires done.pending == f.pending + n && Silenced(e, WithNews(e, done, k.tag), k)
    requires forall i :: 0 <= i < |f.pending| ==> f.pending[i].ref != done.tracks[k].ref
    ensures StandsBefore(n, done, k, |e.pending| - |f.pending|)
  {
    var e' := WithNews(e, done, k.tag);
    var i :| 0 <= i < |e'.pending| && i < |e.pending| && IsNewsOf(e', e'.pending[i], k);
    MarkedAt(done.pending, |e.pending|, done.tracks, k.tag, i);
    assert i >= |f.pending|;
    assert IsNewsOf(done, n[i - |f.pending|], k);
  }

  lemma SilencedIff(e: Engine, f: Engine, pre: Engine, done: Engine, k: Key, kept: bool)
    requires pre == f.(samples := pre.samples) && f == e.(pending := f.pending) && |f.pending| <= |e.pending|
    requires BatchInv(pre, done, k.tag, k, kept) && Fired(done, k) && !Carried(pre, done, k)
    ensures Silenced(e, WithNews(e, done, k.tag), k)
      <==> StandsBefore(NewActions(pre, done), done, k, |e.pending| - |f.pending|)
  {
    var n := NewActions(pre, done);
    assert done.pending == f.pending + n;
    FrontHasNone(pre, done, k, kept);
    if StandsBefore(n, done, k, |e.pending| - |f.pending|) {
      StandingBeforeIsSilenced(e, f, done, n, k);
    } else if Silenced(e, WithNews(e, done, k.tag), k) {
      SilencedStandsBefore(e, f, done, n, k);
    }
  }

  lemma FrontConcludes(e: Engine, f: Engine, pre: Engine, done: Engine, k: Key, kept: bool)
    requires pre == f.(samples := pre.samples) && f == e.(pending := f.pending) && |f.pending| <= |e.pending|
    requires BatchInv(pre, done, k.tag, k, kept)
    ensures TellsBatch(e, f, WithNews(e, done, k.tag), k, kept)
  {
    var n, gap := NewActions(pre, done), |e.pending| - |f.pending|;
    var w, e' := OfRule(n, k), WithNews(e, done, k.tag);
    assert done.pending == f.pending + n;
    MarkedBehind(f.pending, n, |e.pending|, done.tracks, k.tag);
    assert NewActions(f, e') == MarkNews(n, gap, done.tracks, k.tag);
    SilentWhenDelayed(pre, done, k, kept);
    GapTells(n, gap, done, k, Fired(pre, k), kept, Carried(pre, done, k));
    CountsCleared(w);
    if Fired(done, k) && !Carried(pre, done, k) {
      SilencedIff(e, f, pre, done, k, kept);
    }
  }

  lemma BatchTells(e: Engine, points: seq<Point>, wall: Time, k: Key)
    requires RefsOwned(e) && DelayedAreSilent(e) && |points| > 0 && |DefsOf(e.defs, k.tag)| > 0
    ensures TellsBatch(e, Thin(e, k.tag, points), EvaluateSeries(e, k.tag, points, QUALITY_GOOD, wall), k,
                       !EarlyEnd(e, k, points))
  {
    var sorted := SortByTime(points);
    SortedIsThinAlike(e, k.tag, points);
    SortedEndsEarly(e, k, points);
    var f := Thin(e, k.tag, points);
    FrontReplay(e, sorted, wall, k);
    BatchAliveIsAlive(f, k.tag, sorted, wall);
    FrontConcludes(e, f, BatchAlive(f, k.tag, sorted, wall), ReplaySorted(e, k.tag, sorted, wall), k,
                   !EarlyEnd(e, k, points));
  }

  // -------------------------------------------------------------- theorems

  /** The actions a batch leaves queued stand in front of those it adds. */
  lemma ThinStandsInFront(e: Engine, tag: int, points: seq<Point>, wall: Time)
    requires RefsOwned(e) && DelayedAreSilent(e)
    ensures |points| > 0 && |DefsOf(e.defs, tag)| > 0 ==>
              Thin(e, tag, points).pending <= EvaluateSeries(e, tag, points, QUALITY_GOOD, wall).pending
  {
    if |points| > 0 && |DefsOf(e.defs, tag)| > 0 {
      BatchTells(e, points, wall, Key(tag, 0));
    }
  }

  lemma {:induction false} ThinOfOtherRule(q: seq<Action>, refs: set<nat>, k: Key)
    requires forall a :: a in q && a.Rule() == k ==> a.ref !in refs
    ensures OfRule(WithoutRefs(q, refs), k) == OfRule(q, k)
  {
    if |q| > 0 {
      var init, last := q[..|q| - 1], q[|q| - 1];
      ThinOfOtherRule(init, refs, k);
      OfRuleConcat(WithoutRefs(init, refs), if last.ref in refs then [] else [last], k);
      assert OfRule([last], k) == if last.Rule() == k then [last] else [];
    }
  }

  /** An alarm that no early reading ends loses nothing it has queued. */
  lemma ThinKeepsShare(e: Engine, points: seq<Point>, k: Key)
    requires RefsOwned(e) && !EarlyEnd(e, k, points)
    ensures OfRule(Thin(e, k.tag, points).pending, k) == OfRule(e.pending, k)
  {
    forall a | a in e.pending && a.Rule() == k
      ensures a.ref !in EndedRefs(e, k.tag, points)
    {
      assert a in e.Queued();
    }
    ThinOfOtherRule(e.pending, EndedRefs(e, k.tag, points), k);
  }

  lemma ThinTellsTruth(e: Engine, points: seq<Point>, k: Key, open: bool)
    requires RefsOwned(e) && !EarlyEnd(e, k, points)
    ensures ToldTruth(Thin(e, k.tag, points), k, open) <==> ToldTruth(e, k, open)
  {
    ThinKeepsShare(e, points, k);
    QueuedOfRule(e, k);
    QueuedOfRule(Thin(e, k.tag, points), k);
  }

  /** A rule not fired before the batch: one ACTIVE if it is open at the end and not silenced. */
  lemma BatchTellsOnlyNews(e: Engine, points: seq<Point>, wall: Time, k: Key)
    requires RefsOwned(e) && DelayedAreSilent(e) && !Fired(e, k)
    requires |points| > 0 && |DefsOf(e.defs, k.tag)| > 0
    ensures var e' := EvaluateSeries(e, k.tag, points, QUALITY_GOOD, wall);
            && OfRule(Thin(e, k.tag, points).pending, k) == OfRule(e.pending, k)
            && Told(Added(Thin(e, k.tag, points), e', k))
               == if Fired(e', k) && !Silenced(e, e', k) then [Active] else []
  {
    BatchTells(e, points, wall, k);
    ThinKeepsShare(e, points, k);
    assert [] + [Active] == [Active];
  }

  lemma AddedToBelief(f: Engine, e': Engine, k: Key, open: bool, b: Option<bool>)
    requires f.pending <= e'.pending && e'.popped == f.popped && b == Believed(Told(OfRule(f.Queued(), k)), open)
    ensures Believed(Told(OfRule(e'.Queued(), k)), open)
            == if b.None? then None else Believed(Told(Added(f, e', k)), b.value)
  {
    var n := NewActions(f, e');
    assert e'.Queued() == f.Queued() + n;
    OfRuleConcat(f.Queued(), n, k);
    ToldConcat(OfRule(f.Queued(), k), OfRule(n, k));
    BelievedConcat(Told(OfRule(f.Queued(), k)), Told(OfRule(n, k)), open);
  }

  lemma FrontTellsTruth(e: Engine, f: Engine, e': Engine, k: Key, open: bool)
    requires TellsBatch(e, f, e', k, true) && f == e.(pending := f.pending) && ToldTruth(f, k, open)
    ensures ToldTruth(e', k, open) <==> (Fired(e, k) ==> CountCleared(Added(f, e', k)) <= 1) && !Silenced(e, e', k)
  {
    AddedToBelief(f, e', k, open, Some(Fired(f, k)));
    BelievedBatchWord(Fired(f, k), CountCleared(Added(f, e', k)),
                      Fired(e', k) && !Carried(f, e', k) && !Silenced(e, e', k));
  }

  // ------------------------------------------------ how often the alarm ends

  lemma ClosedSnoc(q: seq<Action>, a: Action, k: Key)
    ensures Replay.Closed(OfRule(q + [a], k))
            == Replay.Closed(OfRule(q, k))
               + if a.Rule() == k && a.status.Cleared? then [Replay.Occurrence(a.triggeredAt, a.clearedAt)] else []
  {
    assert (q + [a])[..|q|] == q;
    var w := OfRule(q, k);
    if a.Rule() == k {
      assert OfRule(q + [a], k) == w + [a];
      assert (w + [a])[..|w|] == w;
    } else {
      assert OfRule(q + [a], k) == w;
    }
  }

  lemma {:induction false} ClosedOfThin(q: seq<Action>, refs: set<nat>, k: Key)
    requires forall a :: a in q && a.Rule() == k && a.ref in refs ==> a.status.Active?
    ensures Replay.Closed(OfRule(WithoutRefs(q, refs), k)) == Replay.Closed(OfRule(q, k))
  {
    if |q| > 0 {
      var init, last := q[..|q| - 1], q[|q| - 1];
      ClosedOfThin(init, refs, k);
      assert q == init + [last];
      ClosedSnoc(init, last, k);
      WithoutRefsSnoc(init, last, refs);
      ClosedSnoc(WithoutRefs(init, refs), last, k);
      assert last in q;
    }
  }

  /** How many alarms of the rule the batch ends, on the marks of its readings. */
  lemma FrontCloses(e: Engine, points: seq<Point>, wall: Time, k: Key, def: Definition)
    requires RefsOwned(e) && DelayedAreSilent(e) && |points| > 0 && Replay.ValueRule(e, k.tag, def) && def.id == k.id
    ensures CountCleared(Added(Thin(e, k.tag, points), EvaluateSeries(e, k.tag, points, QUALITY_GOOD, wall), k))
            == Spans.Closings(DelayOf(def), StateOf(e.TrackOf(k)), MarksOf(def, SortByTime(points)))
  {
    var f := Thin(e, k.tag, points);
    BatchTells(e, points, wall, k);
    BatchCloses(e, k.tag, def, points, wall);
    AddedCloses(f, EvaluateSeries(e, k.tag, points, QUALITY_GOOD, wall), k);
    assert forall a :: a in e.pending ==> a in e.Queued();
    ClosedOfThin(e.pending, EndedRefs(e, k.tag, points), k);
  }

  lemma NothingCloses(e: Engine, points: seq<Point>, wall: Time, k: Key)
    requires RefsOwned(e) && DelayedAreSilent(e) && |points| > 0 && |DefsOf(e.defs, k.tag)| > 0
    requires forall d :: d in DefsOf(e.defs, k.tag) && d.id == k.id ==> IsHealth(d.alarmType)
    ensures CountCleared(Added(Thin(e, k.tag, points), EvaluateSeries(e, k.tag, points, QUALITY_GOOD, wall), k)) == 0
  {
    var f, sorted := Thin(e, k.tag, points), SortByTime(points);
    var done := ReplaySorted(e, k.tag, sorted, wall);
    BatchTells(e, points, wall, k);
    AddedCloses(f, EvaluateSeries(e, k.tag, points, QUALITY_GOOD, wall), k);
    ReplayPassesBy(e, k, sorted, wall);
    Replay.ClosedMarkNews(done.pending, |e.pending|, done.tracks, k.tag, k);
    assert forall a :: a in e.pending ==> a in e.Queued();
    ClosedOfThin(e.pending, EndedRefs(e, k.tag, points), k);
  }

  lemma EndsTwiceOf(e: Engine, points: seq<Point>, wall: Time, k: Key, def: Definition)
    requires RefsOwned(e) && DelayedAreSilent(e) && Fired(e, k) && |points| > 0 && !EarlyEnd(e, k, points)
    requires Replay.ValueRule(e, k.tag, def) && def.id == k.id
    ensures CountCleared(Added(Thin(e, k.tag, points), EvaluateSeries(e, k.tag, points, QUALITY_GOOD, wall), k)) >= 2
      <==> Spans.EndsAgain(DelayOf(def), MarksOf(def, SortByTime(points)))
  {
    var sorted := SortByTime(points);
    FrontCloses(e, points, wall, k, def);
    SortedEndsEarly(e, k, points);
    NoEarlyMark(e, k, def, sorted);
    MarksInOrder(def, sorted);
    Spans.EndsTwiceIff(DelayOf(def), e.tracks[k].firedAt, MarksOf(def, sorted));
  }

  lemma EndsTwiceIsOf(e: Engine, points: seq<Point>, k: Key, def: Definition)
    requires Replay.ValueRule(e, k.tag, def) && def.id == k.id
    ensures EndsTwice(e, k, points) <==> Spans.EndsAgain(DelayOf(def), MarksOf(def, SortByTime(points)))
  {
    forall d | d in DefsOf(e.defs, k.tag) && d.id == k.id
      ensures d == def
    {
      OneOfItsId(DefsOf(e.defs, k.tag), def, d);
    }
  }

  lemma EndsTwiceFrom(e: Engine, points: seq<Point>, wall: Time, k: Key)
    requires RefsOwned(e) && DelayedAreSilent(e) && DistinctIds(DefsOf(e.defs, k.tag)) && Fired(e, k)
    requires |points| > 0 && |DefsOf(e.defs, k.tag)| > 0 && !EarlyEnd(e, k, points)
    ensures CountCleared(Added(Thin(e, k.tag, points), EvaluateSeries(e, k.tag, points, QUALITY_GOOD, wall), k)) >= 2
      <==> EndsTwice(e, k, points)
  {
    if d :| d in DefsOf(e.defs, k.tag) && d.id == k.id && !IsHealth(d.alarmType) {
      EndsTwiceOf(e, points, wall, k, d);
      EndsTwiceIsOf(e, points, k, d);
    } else {
      NothingCloses(e, points, wall, k);
    }
  }

  /** The exact condition for a batch that does not end the rule's alarm early: the operator stays
      truthfully told if and only if the alarm does not end twice, and the one left open is not
      silenced. */
  lemma KeptTellsTruthIff(e: Engine, points: seq<Point>, wall: Time, k: Key, open: bool)
    requires RefsOwned(e) && DelayedAreSilent(e) && ToldTruth(e, k, open) && DistinctIds(DefsOf(e.defs, k.tag))
    requires |points| > 0 && |DefsOf(e.defs, k.tag)| > 0 && !EarlyEnd(e, k, points)
    ensures var e' := EvaluateSeries(e, k.tag, points, QUALITY_GOOD, wall);
            ToldTruth(e', k, open) <==> !(Fired(e, k) && EndsTwice(e, k, points)) && !Silenced(e, e', k)
  {
    BatchTells(e, points, wall, k);
    ThinTellsTruth(e, points, k, open);
    FrontTellsTruth(e, Thin(e, k.tag, points), EvaluateSeries(e, k.tag, points, QUALITY_GOOD, wall), k, open);
    if Fired(e, k) {
      EndsTwiceFrom(e, points, wall, k);
    }
  }

  // ----------------------------------------------- the alarm ended early itself

  lemma {:induction false} ClearedFromFalse(n: nat)
    ensures Believed(ClearedTimes(n), false) == if n == 0 then Some(false) else None
  {
    if n > 0 {
      assert ClearedTimes(n)[..n - 1] == ClearedTimes(n - 1);
      ClearedFromFalse(n - 1);
    }
  }

  lemma WordFromFalse(c: nat, told: bool)
    ensures Believed(BatchWord(true, c, told), false) == if c == 0 then Some(told) else None
  {
    BelievedConcat(ClearedTimes(c), if told then [Active] else [], false);
    ClearedFromFalse(c);
    assert Believed([Active], false) == Some(true);
  }

  lemma KnownWordBelieved(c: nat, told: bool, b: bool)
    ensures Believed(BatchWord(true, c, told), b) ==
            if b && c == 0 then (if told then None else Some(true))
            else if c == (if b then 1 else 0) then Some(told) else None
  {
    if b {
      BelievedBatchWord(true, c, told);
    } else {
      WordFromFalse(c, told);
    }
  }

  /** The alarm ended early is not carried. */
  lemma EarlyIsNotCarried(e: Engine, points: seq<Point>, wall: Time, k: Key)
    requires RefsOwned(e) && EarlyEnd(e, k, points) && |points| > 0 && |DefsOf(e.defs, k.tag)| > 0
    ensures !Carried(e, EvaluateSeries(e, k.tag, points, QUALITY_GOOD, wall), k)
  {
    AccountedIff(e, k, points, wall);
  }

  lemma EarlyReading(e: Engine, points: seq<Point>, k: Key, def: Definition) returns (m: Spans.Mark)
    requires EarlyEnd(e, k, points) && Replay.ValueRule(e, k.tag, def) && def.id == k.id
    ensures m in MarksOf(def, SortByTime(points)) && m.clears && m.at <= e.tracks[k].firedAt
  {
    var sorted := SortByTime(points);
    SortedEndsEarly(e, k, points);
    var p, d :| p in sorted && d in DefsOf(e.defs, k.tag) && Ends(d, k, p) && p.at <= e.tracks[k].firedAt;
    OneOfItsId(DefsOf(e.defs, k.tag), def, d);
    m := MarkOf(def, p.at, p.reading.v);
    MarksMembers(def, sorted);
  }

  lemma FirstClearIsEarly(ms: seq<Spans.Mark>, m: Spans.Mark)
    requires Spans.InOrder(ms) && m in ms && m.clears
    ensures Spans.FirstClear(ms) < |ms| && ms[Spans.FirstClear(ms)].at <= m.at
  {
    var i := MemberIndex(ms, m);
    assert Spans.FirstClear(ms) <= i;
  }

  /** Its end is not counted: what ends are the alarms raised after it. */
  lemma EarlyEndCloses(e: Engine, points: seq<Point>, k: Key, def: Definition)
    requires EarlyEnd(e, k, points) && Replay.ValueRule(e, k.tag, def) && def.id == k.id
    ensures var ms := MarksOf(def, SortByTime(points));
            Spans.Closings(DelayOf(def), StateOf(e.TrackOf(k)), ms)
              == Spans.Closings(DelayOf(def), Spans.Idle, Spans.AfterFirst(ms))
  {
    var ms := MarksOf(def, SortByTime(points));
    var m := EarlyReading(e, points, k, def);
    MarksInOrder(def, SortByTime(points));
    FirstClearIsEarly(ms, m);
    Spans.OpenThrough(DelayOf(def), e.tracks[k].firedAt, ms);
  }

  /** What the operator was told of the rule by everything but the actions the batch takes out. */
  ghost function Remembered(e: Engine, points: seq<Point>, k: Key, open: bool): Option<bool> {
    Believed(Told(OfRule(Thin(e, k.tag, points).Queued(), k)), open)
  }

  /** What passes for the truth when the batch ends the rule's alarm early: by what the operator
      remembers, and how many alarms end afterwards. To one whose ACTIVE was taken out none of those
      may be told of, and one left open must be. To one who believes the alarm open exactly one must
      be told of; or none, when one left open is silenced and passes for it. */
  predicate PassesFor(remembered: Option<bool>, ends: nat, silenced: bool) {
    match remembered
    case None => false
    case Some(false) => ends == 0 && !silenced
    case Some(true) => if ends == 0 then silenced else ends == 1 && !silenced
  }

  lemma WordPassesFor(b: bool, ends: nat, fired: bool, silenced: bool)
    requires silenced ==> fired
    ensures Believed(BatchWord(true, ends, fired && !silenced), b) == Some(fired)
      <==> PassesFor(Some(b), ends, silenced)
  {
    KnownWordBelieved(ends, fired && !silenced, b);
  }

  lemma EarlyTellsTruthIff(e: Engine, points: seq<Point>, wall: Time, k: Key, def: Definition, open: bool)
    requires RefsOwned(e) && DelayedAreSilent(e) && Replay.ValueRule(e, k.tag, def) && def.id == k.id
    requires |points| > 0 && EarlyEnd(e, k, points)
    ensures var e' := EvaluateSeries(e, k.tag, points, QUALITY_GOOD, wall);
            ToldTruth(e', k, open)
            <==> PassesFor(Remembered(e, points, k, open), EndsAfterFirst(def, points), Silenced(e, e', k))
  {
    var f, e' := Thin(e, k.tag, points), EvaluateSeries(e, k.tag, points, QUALITY_GOOD, wall);
    BatchTells(e, points, wall, k);
    FrontCloses(e, points, wall, k, def);
    EarlyEndCloses(e, points, k, def);
    EarlyIsNotCarried(e, points, wall, k);
    FrontPassesFor(e, f, e', k, open, Remembered(e, points, k, open));
  }

  lemma FrontPassesFor(e: Engine, f: Engine, e': Engine, k: Key, open: bool, b: Option<bool>)
    requires f == e.(pending := f.pending) && TellsBatch(e, f, e', k, false) && Fired(f, k) && !Carried(f, e', k)
    requires b == Believed(Told(OfRule(f.Queued(), k)), open)
    ensures ToldTruth(e', k, open) <==> PassesFor(b, CountCleared(Added(f, e', k)), Silenced(e, e', k))
  {
    AddedToBelief(f, e', k, open, b);
    if b.Some? {
      WordPassesFor(b.value, CountCleared(Added(f, e', k)), Fired(e', k), Silenced(e, e', k));
    }
  }

  /** How many alarms of the rule end after its first clearing reading. */
  function EndsAfterFirst(def: Definition, points: seq<Point>): nat {
    Spans.Closings(DelayOf(def), Spans.Idle, Spans.AfterFirst(MarksOf(def, SortByTime(points))))
  }

  /** The batch, of readings that are judged, tells the truth about the rule. */
  ghost predicate IsTruthful(e: Engine, points: seq<Point>, e': Engine, k: Key, open: bool) {
    if EarlyEnd(e, k, points) then
      exists d :: d in DefsOf(e.defs, k.tag) && d.id == k.id && !IsHealth(d.alarmType)
        && PassesFor(Remembered(e, points, k, open), EndsAfterFirst(d, points), Silenced(e, e', k))
    else !(Fired(e, k) && EndsTwice(e, k, points)) && !Silenced(e, e', k)
  }

  lemma EarlyEndHasRule(e: Engine, points: seq<Point>, k: Key) returns (def: Definition)
    requires EarlyEnd(e, k, points) && DistinctIds(DefsOf(e.defs, k.tag))
    ensures Replay.ValueRule(e, k.tag, def) && def.id == k.id
    ensures forall d :: d in DefsOf(e.defs, k.tag) && d.id == k.id ==> d == def
  {
    var p, d :| p in points && d in DefsOf(e.defs, k.tag) && Ends(d, k, p) && p.at <= e.tracks[k].firedAt;
    def := d;
    forall d' | d' in DefsOf(e.defs, k.tag) && d'.id == k.id
      ensures d' == def
    {
      OneOfItsId(DefsOf(e.defs, k.tag), def, d');
    }
  }

  /** The exact condition for any batch: the operator stays truthfully told if and only if

      - the batch does not end the rule's alarm early, the alarm does not end twice, and one left
        open is not silenced; or
      - it does, and what it tells of the alarms after that passes for the truth. */
  lemma BatchTellsTruthIff(e: Engine, points: seq<Point>, wall: Time, k: Key, open: bool)
    requires RefsOwned(e) && DelayedAreSilent(e) && ToldTruth(e, k, open) && DistinctIds(DefsOf(e.defs, k.tag))
    requires |points| > 0 && |DefsOf(e.defs, k.tag)| > 0
    ensures var e' := EvaluateSeries(e, k.tag, points, QUALITY_GOOD, wall);
            ToldTruth(e', k, open) <==> IsTruthful(e, points, e', k, open)
  {
    if EarlyEnd(e, k, points) {
      var def := EarlyEndHasRule(e, points, k);
      EarlyTellsTruthIff(e, points, wall, k, def, open);
    } else {
      KeptTellsTruthIff(e, points, wall, k, open);
    }
  }
}
