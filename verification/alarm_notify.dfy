/** What the operator is told.

Per rule the notified events alternate: ACTIVE when the alarm fires, CLEARED when
it ends, never two of the same in a row, and retries say nothing. Live sections keep
this with one exact exception. What a batch says is prepared here and stated in `AlarmFront`. */
module AlarmNotify {
  import opened Options
  import opened AlarmRules
  import opened AlarmEngine
  import opened AlarmFrames
  import opened AlarmOccurrences
  import Replay = AlarmReplay

  /** The notified events among some actions. */
  function Told(w: seq<Action>): seq<Status> {
    if |w| == 0 then [] else Told(w[..|w| - 1]) + if w[|w| - 1].notify then [w[|w| - 1].status] else []
  }

  lemma {:induction false} ToldConcat(a: seq<Action>, b: seq<Action>)
    ensures Told(a + b) == Told(a) + Told(b)
  {
    if |b| == 0 {
      assert a + b == a;
    } else {
      ToldConcat(a, b[..|b| - 1]);
      assert (a + b)[..|a + b| - 1] == a + b[..|b| - 1];
    }
  }

  /** Whether the operator believes the alarm active after some events, starting
      from `open`; nothing when two events in a row say the same. */
  function Believed(w: seq<Status>, open: bool): Option<bool> {
    if |w| == 0 then Some(open)
    else
      match Believed(w[..|w| - 1], open)
      case None => None
      case Some(o) => if w[|w| - 1].Active? == o then None else Some(w[|w| - 1].Active?)
  }

  lemma {:induction false} BelievedConcat(a: seq<Status>, b: seq<Status>, open: bool)
    ensures Believed(a + b, open) == match Believed(a, open) case None => None case Some(o) => Believed(b, o)
  {
    if |b| == 0 {
      assert a + b == a;
    } else {
      BelievedConcat(a, b[..|b| - 1], open);
      assert (a + b)[..|a + b| - 1] == a + b[..|b| - 1];
    }
  }

  predicate Fired(e: Engine, k: Key) { k in e.tracks && e.tracks[k].triggered }

  /** The operator has been told the truth about the rule, in alternating events. */
  ghost predicate ToldTruth(e: Engine, k: Key, open: bool) {
    Believed(Told(OfRule(e.Queued(), k)), open) == Some(Fired(e, k))
  }

  /** A rule in its delay has queued nothing yet. */
  ghost predicate DelayedAreSilent(e: Engine) {
    forall k, a :: k in e.tracks && !e.tracks[k].triggered && a in e.Queued() ==> a.ref != e.tracks[k].ref
  }

  lemma QueuedOfRule(e: Engine, k: Key)
    ensures OfRule(e.Queued(), k) == OfRule(e.popped, k) + OfRule(e.pending, k)
  {
    OfRuleConcat(e.popped, e.pending, k);
  }

  // ------------------------------------------------------------ live events

  /** The one event that tells a lie: a health verdict that holds no longer, on a
      rule whose track is still in a delay it took over from a value rule. */
  predicate ClearsUnannounced(e: Engine, m: Micro) {
    m.ev.Verdict? && !m.ev.violated && m.key in e.tracks && !e.tracks[m.key].triggered
  }

  /** A live event keeps the operator truthfully told if and only if it is not
      that one. */
  lemma LiveEventTellsTruthIff(e: Engine, m: Micro, open: bool)
    requires RefsOwned(e) && WellKeyed(m) && !m.ev.Replay? && ToldTruth(e, m.key, open)
    ensures ToldTruth(Step(e, m), m.key, open) <==> !ClearsUnannounced(e, m)
  {
    LiveEventSays(e, m);
    OwnEventAppends(e, m);
    SaidIsToldIff(e, Step(e, m), m.key, OutcomeOf(e, m), ClearsUnannounced(e, m), open);
  }

  lemma LiveEventSays(e: Engine, m: Micro)
    requires !m.ev.Replay?
    ensures Says(OutcomeOf(e, m), Fired(e, m.key), ClearsUnannounced(e, m))
  {
    var track := e.TrackOf(m.key);
    LiveOutcomeSays(m.key.tag, track, track.Some? && e.RowOf(track.value.ref) != 0, |e.rows|, m.ev);
  }

  lemma SaidIsToldIff(e: Engine, e': Engine, k: Key, out: Outcome, lies: bool, open: bool)
    requires ToldTruth(e, k, open) && Says(out, Fired(e, k), lies)
    requires OfRule(e'.Queued(), k) == OfRule(e.Queued(), k) + out.queued
    requires Fired(e', k) == (out.track.Some? && out.track.value.triggered)
    ensures ToldTruth(e', k, open) <==> !lies
  {
    SayingIsBelieved(out, Fired(e, k), lies);
    var w := OfRule(e.Queued(), k);
    ToldConcat(w, out.queued);
    BelievedConcat(Told(w), Told(out.queued), open);
  }

  lemma OwnEventAppends(e: Engine, m: Micro)
    requires RefsOwned(e) && WellKeyed(m) && !OutcomeOf(e, m).pulled
    ensures OfRule(Step(e, m).Queued(), m.key) == OfRule(e.Queued(), m.key) + OutcomeOf(e, m).queued
    ensures Fired(Step(e, m), m.key) == (OutcomeOf(e, m).track.Some? && OutcomeOf(e, m).track.value.triggered)
  {
    StepOwn(e, m);
    QueuedOfRule(e, m.key);
    QueuedOfRule(Step(e, m), m.key);
    var out := OutcomeOf(e, m);
    AssocAppend(OfRule(e.popped, m.key), OfRule(e.pending, m.key), out.queued);
    assert Step(e, m).popped == e.popped;
  }

  lemma AssocAppend(a: seq<Action>, b: seq<Action>, c: seq<Action>)
    ensures a + (b + c) == (a + b) + c
  {
  }

  /** At most one action is queued; a notified one says what became of the rule, and is news
      but for the one that lies. */
  ghost predicate Says(out: Outcome, was: bool, lies: bool) {
    var now := out.track.Some? && out.track.value.triggered;
    && !out.pulled && |out.queued| <= 1
    && (if |out.queued| == 1 && out.queued[0].notify
        then out.queued[0].status.Active? == now && (was == now <==> lies)
        else was == now && !lies)
  }

  lemma SayingIsBelieved(out: Outcome, was: bool, lies: bool)
    requires Says(out, was, lies)
    ensures (Believed(Told(out.queued), was) == Some(out.track.Some? && out.track.value.triggered)) <==> !lies
  {
    if |out.queued| == 1 {
      TellsOne(out.queued[0], was);
      assert out.queued == [out.queued[0]];
    }
  }

  lemma TellsOne(a: Action, open: bool)
    ensures Believed(Told([a]), open)
            == if !a.notify then Some(open) else if a.status.Active? == open then None else Some(a.status.Active?)
  {
    assert [a][..0] == [];
    assert a.notify ==> Told([a]) == [a.status];
    assert [a.status][..0] == [];
  }

  lemma LiveOutcomeSays(tag: int, track: Option<Track>, persisted: bool, newRef: nat, ev: RuleEvent)
    requires !ev.Replay?
    ensures Says(RuleStep(tag, track, persisted, newRef, ev), track.Some? && track.value.triggered,
                 ev.Verdict? && !ev.violated && track.Some? && !track.value.triggered)
  {
    match ev {
      case Live(def, at, v) =>
      case Delay(now) =>
      case Verdict(def, violated, v, now) =>
      case Drop =>
    }
  }

  lemma ForeignEventTellsTruth(e: Engine, m: Micro, k: Key, open: bool)
    requires RefsOwned(e) && WellKeyed(m) && m.key != k && ToldTruth(e, k, open)
    ensures ToldTruth(Step(e, m), k, open)
  {
    StepForeign(e, m, k);
    QueuedOfRule(e, k);
    QueuedOfRule(Step(e, m), k);
  }

  lemma ApplyKeepsSilence(e: Engine, k: Key, out: Outcome)
    requires RefsOwned(e) && DelayedAreSilent(e) && Proper(e, k, out)
    requires |out.queued| == 1 && out.track.Some? ==> out.track.value.triggered
    requires out.track.Some? && !out.track.value.triggered ==> k !in e.tracks || !e.tracks[k].triggered
    ensures DelayedAreSilent(Apply(e, k, out))
  {
    var e' := Apply(e, k, out);
    if out.pulled {
      WithoutMembers(e.pending, k, e.tracks[k].ref);
    }
    assert forall a :: a in e'.Queued() ==> a in e.Queued() || a in out.queued;
  }

  lemma StepKeepsSilence(e: Engine, m: Micro)
    requires RefsOwned(e) && DelayedAreSilent(e) && WellKeyed(m)
    ensures DelayedAreSilent(Step(e, m))
  {
    OutcomesAreProper(e, m);
    ApplyKeepsSilence(e, m.key, OutcomeOf(e, m));
  }

  /** A list of live events keeps the truth about every rule. */
  lemma {:induction false} LiveEventsTellTruth(e: Engine, ms: seq<Micro>, k: Key, open: bool, restored: nat)
    requires Orderly(e, restored) && DelayedAreSilent(e) && ToldTruth(e, k, open)
    requires forall m :: m in ms ==> Backed(e.defs, m) && !m.ev.Replay?
    ensures ToldTruth(Steps(e, ms), k, open) && DelayedAreSilent(Steps(e, ms))
  {
    if |ms| > 0 {
      var init, m := ms[..|ms| - 1], ms[|ms| - 1];
      LiveEventsTellTruth(e, init, k, open, restored);
      StepsKeepOrderly(e, init, restored);
      Replay.StepsKeepDefs(e, init);
      var mid := Steps(e, init);
      StepKeepsSilence(mid, m);
      if m.key == k {
        BackedIsAnnounced(mid, m, restored);
        LiveEventTellsTruthIff(mid, m, open);
      } else {
        ForeignEventTellsTruth(mid, m, k, open);
      }
    }
  }

  lemma BackedIsAnnounced(e: Engine, m: Micro, restored: nat)
    requires Orderly(e, restored) && Backed(e.defs, m)
    ensures !ClearsUnannounced(e, m)
  {
  }

  // ---------------------------------------------------------------- batches

  /** The reading passes the clearing test of the rule. */
  predicate Ends(d: Definition, k: Key, p: Point) {
    d.id == k.id && !IsHealth(d.alarmType) && p.reading.Numeric? && !Violated(d, p.reading.v)
      && BackInSpec(d, p.reading.v)
  }

  /** A reading of the batch ends an alarm fired before the batch, and is no later than it. */
  ghost predicate EarlyEnd(e: Engine, k: Key, points: seq<Point>) {
    && Fired(e, k)
    && exists p, d :: p in points && d in DefsOf(e.defs, k.tag) && Ends(d, k, p) && p.at <= e.tracks[k].firedAt
  }

  /** No action still queued belongs to the alarm. */
  ghost predicate NoneQueued(e: Engine, q: seq<Action>, k: Key) {
    k in e.tracks ==> forall a :: a in q ==> a.ref != e.tracks[k].ref
  }

  /** No early reading ends an alarm of the tag whose ACTIVE is still queued. */
  ghost predicate FrontStays(e: Engine, tag: int, points: seq<Point>) {
    forall j: Key :: j.tag == tag && EarlyEnd(e, j, points) ==> NoneQueued(e, e.pending, j)
  }

  /** The alarm was fired before the batch and is still the same one. */
  predicate Carried(e0: Engine, e: Engine, k: Key) {
    Fired(e0, k) && k in e.tracks && e.tracks[k].ref == e0.tracks[k].ref
  }

  /** Inside a batch the queue as it was found stays in front, and a fired alarm is
      either carried or has all its actions among the new ones. */
  ghost predicate InBatch(e0: Engine, e: Engine, tag: int) {
    && e0.pending <= e.pending && e.popped == e0.popped && |e0.rows| <= |e.rows|
    && CarriedAsFound(e0, e) && FiredAreNew(e0, e, tag)
  }

  ghost predicate CarriedAsFound(e0: Engine, e: Engine) {
    forall k :: Carried(e0, e, k) ==> e.tracks[k].triggered && e.tracks[k].firedAt == e0.tracks[k].firedAt
  }

  ghost predicate FiredAreNew(e0: Engine, e: Engine, tag: int) {
    forall k :: k in e.tracks && k.tag == tag && e.tracks[k].triggered ==>
      Carried(e0, e, k) || forall a :: a in e0.pending ==> a.ref != e.tracks[k].ref
  }

  function NewActions(e0: Engine, e: Engine): seq<Action> {
    if e0.pending <= e.pending then e.pending[|e0.pending|..] else []
  }

  predicate HasCleared(w: seq<Action>) { exists i :: 0 <= i < |w| && w[i].status.Cleared? }

  /** What a batch queues for one rule: only CLEAREDs of a rule known before it are
      notified; an alarm carried through has queued nothing; one raised and still
      open has its ACTIVE last, and alone; and an alarm known before that is kept, because
      no early reading ends it, is carried until it is cleared. */
  ghost predicate RuleWord(w: seq<Action>, known: bool, kept: bool, carried: bool, fired: bool, ref: nat) {
    && (forall a :: a in w ==> a.notify == (a.status.Cleared? && known))
    && (known && kept && !HasCleared(w) ==> carried)
    && (carried ==> w == [] && fired && known)
    && (fired && !carried ==>
          && |w| > 0 && w[|w| - 1].status.Active? && w[|w| - 1].ref == ref
          && forall i :: 0 <= i < |w| - 1 ==> w[i].ref != ref)
  }

  function RefOf(e: Engine, k: Key): nat { if k in e.tracks then e.tracks[k].ref else 0 }

  ghost predicate RuleInBatch(e0: Engine, e: Engine, k: Key, kept: bool) {
    RuleWord(OfRule(NewActions(e0, e), k), Fired(e0, k), kept, Carried(e0, e, k), Fired(e, k), RefOf(e, k))
  }

  lemma ClearedStays(w: seq<Action>, w': seq<Action>)
    requires HasCleared(w) && w <= w'
    ensures HasCleared(w')
  {
    var i :| 0 <= i < |w| && w[i].status.Cleared?;
    assert w'[i].status.Cleared?;
  }

  lemma PulledWord(w: seq<Action>, known: bool, kept: bool, ref: nat)
    requires RuleWord(w, known, kept, false, true, ref)
    ensures RuleWord(w[..|w| - 1], known, kept, false, false, 0)
  {
    if known && kept {
      var i :| 0 <= i < |w| && w[i].status.Cleared?;
      assert w[..|w| - 1][i].status.Cleared?;
    }
  }

  lemma ClearedWord(w: seq<Action>, known: bool, kept: bool, carried: bool, ref: nat, a: Action)
    requires RuleWord(w, known, kept, carried, true, ref) && a.status.Cleared? && a.notify == known
    ensures RuleWord(w + [a], known, kept, false, false, 0)
  {
    assert (w + [a])[|w|].status.Cleared?;
  }

  lemma RaisedWord(w: seq<Action>, known: bool, kept: bool, ref: nat, ref': nat, a: Action)
    requires RuleWord(w, known, kept, false, false, ref) && a.status.Active? && a.ref == ref' && !a.notify
    requires forall b :: b in w ==> b.ref != ref'
    ensures RuleWord(w + [a], known, kept, false, true, ref')
  {
    if known && kept {
      ClearedStays(w, w + [a]);
    }
  }

  lemma {:induction false} WithoutBehind(p: seq<Action>, q: seq<Action>, k: Key, ref: nat)
    requires forall a :: a in p ==> a.ref != ref
    ensures Without(p + q, k, ref) == p + Without(q, k, ref)
  {
    if |q| == 0 {
      assert p + q == p;
      WithoutNothing(p, k, ref);
    } else {
      WithoutBehind(p, q[..|q| - 1], k, ref);
      assert (p + q)[..|p + q| - 1] == p + q[..|q| - 1];
    }
  }

  lemma {:induction false} WithoutNothing(p: seq<Action>, k: Key, ref: nat)
    requires forall a :: a in p ==> !SameOccurrence(a, k, ref)
    ensures Without(p, k, ref) == p
  {
    if |p| > 0 {
      WithoutNothing(p[..|p| - 1], k, ref);
      assert p == p[..|p| - 1] + [p[|p| - 1]];
    }
  }

  lemma {:induction false} OfRuleWithoutOwn(q: seq<Action>, k: Key, ref: nat)
    ensures OfRule(Without(q, k, ref), k) == Without(OfRule(q, k), k, ref)
  {
    if |q| > 0 {
      var init, last := q[..|q| - 1], q[|q| - 1];
      OfRuleWithoutOwn(init, k, ref);
      if last.Rule() == k {
        assert OfRule(q, k) == OfRule(init, k) + [last];
        assert (OfRule(init, k) + [last])[..|OfRule(init, k)|] == OfRule(init, k);
      } else {
        assert OfRule(q, k) == OfRule(init, k);
      }
      if !SameOccurrence(last, k, ref) {
        OfRuleConcat(Without(init, k, ref), [last], k);
        assert OfRule([last], k) == if last.Rule() == k then [last] else [];
      }
    }
  }

  /** An outcome inside a batch leaves the front of the queue alone. */
  lemma ApplyInBatch(e0: Engine, e: Engine, k: Key, out: Outcome, tag: int)
    requires RefsOwned(e) && InBatch(e0, e, tag) && Proper(e, k, out) && k.tag == tag
    requires out.pulled ==> NoneQueued(e, e0.pending, k)
    ensures var e' := Apply(e, k, out);
            && e0.pending <= e'.pending && e'.popped == e0.popped
            && NewActions(e0, e')
                  == (if out.pulled then Without(NewActions(e0, e), k, e.tracks[k].ref) else NewActions(e0, e))
                    + out.queued
  {
    var n := NewActions(e0, e);
    assert e.pending == e0.pending + n;
    if out.pulled {
      WithoutBehind(e0.pending, n, k, e.tracks[k].ref);
      assert Apply(e, k, out).pending == e0.pending + (Without(n, k, e.tracks[k].ref) + out.queued);
    } else {
      assert Apply(e, k, out).pending == e0.pending + (n + out.queued);
    }
  }

  /** What a replayed reading can do to a fired or pending alarm. */
  ghost predicate ReplayOutcome(e: Engine, k: Key, out: Outcome, known: bool) {
    var was, now := e.TrackOf(k), out.track;
    && Proper(e, k, out)
    && (forall a :: a in out.queued ==> a.notify == (a.status.Cleared? && known))
    && (out.pulled ==> was.value.triggered)
    && (was.Some? && was.value.triggered && now.Some? ==> now == was && out.queued == [])
    && (was.Some? && was.value.triggered && now.None? ==>
          out.pulled || (|out.queued| == 1 && out.queued[0].status.Cleared?))
    && (now.Some? && now.value.triggered && !(was.Some? && was.value.triggered) ==>
          |out.queued| == 1 && out.queued[0].status.Active?)
    && (!(was.Some? && was.value.triggered) && (now.None? || !now.value.triggered) ==> out.queued == [])
  }

  /** The event passes the clearing test, no later than the time. */
  predicate ClearsBy(m: Micro, time: Time) {
    m.ev.Replay? && !Violated(m.ev.def, m.ev.v) && BackInSpec(m.ev.def, m.ev.v) && m.ev.at <= time
  }

  lemma ReplayOutcomes(e: Engine, m: Micro)
    requires m.ev.Replay? && WellKeyed(m) && (m.key in e.tracks ==> e.tracks[m.key].def.id == m.key.id)
    ensures ReplayOutcome(e, m.key, OutcomeOf(e, m), m.ev.known)
    ensures OutcomeOf(e, m).pulled ==> ClearsBy(m, e.tracks[m.key].firedAt)
  {
  }

  lemma ReplayKeepsInBatch(e0: Engine, e: Engine, k: Key, out: Outcome, known: bool, tag: int)
    requires RefsOwned(e) && DelayedAreSilent(e) && InBatch(e0, e, tag) && k.tag == tag
    requires ReplayOutcome(e, k, out, known) && (out.pulled ==> NoneQueued(e, e0.pending, k))
    requires RefsOwned(e0)
    ensures InBatch(e0, Apply(e, k, out), tag)
  {
    ApplyInBatch(e0, e, k, out, tag);
    ReplayKeepsCarried(e0, e, k, out, known);
    ReplayKeepsNew(e0, e, k, out, known, tag);
  }

  lemma ReplayKeepsCarried(e0: Engine, e: Engine, k: Key, out: Outcome, known: bool)
    requires RefsOwned(e0) && |e0.rows| <= |e.rows| && CarriedAsFound(e0, e) && ReplayOutcome(e, k, out, known)
    ensures CarriedAsFound(e0, Apply(e, k, out))
  {
    var e' := Apply(e, k, out);
    forall j | Carried(e0, e', j)
      ensures e'.tracks[j].triggered && e'.tracks[j].firedAt == e0.tracks[j].firedAt
    {
      assert j != k ==> e'.TrackOf(j) == e.TrackOf(j);
      assert Carried(e0, e, j);
    }
  }

  lemma ReplayKeepsNew(e0: Engine, e: Engine, k: Key, out: Outcome, known: bool, tag: int)
    requires RefsOwned(e) && DelayedAreSilent(e) && e0.pending <= e.pending && FiredAreNew(e0, e, tag)
    requires ReplayOutcome(e, k, out, known)
    ensures FiredAreNew(e0, Apply(e, k, out), tag)
  {
    var e' := Apply(e, k, out);
    forall j | j in e'.tracks && j.tag == tag && e'.tracks[j].triggered
      ensures Carried(e0, e', j) || forall a :: a in e0.pending ==> a.ref != e'.tracks[j].ref
    {
      if j == k && !(k in e.tracks && e.tracks[k].triggered) {
        assert forall a :: a in e0.pending ==> a in e.Queued();
      }
    }
  }

  lemma ReplayKeepsOwnRule(e0: Engine, e: Engine, k: Key, out: Outcome, kept: bool)
    requires RefsOwned(e0) && RefsOwned(e) && DelayedAreSilent(e) && InBatch(e0, e, k.tag)
    requires RuleInBatch(e0, e, k, kept)
    requires ReplayOutcome(e, k, out, Fired(e0, k)) && (out.pulled ==> NoneQueued(e, e0.pending, k))
    requires out.pulled && kept ==> !Carried(e0, e, k)
    ensures RuleInBatch(e0, Apply(e, k, out), k, kept)
  {
    if out.pulled && Carried(e0, e, k) {
      EarlyPull(e0, e, k, out);
    } else if out.pulled {
      OwnPull(e0, e, k, out, kept);
    } else if |out.queued| == 1 {
      QueuedKeepsOwnRule(e0, e, k, out, kept);
    } else {
      SilenceKeepsOwnRule(e0, e, k, out, kept);
    }
  }

  /** A reading drops an alarm raised by the batch itself. */
  lemma OwnPull(e0: Engine, e: Engine, k: Key, out: Outcome, kept: bool)
    requires RefsOwned(e) && InBatch(e0, e, k.tag) && RuleInBatch(e0, e, k, kept)
    requires Proper(e, k, out) && out.pulled && e.tracks[k].triggered && !Carried(e0, e, k)
    ensures RuleInBatch(e0, Apply(e, k, out), k, kept)
  {
    PulledNews(e0, e, k, out, kept);
    PulledWord(OfRule(NewActions(e0, e), k), Fired(e0, k), kept, e.tracks[k].ref);
  }

  lemma SilenceKeepsOwnRule(e0: Engine, e: Engine, k: Key, out: Outcome, kept: bool)
    requires RefsOwned(e0) && RefsOwned(e) && InBatch(e0, e, k.tag) && RuleInBatch(e0, e, k, kept)
    requires ReplayOutcome(e, k, out, Fired(e0, k)) && !out.pulled && out.queued == []
    ensures RuleInBatch(e0, Apply(e, k, out), k, kept)
  {
    AppendedNews(e0, e, k, out);
    assert OfRule(NewActions(e0, e), k) + out.queued == OfRule(NewActions(e0, e), k);
  }

  /** An early reading ends the alarm that was carried so far, of which nothing is queued. */
  lemma EarlyPull(e0: Engine, e: Engine, k: Key, out: Outcome)
    requires RefsOwned(e) && InBatch(e0, e, k.tag) && RuleInBatch(e0, e, k, false) && Carried(e0, e, k)
    requires Proper(e, k, out) && out.pulled && NoneQueued(e, e0.pending, k)
    ensures RuleInBatch(e0, Apply(e, k, out), k, false)
  {
    ApplyInBatch(e0, e, k, out, k.tag);
    var n, ref := NewActions(e0, e), e.tracks[k].ref;
    assert Without(n, k, ref) + [] == Without(n, k, ref);
    OfRuleWithoutOwn(n, k, ref);
    assert Without([], k, ref) == [];
  }

  lemma QueuedKeepsOwnRule(e0: Engine, e: Engine, k: Key, out: Outcome, kept: bool)
    requires RefsOwned(e0) && RefsOwned(e) && DelayedAreSilent(e) && InBatch(e0, e, k.tag)
    requires RuleInBatch(e0, e, k, kept)
    requires ReplayOutcome(e, k, out, Fired(e0, k)) && !out.pulled && |out.queued| == 1
    ensures RuleInBatch(e0, Apply(e, k, out), k, kept)
  {
    var w, a := OfRule(NewActions(e0, e), k), out.queued[0];
    AppendedNews(e0, e, k, out);
    assert out.queued == [a];
    if a.status.Cleared? {
      ClearedWord(w, Fired(e0, k), kept, Carried(e0, e, k), e.tracks[k].ref, a);
    } else {
      RefsOfNew(e0, e, k);
      RaisedWord(w, Fired(e0, k), kept, RefOf(e, k), a.ref, a);
    }
  }

  lemma AppendedNews(e0: Engine, e: Engine, k: Key, out: Outcome)
    requires RefsOwned(e) && InBatch(e0, e, k.tag) && Proper(e, k, out) && !out.pulled
    ensures OfRule(NewActions(e0, Apply(e, k, out)), k) == OfRule(NewActions(e0, e), k) + out.queued
  {
    ApplyInBatch(e0, e, k, out, k.tag);
    OfRuleConcat(NewActions(e0, e), out.queued, k);
    assert OfRule(out.queued, k) == out.queued;
  }

  lemma PulledNews(e0: Engine, e: Engine, k: Key, out: Outcome, kept: bool)
    requires RefsOwned(e) && InBatch(e0, e, k.tag) && RuleInBatch(e0, e, k, kept)
    requires Proper(e, k, out) && out.pulled && e.tracks[k].triggered && !Carried(e0, e, k)
    ensures var w := OfRule(NewActions(e0, e), k);
            |w| > 0 && OfRule(NewActions(e0, Apply(e, k, out)), k) == w[..|w| - 1]
  {
    ApplyInBatch(e0, e, k, out, k.tag);
    var n, ref := NewActions(e0, e), e.tracks[k].ref;
    var w := OfRule(n, k);
    assert Without(n, k, ref) + [] == Without(n, k, ref);
    OfRuleWithoutOwn(n, k, ref);
    OfRuleMembers(n, k);
    assert w[|w| - 1] in w;
    WithoutNothing(w[..|w| - 1], k, ref);
  }

  lemma {:induction false} OfRuleMembers(q: seq<Action>, k: Key)
    ensures forall a :: a in OfRule(q, k) ==> a in q && a.Rule() == k
  {
    if |q| > 0 {
      OfRuleMembers(q[..|q| - 1], k);
    }
  }

  /** No new action of the rule shares a reference with a track in its delay or with
      one yet to be made. */
  lemma RefsOfNew(e0: Engine, e: Engine, k: Key)
    requires RefsOwned(e) && DelayedAreSilent(e) && e0.pending <= e.pending
    ensures forall a :: a in OfRule(NewActions(e0, e), k) ==>
      a.ref < |e.rows| && (k in e.tracks && !e.tracks[k].triggered ==> a.ref != e.tracks[k].ref)
  {
    OfRuleMembers(NewActions(e0, e), k);
    assert forall a :: a in NewActions(e0, e) ==> a in e.Queued();
  }

  lemma ForeignNews(e0: Engine, e: Engine, j: Key, out: Outcome, k: Key)
    requires RefsOwned(e) && InBatch(e0, e, j.tag) && j != k
    requires Proper(e, j, out) && (out.pulled ==> NoneQueued(e, e0.pending, j))
    ensures OfRule(NewActions(e0, Apply(e, j, out)), k) == OfRule(NewActions(e0, e), k)
  {
    ApplyInBatch(e0, e, j, out, j.tag);
    var n := NewActions(e0, e);
    if out.pulled {
      OfRuleWithoutOther(n, j, e.tracks[j].ref, k);
    }
    OfRuleConcat(if out.pulled then Without(n, j, e.tracks[j].ref) else n, out.queued, k);
    assert OfRule(out.queued, k) == [];
  }

  lemma ReplayKeepsOtherRule(e0: Engine, e: Engine, j: Key, out: Outcome, k: Key, kept: bool)
    requires RefsOwned(e) && InBatch(e0, e, j.tag) && RuleInBatch(e0, e, k, kept) && j != k
    requires Proper(e, j, out) && (out.pulled ==> NoneQueued(e, e0.pending, j))
    ensures RuleInBatch(e0, Apply(e, j, out), k, kept)
  {
    ForeignNews(e0, e, j, out, k);
    var e' := Apply(e, j, out);
    assert e'.TrackOf(k) == e.TrackOf(k);
    assert Carried(e0, e', k) == Carried(e0, e, k) && Fired(e', k) == Fired(e, k) && RefOf(e', k) == RefOf(e, k);
  }

  /** The rule events of a batch on a tag that leave the queue found in front. */
  ghost predicate FrontMicro(e0: Engine, tag: int, m: Micro) {
    && Backed(e0.defs, m) && m.ev.Replay? && m.key.tag == tag
    && (Fired(e0, m.key) && ClearsBy(m, e0.tracks[m.key].firedAt) ==> NoneQueued(e0, e0.pending, m.key))
  }

  /** And do not end its alarm early, when it is kept. */
  ghost predicate BatchMicro(e0: Engine, k: Key, m: Micro, kept: bool) {
    && FrontMicro(e0, k.tag, m) && m.ev.known == Fired(e0, m.key)
    && (m.key == k && Fired(e0, k) && kept ==> !ClearsBy(m, e0.tracks[k].firedAt))
  }

  ghost predicate FrontInv(e0: Engine, e: Engine, tag: int) {
    RefsOwned(e) && DelayedAreSilent(e) && InBatch(e0, e, tag)
  }

  ghost predicate BatchInv(e0: Engine, e: Engine, tag: int, k: Key, kept: bool) {
    FrontInv(e0, e, tag) && RuleInBatch(e0, e, k, kept)
  }

  lemma PullsAreFree(e0: Engine, e: Engine, m: Micro, tag: int)
    requires RefsOwned(e0) && FrontMicro(e0, tag, m) && FrontInv(e0, e, tag) && OutcomeOf(e, m).pulled
    ensures NoneQueued(e, e0.pending, m.key)
    ensures Carried(e0, e, m.key) ==> ClearsBy(m, e0.tracks[m.key].firedAt)
  {
    ReplayOutcomes(e, m);
  }

  lemma FrontStep(e0: Engine, e: Engine, m: Micro, tag: int)
    requires RefsOwned(e0) && FrontMicro(e0, tag, m) && FrontInv(e0, e, tag)
    ensures FrontInv(e0, Step(e, m), tag)
  {
    ReplayOutcomes(e, m);
    StepKeepsRefs(e, m);
    StepKeepsSilence(e, m);
    if OutcomeOf(e, m).pulled {
      PullsAreFree(e0, e, m, tag);
    }
    ReplayKeepsInBatch(e0, e, m.key, OutcomeOf(e, m), m.ev.known, tag);
  }

  lemma {:induction false} FrontSteps(e0: Engine, ms: seq<Micro>, tag: int)
    requires RefsOwned(e0) && DelayedAreSilent(e0) && forall m :: m in ms ==> FrontMicro(e0, tag, m)
    ensures FrontInv(e0, Steps(e0, ms), tag)
  {
    if |ms| > 0 {
      FrontSteps(e0, ms[..|ms| - 1], tag);
      FrontStep(e0, Steps(e0, ms[..|ms| - 1]), ms[|ms| - 1], tag);
    }
  }

  lemma BatchStep(e0: Engine, e: Engine, m: Micro, k: Key, kept: bool)
    requires RefsOwned(e0) && BatchMicro(e0, k, m, kept) && BatchInv(e0, e, k.tag, k, kept)
    ensures RuleInBatch(e0, Step(e, m), k, kept)
  {
    ReplayOutcomes(e, m);
    var out := OutcomeOf(e, m);
    if out.pulled {
      PullsAreFree(e0, e, m, k.tag);
    }
    if m.key == k {
      ReplayKeepsOwnRule(e0, e, k, out, kept);
    } else {
      ReplayKeepsOtherRule(e0, e, m.key, out, k, kept);
    }
  }

  lemma {:induction false} BatchSteps(e0: Engine, ms: seq<Micro>, k: Key, kept: bool)
    requires RefsOwned(e0) && DelayedAreSilent(e0) && forall m :: m in ms ==> BatchMicro(e0, k, m, kept)
    ensures BatchInv(e0, Steps(e0, ms), k.tag, k, kept)
  {
    if |ms| == 0 {
      assert NewActions(e0, e0) == [];
    } else {
      var mid := Steps(e0, ms[..|ms| - 1]);
      BatchSteps(e0, ms[..|ms| - 1], k, kept);
      assert BatchMicro(e0, k, ms[|ms| - 1], kept);
      FrontStep(e0, mid, ms[|ms| - 1], k.tag);
      BatchStep(e0, mid, ms[|ms| - 1], k, kept);
    }
  }

  /** The events of a batch are its usable readings, each for each value rule. */
  ghost predicate OfPoint(e: Engine, tag: int, points: seq<Point>, m: Micro) {
    && Backed(e.defs, m) && m.ev.Replay? && m.key.tag == tag && m.ev.known == Fired(e, m.key)
    && exists p :: p in points && p.reading == Numeric(m.ev.v) && p.at == m.ev.at
  }

  lemma {:induction false} SeriesMicrosOfPoints(e: Engine, tag: int, points: seq<Point>, wall: Time)
    ensures forall m :: m in SeriesMicros(tag, DefsOf(e.defs, tag), points, KnownRules(e, tag), wall) ==>
      OfPoint(e, tag, points, m)
  {
    if |points| > 0 {
      var n := |points| - 1;
      var defs, known, init, p := DefsOf(e.defs, tag), KnownRules(e, tag), points[..n], points[n];
      SeriesMicrosOfPoints(e, tag, init, wall);
      if p.reading.Numeric? {
        PointMicrosOfPoints(e, tag, defs, p, wall);
      }
      forall m | m in SeriesMicros(tag, defs, points, known, wall)
        ensures OfPoint(e, tag, points, m)
      {
        if m in SeriesMicros(tag, defs, init, known, wall) {
          var q :| q in init && q.reading == Numeric(m.ev.v) && q.at == m.ev.at;
          assert q in points;
        } else {
          assert p in points;
        }
      }
    }
  }

  lemma {:induction false} PointMicrosOfPoints(e: Engine, tag: int, defs: seq<Definition>, p: Point, wall: Time)
    requires p.reading.Numeric? && forall d :: d in defs ==> d in DefsOf(e.defs, tag)
    ensures forall m :: m in PointMicros(tag, defs, p.at, p.reading.v, KnownRules(e, tag), wall) ==>
      && Backed(e.defs, m) && m.ev.Replay? && m.key.tag == tag && m.ev.known == Fired(e, m.key)
      && m.ev.at == p.at && m.ev.v == p.reading.v
  {
    if |defs| > 0 {
      var d := defs[|defs| - 1];
      PointMicrosOfPoints(e, tag, defs[..|defs| - 1], p, wall);
      assert d.id in KnownRules(e, tag) <==> Fired(e, Key(tag, d.id));
    }
  }

  /** An event that ends an alarm fired before the batch, no later than it, comes from a reading that does. */
  lemma ClearsByIsEarlyEnd(e: Engine, tag: int, points: seq<Point>, m: Micro)
    requires OfPoint(e, tag, points, m) && Fired(e, m.key) && ClearsBy(m, e.tracks[m.key].firedAt)
    ensures EarlyEnd(e, m.key, points)
  {
    var p :| p in points && p.reading == Numeric(m.ev.v) && p.at == m.ev.at;
    assert m.ev.def in DefsOf(e.defs, m.key.tag) && Ends(m.ev.def, m.key, p);
  }

  lemma FrontMicrosOf(e: Engine, tag: int, points: seq<Point>, wall: Time)
    requires FrontStays(e, tag, points)
    ensures forall m :: m in SeriesMicros(tag, DefsOf(e.defs, tag), points, KnownRules(e, tag), wall) ==>
      FrontMicro(e, tag, m)
  {
    SeriesMicrosOfPoints(e, tag, points, wall);
    forall m | m in SeriesMicros(tag, DefsOf(e.defs, tag), points, KnownRules(e, tag), wall)
      ensures FrontMicro(e, tag, m)
    {
      if Fired(e, m.key) && ClearsBy(m, e.tracks[m.key].firedAt) {
        ClearsByIsEarlyEnd(e, tag, points, m);
      }
    }
  }

  lemma BatchMicrosOf(e: Engine, k: Key, points: seq<Point>, wall: Time, kept: bool)
    requires FrontStays(e, k.tag, points) && (kept ==> !EarlyEnd(e, k, points))
    ensures forall m :: m in SeriesMicros(k.tag, DefsOf(e.defs, k.tag), points, KnownRules(e, k.tag), wall) ==>
      BatchMicro(e, k, m, kept)
  {
    SeriesMicrosOfPoints(e, k.tag, points, wall);
    FrontMicrosOf(e, k.tag, points, wall);
    forall m | m in SeriesMicros(k.tag, DefsOf(e.defs, k.tag), points, KnownRules(e, k.tag), wall)
      ensures BatchMicro(e, k, m, kept)
    {
      if m.key == k && Fired(e, k) && ClearsBy(m, e.tracks[k].firedAt) {
        ClearsByIsEarlyEnd(e, k.tag, points, m);
      }
    }
  }

  // ------------------------------------------------------------ the news

  function CountCleared(w: seq<Action>): nat {
    if |w| == 0 then 0 else CountCleared(w[..|w| - 1]) + if w[|w| - 1].status.Cleared? then 1 else 0
  }

  function ClearedTimes(n: nat): seq<Status> { seq(n, i => Cleared) }

  /** What a batch tells the operator about one rule: the end of each occurrence, if
      the rule was known to be active before, then the alarm it leaves open. */
  function BatchWord(known: bool, closings: nat, raised: bool): seq<Status> {
    (if known then ClearedTimes(closings) else []) + (if raised then [Active] else [])
  }

  lemma {:induction false} ToldBeforeNews(w: seq<Action>, known: bool)
    requires forall a :: a in w ==> a.notify == (a.status.Cleared? && known)
    ensures Told(w) == if known then ClearedTimes(CountCleared(w)) else []
  {
    if |w| > 0 {
      assert w[|w| - 1] in w;
      ToldBeforeNews(w[..|w| - 1], known);
    }
  }

  lemma {:induction false} OfRuleMarked(q: seq<Action>, tracks: map<Key, Track>, tag: int, k: Key)
    ensures OfRule(MarkNews(q, 0, tracks, tag), k) == MarkNews(OfRule(q, k), 0, tracks, tag)
  {
    if |q| > 0 {
      var n := |q| - 1;
      OfRuleMarked(q[..n], tracks, tag, k);
      var marked := MarkNews(q, 0, tracks, tag);
      assert marked[..n] == MarkNews(q[..n], 0, tracks, tag);
      if q[n].Rule() == k {
        assert MarkNews(OfRule(q[..n], k) + [q[n]], 0, tracks, tag)
          == MarkNews(OfRule(q[..n], k), 0, tracks, tag) + [marked[n]];
      } else {
        assert OfRule(q, k) == OfRule(q[..n], k);
      }
    }
  }

  /** Marking the news turns a rule's batch into its word. */
  lemma MarkedWord(w: seq<Action>, known: bool, kept: bool, carried: bool, fired: bool, ref: nat,
                   tracks: map<Key, Track>, k: Key)
    requires RuleWord(w, known, kept, carried, fired, ref) && forall a :: a in w ==> a.Rule() == k
    requires k in tracks ==> tracks[k].triggered == fired && tracks[k].ref == ref
    requires k !in tracks ==> !fired
    requires k in tracks && !fired ==> forall a :: a in w ==> a.ref != ref
    ensures Told(MarkNews(w, 0, tracks, k.tag)) == BatchWord(known, CountCleared(w), fired && !carried)
    ensures CountCleared(MarkNews(w, 0, tracks, k.tag)) == CountCleared(w)
  {
    var m := MarkNews(w, 0, tracks, k.tag);
    if fired && !carried {
      var n := |w| - 1;
      var init, last := w[..n], w[n];
      forall i | 0 <= i < n
        ensures m[i] == w[i]
      {
        assert w[i].ref != ref;
        assert w[i] in w;
      }
      assert last in w;
      assert m == init + [last.(notify := true)];
      assert m[..n] == init;
      ToldBeforeNews(init, known);
      assert BatchWord(known, CountCleared(w), true)
        == (if known then ClearedTimes(CountCleared(init)) else []) + [Active];
    } else {
      forall i | 0 <= i < |w|
        ensures m[i] == w[i]
      {
        assert w[i] in w;
      }
      assert m == w;
      ToldBeforeNews(w, known);
    }
  }

  /** The actions a batch adds for a rule, as queued in the end. */
  ghost function Added(e: Engine, e': Engine, k: Key): seq<Action> {
    OfRule(NewActions(e, e'), k)
  }

  lemma SilentWhenDelayed(e0: Engine, e: Engine, k: Key, kept: bool)
    requires BatchInv(e0, e, k.tag, k, kept)
    ensures forall a :: a in OfRule(NewActions(e0, e), k) ==> a.Rule() == k
    ensures k in e.tracks && !e.tracks[k].triggered ==> forall a :: a in OfRule(NewActions(e0, e), k) ==>
      a.ref != e.tracks[k].ref
  {
    OfRuleMembers(NewActions(e0, e), k);
    RefsOfNew(e0, e, k);
  }

  lemma SortedMembers(points: seq<Point>)
    ensures forall p :: p in SortByTime(points) <==> p in points
  {
    forall p
      ensures p in SortByTime(points) <==> p in points
    {
      assert p in SortByTime(points) <==> p in multiset(SortByTime(points));
      assert p in points <==> p in multiset(points);
    }
  }

  lemma SortedEndsEarly(e: Engine, k: Key, points: seq<Point>)
    ensures EarlyEnd(e, k, SortByTime(points)) <==> EarlyEnd(e, k, points)
  {
    SortedMembers(points);
  }

  /** What is judged of a batch does not depend on the samples. */
  lemma EarlyEndIgnoresSamples(e: Engine, pre: Engine, points: seq<Point>)
    requires pre == e.(samples := pre.samples)
    ensures forall j: Key :: EarlyEnd(pre, j, points) <==> EarlyEnd(e, j, points)
  {
    forall j: Key
      ensures EarlyEnd(pre, j, points) <==> EarlyEnd(e, j, points)
    {
      assert Fired(pre, j) == Fired(e, j);
    }
  }

  lemma BatchBegins(e: Engine, pre: Engine, sorted: seq<Point>, wall: Time, k: Key, kept: bool)
    requires pre == e.(samples := pre.samples) && RefsOwned(e) && DelayedAreSilent(e)
    requires FrontStays(e, k.tag, sorted) && (kept ==> !EarlyEnd(e, k, sorted))
    ensures RefsOwned(pre) && DelayedAreSilent(pre)
    ensures forall m :: m in SeriesMicros(k.tag, DefsOf(e.defs, k.tag), sorted, KnownRules(e, k.tag), wall) ==>
      BatchMicro(pre, k, m, kept)
  {
    EarlyEndIgnoresSamples(e, pre, sorted);
    BatchMicrosOf(pre, k, sorted, wall, kept);
    assert KnownRules(pre, k.tag) == KnownRules(e, k.tag);
    Replay.RefsIgnoreSamples(e, pre.samples);
    assert pre.Queued() == e.Queued();
  }

  lemma BatchAliveIsAlive(e: Engine, tag: int, sorted: seq<Point>, wall: Time)
    requires |sorted| > 0
    ensures BatchAlive(e, tag, sorted, wall) == e.(samples := BatchAlive(e, tag, sorted, wall).samples)
  {
  }

  lemma ReplayInBatch(e: Engine, pre: Engine, sorted: seq<Point>, wall: Time, k: Key, kept: bool)
    requires pre == e.(samples := pre.samples) && RefsOwned(e) && DelayedAreSilent(e)
    requires FrontStays(e, k.tag, sorted) && (kept ==> !EarlyEnd(e, k, sorted))
    ensures BatchInv(pre, Steps(pre, SeriesMicros(k.tag, DefsOf(e.defs, k.tag), sorted, KnownRules(e, k.tag), wall)),
                     k.tag, k, kept)
  {
    BatchBegins(e, pre, sorted, wall, k, kept);
    var ms := SeriesMicros(k.tag, DefsOf(e.defs, k.tag), sorted, KnownRules(e, k.tag), wall);
    BatchSteps(pre, ms, k, kept);
  }

  lemma {:induction false} CountsCleared(w: seq<Action>)
    ensures HasCleared(w) <==> CountCleared(w) > 0
  {
    if |w| > 0 {
      var init := w[..|w| - 1];
      CountsCleared(init);
      if HasCleared(init) {
        ClearedStays(init, w);
      } else if HasCleared(w) {
        var i :| 0 <= i < |w| && w[i].status.Cleared?;
        assert i < |init| ==> init[i].status.Cleared?;
      }
    }
  }

  lemma BelievedBatchWord(known: bool, closings: nat, raised: bool)
    ensures Believed(BatchWord(known, closings, raised), known) ==
      if known && closings >= 2 then None
      else if known && closings == 0 then (if raised then None else Some(true))
      else Some(raised)
  {
    var c := if known then ClearedTimes(closings) else [];
    BelievedConcat(c, if raised then [Active] else [], known);
    if known {
      BelievedClearedTimes(closings);
    }
    assert Believed([Active], false) == Some(true) && Believed([Active], true) == None;
  }

  lemma {:induction false} BelievedClearedTimes(n: nat)
    ensures Believed(ClearedTimes(n), true) == if n == 0 then Some(true) else if n == 1 then Some(false) else None
  {
    if n > 0 {
      assert ClearedTimes(n)[..n - 1] == ClearedTimes(n - 1);
      BelievedClearedTimes(n - 1);
    }
  }

}
