/** What one rule event can and cannot touch.

`OfRule` is a rule's share of the queue. Events of other rules leave it and the
rule's track alone, so a whole section, seen from one rule, is at most the events
of that rule. `RefsOwned` is the invariant of event references: every track has
its own, and an occurrence with a CLEARED action is no longer tracked. */
module AlarmFrames {
  import opened AlarmRules
  import opened AlarmEngine

  function OfRule(q: seq<Action>, k: Key): seq<Action> {
    if |q| == 0 then []
    else OfRule(q[..|q| - 1], k) + if q[|q| - 1].Rule() == k then [q[|q| - 1]] else []
  }

  lemma {:induction false} OfRuleConcat(a: seq<Action>, b: seq<Action>, k: Key)
    ensures OfRule(a + b, k) == OfRule(a, k) + OfRule(b, k)
  {
    if |b| == 0 {
      assert a + b == a;
    } else {
      OfRuleConcat(a, b[..|b| - 1], k);
      assert (a + b)[..|a + b| - 1] == a + b[..|b| - 1];
    }
  }

  lemma {:induction false} OfRuleWithoutOther(q: seq<Action>, other: Key, ref: nat, k: Key)
    requires other != k
    ensures OfRule(Without(q, other, ref), k) == OfRule(q, k)
  {
    if |q| > 0 {
      var init, last := q[..|q| - 1], q[|q| - 1];
      OfRuleWithoutOther(init, other, ref, k);
      if !SameOccurrence(last, other, ref) {
        OfRuleConcat(Without(init, other, ref), [last], k);
        assert OfRule([last], k) == if last.Rule() == k then [last] else [];
      }
    }
  }

  lemma {:induction false} WithoutMembers(q: seq<Action>, k: Key, ref: nat)
    ensures forall a :: a in Without(q, k, ref) <==> a in q && !SameOccurrence(a, k, ref)
  {
    if |q| > 0 {
      WithoutMembers(q[..|q| - 1], k, ref);
      assert q == q[..|q| - 1] + [q[|q| - 1]];
    }
  }

  /** The definition an event carries is the rule's own. */
  predicate WellKeyed(m: Micro) {
    (m.ev.Live? || m.ev.Replay? || m.ev.Verdict?) ==> m.ev.def.id == m.key.id
  }

  /** Event references are owned: one per track, none shared with a closed occurrence. */
  ghost predicate RefsOwned(e: Engine) {
    && (forall k :: k in e.tracks ==> e.tracks[k].def.id == k.id && e.tracks[k].ref < |e.rows|)
    && (forall j, k :: j in e.tracks && k in e.tracks && j != k ==> e.tracks[j].ref != e.tracks[k].ref)
    && (forall a :: a in e.Queued() ==> a.ref < |e.rows|)
    && (forall a, k :: a in e.Queued() && k in e.tracks && a.ref == e.tracks[k].ref ==>
          a.Rule() == k && a.status.Active?)
  }

  /** What every outcome of a rule event obeys: at most one action, of that rule
      and of the occurrence at hand; CLEARED ends the track, ACTIVE needs one. */
  ghost predicate Proper(e: Engine, k: Key, out: Outcome) {
    var t := e.TrackOf(k);
    var ref := if t.Some? then t.value.ref else |e.rows|;
    && |out.queued| <= 1
    && (|out.queued| == 1 ==>
          && out.queued[0].Rule() == k && out.queued[0].ref == ref
          && (out.queued[0].status.Cleared? ==> t.Some? && out.track.None?)
          && (out.queued[0].status.Active? ==> out.track.Some?))
    && (out.track.Some? ==> out.track.value.ref == ref && out.track.value.def.id == k.id)
    && (out.pulled ==> t.Some? && out.track.None? && out.queued == [])
  }

  lemma OutcomesAreProper(e: Engine, m: Micro)
    requires WellKeyed(m)
    requires m.key in e.tracks ==> e.tracks[m.key].def.id == m.key.id
    ensures Proper(e, m.key, OutcomeOf(e, m))
  {
  }

  lemma ApplyKeepsRefs(e: Engine, k: Key, out: Outcome)
    requires RefsOwned(e) && Proper(e, k, out)
    ensures RefsOwned(Apply(e, k, out))
  {
    ApplyKeepsTrackRefs(e, k, out);
    ApplyKeepsQueueRefs(e, k, out);
  }

  lemma ApplyKeepsTrackRefs(e: Engine, k: Key, out: Outcome)
    requires RefsOwned(e) && Proper(e, k, out)
    ensures var e' := Apply(e, k, out);
            && (forall j :: j in e'.tracks ==> e'.tracks[j].def.id == j.id && e'.tracks[j].ref < |e'.rows|)
            && (forall i, j :: i in e'.tracks && j in e'.tracks && i != j ==> e'.tracks[i].ref != e'.tracks[j].ref)
  {
  }

  lemma ApplyKeepsQueueRefs(e: Engine, k: Key, out: Outcome)
    requires RefsOwned(e) && Proper(e, k, out)
    ensures var e' := Apply(e, k, out);
            && (forall a :: a in e'.Queued() ==> a.ref < |e'.rows|)
            && (forall a, j :: a in e'.Queued() && j in e'.tracks && a.ref == e'.tracks[j].ref ==>
                  a.Rule() == j && a.status.Active?)
  {
    var e' := Apply(e, k, out);
    if out.pulled {
      WithoutMembers(e.pending, k, e.tracks[k].ref);
    }
    assert forall a :: a in e'.Queued() ==> a in e.Queued() || a in out.queued;
    forall a | a in e'.Queued()
      ensures a.ref < |e'.rows|
      ensures forall j :: j in e'.tracks && a.ref == e'.tracks[j].ref ==> a.Rule() == j && a.status.Active?
    {
      if a !in out.queued {
        assert a in e.Queued();
      }
    }
  }

  lemma StepKeepsRefs(e: Engine, m: Micro)
    requires RefsOwned(e) && WellKeyed(m)
    ensures RefsOwned(Step(e, m))
  {
    OutcomesAreProper(e, m);
    ApplyKeepsRefs(e, m.key, OutcomeOf(e, m));
  }

  lemma ApplyForeign(e: Engine, own: Key, out: Outcome, k: Key)
    requires Proper(e, own, out) && own != k
    ensures Apply(e, own, out).TrackOf(k) == e.TrackOf(k)
    ensures OfRule(Apply(e, own, out).pending, k) == OfRule(e.pending, k)
  {
    var kept := if out.pulled then Without(e.pending, own, e.tracks[own].ref) else e.pending;
    if out.pulled {
      OfRuleWithoutOther(e.pending, own, e.tracks[own].ref, k);
    }
    OfRuleConcat(kept, out.queued, k);
    assert OfRule(out.queued, k) == [];
  }

  /** An event of another rule changes neither the rule's track nor its actions. */
  lemma StepForeign(e: Engine, m: Micro, k: Key)
    requires RefsOwned(e) && WellKeyed(m) && m.key != k
    ensures Step(e, m).TrackOf(k) == e.TrackOf(k)
    ensures OfRule(Step(e, m).pending, k) == OfRule(e.pending, k)
  {
    OutcomesAreProper(e, m);
    ApplyForeign(e, m.key, OutcomeOf(e, m), k);
  }

  /** So does a whole list of events of other rules. */
  lemma {:induction false} StepsForeign(e: Engine, ms: seq<Micro>, k: Key)
    requires RefsOwned(e) && forall i :: 0 <= i < |ms| ==> WellKeyed(ms[i]) && ms[i].key != k
    ensures RefsOwned(Steps(e, ms))
    ensures Steps(e, ms).TrackOf(k) == e.TrackOf(k)
    ensures OfRule(Steps(e, ms).pending, k) == OfRule(e.pending, k)
  {
    if |ms| > 0 {
      var init := ms[..|ms| - 1];
      StepsForeign(e, init, k);
      StepKeepsRefs(Steps(e, init), ms[|ms| - 1]);
      StepForeign(Steps(e, init), ms[|ms| - 1], k);
    }
  }

  lemma StepsSplit(e: Engine, ms: seq<Micro>, i: nat)
    requires i < |ms|
    ensures Steps(e, ms) == Steps(Step(Steps(e, ms[..i]), ms[i]), ms[i + 1..])
  {
    SplitAround(ms, i);
    StepsConcat(e, ms[..i] + [ms[i]], ms[i + 1..]);
    StepsSnoc(e, ms[..i], ms[i]);
  }

  lemma SplitAround(ms: seq<Micro>, i: nat)
    requires i < |ms|
    ensures ms == (ms[..i] + [ms[i]]) + ms[i + 1..]
  {
  }

  /** A list with one event of the rule is, for the rule, that event alone, run in
      a state that agrees with the start on everything the rule can see. */
  lemma StepsWithOne(e: Engine, ms: seq<Micro>, k: Key, i: nat) returns (mid: Engine)
    requires RefsOwned(e) && forall j :: 0 <= j < |ms| ==> WellKeyed(ms[j])
    requires i < |ms| && ms[i].key == k && forall j :: 0 <= j < |ms| && j != i ==> ms[j].key != k
    ensures mid == Steps(e, ms[..i]) && RefsOwned(mid)
    ensures mid.TrackOf(k) == e.TrackOf(k) && OfRule(mid.pending, k) == OfRule(e.pending, k)
    ensures RefsOwned(Steps(e, ms))
    ensures Steps(e, ms).TrackOf(k) == Step(mid, ms[i]).TrackOf(k)
    ensures OfRule(Steps(e, ms).pending, k) == OfRule(Step(mid, ms[i]).pending, k)
  {
    mid := Steps(e, ms[..i]);
    StepsForeign(e, ms[..i], k);
    StepKeepsRefs(mid, ms[i]);
    var next := Step(mid, ms[i]);
    StepsForeign(next, ms[i + 1..], k);
    StepsSplit(e, ms, i);
  }

  /** A rule's own event: its track moves by `RuleStep` and its actions grow. */
  lemma StepOwn(e: Engine, m: Micro)
    requires RefsOwned(e) && WellKeyed(m)
    ensures var out := OutcomeOf(e, m);
            && Step(e, m).TrackOf(m.key) == out.track
            && (!out.pulled ==> OfRule(Step(e, m).pending, m.key) == OfRule(e.pending, m.key) + out.queued)
            && (out.pulled ==> m.key in e.tracks)
            && (out.pulled ==>
                  OfRule(Step(e, m).pending, m.key) == OfRule(Without(e.pending, m.key, e.tracks[m.key].ref), m.key))
  {
    OutcomesAreProper(e, m);
    ApplyOwn(e, m.key, OutcomeOf(e, m));
  }

  lemma ApplyOwn(e: Engine, k: Key, out: Outcome)
    requires Proper(e, k, out)
    ensures Apply(e, k, out).TrackOf(k) == out.track
    ensures !out.pulled ==> OfRule(Apply(e, k, out).pending, k) == OfRule(e.pending, k) + out.queued
    ensures out.pulled ==> OfRule(Apply(e, k, out).pending, k) == OfRule(Without(e.pending, k, e.tracks[k].ref), k)
  {
    if out.pulled {
      assert Without(e.pending, k, e.tracks[k].ref) + [] == Without(e.pending, k, e.tracks[k].ref);
    } else {
      OfRuleConcat(e.pending, out.queued, k);
      assert OfRule(out.queued, k) == out.queued;
    }
  }
}
