/** Counter resets, removed three times over.

The runner strips resets before an engine sees the series (`WithoutResets`), the statistical
engine strips them from its gap-free copy (`ResetFreeLoop`), and the period totals add up
the rises (`SoFar`). They have to count the same. */
module ForecastResets {
  import opened Options
  import opened ForecastSeries
  import opened ForecastShape

  /** What the drops between successive numbers of v took away. */
  function Offset(v: seq<Number>): real {
    if |v| == 0 then 0.0
    else
      var prev, x := LastSeen(v[..|v| - 1]), v[|v| - 1];
      Offset(v[..|v| - 1]) + if Exceeds(prev, x) then prev.value - x.value else 0.0
  }

  /** What the rises between successive numbers of v add up to. */
  function Rises(v: seq<Number>): real {
    if |v| == 0 then 0.0
    else
      var prev, x := LastSeen(v[..|v| - 1]), v[|v| - 1];
      Rises(v[..|v| - 1]) + if Exceeds(x, prev) then x.value - prev.value else 0.0
  }

  /** The counter as if it had never reset. */
  function ResetFree(v: seq<Number>): (r: seq<Number>)
    ensures |r| == |v|
  {
    seq(|v|, i requires 0 <= i < |v| => if v[i].None? then None else Some(v[i].value + Offset(v[..i + 1])))
  }

  // ------------------------------------------------------------ the lemmas

  lemma OffsetSnoc(v: seq<Number>, i: nat)
    requires i < |v|
    ensures Offset(v[..i + 1]) ==
      Offset(v[..i]) + if Exceeds(LastSeen(v[..i]), v[i]) then LastSeen(v[..i]).value - v[i].value else 0.0
  {
    assert v[..i + 1][..i] == v[..i];
  }

  lemma RisesSnoc(v: seq<Number>, i: nat)
    requires i < |v|
    ensures Rises(v[..i + 1]) ==
      Rises(v[..i]) + if Exceeds(v[i], LastSeen(v[..i])) then v[i].value - LastSeen(v[..i]).value else 0.0
  {
    assert v[..i + 1][..i] == v[..i];
  }

  /** Rises less drops is the last number less the first. */
  lemma {:induction false} RisesLessDrops(v: seq<Number>)
    ensures LastSeen(v).Some? <==> FirstSeen(v).Some?
    ensures LastSeen(v).Some? ==> Rises(v) - Offset(v) == LastSeen(v).value - FirstSeen(v).value
    ensures LastSeen(v).None? ==> Rises(v) == Offset(v) == 0.0
  {
    if |v| > 0 {
      var init := v[..|v| - 1];
      RisesLessDrops(init);
      FirstSeenSnoc(init, v[|v| - 1]);
      assert v == init + [v[|v| - 1]];
    }
  }

  /** The number the reset-free series stands at after a prefix. */
  function Level(v: seq<Number>): real
    requires LastSeen(v).Some?
  {
    LastSeen(v).value + Offset(v)
  }

  lemma {:induction false} LevelRises(v: seq<Number>, i: nat)
    requires i <= |v| && LastSeen(v[..i]).Some?
    ensures LastSeen(v).Some? && Level(v[..i]) <= Level(v)
  {
    if i < |v| {
      assert v[..|v| - 1][..i] == v[..i];
      LevelRises(v[..|v| - 1], i);
    } else {
      assert v[..i] == v;
    }
  }

  lemma ResetFreeIsLevel(v: seq<Number>, i: nat)
    requires i < |v| && v[i].Some?
    ensures LastSeen(v[..i + 1]) == v[i] && ResetFree(v)[i] == Some(Level(v[..i + 1]))
  {
  }

  /** A reset-free counter only goes up. */
  lemma ResetFreeRises(v: seq<Number>, i: nat, j: nat)
    requires i <= j < |v| && v[i].Some? && v[j].Some?
    ensures ResetFree(v)[i].value <= ResetFree(v)[j].value
  {
    ResetFreeIsLevel(v, i);
    ResetFreeIsLevel(v, j);
    assert v[..j + 1][..i + 1] == v[..i + 1];
    LevelRises(v[..j + 1], i + 1);
  }

  /** Drops up to the end are the drops up to a number and the drops from it. */
  lemma {:induction false} OffsetSplits(v: seq<Number>, a: nat)
    requires a < |v| && v[a].Some?
    ensures LastSeen(v[a..]) == LastSeen(v)
    ensures Offset(v) == Offset(v[..a + 1]) + Offset(v[a..])
  {
    if a + 1 == |v| {
      assert v[..a + 1] == v;
      assert v[a..][..0] == [];
    } else {
      var init := v[..|v| - 1];
      OffsetSplits(init, a);
      assert init[..a + 1] == v[..a + 1];
      assert v[a..][..|v[a..]| - 1] == init[a..];
    }
  }

  /** Leading gaps hold nothing. */
  lemma {:induction false} GapsHoldNothing(v: seq<Number>, a: nat)
    requires a <= |v| && forall i :: 0 <= i < a ==> v[i].None?
    ensures Rises(v) == Rises(v[a..]) && Offset(v) == Offset(v[a..]) && LastSeen(v) == LastSeen(v[a..])
  {
    if a == |v| {
      LastSeenIsSeen(v);
      RisesLessDrops(v);
    } else {
      var init := v[..|v| - 1];
      GapsHoldNothing(init, a);
      assert v[a..][..|v[a..]| - 1] == init[a..];
    }
  }

  lemma {:induction false} ResetFreeLastSeen(v: seq<Number>)
    ensures LastSeen(ResetFree(v)) == if LastSeen(v).Some? then Some(Level(v)) else None
  {
    if |v| > 0 {
      var init := v[..|v| - 1];
      assert v[..|v|] == v;
      if v[|v| - 1].None? {
        ResetFreeLastSeen(init);
        forall i | 0 <= i < |init|
          ensures ResetFree(v)[i] == ResetFree(init)[i]
        {
          assert init[..i + 1] == v[..i + 1];
        }
        assert ResetFree(v)[..|v| - 1] == ResetFree(init);
      }
    }
  }

  /** Adding the returned shift to the reset-free series restores the last true value. */
  lemma ShiftRestoresLast(v: seq<Number>)
    requires LastSeen(v).Some?
    ensures LastSeen(ResetFree(v)).Some? && LastSeen(ResetFree(v)).value - Offset(v) == LastSeen(v).value
  {
    ResetFreeLastSeen(v);
  }

  /** What a period total counts over a suffix is how far the whole reset-free series
      went from the suffix's first number. */
  lemma TotalsAgreeWithRunner(v: seq<Number>, from: nat, a: nat)
    requires from <= a < |v| && v[a].Some? && forall i :: from <= i < a ==> v[i].None?
    ensures LastSeen(ResetFree(v)).Some?
    ensures Rises(v[from..]) == LastSeen(ResetFree(v)).value - ResetFree(v)[a].value
  {
    var tail := v[from..];
    assert tail[a - from..] == v[a..];
    GapsHoldNothing(tail, a - from);
    RisesLessDrops(v[a..]);
    assert FirstSeen(v[a..]) == v[a];
    OffsetSplits(v, a);
    ResetFreeLastSeen(v);
    ResetFreeIsLevel(v, a);
    LastSeenIsSeen(v);
  }

  /** Filling the gaps neither adds a drop nor hides one. */
  lemma {:induction false} FilledPrefix(v: seq<Number>, n: nat)
    requires n <= |v| && FirstSeen(v).Some?
    ensures Offset(Filled(v)[..n]) == Offset(v[..n])
    ensures LastSeen(v[..n]).Some? ==> LastSeen(Filled(v)[..n]) == LastSeen(v[..n])
    ensures LastSeen(v[..n]).None? && n > 0 ==> LastSeen(Filled(v)[..n]) == FirstSeen(v)
  {
    if n > 0 {
      FilledPrefix(v, n - 1);
      OffsetSnoc(v, n - 1);
      OffsetSnoc(Filled(v), n - 1);
      LastSeenUpTo(v, n - 1);
      LastSeenUpTo(Filled(v), n - 1);
      if LastSeen(v[..n - 1]).None? && v[n - 1].Some? {
        FirstAmongGaps(v, n - 1);
      }
    }
  }

  lemma FirstAmongGaps(v: seq<Number>, i: nat)
    requires i < |v| && LastSeen(v[..i]).None? && v[i].Some?
    ensures FirstSeen(v) == v[i]
  {
    LastSeenIsSeen(v[..i]);
    FirstSeenIsSeen(v);
    var before := v[..i];
    assert forall j :: 0 <= j < |before| ==> before[j] == v[j];
  }

  /** The statistical engine's increase over its gap-free copy is the period total. */
  lemma TotalsAgreeWithEngine(v: seq<Number>)
    requires FirstSeen(v).Some?
    ensures var r := ResetFree(Filled(v));
            |r| > 0 && r[0].Some? && r[|r| - 1].Some? && Rises(v) == r[|r| - 1].value - r[0].value
  {
    var w, n := Filled(v), |v|;
    FilledIsWhole(v);
    FirstSeenIsSeen(v);
    RisesLessDrops(v);
    FilledPrefix(v, n);
    assert w[..n] == w && v[..n] == v;
    ResetFreeIsLevel(w, n - 1);
    ResetFreeIsLevel(w, 0);
    OffsetSnoc(w, 0);
    FilledPrefix(v, 1);
    LastSeenUpTo(w, 0);
    assert LastSeen(v[..1]).Some? ==> FirstSeen(v) == LastSeen(v[..1]) by {
      LastSeenUpTo(v, 0);
    }
  }

  // ------------------------------------------------------------ the loops

  /** withoutResets. */
  method WithoutResets(v: seq<Number>) returns (out: array<Number>, shift: real)
    ensures fresh(out) && out[..] == ResetFree(v) && shift == -Offset(v)
  {
    out := new Number[|v|];
    var off := 0.0;
    var prev: Number, lastRaw: Number := None, None;
    for i := 0 to |v|
      invariant off == Offset(v[..i]) && prev == lastRaw == LastSeen(v[..i])
      invariant forall k :: 0 <= k < i ==> out[k] == ResetFree(v)[k]
    {
      OffsetSnoc(v, i);
      LastSeenUpTo(v, i);
      if v[i].None? {
        out[i] := v[i];
        continue;
      }
      if Exceeds(prev, v[i]) {
        off := off + (prev.value - v[i].value);
      }
      out[i] := Some(v[i].value + off);
      prev := v[i];
      lastRaw := v[i];
    }
    assert v[..|v|] == v;
    RisesLessDrops(v);
    return out, if lastRaw.None? then 0.0 else -off;
  }

  /** resetFree, on the gap-free copy. */
  method ResetFreeLoop(v: seq<Number>) returns (out: array<Number>)
    requires AllKnown(v)
    ensures fresh(out) && out[..] == ResetFree(v)
  {
    out := new Number[|v|];
    var off := 0.0;
    for i := 0 to |v|
      invariant off == Offset(v[..i]) && (i > 0 ==> LastSeen(v[..i]) == v[i - 1])
      invariant forall k :: 0 <= k < i ==> out[k] == ResetFree(v)[k]
    {
      OffsetSnoc(v, i);
      LastSeenUpTo(v, i);
      if i > 0 && v[i].value < v[i - 1].value {
        off := off + (v[i - 1].value - v[i].value);
      }
      out[i] := Some(v[i].value + off);
    }
  }

  /** The share of time on, step by step, in hours. */
  function HoursOn(v: seq<Number>, step: int): real {
    if |v| == 0 then 0.0
    else
      HoursOn(v[..|v| - 1], step) + if v[|v| - 1].Some? then HoursOf(v[|v| - 1], step) else 0.0
  }

  /** The time on within one step. */
  function HoursOf(x: Number, step: int): real
    requires x.Some?
  {
    Clamp01(x).value * Hours(step)
  }

  /** The steps of the series from `start` on; none when the series does not reach back to it. */
  function Since(s: Series, start: int): Option<seq<Number>>
    requires s.step > 0
  {
    if |s.values| == 0 || s.start > start then None
    else if (start - s.start) / s.step >= |s.values| then None
    else Some(s.values[(start - s.start) / s.step..])
  }

  /** SoFar. */
  method SoFar(s: Series, kind: Kind, start: int) returns (total: real, ok: bool)
    requires s.step > 0
    ensures ok <==> kind in {Counter, State} && Since(s, start).Some? && LastSeen(Since(s, start).value).Some?
    ensures ok && kind == Counter ==> total == Rises(Since(s, start).value)
    ensures ok && kind == State ==> total == HoursOn(Since(s, start).value, s.step)
  {
    if |s.values| == 0 || s.start > start {
      return 0.0, false;
    }
    var from := (start - s.start) / s.step;
    if from >= |s.values| {
      return 0.0, false;
    }
    var vals := s.values[from..];
    match kind {
      case Counter => total, ok := SumRises(vals);
      case State => total, ok := SumHours(vals, s.step);
      case _ => return 0.0, false;
    }
  }

  /** SoFar's loop for a counter. */
  method SumRises(vals: seq<Number>) returns (total: real, seen: bool)
    ensures total == Rises(vals) && seen == LastSeen(vals).Some?
  {
    var prev: Number := None;
    total, seen := 0.0, false;
    for i := 0 to |vals|
      invariant total == Rises(vals[..i]) && prev == LastSeen(vals[..i]) && seen == prev.Some?
    {
      RisesSnoc(vals, i);
      LastSeenUpTo(vals, i);
      if vals[i].None? {
        continue;
      }
      if seen && vals[i].value >= prev.value {
        total := total + (vals[i].value - prev.value);
      }
      prev, seen := vals[i], true;
    }
    assert vals[..|vals|] == vals;
  }

  /** SoFar's loop for a state. */
  method SumHours(vals: seq<Number>, step: int) returns (hours: real, seen: bool)
    ensures hours == HoursOn(vals, step) && seen == LastSeen(vals).Some?
  {
    hours, seen := 0.0, false;
    for i := 0 to |vals|
      invariant hours == HoursOn(vals[..i], step) && seen == LastSeen(vals[..i]).Some?
    {
      HoursOnSnoc(vals, step, i);
      LastSeenUpTo(vals, i);
      if vals[i].Some? {
        hours := hours + HoursOf(vals[i], step);
        seen := true;
      }
    }
    assert vals[..|vals|] == vals;
  }

  lemma HoursOnSnoc(v: seq<Number>, step: int, i: nat)
    requires i < |v|
    ensures HoursOn(v[..i + 1], step) == HoursOn(v[..i], step) + if v[i].Some? then HoursOf(v[i], step) else 0.0
  {
    assert v[..i + 1][..i] == v[..i];
  }
}
