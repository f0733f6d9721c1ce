/** Series and forecasts.

Numbers are reals, a NaN is `None`, times are whole numbers of the clock's smallest unit. */
module ForecastSeries {
  import opened Options

  type Number = Option<real>

  datatype Kind = Process | Cyclic | Degradation | Counter | State

  /** values[i] is the value at start + i * step. */
  datatype Series = Series(start: int, step: int, values: seq<Number>) {
    function End(): int { start + |values| * step }
  }

  datatype Forecast = Forecast(start: int, step: int, q10: seq<Number>, q50: seq<Number>, q90: seq<Number>)

  /** Times are nanoseconds. */
  const HOUR: int := 3_600_000_000_000

  function Hours(d: int): real { d as real / HOUR as real }

  /** Three quantiles of the same steps. */
  predicate WellFormed(f: Forecast) { |f.q10| == |f.q50| == |f.q90| }

  /** The quantiles of one step. */
  datatype Band = Band(lo: Number, mid: Number, hi: Number)

  function At(f: Forecast, i: nat): Band
    requires WellFormed(f) && i < |f.q50|
  {
    Band(f.q10[i], f.q50[i], f.q90[i])
  }

  predicate Whole(b: Band) { b.lo.Some? && b.mid.Some? && b.hi.Some? }
  predicate Empty(b: Band) { b == Band(None, None, None) }
  predicate Ordered(b: Band) { Whole(b) && b.lo.value <= b.mid.value <= b.hi.value }

  /** Every step has three quantiles or none. */
  ghost predicate AllOrNone(f: Forecast) {
    WellFormed(f) && forall i :: 0 <= i < |f.q50| ==> Whole(At(f, i)) || Empty(At(f, i))
  }

  /** A comparison with a NaN is false. */
  predicate Exceeds(a: Number, b: Number) { a.Some? && b.Some? && a.value > b.value }

  predicate AllKnown(v: seq<Number>) { forall i :: 0 <= i < |v| ==> v[i].Some? }

  function Known(v: seq<Number>): (r: seq<real>)
    requires AllKnown(v)
    ensures |r| == |v| && forall i :: 0 <= i < |v| ==> v[i] == Some(r[i])
  {
    seq(|v|, i requires 0 <= i < |v| => v[i].value)
  }

  /** The last number of v. */
  function LastSeen(v: seq<Number>): Number {
    if |v| == 0 then None else if v[|v| - 1].Some? then v[|v| - 1] else LastSeen(v[..|v| - 1])
  }

  /** The first number of v. */
  function FirstSeen(v: seq<Number>): Number {
    if |v| == 0 then None else if v[0].Some? then v[0] else FirstSeen(v[1..])
  }

  /** The gaps filled: with the last number before them, leading ones with the first after. */
  function Filled(v: seq<Number>): (r: seq<Number>)
    ensures |r| == |v|
  {
    seq(|v|, i requires 0 <= i < |v| => Or(LastSeen(v[..i + 1]), FirstSeen(v)))
  }

  function Or(x: Number, y: Number): Number { if x.Some? then x else y }

  ghost predicate HasNumber(v: seq<Number>) { exists i :: 0 <= i < |v| && v[i].Some? }

  /** Step i holds the last number of v. */
  ghost predicate IsLastSeen(v: seq<Number>, i: int) {
    0 <= i < |v| && v[i].Some? && v[i] == LastSeen(v) && forall j :: i < j < |v| ==> v[j].None?
  }

  ghost predicate IsFirstSeen(v: seq<Number>, i: int) {
    0 <= i < |v| && v[i].Some? && v[i] == FirstSeen(v) && forall j :: 0 <= j < i ==> v[j].None?
  }

  lemma {:induction false} LastSeenIsSeen(v: seq<Number>)
    ensures LastSeen(v).Some? <==> HasNumber(v)
    ensures LastSeen(v).Some? ==> exists i :: IsLastSeen(v, i)
  {
    if |v| > 0 && v[|v| - 1].Some? {
      assert IsLastSeen(v, |v| - 1);
    } else if |v| > 0 {
      var init := v[..|v| - 1];
      LastSeenIsSeen(init);
      if LastSeen(init).Some? {
        var i :| IsLastSeen(init, i);
        assert v[i] == init[i];
        assert IsLastSeen(v, i);
      } else {
        assert forall i :: 0 <= i < |init| ==> init[i] == v[i];
      }
    }
  }

  lemma {:induction false} FirstSeenIsSeen(v: seq<Number>)
    ensures FirstSeen(v).Some? <==> HasNumber(v)
    ensures FirstSeen(v).Some? ==> exists i :: IsFirstSeen(v, i)
  {
    if |v| > 0 && v[0].Some? {
      assert IsFirstSeen(v, 0);
    } else if |v| > 0 {
      var rest := v[1..];
      FirstSeenIsSeen(rest);
      assert forall i :: 0 < i < |v| ==> v[i] == rest[i - 1];
      if FirstSeen(rest).Some? {
        var i :| IsFirstSeen(rest, i);
        assert v[i + 1] == rest[i];
        assert IsFirstSeen(v, i + 1);
      }
    }
  }

  lemma LastSeenUpTo(v: seq<Number>, i: nat)
    requires i < |v|
    ensures LastSeen(v[..i + 1]) == Or(v[i], LastSeen(v[..i]))
  {
    assert v[..i + 1][..i] == v[..i];
  }

  lemma {:induction false} FirstSeenSnoc(v: seq<Number>, x: Number)
    ensures FirstSeen(v + [x]) == Or(FirstSeen(v), x)
  {
    if |v| > 0 {
      assert (v + [x])[1..] == v[1..] + [x];
      FirstSeenSnoc(v[1..], x);
    }
  }

  lemma FirstSeenUpTo(v: seq<Number>, i: nat)
    requires i < |v|
    ensures FirstSeen(v[..i + 1]) == Or(FirstSeen(v[..i]), v[i])
  {
    assert v[..i + 1] == v[..i] + [v[i]];
    FirstSeenSnoc(v[..i], v[i]);
  }

  /** Up to any step there is a first number exactly when there is a last. */
  lemma {:induction false} SeenAlike(v: seq<Number>, i: nat)
    requires i <= |v|
    ensures FirstSeen(v[..i]).Some? <==> LastSeen(v[..i]).Some?
  {
    if i > 0 {
      SeenAlike(v, i - 1);
      FirstSeenUpTo(v, i - 1);
      LastSeenUpTo(v, i - 1);
    }
  }

  /** Once seen, the first number stays the first. */
  lemma {:induction false} FirstSeenStays(v: seq<Number>, i: nat, j: nat)
    requires i <= j <= |v| && FirstSeen(v[..i]).Some?
    ensures FirstSeen(v[..j]) == FirstSeen(v[..i])
  {
    if i < j {
      FirstSeenStays(v, i, j - 1);
      FirstSeenUpTo(v, j - 1);
    }
  }

  /** A filled series keeps every number and has no gap, unless there was no number at all. */
  lemma FilledIsWhole(v: seq<Number>)
    ensures forall i :: 0 <= i < |v| && v[i].Some? ==> Filled(v)[i] == v[i]
    ensures AllKnown(Filled(v)) <==> |v| == 0 || HasNumber(v)
    ensures |v| > 0 ==> Filled(v)[|v| - 1] == LastSeen(v)
  {
    LastSeenIsSeen(v);
    FilledLast(v);
    forall i | 0 <= i < |v|
      ensures v[i].Some? ==> Filled(v)[i] == v[i]
      ensures Filled(v)[i].Some? <==> LastSeen(v).Some?
    {
      FilledKeeps(v, i);
      FilledIsSeen(v, i);
    }
  }

  /** Step i takes its number from step k: its own, or the last one before it, or without one the first after. */
  predicate TakesFrom(v: seq<Number>, i: int, k: int) {
    && 0 <= i < |v| && 0 <= k < |v| && v[k].Some?
    && if k <= i then (forall j :: k < j <= i ==> v[j].None?) else (forall j :: 0 <= j < k ==> v[j].None?)
  }

  ghost predicate IsTaken(v: seq<Number>, i: int, x: Number) { exists k :: TakesFrom(v, i, k) && x == v[k] }

  lemma SeenBy(v: seq<Number>, i: nat, k: nat)
    requires k <= i < |v| && v[k].Some?
    ensures LastSeen(v[..i + 1]).Some?
  {
    assert v[..i + 1][k] == v[k];
    LastSeenIsSeen(v[..i + 1]);
  }

  lemma FilledFrom(v: seq<Number>, i: nat)
    requires i < |v| && HasNumber(v)
    ensures IsTaken(v, i, Filled(v)[i])
  {
    FilledAt(v, i);
    var before := v[..i + 1];
    LastSeenIsSeen(before);
    FirstSeenIsSeen(v);
    if LastSeen(before).Some? {
      var k :| IsLastSeen(before, k);
      assert forall j :: 0 <= j <= i ==> before[j] == v[j];
      assert TakesFrom(v, i, k);
    } else {
      var k :| IsFirstSeen(v, k);
      if k <= i {
        SeenBy(v, i, k);
      }
      assert TakesFrom(v, i, k);
    }
  }

  lemma TakenOnce(v: seq<Number>, i: nat, x: Number, y: Number)
    requires IsTaken(v, i, x) && IsTaken(v, i, y)
    ensures x == y
  {
    var j :| TakesFrom(v, i, j) && x == v[j];
    var k :| TakesFrom(v, i, k) && y == v[k];
  }

  /** No other series takes its numbers so. */
  lemma FilledIff(v: seq<Number>, u: seq<Number>)
    requires HasNumber(v) && |u| == |v|
    ensures u == Filled(v) <==> forall i :: 0 <= i < |v| ==> IsTaken(v, i, u[i])
  {
    forall i | 0 <= i < |v|
      ensures IsTaken(v, i, u[i]) <==> u[i] == Filled(v)[i]
    {
      FilledFrom(v, i);
      if IsTaken(v, i, u[i]) {
        TakenOnce(v, i, u[i], Filled(v)[i]);
      }
    }
  }

  lemma FilledAt(v: seq<Number>, i: nat)
    requires i < |v|
    ensures Filled(v)[i] == Or(LastSeen(v[..i + 1]), FirstSeen(v))
  {
    FilledBy(v, i, FirstSeen(v));
  }

  lemma FilledBy(v: seq<Number>, i: nat, first: Number)
    requires i < |v| && first == FirstSeen(v)
    ensures Filled(v)[i] == Or(LastSeen(v[..i + 1]), first)
  {
  }

  lemma FilledKeeps(v: seq<Number>, i: nat)
    requires i < |v|
    ensures v[i].Some? ==> Filled(v)[i] == v[i]
  {
    FilledAt(v, i);
    LastSeenUpTo(v, i);
  }

  lemma FilledIsSeen(v: seq<Number>, i: nat)
    requires i < |v|
    ensures Filled(v)[i].Some? <==> LastSeen(v).Some?
  {
    FilledAt(v, i);
    SeenBefore(v, i + 1);
  }

  /** What is seen by some step is seen in the end. */
  lemma SeenBefore(v: seq<Number>, i: nat)
    requires i <= |v|
    ensures FirstSeen(v).Some? <==> LastSeen(v).Some?
    ensures LastSeen(v[..i]).Some? ==> LastSeen(v).Some?
  {
    assert v[..|v|] == v;
    SeenAlike(v, |v|);
    SeenAlike(v, i);
    if LastSeen(v[..i]).Some? {
      FirstSeenStays(v, i, |v|);
    }
  }

  lemma FilledLast(v: seq<Number>)
    ensures |v| > 0 ==> Filled(v)[|v| - 1] == LastSeen(v)
  {
    if |v| > 0 {
      FilledAt(v, |v| - 1);
      assert v[..|v| - 1 + 1] == v;
      SeenBefore(v, |v|);
    }
  }

  lemma FirstIsFirstSeen(v: seq<Number>, k: nat, first: Number)
    requires k <= |v| && (k < |v| ==> first.Some?) && first == LastSeen(v[..k])
    requires k > 0 && first.Some? ==> LastSeen(v[..k - 1]).None?
    ensures first == FirstSeen(v)
  {
    assert v[..|v|] == v;
    SeenAlike(v, k);
    if first.Some? {
      LastSeenUpTo(v, k - 1);
      FirstSeenUpTo(v, k - 1);
      SeenAlike(v, k - 1);
      FirstSeenStays(v, k, |v|);
    }
  }

  /** fillForward. */
  method FillForward(v: seq<Number>) returns (out: array<Number>)
    ensures fresh(out) && out[..] == Filled(v)
  {
    out := new Number[|v|];
    var last: Number := None;
    for i := 0 to |v|
      invariant last == LastSeen(v[..i])
      invariant forall k :: 0 <= k < i ==> out[k] == LastSeen(v[..k + 1])
    {
      LastSeenUpTo(v, i);
      if v[i].Some? {
        last := v[i];
      }
      out[i] := last;
    }
    var first := FindFirst(v, out);
    FillLeading(v, out, first);
  }

  /** The second loop of fillForward: the first number. */
  method FindFirst(v: seq<Number>, out: array<Number>) returns (first: Number)
    requires out.Length == |v| && forall j :: 0 <= j < |v| ==> out[j] == LastSeen(v[..j + 1])
    ensures first == FirstSeen(v)
  {
    first := None;
    var k := 0;
    while k < |v| && first.None?
      invariant 0 <= k <= |v|
      invariant first.None? ==> LastSeen(v[..k]).None?
      invariant first.Some? ==> k > 0 && LastSeen(v[..k - 1]).None? && first == LastSeen(v[..k])
    {
      first := out[k];
      k := k + 1;
    }
    FirstIsFirstSeen(v, k, first);
  }

  /** The third loop of fillForward: the gaps before the first number. */
  method FillLeading(v: seq<Number>, out: array<Number>, first: Number)
    requires out.Length == |v| && first == FirstSeen(v) && forall j :: 0 <= j < |v| ==> out[j] == LastSeen(v[..j + 1])
    modifies out
    ensures out[..] == Filled(v)
  {
    ghost var was := out[..];
    var i := 0;
    while i < |v| && out[i].None?
      invariant 0 <= i <= |v|
      invariant forall j :: 0 <= j < i ==> out[j] == first && was[j].None?
      invariant forall j :: i <= j < |v| ==> out[j] == was[j]
    {
      out[i] := first;
      i := i + 1;
    }
    LeadingIsFilled(v, was, out[..], i);
  }

  lemma LeadingIsFilled(v: seq<Number>, was: seq<Number>, now: seq<Number>, i: nat)
    requires |was| == |now| == |v| && i <= |v| && (i < |v| ==> was[i].Some?)
    requires forall j :: 0 <= j < |v| ==> was[j] == LastSeen(v[..j + 1])
    requires forall j :: 0 <= j < |v| ==> now[j] == if j < i then FirstSeen(v) else was[j]
    requires forall j :: 0 <= j < i ==> was[j].None?
    ensures now == Filled(v)
  {
    forall j | 0 <= j < |v|
      ensures now[j] == Filled(v)[j]
    {
      assert was[j] == LastSeen(v[..j + 1]);
      FilledEntry(v, i, j);
    }
  }

  lemma FilledEntry(v: seq<Number>, i: nat, j: nat)
    requires j < |v| && (j < i ==> LastSeen(v[..j + 1]).None?) && (i <= j ==> LastSeen(v[..i + 1]).Some?)
    ensures Filled(v)[j] == if j < i then FirstSeen(v) else LastSeen(v[..j + 1])
  {
    FilledAt(v, j);
    if j >= i {
      SeenAlike(v, i + 1);
      FirstSeenStays(v, i + 1, j + 1);
      SeenAlike(v, j + 1);
    }
  }

  /** Series.Observed: the number of steps with data. */
  function ObservedIn(v: seq<Number>): nat {
    if |v| == 0 then 0 else ObservedIn(v[..|v| - 1]) + if v[|v| - 1].Some? then 1 else 0
  }

  method Observed(v: seq<Number>) returns (n: nat)
    ensures n == ObservedIn(v) <= |v|
  {
    n := 0;
    for i := 0 to |v|
      invariant n == ObservedIn(v[..i]) <= i
    {
      assert v[..i + 1][..i] == v[..i];
      if v[i].Some? {
        n := n + 1;
      }
    }
    assert v[..|v|] == v;
  }
}
