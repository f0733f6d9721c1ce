/** Shape: a forecast made to respect what the kind of signal implies.

The quantiles of each step are put in order, a state's share of time is kept in [0, 1], and
each quantile of a counter is kept from going down or below the last value. */
module ForecastShape {
  import opened Options
  import opened ForecastSeries

  /** Three compare-and-swaps; a NaN never moves. */
  function InOrder(b: Band): Band {
    var b1 := if Exceeds(b.lo, b.mid) then Band(b.mid, b.lo, b.hi) else b;
    var b2 := if Exceeds(b1.mid, b1.hi) then Band(b1.lo, b1.hi, b1.mid) else b1;
    if Exceeds(b2.lo, b2.mid) then Band(b2.mid, b2.lo, b2.hi) else b2
  }

  function Clamp01(x: Number): Number {
    if x.None? then x else if x.value < 0.0 then Some(0.0) else if x.value > 1.0 then Some(1.0) else x
  }

  /** How high a counter has been, starting from the last value. */
  function Floor(last: Number, q: seq<Number>): Number {
    if |q| == 0 then last
    else
      var before := Floor(last, q[..|q| - 1]);
      var x := q[|q| - 1];
      if x.None? || Exceeds(before, x) then before else x
  }

  /** The least counter that is nowhere below q and never goes down. */
  function Climbing(last: Number, q: seq<Number>): (r: seq<Number>)
    ensures |r| == |q|
  {
    seq(|q|, i requires 0 <= i < |q| => if q[i].None? then None else Floor(last, q[..i + 1]))
  }

  function Clamped(q: seq<Number>): (r: seq<Number>)
    ensures |r| == |q|
  {
    seq(|q|, i requires 0 <= i < |q| => Clamp01(q[i]))
  }

  function Sorted(f: Forecast): (g: Forecast)
    requires WellFormed(f)
    ensures WellFormed(g) && |g.q50| == |f.q50| && forall i :: 0 <= i < |f.q50| ==> At(g, i) == InOrder(At(f, i))
  {
    var n := |f.q50|;
    f.(q10 := seq(n, i requires 0 <= i < n => InOrder(At(f, i)).lo),
       q50 := seq(n, i requires 0 <= i < n => InOrder(At(f, i)).mid),
       q90 := seq(n, i requires 0 <= i < n => InOrder(At(f, i)).hi))
  }

  function Shaped(f: Forecast, kind: Kind, last: Number): (g: Forecast)
    requires WellFormed(f)
    ensures WellFormed(g) && |g.q50| == |f.q50|
  {
    var s := Sorted(f);
    match kind
    case State => s.(q10 := Clamped(s.q10), q50 := Clamped(s.q50), q90 := Clamped(s.q90))
    case Counter => s.(q10 := Climbing(last, s.q10), q50 := Climbing(last, s.q50), q90 := Climbing(last, s.q90))
    case _ => s
  }

  // ------------------------------------------------------ what is promised

  ghost predicate InOrderEverywhere(f: Forecast) {
    WellFormed(f) && forall i :: 0 <= i < |f.q50| ==> Empty(At(f, i)) || Ordered(At(f, i))
  }

  ghost predicate Shares(q: seq<Number>) {
    forall i :: 0 <= i < |q| && q[i].Some? ==> 0.0 <= q[i].value <= 1.0
  }

  /** Never below the last value, never down from one forecast step to a later one. */
  ghost predicate Rising(last: Number, q: seq<Number>) {
    && (forall i :: 0 <= i < |q| ==> !Exceeds(last, q[i]))
    && (forall i, j :: 0 <= i < j < |q| ==> !Exceeds(q[i], q[j]))
  }

  ghost predicate Sound(f: Forecast, kind: Kind, last: Number) {
    && InOrderEverywhere(f)
    && (kind == State ==> Shares(f.q10) && Shares(f.q50) && Shares(f.q90))
    && (kind == Counter ==> Rising(last, f.q10) && Rising(last, f.q50) && Rising(last, f.q90))
  }

  // ------------------------------------------------------------- one step

  /** Three quantiles are permuted into order; a step with a NaN among numbers keeps it. */
  lemma InOrderSorts(b: Band)
    ensures multiset{InOrder(b).lo, InOrder(b).mid, InOrder(b).hi} == multiset{b.lo, b.mid, b.hi}
    ensures Whole(b) <==> Ordered(InOrder(b))
    ensures Empty(b) <==> Empty(InOrder(b))
    ensures Ordered(b) || Empty(b) ==> InOrder(b) == b
  {
  }

  // ------------------------------------------------------ one quantile's climb

  lemma {:induction false} FloorRises(last: Number, q: seq<Number>, i: nat)
    requires i <= |q|
    ensures !Exceeds(last, Floor(last, q)) && (last.Some? ==> Floor(last, q).Some?)
    ensures !Exceeds(Floor(last, q[..i]), Floor(last, q)) && (Floor(last, q[..i]).Some? ==> Floor(last, q).Some?)
  {
    if i < |q| {
      FloorRises(last, q[..|q| - 1], i);
      assert q[..|q| - 1][..i] == q[..i];
    } else {
      assert q[..i] == q;
      if |q| > 0 {
        FloorRises(last, q[..|q| - 1], 0);
      }
    }
  }

  lemma FloorAt(last: Number, q: seq<Number>, i: nat)
    requires i < |q| && q[i].Some?
    ensures Floor(last, q[..i + 1]).Some? && Floor(last, q[..i + 1]).value >= q[i].value
  {
    assert q[..i + 1][..i] == q[..i];
  }

  lemma ClimbingRises(last: Number, q: seq<Number>)
    ensures Rising(last, Climbing(last, q))
    ensures forall i :: 0 <= i < |q| ==>
      (Climbing(last, q)[i].Some? <==> q[i].Some?) && !Exceeds(q[i], Climbing(last, q)[i])
  {
    forall i | 0 <= i < |q|
      ensures !Exceeds(last, Climbing(last, q)[i]) && !Exceeds(q[i], Climbing(last, q)[i])
      ensures Climbing(last, q)[i].Some? <==> q[i].Some?
    {
      FloorRises(last, q[..i + 1], 0);
      if q[i].Some? {
        FloorAt(last, q, i);
      }
    }
    forall i, j | 0 <= i < j < |q|
      ensures !Exceeds(Climbing(last, q)[i], Climbing(last, q)[j])
    {
      FloorRises(last, q[..j + 1], i + 1);
      assert q[..j + 1][..i + 1] == q[..i + 1];
    }
  }

  /** The floor under a rising quantile is the quantile itself. */
  lemma {:induction false} FloorOfRising(last: Number, q: seq<Number>)
    requires Rising(last, q)
    ensures Floor(last, q) == if LastSeen(q).Some? then LastSeen(q) else last
  {
    if |q| > 0 {
      var init := q[..|q| - 1];
      FloorOfRising(last, init);
      LastSeenIsSeen(init);
      if LastSeen(init).Some? {
        var i :| IsLastSeen(init, i);
        assert !Exceeds(q[i], q[|q| - 1]);
      }
    }
  }

  lemma ClimbingFixesRising(last: Number, q: seq<Number>)
    requires Rising(last, q)
    ensures Climbing(last, q) == q
  {
    forall i | 0 <= i < |q|
      ensures Climbing(last, q)[i] == q[i]
    {
      FloorOfRising(last, q[..i + 1]);
    }
  }

  /** No other rising quantile above q is anywhere lower. */
  lemma {:induction false} FloorIsLeast(last: Number, q: seq<Number>, g: seq<Number>, i: nat)
    requires i < |q| == |g| && Rising(last, g) && g[i].Some?
    requires forall k :: 0 <= k <= i ==> (g[k].Some? <==> q[k].Some?) && !Exceeds(q[k], g[k])
    ensures !Exceeds(Floor(last, q[..i + 1]), g[i])
  {
    FloorBound(last, q[..i + 1], g, g[i].value);
  }

  lemma {:induction false} FloorBound(last: Number, q: seq<Number>, g: seq<Number>, bound: real)
    requires |q| <= |g| && (last.Some? ==> last.value <= bound)
    requires forall k :: 0 <= k < |q| && q[k].Some? ==> g[k].Some? && q[k].value <= g[k].value <= bound
    ensures Floor(last, q).Some? ==> Floor(last, q).value <= bound
  {
    if |q| > 0 {
      FloorBound(last, q[..|q| - 1], g, bound);
    }
  }

  lemma ClimbingIsLeast(last: Number, q: seq<Number>, g: seq<Number>)
    requires |q| == |g| && Rising(last, g)
    requires forall k :: 0 <= k < |q| ==> (g[k].Some? <==> q[k].Some?) && !Exceeds(q[k], g[k])
    ensures forall i :: 0 <= i < |q| ==> !Exceeds(Climbing(last, q)[i], g[i])
  {
    forall i | 0 <= i < |q|
      ensures !Exceeds(Climbing(last, q)[i], g[i])
    {
      if g[i].Some? {
        FloorIsLeast(last, q, g, i);
      }
    }
  }

  // ---------------------------------------------- order survives the floors

  /** lo is nowhere above hi, and they have their gaps in the same places. */
  ghost predicate Under(lo: seq<Number>, hi: seq<Number>) {
    |lo| == |hi| && forall i :: 0 <= i < |lo| ==> (lo[i].Some? <==> hi[i].Some?) && !Exceeds(lo[i], hi[i])
  }

  lemma {:induction false} FloorsStayInOrder(last: Number, lo: seq<Number>, hi: seq<Number>)
    requires Under(lo, hi)
    ensures Floor(last, lo).Some? <==> Floor(last, hi).Some?
    ensures !Exceeds(Floor(last, lo), Floor(last, hi))
  {
    if |lo| > 0 {
      FloorsStayInOrder(last, lo[..|lo| - 1], hi[..|hi| - 1]);
    }
  }

  lemma ClimbsStayInOrder(last: Number, lo: seq<Number>, hi: seq<Number>)
    requires Under(lo, hi)
    ensures Under(Climbing(last, lo), Climbing(last, hi))
  {
    forall i | 0 <= i < |lo|
      ensures Climbing(last, lo)[i].Some? <==> Climbing(last, hi)[i].Some?
      ensures !Exceeds(Climbing(last, lo)[i], Climbing(last, hi)[i])
    {
      FloorsStayInOrder(last, lo[..i + 1], hi[..i + 1]);
    }
  }

  lemma InOrderIsUnder(f: Forecast)
    requires WellFormed(f)
    ensures InOrderEverywhere(f) <==> Under(f.q10, f.q50) && Under(f.q50, f.q90)
  {
    if Under(f.q10, f.q50) && Under(f.q50, f.q90) {
      forall i | 0 <= i < |f.q50|
        ensures Empty(At(f, i)) || Ordered(At(f, i))
      {
        assert f.q10[i].Some? <==> f.q50[i].Some?;
        assert f.q50[i].Some? <==> f.q90[i].Some?;
      }
    }
    if InOrderEverywhere(f) {
      forall i | 0 <= i < |f.q50|
        ensures (f.q10[i].Some? <==> f.q50[i].Some?) && (f.q50[i].Some? <==> f.q90[i].Some?)
        ensures !Exceeds(f.q10[i], f.q50[i]) && !Exceeds(f.q50[i], f.q90[i])
      {
        assert Empty(At(f, i)) || Ordered(At(f, i));
      }
    }
  }

  // -------------------------------------------------------------- theorems

  lemma SortedIsInOrder(f: Forecast)
    requires AllOrNone(f)
    ensures InOrderEverywhere(Sorted(f))
  {
    forall i | 0 <= i < |f.q50|
      ensures Empty(At(Sorted(f), i)) || Ordered(At(Sorted(f), i))
    {
      InOrderSorts(At(f, i));
    }
  }

  lemma ShapeIsSound(f: Forecast, kind: Kind, last: Number)
    requires AllOrNone(f)
    ensures Sound(Shaped(f, kind, last), kind, last)
  {
    SortedIsInOrder(f);
    var s, g := Sorted(f), Shaped(f, kind, last);
    if kind == Counter {
      InOrderIsUnder(s);
      ClimbsStayInOrder(last, s.q10, s.q50);
      ClimbsStayInOrder(last, s.q50, s.q90);
      InOrderIsUnder(g);
      ClimbingRises(last, s.q10);
      ClimbingRises(last, s.q50);
      ClimbingRises(last, s.q90);
    } else if kind == State {
      forall i | 0 <= i < |g.q50|
        ensures Empty(At(g, i)) || Ordered(At(g, i))
      {
        assert Empty(At(s, i)) || Ordered(At(s, i));
      }
    }
  }

  /** A step keeps the NaNs it came with, so a half-empty step cannot be put right. */
  lemma GapsStay(f: Forecast, kind: Kind, last: Number, i: nat)
    requires WellFormed(f) && i < |f.q50|
    ensures Whole(At(f, i)) <==> Whole(At(Shaped(f, kind, last), i))
    ensures Empty(At(f, i)) <==> Empty(At(Shaped(f, kind, last), i))
  {
    InOrderSorts(At(f, i));
    var s := Sorted(f);
    assert At(s, i) == InOrder(At(f, i));
    ClimbingRises(last, s.q10);
    ClimbingRises(last, s.q50);
    ClimbingRises(last, s.q90);
  }

  /** Shape delivers what the kind implies exactly when every step has three quantiles or none. */
  lemma ShapeIsSoundIff(f: Forecast, kind: Kind, last: Number)
    requires WellFormed(f)
    ensures Sound(Shaped(f, kind, last), kind, last) <==> AllOrNone(f)
  {
    if AllOrNone(f) {
      ShapeIsSound(f, kind, last);
    }
    if Sound(Shaped(f, kind, last), kind, last) {
      forall i | 0 <= i < |f.q50|
        ensures Whole(At(f, i)) || Empty(At(f, i))
      {
        GapsStay(f, kind, last, i);
        assert Empty(At(Shaped(f, kind, last), i)) || Ordered(At(Shaped(f, kind, last), i));
      }
    }
  }

  /** y is the number of [0, 1] nearest to x; a gap stays one. */
  ghost predicate IsNearestShare(x: Number, y: Number) {
    && (x.None? <==> y.None?)
    && (y.Some? ==> 0.0 <= y.value <= 1.0 && forall z :: 0.0 <= z <= 1.0 ==> IsNearer(x.value, y.value, z))
  }

  predicate IsNearer(x: real, y: real, z: real) {
    (if y < x then x - y else y - x) <= (if z < x then x - z else z - x)
  }

  lemma ClampIsNearest(x: Number)
    ensures IsNearestShare(x, Clamp01(x))
  {
  }

  /** Beyond putting a step in order, a share of time is moved to the nearest that is one, and nothing but a
      state's or a counter's forecast is moved at all. */
  lemma ShapeMovesLeast(f: Forecast, kind: Kind, last: Number, i: nat)
    requires WellFormed(f) && i < |f.q50|
    ensures var b, c := InOrder(At(f, i)), At(Shaped(f, kind, last), i);
            && (kind == State ==>
                  IsNearestShare(b.lo, c.lo) && IsNearestShare(b.mid, c.mid) && IsNearestShare(b.hi, c.hi))
            && (kind != State && kind != Counter ==> c == b)
  {
    var b := InOrder(At(f, i));
    ClampIsNearest(b.lo);
    ClampIsNearest(b.mid);
    ClampIsNearest(b.hi);
  }

  lemma SortedFixesOrder(f: Forecast)
    requires InOrderEverywhere(f)
    ensures Sorted(f) == f
  {
    var s := Sorted(f);
    forall i | 0 <= i < |f.q50|
      ensures s.q10[i] == f.q10[i] && s.q50[i] == f.q50[i] && s.q90[i] == f.q90[i]
    {
      InOrderSorts(At(f, i));
      assert At(s, i) == At(f, i);
    }
  }

  lemma ClampedFixesShares(q: seq<Number>)
    requires Shares(q)
    ensures Clamped(q) == q
  {
  }

  lemma SoundIsFixed(f: Forecast, kind: Kind, last: Number)
    requires Sound(f, kind, last)
    ensures Shaped(f, kind, last) == f
  {
    SortedFixesOrder(f);
    if kind == Counter {
      ClimbingFixesRising(last, f.q10);
      ClimbingFixesRising(last, f.q50);
      ClimbingFixesRising(last, f.q90);
    } else if kind == State {
      ClampedFixesShares(f.q10);
      ClampedFixesShares(f.q50);
      ClampedFixesShares(f.q90);
    }
  }

  /** The forecasts Shape leaves alone are those that are already as the kind implies. */
  lemma ShapeFixesExactlySound(f: Forecast, kind: Kind, last: Number)
    requires AllOrNone(f)
    ensures Shaped(f, kind, last) == f <==> Sound(f, kind, last)
    ensures Shaped(Shaped(f, kind, last), kind, last) == Shaped(f, kind, last)
  {
    ShapeIsSound(f, kind, last);
    SoundIsFixed(Shaped(f, kind, last), kind, last);
    if Sound(f, kind, last) {
      SoundIsFixed(f, kind, last);
    }
  }

  // ------------------------------------------------------------- the method

  function Value(start: int, step: int, q10: seq<Number>, q50: seq<Number>, q90: seq<Number>): Forecast {
    Forecast(start, step, q10, q50, q90)
  }

  /** A forecast as the engines hand it over: three buffers, rewritten in place. */
  class Buffers {
    const start: int
    const step: int
    const q10: array<Number>
    const q50: array<Number>
    const q90: array<Number>

    ghost predicate Valid() {
      q10 != q50 && q50 != q90 && q10 != q90 && q10.Length == q50.Length == q90.Length
    }

    ghost function Forecast(): (f: Forecast)
      requires Valid()
      reads q10, q50, q90
      ensures WellFormed(f)
    {
      Value(start, step, q10[..], q50[..], q90[..])
    }

    constructor (f: Forecast)
      requires WellFormed(f)
      ensures Valid() && fresh(q10) && fresh(q50) && fresh(q90) && Forecast() == f
    {
      start, step := f.start, f.step;
      var n := |f.q50|;
      var a := new Number[n](i requires 0 <= i < n => f.q10[i]);
      var b := new Number[n](i requires 0 <= i < n => f.q50[i]);
      var c := new Number[n](i requires 0 <= i < n => f.q90[i]);
      q10, q50, q90 := a, b, c;
    }

    method Sort()
      requires Valid()
      modifies q10, q50, q90
      ensures Forecast() == Sorted(old(Forecast()))
    {
      for i := 0 to q50.Length
        invariant forall k :: 0 <= k < i ==> Band(q10[k], q50[k], q90[k]) == InOrder(old(Band(q10[k], q50[k], q90[k])))
        invariant forall k :: i <= k < q50.Length ==>
          q10[k] == old(q10[k]) && q50[k] == old(q50[k]) && q90[k] == old(q90[k])
      {
        var lo, mid, hi := q10[i], q50[i], q90[i];
        if Exceeds(lo, mid) { lo, mid := mid, lo; }
        if Exceeds(mid, hi) { mid, hi := hi, mid; }
        if Exceeds(lo, mid) { lo, mid := mid, lo; }
        q10[i], q50[i], q90[i] := lo, mid, hi;
      }
      var n := q50.Length;
      forall k | 0 <= k < n
        ensures q10[k] == Sorted(old(Forecast())).q10[k]
        ensures q50[k] == Sorted(old(Forecast())).q50[k]
        ensures q90[k] == Sorted(old(Forecast())).q90[k]
      {
        assert old(Band(q10[k], q50[k], q90[k])) == At(old(Forecast()), k);
      }
    }

    method Clamp()
      requires Valid()
      modifies q10, q50, q90
      ensures q10[..] == Clamped(old(q10[..])) && q50[..] == Clamped(old(q50[..])) && q90[..] == Clamped(old(q90[..]))
    {
      for i := 0 to q50.Length
        invariant forall k :: 0 <= k < i ==>
          q10[k] == Clamp01(old(q10[k])) && q50[k] == Clamp01(old(q50[k])) && q90[k] == Clamp01(old(q90[k]))
        invariant forall k :: i <= k < q50.Length ==>
          q10[k] == old(q10[k]) && q50[k] == old(q50[k]) && q90[k] == old(q90[k])
      {
        q10[i], q50[i], q90[i] := Clamp01(q10[i]), Clamp01(q50[i]), Clamp01(q90[i]);
      }
    }

    /** The first n entries have climbed. */
    ghost static predicate Climbed(q: seq<Number>, raw: seq<Number>, last: Number, n: nat) {
      |q| == |raw| && forall k :: 0 <= k < |q| ==> q[k] == if k < n then Climbing(last, raw)[k] else raw[k]
    }

    /** One entry is lifted to its floor, and the floor to the entry. */
    static method Lift(q: array<Number>, i: nat, floor: Number, ghost raw: seq<Number>, ghost last: Number)
      returns (floor': Number)
      requires i < q.Length && Climbed(q[..], raw, last, i) && floor == Floor(last, raw[..i])
      modifies q
      ensures floor' == Floor(last, raw[..i + 1]) && Climbed(q[..], raw, last, i + 1)
    {
      assert raw[..i + 1][..i] == raw[..i];
      assert q[..][i] == raw[i];
      floor' := floor;
      if q[i].Some? {
        if Exceeds(floor, q[i]) {
          q[i] := floor;
        }
        floor' := q[i];
      }
    }

    method Climb(last: Number)
      requires Valid()
      modifies q10, q50, q90
      ensures q10[..] == Climbing(last, old(q10[..])) && q50[..] == Climbing(last, old(q50[..]))
      ensures q90[..] == Climbing(last, old(q90[..]))
    {
      ghost var a, b, c := q10[..], q50[..], q90[..];
      var fa, fb, fc := last, last, last;
      for i := 0 to q50.Length
        invariant fa == Floor(last, a[..i]) && fb == Floor(last, b[..i]) && fc == Floor(last, c[..i])
        invariant Climbed(q10[..], a, last, i) && Climbed(q50[..], b, last, i) && Climbed(q90[..], c, last, i)
      {
        fa := Lift(q10, i, fa, a, last);
        fb := Lift(q50, i, fb, b, last);
        fc := Lift(q90, i, fc, c, last);
      }
    }

    /** Shape. */
    method Shape(kind: Kind, last: Number)
      requires Valid()
      modifies q10, q50, q90
      ensures Forecast() == Shaped(old(Forecast()), kind, last)
    {
      Sort();
      match kind
      case State => Clamp();
      case Counter => Climb(last);
      case _ =>
    }
  }
}
