/** The two shift calendars.

`On` tells the model which steps a shift covers, `CurrentShift` gives the period totals the
shift's bounds. A local day starts at `midnight[d]` and may be longer or shorter than 24
hours where the clocks change. */
module ForecastCalendar {
  import opened Options

  /** Offsets since local midnight; end <= start runs past midnight. */
  datatype Shift = Shift(name: string, start: int, end: int, weekdays: set<int>)

  datatype Window = Window(name: string, start: int, end: int)

  /** A place's days: day d lasts from Midnight(d) to Midnight(d + 1). */
  datatype Zone = Zone(midnight: int -> int) {
    function Midnight(d: int): int { midnight(d) }
    function Length(d: int): int { Midnight(d + 1) - Midnight(d) }
  }

  ghost predicate IsZone(z: Zone) { forall d :: z.Midnight(d) < z.Midnight(d + 1) }

  function Weekday(d: int): int { d % 7 }

  /** t is a moment of day d. */
  predicate OfDay(z: Zone, d: int, t: int) { z.Midnight(d) <= t < z.Midnight(d + 1) }

  /** on. */
  method On(z: Zone, shifts: seq<Shift>, d: int, t: int) returns (r: bool)
    requires OfDay(z, d, t)
    ensures r <==> exists i :: 0 <= i < |shifts| && Covers(shifts[i], d, t - z.Midnight(d))
  {
    var since := t - z.Midnight(d);
    for i := 0 to |shifts|
      invariant forall k :: 0 <= k < i ==> !Covers(shifts[k], d, since)
    {
      var s := shifts[i];
      if s.end > s.start {
        if Weekday(d) in s.weekdays && since >= s.start && since < s.end {
          return true;
        }
        continue;
      }
      if Weekday(d) in s.weekdays && since >= s.start {
        return true;
      }
      if Weekday(d - 1) in s.weekdays && since < s.end {
        return true;
      }
    }
    return false;
  }

  /** A shift that starts on day d, and one that started the day before and goes on. */
  predicate StartedToday(s: Shift, d: int, since: int) {
    Weekday(d) in s.weekdays && s.start <= since && (s.end > s.start ==> since < s.end)
  }

  predicate StartedYesterday(s: Shift, d: int, since: int) {
    s.end <= s.start && Weekday(d - 1) in s.weekdays && since < s.end
  }

  predicate Covers(s: Shift, d: int, since: int) { StartedToday(s, d, since) || StartedYesterday(s, d, since) }

  /** The occurrence of a shift that starts on a day, with its bounds. */
  function Occurrence(z: Zone, s: Shift, day: int): Window {
    Window(s.name, z.Midnight(day) + s.start,
           if s.end > s.start then z.Midnight(day) + s.end else z.Midnight(day + 1) + s.end)
  }

  function WindowOf(z: Zone, s: Shift, d: int, since: int): Window {
    Occurrence(z, s, if StartedToday(s, d, since) then d else d - 1)
  }

  /** Shift i is the first of the list that is on. */
  predicate IsFirst(shifts: seq<Shift>, d: int, since: int, i: int) {
    0 <= i < |shifts| && Covers(shifts[i], d, since) && forall k :: 0 <= k < i ==> !Covers(shifts[k], d, since)
  }

  /** currentShift. */
  method CurrentShift(z: Zone, shifts: seq<Shift>, d: int, t: int) returns (w: Option<Window>)
    requires OfDay(z, d, t)
    ensures w.None? <==> forall i :: 0 <= i < |shifts| ==> !Covers(shifts[i], d, t - z.Midnight(d))
    ensures w.Some? ==>
      exists i :: IsFirst(shifts, d, t - z.Midnight(d), i) && w.value == WindowOf(z, shifts[i], d, t - z.Midnight(d))
  {
    var since := t - z.Midnight(d);
    for i := 0 to |shifts|
      invariant forall k :: 0 <= k < i ==> !Covers(shifts[k], d, since)
    {
      var s := shifts[i];
      if s.end > s.start {
        if Weekday(d) !in s.weekdays || since < s.start || since >= s.end {
          continue;
        }
        assert IsFirst(shifts, d, since, i);
        return Some(Window(s.name, z.Midnight(d) + s.start, z.Midnight(d) + s.end));
      } else if Weekday(d) in s.weekdays && since >= s.start {
        assert IsFirst(shifts, d, since, i);
        return Some(Window(s.name, z.Midnight(d) + s.start, z.Midnight(d + 1) + s.end));
      } else if Weekday(d - 1) in s.weekdays && since < s.end {
        assert IsFirst(shifts, d, since, i);
        return Some(Window(s.name, z.Midnight(d - 1) + s.start, z.Midnight(d) + s.end));
      }
    }
    return None;
  }

  predicate Contains(w: Window, t: int) { w.start <= t < w.end }

  /** Offsets within a day; a shift past midnight starts before the day it starts on is over. */
  ghost predicate Fits(z: Zone, s: Shift) {
    0 <= s.start && 0 <= s.end && forall d :: s.end <= s.start && s.end > 0 && Weekday(d) in s.weekdays ==>
      s.start <= z.Length(d)
  }

  /** The window of a shift that is on contains the moment. */
  lemma WindowContains(z: Zone, s: Shift, d: int, t: int)
    requires IsZone(z) && OfDay(z, d, t) && Fits(z, s) && Covers(s, d, t - z.Midnight(d))
    ensures Contains(WindowOf(z, s, d, t - z.Midnight(d)), t)
  {
    assert z.Midnight(d - 1 + 1) == z.Midnight(d);
    if !StartedToday(s, d, t - z.Midnight(d)) {
      assert s.start <= z.Length(d - 1);
    }
  }

  /** Asked at the same moment, the two calendars agree, and the bounds are around the moment. */
  method CalendarsAgree(z: Zone, shifts: seq<Shift>, d: int, t: int) returns (r: bool, w: Option<Window>)
    requires IsZone(z) && OfDay(z, d, t) && forall i :: 0 <= i < |shifts| ==> Fits(z, shifts[i])
    ensures r == w.Some?
    ensures w.Some? ==> Contains(w.value, t)
  {
    r := On(z, shifts, d, t);
    w := CurrentShift(z, shifts, d, t);
    if w.Some? {
      ghost var i :| IsFirst(shifts, d, t - z.Midnight(d), i)
        && w.value == WindowOf(z, shifts[i], d, t - z.Midnight(d));
      WindowContains(z, shifts[i], d, t);
    }
  }

  /** Every window contains the moments it is given for exactly when the shift fits the days. */
  lemma WindowsContainIff(z: Zone, s: Shift)
    requires IsZone(z) && 0 <= s.start && 0 <= s.end
    ensures Fits(z, s) <==> forall d, t :: OfDay(z, d, t) && Covers(s, d, t - z.Midnight(d)) ==>
                                             Contains(WindowOf(z, s, d, t - z.Midnight(d)), t)
  {
    if Fits(z, s) {
      forall d, t | OfDay(z, d, t) && Covers(s, d, t - z.Midnight(d))
        ensures Contains(WindowOf(z, s, d, t - z.Midnight(d)), t)
      {
        WindowContains(z, s, d, t);
      }
    } else {
      var d :| s.end <= s.start && s.end > 0 && Weekday(d) in s.weekdays && s.start > z.Length(d);
      var t := z.Midnight(d + 1);
      assert t < z.Midnight(d + 1 + 1);
      assert OfDay(z, d + 1, t) && StartedYesterday(s, d + 1, 0);
      assert Covers(s, d + 1, t - z.Midnight(d + 1)) && !Contains(WindowOf(z, s, d + 1, t - z.Midnight(d + 1)), t);
    }
  }

  /** A shift is on at a moment exactly when one of its occurrences contains it, when no
      occurrence outlasts the day after the one it starts on and days are long enough. */
  lemma CoversIsAnOccurrence(z: Zone, s: Shift, d: int, t: int)
    requires IsZone(z) && OfDay(z, d, t) && 0 <= s.start && 0 <= s.end
    requires forall e :: s.start <= z.Length(e) && s.end <= z.Length(e)
    ensures Covers(s, d, t - z.Midnight(d))
      <==> exists e :: Weekday(e) in s.weekdays && Contains(Occurrence(z, s, e), t)
  {
    var since := t - z.Midnight(d);
    if StartedToday(s, d, since) {
      assert Contains(Occurrence(z, s, d), t);
    } else if StartedYesterday(s, d, since) {
      assert s.start <= z.Length(d - 1);
      assert Contains(Occurrence(z, s, d - 1), t);
    }
    if e :| Weekday(e) in s.weekdays && Contains(Occurrence(z, s, e), t) {
      if e > d {
        MidnightsRise(z, d + 1, e);
      } else if e < d - 1 {
        MidnightsRise(z, e + 2, d);
        assert s.end <= z.Length(e) && s.end <= z.Length(e + 1);
      }
    }
  }

  lemma {:induction false} MidnightsRise(z: Zone, a: int, b: int)
    requires IsZone(z) && a <= b
    ensures z.Midnight(a) <= z.Midnight(b)
    decreases b - a
  {
    if a < b {
      MidnightsRise(z, a, b - 1);
      assert z.Midnight(b - 1) < z.Midnight(b - 1 + 1);
    }
  }
}
