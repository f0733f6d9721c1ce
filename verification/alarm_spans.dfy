/** Excursions of one rule, read off the readings of a batch.

A mark is what a reading means to a rule: when it was taken, whether it violates the rule and
whether it passes the clearing test. `RunFrom` follows the rule through the marks as a batch
does; `Ends` and `EndsAtOnce` say on the marks alone when an alarm is raised and ended within
them, and when it is raised and dropped because it lasted no time. */
module AlarmSpans {

  datatype Mark = Mark(at: int, violates: bool, clears: bool)

  datatype State = Idle | Waiting(since: int) | Open(firedAt: int)

  /** What a reading makes of the rule. */
  function Next(delay: int, s: State, m: Mark): State {
    if m.violates then
      match s
      case Open(_) => s
      case Waiting(since) => if m.at - since >= delay then Open(since + delay) else s
      case Idle => if 0 >= delay then Open(m.at + delay) else Waiting(m.at)
    else
      match s
      case Open(_) => if m.clears then Idle else s
      case _ => Idle
  }

  predicate Closes(s: State, m: Mark) { s.Open? && !m.violates && m.clears && m.at > s.firedAt }
  predicate Drops(s: State, m: Mark) { s.Open? && !m.violates && m.clears && m.at <= s.firedAt }

  function RunFrom(delay: int, s: State, ms: seq<Mark>): State {
    if |ms| == 0 then s else Next(delay, RunFrom(delay, s, ms[..|ms| - 1]), ms[|ms| - 1])
  }

  /** How many alarms end within the marks, and how many are dropped. */
  function Closings(delay: int, s: State, ms: seq<Mark>): nat {
    if |ms| == 0 then 0
    else
      var n := |ms| - 1;
      Closings(delay, s, ms[..n]) + if Closes(RunFrom(delay, s, ms[..n]), ms[n]) then 1 else 0
  }

  function Dropped(delay: int, s: State, ms: seq<Mark>): nat {
    if |ms| == 0 then 0
    else
      var n := |ms| - 1;
      Dropped(delay, s, ms[..n]) + if Drops(RunFrom(delay, s, ms[..n]), ms[n]) then 1 else 0
  }

  predicate InOrder(ms: seq<Mark>) {
    && (forall i, j :: 0 <= i < j < |ms| ==> ms[i].at <= ms[j].at)
    && forall i :: 0 <= i < |ms| && ms[i].violates ==> !ms[i].clears
  }

  // -------------------------------------------------------- said of the marks

  /** Marks j to m violate in a row, and the one before them does not. */
  predicate Streak(ms: seq<Mark>, j: int, m: int) {
    && 0 <= j <= m < |ms| && (forall i :: j <= i <= m ==> ms[i].violates)
    && (j > 0 ==> !ms[j - 1].violates)
  }

  /** And do so for the delay. */
  predicate Due(delay: int, ms: seq<Mark>, j: int, m: int) {
    Streak(ms, j, m) && ms[m].at - ms[j].at >= delay
  }

  /** No mark strictly between m and n clears. */
  predicate Quiet(ms: seq<Mark>, m: int, n: int) {
    forall i :: m < i < n && 0 <= i < |ms| ==> !ms[i].clears
  }

  /** An alarm due at m ends with mark n, after it began. */
  predicate EndsAt(delay: int, ms: seq<Mark>, j: int, m: int, n: int) {
    Due(delay, ms, j, m) && m < n < |ms| && ms[n].clears && Quiet(ms, m, n) && ms[n].at > ms[j].at + delay
  }

  /** Some streak of violating readings lasts for the delay, and the first reading after it
      that clears is later than the alarm. */
  ghost predicate Ends(delay: int, ms: seq<Mark>) { exists j, m, n :: EndsAt(delay, ms, j, m, n) }

  /** Nothing from before j is still open there. */
  ghost predicate NoneOpen(delay: int, ms: seq<Mark>, j: int) {
    forall j', m' :: Due(delay, ms, j', m') && m' < j ==> !Quiet(ms, m', j)
  }

  /** Mark m is the one that raises an alarm, for the streak from j. */
  ghost predicate Raises(delay: int, ms: seq<Mark>, j: int, m: int) {
    && Due(delay, ms, j, m) && NoneOpen(delay, ms, j)
    && forall m' :: j <= m' < m ==> !Due(delay, ms, j, m')
  }

  ghost predicate EndsAtOnceAt(delay: int, ms: seq<Mark>, j: int, m: int, n: int) {
    && Raises(delay, ms, j, m) && m < n < |ms| && ms[n].clears && Quiet(ms, m, n)
    && ms[n].at == ms[m].at == ms[j].at + delay
  }

  /** The reading that raises an alarm, exactly the delay after its streak began, and the first
      one after it that clears have the same time. */
  ghost predicate EndsAtOnce(delay: int, ms: seq<Mark>) { exists j, m, n :: EndsAtOnceAt(delay, ms, j, m, n) }

  // ------------------------------------------------------------- the state

  /** The state after the first n marks. */
  function At(delay: int, ms: seq<Mark>, n: nat): State
    requires n <= |ms|
  {
    RunFrom(delay, Idle, ms[..n])
  }

  lemma AtNext(delay: int, ms: seq<Mark>, n: nat)
    requires n < |ms|
    ensures At(delay, ms, n + 1) == Next(delay, At(delay, ms, n), ms[n])
  {
    assert ms[..n + 1][..n] == ms[..n];
  }

  ghost predicate WaitingFrom(delay: int, ms: seq<Mark>, n: nat, since: int, j: int) {
    0 < n <= |ms| && Streak(ms, j, n - 1) && since == ms[j].at && ms[n - 1].at - since < delay
  }

  ghost predicate OpenFrom(delay: int, ms: seq<Mark>, n: nat, firedAt: int, j: int, m: int) {
    Raises(delay, ms, j, m) && m < n && Quiet(ms, m, n) && firedAt == ms[j].at + delay
  }

  /** What the state says about the marks. */
  ghost predicate StateTells(delay: int, ms: seq<Mark>, n: nat)
    requires n <= |ms|
  {
    match At(delay, ms, n)
    case Idle => true
    case Waiting(since) => exists j :: WaitingFrom(delay, ms, n, since, j)
    case Open(firedAt) => exists j, m :: OpenFrom(delay, ms, n, firedAt, j, m)
  }

  /** What a streak up to now says about the state. */
  ghost predicate StreakTells(delay: int, ms: seq<Mark>, n: nat, j: int)
    requires n <= |ms|
  {
    var s := At(delay, ms, n);
    Streak(ms, j, n - 1) ==>
      || (s.Waiting? && s.since == ms[j].at && ms[n - 1].at - ms[j].at < delay)
      || (s.Open? && s.firedAt <= ms[j].at + delay)
  }

  /** What a streak that was due and has not been cleared says. */
  ghost predicate DueTells(delay: int, ms: seq<Mark>, n: nat, j: int, m: int)
    requires n <= |ms|
  {
    var s := At(delay, ms, n);
    Due(delay, ms, j, m) && m < n && Quiet(ms, m, n) ==> s.Open? && s.firedAt <= ms[j].at + delay
  }

  ghost predicate Inv(delay: int, ms: seq<Mark>, n: nat)
    requires n <= |ms|
  {
    && StateTells(delay, ms, n)
    && (forall j :: StreakTells(delay, ms, n, j))
    && (forall j, m :: DueTells(delay, ms, n, j, m))
  }

  lemma StreakNext(delay: int, ms: seq<Mark>, n: nat, j: int)
    requires InOrder(ms) && n < |ms| && Inv(delay, ms, n)
    ensures StreakTells(delay, ms, n + 1, j)
  {
    AtNext(delay, ms, n);
    if Streak(ms, j, n) {
      if j < n {
        assert Streak(ms, j, n - 1);
        assert StreakTells(delay, ms, n, j);
      } else {
        match At(delay, ms, n) {
          case Idle =>
          case Waiting(since) =>
          case Open(firedAt) =>
            var j', m' :| OpenFrom(delay, ms, n, firedAt, j', m');
        }
      }
    }
  }

  lemma DueNext(delay: int, ms: seq<Mark>, n: nat, j: int, m: int)
    requires InOrder(ms) && n < |ms| && Inv(delay, ms, n)
    ensures DueTells(delay, ms, n + 1, j, m)
  {
    AtNext(delay, ms, n);
    if Due(delay, ms, j, m) && m < n + 1 && Quiet(ms, m, n + 1) {
      if m == n {
        StreakNext(delay, ms, n, j);
      } else {
        assert !ms[n].clears;
        assert Quiet(ms, m, n);
        assert DueTells(delay, ms, n, j, m);
      }
    }
  }

  /** Firing at n raises an alarm there. */
  lemma RaisesHere(delay: int, ms: seq<Mark>, n: nat, j: int)
    requires InOrder(ms) && n < |ms| && Inv(delay, ms, n) && !At(delay, ms, n).Open?
    requires Due(delay, ms, j, n) && (j < n ==> ms[n - 1].at - ms[j].at < delay)
    ensures OpenFrom(delay, ms, n + 1, ms[j].at + delay, j, n)
  {
    forall j', m' | Due(delay, ms, j', m') && m' < j
      ensures !Quiet(ms, m', j)
    {
      assert DueTells(delay, ms, n, j', m');
      assert Quiet(ms, m', j) ==> Quiet(ms, m', n);
    }
    forall m' | j <= m' < n
      ensures !Due(delay, ms, j, m')
    {
      assert ms[m'].at <= ms[n - 1].at;
    }
  }

  lemma ViolationIsTracked(delay: int, ms: seq<Mark>, n: nat)
    requires InOrder(ms) && 0 < n <= |ms| && Inv(delay, ms, n) && ms[n - 1].violates
    ensures !At(delay, ms, n).Idle?
  {
    var j := StreakStart(ms, n - 1);
    assert StreakTells(delay, ms, n, j);
  }

  lemma StateNext(delay: int, ms: seq<Mark>, n: nat)
    requires InOrder(ms) && n < |ms| && Inv(delay, ms, n)
    ensures StateTells(delay, ms, n + 1)
  {
    AtNext(delay, ms, n);
    if n > 0 && ms[n - 1].violates {
      ViolationIsTracked(delay, ms, n);
    }
    match At(delay, ms, n) {
      case Idle =>
        if ms[n].violates {
          assert Streak(ms, n, n);
          if 0 >= delay {
            RaisesHere(delay, ms, n, n);
          } else {
            assert WaitingFrom(delay, ms, n + 1, ms[n].at, n);
          }
        }
      case Waiting(since) =>
        var j :| WaitingFrom(delay, ms, n, since, j);
        if ms[n].violates {
          if ms[n].at - since >= delay {
            RaisesHere(delay, ms, n, j);
          } else {
            assert WaitingFrom(delay, ms, n + 1, since, j);
          }
        }
      case Open(firedAt) =>
        var j, m :| OpenFrom(delay, ms, n, firedAt, j, m);
        if ms[n].violates || !ms[n].clears {
          assert OpenFrom(delay, ms, n + 1, firedAt, j, m);
        }
    }
  }

  /** A violating mark belongs to a streak. */
  lemma {:induction false} StreakStart(ms: seq<Mark>, m: nat) returns (j: nat)
    requires m < |ms| && ms[m].violates
    ensures Streak(ms, j, m)
  {
    if m == 0 || !ms[m - 1].violates {
      j := m;
    } else {
      j := StreakStart(ms, m - 1);
    }
  }

  lemma {:induction false} StatesTell(delay: int, ms: seq<Mark>, n: nat)
    requires InOrder(ms) && n <= |ms|
    ensures Inv(delay, ms, n)
  {
    if n > 0 {
      StatesTell(delay, ms, n - 1);
      StateNext(delay, ms, n - 1);
      forall j
        ensures StreakTells(delay, ms, n, j)
      {
        StreakNext(delay, ms, n - 1, j);
      }
      forall j, m
        ensures DueTells(delay, ms, n, j, m)
      {
        DueNext(delay, ms, n - 1, j, m);
      }
    }
  }

  // ------------------------------------------------------------- theorems

  ghost predicate EndsBefore(delay: int, ms: seq<Mark>, b: int) {
    exists j, m, n :: n < b && EndsAt(delay, ms, j, m, n)
  }

  ghost predicate EndsAtOnceBefore(delay: int, ms: seq<Mark>, b: int) {
    exists j, m, n :: n < b && EndsAtOnceAt(delay, ms, j, m, n)
  }

  /** An alarm ends with mark n exactly when the marks say so. */
  lemma ClosesIff(delay: int, ms: seq<Mark>, n: nat)
    requires InOrder(ms) && n < |ms|
    ensures Closes(At(delay, ms, n), ms[n]) <==> exists j, m :: EndsAt(delay, ms, j, m, n)
  {
    StatesTell(delay, ms, n);
    var s := At(delay, ms, n);
    if Closes(s, ms[n]) {
      var j, m :| OpenFrom(delay, ms, n, s.firedAt, j, m);
      assert EndsAt(delay, ms, j, m, n);
    }
    if j, m :| EndsAt(delay, ms, j, m, n) {
      assert DueTells(delay, ms, n, j, m);
    }
  }

  lemma OneRaiser(delay: int, ms: seq<Mark>, n: nat, j: int, m: int, j': int, m': int)
    requires Raises(delay, ms, j, m) && Raises(delay, ms, j', m') && m < n && m' < n && Quiet(ms, m, n)
    requires Quiet(ms, m', n)
    ensures j == j'
  {
    if j < j' {
      assert m < j';
      assert Quiet(ms, m, j');
    } else if j' < j {
      assert m' < j;
      assert Quiet(ms, m', j);
    }
  }

  lemma DropsIff(delay: int, ms: seq<Mark>, n: nat)
    requires InOrder(ms) && n < |ms|
    ensures Drops(At(delay, ms, n), ms[n]) <==> exists j, m :: EndsAtOnceAt(delay, ms, j, m, n)
  {
    StatesTell(delay, ms, n);
    var s := At(delay, ms, n);
    if s.Open? {
      var j, m :| OpenFrom(delay, ms, n, s.firedAt, j, m);
      if Drops(s, ms[n]) {
        assert EndsAtOnceAt(delay, ms, j, m, n);
      }
      if j', m' :| EndsAtOnceAt(delay, ms, j', m', n) {
        OneRaiser(delay, ms, n, j, m, j', m');
      }
    } else if j', m' :| EndsAtOnceAt(delay, ms, j', m', n) {
      assert DueTells(delay, ms, n, j', m');
    }
  }

  lemma {:induction false} CountsIff(delay: int, ms: seq<Mark>, n: nat)
    requires InOrder(ms) && n <= |ms|
    ensures Closings(delay, Idle, ms[..n]) > 0 <==> EndsBefore(delay, ms, n)
    ensures Dropped(delay, Idle, ms[..n]) > 0 <==> EndsAtOnceBefore(delay, ms, n)
  {
    if n > 0 {
      CountsIff(delay, ms, n - 1);
      assert ms[..n][..n - 1] == ms[..n - 1];
      ClosesIff(delay, ms, n - 1);
      DropsIff(delay, ms, n - 1);
    }
  }

  /** From nothing, an alarm is raised and ended within the marks exactly when the marks say so. */
  lemma ClosingsIff(delay: int, ms: seq<Mark>)
    requires InOrder(ms)
    ensures Closings(delay, Idle, ms) > 0 <==> Ends(delay, ms)
    ensures Dropped(delay, Idle, ms) > 0 <==> EndsAtOnce(delay, ms)
  {
    CountsIff(delay, ms, |ms|);
    assert ms[..|ms|] == ms;
  }

  // ------------------------------------------------- after an alarm found open

  lemma {:induction false} RunConcat(delay: int, s: State, a: seq<Mark>, b: seq<Mark>)
    ensures RunFrom(delay, s, a + b) == RunFrom(delay, RunFrom(delay, s, a), b)
    ensures Closings(delay, s, a + b) == Closings(delay, s, a) + Closings(delay, RunFrom(delay, s, a), b)
    ensures Dropped(delay, s, a + b) == Dropped(delay, s, a) + Dropped(delay, RunFrom(delay, s, a), b)
  {
    if |b| == 0 {
      assert a + b == a;
    } else {
      RunConcat(delay, s, a, b[..|b| - 1]);
      assert (a + b)[..|a + b| - 1] == a + b[..|b| - 1];
    }
  }

  /** The first mark that clears; as many as there are when none does. */
  function FirstClear(ms: seq<Mark>): (c: nat)
    ensures c <= |ms| && (c < |ms| ==> ms[c].clears) && forall i :: 0 <= i < c ==> !ms[i].clears
  {
    if |ms| == 0 then 0
    else
      var n := |ms| - 1;
      var c := FirstClear(ms[..n]);
      if c < n then c else if ms[n].clears then n else n + 1
  }

  /** The marks after the first that clears. */
  function AfterFirst(ms: seq<Mark>): seq<Mark> { if FirstClear(ms) < |ms| then ms[FirstClear(ms) + 1..] else [] }

  /** After the first reading that clears, a further alarm is raised and ended. */
  ghost predicate EndsAgain(delay: int, ms: seq<Mark>) { Ends(delay, AfterFirst(ms)) }

  lemma {:induction false} OpenStays(delay: int, s: State, ms: seq<Mark>)
    requires s.Open? && forall i :: 0 <= i < |ms| ==> !ms[i].clears
    ensures RunFrom(delay, s, ms) == s && Closings(delay, s, ms) == 0 && Dropped(delay, s, ms) == 0
  {
    if |ms| > 0 {
      OpenStays(delay, s, ms[..|ms| - 1]);
    }
  }

  /** An alarm found open, through the marks up to the first that clears. */
  lemma OpenUntil(delay: int, firedAt: int, ms: seq<Mark>, c: nat)
    requires InOrder(ms) && c == FirstClear(ms) < |ms|
    ensures var head, s := ms[..c + 1], Open(firedAt);
            && RunFrom(delay, s, head) == Idle
            && Closings(delay, s, head) == (if ms[c].at > firedAt then 1 else 0)
            && Dropped(delay, s, head) == (if ms[c].at > firedAt then 0 else 1)
  {
    var head := ms[..c + 1];
    assert head[..c] == ms[..c];
    OpenStays(delay, Open(firedAt), ms[..c]);
  }

  /** An alarm found open, through all the marks: its own end, and what the later ones make from nothing. */
  lemma OpenThrough(delay: int, firedAt: int, ms: seq<Mark>)
    requires InOrder(ms)
    ensures var c, s, rest := FirstClear(ms), Open(firedAt), AfterFirst(ms);
            && Closings(delay, s, ms) == Closings(delay, Idle, rest) + (if c < |ms| && ms[c].at > firedAt then 1 else 0)
            && Dropped(delay, s, ms) == Dropped(delay, Idle, rest) + (if c < |ms| && ms[c].at <= firedAt then 1 else 0)
  {
    if FirstClear(ms) < |ms| {
      OpenPast(delay, firedAt, ms, FirstClear(ms));
    } else {
      OpenNever(delay, firedAt, ms);
    }
  }

  lemma OpenNever(delay: int, firedAt: int, ms: seq<Mark>)
    requires FirstClear(ms) == |ms|
    ensures AfterFirst(ms) == [] && Closings(delay, Open(firedAt), ms) == 0 && Dropped(delay, Open(firedAt), ms) == 0
  {
    OpenStays(delay, Open(firedAt), ms);
  }

  lemma OpenPast(delay: int, firedAt: int, ms: seq<Mark>, c: nat)
    requires InOrder(ms) && c == FirstClear(ms) < |ms|
    ensures var s, rest := Open(firedAt), ms[c + 1..];
            && Closings(delay, s, ms) == Closings(delay, Idle, rest) + (if ms[c].at > firedAt then 1 else 0)
            && Dropped(delay, s, ms) == Dropped(delay, Idle, rest) + (if ms[c].at <= firedAt then 1 else 0)
  {
    OpenUntil(delay, firedAt, ms, c);
    RunSplit(delay, Open(firedAt), ms, c + 1);
  }

  lemma RunSplit(delay: int, s: State, ms: seq<Mark>, n: nat)
    requires n <= |ms|
    ensures Closings(delay, s, ms) == Closings(delay, s, ms[..n]) + Closings(delay, RunFrom(delay, s, ms[..n]), ms[n..])
    ensures Dropped(delay, s, ms) == Dropped(delay, s, ms[..n]) + Dropped(delay, RunFrom(delay, s, ms[..n]), ms[n..])
  {
    SplitAt(ms, n);
    RunConcat(delay, s, ms[..n], ms[n..]);
  }

  lemma AfterFirstInOrder(ms: seq<Mark>)
    requires InOrder(ms)
    ensures InOrder(AfterFirst(ms))
  {
    if FirstClear(ms) < |ms| {
      TailInOrder(ms, FirstClear(ms) + 1);
    }
  }

  lemma TailInOrder(ms: seq<Mark>, n: nat)
    requires InOrder(ms) && n <= |ms|
    ensures InOrder(ms[n..])
  {
    var t := ms[n..];
    assert forall i :: 0 <= i < |t| ==> t[i] == ms[n + i];
  }

  lemma SplitAt(ms: seq<Mark>, n: nat)
    requires n <= |ms|
    ensures ms[..n] + ms[n..] == ms
  {
  }

  /** An alarm found open, and no reading that clears as early as it: it ends twice or more exactly
      when the marks say that another one ends after it. */
  lemma EndsTwiceIff(delay: int, firedAt: int, ms: seq<Mark>)
    requires InOrder(ms) && forall i :: 0 <= i < |ms| && ms[i].clears ==> ms[i].at > firedAt
    ensures Closings(delay, Open(firedAt), ms) >= 2 <==> EndsAgain(delay, ms)
  {
    OpenThrough(delay, firedAt, ms);
    AfterFirstInOrder(ms);
    ClosingsIff(delay, AfterFirst(ms));
  }

  // ------------------------------------------ after an excursion already under way

  /** How many marks violate before the first that does not. */
  function StreakLength(ms: seq<Mark>): (c: nat)
    ensures c <= |ms| && (c < |ms| ==> !ms[c].violates) && forall i :: 0 <= i < c ==> ms[i].violates
  {
    if |ms| == 0 then 0
    else
      var n := |ms| - 1;
      var c := StreakLength(ms[..n]);
      if c < n then c else if ms[n].violates then n + 1 else n
  }

  /** The marks after the first that does not violate. */
  function AfterStreak(ms: seq<Mark>): seq<Mark> { if StreakLength(ms) < |ms| then ms[StreakLength(ms) + 1..] else [] }

  /** The excursion goes on for the delay. */
  predicate Lasts(delay: int, since: int, ms: seq<Mark>) {
    StreakLength(ms) > 0 && ms[StreakLength(ms) - 1].at - since >= delay
  }

  lemma {:induction false} WaitingUntil(delay: int, since: int, ms: seq<Mark>, n: nat)
    requires InOrder(ms) && n <= StreakLength(ms)
    ensures Dropped(delay, Waiting(since), ms[..n]) == 0
    ensures RunFrom(delay, Waiting(since), ms[..n])
            == if n > 0 && ms[n - 1].at - since >= delay then Open(since + delay) else Waiting(since)
  {
    if n > 0 {
      WaitingUntil(delay, since, ms, n - 1);
      assert ms[..n][..n - 1] == ms[..n - 1];
    }
  }

  /** An excursion that lasts is an alarm found open; one that does not leaves nothing behind. */
  lemma WaitingThrough(delay: int, since: int, ms: seq<Mark>)
    requires InOrder(ms)
    ensures Dropped(delay, Waiting(since), ms)
            == if Lasts(delay, since, ms)
               then Dropped(delay, Open(since + delay), ms) else Dropped(delay, Idle, AfterStreak(ms))
  {
    var c := StreakLength(ms);
    WaitingUntil(delay, since, ms, c);
    if Lasts(delay, since, ms) {
      OpenStays(delay, Open(since + delay), ms[..c]);
      RunSplit(delay, Waiting(since), ms, c);
      RunSplit(delay, Open(since + delay), ms, c);
    } else if c < |ms| {
      assert ms[..c + 1][..c] == ms[..c];
      RunSplit(delay, Waiting(since), ms, c + 1);
    } else {
      assert ms[..c] == ms;
    }
  }

  /** The marks after all that becomes of an alarm found open or an excursion found under way. */
  function Rest(delay: int, s: State, ms: seq<Mark>): seq<Mark> {
    match s
    case Idle => ms
    case Waiting(since) => if Lasts(delay, since, ms) then AfterFirst(ms) else AfterStreak(ms)
    case Open(_) => AfterFirst(ms)
  }

  predicate ClearsBy(firedAt: int, ms: seq<Mark>) { FirstClear(ms) < |ms| && ms[FirstClear(ms)].at <= firedAt }

  /** The first of the marks that clears is no later than that alarm. */
  predicate ClearsEarly(delay: int, s: State, ms: seq<Mark>) {
    match s
    case Idle => false
    case Waiting(since) => Lasts(delay, since, ms) && ClearsBy(since + delay, ms)
    case Open(firedAt) => ClearsBy(firedAt, ms)
  }

  /** Some alarm of the marks lasts no time: one found open, or come of an excursion found under
      way, and cleared no later than it was fired; or one raised and cleared by readings of the
      same time. */
  ghost predicate EndsAtOnceFrom(delay: int, s: State, ms: seq<Mark>) {
    ClearsEarly(delay, s, ms) || EndsAtOnce(delay, Rest(delay, s, ms))
  }

  lemma DroppedFrom(delay: int, s: State, ms: seq<Mark>)
    requires InOrder(ms)
    ensures Dropped(delay, s, ms)
            == Dropped(delay, Idle, Rest(delay, s, ms)) + if ClearsEarly(delay, s, ms) then 1 else 0
  {
    match s {
      case Idle =>
      case Waiting(since) =>
        WaitingThrough(delay, since, ms);
        OpenThrough(delay, since + delay, ms);
      case Open(firedAt) => OpenThrough(delay, firedAt, ms);
    }
  }

  lemma DroppedIff(delay: int, s: State, ms: seq<Mark>)
    requires InOrder(ms)
    ensures Dropped(delay, s, ms) > 0 <==> EndsAtOnceFrom(delay, s, ms)
  {
    DroppedFrom(delay, s, ms);
    RestInOrder(delay, s, ms);
    ClosingsIff(delay, Rest(delay, s, ms));
  }

  lemma RestInOrder(delay: int, s: State, ms: seq<Mark>)
    requires InOrder(ms)
    ensures InOrder(Rest(delay, s, ms))
  {
    AfterFirstInOrder(ms);
    AfterStreakInOrder(ms);
  }

  lemma AfterStreakInOrder(ms: seq<Mark>)
    requires InOrder(ms)
    ensures InOrder(AfterStreak(ms))
  {
    if StreakLength(ms) < |ms| {
      TailInOrder(ms, StreakLength(ms) + 1);
    }
  }
}
