/** Quantiles of sorted numbers by linear interpolation, as every band is measured with. */
module ForecastQuantile {

  ghost predicate Ascending(s: seq<real>) { forall i, j :: 0 <= i <= j < |s| ==> s[i] <= s[j] }

  function Insert(s: seq<real>, x: real): (r: seq<real>)
    ensures |r| == |s| + 1
  {
    if |s| == 0 || x <= s[0] then [x] + s else [s[0]] + Insert(s[1..], x)
  }

  /** sort.Float64s. */
  function Sort(s: seq<real>): (r: seq<real>)
    ensures |r| == |s|
  {
    if |s| == 0 then [] else Insert(Sort(s[..|s| - 1]), s[|s| - 1])
  }

  lemma {:induction false} InsertAscends(s: seq<real>, x: real)
    requires Ascending(s)
    ensures Ascending(Insert(s, x)) && multiset(Insert(s, x)) == multiset(s) + multiset{x}
  {
    if |s| > 0 && x > s[0] {
      InsertAscends(s[1..], x);
      assert s == [s[0]] + s[1..];
      var rest := Insert(s[1..], x);
      forall i | 0 <= i < |rest|
        ensures s[0] <= rest[i]
      {
        assert rest[i] in multiset(rest);
        assert rest[i] == x || rest[i] in s[1..];
      }
    }
  }

  lemma {:induction false} SortAscends(s: seq<real>)
    ensures Ascending(Sort(s)) && multiset(Sort(s)) == multiset(s)
  {
    if |s| > 0 {
      SortAscends(s[..|s| - 1]);
      InsertAscends(Sort(s[..|s| - 1]), s[|s| - 1]);
      assert s == s[..|s| - 1] + [s[|s| - 1]];
    }
  }

  /** A part w of the way from a to b. */
  function Mix(w: real, a: real, b: real): real { a + w * (b - a) }

  lemma MixAscends(w: real, w': real, a: real, b: real)
    requires w <= w' && a <= b
    ensures Mix(w, a, b) <= Mix(w', a, b)
  {
    Product(w' - w, b - a);
    assert w' * (b - a) == w * (b - a) + (w' - w) * (b - a);
  }

  lemma Product(x: real, y: real)
    requires x >= 0.0 && y >= 0.0
    ensures x * y >= 0.0
  {
  }

  lemma MixIsBetween(w: real, a: real, b: real)
    requires 0.0 <= w <= 1.0 && a <= b
    ensures a <= Mix(w, a, b) <= b
  {
    MixAscends(0.0, w, a, b);
    MixAscends(w, 1.0, a, b);
  }

  lemma MixOrders(w: real, a: real, b: real, a': real, b': real)
    requires 0.0 <= w <= 1.0 && a <= a' && b <= b'
    ensures Mix(w, a, b) <= Mix(w, a', b')
  {
    Product(1.0 - w, a' - a);
    Product(w, b' - b);
    assert Mix(w, a', b') - Mix(w, a, b) == (1.0 - w) * (a' - a) + w * (b' - b);
  }

  /** The value at a fractional position. */
  function AtPosition(s: seq<real>, pos: real): real
    requires |s| > 0 && 0.0 <= pos <= (|s| - 1) as real
  {
    var lo := pos.Floor;
    if pos == lo as real then s[lo] else Mix(pos - lo as real, s[lo], s[lo + 1])
  }

  /** Where the quantile q of n numbers stands. */
  function Position(n: nat, q: real): (p: real)
    requires n > 0 && 0.0 <= q <= 1.0
    ensures 0.0 <= p <= (n - 1) as real
  {
    Product(q, (n - 1) as real);
    Product(1.0 - q, (n - 1) as real);
    q * (n - 1) as real
  }

  /** quantile; a single number is every quantile. */
  function Quantile(s: seq<real>, q: real): real
    requires |s| > 0 && 0.0 <= q <= 1.0
  {
    AtPosition(s, Position(|s|, q))
  }

  /** Between its neighbours. */
  lemma PositionBetween(s: seq<real>, pos: real)
    requires |s| > 0 && 0.0 <= pos <= (|s| - 1) as real && Ascending(s)
    ensures s[pos.Floor] <= AtPosition(s, pos)
    ensures pos.Floor + 1 < |s| ==> AtPosition(s, pos) <= s[pos.Floor + 1]
    ensures pos.Floor + 1 == |s| ==> AtPosition(s, pos) == s[pos.Floor]
  {
    var lo := pos.Floor;
    if pos != lo as real {
      assert lo + 1 < |s|;
      MixIsBetween(pos - lo as real, s[lo], s[lo + 1]);
    }
  }

  lemma PositionsAscend(s: seq<real>, p: real, p': real)
    requires |s| > 0 && 0.0 <= p <= p' <= (|s| - 1) as real && Ascending(s)
    ensures AtPosition(s, p) <= AtPosition(s, p')
  {
    PositionBetween(s, p);
    PositionBetween(s, p');
    var lo, lo' := p.Floor, p'.Floor;
    assert lo <= lo';
    if lo < lo' {
      assert s[lo + 1] <= s[lo'];
    } else if p != lo as real {
      MixAscends(p - lo as real, p' - lo as real, s[lo], s[lo + 1]);
    }
  }

  lemma PositionGrows(n: nat, q: real, q': real)
    requires n > 0 && 0.0 <= q <= q' <= 1.0
    ensures Position(n, q) <= Position(n, q')
  {
    Product(q' - q, (n - 1) as real);
    assert q' * (n - 1) as real == q * (n - 1) as real + (q' - q) * (n - 1) as real;
  }

  /** A higher quantile is a higher number, and both are among the numbers' extremes. */
  lemma QuantilesAscend(s: seq<real>, q: real, q': real)
    requires |s| > 0 && 0.0 <= q <= q' <= 1.0 && Ascending(s)
    ensures s[0] <= Quantile(s, q) <= Quantile(s, q') <= s[|s| - 1]
  {
    PositionGrows(|s|, q, q');
    PositionsAscend(s, Position(|s|, q), Position(|s|, q'));
    PositionsAscend(s, 0.0, Position(|s|, q));
    PositionsAscend(s, Position(|s|, q'), (|s| - 1) as real);
  }
}
