/** The organizations a text names, said on its characters: what a blank, a figure and a field are, and which
number a field stands for. */
module OrgText {
  import opened Options
  import opened OrgIds

  // ---------------------------------------------------------------- blanks

  /** The characters with the Unicode property White_Space. */
  predicate IsBlank(c: char) {
    var u := c as int;
    9 <= u <= 13 || 0x2000 <= u <= 0x200a || u in {0x20, 0x85, 0xa0, 0x1680, 0x2028, 0x2029, 0x202f, 0x205f, 0x3000}
  }

  predicate AllBlank(s: string) { forall i :: 0 <= i < |s| ==> IsBlank(s[i]) }

  lemma SpaceIsBlank(c: char)
    ensures IsSpace(c) <==> IsBlank(c)
  {
  }

  /** Nothing but blanks stand before a and from b on, and none at the ends between. */
  ghost predicate IsTrimmed(f: string, a: int, b: int) {
    && 0 <= a <= b <= |f| && AllBlank(f[..a]) && AllBlank(f[b..])
    && (a < b ==> !IsBlank(f[a]) && !IsBlank(f[b - 1]))
  }

  lemma TrimmedAfter(f: string, a: int, b: int)
    requires |f| > 0 && IsBlank(f[0]) && IsTrimmed(f[1..], a, b)
    ensures IsTrimmed(f, a + 1, b + 1)
  {
    assert f[..a + 1] == [f[0]] + f[1..][..a] && f[b + 1..] == f[1..][b..];
  }

  lemma TrimmedBefore(f: string, a: int, b: int)
    requires |f| > 0 && IsBlank(f[|f| - 1]) && IsTrimmed(f[..|f| - 1], a, b)
    ensures IsTrimmed(f, a, b)
  {
    var init := f[..|f| - 1];
    assert f[..a] == init[..a] && f[b..] == init[b..] + [f[|f| - 1]];
  }

  lemma NothingToTrim(f: string)
    requires |f| > 0 ==> !IsBlank(f[0]) && !IsBlank(f[|f| - 1])
    ensures IsTrimmed(f, 0, |f|) && f[0..|f|] == f
  {
  }

  lemma {:induction false} TrimIsTrimmed(f: string)
    ensures exists a, b :: IsTrimmed(f, a, b) && TrimSpace(f) == f[a..b]
  {
    if |f| > 0 && IsSpace(f[0]) {
      var rest := f[1..];
      TrimIsTrimmed(rest);
      var a, b :| IsTrimmed(rest, a, b) && TrimSpace(rest) == rest[a..b];
      SpaceIsBlank(f[0]);
      assert f[a + 1..b + 1] == rest[a..b];
      TrimmedAfter(f, a, b);
    } else if |f| > 0 && IsSpace(f[|f| - 1]) {
      var init := f[..|f| - 1];
      TrimIsTrimmed(init);
      var a, b :| IsTrimmed(init, a, b) && TrimSpace(init) == init[a..b];
      SpaceIsBlank(f[|f| - 1]);
      assert f[a..b] == init[a..b];
      TrimmedBefore(f, a, b);
    } else {
      NothingToTrim(f);
    }
  }

  lemma BlankOutside(f: string, a: int, b: int)
    requires 0 <= a <= b <= |f| && AllBlank(f[..a]) && AllBlank(f[b..])
    ensures forall i :: 0 <= i < a || b <= i < |f| ==> IsBlank(f[i])
  {
    forall i | 0 <= i < a || b <= i < |f|
      ensures IsBlank(f[i])
    {
      assert f[i] == if i < a then f[..a][i] else f[b..][i - b];
    }
  }

  /** There is one way to trim what is not all blank. */
  lemma TrimmedOnce(f: string, a: int, b: int, a': int, b': int)
    requires IsTrimmed(f, a, b) && IsTrimmed(f, a', b') && a < b
    ensures a == a' && b == b'
  {
    BlankOutside(f, a, b);
    BlankOutside(f, a', b');
  }

  // --------------------------------------------------------------- numbers

  predicate IsFigure(c: char) { 48 <= c as int <= 57 }

  function Tens(k: nat): nat { if k == 0 then 1 else 10 * Tens(k - 1) }

  /** The figures by their places, the first the highest. */
  function Places(d: string): int {
    if |d| == 0 then 0 else (d[0] as int - 48) * Tens(|d| - 1) + Places(d[1..])
  }

  lemma {:induction false} PlacesSnoc(d: string)
    requires |d| > 0
    ensures Places(d) == 10 * Places(d[..|d| - 1]) + (d[|d| - 1] as int - 48)
  {
    if |d| == 1 {
      assert d[1..] == "" && d[..0] == "";
    } else {
      var init, rest := d[..|d| - 1], d[1..];
      assert init[1..] == rest[..|rest| - 1];
      PlacesSnoc(rest);
      TenTimes(d[0] as int - 48, Tens(|d| - 2));
    }
  }

  lemma TenTimes(x: int, t: int)
    ensures x * (10 * t) == 10 * (x * t)
  {
  }

  lemma {:induction false} ValueIsPlaces(d: string)
    requires AllDigits(d)
    ensures Value(d) == Places(d)
  {
    if |d| > 0 {
      ValueIsPlaces(d[..|d| - 1]);
      PlacesSnoc(d);
    }
  }

  predicate IsSigned(t: string) { |t| > 0 && (t[0] == '-' || t[0] == '+') }

  /** An optional sign and figures, standing for a number of 64 bits. */
  predicate IsNumber(t: string, n: int) {
    var d := if IsSigned(t) then t[1..] else t;
    && |d| > 0 && AllFigures(d)
    && n == (if t[0] == '-' then -Places(d) else Places(d))
    && -9223372036854775808 <= n <= 9223372036854775807
  }

  predicate AllFigures(d: string) { forall i :: 0 <= i < |d| ==> IsFigure(d[i]) }

  lemma FigureIsDigit(c: char)
    ensures IsFigure(c) <==> IsDigit(c)
    ensures IsFigure(c) || c == '-' || c == '+' ==> !IsBlank(c)
  {
  }

  lemma FiguresAreDigits(d: string)
    ensures AllFigures(d) <==> AllDigits(d)
  {
    forall i | 0 <= i < |d|
      ensures IsFigure(d[i]) <==> IsDigit(d[i])
    {
      FigureIsDigit(d[i]);
    }
  }

  /** Exactly those are read, as the numbers they stand for. */
  lemma AtoiIff(t: string, n: Int64)
    ensures Atoi(t) == Some(n) <==> IsNumber(t, n)
  {
    var d := if IsSigned(t) then t[1..] else t;
    assert d == Unsigned(t);
    FiguresAreDigits(d);
    if AllDigits(d) {
      ValueIsPlaces(d);
    }
  }

  /** A field stands for a number with blanks around it. */
  ghost predicate Denotes(f: string, n: int) {
    exists a, b :: IsWithin(f, a, b, n)
  }

  predicate IsWithin(f: string, a: int, b: int, n: int) {
    0 <= a <= b <= |f| && AllBlank(f[..a]) && AllBlank(f[b..]) && IsNumber(f[a..b], n)
  }

  lemma NumberIsTrimmed(f: string, a: int, b: int, n: int)
    requires IsWithin(f, a, b, n)
    ensures a < b && IsTrimmed(f, a, b)
  {
    var t := f[a..b];
    var d := if IsSigned(t) then t[1..] else t;
    assert f[a] == t[0] && f[b - 1] == t[|t| - 1] == d[|d| - 1];
    FigureIsDigit(t[0]);
    FigureIsDigit(d[|d| - 1]);
    assert IsSigned(t) || t[0] == d[0];
  }

  lemma NamesIff(f: string, n: Int64)
    ensures Names(f, n) <==> n > 0 && Denotes(f, n)
  {
    TrimIsTrimmed(f);
    var a, b :| IsTrimmed(f, a, b) && TrimSpace(f) == f[a..b];
    AtoiIff(f[a..b], n);
    if IsNumber(f[a..b], n) {
      assert IsWithin(f, a, b, n);
    }
    if Denotes(f, n) {
      var a', b' :| IsWithin(f, a', b', n);
      NumberIsTrimmed(f, a', b', n);
      TrimmedOnce(f, a', b', a, b);
    }
  }

  // ---------------------------------------------------------------- fields

  /** From i to j there is no comma, and one on either side or the end of the text. */
  predicate IsField(s: string, i: int, j: int) {
    && 0 <= i <= j <= |s| && (i == 0 || s[i - 1] == ',') && (j == |s| || s[j] == ',')
    && forall k :: i <= k < j ==> s[k] != ','
  }

  /** f is a field that starts at `from` or later. */
  ghost predicate HasField(s: string, f: string, from: int) {
    exists i, j :: from <= i && IsField(s, i, j) && f == s[i..j]
  }

  lemma FieldStepIff(s: string, i: int, j: int)
    requires |s| > 0 && i >= 1
    ensures IsField(s, i, j) <==> IsField(s[1..], i - 1, j - 1) && (i == 1 ==> s[0] == ',')
    ensures IsField(s, i, j) ==> s[i..j] == s[1..][i - 1..j - 1]
  {
    var r := s[1..];
    assert forall k :: 1 <= k < |s| ==> s[k] == r[k - 1];
    if IsField(r, i - 1, j - 1) {
      forall k | i <= k < j
        ensures s[k] != ','
      {
        assert r[k - 1] != ',';
      }
    }
  }

  lemma HasFieldStep(s: string, f: string, from: nat)
    requires |s| > 0
    ensures HasField(s, f, from + 1) ==> HasField(s[1..], f, from)
    ensures (from > 0 || s[0] == ',') && HasField(s[1..], f, from) ==> HasField(s, f, from + 1)
  {
    if HasField(s, f, from + 1) {
      var i, j :| from + 1 <= i && IsField(s, i, j) && f == s[i..j];
      FieldStepIff(s, i, j);
    }
    if (from > 0 || s[0] == ',') && HasField(s[1..], f, from) {
      var i, j :| from <= i && IsField(s[1..], i, j) && f == s[1..][i..j];
      FieldStepIff(s, i + 1, j + 1);
      assert s[i + 1..j + 1] == s[1..][i..j];
    }
  }

  /** Without a comma in front no field starts at 1. */
  lemma NoFieldAtOne(s: string, f: string)
    requires |s| > 0 && s[0] != ','
    ensures HasField(s, f, 1) <==> HasField(s, f, 2)
  {
  }

  lemma FirstOnce(s: string, j: int, f: string)
    requires IsField(s, 0, j)
    ensures HasField(s, f, 0) <==> f == s[..j] || HasField(s, f, 1)
  {
    assert s[0..j] == s[..j];
    if HasField(s, f, 0) && !HasField(s, f, 1) {
      var i', j' :| 0 <= i' && IsField(s, i', j') && f == s[i'..j'];
      assert i' == 0 && j' == j;
    }
  }

  lemma {:induction false} FirstField(s: string)
    ensures exists j :: IsField(s, 0, j) && Split(s)[0] == s[..j]
  {
    if |s| == 0 || s[0] == ',' {
      assert IsField(s, 0, 0) && s[..0] == "";
    } else {
      FirstField(s[1..]);
      var j :| IsField(s[1..], 0, j) && Split(s[1..])[0] == s[1..][..j];
      assert forall k :: 1 <= k < j + 1 ==> s[k] == s[1..][k - 1];
      assert IsField(s, 0, j + 1) && s[..j + 1] == [s[0]] + s[1..][..j];
    }
  }

  lemma {:induction false} LaterFields(s: string, f: string)
    ensures f in Split(s)[1..] <==> HasField(s, f, 1)
  {
    if |s| > 0 {
      var rest := Split(s[1..]);
      LaterFields(s[1..], f);
      if s[0] == ',' {
        assert ([""] + rest)[1..] == rest == [rest[0]] + rest[1..];
        FirstField(s[1..]);
        var j :| IsField(s[1..], 0, j) && rest[0] == s[1..][..j];
        FirstOnce(s[1..], j, f);
        HasFieldStep(s, f, 0);
      } else {
        assert ([[s[0]] + rest[0]] + rest[1..])[1..] == rest[1..];
        HasFieldStep(s, f, 1);
        NoFieldAtOne(s, f);
      }
    }
  }

  /** The fields are the pieces between the commas. */
  lemma FieldsIff(s: string, f: string)
    ensures f in Split(s) <==> HasField(s, f, 0)
  {
    FirstField(s);
    LaterFields(s, f);
    var j :| IsField(s, 0, j) && Split(s)[0] == s[..j];
    FirstOnce(s, j, f);
    assert Split(s) == [Split(s)[0]] + Split(s)[1..];
  }

  // ------------------------------------------------------------ both ways

  /** Some piece between the commas stands for the number. */
  ghost predicate NamesIt(s: string, n: int) { exists f :: HasField(s, f, 0) && Denotes(f, n) }

  lemma NamedIff(s: string, n: Int64)
    ensures (exists f :: f in Split(s) && Names(f, n)) <==> n > 0 && NamesIt(s, n)
  {
    if f :| f in Split(s) && Names(f, n) {
      FieldsIff(s, f);
      NamesIff(f, n);
    }
    if n > 0 && NamesIt(s, n) {
      var f :| HasField(s, f, 0) && Denotes(f, n);
      FieldsIff(s, f);
      NamesIff(f, n);
    }
  }

  /** The parsed list holds, from the smallest to the largest, the positive numbers that stand between the
      commas. */
  lemma ParseIsRight(s: string, r: seq<Int64>)
    ensures r == Parse(s) <==>
            && (forall i, j :: 0 <= i < j < |r| ==> r[i] < r[j])
            && (forall n: Int64 :: n in r <==> n > 0 && NamesIt(s, n))
  {
    forall n: Int64
      ensures (exists f :: f in Split(s) && Names(f, n)) <==> n > 0 && NamesIt(s, n)
    {
      NamedIff(s, n);
    }
    ParseLists(s, r);
    assert Increasing(r) <==> forall i, j :: 0 <= i < j < |r| ==> r[i] < r[j];
  }

  /** A numeral as one writes it: figures only, and no zero in front. */
  predicate IsPlain(t: string, n: int) {
    |t| > 0 && t[0] != '0' && AllFigures(t) && n == Places(t)
  }

  lemma {:induction false} DigitsArePlain(n: nat)
    requires n > 0
    ensures IsPlain(Digits(n), n)
  {
    ValueOfDigits(n);
    ValueIsPlaces(Digits(n));
    FiguresAreDigits(Digits(n));
    if n >= 10 {
      DigitsArePlain(n / 10);
    }
  }

  /** The printed form holds the positive ids in plain numerals, from the smallest to the largest, with commas
      between them. */
  lemma FormatIsRight(ids: seq<Int64>) returns (r: seq<Int64>)
    ensures (forall i, j :: 0 <= i < j < |r| ==> r[i] < r[j]) && forall n: Int64 :: n in r <==> n in ids && n > 0
    ensures Format(ids) == Join(Numerals(r))
    ensures |r| == 0 ==> Format(ids) == ""
    ensures |r| > 0 ==> Split(Format(ids)) == Numerals(r)
    ensures forall k :: 0 <= k < |r| ==> IsPlain(Numerals(r)[k], r[k])
  {
    r := Parse(Join(Numerals(ids)));
    ParsedNumerals(ids, r);
    forall k | 0 <= k < |r|
      ensures IsPlain(Numerals(r)[k], r[k]) && NoComma(Numerals(r)[k])
    {
      assert r[k] in r;
      DigitsArePlain(r[k]);
      TrimOfNumeral(r[k]);
    }
    if |r| > 0 {
      SplitOfJoin(Numerals(r));
    }
  }

  lemma OneMoreField(fields: seq<string>, f: string, n: Int64)
    requires Atoi(TrimSpace(f)) == Some(n) && n > 0
    ensures ParseFields(fields + [f]) == Insert(ParseFields(fields), n)
  {
    assert (fields + [f])[..|fields|] == fields;
  }

  lemma SmallNumerals()
    ensures Atoi(TrimSpace("1")) == Some(1) && Atoi(TrimSpace(" 1")) == Some(1) && Atoi(TrimSpace("3")) == Some(3)
  {
    AtoiOfItoa(1);
    AtoiOfItoa(3);
    assert TrimSpace("1") == "1" == Itoa(1) && TrimSpace("3") == "3" == Itoa(3);
    assert " 1"[1..] == "1";
  }

  lemma ExampleFields()
    ensures Split("3, 1,3") == ["3"] + [" 1"] + ["3"]
  {
    var fields := ["3", " 1", "3"];
    assert fields[1..][1..] == ["3"] && fields[1..] == [" 1", "3"];
    assert Join(["3"]) == "3" && Join([" 1", "3"]) == " 1,3" && Join(fields) == "3, 1,3";
    SplitOfJoin(fields);
  }

  /** Blanks and repeats go, and the ids are sorted. */
  lemma Example()
    ensures Parse("3, 1,3") == [1, 3]
  {
    ExampleFields();
    SmallNumerals();
    assert ParseFields([]) == [];
    OneMoreField([], "3", 3);
    assert [] + ["3"] == ["3"];
    OneMoreField(["3"], " 1", 1);
    OneMoreField(["3"] + [" 1"], "3", 3);
    assert Insert([3], 1) == [1, 3];
    assert [1, 3][1..] == [3];
  }
}
