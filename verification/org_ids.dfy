/** The organizations that accept writes from the cloud: a comma-separated list of ids.

Splitting, trimming and decimal numerals are written out, so that the round trip is about
the text itself: signs, leading zeroes, blanks, numbers too large for 64 bits, empty fields. */
module OrgIds {
  import opened Options

  const MAX_INT: int := 0x7fff_ffff_ffff_ffff

  type Int64 = n: int | -MAX_INT - 1 <= n <= MAX_INT

  // -------------------------------------------------------------- numerals

  predicate IsDigit(c: char) { '0' <= c <= '9' }

  function DigitOf(d: nat): (c: char)
    requires d < 10
    ensures IsDigit(c) && c as int - '0' as int == d
  {
    '0' + d as char
  }

  predicate AllDigits(s: string) { forall i :: 0 <= i < |s| ==> IsDigit(s[i]) }

  function Value(s: string): nat
    requires AllDigits(s)
  {
    if |s| == 0 then 0 else 10 * Value(s[..|s| - 1]) + (s[|s| - 1] as int - '0' as int)
  }

  function Digits(n: nat): (s: string)
    ensures AllDigits(s) && |s| > 0
  {
    if n < 10 then [DigitOf(n)] else Digits(n / 10) + [DigitOf(n % 10)]
  }

  /** strconv.Itoa. */
  function Itoa(n: Int64): string { if n < 0 then "-" + Digits(0 - n) else Digits(n) }

  function Unsigned(s: string): string { if |s| > 0 && (s[0] == '-' || s[0] == '+') then s[1..] else s }

  /** strconv.Atoi: an optional sign, decimal digits, within 64 bits. */
  function Atoi(s: string): Option<Int64> {
    var body := Unsigned(s);
    if |body| == 0 || !AllDigits(body) then None
    else if s[0] == '-' then
      if Value(body) > MAX_INT + 1 then None else Some(0 - Value(body))
    else
      if Value(body) > MAX_INT then None else Some(Value(body))
  }

  lemma {:induction false} ValueOfDigits(n: nat)
    ensures Value(Digits(n)) == n
  {
    if n >= 10 {
      ValueOfDigits(n / 10);
      assert Digits(n)[..|Digits(n)| - 1] == Digits(n / 10);
    }
  }

  /** Every 64-bit integer is read back from its numeral. */
  lemma AtoiOfItoa(n: Int64)
    ensures Atoi(Itoa(n)) == Some(n)
  {
    var abs: nat := if n < 0 then 0 - n else n;
    ValueOfDigits(abs);
    assert IsDigit(Digits(abs)[0]);
    assert Unsigned(Itoa(n)) == Digits(abs);
  }

  // ---------------------------------------------------------------- fields

  /** unicode.IsSpace. */
  predicate IsSpace(c: char) {
    c == ' ' || '\t' <= c <= '\r' || c == '\U{85}' || c == '\U{A0}' || c == '\U{1680}' || '\U{2000}' <= c <= '\U{200A}'
    || c == '\U{2028}' || c == '\U{2029}' || c == '\U{202F}' || c == '\U{205F}' || c == '\U{3000}'
  }

  /** strings.TrimSpace. */
  function TrimSpace(s: string): (r: string) {
    if |s| > 0 && IsSpace(s[0]) then TrimSpace(s[1..])
    else if |s| > 0 && IsSpace(s[|s| - 1]) then TrimSpace(s[..|s| - 1])
    else s
  }

  predicate NoComma(s: string) { forall i :: 0 <= i < |s| ==> s[i] != ',' }

  /** strings.Split at the commas. */
  function Split(s: string): (fields: seq<string>)
    ensures |fields| > 0
  {
    if |s| == 0 then [""]
    else
      var rest := Split(s[1..]);
      if s[0] == ',' then [""] + rest else [[s[0]] + rest[0]] + rest[1..]
  }

  /** strings.Join with commas. */
  function Join(fields: seq<string>): string {
    if |fields| == 0 then "" else if |fields| == 1 then fields[0] else fields[0] + "," + Join(fields[1..])
  }

  lemma {:induction false} SplitAfter(a: string, s: string)
    requires NoComma(a)
    ensures Split(a + s) == [a + Split(s)[0]] + Split(s)[1..]
  {
    if |a| == 0 {
      assert a + s == s;
      assert a + Split(s)[0] == Split(s)[0];
    } else {
      assert (a + s)[1..] == a[1..] + s && (a + s)[0] == a[0];
      SplitAfter(a[1..], s);
      assert [a[0]] + (a[1..] + Split(s)[0]) == a + Split(s)[0];
    }
  }

  /** Splitting undoes joining of fields without commas. */
  lemma {:induction false} SplitOfJoin(fields: seq<string>)
    requires |fields| > 0 && forall i :: 0 <= i < |fields| ==> NoComma(fields[i])
    ensures Split(Join(fields)) == fields
  {
    if |fields| == 1 {
      SplitAfter(fields[0], "");
      assert fields[0] + "" == fields[0];
    } else {
      var tail := "," + Join(fields[1..]);
      assert Join(fields) == fields[0] + tail;
      SplitAfter(fields[0], tail);
      assert tail[1..] == Join(fields[1..]);
      SplitOfJoin(fields[1..]);
      assert fields[0] + "" == fields[0];
      assert fields == [fields[0]] + fields[1..];
    }
  }

  /** And joining undoes splitting, of any text. */
  lemma {:induction false} JoinOfSplit(s: string)
    ensures Join(Split(s)) == s
  {
    if |s| > 0 {
      JoinOfSplit(s[1..]);
      var rest := Split(s[1..]);
      if s[0] == ',' {
        assert ([""] + rest)[1..] == rest;
        assert Join([""] + rest) == "" + "," + Join(rest);
        assert s == "," + s[1..];
      } else {
        assert ([[s[0]] + rest[0]] + rest[1..])[1..] == rest[1..];
        assert s == [s[0]] + s[1..];
      }
    }
  }

  // ------------------------------------------------------------ the list

  ghost predicate Increasing(r: seq<Int64>) { forall i, j :: 0 <= i < j < |r| ==> r[i] < r[j] }

  /** A field of the list that names an organization. */
  predicate Names(f: string, n: Int64) { Atoi(TrimSpace(f)) == Some(n) && n > 0 }

  /** r lists, in increasing order, exactly the ids the text names. */
  ghost predicate Lists(s: string, r: seq<Int64>) {
    && Increasing(r)
    && (forall n: Int64 :: n in r <==> exists f :: f in Split(s) && Names(f, n))
  }

  /** r lists, in increasing order, exactly the positive ids among ids. */
  ghost predicate Canonical(ids: seq<Int64>, r: seq<Int64>) {
    && Increasing(r)
    && (forall n: Int64 :: n in r <==> n in ids && n > 0)
  }

  /** An id put in its place among increasing ids. */
  function Insert(r: seq<Int64>, n: Int64): (r': seq<Int64>) {
    if |r| == 0 || n < r[0] then [n] + r
    else if n == r[0] then r
    else [r[0]] + Insert(r[1..], n)
  }

  function ParseFields(fields: seq<string>): seq<Int64> {
    if |fields| == 0 then []
    else
      var before := ParseFields(fields[..|fields| - 1]);
      var number := Atoi(TrimSpace(fields[|fields| - 1]));
      if number == None || number.value <= 0 then before else Insert(before, number.value)
  }

  function Parse(s: string): seq<Int64> { ParseFields(Split(s)) }

  function Format(ids: seq<Int64>): string { Join(Numerals(Parse(Join(Numerals(ids))))) }

  lemma {:induction false} InsertIsIncreasing(r: seq<Int64>, n: Int64)
    requires Increasing(r)
    ensures Increasing(Insert(r, n)) && forall m: Int64 :: m in Insert(r, n) <==> m == n || m in r
  {
    if |r| > 0 {
      assert r == [r[0]] + r[1..];
      if n > r[0] {
        InsertIsIncreasing(r[1..], n);
        var rest := Insert(r[1..], n);
        assert forall i :: 0 <= i < |rest| ==> rest[i] in rest;
      }
    }
  }

  lemma {:induction false} FieldsAreListed(fields: seq<string>)
    ensures Increasing(ParseFields(fields))
    ensures forall n: Int64 :: n in ParseFields(fields) <==> exists f :: f in fields && Names(f, n)
  {
    if |fields| > 0 {
      var init, last := fields[..|fields| - 1], fields[|fields| - 1];
      FieldsAreListed(init);
      assert fields == init + [last];
      var number := Atoi(TrimSpace(last));
      if number != None && number.value > 0 {
        InsertIsIncreasing(ParseFields(init), number.value);
        assert Names(last, number.value);
      }
    }
  }

  /** The text's ids, and nothing but: the one increasing list of what its fields name. */
  lemma ParseLists(s: string, r: seq<Int64>)
    ensures Lists(s, r) <==> r == Parse(s)
  {
    FieldsAreListed(Split(s));
    if Lists(s, r) {
      IncreasingIsUnique(r, Parse(s));
    }
  }

  function Numerals(ids: seq<Int64>): (r: seq<string>)
    ensures |r| == |ids| && forall i :: 0 <= i < |ids| ==> r[i] == Itoa(ids[i])
  {
    if |ids| == 0 then [] else Numerals(ids[..|ids| - 1]) + [Itoa(ids[|ids| - 1])]
  }

  /** There is one increasing sequence of given elements. */
  lemma {:induction false} IncreasingIsUnique(a: seq<Int64>, b: seq<Int64>)
    requires Increasing(a) && Increasing(b) && forall n: Int64 :: n in a <==> n in b
    ensures a == b
  {
    Distinct(a);
    Distinct(b);
    assert Elements(a) == Elements(b);
    if |a| > 0 {
      assert a[0] in b;
      assert b[0] in a;
      assert a[0] == b[0];
      var a', b' := a[1..], b[1..];
      forall n: Int64
        ensures n in a' <==> n in b'
      {
        assert n in a' <==> n in a && n != a[0];
        assert n in b' <==> n in b && n != b[0];
      }
      IncreasingIsUnique(a', b');
      assert a == [a[0]] + a' && b == [b[0]] + b';
    }
  }

  lemma TrimOfNumeral(n: Int64)
    ensures TrimSpace(Itoa(n)) == Itoa(n) && NoComma(Itoa(n))
  {
    var s := Itoa(n);
    var d := Digits(if n < 0 then 0 - n else n);
    assert IsDigit(d[0]) && IsDigit(d[|d| - 1]);
    assert s[|s| - 1] == d[|d| - 1];
  }

  /** The printed ids name exactly the positive ones. */
  lemma NumeralsName(ids: seq<Int64>, n: Int64)
    ensures (exists f :: f in Split(Join(Numerals(ids))) && Names(f, n)) <==> n in ids && n > 0
  {
    if |ids| == 0 {
      assert Split("") == [""];
      assert TrimSpace("") == "";
    } else {
      var fields := Numerals(ids);
      forall i | 0 <= i < |ids|
        ensures NoComma(fields[i]) && (Names(fields[i], n) <==> ids[i] == n && n > 0)
      {
        TrimOfNumeral(ids[i]);
        AtoiOfItoa(ids[i]);
      }
      SplitOfJoin(fields);
      if n in ids && n > 0 {
        var i :| 0 <= i < |ids| && ids[i] == n;
        assert fields[i] in fields && Names(fields[i], n);
      }
    }
  }

  lemma ParsedNumerals(ids: seq<Int64>, r: seq<Int64>)
    ensures r == Parse(Join(Numerals(ids))) <==> Canonical(ids, r)
  {
    forall n: Int64
      ensures (exists f :: f in Split(Join(Numerals(ids))) && Names(f, n)) <==> n in ids && n > 0
    {
      NumeralsName(ids, n);
    }
    ParseLists(Join(Numerals(ids)), r);
  }

  /** Parsing the printed form of any list gives its positive ids, sorted, once each. */
  lemma ParseOfFormat(ids: seq<Int64>)
    ensures Canonical(ids, Parse(Format(ids)))
  {
    var clean := Parse(Join(Numerals(ids)));
    ParsedNumerals(ids, clean);
    ParsedNumerals(clean, Parse(Format(ids)));
  }

  /** A list that is already sorted, positive and without repeats comes back as it is. */
  lemma ParseOfFormatExact(ids: seq<Int64>)
    ensures Parse(Format(ids)) == ids <==> Increasing(ids) && forall n: Int64 :: n in ids ==> n > 0
  {
    ParseOfFormat(ids);
    if Increasing(ids) && forall n: Int64 :: n in ids ==> n > 0 {
      IncreasingIsUnique(ids, Parse(Format(ids)));
    }
  }

  /** Whatever the text is, what it parses to survives being printed, and the printed text is
      what that prints to ever after. */
  lemma FormatOfParse(s: string)
    ensures Parse(Format(Parse(s))) == Parse(s)
    ensures Format(Parse(Format(Parse(s)))) == Format(Parse(s))
  {
    ParseLists(s, Parse(s));
    ParseOfFormatExact(Parse(s));
  }

  /** Two lists print alike exactly when they hold the same positive ids. */
  lemma FormatTellsSets(a: seq<Int64>, b: seq<Int64>)
    ensures Format(a) == Format(b) <==> forall n: Int64 :: n > 0 ==> (n in a <==> n in b)
  {
    ParseOfFormat(a);
    ParseOfFormat(b);
    if forall n: Int64 :: n > 0 ==> (n in a <==> n in b) {
      var x, y := Parse(Join(Numerals(a))), Parse(Join(Numerals(b)));
      ParsedNumerals(a, x);
      ParsedNumerals(b, y);
      IncreasingIsUnique(x, y);
    } else {
      assert Parse(Format(a)) != Parse(Format(b));
    }
  }

  /** No more ids come back than went in: distinct ids are at most as many as the list they are from. */
  lemma CanonicalIsShort(ids: seq<Int64>, r: seq<Int64>)
    requires Canonical(ids, r)
    ensures |r| <= |ids|
  {
    Distinct(r);
    Listing(ids);
    assert Elements(ids) == Elements(r) + (Elements(ids) - Elements(r));
  }

  function Elements(s: seq<Int64>): set<Int64> { set n | n in s }

  lemma ElementsSnoc(s: seq<Int64>)
    requires |s| > 0
    ensures Elements(s) == Elements(s[..|s| - 1]) + {s[|s| - 1]}
  {
    assert s == s[..|s| - 1] + [s[|s| - 1]];
  }

  lemma {:induction false} Distinct(r: seq<Int64>)
    requires Increasing(r)
    ensures |Elements(r)| == |r|
  {
    if |r| > 0 {
      Distinct(r[..|r| - 1]);
      ElementsSnoc(r);
      assert r[|r| - 1] !in Elements(r[..|r| - 1]);
    }
  }

  lemma {:induction false} Listing(ids: seq<Int64>)
    ensures |Elements(ids)| <= |ids|
  {
    if |ids| > 0 {
      Listing(ids[..|ids| - 1]);
      ElementsSnoc(ids);
    }
  }

  // ------------------------------------------------------- the operations

  /** sort.Ints, on distinct numbers. */
  method SortInts(s: seq<Int64>) returns (r: seq<Int64>)
    ensures Increasing(r) && forall n: Int64 :: n in r <==> n in s
  {
    r := [];
    for k := 0 to |s|
      invariant Increasing(r) && forall n: Int64 :: n in r <==> n in s[..k]
    {
      InsertIsIncreasing(r, s[k]);
      r := Insert(r, s[k]);
      assert s[..k + 1] == s[..k] + [s[k]];
    }
    assert s[..|s|] == s;
  }

  /** ParseOrgIDList. */
  method ParseOrgIDList(s: string) returns (out: seq<Int64>)
    ensures out == Parse(s)
  {
    var fields := Split(s);
    var seen: set<Int64> := {};
    out := [];
    for k := 0 to |fields|
      invariant forall n: Int64 :: n in seen <==> n in out
      invariant forall n: Int64 :: n in out <==> exists f :: f in fields[..k] && Names(f, n)
      invariant forall i, j :: 0 <= i < j < |out| ==> out[i] != out[j]
    {
      assert fields[..k + 1] == fields[..k] + [fields[k]];
      var number := Atoi(TrimSpace(fields[k]));
      if number == None || number.value <= 0 || number.value in seen {
        continue;
      }
      seen := seen + {number.value};
      out := out + [number.value];
      assert Names(fields[k], number.value);
    }
    assert fields[..|fields|] == fields;
    out := SortInts(out);
    ParseLists(s, out);
  }

  /** Prints ids into the first entries of a buffer. */
  method PrintInto(parts: array<string>, ids: seq<Int64>)
    requires |ids| <= parts.Length
    modifies parts
    ensures parts[..|ids|] == Numerals(ids)
  {
    for i := 0 to |ids|
      invariant forall k :: 0 <= k < i ==> parts[k] == Itoa(ids[k])
    {
      parts[i] := Itoa(ids[i]);
    }
  }

  /** FormatOrgIDList: the parts of the first printing are overwritten by those of the second. */
  method FormatOrgIDList(ids: seq<Int64>) returns (s: string)
    ensures s == Format(ids)
  {
    var parts := new string[|ids|];
    PrintInto(parts, ids);
    var clean := ParseOrgIDList(Join(parts[..|ids|]));
    ParsedNumerals(ids, clean);
    CanonicalIsShort(ids, clean);
    PrintInto(parts, clean);
    s := Join(parts[..|clean|]);
  }
}
