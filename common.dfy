/** Shared vocabulary of the model: optional and fallible values, the JSON values that
    cross the recommendation boundary, the few Python built-ins the core relies on
    (`dict.get`, `x or y`, `int()`, `str.strip`, `str.lower`, `in` on strings, `max`
    with a key, `str()` of an integer) and the emission factors every page repeats. */
module Common {

  datatype Option<+T> = None | Some(value: T)

  /** The outcome of a step that Python would abort with an exception. */
  datatype Result<+T> = Ok(value: T) | Fail(error: string)

  /** A decoded JSON value. Objects are the Python dicts of the source. */
  datatype Json =
    | JNull
    | JBool(b: bool)
    | JNum(n: real)
    | JStr(s: string)
    | JArr(items: seq<Json>)
    | JObj(fields: map<string, Json>)

  // ---------------------------------------------------------------------------
  // Emission factors (kg CO2 per unit), identical on every page that uses them.
  // ---------------------------------------------------------------------------

  const ElectricityFactor: real := 0.82  // per kWh
  const NaturalGasFactor: real := 5.3    // per therm
  const CarFactor: real := 0.21          // per km
  const BusFactor: real := 0.09          // per km
  const DaysPerMonth: real := 30.0       // daily food estimate to monthly

  // ---------------------------------------------------------------------------
  // Dictionaries of numbers
  // ---------------------------------------------------------------------------

  /** `m.get(k, d)` */
  function GetOr(m: map<string, real>, k: string, d: real): (r: real)
    ensures k in m ==> r == m[k]
    ensures k !in m ==> r == d
  {
    if k in m then m[k] else d
  }

  /** `m.get(k) or fallback`: a missing key and a stored zero are both falsy. */
  function NonZeroOr(m: map<string, real>, k: string, fallback: real): (r: real)
    ensures r == fallback || (k in m && r == m[k] && r != 0.0)
    ensures k in m && m[k] != 0.0 ==> r == m[k]
  {
    if k in m && m[k] != 0.0 then m[k] else fallback
  }

  // ---------------------------------------------------------------------------
  // Python truthiness of JSON values
  // ---------------------------------------------------------------------------

  predicate Truthy(v: Json) {
    match v
    case JNull => false
    case JBool(b) => b
    case JNum(n) => n != 0.0
    case JStr(s) => s != ""
    case JArr(xs) => xs != []
    case JObj(m) => |m| != 0
  }

  /** Number of object entries in a JSON list. */
  function CountObjects(items: seq<Json>): (n: nat)
    ensures n <= |items|
  {
    if items == [] then 0 else CountObjects(items[..|items| - 1]) + if items[|items| - 1].JObj? then 1 else 0
  }

  /** `d.get(k)`, with JSON null standing for Python's None. */
  function Field(d: map<string, Json>, k: string): Json {
    if k in d then d[k] else JNull
  }

  /** `d.get(k, default)` */
  function FieldOr(d: map<string, Json>, k: string, default: Json): (r: Json)
    ensures k in d ==> r == d[k]
    ensures k !in d ==> r == default
  {
    if k in d then d[k] else default
  }

  /** `a or b`: the first operand when it is truthy, the second otherwise. */
  function Or(a: Json, b: Json): (r: Json)
    ensures Truthy(a) ==> r == a
    ensures !Truthy(a) ==> r == b
  {
    if Truthy(a) then a else b
  }

  // ---------------------------------------------------------------------------
  // int(): truncation toward zero
  // ---------------------------------------------------------------------------

  /** Python's `int(x)` on a float: drops the fraction, rounding toward zero. */
  function Trunc(x: real): (r: int)
    ensures 0.0 <= x ==> 0 <= r && r as real <= x < r as real + 1.0
    ensures x < 0.0 ==> r <= 0 && r as real - 1.0 < x <= r as real
  {
    if x >= 0.0 then x.Floor else -((-x).Floor)
  }

  /** int() never decreases as its argument grows, on both sides of zero. */
  lemma TruncMonotone(x: real, y: real)
    requires x <= y
    ensures Trunc(x) <= Trunc(y)
  {
    if 0.0 <= x {
      assert x.Floor as real <= y;
    } else if y < 0.0 {
      assert (-y).Floor as real <= -x;
    }
  }

  /** `max(lo, int(x * rate))`, the floored impact of a fallback tip. */
  function FlooredImpact(x: real, rate: real, lo: int): (r: int)
    ensures r >= lo
    ensures 0.0 <= x * rate ==> (r == lo || r as real <= x * rate)
    ensures 0.0 <= x * rate && lo as real <= x * rate ==> x * rate < r as real + 1.0
  {
    var t := Trunc(x * rate);
    if t < lo then lo else t
  }

  // ---------------------------------------------------------------------------
  // max(..., key=...) keeps the first of several equal maxima
  // ---------------------------------------------------------------------------

  /** Index chosen by a left-to-right scan that replaces the current best only on
      a strictly larger value, as Python's `max` does. */
  function FirstMaxIndex(vals: seq<real>): (k: nat)
    requires |vals| > 0
    ensures k < |vals|
    ensures forall j :: 0 <= j < |vals| ==> vals[j] <= vals[k]
    ensures forall j :: 0 <= j < k ==> vals[j] < vals[k]
  {
    if |vals| == 1 then 0
    else
      var k := FirstMaxIndex(vals[..|vals| - 1]);
      if vals[|vals| - 1] > vals[k] then |vals| - 1 else k
  }

  /** The two postconditions of FirstMaxIndex leave no choice. */
  lemma FirstMaxIndexUnique(vals: seq<real>, k: nat)
    requires k < |vals|
    requires forall j :: 0 <= j < |vals| ==> vals[j] <= vals[k]
    requires forall j :: 0 <= j < k ==> vals[j] < vals[k]
    ensures FirstMaxIndex(vals) == k
  {
  }

  // ---------------------------------------------------------------------------
  // Text
  // ---------------------------------------------------------------------------

  /** Python's whitespace set (`str.isspace`), as stripped by `str.strip()`. */
  predicate IsSpace(c: char) {
    || ('\t' <= c <= '\r')
    || ('\U{001C}' <= c <= ' ')
    || c == '\U{0085}' || c == '\U{00A0}' || c == '\U{1680}'
    || ('\U{2000}' <= c <= '\U{200A}')
    || c == '\U{2028}' || c == '\U{2029}' || c == '\U{202F}' || c == '\U{205F}'
    || c == '\U{3000}'
  }

  function TrimStart(s: string): (r: string)
    ensures |r| <= |s| && r == s[|s| - |r|..]
    ensures forall i :: 0 <= i < |s| - |r| ==> IsSpace(s[i])
    ensures r == [] || !IsSpace(r[0])
  {
    if |s| > 0 && IsSpace(s[0]) then TrimStart(s[1..]) else s
  }

  function TrimEnd(s: string): (r: string)
    ensures |r| <= |s| && r == s[..|r|]
    ensures forall i :: |r| <= i < |s| ==> IsSpace(s[i])
    ensures r == [] || !IsSpace(r[|r| - 1])
  {
    if |s| > 0 && IsSpace(s[|s| - 1]) then TrimEnd(s[..|s| - 1]) else s
  }

  /** `s.strip()`: the slice of `s` left once its leading and trailing whitespace
      is removed; it neither starts nor ends with whitespace. */
  function Strip(s: string): (r: string)
    ensures |r| <= |s|
    ensures r == [] || (!IsSpace(r[0]) && !IsSpace(r[|r| - 1]))
    ensures exists a :: SliceBetweenSpaces(s, r, a)
  {
    StripIsSlice(s);
    TrimEnd(TrimStart(s))
  }

  /** The witness for Strip: the slice starts where TrimStart's result does. */
  lemma StripIsSlice(s: string)
    ensures SliceBetweenSpaces(s, TrimEnd(TrimStart(s)), |s| - |TrimStart(s)|)
  {
    var t := TrimStart(s);
    PrefixOfSuffix(s, t, TrimEnd(t), |s| - |t|);
  }

  /** A prefix r of the suffix t = s[a..] is the slice s[a..a + |r|]; when the
      characters before a and those of t after r are whitespace, it lies between
      spaces. */
  lemma PrefixOfSuffix(s: string, t: string, r: string, a: int)
    requires 0 <= a <= |s| && t == s[a..] && |r| <= |t| && r == t[..|r|]
    requires forall i :: 0 <= i < a ==> IsSpace(s[i])
    requires forall j :: |r| <= j < |t| ==> IsSpace(t[j])
    ensures SliceBetweenSpaces(s, r, a)
  {
    forall i | a + |r| <= i < |s|
      ensures IsSpace(s[i])
    {
      assert s[i] == t[i - a];
    }
  }

  /** `r` is `s[a..a + |r|]` and every character of `s` outside that slice is
      whitespace. */
  predicate SliceBetweenSpaces(s: string, r: string, a: int)
  {
    0 <= a <= |s| - |r| && r == s[a..a + |r|]
    && (forall i :: 0 <= i < a ==> IsSpace(s[i]))
    && (forall i :: a + |r| <= i < |s| ==> IsSpace(s[i]))
  }

  /** Stripping twice is stripping once. */
  lemma StripIdempotent(s: string)
    ensures Strip(Strip(s)) == Strip(s)
  {
    var r := Strip(s);
    assert TrimStart(r) == r;
  }

  function LowerChar(c: char): char {
    if 'A' <= c <= 'Z' then (c as int + 32) as char else c
  }

  /** `s.lower()` on the ASCII letters. */
  function Lower(s: string): (r: string)
    ensures |r| == |s|
    ensures forall i :: 0 <= i < |s| ==> r[i] == LowerChar(s[i])
  {
    if s == [] then [] else [LowerChar(s[0])] + Lower(s[1..])
  }

  lemma LowerIdempotent(s: string)
    ensures Lower(Lower(s)) == Lower(s)
  {
  }

  /** Python's `needle in hay` on strings, scanning start positions left to right. */
  predicate Contains(hay: string, needle: string)
    decreases |hay|
  {
    |needle| <= |hay| && (hay[..|needle|] == needle || (|hay| > 0 && Contains(hay[1..], needle)))
  }

  /** A needle whose first character never appears in hay is not in hay. */
  lemma {:induction false} NotContainsWithoutFirstChar(hay: string, needle: string)
    requires |needle| > 0 && forall i :: 0 <= i < |hay| ==> hay[i] != needle[0]
    ensures !Contains(hay, needle)
    decreases |hay|
  {
    if |needle| <= |hay| {
      assert hay[..|needle|][0] == hay[0];
      NotContainsWithoutFirstChar(hay[1..], needle);
    }
  }

  /** `needle` occurs in `hay` starting at position i. */
  predicate OccursAt(hay: string, needle: string, i: int) {
    0 <= i && i + |needle| <= |hay| && hay[i..i + |needle|] == needle
  }

  /** Contains agrees with the definition "some slice of hay equals needle". */
  lemma {:induction false} ContainsIffOccurs(hay: string, needle: string)
    ensures Contains(hay, needle) <==> exists i :: OccursAt(hay, needle, i)
    decreases |hay|
  {
    if |needle| <= |hay| {
      if hay[..|needle|] == needle {
        assert OccursAt(hay, needle, 0);
      } else {
        ContainsIffOccurs(hay[1..], needle);
        if Contains(hay[1..], needle) {
          var i :| OccursAt(hay[1..], needle, i);
          assert hay[i + 1..i + 1 + |needle|] == hay[1..][i..i + |needle|];
          assert OccursAt(hay, needle, i + 1);
        }
        if exists i :: OccursAt(hay, needle, i) {
          var i :| OccursAt(hay, needle, i);
          assert i != 0;
          assert hay[1..][i - 1..i - 1 + |needle|] == hay[i..i + |needle|];
          assert OccursAt(hay[1..], needle, i - 1);
        }
      }
    }
  }

  // ---------------------------------------------------------------------------
  // str() of an integer
  // ---------------------------------------------------------------------------

  predicate IsDigit(c: char) { '0' <= c <= '9' }

  /** Decimal digits of n, most significant first, without leading zeros. */
  function NatToString(n: nat): (s: string)
    ensures |s| > 0 && (forall i :: 0 <= i < |s| ==> IsDigit(s[i]))
    ensures s[0] == '0' ==> n == 0
    decreases n
  {
    if n < 10 then ["0123456789"[n]] else NatToString(n / 10) + ["0123456789"[n % 10]]
  }

  /** Value of a string of decimal digits: the reading side of NatToString. */
  function DigitsValue(s: string): nat
    requires forall i :: 0 <= i < |s| ==> IsDigit(s[i])
  {
    if s == [] then 0
    else
      assert IsDigit(s[|s| - 1]);
      DigitsValue(s[..|s| - 1]) * 10 + (s[|s| - 1] as int - '0' as int)
  }

  lemma {:induction false} NatToStringRoundTrip(n: nat)
    ensures DigitsValue(NatToString(n)) == n
    decreases n
  {
    var s := NatToString(n);
    if n >= 10 {
      NatToStringRoundTrip(n / 10);
      assert s[..|s| - 1] == NatToString(n / 10);
    }
  }

  /** A string occurs in any string it is the middle part of. */
  lemma ContainsMiddle(a: string, b: string, c: string)
    ensures Contains(a + b + c, b)
  {
    assert (a + b + c)[|a|..|a| + |b|] == b;
    assert OccursAt(a + b + c, b, |a|);
    ContainsIffOccurs(a + b + c, b);
  }

  /** Distinct numbers print differently, so "Recommendation 3" names one position. */
  lemma NatToStringInjective(m: nat, n: nat)
    requires NatToString(m) == NatToString(n)
    ensures m == n
  {
    NatToStringRoundTrip(m);
    NatToStringRoundTrip(n);
  }

  /** `str(i)` for any integer. */
  function IntToString(i: int): (s: string)
    ensures |s| > 0
    ensures i < 0 ==> s[0] == '-' && s[1..] == NatToString(-i)
    ensures 0 <= i ==> s == NatToString(i)
  {
    if i < 0 then "-" + NatToString(-i) else NatToString(i)
  }

  /** Different integers print differently. */
  lemma IntToStringInjective(i: int, j: int)
    requires IntToString(i) == IntToString(j)
    ensures i == j
  {
    assert IntToString(i)[0] == '-' <==> i < 0 by {
      if 0 <= i { assert IsDigit(NatToString(i)[0]); }
    }
    assert IntToString(j)[0] == '-' <==> j < 0 by {
      if 0 <= j { assert IsDigit(NatToString(j)[0]); }
    }
    if i < 0 {
      NatToStringInjective(-i, -j);
    } else {
      NatToStringInjective(i, j);
    }
  }
}
