/** The JavaScript value semantics the render handler depends on: the
    truthiness tests behind `||`, the results of `Number(...)`, and the string
    operations `toLowerCase`, `includes`, `startsWith`, `parseInt(s, 10)` and
    the conversion of a non-negative integer to its decimal text. */
module JsValues {

  datatype Option<+T> = None | Some(value: T)

  /** A request field that should hold a string; None is `undefined`. */
  type JsString = Option<string>

  /** The result of `Number(v)` for a request field; None is NaN (which is
      also what an absent field converts to). */
  type JsNumber = Option<real>

  /** A string operand of `||` is falsy when undefined or empty. */
  predicate Truthy(s: JsString) {
    s.Some? && s.value != ""
  }

  /** A number operand of `||` is falsy when NaN or zero. */
  predicate TruthyNumber(n: JsNumber) {
    n.Some? && n.value != 0.0
  }

  /** `s || d` for a string operand: never empty when `d` is not. */
  function StringOr(s: JsString, d: string): (r: string)
    ensures r == d || Some(r) == s
    ensures d != "" ==> r != ""
  {
    if Truthy(s) then s.value else d
  }

  /** `Number(v) || d`: never zero or NaN when `d` is not zero. */
  function NumberOr(n: JsNumber, d: real): (r: real)
    ensures r == d || Some(r) == n
    ensures d != 0.0 ==> r != 0.0
  {
    if TruthyNumber(n) then n.value else d
  }

  // ----- toLowerCase -----

  function LowerChar(c: char): char {
    if 'A' <= c <= 'Z' then (c as int + 32) as char else c
  }

  /** `s.toLowerCase()`, for the ASCII letters. */
  function ToLower(s: string): (r: string)
    ensures |r| == |s|
    ensures forall i :: 0 <= i < |s| ==> r[i] == LowerChar(s[i])
  {
    seq(|s|, i requires 0 <= i < |s| => LowerChar(s[i]))
  }

  /** Lower-casing commutes with taking a slice. */
  lemma ToLowerSlice(s: string, i: int, j: int)
    requires 0 <= i <= j <= |s|
    ensures ToLower(s)[i..j] == ToLower(s[i..j])
  {
    var a, b := ToLower(s), ToLower(s[i..j]);
    forall k | 0 <= k < j - i ensures a[i..j][k] == b[k] {
      assert a[i..j][k] == a[i + k] == LowerChar(s[i + k]);
      assert b[k] == LowerChar(s[i..j][k]);
    }
  }

  /** Lower-casing twice is lower-casing once. */
  lemma ToLowerIdempotent(s: string)
    ensures ToLower(ToLower(s)) == ToLower(s)
  {
    var a, b := ToLower(ToLower(s)), ToLower(s);
    forall k | 0 <= k < |s| ensures a[k] == b[k] {
      assert 'A' <= b[k] <= 'Z' ==> false;
    }
  }

  // ----- includes / startsWith -----

  /** `t` occurs in `s` starting at index `i`. */
  ghost predicate OccursAt(s: string, t: string, i: int) {
    0 <= i && i + |t| <= |s| && s[i..i + |t|] == t
  }

  /** `s.startsWith(t)`: an occurrence at position 0. */
  predicate StartsWith(s: string, t: string)
    ensures StartsWith(s, t) <==> OccursAt(s, t, 0)
  {
    |t| <= |s| && s[..|t|] == t
  }

  /** `s.includes(t)`: tries every starting position from the left. */
  function Includes(s: string, t: string): (b: bool)
    ensures b ==> |t| <= |s|
    ensures StartsWith(s, t) ==> b
    decreases |s|
  {
    StartsWith(s, t) || (|s| > 0 && Includes(s[1..], t))
  }

  /** An occurrence at a position past the first is an occurrence in the
      string without its first character. */
  lemma OccursAtShift(s: string, t: string, i: int)
    requires |s| > 0 && i >= 1
    ensures OccursAt(s, t, i) <==> OccursAt(s[1..], t, i - 1)
  {
    if i + |t| <= |s| {
      assert s[1..][i - 1..i - 1 + |t|] == s[i..i + |t|];
    }
  }

  /** `includes` holds exactly when there is a position where `t` occurs. */
  lemma {:induction false} IncludesIff(s: string, t: string)
    ensures Includes(s, t) <==> exists i :: OccursAt(s, t, i)
    decreases |s|
  {
    if StartsWith(s, t) {
      assert OccursAt(s, t, 0);
    } else if |s| > 0 {
      IncludesIff(s[1..], t);
      forall i | i >= 1
        ensures OccursAt(s, t, i) <==> OccursAt(s[1..], t, i - 1)
      {
        OccursAtShift(s, t, i);
      }
      if Includes(s[1..], t) {
        var i :| OccursAt(s[1..], t, i);
        assert OccursAt(s, t, i + 1);
      }
    }
  }

  // ----- decimal digits -----

  predicate IsDigit(c: char) {
    '0' <= c <= '9'
  }

  predicate AllDigits(s: string) {
    forall i :: 0 <= i < |s| ==> IsDigit(s[i])
  }

  function DigitChar(d: int): char
    requires 0 <= d < 10
  {
    ('0' as int + d) as char
  }

  function Pow10(k: nat): nat {
    if k == 0 then 1 else 10 * Pow10(k - 1)
  }

  /** The decimal text of a non-negative integer, as template literals and
      `String(n)` produce it: no sign, no leading zeros. */
  function Decimal(n: nat): (r: string)
    ensures |r| >= 1 && AllDigits(r)
    ensures r[0] == '0' ==> n == 0
  {
    if n < 10 then [DigitChar(n)] else Decimal(n / 10) + [DigitChar(n % 10)]
  }

  /** The value of a string of decimal digits, most significant first. */
  function DigitsValue(ds: string): nat
    requires AllDigits(ds)
  {
    if ds == [] then 0 else DigitsValue(ds[..|ds| - 1]) * 10 + (ds[|ds| - 1] as int - '0' as int)
  }

  /** Reading the decimal text back gives the number. */
  lemma {:induction false} DecimalValue(n: nat)
    ensures DigitsValue(Decimal(n)) == n
  {
    if n >= 10 {
      var d := Decimal(n);
      assert d[..|d| - 1] == Decimal(n / 10);
      DecimalValue(n / 10);
    }
  }

  /** A number with k + 1 digits has a decimal text of length k + 1. */
  lemma {:induction false} DecimalLength(n: nat, k: nat)
    requires Pow10(k) <= n < Pow10(k + 1)
    ensures |Decimal(n)| == k + 1
  {
    if k > 0 {
      assert Pow10(k) == 10 * Pow10(k - 1);
      assert Pow10(k + 1) == 10 * Pow10(k);
      DecimalLength(n / 10, k - 1);
    }
  }

  // ----- parseInt(s, 10) -----

  /** WhiteSpace and LineTerminator code points of ECMAScript, which
      `parseInt` skips at the start of its argument. */
  predicate IsJsWhitespace(c: char) {
    var n := c as int;
    n == 0x09 || n == 0x0A || n == 0x0B || n == 0x0C || n == 0x0D || n == 0x20 ||
    n == 0xA0 || n == 0x1680 || (0x2000 <= n <= 0x200A) || n == 0x2028 || n == 0x2029 ||
    n == 0x202F || n == 0x205F || n == 0x3000 || n == 0xFEFF
  }

  /** The string with its leading whitespace removed. */
  function TrimStart(s: string): (r: string)
    ensures |r| <= |s| && r == s[|s| - |r|..]
    ensures forall i :: 0 <= i < |s| - |r| ==> IsJsWhitespace(s[i])
    ensures r == [] || !IsJsWhitespace(r[0])
  {
    if s != [] && IsJsWhitespace(s[0]) then TrimStart(s[1..]) else s
  }

  /** The longest prefix of `s` made of decimal digits. */
  function LeadingDigits(s: string): (r: string)
    ensures |r| <= |s| && r == s[..|r|]
    ensures AllDigits(r)
    ensures |r| < |s| ==> !IsDigit(s[|r|])
  {
    if s != [] && IsDigit(s[0]) then [s[0]] + LeadingDigits(s[1..]) else []
  }

  /** The value of the leading digit run of `u`; None (NaN) when there
      is none. */
  function ParseDigits(u: string): Option<nat> {
    var z := LeadingDigits(u);
    if z == [] then None else Some(DigitsValue(z))
  }

  function Negate(v: Option<nat>): Option<int> {
    if v.Some? then Some(-(v.value as int)) else None
  }

  /** `parseInt(s, 10)`: skip leading whitespace, take one optional sign,
      then the longest run of digits; NaN (None) when that run is empty.
      Characters after the digits are ignored. */
  function ParseInt(s: string): (r: Option<int>)
    ensures s == [] ==> r == None
    ensures s != [] && IsDigit(s[0]) ==> r.Some? && r.value >= 0
    ensures r.Some? && r.value < 0 ==> TrimStart(s) != [] && TrimStart(s)[0] == '-'
  {
    ParseSigned(TrimStart(s))
  }

  /** An optional sign, then a digit run. */
  function ParseSigned(t: string): (r: Option<int>)
    ensures t == [] ==> r == None
    ensures t != [] && IsDigit(t[0]) ==> r.Some? && r.value >= 0
    ensures r.Some? && r.value < 0 ==> t != [] && t[0] == '-'
  {
    if t != [] && t[0] == '-' then Negate(ParseDigits(t[1..]))
    else if t != [] && t[0] == '+' then Widen(ParseDigits(t[1..]))
    else Widen(ParseDigits(t))
  }

  function Widen(v: Option<nat>): Option<int> {
    if v.Some? then Some(v.value as int) else None
  }

  /** The digits of `ds` followed by anything that does not start with a
      digit: the leading digit run is exactly `ds`. */
  lemma {:induction false} LeadingDigitsOf(ds: string, rest: string)
    requires AllDigits(ds)
    requires rest == [] || !IsDigit(rest[0])
    ensures LeadingDigits(ds + rest) == ds
  {
    if ds != [] {
      assert (ds + rest)[0] == ds[0];
      assert (ds + rest)[1..] == ds[1..] + rest;
      LeadingDigitsOf(ds[1..], rest);
    }
  }

  /** A run of digits followed by anything that does not start with a
      digit reads as the value of the run. */
  lemma ParseDigitsOf(ds: string, rest: string)
    requires ds != [] && AllDigits(ds)
    requires rest == [] || !IsDigit(rest[0])
    ensures ParseDigits(ds + rest) == Some(DigitsValue(ds))
  {
    LeadingDigitsOf(ds, rest);
  }

  /** After a minus sign `parseInt` reads the digit run that follows and
      negates it. */
  lemma ParseIntAfterMinus(u: string)
    ensures ParseInt("-" + u) == Negate(ParseDigits(u))
  {
    var s := "-" + u;
    assert s[0] == '-' && TrimStart(s) == s;
    assert s[1..] == u;
  }

  /** Without whitespace or sign in front, `parseInt` reads the digit run
      at the start. */
  lemma ParseIntUnsigned(u: string)
    requires u != [] && IsDigit(u[0])
    ensures ParseInt(u) == Widen(ParseDigits(u))
  {
    assert TrimStart(u) == u;
  }

  /** `parseInt` of a run of digits followed by anything that does not
      start with a digit is the value of the run. */
  lemma ParseIntRun(ds: string, rest: string)
    requires ds != [] && AllDigits(ds)
    requires rest == [] || !IsDigit(rest[0])
    ensures ParseInt(ds + rest) == Some(DigitsValue(ds) as int)
  {
    assert (ds + rest)[0] == ds[0];
    ParseIntUnsigned(ds + rest);
    ParseDigitsOf(ds, rest);
  }

  /** `parseInt` reads back the decimal text of a number, whatever
      non-digit text follows it ("500", "500px", "500.7"). */
  lemma ParseIntDecimal(n: nat, rest: string)
    requires rest == [] || !IsDigit(rest[0])
    ensures ParseInt(Decimal(n) + rest) == Some(n)
  {
    ParseIntRun(Decimal(n), rest);
    DecimalValue(n);
  }

  /** Leading whitespace does not change what `parseInt` reads. */
  lemma ParseIntSkipsWhitespace(c: char, s: string)
    requires IsJsWhitespace(c)
    ensures ParseInt([c] + s) == ParseInt(s)
  {
    assert ([c] + s)[1..] == s;
  }

  /** A text whose first character is neither whitespace, a sign nor a
      digit is NaN to `parseInt`, and so is the empty string. */
  lemma ParseIntNaN(s: string)
    requires s == [] || (!IsJsWhitespace(s[0]) && s[0] != '-' && s[0] != '+' && !IsDigit(s[0]))
    ensures ParseInt(s) == None
  {
  }
}
