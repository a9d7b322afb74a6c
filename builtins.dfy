/** The JavaScript built-ins the dashboard components lean on, stated over
    Dafny strings and integers: `toLowerCase`, `includes`, `Number.parseInt`,
    the decimal rendering of an integer inside a template literal, and
    `Math.round` of a quotient. */
module Builtins {

  datatype Option<+T> = None | Some(value: T)

  /** What a component sees of one `fetch(...)` followed by the `response.ok`
      check and `response.json()`: a decoded payload, or a failure that the
      component's `catch` block handles. */
  datatype Fetch<+T> = Fetched(payload: T) | Failed

  /** `Math.random()` as a parameter: the k-th call in program order returns
      `random(k)`, a number in [0, 1). */
  ghost predicate IsRandomStream(random: nat -> real) {
    forall k: nat :: 0.0 <= random(k) < 1.0
  }

  // ---------------------------------------------------------------------------
  // String.prototype.toLowerCase (ASCII letters)

  predicate IsUpper(c: char) { 'A' <= c <= 'Z' }

  function LowerChar(c: char): (d: char)
    ensures !IsUpper(d)
    ensures IsUpper(c) ==> d as int == c as int + 32
    ensures !IsUpper(c) ==> d == c
  {
    if IsUpper(c) then (c as int + 32) as char else c
  }

  function ToLower(s: string): (r: string)
    ensures |r| == |s|
    ensures forall i :: 0 <= i < |s| ==> r[i] == LowerChar(s[i])
  {
    if s == [] then [] else [LowerChar(s[0])] + ToLower(s[1..])
  }

  /** Lower-casing a second time changes nothing. */
  lemma ToLowerIdempotent(s: string)
    ensures ToLower(ToLower(s)) == ToLower(s)
  {
    assert forall i :: 0 <= i < |s| ==> LowerChar(LowerChar(s[i])) == LowerChar(s[i]);
  }

  /** Text without upper-case letters is its own lower-case form. */
  lemma ToLowerWithoutUpper(s: string)
    requires forall i :: 0 <= i < |s| ==> !IsUpper(s[i])
    ensures ToLower(s) == s
  {
  }

  /** A lower-case letter occurs in the lower-cased text only where the letter
      or its capital occurs in the text. */
  lemma ToLowerLacks(s: string, c: char)
    requires 'a' <= c <= 'z'
    requires c !in s && (c as int - 32) as char !in s
    ensures c !in ToLower(s)
  {
    forall i | 0 <= i < |s| ensures ToLower(s)[i] != c {
      if IsUpper(s[i]) {
        assert s[i] != (c as int - 32) as char;
      }
    }
  }

  // ---------------------------------------------------------------------------
  // String.prototype.includes

  predicate IncludesAt(s: string, p: string, i: int) {
    0 <= i && i + |p| <= |s| && s[i..i + |p|] == p
  }

  predicate Includes(s: string, p: string) {
    exists i | 0 <= i <= |s| - |p| :: IncludesAt(s, p, i)
  }

  /** A pattern that holds a character the text lacks does not occur in it. */
  lemma NotIncludesWithoutChar(s: string, p: string, k: nat)
    requires k < |p| && p[k] !in s
    ensures !Includes(s, p)
  {
    forall i | 0 <= i <= |s| - |p| ensures !IncludesAt(s, p, i) {
      assert s[i..i + |p|][k] == s[i + k];
    }
  }

  /** An occurrence in one part of a concatenation is an occurrence in the whole. */
  lemma IncludesInSuffix(a: string, b: string, p: string, i: int)
    requires IncludesAt(b, p, i)
    ensures IncludesAt(a + b, p, |a| + i) && Includes(a + b, p)
  {
    assert (a + b)[|a| + i..|a| + i + |p|] == b[i..i + |p|];
    assert 0 <= |a| + i <= |a + b| - |p| && IncludesAt(a + b, p, |a| + i);
  }

  // ---------------------------------------------------------------------------
  // Number.parseInt with the default radix, on decimal text

  predicate IsDigit(c: char) { '0' <= c <= '9' }

  /** The white space `parseInt` skips: blank, tab, line feed, vertical tab,
      form feed and carriage return. */
  predicate IsSpace(c: char) { c == ' ' || '\t' <= c <= '\r' }

  predicate AllDigits(s: string) { forall i :: 0 <= i < |s| ==> IsDigit(s[i]) }

  /** What `parseInt` skips: the leading white space, and nothing more. */
  function TrimStart(s: string): (r: string)
    ensures |r| <= |s| && r == s[|s| - |r|..]
    ensures forall i :: 0 <= i < |s| - |r| ==> IsSpace(s[i])
    ensures r == [] || !IsSpace(r[0])
  {
    if s != [] && IsSpace(s[0]) then TrimStart(s[1..]) else s
  }

  /** The longest prefix of `s` made of decimal digits. */
  function LeadingDigits(s: string): (r: string)
    ensures r <= s && AllDigits(r)
    ensures |r| < |s| ==> !IsDigit(s[|r|])
  {
    if s != [] && IsDigit(s[0]) then [s[0]] + LeadingDigits(s[1..]) else []
  }

  function DigitValue(c: char): (d: nat)
    requires IsDigit(c)
    ensures d < 10
  {
    c as int - '0' as int
  }

  function DigitChar(d: nat): (c: char)
    requires d < 10
    ensures IsDigit(c) && DigitValue(c) == d
  {
    ('0' as int + d) as char
  }

  /** The value of a run of decimal digits, most significant first. */
  function DigitsValue(ds: string): nat
    requires AllDigits(ds)
  {
    if ds == [] then 0 else DigitsValue(ds[..|ds| - 1]) * 10 + DigitValue(ds[|ds| - 1])
  }

  /** `Number.parseInt(s)`: skip leading white space, read an optional sign and
      then as many decimal digits as there are; `None` is `NaN` (no digit). */
  function ParseInt(s: string): Option<int> {
    var t := TrimStart(s);
    var signed := |t| > 0 && (t[0] == '-' || t[0] == '+');
    var ds := LeadingDigits(if signed then t[1..] else t);
    var v: int := DigitsValue(ds);
    if ds == [] then None
    else if signed && t[0] == '-' then Some(-v)
    else Some(v)
  }

  // ---------------------------------------------------------------------------
  // `${n}` for an integer n

  function NatToString(n: nat): (r: string)
    ensures r != [] && AllDigits(r)
  {
    if n < 10 then [DigitChar(n)] else NatToString(n / 10) + [DigitChar(n % 10)]
  }

  function IntToString(n: int): (r: string)
    ensures r != [] && (IsDigit(r[0]) || r[0] == '-')
    ensures r[0] == '-' <==> n < 0
    ensures forall i :: 0 < i < |r| ==> IsDigit(r[i])
    ensures n < 0 ==> |r| >= 2
  {
    if n < 0 then "-" + NatToString(-n) else NatToString(n)
  }

  lemma {:induction false} DigitsValueOfNatToString(n: nat)
    ensures DigitsValue(NatToString(n)) == n
  {
    if n >= 10 {
      var r := NatToString(n);
      DigitsValueOfNatToString(n / 10);
      assert r[..|r| - 1] == NatToString(n / 10);
    }
  }

  lemma {:induction false} LeadingDigitsOfDigitsThen(ds: string, rest: string)
    requires AllDigits(ds)
    requires rest == [] || !IsDigit(rest[0])
    ensures LeadingDigits(ds + rest) == ds
  {
    if ds != [] {
      assert (ds + rest)[1..] == ds[1..] + rest;
      LeadingDigitsOfDigitsThen(ds[1..], rest);
    } else {
      assert ds + rest == rest;
    }
  }

  /** `parseInt` reads back the integer a template literal printed, whatever
      non-digit text follows it. */
  lemma ParseIntOfIntToString(n: int, rest: string)
    requires rest == [] || !IsDigit(rest[0])
    ensures ParseInt(IntToString(n) + rest) == Some(n)
  {
    if n < 0 {
      ParseIntOfNegative(n, rest);
    } else {
      ParseIntOfNatToString(n, rest);
    }
  }

  /** `parseInt` reads back a printed natural number. */
  lemma ParseIntOfNatToString(m: nat, rest: string)
    requires rest == [] || !IsDigit(rest[0])
    ensures ParseInt(NatToString(m) + rest) == Some(m)
  {
    var ds := NatToString(m);
    assert (ds + rest)[0] == ds[0];
    ParseIntUnsigned(ds + rest);
    LeadingDigitsOfDigitsThen(ds, rest);
    DigitsValueOfNatToString(m);
  }

  /** `parseInt` reads back a printed negative number. */
  lemma ParseIntOfNegative(n: int, rest: string)
    requires n < 0
    requires rest == [] || !IsDigit(rest[0])
    ensures ParseInt(IntToString(n) + rest) == Some(n)
  {
    var ds := NatToString(-n);
    var s := IntToString(n) + rest;
    assert s[0] == '-' && s[1..] == ds + rest;
    LeadingDigitsOfDigitsThen(ds, rest);
    DigitsValueOfNatToString(-n);
    ParseIntMinus(s, ds, -n);
  }

  /** "-" and then digits of value v parse as -v. */
  lemma ParseIntMinus(s: string, ds: string, v: nat)
    requires s != [] && s[0] == '-'
    requires ds != [] && AllDigits(ds) && LeadingDigits(s[1..]) == ds && DigitsValue(ds) == v
    ensures ParseInt(s) == Some(-(v as int))
  {
    ParseIntNegative(s);
  }

  /** A text that starts with a digit parses as its leading digits. */
  lemma ParseIntUnsigned(s: string)
    requires s != [] && IsDigit(s[0])
    ensures ParseInt(s) == Some(DigitsValue(LeadingDigits(s)))
  {
    TrimStartKeeps(s);
    assert TrimStart(s) == s && !(s[0] == '-' || s[0] == '+');
    assert LeadingDigits(s) == [s[0]] + LeadingDigits(s[1..]);
  }

  /** A text that starts with "-" parses as the negated digits after it. */
  lemma ParseIntNegative(s: string)
    requires s != [] && s[0] == '-'
    ensures ParseInt(s) == if LeadingDigits(s[1..]) == [] then None else Some(-(DigitsValue(LeadingDigits(s[1..])) as int))
  {
    TrimStartKeeps(s);
  }

  /** Nothing is trimmed from a text that does not start with white space. */
  lemma TrimStartKeeps(s: string)
    requires s != [] && !IsSpace(s[0])
    ensures TrimStart(s) == s
  { }

  // ---------------------------------------------------------------------------
  // Math.round(x / y)

  /** `Math.round(x / y)` for a positive divisor: the integer nearest to x / y,
      a half rounded up (towards +infinity, as `Math.round` does). */
  function RoundDiv(x: int, y: int): (r: int)
    requires y > 0
    ensures 2 * r * y - y <= 2 * x < 2 * r * y + y
  {
    (2 * x + y) / (2 * y)
  }
}
