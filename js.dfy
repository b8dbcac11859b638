/**
 * The JavaScript values that flow through the API: request parameters,
 * database rows, response bodies and the entries of the shared memory cache.
 * JavaScript's truthiness, `||`, property access and number-to-string
 * conversion are written out here once, because every handler relies on them.
 */
module Js {

  datatype Option<+T> = None | Some(value: T)

  /** A JSON-like JavaScript value. `NaN` is the result of a failed `parseInt`. */
  datatype Value =
    | Undefined
    | Null
    | NaN
    | Bool(b: bool)
    | Num(n: real)
    | Str(s: string)
    | Arr(items: seq<Value>)
    | Obj(fields: map<string, Value>)

  /** JavaScript truthiness: `if (v)`. Arrays and objects are truthy even when empty. */
  predicate Truthy(v: Value) {
    match v
    case Undefined => false
    case Null => false
    case NaN => false
    case Bool(b) => b
    case Num(n) => n != 0.0
    case Str(s) => s != ""
    case Arr(_) => true
    case Obj(_) => true
  }

  /** `a || b` */
  function Or(a: Value, b: Value): (r: Value)
    ensures Truthy(a) ==> r == a
    ensures !Truthy(a) ==> r == b
  {
    if Truthy(a) then a else b
  }

  /** `v.name`: a missing property, or a property of a non-object, reads as undefined. */
  function Field(v: Value, name: string): Value {
    if v.Obj? && name in v.fields then v.fields[name] else Undefined
  }

  /** `s || fallback` for an optional string parameter (absent and empty both fall back). */
  function OrText(s: Option<string>, fallback: string): string {
    if s.Some? && s.value != "" then s.value else fallback
  }

  /** `a || b` on two optional strings: `a` when it is a non-empty string, otherwise `b` as it is, absent or empty. */
  function OrElse(a: Option<string>, b: Option<string>): Option<string> {
    if a.Some? && a.value != "" then a else b
  }

  /** An optional string parameter as the JavaScript value it is: undefined when absent. */
  function TextValue(t: Option<string>): Value {
    if t.Some? then Str(t.value) else Undefined
  }

  /** `OrElse` is JavaScript's `||` on the values the parameters are. */
  lemma OrElseIsOr(a: Option<string>, b: Option<string>)
    ensures TextValue(OrElse(a, b)) == Or(TextValue(a), TextValue(b))
    ensures OrElse(a, b).Some? <==> b.Some? || (a.Some? && a.value != "")
  {
  }

  /** The UTF-16 code units of one character: two above the Basic Multilingual Plane. */
  function Units(c: char): nat {
    if c as int >= 0x10000 then 2 else 1
  }

  /** JavaScript's `s.length`: the number of UTF-16 code units, not of characters. */
  function Length(s: string): (n: nat)
    ensures |s| <= n <= 2 * |s|
  {
    if s == [] then 0 else Units(s[0]) + Length(s[1..])
  }

  /** A string of Basic Multilingual Plane characters has one code unit per character. */
  lemma {:induction false} PlaneLength(s: string)
    requires forall i :: 0 <= i < |s| ==> s[i] as int < 0x10000
    ensures Length(s) == |s|
  {
    if s != [] {
      PlaneLength(s[1..]);
    }
  }

  /** A character outside the Basic Multilingual Plane counts twice. */
  lemma AstralLength()
    ensures Length("\U{1F600}") == 2 && Length("\U{1F600}\U{1F600}\U{1F600}\U{1F600}\U{1F600}") == 10
  {
    var five := "\U{1F600}\U{1F600}\U{1F600}\U{1F600}\U{1F600}";
    assert five[1..][1..][1..][1..][1..] == [];
  }

  /** An absent or empty string parameter: falsy in JavaScript. */
  predicate Blank(c: Option<string>) {
    c.None? || c.value == ""
  }

  /** The first truthy string of `a || b || ...`, or None when all are absent or empty. */
  function FirstText(candidates: seq<Option<string>>): (r: Option<string>)
    ensures r.Some? ==> r.value != "" && Some(r.value) in candidates
    ensures r.None? ==> forall c :: c in candidates ==> Blank(c)
  {
    if candidates == [] then None
    else if !Blank(candidates[0]) then candidates[0]
    else FirstText(candidates[1..])
  }

  /** `a || b || ...` is the first candidate that is neither absent nor empty: every earlier one is passed over. */
  lemma {:induction false} FirstTextIsFirst(candidates: seq<Option<string>>, i: nat)
    requires i < |candidates| && !Blank(candidates[i])
    requires forall j :: 0 <= j < i ==> Blank(candidates[j])
    ensures FirstText(candidates) == candidates[i]
    decreases i
  {
    if i > 0 {
      assert Blank(candidates[0]);
      FirstTextIsFirst(candidates[1..], i - 1);
    }
  }

  /** `cookie || query || body` takes the cookie over the query whenever both are given, and skips an empty cookie. */
  lemma CookieFirst()
    ensures FirstText([Some("cookie"), Some("query"), None]) == Some("cookie")
    ensures FirstText([Some(""), Some("query"), Some("body")]) == Some("query")
  {
    FirstTextIsFirst([Some("cookie"), Some("query"), None], 0);
    FirstTextIsFirst([Some(""), Some("query"), Some("body")], 1);
  }

  /** The number a parsed integer parameter denotes: an integer, or NaN. */
  function NumberOf(parsed: Option<int>): Value {
    match parsed
    case Some(n) => Num(n as real)
    case None => NaN
  }

  predicate IsDigit(c: char) {
    '0' <= c <= '9'
  }

  function Digit(d: nat): (c: char)
    requires d < 10
    ensures IsDigit(c)
  {
    ['0', '1', '2', '3', '4', '5', '6', '7', '8', '9'][d]
  }

  /** Decimal text of a natural number, as `'' + n` produces it. */
  function NatText(n: nat): (s: string)
    ensures |s| >= 1
    ensures forall i :: 0 <= i < |s| ==> IsDigit(s[i])
    ensures n >= 10 ==> |s| >= 2
    decreases n
  {
    if n < 10 then [Digit(n)] else NatText(n / 10) + [Digit(n % 10)]
  }

  /** Decimal text of an integer, with a leading minus sign when negative. */
  function IntText(i: int): string {
    if i < 0 then "-" + NatText(-i) else NatText(i)
  }

  /** `'' + parseInt(x)`: the integer's text, or "NaN". */
  function NumberText(parsed: Option<int>): string {
    match parsed
    case Some(i) => IntText(i)
    case None => "NaN"
  }

  function DigitValue(c: char): (d: nat)
    requires IsDigit(c)
    ensures d < 10
  {
    c as int - '0' as int
  }

  /** The length of the longest prefix of `s` made of decimal digits. */
  function DigitRun(s: string): (n: nat)
    ensures n <= |s|
    ensures forall i :: 0 <= i < n ==> IsDigit(s[i])
    ensures n < |s| ==> !IsDigit(s[n])
  {
    if s == [] || !IsDigit(s[0]) then 0 else 1 + DigitRun(s[1..])
  }

  /** The number a string of decimal digits denotes. */
  function DigitsValue(d: string): nat
    requires forall i :: 0 <= i < |d| ==> IsDigit(d[i])
  {
    if d == [] then 0 else DigitsValue(d[..|d| - 1]) * 10 + DigitValue(d[|d| - 1])
  }

  predicate IsHexDigit(c: char) {
    IsDigit(c) || 'a' <= c <= 'f' || 'A' <= c <= 'F'
  }

  function HexDigitValue(c: char): (d: nat)
    requires IsHexDigit(c)
    ensures d < 16
  {
    if IsDigit(c) then DigitValue(c) else if 'a' <= c <= 'f' then c as int - 'a' as int + 10 else c as int - 'A' as int + 10
  }

  /** The length of the longest prefix of `s` made of hexadecimal digits. */
  function HexRun(s: string): (n: nat)
    ensures n <= |s|
    ensures forall i :: 0 <= i < n ==> IsHexDigit(s[i])
    ensures n < |s| ==> !IsHexDigit(s[n])
  {
    if s == [] || !IsHexDigit(s[0]) then 0 else 1 + HexRun(s[1..])
  }

  /** The number a string of hexadecimal digits denotes. */
  function HexValue(d: string): nat
    requires forall i :: 0 <= i < |d| ==> IsHexDigit(d[i])
  {
    if d == [] then 0 else HexValue(d[..|d| - 1]) * 16 + HexDigitValue(d[|d| - 1])
  }

  /** The text after an optional leading sign. */
  function Unsigned(s: string): string {
    if |s| > 0 && (s[0] == '-' || s[0] == '+') then s[1..] else s
  }

  /** Without a radix, `parseInt` reads text that starts `0x` or `0X` in base 16. */
  predicate HexPrefixed(s: string) {
    |s| >= 2 && s[0] == '0' && (s[1] == 'x' || s[1] == 'X')
  }

  /** The text starts with a minus sign. */
  predicate Negative(s: string) {
    |s| > 0 && s[0] == '-'
  }

  /**
   * The unsigned part of a radix-less `parseInt`: `0x`/`0X` and the longest
   * run of hexadecimal digits, or else the longest run of decimal digits;
   * None (NaN) when that run is empty.
   */
  function Magnitude(body: string): (m: Option<nat>)
    ensures HexPrefixed(body) ==> (m.None? <==> HexRun(body[2..]) == 0)
    ensures !HexPrefixed(body) ==> (m.None? <==> DigitRun(body) == 0)
  {
    if HexPrefixed(body) then
      var n := HexRun(body[2..]);
      if n == 0 then None else Some(HexValue(body[2..][..n]))
    else
      var n := DigitRun(body);
      if n == 0 then None else Some(DigitsValue(body[..n]))
  }

  /**
   * `parseInt(s)` without a radix: an optional sign, then either `0x`/`0X`
   * and the longest run of hexadecimal digits, or the longest run of decimal
   * digits; NaN (None) when that run is empty.
   */
  function ParseInt(s: string): (r: Option<int>)
    ensures HexPrefixed(Unsigned(s)) ==> (r.None? <==> HexRun(Unsigned(s)[2..]) == 0)
    ensures !HexPrefixed(Unsigned(s)) ==> (r.None? <==> DigitRun(Unsigned(s)) == 0)
    ensures r.Some? && Negative(s) ==> r.value <= 0
    ensures r.Some? && !Negative(s) ==> r.value >= 0
  {
    match Magnitude(Unsigned(s))
    case None => None
    case Some(m) =>
      var signed: int := if Negative(s) then -(m as int) else m;
      Some(signed)
  }

  /** A radix-less `parseInt` reads `0x1F` as 31, after the sign too. */
  lemma HexPrefixRead()
    ensures ParseInt("0x1F") == Some(31) && ParseInt("-0X1f") == Some(-31)
  {
    assert "1"[..0] == "" && HexValue("1") == 1;
    assert "0x1F"[2..] == "1F" && HexRun("1F") == 2 && "1F"[..2] == "1F" && "1F"[..1] == "1";
    assert HexValue("1F") == 31;
    assert Unsigned("-0X1f") == "0X1f" && "0X1f"[2..] == "1f" && HexRun("1f") == 2;
    assert "1f"[..2] == "1f" && "1f"[..1] == "1";
    assert HexValue("1f") == 31;
  }

  /** A `0x` prefix with no hexadecimal digit after it is NaN, not 0. */
  lemma HexPrefixEmpty()
    ensures ParseInt("0x") == None && ParseInt("0xg") == None
  {
    assert "0x"[2..] == "" && "0xg"[2..] == "g";
  }

  /** Without the prefix the digits are decimal: `010` is 10 and `12ab` is 12; a lone sign is NaN. */
  lemma DecimalRead()
    ensures ParseInt("010") == Some(10) && ParseInt("12ab") == Some(12) && ParseInt("-") == None
  {
    assert DigitRun("010") == 3 && "010"[..3] == "010" && "010"[..2] == "01" && "01"[..1] == "0";
    assert "0"[..0] == "";
    assert DigitRun("12ab") == 2 && "12ab"[..2] == "12" && "12"[..1] == "1" && "1"[..0] == "";
  }

  lemma DigitRoundTrip(d: nat)
    requires d < 10
    ensures DigitValue(Digit(d)) == d
  {
  }

  lemma {:induction false} DigitRunAll(s: string)
    requires forall i :: 0 <= i < |s| ==> IsDigit(s[i])
    ensures DigitRun(s) == |s|
  {
    if s != [] {
      DigitRunAll(s[1..]);
    }
  }

  lemma {:induction false} NatTextValue(n: nat)
    ensures DigitsValue(NatText(n)) == n
    decreases n
  {
    var s := NatText(n);
    if n < 10 {
      assert s[..0] == [];
      DigitRoundTrip(n);
    } else {
      assert s[..|s| - 1] == NatText(n / 10);
      NatTextValue(n / 10);
      DigitRoundTrip(n % 10);
    }
  }

  /** Text that starts with a digit, and continues with one, has no sign and no hexadecimal prefix. */
  lemma DecimalStart(t: string)
    requires |t| >= 1 && IsDigit(t[0]) && (|t| >= 2 ==> IsDigit(t[1]))
    ensures !HexPrefixed(t) && Unsigned(t) == t
  {
  }

  /** A whole run of decimal digits is read in base 10, as the number it denotes. */
  lemma DigitsMagnitude(t: string)
    requires |t| >= 1 && forall i :: 0 <= i < |t| ==> IsDigit(t[i])
    ensures Magnitude(t) == Some(DigitsValue(t))
  {
    DigitRunAll(t);
    DecimalStart(t);
    assert t[..|t|] == t;
  }

  /** parseInt reads back every integer from its decimal text. */
  lemma ParseIntText(i: int)
    ensures ParseInt(IntText(i)) == Some(i)
  {
    var n: nat := if i < 0 then -i else i;
    var t := NatText(n);
    DigitsMagnitude(t);
    NatTextValue(n);
    DecimalStart(t);
    if i < 0 {
      assert IntText(i) == "-" + t && Unsigned("-" + t) == t && Negative("-" + t);
    } else {
      assert !Negative(t);
    }
  }

  lemma DigitInjective(a: nat, b: nat)
    requires a < 10 && b < 10 && Digit(a) == Digit(b)
    ensures a == b
  {
  }

  /** Distinct numbers have distinct decimal texts. */
  lemma {:induction false} NatTextInjective(a: nat, b: nat)
    requires NatText(a) == NatText(b)
    ensures a == b
    decreases a
  {
    var s := NatText(a);
    if a < 10 && b < 10 {
      DigitInjective(a, b);
    } else if a >= 10 && b >= 10 {
      assert NatText(a) == NatText(a / 10) + [Digit(a % 10)];
      assert NatText(b) == NatText(b / 10) + [Digit(b % 10)];
      assert NatText(a / 10) == s[..|s| - 1] == NatText(b / 10);
      DigitInjective(a % 10, b % 10);
      NatTextInjective(a / 10, b / 10);
    }
  }

  /**
   * A decimal number at the end of a string that ends in a non-digit before
   * it can be split off in exactly one way.
   */
  lemma DigitSuffix(x1: string, n1: nat, x2: string, n2: nat)
    requires |x1| > 0 && !IsDigit(x1[|x1| - 1])
    requires |x2| > 0 && !IsDigit(x2[|x2| - 1])
    requires x1 + NatText(n1) == x2 + NatText(n2)
    ensures x1 == x2 && n1 == n2
  {
    var a, b, k := NatText(n1), NatText(n2), x1 + NatText(n1);
    assert k == x2 + b;
    assert forall j :: |x1| <= j < |k| ==> IsDigit(k[j]);
    assert forall j :: |x2| <= j < |k| ==> IsDigit(k[j]);
    assert !IsDigit(k[|x1| - 1]) && !IsDigit(k[|x2| - 1]);
    assert |x1| <= |x2| && |x2| <= |x1|;
    assert x1 == k[..|x1|] == x2;
    assert a == k[|x1|..] == b;
    NatTextInjective(n1, n2);
  }
}
