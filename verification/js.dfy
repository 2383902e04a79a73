/** The JavaScript built-ins the application leans on, stated once so that the
    other modules can speak of them: string search (`includes`,
    `startsWith`), ASCII case conversion, `split('.').pop()`, `substring`,
    truthiness of JSON values, decimal rendering of integers and
    `Math.round`. */
module Js {

  datatype Option<+T> = None | Some(value: T)

  /** An `Error` object as the application inspects it. An absent or empty
      `message` (or `name`) is falsy in JavaScript and is modelled as "". */
  datatype JsError = JsError(name: string, message: string)

  /** A JSON scalar as it can arrive in a request body or travel in analytics
      metadata. Numbers are restricted to integers. */
  datatype JsValue = Undefined | Null | Bool(b: bool) | Num(n: int) | Str(s: string)

  /** JavaScript truthiness: `undefined`, `null`, `false`, `0` and `""` are falsy. */
  predicate Truthy(v: JsValue)
  {
    match v
    case Undefined => false
    case Null => false
    case Bool(b) => b
    case Num(n) => n != 0
    case Str(s) => s != ""
  }

  // ---------------------------------------------------------------------------
  // String search

  /** `s.startsWith(p)` */
  predicate StartsWith(s: string, p: string)
  {
    |p| <= |s| && s[..|p|] == p
  }

  /** `s.includes(t)`: t occurs in s at some position. */
  predicate Includes(s: string, t: string)
  {
    exists i :: 0 <= i <= |s| - |t| && StartsWith(s[i..], t)
  }

  /** A string includes every piece it was concatenated from. */
  lemma IncludesMiddle(a: string, t: string, b: string)
    ensures Includes(a + t + b, t)
  {
    assert StartsWith((a + t + b)[|a|..], t);
  }

  /** A string starts with its first piece. */
  lemma StartsWithPrefix(a: string, b: string)
    ensures StartsWith(a + b, a)
  {
    assert (a + b)[..|a|] == a;
  }

  /** A string that starts with t includes t. */
  lemma StartsWithIncludes(s: string, t: string)
    requires StartsWith(s, t)
    ensures Includes(s, t)
  {
    assert s[0..] == s;
  }

  /** Inclusion is transitive: what occurs in a piece of s occurs in s. */
  lemma IncludesTransitive(s: string, t: string, u: string)
    requires Includes(s, t) && Includes(t, u)
    ensures Includes(s, u)
  {
    var i :| 0 <= i <= |s| - |t| && StartsWith(s[i..], t);
    var j :| 0 <= j <= |t| - |u| && StartsWith(t[j..], u);
    forall k | 0 <= k < |u|
      ensures s[i + j + k] == u[k]
    {
      assert t[j..][..|u|][k] == u[k];
      assert s[i..][..|t|][j + k] == t[j + k];
    }
    assert s[i + j..][..|u|] == u;
  }

  /** A character of t that s does not contain rules out t occurring in s. */
  lemma NotIncludesMissingChar(s: string, t: string, c: char)
    requires c in t && c !in s
    ensures !Includes(s, t)
  {
  }

  /** Strings whose first characters differ do not start alike. */
  lemma NotStartsWithFirstChar(s: string, p: string)
    requires |s| > 0 && |p| > 0 && s[0] != p[0]
    ensures !StartsWith(s, p)
  {
  }

  // ---------------------------------------------------------------------------
  // Case conversion

  predicate IsUpperAscii(c: char)
  {
    'A' <= c <= 'Z'
  }

  function LowerChar(c: char): char
  {
    if IsUpperAscii(c) then (c as int + 32) as char else c
  }

  /** `s.toLowerCase()`, restricted to ASCII letters. */
  function ToLowerCase(s: string): (r: string)
    ensures |r| == |s|
    ensures forall i :: 0 <= i < |r| ==> !IsUpperAscii(r[i])
  {
    seq(|s|, i requires 0 <= i < |s| => LowerChar(s[i]))
  }

  /** Lower-casing is idempotent and leaves lower-case text alone. */
  lemma ToLowerCaseIdempotent(s: string)
    ensures ToLowerCase(ToLowerCase(s)) == ToLowerCase(s)
  {
    var l := ToLowerCase(s);
    assert forall i :: 0 <= i < |l| ==> LowerChar(l[i]) == l[i];
  }

  // ---------------------------------------------------------------------------
  // Splitting and truncation

  /** The position of the last '.' before position i, or -1 when there is none. */
  function LastDotBefore(s: string, i: nat): (k: int)
    requires i <= |s|
    ensures -1 <= k < i
    ensures k >= 0 ==> s[k] == '.'
    ensures forall j :: k < j < i ==> s[j] != '.'
    decreases i
  {
    if i == 0 then -1 else if s[i - 1] == '.' then i - 1 else LastDotBefore(s, i - 1)
  }

  /** `s.split('.').pop()`: the text after the last '.', or all of s when it
      has no '.'. */
  function AfterLastDot(s: string): string
  {
    s[LastDotBefore(s, |s|) + 1..]
  }

  /** The text after the last '.' is a suffix of s without '.', and it is
      all of s or starts right after a '.'. */
  lemma AfterLastDotShape(s: string)
    ensures var r := AfterLastDot(s);
            && '.' !in r
            && |r| <= |s| && r == s[|s| - |r|..]
            && (|r| < |s| ==> s[|s| - |r| - 1] == '.')
  {
    var k := LastDotBefore(s, |s|);
    var r := s[k + 1..];
    forall j | 0 <= j < |r|
      ensures r[j] != '.'
    {
      assert r[j] == s[k + 1 + j];
    }
  }

  /** Those facts pin the result down: no other suffix without '.' starts
      right after a '.' or at the start of s. */
  lemma AfterLastDotUnique(s: string, r: string)
    requires '.' !in r
    requires |r| <= |s| && r == s[|s| - |r|..]
    requires |r| < |s| ==> s[|s| - |r| - 1] == '.'
    ensures r == AfterLastDot(s)
  {
  }

  /** `s.substring(0, n)` for n >= 0: the first n characters, or all of s. */
  function Prefix(s: string, n: nat): (r: string)
    ensures |r| <= n && |r| <= |s|
    ensures StartsWith(s, r)
    ensures |s| <= n ==> r == s
  {
    if |s| <= n then s else s[..n]
  }

  // ---------------------------------------------------------------------------
  // Numbers

  predicate IsDigit(c: char)
  {
    '0' <= c <= '9'
  }

  predicate AllDigits(s: string)
  {
    forall i :: 0 <= i < |s| ==> IsDigit(s[i])
  }

  function DigitChar(d: nat): char
    requires d < 10
  {
    ('0' as int + d) as char
  }

  /** The value of a string of decimal digits. */
  function DecimalValue(s: string): nat
    requires AllDigits(s)
  {
    if |s| == 0 then 0
    else DecimalValue(s[..|s| - 1]) * 10 + (s[|s| - 1] as int - '0' as int)
  }

  /** The decimal text of a natural number, as `String(n)` renders it. */
  function NatToDecimal(n: nat): (r: string)
    ensures |r| > 0 && AllDigits(r)
    ensures |r| > 1 ==> r[0] != '0'
  {
    if n < 10 then [DigitChar(n)]
    else NatToDecimal(n / 10) + [DigitChar(n % 10)]
  }

  /** Rendering a number in decimal and reading the digits back gives the number. */
  lemma {:induction false} DecimalRoundTrip(n: nat)
    ensures DecimalValue(NatToDecimal(n)) == n
  {
    var r := NatToDecimal(n);
    if n >= 10 {
      DecimalRoundTrip(n / 10);
      assert r[..|r| - 1] == NatToDecimal(n / 10);
    }
  }

  /** The decimal text of an integer, with a leading '-' when negative. */
  function IntToDecimal(n: int): string
  {
    if n < 0 then "-" + NatToDecimal(-n) else NatToDecimal(n)
  }

  /** `String(v)`, as a template literal renders a JSON scalar. */
  function ToText(v: JsValue): string
  {
    match v
    case Undefined => "undefined"
    case Null => "null"
    case Bool(b) => if b then "true" else "false"
    case Num(n) => IntToDecimal(n)
    case Str(s) => s
  }

  /** `Math.round(x)`: the nearest integer, halves rounded up. */
  function MathRound(x: real): (r: int)
    ensures r as real - 0.5 <= x < r as real + 0.5
  {
    (x + 0.5).Floor
  }
}
