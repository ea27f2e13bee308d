/** The few JavaScript semantics the pages rely on: optional values,
    truthiness of strings and numbers, `substring`, the head of `split`,
    `parseInt` on a digit string and the decimal rendering of a number. */
module Js {

  datatype Option<+T> = None | Some(value: T)

  /** `!!s` for a value typed `string | null`: absent and `""` are falsy. */
  predicate TruthyString(s: Option<string>) {
    s.Some? && s.value != ""
  }

  /** `!!n` for a value typed `number | null`: absent and `0` are falsy. */
  predicate TruthyNumber(n: Option<int>) {
    n.Some? && n.value != 0
  }

  /** `s.substring(0, end)` for a non-negative `end`: JavaScript clamps
      `end` to the length instead of failing. */
  function SubstringTo(s: string, end: nat): (r: string)
    ensures |r| == if end <= |s| then end else |s|
    ensures r <= s
  {
    if end <= |s| then s[..end] else s
  }

  /** `s.split(sep)[0]`: everything before the first `sep`, or all of `s`
      when `sep` does not occur. */
  function SplitHead(s: string, sep: char): (r: string)
    ensures r <= s
    ensures sep !in r
    ensures |r| < |s| ==> s[|r|] == sep
  {
    if s == [] || s[0] == sep then [] else [s[0]] + SplitHead(s[1..], sep)
  }

  /** The head of `s + [sep] + t` is `s` whenever `s` holds no `sep`. */
  lemma {:induction false} SplitHeadOfJoin(s: string, sep: char, t: string)
    requires sep !in s
    ensures SplitHead(s + [sep] + t, sep) == s
  {
    if s != [] {
      assert (s + [sep] + t)[1..] == s[1..] + [sep] + t;
      SplitHeadOfJoin(s[1..], sep, t);
    }
  }

  predicate IsDigit(c: char) {
    '0' <= c <= '9'
  }

  predicate IsDigits(s: string) {
    forall i :: 0 <= i < |s| ==> IsDigit(s[i])
  }

  function DigitChar(d: nat): (c: char)
    requires d < 10
    ensures IsDigit(c)
  {
    (48 + d) as char
  }

  function DigitValue(c: char): (d: nat)
    requires IsDigit(c)
    ensures d < 10 && DigitChar(d) == c
  {
    c as int - 48
  }

  /** `parseInt(s)` (radix 10) for a non-empty string of decimal digits:
      the value the digits spell, leading zeros included. */
  function ParseDecimal(s: string): (n: nat)
    requires s != [] && IsDigits(s)
    decreases |s|
  {
    if |s| == 1 then DigitValue(s[0])
    else ParseDecimal(s[..|s| - 1]) * 10 + DigitValue(s[|s| - 1])
  }

  /** Template-literal rendering `${n}` of a non-negative integer: its
      decimal digits, never padded with a leading zero. */
  function NumberToString(n: nat): (r: string)
    ensures r != [] && IsDigits(r)
    ensures r[0] == '0' ==> n == 0
  {
    if n < 10 then [DigitChar(n)] else NumberToString(n / 10) + [DigitChar(n % 10)]
  }

  /** `parseInt` undoes the decimal rendering. */
  lemma {:induction false} ParseNumberToString(n: nat)
    ensures ParseDecimal(NumberToString(n)) == n
  {
    if n >= 10 {
      var s := NumberToString(n);
      assert s[..|s| - 1] == NumberToString(n / 10);
      ParseNumberToString(n / 10);
    }
  }

  /** Rendering is injective: two numbers with the same text are equal. */
  lemma NumberToStringInjective(m: nat, n: nat)
    requires NumberToString(m) == NumberToString(n)
    ensures m == n
  {
    ParseNumberToString(m);
    ParseNumberToString(n);
  }

  /** `${n}` for any integer, as used for ids in request paths and links. */
  function IntToString(n: int): (r: string)
    ensures r != []
    ensures n >= 0 <==> r[0] != '-'
  {
    if n >= 0 then NumberToString(n) else "-" + NumberToString(-n)
  }

  /** Distinct integers render to distinct texts. */
  lemma IntToStringInjective(a: int, b: int)
    requires IntToString(a) == IntToString(b)
    ensures a == b
  {
    if a >= 0 && b >= 0 {
      NumberToStringInjective(a, b);
    } else if a < 0 && b < 0 {
      assert NumberToString(-a) == IntToString(a)[1..];
      assert NumberToString(-b) == IntToString(b)[1..];
      NumberToStringInjective(-a, -b);
    }
  }
}
