/**
 * The handful of JavaScript string operations the front-end relies on:
 * `startsWith`, `includes`, `indexOf`, `replace` with a string pattern,
 * `toLowerCase`, `trim`, `Array.prototype.join`, `String(n)` for a
 * non-negative integer and `Number(s)`.
 */
module Strings {
  import opened Base

  predicate StartsWith(s: string, prefix: string) {
    |prefix| <= |s| && s[..|prefix|] == prefix
  }

  /** `pattern` occurs in `s` starting at index `j`. */
  predicate OccursAt(s: string, pattern: string, j: nat) {
    j + |pattern| <= |s| && s[j..j + |pattern|] == pattern
  }

  /** Shifting the haystack by one character shifts every occurrence by one. */
  lemma OccursAtTail(s: string, pattern: string, j: nat)
    requires |s| > 0
    ensures OccursAt(s, pattern, j + 1) <==> OccursAt(s[1..], pattern, j)
  {
    if j + 1 + |pattern| <= |s| {
      assert s[j + 1..j + 1 + |pattern|] == s[1..][j..j + |pattern|];
    }
  }

  /** `s.indexOf(pattern)`: the first index at which `pattern` occurs, if any. */
  function IndexOf(s: string, pattern: string): (r: Option<nat>)
    ensures r.Some? ==> OccursAt(s, pattern, r.value)
    ensures r.Some? ==> forall j: nat :: j < r.value ==> !OccursAt(s, pattern, j)
    ensures r.None? ==> forall j: nat :: !OccursAt(s, pattern, j)
    decreases |s|
  {
    if StartsWith(s, pattern) then
      assert s[0..|pattern|] == s[..|pattern|];
      Some(0)
    else if |s| == 0 then
      None
    else
      var rest := IndexOf(s[1..], pattern);
      assert forall j: nat :: OccursAt(s, pattern, j + 1) <==> OccursAt(s[1..], pattern, j) by {
        forall j: nat ensures OccursAt(s, pattern, j + 1) <==> OccursAt(s[1..], pattern, j) {
          OccursAtTail(s, pattern, j);
        }
      }
      assert !OccursAt(s, pattern, 0) by {
        if |pattern| <= |s| {
          assert s[0..|pattern|] == s[..|pattern|];
        }
      }
      match rest
      case None =>
        assert forall j: nat :: !OccursAt(s, pattern, j) by {
          forall j: nat ensures !OccursAt(s, pattern, j) {
            if j > 0 {
              assert OccursAt(s, pattern, (j - 1) + 1) <==> OccursAt(s[1..], pattern, j - 1);
            }
          }
        }
        None
      case Some(i) =>
        assert forall j: nat :: j < i + 1 ==> !OccursAt(s, pattern, j) by {
          forall j: nat | j < i + 1 ensures !OccursAt(s, pattern, j) {
            if j > 0 {
              assert OccursAt(s, pattern, (j - 1) + 1) <==> OccursAt(s[1..], pattern, j - 1);
            }
          }
        }
        Some(i + 1)
  }

  /** `s.includes(q)`. */
  predicate Contains(s: string, q: string) {
    IndexOf(s, q).Some?
  }

  /**
   * `s.replace(pattern, replacement)` with a string pattern: only the FIRST
   * occurrence is replaced, wherever it is; without one, `s` is unchanged.
   */
  function ReplaceFirst(s: string, pattern: string, replacement: string): (r: string)
    ensures IndexOf(s, pattern).None? ==> r == s
    ensures IndexOf(s, pattern).Some? ==>
              |r| == |s| - |pattern| + |replacement|
    ensures IndexOf(s, pattern).Some? ==>
              var i := IndexOf(s, pattern).value;
              i + |pattern| <= |s| && r == s[..i] + replacement + s[i + |pattern|..]
  {
    match IndexOf(s, pattern)
    case None => s
    case Some(i) => s[..i] + replacement + s[i + |pattern|..]
  }

  /** Removing a pattern from the front of `pattern + t` gives back `t`, whatever `t` holds. */
  lemma ReplaceLeadingPattern(pattern: string, t: string)
    ensures ReplaceFirst(pattern + t, pattern, "") == t
  {
    var s := pattern + t;
    assert s[..|pattern|] == pattern;
    assert IndexOf(s, pattern) == Some(0);
    assert s[|pattern|..] == t;
  }

  /** ASCII `toLowerCase` of one character. */
  function LowerChar(c: char): (r: char)
    ensures 'A' <= c <= 'Z' ==> r as int == c as int + 32
    ensures !('A' <= c <= 'Z') ==> r == c
  {
    if 'A' <= c <= 'Z' then (c as int - 'A' as int + 'a' as int) as char else c
  }

  function Lower(s: string): (r: string)
    ensures |r| == |s|
  {
    seq(|s|, i requires 0 <= i < |s| => LowerChar(s[i]))
  }

  /** Lower-casing a literal, one character at a time. */
  lemma LowerLiteral(s: string, lower: string)
    requires |s| == |lower|
    requires forall i :: 0 <= i < |s| ==> LowerChar(s[i]) == lower[i]
    ensures Lower(s) == lower
  {
  }

  /**
   * The characters `String.prototype.trim` (and `Number`) strip: the
   * WhiteSpace and LineTerminator productions of ECMA-262, with every
   * space separator of Unicode category Zs written out.
   */
  predicate IsSpace(c: char) {
    || c == ' ' || c == '\t' || c == '\n' || c == '\r'
    || c == '\U{000B}' || c == '\U{000C}' || c == '\U{00A0}' || c == '\U{FEFF}'
    || c == '\U{1680}' || ('\U{2000}' <= c <= '\U{200A}')
    || c == '\U{2028}' || c == '\U{2029}' || c == '\U{202F}' || c == '\U{205F}'
    || c == '\U{3000}'
  }

  predicate AllSpace(s: string) {
    forall i :: 0 <= i < |s| ==> IsSpace(s[i])
  }

  function TrimStart(s: string): string {
    if |s| > 0 && IsSpace(s[0]) then TrimStart(s[1..]) else s
  }

  function TrimEnd(s: string): string {
    if |s| > 0 && IsSpace(s[|s| - 1]) then TrimEnd(s[..|s| - 1]) else s
  }

  /** `s.trim()`. */
  function Trim(s: string): string {
    TrimEnd(TrimStart(s))
  }

  lemma {:induction false} TrimStartEmpty(s: string)
    ensures TrimStart(s) == "" <==> AllSpace(s)
    ensures TrimStart(s) != "" ==> !IsSpace(TrimStart(s)[0])
    decreases |s|
  {
    if |s| > 0 && IsSpace(s[0]) {
      TrimStartEmpty(s[1..]);
      assert AllSpace(s) <==> AllSpace(s[1..]) by {
        if AllSpace(s[1..]) {
          forall i | 0 <= i < |s| ensures IsSpace(s[i]) {
            if i > 0 { assert s[i] == s[1..][i - 1]; }
          }
        }
      }
    }
  }

  lemma {:induction false} TrimEndKeepsNonSpaceStart(s: string)
    requires s != "" && !IsSpace(s[0])
    ensures TrimEnd(s) != ""
    decreases |s|
  {
    if IsSpace(s[|s| - 1]) {
      TrimEndKeepsNonSpaceStart(s[..|s| - 1]);
    }
  }

  /** A string trims to nothing exactly when every character is white space. */
  lemma TrimEmptyIffAllSpace(s: string)
    ensures Trim(s) == "" <==> AllSpace(s)
  {
    TrimStartEmpty(s);
    if TrimStart(s) != "" {
      TrimEndKeepsNonSpaceStart(TrimStart(s));
    }
  }

  /** A string that neither starts nor ends with white space is its own trim. */
  lemma TrimUnchanged(s: string)
    requires s == "" || (!IsSpace(s[0]) && !IsSpace(s[|s| - 1]))
    ensures Trim(s) == s
  {
  }

  /** `xs.join(sep)`. */
  function Join(xs: seq<string>, sep: string): string
    decreases |xs|
  {
    if |xs| == 0 then ""
    else if |xs| == 1 then xs[0]
    else xs[0] + sep + Join(xs[1..], sep)
  }

  /** Appending one more string to a non-empty list adds one separator and that string at the end. */
  lemma {:induction false} JoinSnoc(xs: seq<string>, y: string, sep: string)
    requires |xs| > 0
    ensures Join(xs + [y], sep) == Join(xs, sep) + sep + y
    decreases |xs|
  {
    if |xs| == 1 {
      assert (xs + [y])[1..] == [y];
    } else {
      assert (xs + [y])[1..] == xs[1..] + [y];
      JoinSnoc(xs[1..], y, sep);
    }
  }

  predicate IsDigit(c: char) {
    '0' <= c <= '9'
  }

  predicate AllDigits(s: string) {
    forall i :: 0 <= i < |s| ==> IsDigit(s[i])
  }

  function DigitChar(d: nat): (c: char)
    requires d < 10
    ensures IsDigit(c)
  {
    ('0' as int + d) as char
  }

  /** `String(n)` for a non-negative integer below 10^21, in decimal without leading zeros. */
  function NatToString(n: nat): string
    decreases n
  {
    if n < 10 then [DigitChar(n)] else NatToString(n / 10) + [DigitChar(n % 10)]
  }

  /** The value of a string of decimal digits. */
  function DigitsValue(s: string): nat
    requires AllDigits(s)
    decreases |s|
  {
    if |s| == 0 then 0
    else DigitsValue(s[..|s| - 1]) * 10 + (s[|s| - 1] as int - '0' as int)
  }

  /**
   * `Number(s)` for the inputs the session code meets: surrounding white
   * space is ignored, a string of nothing but white space is 0, and an
   * optionally signed run of decimal digits is read as an integer; anything
   * else is NaN (`None`).
   */
  function ParseNumber(s: string): (r: Option<int>)
    ensures AllSpace(s) ==> r == Some(0)
  {
    var t := Trim(s);
    TrimEmptyIffAllSpace(s);
    if t == "" then Some(0)
    else if AllDigits(t) then Some(DigitsValue(t))
    else if |t| > 1 && (t[0] == '-' || t[0] == '+') && AllDigits(t[1..]) then
      var magnitude: int := DigitsValue(t[1..]);
      Some(if t[0] == '-' then -magnitude else magnitude)
    else None
  }

  /** `String(n)` is a non-empty run of digits whose value is `n`. */
  lemma {:induction false} NatToStringDigits(n: nat)
    ensures |NatToString(n)| > 0
    ensures AllDigits(NatToString(n))
    ensures DigitsValue(NatToString(n)) == n
    decreases n
  {
    if n >= 10 {
      NatToStringDigits(n / 10);
      var s := NatToString(n);
      assert s[..|s| - 1] == NatToString(n / 10);
    }
  }

  /** `Number(String(n)) == n`: the decimal form of a timestamp reads back as the same timestamp. */
  lemma NumberRoundTrip(n: nat)
    ensures ParseNumber(NatToString(n)) == Some(n)
  {
    NatToStringDigits(n);
    var s := NatToString(n);
    assert !IsSpace(s[0]) && !IsSpace(s[|s| - 1]);
    TrimUnchanged(s);
  }

  /** Distinct numbers have distinct decimal forms. */
  lemma NatToStringInjective(a: nat, b: nat)
    requires NatToString(a) == NatToString(b)
    ensures a == b
  {
    NatToStringDigits(a);
    NatToStringDigits(b);
  }

  /** Appending one digit to the decimal form of a positive number multiplies it by ten and adds the digit. */
  lemma NatToStringAppendDigit(n: nat, d: nat)
    requires n >= 1 && d < 10
    ensures NatToString(10 * n + d) == NatToString(n) + [DigitChar(d)]
  {
    var m := 10 * n + d;
    assert m / 10 == n && m % 10 == d;
  }
}
