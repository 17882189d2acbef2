/**
 * The string operations the engine borrows from JavaScript: ASCII digits and
 * their decimal value (`/\d+/` and `Number`), rendering a number into a
 * template (`${n}`), `toLowerCase`, `trim`, `includes` and `join`.
 * Strings are sequences of characters.
 */
module Strings {

  // ─── Digits and decimal numbers ────────────────────────────────────────────

  /** The characters `\d` matches in a JavaScript regular expression. */
  predicate IsDigit(c: char) {
    '0' <= c <= '9'
  }

  predicate AllDigits(s: string) {
    forall i :: 0 <= i < |s| ==> IsDigit(s[i])
  }

  function DigitValue(c: char): (d: nat)
    requires IsDigit(c)
    ensures d < 10
  {
    c as int - '0' as int
  }

  function DigitChar(d: nat): (c: char)
    requires d < 10
    ensures IsDigit(c) && DigitValue(c) == d
  {
    ('0' as int + d) as char
  }

  /** The number a run of decimal digits denotes, as `Number("007")` reads it. */
  function DigitsValue(s: string): nat
    requires AllDigits(s)
    decreases |s|
  {
    if s == [] then 0 else DigitsValue(s[..|s| - 1]) * 10 + DigitValue(s[|s| - 1])
  }

  /** The shortest decimal rendering of `n`, as a template literal `${n}` writes it. */
  function NatToString(n: nat): (s: string)
    ensures s != [] && AllDigits(s)
    ensures |s| == 1 <==> n < 10
    ensures s[0] == '0' <==> n == 0
    decreases n
  {
    if n < 10 then [DigitChar(n)] else NatToString(n / 10) + [DigitChar(n % 10)]
  }

  /** `${p}` for an integer `p`: a minus sign, then the digits of its magnitude. */
  function IntToString(p: int): (s: string)
    ensures p >= 0 ==> s == NatToString(p)
    ensures p < 0 ==> s == "-" + NatToString(-p)
  {
    if p < 0 then "-" + NatToString(-p) else NatToString(p)
  }

  lemma {:induction false} DigitsValuePositive(s: string)
    requires s != [] && AllDigits(s) && s[0] != '0'
    ensures DigitsValue(s) > 0
    decreases |s|
  {
    if |s| > 1 {
      DigitsValuePositive(s[..|s| - 1]);
    }
  }

  /** Rendering a number and reading it back gives the number. */
  lemma {:induction false} NatToStringRoundTrip(n: nat)
    ensures DigitsValue(NatToString(n)) == n
    decreases n
  {
    var s := NatToString(n);
    if n >= 10 {
      NatToStringRoundTrip(n / 10);
      assert s[..|s| - 1] == NatToString(n / 10);
    } else {
      assert s[..|s| - 1] == [];
    }
  }

  /** Reading a digit run without leading zeros and rendering the value back gives the run. */
  lemma {:induction false} DigitsRoundTrip(s: string)
    requires s != [] && AllDigits(s)
    requires |s| > 1 ==> s[0] != '0'
    ensures NatToString(DigitsValue(s)) == s
    decreases |s|
  {
    var p, c := s[..|s| - 1], s[|s| - 1];
    if |s| == 1 {
      assert DigitChar(DigitValue(c)) == c;
      assert s == [c];
    } else {
      DigitsValuePositive(p);
      DigitsRoundTrip(p);
      var v := DigitsValue(s);
      assert v / 10 == DigitsValue(p) && v % 10 == DigitValue(c);
      assert DigitChar(DigitValue(c)) == c;
      assert s == p + [c];
    }
  }

  // ─── Case ──────────────────────────────────────────────────────────────────

  predicate IsUpper(c: char) {
    'A' <= c <= 'Z'
  }

  /** ASCII lower-casing of one character. */
  function LowerChar(c: char): (d: char)
    ensures !IsUpper(d)
    ensures IsUpper(c) ==> d as int == c as int + 32
    ensures !IsUpper(c) ==> d == c
  {
    if IsUpper(c) then (c as int + 32) as char else c
  }

  /** `toLowerCase`, on the ASCII letters. */
  function Lower(s: string): (r: string)
    ensures |r| == |s|
    ensures forall i :: 0 <= i < |s| ==> r[i] == LowerChar(s[i])
  {
    seq(|s|, i requires 0 <= i < |s| => LowerChar(s[i]))
  }

  /** Lower-casing twice is lower-casing once. */
  lemma LowerIdempotent(s: string)
    ensures Lower(Lower(s)) == Lower(s)
  {
  }

  // ─── Trimming ──────────────────────────────────────────────────────────────

  /**
   * The characters `trim` removes: ECMAScript's WhiteSpace (tab, vertical tab,
   * form feed, space, no-break space, the byte-order mark and the Unicode space
   * separators) and LineTerminator (line feed, carriage return, U+2028, U+2029).
   */
  predicate IsWhitespace(c: char) {
    c == '\t' || c == '\n' || c == '\U{B}' || c == '\U{C}' || c == '\r' || c == ' '
    || c == '\U{A0}' || c == '\U{1680}' || ('\U{2000}' <= c <= '\U{200A}')
    || c == '\U{2028}' || c == '\U{2029}' || c == '\U{202F}' || c == '\U{205F}'
    || c == '\U{3000}' || c == '\U{FEFF}'
  }

  /** The number of whitespace characters at the start of `s`. */
  function LeadingWhitespace(s: string): (k: nat)
    ensures k <= |s|
    ensures forall i :: 0 <= i < k ==> IsWhitespace(s[i])
    ensures k < |s| ==> !IsWhitespace(s[k])
    decreases |s|
  {
    if s == [] || !IsWhitespace(s[0]) then 0 else 1 + LeadingWhitespace(s[1..])
  }

  /** The number of whitespace characters at the end of `s`. */
  function TrailingWhitespace(s: string): (k: nat)
    ensures k <= |s|
    ensures forall i :: |s| - k <= i < |s| ==> IsWhitespace(s[i])
    ensures k < |s| ==> !IsWhitespace(s[|s| - 1 - k])
    decreases |s|
  {
    if s == [] || !IsWhitespace(s[|s| - 1]) then 0 else 1 + TrailingWhitespace(s[..|s| - 1])
  }

  /**
   * Where `trim` cuts `s`: everything outside [lo, hi) is whitespace, and the
   * part kept starts and ends with a non-whitespace character (or is empty,
   * exactly when `s` is all whitespace).
   */
  function TrimBounds(s: string): (b: (nat, nat))
    ensures b.0 <= b.1 <= |s|
    ensures forall i :: 0 <= i < b.0 ==> IsWhitespace(s[i])
    ensures forall i :: b.1 <= i < |s| ==> IsWhitespace(s[i])
    ensures b.0 < b.1 ==> !IsWhitespace(s[b.0]) && !IsWhitespace(s[b.1 - 1])
    ensures b.0 == b.1 <==> forall i :: 0 <= i < |s| ==> IsWhitespace(s[i])
  {
    var lo := LeadingWhitespace(s);
    if lo == |s| then (lo, lo) else (lo, |s| - TrailingWhitespace(s))
  }

  /** `trim`: `s` without its leading and trailing whitespace. */
  function Trim(s: string): (r: string)
    ensures |r| <= |s|
    ensures r == [] <==> forall i :: 0 <= i < |s| ==> IsWhitespace(s[i])
    ensures r != [] ==> !IsWhitespace(r[0]) && !IsWhitespace(r[|r| - 1])
  {
    var b := TrimBounds(s);
    s[b.0..b.1]
  }

  // ─── Substrings ────────────────────────────────────────────────────────────

  /** `sub` occurs in `s` starting at index `i`. */
  predicate OccursAt(s: string, sub: string, i: nat) {
    i + |sub| <= |s| && s[i..i + |sub|] == sub
  }

  /** `s.includes(sub)`. */
  predicate Contains(s: string, sub: string) {
    exists i: nat | i <= |s| - |sub| :: OccursAt(s, sub, i)
  }

  /** Every string contains each piece it is glued from. */
  lemma ContainsInfix(a: string, b: string, c: string)
    ensures Contains(a + b + c, b)
  {
    assert OccursAt(a + b + c, b, |a|);
  }

  /** A string containing `w` contains everything `w` contains. */
  lemma ContainsTransitive(s: string, w: string, v: string)
    requires Contains(s, w) && Contains(w, v)
    ensures Contains(s, v)
  {
    var i: nat :| i <= |s| - |w| && OccursAt(s, w, i);
    var j: nat :| j <= |w| - |v| && OccursAt(w, v, j);
    forall k | 0 <= k < |v|
      ensures s[i + j + k] == v[k]
    {
      assert s[i..i + |w|][j + k] == w[j + k];
    }
    assert s[i + j..i + j + |v|] == v;
    assert OccursAt(s, v, i + j);
  }

  lemma ContainsStart(a: string, b: string)
    ensures Contains(a + b, a)
  {
    assert OccursAt(a + b, a, 0);
  }

  predicate StartsWith(s: string, prefix: string) {
    |prefix| <= |s| && s[..|prefix|] == prefix
  }

  predicate EndsWith(s: string, suffix: string) {
    |suffix| <= |s| && s[|s| - |suffix|..] == suffix
  }

  lemma EndsWithAppend(a: string, b: string)
    ensures EndsWith(a + b, b)
  {
    assert (a + b)[|a|..] == b;
  }

  /** What the tail of a string ends with, the whole string ends with. */
  lemma EndsWithExtend(a: string, b: string, x: string)
    requires EndsWith(b, x)
    ensures EndsWith(a + b, x)
  {
    assert (a + b)[|a + b| - |x|..] == b[|b| - |x|..];
  }

  // ─── Joining ───────────────────────────────────────────────────────────────

  /** `parts.join(sep)`. */
  function Join(parts: seq<string>, sep: string): string
    decreases |parts|
  {
    if |parts| == 0 then ""
    else if |parts| == 1 then parts[0]
    else parts[0] + sep + Join(parts[1..], sep)
  }

  /** A non-empty join begins with the first part and ends with the last. */
  lemma {:induction false} JoinEnds(parts: seq<string>, sep: string)
    requires |parts| > 0
    ensures StartsWith(Join(parts, sep), parts[0])
    ensures EndsWith(Join(parts, sep), parts[|parts| - 1])
    decreases |parts|
  {
    if |parts| > 1 {
      JoinEnds(parts[1..], sep);
      var rest := Join(parts[1..], sep);
      var last := parts[|parts| - 1];
      assert (parts[0] + sep + rest)[|parts[0] + sep + rest| - |last|..] == rest[|rest| - |last|..];
    }
  }

  /** Every part occurs in the joined string. */
  lemma {:induction false} JoinContains(parts: seq<string>, sep: string, k: nat)
    requires k < |parts|
    ensures Contains(Join(parts, sep), parts[k])
    decreases |parts|
  {
    if |parts| == 1 {
      ContainsPrefix(parts[0], [], []);
      assert parts[0] + [] + [] == parts[0];
    } else if k == 0 {
      ContainsPrefix(parts[0], sep, Join(parts[1..], sep));
    } else {
      JoinContains(parts[1..], sep, k - 1);
      ContainsInSuffix(parts[0] + sep, Join(parts[1..], sep), parts[k]);
    }
  }

  lemma ContainsPrefix(a: string, b: string, c: string)
    ensures Contains(a + b + c, a)
  {
    assert OccursAt(a + b + c, a, 0);
  }

  /** What the tail of a string contains, the whole string contains. */
  lemma ContainsInSuffix(a: string, b: string, x: string)
    requires Contains(b, x)
    ensures Contains(a + b, x)
  {
    var i: nat :| i <= |b| - |x| && OccursAt(b, x, i);
    assert (a + b)[|a| + i..|a| + i + |x|] == b[i..i + |x|];
    assert OccursAt(a + b, x, |a| + i);
  }
}
