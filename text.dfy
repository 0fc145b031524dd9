/** String facts shared by the frontend (JavaScript) and the backend (Python):
    decimal rendering of integers as in a template literal or an f-string,
    and the two languages' notions of whitespace. */
module Text {

  function DigitChar(d: nat): (c: char)
    requires d < 10
    ensures '0' <= c <= '9'
  {
    "0123456789"[d]
  }

  predicate IsDigit(c: char) {
    '0' <= c <= '9'
  }

  /** The decimal text of `n`, as `${n}` gives it for a non-negative integer. */
  function NatToString(n: nat): (s: string)
    ensures |s| >= 1
    ensures forall i :: 0 <= i < |s| ==> IsDigit(s[i])
  {
    if n < 10 then [DigitChar(n)] else NatToString(n / 10) + [DigitChar(n % 10)]
  }

  /** The value a decimal digit string denotes. */
  function DigitsValue(s: string): nat
    requires forall i :: 0 <= i < |s| ==> IsDigit(s[i])
  {
    if s == [] then 0
    else
      assert IsDigit(s[|s| - 1]);
      10 * DigitsValue(s[..|s| - 1]) + (s[|s| - 1] as int - '0' as int)
  }

  /** Reading the decimal text back gives the number: rendering is a faithful encoding. */
  lemma {:induction false} NatToStringValue(n: nat)
    ensures DigitsValue(NatToString(n)) == n
  {
    if n >= 10 {
      NatToStringValue(n / 10);
      var s := NatToString(n);
      assert s[..|s| - 1] == NatToString(n / 10);
    }
  }

  /** Different numbers render differently. */
  lemma NatToStringInjective(a: nat, b: nat)
    requires NatToString(a) == NatToString(b)
    ensures a == b
  {
    NatToStringValue(a);
    NatToStringValue(b);
  }

  /** The index of the first occurrence of `c` in `s`, or `|s|` when there is none. */
  function IndexOf(s: string, c: char): (i: nat)
    ensures i <= |s|
    ensures i < |s| ==> s[i] == c
    ensures forall j :: 0 <= j < i ==> s[j] != c
  {
    if s == [] then 0 else if s[0] == c then 0 else 1 + IndexOf(s[1..], c)
  }

  lemma {:induction false} IndexOfAfterPrefix(p: string, c: char, rest: string)
    requires c !in p
    ensures IndexOf(p + [c] + rest, c) == |p|
  {
    if p != [] {
      assert (p + [c] + rest)[1..] == p[1..] + [c] + rest;
      IndexOfAfterPrefix(p[1..], c, rest);
    }
  }

  /** `prefix + "-" + n` determines `prefix` and `n` when the prefix has no dash:
      the first dash separates the two parts. */
  lemma DashedNameInjective(p1: string, n1: nat, p2: string, n2: nat)
    requires '-' !in p1 && '-' !in p2
    requires p1 + "-" + NatToString(n1) == p2 + "-" + NatToString(n2)
    ensures p1 == p2 && n1 == n2
  {
    var s := p1 + "-" + NatToString(n1);
    IndexOfAfterPrefix(p1, '-', NatToString(n1));
    IndexOfAfterPrefix(p2, '-', NatToString(n2));
    assert |p1| == |p2|;
    assert p1 == s[..|p1|];
    assert p2 == (p2 + "-" + NatToString(n2))[..|p2|];
    assert NatToString(n1) == s[|p1| + 1..];
    assert NatToString(n2) == (p2 + "-" + NatToString(n2))[|p2| + 1..];
    NatToStringInjective(n1, n2);
  }

  /** Characters removed by Python's `str.strip()` (those for which `str.isspace()` holds). */
  predicate IsPyWhitespace(c: char) {
    ('\t' <= c <= '\r') || ('\U{1c}' <= c <= '\U{1f}') || c == ' ' || c == '\U{85}' || c == '\U{a0}'
    || c == '\U{1680}' || ('\U{2000}' <= c <= '\U{200a}') || c == '\U{2028}' || c == '\U{2029}'
    || c == '\U{202f}' || c == '\U{205f}' || c == '\U{3000}'
  }

  /** Characters removed by JavaScript's `String.prototype.trim()` (WhiteSpace and LineTerminator). */
  predicate IsJsWhitespace(c: char) {
    ('\t' <= c <= '\r') || c == ' ' || c == '\U{a0}'
    || c == '\U{1680}' || ('\U{2000}' <= c <= '\U{200a}') || c == '\U{2028}' || c == '\U{2029}'
    || c == '\U{202f}' || c == '\U{205f}' || c == '\U{3000}' || c == '\U{feff}'
  }

  /** `not s.strip()` in Python: nothing but whitespace. */
  predicate PyBlank(s: string) {
    forall i :: 0 <= i < |s| ==> IsPyWhitespace(s[i])
  }

  /** `!s.trim()` in JavaScript: nothing but whitespace. */
  predicate JsBlank(s: string) {
    forall i :: 0 <= i < |s| ==> IsJsWhitespace(s[i])
  }

  /** A string that is truthy in JavaScript (and in Python): not empty. */
  predicate Truthy(s: string) {
    s != ""
  }
}
