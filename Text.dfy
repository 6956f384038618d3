/**
 * Character classes, case conversion, trimming and decimal rendering as the
 * JavaScript runtime performs them on the strings the application handles.
 *
 * Whitespace (`\s` in a regular expression, `String.prototype.trim`) is the
 * ASCII set tab, line feed, vertical tab, form feed, carriage return and
 * space, together with U+00A0 (no-break space). Case conversion is modelled
 * on ASCII and Latin-1, the characters the prescription parser can capture.
 */
module Text {

  predicate IsSpace(c: char) {
    c == ' ' || c == '\t' || c == '\n' || c == '\r' ||
    c == '\U{000B}' || c == '\U{000C}' || c == '\U{00A0}'
  }

  predicate IsDigit(c: char) {
    '0' <= c <= '9'
  }

  predicate IsAsciiLetter(c: char) {
    ('A' <= c <= 'Z') || ('a' <= c <= 'z')
  }

  /** The range `À-ÿ` of a regular-expression class: U+00C0 to U+00FF, which includes `×` and `÷`. */
  predicate IsLatin1Upper(c: char) {
    '\U{00C0}' <= c <= '\U{00FF}'
  }

  /** The class `[A-Za-zÀ-ÿ\s]` of the medication pattern. */
  predicate IsNameChar(c: char) {
    IsAsciiLetter(c) || IsLatin1Upper(c) || IsSpace(c)
  }

  /** Folding used by the `i` flag of a regular expression on the ASCII keywords of the patterns. */
  function FoldAscii(c: char): char {
    if 'A' <= c <= 'Z' then (c as int + 32) as char else c
  }

  /** True when `s` holds `w` (a lower-case keyword) at offset `i`, ignoring ASCII case. */
  predicate HasWordAt(s: string, i: nat, w: string) {
    i + |w| <= |s| && forall k :: 0 <= k < |w| ==> FoldAscii(s[i + k]) == w[k]
  }

  /** `toLowerCase` of one character, on ASCII and Latin-1 (`×` and `ß` have no lower-case form). */
  function LowerChar(c: char): char {
    if 'A' <= c <= 'Z' || ('\U{00C0}' <= c <= '\U{00DE}' && c != '\U{00D7}')
    then (c as int + 32) as char
    else c
  }

  /** The lower-case letters of ASCII and Latin-1: `a-z`, `µ`, and U+00DF to U+00FF except `÷`. */
  predicate IsLowerLetter(c: char) {
    'a' <= c <= 'z' || c == '\U{00B5}' || ('\U{00DF}' <= c <= '\U{00FF}' && c != '\U{00F7}')
  }

  /** `toUpperCase` of one character, on ASCII and Latin-1: `ß` becomes "SS", `ÿ` becomes U+0178 and `µ` U+039C. */
  function UpperChar(c: char): (r: string)
    ensures 1 <= |r| <= 2
    ensures forall k :: 0 <= k < |r| ==> !IsLowerLetter(r[k])
    ensures !IsLowerLetter(c) ==> r == [c]
    ensures |r| == 2 <==> c == '\U{00DF}'
    ensures c == '\U{00DF}' ==> r == "SS"
    ensures c == '\U{00FF}' ==> r == ['\U{0178}']
    ensures c == '\U{00B5}' ==> r == ['\U{039C}']
    ensures |r| == 1 && c != '\U{00FF}' && c != '\U{00B5}' ==> LowerChar(r[0]) == LowerChar(c)
    ensures IsLowerLetter(c) && c != '\U{00DF}' && c != '\U{00FF}' && c != '\U{00B5}' ==> LowerChar(r[0]) == c
  {
    if 'a' <= c <= 'z' || ('\U{00E0}' <= c <= '\U{00FE}' && c != '\U{00F7}') then [(c as int - 32) as char]
    else if c == '\U{00DF}' then "SS"
    else if c == '\U{00FF}' then ['\U{0178}']
    else if c == '\U{00B5}' then ['\U{039C}']
    else [c]
  }

  function Lower(s: string): (r: string)
    ensures |r| == |s|
    ensures forall i :: 0 <= i < |s| ==> r[i] == LowerChar(s[i])
  {
    if s == [] then [] else [LowerChar(s[0])] + Lower(s[1..])
  }

  /** `toLowerCase` leaves a lower-cased string as it is. */
  lemma LowerIdempotent(s: string)
    ensures Lower(Lower(s)) == Lower(s)
  {
    var l := Lower(s);
    assert forall i :: 0 <= i < |l| ==> LowerChar(l[i]) == l[i];
  }

  /** `s.charAt(0).toUpperCase() + s.slice(1).toLowerCase()`. */
  function Capitalize(s: string): (r: string)
    ensures |s| <= |r| <= |s| + 1
    ensures s != [] ==> r[..|r| - (|s| - 1)] == UpperChar(s[0])
    ensures s != [] ==> r[|r| - (|s| - 1)..] == Lower(s[1..])
  {
    if s == [] then [] else UpperChar(s[0]) + Lower(s[1..])
  }

  /** The number of whitespace characters at the start of `s`. */
  function LeadingSpaces(s: string): (n: nat)
    ensures n <= |s|
    ensures forall i :: 0 <= i < n ==> IsSpace(s[i])
    ensures n < |s| ==> !IsSpace(s[n])
  {
    if s == [] || !IsSpace(s[0]) then 0 else 1 + LeadingSpaces(s[1..])
  }

  /** The number of whitespace characters at the end of `s`. */
  function TrailingSpaces(s: string): (n: nat)
    ensures n <= |s|
    ensures forall i :: |s| - n <= i < |s| ==> IsSpace(s[i])
    ensures n < |s| ==> !IsSpace(s[|s| - 1 - n])
  {
    if s == [] || !IsSpace(s[|s| - 1]) then 0 else 1 + TrailingSpaces(s[..|s| - 1])
  }

  /** `String.prototype.trim`: the slice of `s` left after removing whitespace at both ends. */
  function Trim(s: string): (r: string)
    ensures |r| <= |s|
    ensures r == [] <==> forall i :: 0 <= i < |s| ==> IsSpace(s[i])
    ensures r != [] ==> !IsSpace(r[0]) && !IsSpace(r[|r| - 1])
    ensures LeadingSpaces(s) + |r| <= |s| && r == s[LeadingSpaces(s)..LeadingSpaces(s) + |r|]
    ensures forall i :: LeadingSpaces(s) + |r| <= i < |s| ==> IsSpace(s[i])
  {
    var lo := LeadingSpaces(s);
    if lo == |s| then []
    else
      var hi := |s| - TrailingSpaces(s);
      assert lo < hi;
      assert forall i :: 0 <= i < |s| && !IsSpace(s[i]) ==> lo <= i < hi;
      s[lo..hi]
  }

  /** Trimming twice is trimming once. */
  lemma TrimIdempotent(s: string)
    ensures Trim(Trim(s)) == Trim(s)
  {
    var t := Trim(s);
    if t != [] {
      assert LeadingSpaces(t) == 0;
      assert TrailingSpaces(t) == 0;
    }
  }

  /** `s.replace(/\s/g, '')`. */
  function RemoveSpaces(s: string): (r: string)
    ensures forall i :: 0 <= i < |r| ==> !IsSpace(r[i])
    ensures (forall i :: 0 <= i < |s| ==> !IsSpace(s[i])) ==> r == s
    ensures r == [] <==> forall i :: 0 <= i < |s| ==> IsSpace(s[i])
  {
    if s == [] then []
    else
      assert s == [s[0]] + s[1..];
      if IsSpace(s[0]) then RemoveSpaces(s[1..]) else [s[0]] + RemoveSpaces(s[1..])
  }

  /** The non-space characters of `s` survive `RemoveSpaces` in their order. */
  lemma RemoveSpacesKeeps(s: string, t: string)
    ensures RemoveSpaces(s + t) == RemoveSpaces(s) + RemoveSpaces(t)
  {
    if s != [] {
      assert (s + t)[1..] == s[1..] + t;
      RemoveSpacesKeeps(s[1..], t);
    } else {
      assert s + t == t;
    }
  }

  /** `String.prototype.length`, which counts UTF-16 code units: a character above U+FFFF counts twice. */
  function Utf16Length(s: string): (n: nat)
    ensures |s| <= n <= 2 * |s|
    ensures (forall i :: 0 <= i < |s| ==> s[i] as int <= 0xFFFF) ==> n == |s|
  {
    if s == [] then 0 else (if s[0] as int > 0xFFFF then 2 else 1) + Utf16Length(s[1..])
  }

  predicate AllDigits(s: string) {
    forall i :: 0 <= i < |s| ==> IsDigit(s[i])
  }

  function DigitChar(d: nat): (c: char)
    requires d < 10
    ensures IsDigit(c) && c as int - '0' as int == d
  {
    ('0' as int + d) as char
  }

  /** `Number.prototype.toString()` of a non-negative integer: its decimal digits, without leading zeros. */
  function NatToString(n: nat): (r: string)
    ensures r != [] && AllDigits(r)
    ensures |r| > 1 ==> r[0] != '0'
    decreases n
  {
    if n < 10 then [DigitChar(n)]
    else NatToString(n / 10) + [DigitChar(n % 10)]
  }

  /** The number a string of decimal digits denotes. */
  function DigitsValue(s: string): nat
    requires AllDigits(s)
  {
    if s == [] then 0
    else DigitsValue(s[..|s| - 1]) * 10 + (s[|s| - 1] as int - '0' as int)
  }

  /** Reading back a rendered number gives the number. */
  lemma {:induction false} DecimalRoundTrip(n: nat)
    ensures DigitsValue(NatToString(n)) == n
    decreases n
  {
    if n >= 10 {
      DecimalRoundTrip(n / 10);
      var r := NatToString(n);
      assert r[..|r| - 1] == NatToString(n / 10);
    }
  }

  /** Distinct numbers render as distinct strings (so `(length + 1).toString()` ids never collide). */
  lemma NatToStringInjective(a: nat, b: nat)
    ensures NatToString(a) == NatToString(b) <==> a == b
  {
    if NatToString(a) == NatToString(b) {
      DecimalRoundTrip(a);
      DecimalRoundTrip(b);
    }
  }

  /** `NatToStringInjective` for all pairs at once. */
  lemma NatToStringInjectiveAll()
    ensures forall a: nat, b: nat :: NatToString(a) == NatToString(b) ==> a == b
  {
    forall a: nat, b: nat | NatToString(a) == NatToString(b) ensures a == b {
      NatToStringInjective(a, b);
    }
  }
}
