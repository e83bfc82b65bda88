/** The JavaScript string rules the tracker relies on: `trim()`, the global
    replacement of '/' by '-', upper-casing a first character and writing a
    number in decimal. */
module Text {

  /** The characters `String.prototype.trim` removes: ECMAScript's
      WhiteSpace and LineTerminator code points. */
  predicate IsJsWhitespace(c: char)
  {
    || c == ' ' || c == '\t' || c == '\n' || c == '\r'
    || c == '\U{B}' || c == '\U{C}' || c == '\U{A0}' || c == '\U{1680}'
    || ('\U{2000}' <= c <= '\U{200A}')
    || c == '\U{2028}' || c == '\U{2029}' || c == '\U{202F}' || c == '\U{205F}'
    || c == '\U{3000}' || c == '\U{FEFF}'
  }

  /** The first position at or after `i` that is not whitespace, or |s|
      when everything from `i` on is whitespace. */
  function LeadingEnd(s: string, i: nat): (k: nat)
    requires i <= |s|
    ensures i <= k <= |s|
    ensures forall j :: i <= j < k ==> IsJsWhitespace(s[j])
    ensures k < |s| ==> !IsJsWhitespace(s[k])
    decreases |s| - i
  {
    if i < |s| && IsJsWhitespace(s[i]) then LeadingEnd(s, i + 1) else i
  }

  /** Walking down from `j` no lower than `lo`: the end of the last
      character before `j` that is not whitespace, or `lo`. */
  function TrailingStart(s: string, lo: nat, j: nat): (k: nat)
    requires lo <= j <= |s|
    ensures lo <= k <= j
    ensures forall m :: k <= m < j ==> IsJsWhitespace(s[m])
    ensures k > lo ==> !IsJsWhitespace(s[k - 1])
    decreases j
  {
    if j > lo && IsJsWhitespace(s[j - 1]) then TrailingStart(s, lo, j - 1) else j
  }

  /** `s.trim()`: the piece of `s` left once leading and trailing whitespace
      is cut off. Everything cut off is whitespace, the piece neither starts
      nor ends with whitespace, and it is empty exactly when `s` is all
      whitespace. */
  function Trim(s: string): (r: string)
    ensures |r| <= |s|
    ensures var lo := LeadingEnd(s, 0);
            && lo + |r| <= |s| && r == s[lo..lo + |r|]
            && (forall i :: 0 <= i < lo ==> IsJsWhitespace(s[i]))
            && (forall i :: lo + |r| <= i < |s| ==> IsJsWhitespace(s[i]))
    ensures r == [] <==> forall i :: 0 <= i < |s| ==> IsJsWhitespace(s[i])
    ensures r != [] ==> !IsJsWhitespace(r[0]) && !IsJsWhitespace(r[|r| - 1])
  {
    var lo := LeadingEnd(s, 0);
    s[lo..TrailingStart(s, lo, |s|)]
  }

  /** Trimming twice is trimming once. */
  lemma {:induction false} TrimIdempotent(s: string)
    ensures Trim(Trim(s)) == Trim(s)
  {
    var r := Trim(s);
    if r != [] {
      assert LeadingEnd(r, 0) == 0;
      assert TrailingStart(r, 0, |r|) == |r|;
      assert r[0..|r|] == r;
    }
  }

  /** `s.replace(/\//g, '-')`: the same length, every '/' becomes '-', every
      other character stays. */
  function ReplaceSlashes(s: string): (r: string)
    ensures |r| == |s|
    ensures forall i :: 0 <= i < |s| ==> r[i] == (if s[i] == '/' then '-' else s[i])
    decreases |s|
  {
    if s == [] then []
    else
      var c := s[|s| - 1];
      ReplaceSlashes(s[..|s| - 1]) + [if c == '/' then '-' else c]
  }

  /** No '/' is left after the replacement, and a text without '/' is kept
      as it is. */
  lemma ReplaceSlashesRemovesAll(s: string)
    ensures '/' !in ReplaceSlashes(s)
    ensures '/' !in s ==> ReplaceSlashes(s) == s
    ensures ReplaceSlashes(ReplaceSlashes(s)) == ReplaceSlashes(s)
  {
    var r := ReplaceSlashes(s);
    forall i | 0 <= i < |r| ensures r[i] != '/' {
    }
  }

  /** The replacement works character by character, so it splits over a
      concatenation. */
  lemma ReplaceSlashesConcat(a: string, b: string)
    ensures ReplaceSlashes(a + b) == ReplaceSlashes(a) + ReplaceSlashes(b)
  {
    var l, r := ReplaceSlashes(a + b), ReplaceSlashes(a) + ReplaceSlashes(b);
    assert |l| == |r|;
    forall i | 0 <= i < |l| ensures l[i] == r[i] {
      if i < |a| {
        assert (a + b)[i] == a[i];
      } else {
        assert (a + b)[i] == b[i - |a|];
      }
    }
  }

  /** `toUpperCase()` of one character, for Basic Latin and Latin-1. Every
      other character is left unchanged. */
  function UpperCase(c: char): (r: string)
    ensures |r| >= 1
    ensures 'a' <= c <= 'z' ==> r == [(c as int - 32) as char] && 'A' <= r[0] <= 'Z'
    ensures ('\U{E0}' <= c <= '\U{FE}' && c != '\U{F7}') ==> r == [(c as int - 32) as char]
    ensures c == '\U{DF}' ==> r == "SS"
    ensures c == '\U{FF}' ==> r == ['\U{178}']
    ensures c == '\U{B5}' ==> r == ['\U{39C}']
    ensures !('a' <= c <= 'z' || '\U{B5}' == c || '\U{DF}' <= c <= '\U{FF}') || c == '\U{F7}' ==> r == [c]
    ensures ('/' in r) == (c == '/')
    ensures !IsJsWhitespace(c) ==> forall i :: 0 <= i < |r| ==> !IsJsWhitespace(r[i])
  {
    if 'a' <= c <= 'z' || ('\U{E0}' <= c <= '\U{FE}' && c != '\U{F7}') then [(c as int - 32) as char]
    else if c == '\U{DF}' then "SS"
    else if c == '\U{FF}' then ['\U{178}']
    else if c == '\U{B5}' then ['\U{39C}']
    else [c]
  }

  /** `s.charAt(0).toUpperCase() + s.slice(1)`: only the first character
      changes; the rest of the text is kept. */
  function Capitalize(s: string): (r: string)
    ensures s == [] <==> r == []
    ensures s != [] ==> r == UpperCase(s[0]) + s[1..]
    ensures s != [] ==> |r| >= |s| && r[|r| - |s| + 1..] == s[1..]
    ensures s != [] && 'a' <= s[0] <= 'z' ==> r[0] == (s[0] as int - 32) as char && r[1..] == s[1..]
    ensures ('/' in r) == ('/' in s)
  {
    if s == [] then [] else
      var u := UpperCase(s[0]);
      assert ('/' in s) == (s[0] == '/' || '/' in s[1..]) by {
        if '/' in s {
          var i :| 0 <= i < |s| && s[i] == '/';
          if i > 0 { assert s[1..][i - 1] == '/'; }
        }
      }
      u + s[1..]
  }

  function DigitChar(d: nat): (c: char)
    requires d < 10
    ensures '0' <= c <= '9' && c as int - '0' as int == d
  {
    ['0', '1', '2', '3', '4', '5', '6', '7', '8', '9'][d]
  }

  /** The value written by a string of decimal digits (its inverse). */
  function DecimalValue(s: string): nat
    requires forall i :: 0 <= i < |s| ==> '0' <= s[i] <= '9'
  {
    if s == [] then 0 else DecimalValue(s[..|s| - 1]) * 10 + (s[|s| - 1] as int - '0' as int)
  }

  /** `s` writes `n` in decimal: digits only, with value `n`. */
  predicate ReadsAsDecimal(s: string, n: int)
  {
    && (forall i :: 0 <= i < |s| ==> '0' <= s[i] <= '9')
    && DecimalValue(s) == n
  }

  /** A natural number written in decimal, as `${n}` writes it: one or more
      digits, with a leading '0' only for zero itself. */
  function NatToDecimal(n: nat): (r: string)
    ensures |r| >= 1
    ensures forall i :: 0 <= i < |r| ==> '0' <= r[i] <= '9'
    ensures (r[0] == '0') == (n == 0)
  {
    if n < 10 then [DigitChar(n)] else NatToDecimal(n / 10) + [DigitChar(n % 10)]
  }

  /** Reading back the decimal text gives the number again. */
  lemma {:induction false} NatToDecimalRoundTrip(n: nat)
    ensures DecimalValue(NatToDecimal(n)) == n
  {
    if n >= 10 {
      var p := NatToDecimal(n / 10);
      NatToDecimalRoundTrip(n / 10);
      assert (p + [DigitChar(n % 10)])[..|p|] == p;
    }
  }

  /** An integer written in decimal, with a '-' in front when negative;
      the digits read back as its magnitude and, as `${n}` writes them,
      start with '0' only for zero. */
  function IntToDecimal(n: int): (r: string)
    ensures |r| >= 1 && '/' !in r
    ensures (r[0] == '-') == (n < 0)
    ensures forall i :: 0 < i < |r| ==> '0' <= r[i] <= '9'
    ensures n >= 0 ==> ReadsAsDecimal(r, n)
    ensures n < 0 ==> ReadsAsDecimal(r[1..], -n)
    ensures n >= 0 ==> (r[0] == '0') == (n == 0)
    ensures n < 0 ==> |r| >= 2 && r[1] != '0'
  {
    if n < 0 then
      NatToDecimalReads(-n);
      MinusThenDigits(NatToDecimal(-n), -n);
      "-" + NatToDecimal(-n)
    else
      NatToDecimalReads(n);
      NatToDecimal(n)
  }

  /** The decimal writing of a natural number reads back as it and holds
      no '/'. */
  lemma NatToDecimalReads(n: nat)
    ensures ReadsAsDecimal(NatToDecimal(n), n) && '/' !in NatToDecimal(n)
  {
    NatToDecimalRoundTrip(n);
    DigitsHaveNoSlash(NatToDecimal(n));
  }

  /** Digits are not '/'. */
  lemma DigitsHaveNoSlash(digits: string)
    requires forall i :: 0 <= i < |digits| ==> '0' <= digits[i] <= '9'
    ensures '/' !in digits
  {
  }

  /** A '-' in front of the decimal writing of `m`: what follows it still
      reads as `m`. */
  lemma MinusThenDigits(digits: string, m: nat)
    requires ReadsAsDecimal(digits, m)
    ensures var r := "-" + digits;
            && r[0] == '-' && '/' !in r
            && (forall i :: 0 < i < |r| ==> '0' <= r[i] <= '9')
            && ReadsAsDecimal(r[1..], m)
  {
    var r := "-" + digits;
    assert r[1..] == digits;
    assert forall i :: 0 < i < |r| ==> r[i] == digits[i - 1];
  }
}
