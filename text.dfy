/**
 * The string primitives the tracker and the flight directory rely on:
 * Python's str.lower(), str.upper(), str.strip(), the substring test
 * `kw in text`, `any(kw in text for kw in kws)` and the decimal rendering
 * of an int inside an f-string.
 */
module Text {

  /** The characters for which Python's str.isspace() holds. */
  predicate IsSpace(c: char) {
    || c == ' '
    || ('\t' <= c <= '\r')
    || ('\U{1C}' <= c <= '\U{1F}')
    || c == '\U{85}' || c == '\U{A0}' || c == '\U{1680}'
    || ('\U{2000}' <= c <= '\U{200A}')
    || c == '\U{2028}' || c == '\U{2029}' || c == '\U{202F}'
    || c == '\U{205F}' || c == '\U{3000}'
  }

  /** Upper-case letters of ASCII and Latin-1 (without the multiplication sign). */
  predicate IsUpperLetter(c: char) {
    ('A' <= c <= 'Z') || ('\U{C0}' <= c <= '\U{DE}' && c != '\U{D7}')
  }

  /** Lower-case letters of ASCII and Latin-1 that have a one-character upper case. */
  predicate IsLowerLetter(c: char) {
    ('a' <= c <= 'z') || ('\U{E0}' <= c <= '\U{FE}' && c != '\U{F7}')
  }

  function LowerChar(c: char): char {
    if IsUpperLetter(c) then (c as int + 32) as char else c
  }

  function UpperChar(c: char): char {
    if IsLowerLetter(c) then (c as int - 32) as char else c
  }

  /** str.lower(), character by character. */
  function Lower(s: string): (r: string)
    ensures |r| == |s|
    ensures forall i :: 0 <= i < |s| ==> r[i] == LowerChar(s[i])
  {
    seq(|s|, i requires 0 <= i < |s| => LowerChar(s[i]))
  }

  /** str.upper(), character by character. */
  function Upper(s: string): (r: string)
    ensures |r| == |s|
    ensures forall i :: 0 <= i < |s| ==> r[i] == UpperChar(s[i])
  {
    seq(|s|, i requires 0 <= i < |s| => UpperChar(s[i]))
  }

  /** Lower-casing twice is lower-casing once, so matching a lowered text is case-blind. */
  lemma LowerIdempotent(s: string)
    ensures Lower(Lower(s)) == Lower(s)
  {
    assert forall i :: 0 <= i < |s| ==> LowerChar(LowerChar(s[i])) == LowerChar(s[i]);
  }

  /** A stretch of an upper-cased text is already upper case. */
  lemma UpperSliceIsUpper(s: string, n: string, k: int)
    requires OccursAt(Upper(s), n, k)
    ensures Upper(n) == n
  {
    forall i | 0 <= i < |n|
      ensures UpperChar(n[i]) == n[i]
    {
      assert n[i] == Upper(s)[k..k + |n|][i] == UpperChar(s[k + i]);
    }
  }

  /** A lower-case ASCII letter that occurs in neither case in s does not occur in Lower(s). */
  lemma LowerKeepsAbsent(s: string, c: char)
    requires 'a' <= c <= 'z'
    requires forall i :: 0 <= i < |s| ==> s[i] != c && s[i] != UpperChar(c)
    ensures c !in Lower(s)
  {
  }

  /** kw occurs at i in the lowered text when each character there lowers to kw's. */
  lemma LoweredOccurs(s: string, kw: string, i: nat)
    requires i + |kw| <= |s|
    requires forall j :: 0 <= j < |kw| ==> LowerChar(s[i + j]) == kw[j]
    ensures OccursAt(Lower(s), kw, i)
  {
    assert Lower(s)[i..i + |kw|] == kw;
  }

  /** Where the leading whitespace from index i on ends (the left half of str.strip()). */
  function LeadingSpaceEnd(s: string, i: nat): (k: nat)
    requires i <= |s|
    ensures i <= k <= |s|
    ensures forall j :: i <= j < k ==> IsSpace(s[j])
    ensures k < |s| ==> !IsSpace(s[k])
    decreases |s| - i
  {
    if i < |s| && IsSpace(s[i]) then LeadingSpaceEnd(s, i + 1) else i
  }

  /** Where the trailing whitespace before index j begins, not going below lo (the right half). */
  function TrailingSpaceStart(s: string, lo: nat, j: nat): (k: nat)
    requires lo <= j <= |s|
    ensures lo <= k <= j
    ensures forall m :: k <= m < j ==> IsSpace(s[m])
    ensures k > lo ==> !IsSpace(s[k - 1])
  {
    if j > lo && IsSpace(s[j - 1]) then TrailingSpaceStart(s, lo, j - 1) else j
  }

  /**
   * str.strip() with no argument: the stretch of s left once exactly its
   * leading and trailing whitespace is removed.
   */
  function Strip(s: string): (r: string)
    ensures |r| <= |s|
    ensures r != [] ==> !IsSpace(r[0]) && !IsSpace(r[|r| - 1])
    ensures exists k :: && OccursAt(s, r, k)
                        && (forall i :: 0 <= i < k ==> IsSpace(s[i]))
                        && (forall i :: k + |r| <= i < |s| ==> IsSpace(s[i]))
  {
    var lo := LeadingSpaceEnd(s, 0);
    var hi := TrailingSpaceStart(s, lo, |s|);
    assert OccursAt(s, s[lo..hi], lo);
    s[lo..hi]
  }

  /** A string with no surrounding whitespace is its own strip. */
  lemma StripFixed(s: string)
    requires s != [] ==> !IsSpace(s[0]) && !IsSpace(s[|s| - 1])
    ensures Strip(s) == s
  {
    assert LeadingSpaceEnd(s, 0) == 0;
    assert TrailingSpaceStart(s, 0, |s|) == |s|;
    assert s[0..|s|] == s;
  }

  /** `kw` occurs in `text` starting at index i. */
  predicate OccursAt(text: string, kw: string, i: int) {
    0 <= i && i + |kw| <= |text| && text[i..i + |kw|] == kw
  }

  /** Python's `kw in text` for two strings. */
  predicate Contains(text: string, kw: string)
    decreases |text|
  {
    (|kw| <= |text| && text[..|kw|] == kw) || (text != [] && Contains(text[1..], kw))
  }

  /** The recursive test agrees with "kw occurs at some index of text", both ways. */
  lemma {:induction false} ContainsIffOccurs(text: string, kw: string)
    ensures Contains(text, kw) <==> exists i :: OccursAt(text, kw, i)
  {
    if |kw| <= |text| && text[..|kw|] == kw {
      assert OccursAt(text, kw, 0);
    } else if text == [] {
    } else {
      ContainsIffOccurs(text[1..], kw);
      if Contains(text[1..], kw) {
        var i :| OccursAt(text[1..], kw, i);
        assert text[1..][i..i + |kw|] == text[i + 1..i + 1 + |kw|];
        assert OccursAt(text, kw, i + 1);
      }
      if exists i :: OccursAt(text, kw, i) {
        var i :| OccursAt(text, kw, i);
        assert i != 0;
        assert text[1..][i - 1..i - 1 + |kw|] == text[i..i + |kw|];
        assert OccursAt(text[1..], kw, i - 1);
      }
    }
  }

  /** A keyword holding a character that the text lacks cannot occur in it. */
  lemma AbsentCharBlocksMatch(text: string, kw: string, c: char)
    requires c in kw && c !in text
    ensures !Contains(text, kw)
  {
    ContainsIffOccurs(text, kw);
    var j :| 0 <= j < |kw| && kw[j] == c;
    forall i | 0 <= i && i + |kw| <= |text|
      ensures !OccursAt(text, kw, i)
    {
      assert text[i..i + |kw|][j] == text[i + j];
      assert text[i + j] in text;
    }
  }

  /** Python's `any(kw in text for kw in kws)`. */
  predicate ContainsAny(text: string, kws: seq<string>) {
    |kws| > 0 && (Contains(text, kws[0]) || ContainsAny(text, kws[1..]))
  }

  lemma {:induction false} ContainsAnyIffSome(text: string, kws: seq<string>)
    ensures ContainsAny(text, kws) <==> exists k :: 0 <= k < |kws| && Contains(text, kws[k])
  {
    if |kws| > 0 {
      ContainsAnyIffSome(text, kws[1..]);
      if exists k :: 0 <= k < |kws| && Contains(text, kws[k]) {
        var k :| 0 <= k < |kws| && Contains(text, kws[k]);
        if k > 0 {
          assert kws[1..][k - 1] == kws[k];
        }
      }
    }
  }

  /** A witness occurrence of the k-th keyword makes `any` true. */
  lemma MatchAt(text: string, kws: seq<string>, k: int, i: int)
    requires 0 <= k < |kws| && OccursAt(text, kws[k], i)
    ensures ContainsAny(text, kws)
  {
    ContainsIffOccurs(text, kws[k]);
    ContainsAnyIffSome(text, kws);
  }

  /** If each keyword holds a character the text lacks, no keyword occurs in the text. */
  lemma NoMatch(text: string, kws: seq<string>, marks: seq<char>)
    requires |marks| == |kws|
    requires forall k :: 0 <= k < |kws| ==> marks[k] in kws[k] && marks[k] !in text
    ensures !ContainsAny(text, kws)
  {
    forall k | 0 <= k < |kws|
      ensures !Contains(text, kws[k])
    {
      AbsentCharBlocksMatch(text, kws[k], marks[k]);
    }
    ContainsAnyIffSome(text, kws);
  }

  /** A decimal digit as a character. */
  function DigitChar(d: nat): (c: char)
    requires d < 10
    ensures '0' <= c <= '9'
  {
    ('0' as int + d) as char
  }

  /** Python's str() of a non-negative int: its decimal digits, no leading zeros. */
  function DecimalString(n: nat): (r: string)
    ensures |r| > 0
    ensures forall i :: 0 <= i < |r| ==> '0' <= r[i] <= '9'
    ensures |r| > 1 ==> r[0] != '0'
  {
    if n < 10 then [DigitChar(n)] else DecimalString(n / 10) + [DigitChar(n % 10)]
  }

  /** The value of a string of decimal digits (the inverse of DecimalString). */
  function ParseDecimal(s: string): nat {
    if s == [] then 0
    else
      var c := s[|s| - 1];
      10 * ParseDecimal(s[..|s| - 1]) + (if '0' <= c <= '9' then c as int - '0' as int else 0)
  }

  lemma {:induction false} ParseDecimalString(n: nat)
    ensures ParseDecimal(DecimalString(n)) == n
  {
    if n >= 10 {
      var s := DecimalString(n);
      assert s[..|s| - 1] == DecimalString(n / 10);
      ParseDecimalString(n / 10);
    }
  }

  function Pow10(k: nat): (r: nat)
    ensures r >= 1
  {
    if k == 0 then 1 else 10 * Pow10(k - 1)
  }

  /** A number with k + 1 digits renders as k + 1 characters. */
  lemma {:induction false} DecimalStringLength(n: nat, k: nat)
    requires Pow10(k) <= n < 10 * Pow10(k)
    ensures |DecimalString(n)| == k + 1
  {
    if k > 0 {
      assert Pow10(k - 1) <= n / 10 < 10 * Pow10(k - 1);
      DecimalStringLength(n / 10, k - 1);
    }
  }
}
