/**
 * The few string operations the detectors rely on: ASCII and Unicode digit
 * classes, whitespace, lower-casing, trimming, substring search, first/last
 * occurrence of a character and whitespace-separated word count.
 */
module Text {
  import opened Wrappers

  /** An ASCII digit, the only kind str(n) writes. */
  predicate IsDigit(c: char) {
    '0' <= c <= '9'
  }

  /**
   * The characters Python's str.isspace() accepts, which str.split() and
   * str.strip() treat as whitespace: the ASCII controls \t..\r and
   * \x1c..\x1f, the space, U+0085, U+00A0 and the Unicode space separators.
   */
  predicate IsSpace(c: char) {
    ('\U{0009}' <= c <= '\U{000D}') || ('\U{001C}' <= c <= '\U{0020}')
    || c == '\U{0085}' || c == '\U{00A0}' || c == '\U{1680}'
    || ('\U{2000}' <= c <= '\U{200A}') || c == '\U{2028}' || c == '\U{2029}'
    || c == '\U{202F}' || c == '\U{205F}' || c == '\U{3000}'
  }

  predicate AllDigits(s: string) {
    forall i :: 0 <= i < |s| ==> IsDigit(s[i])
  }

  /**
   * The characters Python's `\d` matches in a str pattern, which are also
   * the ones str.isdecimal() accepts: the Unicode decimal digits (general
   * category Nd) as of Unicode 15.0.
   */
  predicate IsDecimal(c: char) {
    ('\U{0030}' <= c <= '\U{0039}') || ('\U{0660}' <= c <= '\U{0669}')
    || ('\U{06F0}' <= c <= '\U{06F9}') || ('\U{07C0}' <= c <= '\U{07C9}')
    || ('\U{0966}' <= c <= '\U{096F}') || ('\U{09E6}' <= c <= '\U{09EF}')
    || ('\U{0A66}' <= c <= '\U{0A6F}') || ('\U{0AE6}' <= c <= '\U{0AEF}')
    || ('\U{0B66}' <= c <= '\U{0B6F}') || ('\U{0BE6}' <= c <= '\U{0BEF}')
    || ('\U{0C66}' <= c <= '\U{0C6F}') || ('\U{0CE6}' <= c <= '\U{0CEF}')
    || ('\U{0D66}' <= c <= '\U{0D6F}') || ('\U{0DE6}' <= c <= '\U{0DEF}')
    || ('\U{0E50}' <= c <= '\U{0E59}') || ('\U{0ED0}' <= c <= '\U{0ED9}')
    || ('\U{0F20}' <= c <= '\U{0F29}') || ('\U{1040}' <= c <= '\U{1049}')
    || ('\U{1090}' <= c <= '\U{1099}') || ('\U{17E0}' <= c <= '\U{17E9}')
    || ('\U{1810}' <= c <= '\U{1819}') || ('\U{1946}' <= c <= '\U{194F}')
    || ('\U{19D0}' <= c <= '\U{19D9}') || ('\U{1A80}' <= c <= '\U{1A89}')
    || ('\U{1A90}' <= c <= '\U{1A99}') || ('\U{1B50}' <= c <= '\U{1B59}')
    || ('\U{1BB0}' <= c <= '\U{1BB9}') || ('\U{1C40}' <= c <= '\U{1C49}')
    || ('\U{1C50}' <= c <= '\U{1C59}') || ('\U{A620}' <= c <= '\U{A629}')
    || ('\U{A8D0}' <= c <= '\U{A8D9}') || ('\U{A900}' <= c <= '\U{A909}')
    || ('\U{A9D0}' <= c <= '\U{A9D9}') || ('\U{A9F0}' <= c <= '\U{A9F9}')
    || ('\U{AA50}' <= c <= '\U{AA59}') || ('\U{ABF0}' <= c <= '\U{ABF9}')
    || ('\U{FF10}' <= c <= '\U{FF19}') || ('\U{104A0}' <= c <= '\U{104A9}')
    || ('\U{10D30}' <= c <= '\U{10D39}') || ('\U{11066}' <= c <= '\U{1106F}')
    || ('\U{110F0}' <= c <= '\U{110F9}') || ('\U{11136}' <= c <= '\U{1113F}')
    || ('\U{111D0}' <= c <= '\U{111D9}') || ('\U{112F0}' <= c <= '\U{112F9}')
    || ('\U{11450}' <= c <= '\U{11459}') || ('\U{114D0}' <= c <= '\U{114D9}')
    || ('\U{11650}' <= c <= '\U{11659}') || ('\U{116C0}' <= c <= '\U{116C9}')
    || ('\U{11730}' <= c <= '\U{11739}') || ('\U{118E0}' <= c <= '\U{118E9}')
    || ('\U{11950}' <= c <= '\U{11959}') || ('\U{11C50}' <= c <= '\U{11C59}')
    || ('\U{11D50}' <= c <= '\U{11D59}') || ('\U{11DA0}' <= c <= '\U{11DA9}')
    || ('\U{11F50}' <= c <= '\U{11F59}') || ('\U{16A60}' <= c <= '\U{16A69}')
    || ('\U{16AC0}' <= c <= '\U{16AC9}') || ('\U{16B50}' <= c <= '\U{16B59}')
    || ('\U{1D7CE}' <= c <= '\U{1D7FF}') || ('\U{1E140}' <= c <= '\U{1E149}')
    || ('\U{1E2F0}' <= c <= '\U{1E2F9}') || ('\U{1E4F0}' <= c <= '\U{1E4F9}')
    || ('\U{1E950}' <= c <= '\U{1E959}') || ('\U{1FBF0}' <= c <= '\U{1FBF9}')
  }

  /**
   * The characters str.isdigit() accepts: the decimal digits and the
   * characters whose Numeric_Type is Digit (superscript, subscript, circled
   * and parenthesised digits and the like), as of Unicode 15.0.
   */
  predicate IsDigitChar(c: char) {
    IsDecimal(c) || ('\U{00B2}' <= c <= '\U{00B3}') || c == '\U{00B9}'
    || ('\U{1369}' <= c <= '\U{1371}') || c == '\U{19DA}' || c == '\U{2070}'
    || ('\U{2074}' <= c <= '\U{2079}') || ('\U{2080}' <= c <= '\U{2089}')
    || ('\U{2460}' <= c <= '\U{2468}') || ('\U{2474}' <= c <= '\U{247C}')
    || ('\U{2488}' <= c <= '\U{2490}') || c == '\U{24EA}' || ('\U{24F5}' <= c <= '\U{24FD}')
    || c == '\U{24FF}' || ('\U{2776}' <= c <= '\U{277E}') || ('\U{2780}' <= c <= '\U{2788}')
    || ('\U{278A}' <= c <= '\U{2792}') || ('\U{10A40}' <= c <= '\U{10A43}')
    || ('\U{10E60}' <= c <= '\U{10E68}') || ('\U{11052}' <= c <= '\U{1105A}')
    || ('\U{1F100}' <= c <= '\U{1F10A}')
  }

  /** Every character is a decimal digit, as `\d` repeated over the string. */
  predicate AllDecimal(s: string) {
    forall i :: 0 <= i < |s| ==> IsDecimal(s[i])
  }

  /** Every character is a digit, as str.isdigit() asks of a non-empty string. */
  predicate AllDigitChars(s: string) {
    forall i :: 0 <= i < |s| ==> IsDigitChar(s[i])
  }

  /**
   * str.lower() on one character, as far as ASCII text is concerned: A-Z
   * become a-z and the Kelvin sign U+212A becomes 'k', the one non-ASCII
   * character whose lower case is an ASCII letter. Other characters are
   * kept; see Lower for what that leaves out.
   */
  function LowerChar(c: char): (r: char)
    ensures 'A' <= c <= 'Z' ==> 'a' <= r <= 'z' && r as int - c as int == 32
    ensures c == '\U{212A}' ==> r == 'k'
    ensures !('A' <= c <= 'Z') && c != '\U{212A}' ==> r == c
    ensures r as int < 128 <==> c as int < 128 || c == '\U{212A}'
  {
    if 'A' <= c <= 'Z' then (c as int + 32) as char
    else if c == '\U{212A}' then 'k'
    else c
  }

  /** Lower-casing, character by character. */
  function Lower(s: string): (r: string)
    ensures |r| == |s|
    ensures forall i :: 0 <= i < |s| ==> r[i] == LowerChar(s[i])
  {
    if s == [] then [] else [LowerChar(s[0])] + Lower(s[1..])
  }

  /** Drops leading whitespace. */
  function TrimStart(s: string): (r: string)
    ensures |r| <= |s| && r == s[|s| - |r|..]
    ensures r == [] || !IsSpace(r[0])
    ensures forall i :: 0 <= i < |s| - |r| ==> IsSpace(s[i])
  {
    if s != [] && IsSpace(s[0]) then TrimStart(s[1..]) else s
  }

  /** Drops trailing whitespace. */
  function TrimEnd(s: string): (r: string)
    ensures |r| <= |s| && r == s[..|r|]
    ensures r == [] || !IsSpace(r[|r| - 1])
    ensures forall i :: |r| <= i < |s| ==> IsSpace(s[i])
  {
    if s != [] && IsSpace(s[|s| - 1]) then TrimEnd(s[..|s| - 1]) else s
  }

  /**
   * Python's str.strip(): the slice s[i..i + |r|] left once the whitespace
   * before i and after it is dropped, with no whitespace at either end.
   */
  function Strip(s: string): (r: string)
    ensures |r| <= |s|
    ensures r == [] || (!IsSpace(r[0]) && !IsSpace(r[|r| - 1]))
    ensures exists i :: StrippedAt(s, r, i)
  {
    var t := TrimStart(s);
    var r := TrimEnd(t);
    SliceBetweenSpaces(s, t, r);
    r
  }

  /** Dropping whitespace from the front, then from the back, leaves a slice with only whitespace around it. */
  lemma SliceBetweenSpaces(s: string, t: string, r: string)
    requires |t| <= |s| && t == s[|s| - |t|..] && forall k :: 0 <= k < |s| - |t| ==> IsSpace(s[k])
    requires |r| <= |t| && r == t[..|r|] && forall k :: |r| <= k < |t| ==> IsSpace(t[k])
    ensures StrippedAt(s, r, |s| - |t|)
  {
    var i := |s| - |t|;
    assert s[i..i + |r|] == r;
    forall k | i + |r| <= k < |s| ensures IsSpace(s[k]) {
      assert s[k] == t[k - i];
    }
  }

  /** A string with no whitespace at either end is its own strip. */
  lemma StripUnchanged(s: string)
    requires s != [] && !IsSpace(s[0]) && !IsSpace(s[|s| - 1])
    ensures Strip(s) == s
  {
    assert TrimStart(s) == s;
  }

  /** r sits at index i of s, and everything before and after it is whitespace. */
  predicate StrippedAt(s: string, r: string, i: int) {
    0 <= i <= |s| - |r| && s[i..i + |r|] == r
    && (forall k :: 0 <= k < i ==> IsSpace(s[k]))
    && (forall k :: i + |r| <= k < |s| ==> IsSpace(s[k]))
  }

  /** Python's `kw in text`: kw occurs as a contiguous substring (the empty string always does). */
  predicate Contains(text: string, kw: string) {
    exists i | 0 <= i <= |text| - |kw| :: OccursAt(text, kw, i)
  }

  predicate OccursAt(text: string, kw: string, i: int) {
    0 <= i <= |text| - |kw| && text[i..i + |kw|] == kw
  }

  /** Python's str.find for one character: the first index holding c. */
  function IndexOf(s: string, c: char): (r: Option<nat>)
    ensures r.None? <==> c !in s
    ensures r.Some? ==> r.value < |s| && s[r.value] == c && c !in s[..r.value]
  {
    if s == [] then None
    else if s[0] == c then Some(0)
    else
      match IndexOf(s[1..], c)
      case None => None
      case Some(k) =>
        assert s[..k + 1] == [s[0]] + s[1..][..k];
        Some(k + 1)
  }

  /** Python's str.rfind for one character: the last index holding c. */
  function LastIndexOf(s: string, c: char): (r: Option<nat>)
    ensures r.None? <==> c !in s
    ensures r.Some? ==> r.value < |s| && s[r.value] == c && c !in s[r.value + 1..]
  {
    if s == [] then None
    else if s[|s| - 1] == c then Some(|s| - 1)
    else
      var prefix := s[..|s| - 1];
      match LastIndexOf(prefix, c)
      case None =>
        assert s == prefix + [s[|s| - 1]];
        None
      case Some(k) =>
        assert s[k + 1..] == prefix[k + 1..] + [s[|s| - 1]];
        Some(k)
  }

  /** Position i begins a word: a non-space character at the start or after a space. */
  predicate StartsWord(s: string, i: int)
    requires 0 <= i < |s|
  {
    !IsSpace(s[i]) && (i == 0 || IsSpace(s[i - 1]))
  }

  /** len(s.split()): the number of maximal runs of non-whitespace characters. */
  function WordCount(s: string): (r: nat)
    ensures r <= |s|
    ensures r == 0 <==> forall i :: 0 <= i < |s| ==> IsSpace(s[i])
  {
    if s == [] then 0
    else
      var prefix := s[..|s| - 1];
      var w := WordCount(prefix);
      if StartsWord(s, |s| - 1) then w + 1
      else
        assert !IsSpace(s[|s| - 1]) ==> w > 0;
        w
  }

  /** Splitting on a space adds the word counts of the two sides. */
  lemma {:induction false} WordCountJoin(a: string, b: string)
    ensures WordCount(a + " " + b) == WordCount(a) + WordCount(b)
  {
    var c := a + " " + b;
    if b == [] {
      assert c[..|c| - 1] == a;
    } else {
      var b' := b[..|b| - 1];
      assert c[..|c| - 1] == a + " " + b';
      WordCountJoin(a, b');
      StartsWordJoin(a, b);
    }
  }

  /** The last character of a + " " + b starts a word exactly when it does in b. */
  lemma StartsWordJoin(a: string, b: string)
    requires b != []
    ensures StartsWord(a + " " + b, |a + " " + b| - 1) == StartsWord(b, |b| - 1)
  {
    var c := a + " " + b;
    assert c[|c| - 1] == b[|b| - 1];
    if |b| > 1 {
      assert c[|c| - 2] == b[|b| - 2];
    } else {
      assert c[|c| - 2] == ' ';
    }
  }

  /** The character of a decimal digit. */
  function DigitChar(d: nat): (c: char)
    requires d < 10
    ensures IsDigit(c) && (c as int) - ('0' as int) == d
  {
    ('0' as int + d) as char
  }

  /** The value of a string of decimal digits. */
  function DigitsValue(s: string): nat
    requires AllDigits(s)
  {
    if s == [] then 0 else 10 * DigitsValue(s[..|s| - 1]) + ((s[|s| - 1] as int) - ('0' as int))
  }

  /** str(n) for a non-negative integer: no leading zeros. */
  function NatString(n: nat): (r: string)
    ensures |r| >= 1 && AllDigits(r)
    ensures |r| > 1 ==> r[0] != '0'
  {
    if n < 10 then [DigitChar(n)] else NatString(n / 10) + [DigitChar(n % 10)]
  }

  /** str(n) for any integer. */
  function IntString(n: int): string {
    if n < 0 then "-" + NatString(-n) else NatString(n)
  }

  /** Reading the digits back gives the number. */
  lemma {:induction false} NatStringValue(n: nat)
    ensures DigitsValue(NatString(n)) == n
  {
    if n >= 10 {
      var r := NatString(n);
      assert r[..|r| - 1] == NatString(n / 10);
      NatStringValue(n / 10);
    }
  }
}
