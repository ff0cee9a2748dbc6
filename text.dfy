/** The string operations of the Python runtime that the relay relies on:
    `str.isspace`, `str.strip`, `str.split`, integer formatting and the
    upper-casing of one character. */
module Text {

  /** Python's `str.isspace()` for one character. */
  predicate IsSpace(c: char) {
    || c == ' '
    || ('\t' <= c <= '\r')
    || ('\U{001C}' <= c <= '\U{001F}')
    || c == '\U{0085}' || c == '\U{00A0}' || c == '\U{1680}'
    || ('\U{2000}' <= c <= '\U{200A}')
    || c == '\U{2028}' || c == '\U{2029}' || c == '\U{202F}' || c == '\U{205F}' || c == '\U{3000}'
  }

  ghost predicate AllSpace(s: string) {
    forall i :: 0 <= i < |s| ==> IsSpace(s[i])
  }

  /** The number of whitespace characters `s` starts with. */
  function LeadingSpaces(s: string): (n: nat)
    ensures n <= |s|
    ensures AllSpace(s[..n])
    ensures n == |s| || !IsSpace(s[n])
  {
    if s == [] || !IsSpace(s[0]) then 0 else 1 + LeadingSpaces(s[1..])
  }

  /** The number of whitespace characters `s` ends with. */
  function TrailingSpaces(s: string): (n: nat)
    ensures n <= |s|
    ensures AllSpace(s[|s| - n..])
    ensures n == |s| || !IsSpace(s[|s| - n - 1])
  {
    if s == [] || !IsSpace(s[|s| - 1]) then 0 else 1 + TrailingSpaces(s[..|s| - 1])
  }

  /** Python's `s.strip()`: `s` without its leading and trailing whitespace.
      The result is the middle of `s`, everything around it is whitespace,
      and it neither starts nor ends with whitespace. */
  function Strip(s: string): (r: string)
    ensures var i := LeadingSpaces(s);
      i + |r| <= |s| && r == s[i..i + |r|] && AllSpace(s[i + |r|..])
    ensures r == [] || (!IsSpace(r[0]) && !IsSpace(r[|r| - 1]))
    ensures r == [] <==> AllSpace(s)
  {
    var t := s[LeadingSpaces(s)..];
    var r := t[..|t| - TrailingSpaces(t)];
    assert r == [] ==> t == t[|t| - TrailingSpaces(t)..];
    assert r == [] ==> s == s[..LeadingSpaces(s)] + t;
    assert AllSpace(s) ==> LeadingSpaces(s) == |s|;
    r
  }

  /** A string that neither starts nor ends with whitespace is its own strip. */
  lemma StripUnpadded(s: string)
    requires s != [] && !IsSpace(s[0]) && !IsSpace(s[|s| - 1])
    ensures Strip(s) == s
  {
    assert LeadingSpaces(s) == 0;
    assert TrailingSpaces(s) == 0;
  }

  /** Stripping twice is stripping once. */
  lemma StripIdempotent(s: string)
    ensures Strip(Strip(s)) == Strip(s)
  {
    if Strip(s) != [] {
      StripUnpadded(Strip(s));
    }
  }

  /** Python's `s.split(' ', 1)`: the text before the first space and, when
      there is a space, the text after it. */
  function SplitOnFirstSpace(s: string): (parts: seq<string>)
    ensures 1 <= |parts| <= 2
    ensures ' ' !in parts[0]
    ensures |parts| == 1 <==> ' ' !in s
    ensures |parts| == 1 ==> parts[0] == s
    ensures |parts| == 2 ==> s == parts[0] + [' '] + parts[1]
  {
    if s == [] then [""]
    else if s[0] == ' ' then ["", s[1..]]
    else
      var rest := SplitOnFirstSpace(s[1..]);
      assert s == [s[0]] + s[1..];
      [[s[0]] + rest[0]] + rest[1..]
  }

  /** Splitting at a space that no space precedes gives the two sides of it. */
  lemma {:induction false} SplitOnFirstSpaceAt(p: string, r: string)
    requires ' ' !in p
    ensures SplitOnFirstSpace(p + [' '] + r) == [p, r]
    decreases |p|
  {
    if p == [] {
      assert p + [' '] + r == [' '] + r;
      assert ([' '] + r)[1..] == r;
    } else {
      SplitOnFirstSpaceAt(p[1..], r);
      assert (p + [' '] + r)[1..] == p[1..] + [' '] + r;
      assert [p[0]] + p[1..] == p;
    }
  }

  /** Python's `s.split(sep)`: the pieces of `s` between occurrences of `sep`. */
  function SplitOn(s: string, sep: char): (parts: seq<string>)
    ensures |parts| >= 1
    ensures forall i :: 0 <= i < |parts| ==> sep !in parts[i]
    ensures |parts| == 1 <==> sep !in s
  {
    if s == [] then [""]
    else
      var rest := SplitOn(s[1..], sep);
      if s[0] == sep then [""] + rest
      else [[s[0]] + rest[0]] + rest[1..]
  }

  /** Splitting at the first separator: the piece before it, then the pieces of the rest. */
  lemma {:induction false} SplitOnFirst(p: string, sep: char, r: string)
    requires sep !in p
    ensures SplitOn(p + [sep] + r, sep) == [p] + SplitOn(r, sep)
    decreases |p|
  {
    if p == [] {
      assert p + [sep] + r == [sep] + r;
      assert ([sep] + r)[1..] == r;
    } else {
      SplitOnFirst(p[1..], sep, r);
      assert (p + [sep] + r)[1..] == p[1..] + [sep] + r;
      assert [p[0]] + p[1..] == p;
    }
  }

  /** The first piece of a split is the text up to the first separator; it is
      the whole string exactly when there is no separator. */
  lemma {:induction false} SplitOnHead(s: string, sep: char)
    ensures SplitOn(s, sep)[0] == s <==> sep !in s
    ensures sep in s ==> |SplitOn(s, sep)[0]| < |s|
    decreases |s|
  {
    if s != [] && s[0] != sep {
      SplitOnHead(s[1..], sep);
      assert s == [s[0]] + s[1..];
    }
  }

  predicate IsDigit(c: char) {
    '0' <= c <= '9'
  }

  function DigitValue(c: char): (d: nat)
    requires IsDigit(c)
    ensures d < 10
  {
    assert '0' as int <= c as int <= '9' as int;
    c as int - '0' as int
  }

  function DigitChar(d: nat): (c: char)
    requires d < 10
    ensures IsDigit(c)
  {
    ('0' as int + d) as char
  }

  /** Python's `f"{n}"` for a non-negative integer: its decimal digits, with
      no leading zero. */
  function Decimal(n: nat): (s: string)
    ensures |s| >= 1
    ensures forall i :: 0 <= i < |s| ==> IsDigit(s[i])
    ensures s[0] == '0' ==> n == 0
    decreases n
  {
    if n < 10 then [DigitChar(n)] else Decimal(n / 10) + [DigitChar(n % 10)]
  }

  /** The value of a string of decimal digits. */
  function DecimalValue(s: string): nat
    requires forall i :: 0 <= i < |s| ==> IsDigit(s[i])
  {
    if s == [] then 0
    else DecimalValue(s[..|s| - 1]) * 10 + DigitValue(s[|s| - 1])
  }

  /** Reading back the decimal form of `n` gives `n`. */
  lemma {:induction false} DecimalRoundTrip(n: nat)
    ensures DecimalValue(Decimal(n)) == n
    decreases n
  {
    if n >= 10 {
      DecimalRoundTrip(n / 10);
      var s := Decimal(n);
      assert s[..|s| - 1] == Decimal(n / 10);
    }
  }

  /** Different numbers have different decimal forms. */
  lemma DecimalInjective(a: nat, b: nat)
    requires Decimal(a) == Decimal(b)
    ensures a == b
  {
    DecimalRoundTrip(a);
    DecimalRoundTrip(b);
  }

  /** The lower-case letters `Upper` knows: ASCII a-z and Cyrillic
      U+0430-U+045F (а-я, then ѐ-џ). */
  predicate IsLower(c: char) {
    ('a' <= c <= 'z') || ('\U{0430}' <= c <= '\U{045F}')
  }

  /** Their capitals: ASCII A-Z and Cyrillic U+0400-U+042F (Ѐ-Џ, then А-Я). */
  predicate IsUpper(c: char) {
    ('A' <= c <= 'Z') || ('\U{0400}' <= c <= '\U{042F}')
  }

  /** `u.lower()` for those capitals: the reference `Upper` is checked
      against. Each capital has its own small letter. */
  function Lower(u: char): (c: char)
    ensures IsUpper(u) ==> IsLower(c)
  {
    if 'A' <= u <= 'Z' then (u as int + 32) as char
    else if '\U{0410}' <= u <= '\U{042F}' then (u as int + 32) as char
    else if '\U{0400}' <= u <= '\U{040F}' then (u as int + 80) as char
    else u
  }

  /** Different capitals have different small letters. */
  lemma LowerInjective(u: char, v: char)
    requires IsUpper(u) && IsUpper(v) && Lower(u) == Lower(v)
    ensures u == v
  {
  }

  /** `c.upper()` for ASCII a-z and Cyrillic U+0430-U+045F: such a letter
      becomes the one capital whose small letter it is; every other
      character is left as it is. */
  function Upper(c: char): (u: char)
    ensures IsLower(c) ==> IsUpper(u) && Lower(u) == c
    ensures !IsLower(c) ==> u == c
  {
    if 'a' <= c <= 'z' then (c as int - 32) as char
    else if '\U{0430}' <= c <= '\U{044F}' then (c as int - 32) as char
    else if '\U{0450}' <= c <= '\U{045F}' then (c as int - 80) as char
    else c
  }

  /** Upper-casing the initials of sellers such as "ecostore", "ёлка" and
      "ѓ" gives the capitals Python gives. */
  lemma UpperExamples()
    ensures Upper('e') == 'E' && Upper('E') == 'E' && Upper('_') == '_'
    ensures Upper('\U{0451}') == '\U{0401}' && Upper('\U{0430}') == '\U{0410}'
    ensures Upper('\U{0453}') == '\U{0403}'
  {
  }
}
