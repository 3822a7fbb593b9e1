/**
 * The Python string operations the exporter relies on, written out:
 * `str.strip()`, `str.split(sep)`, `str.split(sep, 1)` unpacked into two
 * names, `int(text)` and the decimal rendering of an int by `str.format`.
 */
module Text {
  import opened Wrappers

  /** The characters Python's `str.isspace` accepts, i.e. those `strip()` removes. */
  const Whitespace: set<char> := {
    '\t', '\n', '\U{b}', '\U{c}', '\r', '\U{1c}', '\U{1d}', '\U{1e}', '\U{1f}', ' ',
    '\U{85}', '\U{a0}', '\U{1680}',
    '\U{2000}', '\U{2001}', '\U{2002}', '\U{2003}', '\U{2004}', '\U{2005}',
    '\U{2006}', '\U{2007}', '\U{2008}', '\U{2009}', '\U{200a}',
    '\U{2028}', '\U{2029}', '\U{202f}', '\U{205f}', '\U{3000}'
  }

  /**
   * The characters `int()` skips around a number. Outside ASCII it reads
   * every `str.isspace` character as a space, but of the ASCII ones it
   * skips only tab, the line breaks and the space, not the separators
   * U+001C to U+001F.
   */
  const IntWhitespace: set<char> := Whitespace - {'\U{1c}', '\U{1d}', '\U{1e}', '\U{1f}'}

  predicate IsSpace(c: char) {
    c in Whitespace
  }

  predicate AllIn(s: string, ws: set<char>) {
    forall k :: 0 <= k < |s| ==> s[k] in ws
  }

  predicate AllSpace(s: string) {
    AllIn(s, Whitespace)
  }

  /** Number of characters of `ws` at the start of `s`. */
  function LeadingSpaces(s: string, ws: set<char>): (n: nat)
    ensures n <= |s|
    ensures AllIn(s[..n], ws)
    ensures n < |s| ==> s[n] !in ws
  {
    if |s| > 0 && s[0] in ws then
      var n := LeadingSpaces(s[1..], ws);
      assert s[..n + 1] == [s[0]] + s[1..][..n];
      n + 1
    else 0
  }

  /** Number of characters of `ws` at the end of `s`. */
  function TrailingSpaces(s: string, ws: set<char>): (n: nat)
    ensures n <= |s|
    ensures AllIn(s[|s| - n..], ws)
    ensures n < |s| ==> s[|s| - n - 1] !in ws
  {
    if |s| > 0 && s[|s| - 1] in ws then
      var n := TrailingSpaces(s[..|s| - 1], ws);
      TrailingStep(s, ws, n);
      n + 1
    else 0
  }

  /** One more character of `ws` at the end extends the trailing run by one. */
  lemma TrailingStep(s: string, ws: set<char>, n: nat)
    requires |s| > 0 && s[|s| - 1] in ws
    requires n <= |s| - 1 && AllIn(s[..|s| - 1][|s| - 1 - n..], ws)
    requires n < |s| - 1 ==> s[|s| - n - 2] !in ws
    ensures AllIn(s[|s| - (n + 1)..], ws)
  {
    var run := s[|s| - (n + 1)..];
    forall k | 0 <= k < n + 1
      ensures run[k] in ws
    {
      if k < n {
        assert run[k] == s[..|s| - 1][|s| - 1 - n..][k];
      }
    }
  }

  /** `s` without its leading and trailing characters of `ws`. */
  function Trim(s: string, ws: set<char>): (r: string)
    ensures LeadingSpaces(s, ws) + |r| <= |s|
    ensures r == s[LeadingSpaces(s, ws)..LeadingSpaces(s, ws) + |r|]
    ensures AllIn(s[LeadingSpaces(s, ws) + |r|..], ws)
    ensures r != [] ==> r[0] !in ws && r[|r| - 1] !in ws
  {
    var n := LeadingSpaces(s, ws);
    var t := s[n..];
    var m := TrailingSpaces(t, ws);
    var r := t[..|t| - m];
    assert s[n + |r|..] == t[|t| - m..];
    assert m == |t| ==> t[|t| - m..] == t;
    assert n < |s| ==> t[0] == s[n] && m < |t|;
    r
  }

  /** A string that neither begins nor ends with a character of `ws` is its own trim. */
  lemma TrimUnchanged(s: string, ws: set<char>)
    requires s == [] || (s[0] !in ws && s[|s| - 1] !in ws)
    ensures Trim(s, ws) == s
  {
    if s != [] {
      assert LeadingSpaces(s, ws) == 0;
      assert TrailingSpaces(s, ws) == 0;
    }
  }

  /** Python `s.strip()`: `s` without its leading and trailing whitespace. */
  function Strip(s: string): (r: string)
    ensures LeadingSpaces(s, Whitespace) + |r| <= |s|
    ensures r == s[LeadingSpaces(s, Whitespace)..LeadingSpaces(s, Whitespace) + |r|]
    ensures AllSpace(s[LeadingSpaces(s, Whitespace) + |r|..])
    ensures r != [] ==> !IsSpace(r[0]) && !IsSpace(r[|r| - 1])
  {
    Trim(s, Whitespace)
  }

  /** `strip()` leaves nothing exactly when the string is all whitespace. */
  lemma StripBlank(s: string)
    ensures Strip(s) == [] <==> AllSpace(s)
  {
    var n := LeadingSpaces(s, Whitespace);
    if n == |s| {
      assert s[..n] == s;
    } else {
      assert !IsSpace(s[n]);
    }
  }

  /** A string that does not begin or end with whitespace is its own strip. */
  lemma StripUnchanged(s: string)
    requires s == [] || (!IsSpace(s[0]) && !IsSpace(s[|s| - 1]))
    ensures Strip(s) == s
  {
    TrimUnchanged(s, Whitespace);
  }

  /** A text that ends in one newline strips to the text before it. */
  lemma StripFinalNewline(body: string)
    requires body != [] && !IsSpace(body[0]) && !IsSpace(body[|body| - 1])
    ensures Strip(body + "\n") == body
  {
    var s := body + "\n";
    LeadingExact(s, Whitespace, 0);
    assert s[..|body|] == body;
  }

  /** Stripping twice is stripping once. */
  lemma StripTwice(s: string)
    ensures Strip(Strip(s)) == Strip(s)
  {
    StripUnchanged(Strip(s));
  }

  /** The position of the first `c` in `s`, if any. */
  function FirstIndex(s: string, c: char): (r: Option<nat>)
    ensures r.None? <==> c !in s
    ensures r.Some? ==> r.value < |s| && s[r.value] == c && c !in s[..r.value]
  {
    if |s| == 0 then None
    else if s[0] == c then Some(0)
    else match FirstIndex(s[1..], c)
      case None => None
      case Some(i) =>
        assert s[..i + 1] == [s[0]] + s[1..][..i];
        Some(i + 1)
  }

  /** The inverse of `Split`: Python `sep.join(parts)`. */
  function Join(parts: seq<string>, sep: char): string
    requires |parts| >= 1
  {
    if |parts| == 1 then parts[0] else parts[0] + [sep] + Join(parts[1..], sep)
  }

  /**
   * Python `s.split(sep)` for a one-character separator: never empty (the
   * empty string splits into `[""]`), no piece contains `sep`, and joining
   * the pieces back with `sep` gives `s`.
   */
  function Split(s: string, sep: char): (parts: seq<string>)
    ensures |parts| >= 1
    ensures forall i :: 0 <= i < |parts| ==> sep !in parts[i]
    ensures Join(parts, sep) == s
    decreases |s|
  {
    match FirstIndex(s, sep)
    case None => [s]
    case Some(i) =>
      var rest := Split(s[i + 1..], sep);
      assert s == s[..i] + [sep] + s[i + 1..];
      [s[..i]] + rest
  }

  /** Splitting a join of separator-free pieces gives the pieces back. */
  lemma {:induction false} SplitJoin(parts: seq<string>, sep: char)
    requires |parts| >= 1
    requires forall i :: 0 <= i < |parts| ==> sep !in parts[i]
    ensures Split(Join(parts, sep), sep) == parts
  {
    if |parts| > 1 {
      var head, tail := parts[0], Join(parts[1..], sep);
      var s := head + [sep] + tail;
      assert Join(parts, sep) == s;
      assert s[..|head|] == head;
      FirstIndexAt(s, sep, |head|);
      assert s[|head| + 1..] == tail;
      SplitJoin(parts[1..], sep);
      assert Split(s, sep) == [head] + Split(tail, sep);
      assert parts == [head] + parts[1..];
    }
  }

  /** A character other than the separator occurs in a join exactly when it occurs in a piece. */
  lemma {:induction false} JoinChars(parts: seq<string>, sep: char, c: char)
    requires |parts| >= 1 && c != sep
    ensures c in Join(parts, sep) <==> exists i :: 0 <= i < |parts| && c in parts[i]
  {
    if |parts| > 1 {
      JoinChars(parts[1..], sep, c);
      var tail := Join(parts[1..], sep);
      assert c in parts[0] + [sep] + tail <==> c in parts[0] || c in tail;
      if c in tail {
        var i :| 0 <= i < |parts[1..]| && c in parts[1..][i];
        assert c in parts[i + 1];
      }
      if exists i :: 1 <= i < |parts| && c in parts[i] {
        var i :| 1 <= i < |parts| && c in parts[i];
        assert c in parts[1..][i - 1];
      }
    }
  }

  /**
   * Python `a, b = s.split(sep, 1)`: the text before the first `sep` and
   * everything after it (later separators included); `None` where the
   * unpacking raises because `s` holds no `sep`.
   */
  function SplitOnce(s: string, sep: char): (r: Option<(string, string)>)
    ensures r.None? <==> sep !in s
    ensures r.Some? ==> s == r.value.0 + [sep] + r.value.1 && sep !in r.value.0
  {
    match FirstIndex(s, sep)
    case None => None
    case Some(i) =>
      assert s == s[..i] + [sep] + s[i + 1..];
      Some((s[..i], s[i + 1..]))
  }

  /** `FirstIndex` finds the first occurrence and no other. */
  lemma {:induction false} FirstIndexAt(s: string, c: char, i: nat)
    requires i < |s| && s[i] == c && c !in s[..i]
    ensures FirstIndex(s, c) == Some(i)
  {
    if i > 0 {
      assert s[0] in s[..i];
      assert s[1..][..i - 1] == s[1..i];
      assert forall x :: x in s[1..i] ==> x in s[..i];
      FirstIndexAt(s[1..], c, i - 1);
    }
  }

  /** The pair `SplitOnce` returns is the only one with a separator-free head. */
  lemma SplitOnceUnique(head: string, tail: string, sep: char)
    requires sep !in head
    ensures SplitOnce(head + [sep] + tail, sep) == Some((head, tail))
  {
    var s := head + [sep] + tail;
    assert s[..|head|] == head;
    FirstIndexAt(s, sep, |head|);
    assert s[|head| + 1..] == tail;
  }

  predicate IsDigit(c: char) {
    '0' <= c <= '9'
  }

  function DigitValue(c: char): nat
    requires IsDigit(c)
  {
    c as int - '0' as int
  }

  function DigitChar(d: nat): (c: char)
    requires d < 10
    ensures IsDigit(c) && DigitValue(c) == d
  {
    ('0' as int + d) as char
  }

  predicate DigitsOrUnderscores(s: string) {
    forall k :: 0 <= k < |s| ==> IsDigit(s[k]) || s[k] == '_'
  }

  /**
   * What Python's `int()` accepts as the digits of a base-10 integer:
   * ASCII digits, with single underscores allowed only between two digits
   * (it begins and ends with a digit, and no two neighbours are both `_`).
   */
  predicate IsDigitString(s: string) {
    && |s| > 0
    && DigitsOrUnderscores(s)
    && IsDigit(s[0])
    && IsDigit(s[|s| - 1])
    && forall k, j :: 0 < k < |s| && j == k - 1 ==> IsDigit(s[j]) || IsDigit(s[k])
  }

  /** The value of a digit string; underscores are skipped. */
  function DigitsValue(s: string): nat
    requires DigitsOrUnderscores(s)
  {
    if s == [] then 0
    else if s[|s| - 1] == '_' then DigitsValue(s[..|s| - 1])
    else 10 * DigitsValue(s[..|s| - 1]) + DigitValue(s[|s| - 1])
  }

  /**
   * Python `int(text)` in base 10: surrounding `IntWhitespace` is ignored,
   * one optional sign, then digits; `None` where Python raises `ValueError`.
   */
  function ParseInt(text: string): (r: Option<int>)
    ensures r.Some? ==> var t := Trim(text, IntWhitespace); t != [] && IsDigit(t[|t| - 1])
    ensures r.Some? && r.value < 0 ==> Trim(text, IntWhitespace)[0] == '-'
  {
    var t := Trim(text, IntWhitespace);
    if |t| > 0 && (t[0] == '+' || t[0] == '-') then
      if IsDigitString(t[1..]) then
        var magnitude: int := DigitsValue(t[1..]);
        Some(if t[0] == '-' then -magnitude else magnitude)
      else None
    else if IsDigitString(t) then Some(DigitsValue(t))
    else None
  }

  /** Decimal digits of `n`, most significant first, without leading zeros. */
  function NatToString(n: nat): (s: string)
    ensures |s| > 0 && forall k :: 0 <= k < |s| ==> IsDigit(s[k])
    ensures DigitsValue(s) == n
    ensures s[0] == '0' ==> s == "0"
  {
    if n < 10 then [DigitChar(n)]
    else
      var init := NatToString(n / 10);
      var s := init + [DigitChar(n % 10)];
      assert s[..|s| - 1] == init;
      s
  }

  /** Python `str(n)` (and `"{}".format(n)`) for an int. */
  function IntToString(n: int): (s: string)
    ensures |s| > 0 && (s[0] == '-' <==> n < 0)
    ensures forall k :: 0 <= k < |s| ==> IsDigit(s[k]) || (k == 0 && s[k] == '-')
  {
    if n < 0 then "-" + NatToString(-n) else NatToString(n)
  }

  /** The rendering of a natural number is a digit string `int()` accepts. */
  lemma NatToStringDigits(m: nat)
    ensures IsDigitString(NatToString(m))
  {
    var digits := NatToString(m);
    assert forall k :: 0 <= k < |digits| ==> digits[k] != '_';
  }

  /** `int()` of a bare digit string is its value. */
  lemma ParseIntDigits(t: string)
    requires IsDigitString(t)
    ensures ParseInt(t) == Some(DigitsValue(t))
  {
    TrimUnchanged(t, IntWhitespace);
    assert t[0] != '+' && t[0] != '-';
  }

  /** `int()` of a minus sign and a digit string is the negated value. */
  lemma ParseIntNegative(t: string)
    requires IsDigitString(t)
    ensures ParseInt("-" + t) == Some(-(DigitsValue(t) as int))
  {
    var s := "-" + t;
    assert s[0] == '-' && s[1..] == t;
    assert s[|s| - 1] == t[|t| - 1];
    TrimUnchanged(s, IntWhitespace);
    assert IsDigitString(Trim(s, IntWhitespace)[1..]);
  }

  /** `int()` reads back what `str()` writes: the port survives the round trip. */
  lemma ParseIntToString(n: int)
    ensures ParseInt(IntToString(n)) == Some(n)
  {
    var m: nat := if n < 0 then -n else n;
    NatToStringDigits(m);
    if n < 0 {
      ParseIntNegative(NatToString(m));
    } else {
      ParseIntDigits(NatToString(m));
    }
  }

  /** A run of `ws` followed by a character outside `ws` is the leading run. */
  lemma {:induction false} LeadingExact(s: string, ws: set<char>, n: nat)
    requires n < |s| && AllIn(s[..n], ws) && s[n] !in ws
    ensures LeadingSpaces(s, ws) == n
  {
    if n > 0 {
      assert s[0] == s[..n][0];
      assert s[1..][..n - 1] == s[..n][1..];
      LeadingExact(s[1..], ws, n - 1);
    }
  }

  /**
   * Trimming a larger set of characters gives the same text when what the
   * smaller trim leaves begins and ends outside the larger set.
   */
  lemma TrimLarger(s: string, small: set<char>, large: set<char>)
    requires small <= large
    requires var r := Trim(s, small); r != [] && r[0] !in large && r[|r| - 1] !in large
    ensures Trim(s, large) == Trim(s, small)
  {
    var r := Trim(s, small);
    var n := LeadingSpaces(s, small);
    assert s[n] == r[0];
    LeadingExact(s, large, n);
  }

  /** A sign or a digit is not whitespace. */
  lemma SignOrDigitNotSpace(c: char)
    requires c == '+' || c == '-' || IsDigit(c)
    ensures c !in Whitespace
  {
  }

  /** What `int()` accepts begins with a sign or a digit and ends with a digit. */
  lemma ParseIntEnds(text: string)
    requires ParseInt(text).Some?
    ensures var t := Trim(text, IntWhitespace);
      t != [] && (t[0] == '+' || t[0] == '-' || IsDigit(t[0])) && IsDigit(t[|t| - 1])
  {
  }

  /** `int()` looks only at what is left once its whitespace is trimmed. */
  lemma ParseIntSameTrim(a: string, b: string)
    requires Trim(a, IntWhitespace) == Trim(b, IntWhitespace)
    ensures ParseInt(a) == ParseInt(b)
  {
  }

  /**
   * `int()` accepts only text whose surrounding whitespace `strip()` would
   * remove as well: the number it reads is `int()` of the stripped text.
   */
  lemma ParseIntStrips(text: string)
    ensures ParseInt(text).Some? ==> Trim(text, IntWhitespace) == Strip(text) && ParseInt(Strip(text)) == ParseInt(text)
  {
    if ParseInt(text).Some? {
      var t := Trim(text, IntWhitespace);
      ParseIntEnds(text);
      SignOrDigitNotSpace(t[0]);
      SignOrDigitNotSpace(t[|t| - 1]);
      TrimLarger(text, IntWhitespace, Whitespace);
      TrimUnchanged(t, IntWhitespace);
      ParseIntSameTrim(Strip(text), text);
    }
  }

  /** An ASCII information separator is whitespace to `strip()`, but not to `int()`. */
  lemma ParseIntSeparator()
    ensures Strip("\U{1c}5") == "5"
    ensures ParseInt("\U{1c}5").None?
  {
    var s := "\U{1c}5";
    SignOrDigitNotSpace('5');
    assert s[..1] == "\U{1c}";
    LeadingExact(s, Whitespace, 1);
    LeadingExact(s, IntWhitespace, 0);
  }
}
