/**
 Python string behaviour the bot relies on, written out over `seq<char>`:
 `str.split(sep)`, `str.strip()`, `str.startswith`, `str(n)` for integers,
 `int(s)` on base-10 text, and slicing with possibly negative bounds.
 */
module Text {
  import opened Wrappers

  // ---------------------------------------------------------------------
  // Characters
  // ---------------------------------------------------------------------

  /** The characters Python's `str.strip()` and `int()` treat as
      whitespace: the ASCII ones (space, \t, \n, \v, \f, \r and the
      separators \x1c-\x1f) and the Unicode ones (\x85, \xa0, \u1680,
      \u2000-\u200a, \u2028, \u2029, \u202f, \u205f and \u3000). */
  predicate IsSpace(c: char) {
    || c == ' ' || c == '\t' || c == '\n' || c == '\r' || c == '\U{B}' || c == '\U{C}'
    || ('\U{1C}' <= c <= '\U{1F}')
    || c == '\U{85}' || c == '\U{A0}' || c == '\U{1680}'
    || ('\U{2000}' <= c <= '\U{200A}')
    || c == '\U{2028}' || c == '\U{2029}' || c == '\U{202F}' || c == '\U{205F}' || c == '\U{3000}'
  }

  /** The ASCII decimal digits. */
  predicate IsDigit(c: char) {
    '0' <= c <= '9'
  }

  function DigitValue(c: char): nat
    requires IsDigit(c)
  {
    (c as int) - ('0' as int)
  }

  function DigitChar(d: nat): (c: char)
    requires d < 10
    ensures IsDigit(c) && DigitValue(c) == d
  {
    ('0' as int + d) as char
  }

  predicate StartsWith(s: string, prefix: string) {
    |prefix| <= |s| && s[..|prefix|] == prefix
  }

  // ---------------------------------------------------------------------
  // str.split(sep) with a one-character separator
  // ---------------------------------------------------------------------

  /** `s.split(sep)`: the pieces between separators; never empty, and the
      empty string splits into one empty piece. */
  function Split(s: string, sep: char): (parts: seq<string>)
    ensures |parts| >= 1
    decreases |s|
  {
    if |s| == 0 then [""]
    else
      var rest := Split(s[1..], sep);
      if s[0] == sep then [""] + rest
      else [[s[0]] + rest[0]] + rest[1..]
  }

  /** `sep.join(parts)`. */
  function Join(parts: seq<string>, sep: char): string
    decreases |parts|
  {
    if |parts| == 0 then ""
    else if |parts| == 1 then parts[0]
    else parts[0] + [sep] + Join(parts[1..], sep)
  }

  lemma {:induction false} SplitNoSep(s: string, sep: char)
    requires sep !in s
    ensures Split(s, sep) == [s]
    decreases |s|
  {
    if |s| > 0 {
      SplitNoSep(s[1..], sep);
      assert [s[0]] + s[1..] == s;
    }
  }

  lemma {:induction false} SplitAfterPiece(a: string, sep: char, b: string)
    requires sep !in a
    ensures Split(a + [sep] + b, sep) == [a] + Split(b, sep)
    decreases |a|
  {
    var s := a + [sep] + b;
    if |a| == 0 {
      assert s[1..] == b;
    } else {
      assert s[1..] == a[1..] + [sep] + b;
      SplitAfterPiece(a[1..], sep, b);
      assert [a[0]] + a[1..] == a;
    }
  }

  /** Splitting undoes joining when no piece holds the separator. */
  lemma {:induction false} SplitJoin(parts: seq<string>, sep: char)
    requires |parts| >= 1
    requires forall i :: 0 <= i < |parts| ==> sep !in parts[i]
    ensures Split(Join(parts, sep), sep) == parts
    decreases |parts|
  {
    if |parts| == 1 {
      SplitNoSep(parts[0], sep);
    } else {
      SplitJoin(parts[1..], sep);
      SplitAfterPiece(parts[0], sep, Join(parts[1..], sep));
      assert [parts[0]] + parts[1..] == parts;
    }
  }

  /** Three separator-free pieces joined by the separator split back. */
  lemma SplitThree(a: string, b: string, c: string, sep: char)
    requires sep !in a && sep !in b && sep !in c
    ensures Split(a + [sep] + b + [sep] + c, sep) == [a, b, c]
  {
    SplitNoSep(c, sep);
    SplitAfterPiece(b, sep, c);
    assert a + [sep] + b + [sep] + c == a + [sep] + (b + [sep] + c);
    SplitAfterPiece(a, sep, b + [sep] + c);
  }

  // ---------------------------------------------------------------------
  // str.strip()
  // ---------------------------------------------------------------------

  /** `s.lstrip()`: drops leading whitespace. */
  function StripLeft(s: string): (r: string)
    ensures |r| <= |s|
    decreases |s|
  {
    if |s| > 0 && IsSpace(s[0]) then StripLeft(s[1..]) else s
  }

  /** `s.rstrip()`: drops trailing whitespace. */
  function StripRight(s: string): (r: string)
    ensures |r| <= |s|
    decreases |s|
  {
    if |s| > 0 && IsSpace(s[|s| - 1]) then StripRight(s[..|s| - 1]) else s
  }

  /** `s.strip()`: drops leading and trailing whitespace; a text of
      whitespace only becomes empty. */
  function Strip(s: string): (r: string)
    ensures |r| <= |s|
  {
    StripRight(StripLeft(s))
  }

  lemma {:induction false} StripLeftFirst(s: string)
    ensures |StripLeft(s)| > 0 ==> !IsSpace(StripLeft(s)[0])
    decreases |s|
  {
    if |s| > 0 && IsSpace(s[0]) {
      StripLeftFirst(s[1..]);
    }
  }

  /** `rstrip` keeps a prefix and leaves no trailing whitespace. */
  lemma {:induction false} StripRightPrefix(s: string)
    ensures StripRight(s) == s[..|StripRight(s)|]
    ensures |StripRight(s)| > 0 ==> !IsSpace(StripRight(s)[|StripRight(s)| - 1])
    decreases |s|
  {
    if |s| > 0 && IsSpace(s[|s| - 1]) {
      var t := s[..|s| - 1];
      StripRightPrefix(t);
      assert t[..|StripRight(t)|] == s[..|StripRight(t)|];
    }
  }

  /** A stripped text neither starts nor ends with whitespace. */
  lemma StripEnds(s: string)
    ensures |Strip(s)| > 0 ==> !IsSpace(Strip(s)[0]) && !IsSpace(Strip(s)[|Strip(s)| - 1])
  {
    var l := StripLeft(s);
    StripLeftFirst(s);
    StripRightPrefix(l);
    if |Strip(s)| > 0 {
      assert Strip(s)[0] == l[..|Strip(s)|][0] == l[0];
    }
  }

  /** A text with no whitespace at either end is its own strip. */
  lemma StripUnchanged(s: string)
    requires |s| > 0 ==> !IsSpace(s[0]) && !IsSpace(s[|s| - 1])
    ensures Strip(s) == s
  {
  }

  /** Stripping twice is stripping once. */
  lemma StripIdempotent(s: string)
    ensures Strip(Strip(s)) == Strip(s)
  {
    StripEnds(s);
    StripUnchanged(Strip(s));
  }

  // ---------------------------------------------------------------------
  // str(n) and int(s)
  // ---------------------------------------------------------------------

  /** `str(n)` for a non-negative integer: decimal digits, no leading zero. */
  function NatToString(n: nat): (s: string)
    ensures |s| >= 1
    ensures forall i :: 0 <= i < |s| ==> IsDigit(s[i])
    decreases n
  {
    if n < 10 then [DigitChar(n)] else NatToString(n / 10) + [DigitChar(n % 10)]
  }

  /** `str(i)` for any integer. */
  function IntToString(i: int): string {
    if i < 0 then "-" + NatToString(-i) else NatToString(i)
  }

  /** Digits possibly grouped by single underscores, as `int()` accepts:
      first and last are digits and no two underscores are adjacent. */
  predicate IsDigitBody(s: string) {
    && |s| > 0
    && IsDigit(s[0]) && IsDigit(s[|s| - 1])
    && (forall i :: 0 <= i < |s| ==> IsDigit(s[i]) || s[i] == '_')
    && (forall i :: 0 <= i < |s| - 1 ==> s[i] == '_' ==> s[i + 1] != '_')
  }

  /** The value of a digit body, underscores ignored. */
  function DigitsValue(s: string): nat
    requires forall i :: 0 <= i < |s| ==> IsDigit(s[i]) || s[i] == '_'
    decreases |s|
  {
    if |s| == 0 then 0
    else if s[|s| - 1] == '_' then DigitsValue(s[..|s| - 1])
    else DigitsValue(s[..|s| - 1]) * 10 + DigitValue(s[|s| - 1])
  }

  /** A non-empty run of digits has no whitespace to strip. */
  lemma DigitsUnstripped(s: string)
    ensures (|s| > 0 && forall i :: 0 <= i < |s| ==> IsDigit(s[i])) ==> Strip(s) == s
  {
    if |s| > 0 && forall i :: 0 <= i < |s| ==> IsDigit(s[i]) {
      StripUnchanged(s);
    }
  }

  /** `int(s)`: Some(value) when Python's base-10 `int()` accepts `s`, None
      when it raises ValueError. Accepted text is a number possibly
      surrounded by whitespace, so it ends in a digit once stripped; a
      bare run of digits reads as its decimal value. */
  function ParseInt(s: string): (r: Option<int>)
    ensures r.Some? ==> |Strip(s)| > 0 && IsDigit(Strip(s)[|Strip(s)| - 1])
    ensures r.Some? && r.value < 0 ==> Strip(s)[0] == '-'
    ensures (|s| > 0 && forall i :: 0 <= i < |s| ==> IsDigit(s[i])) ==> r == Some(DigitsValue(s))
  {
    DigitsUnstripped(s);
    var t := Strip(s);
    if |t| > 0 && (t[0] == '+' || t[0] == '-') then
      var body := t[1..];
      if IsDigitBody(body) then
        var v: int := DigitsValue(body);
        Some(if t[0] == '-' then -v else v)
      else None
    else if IsDigitBody(t) then Some(DigitsValue(t))
    else None
  }

  lemma {:induction false} NatToStringValue(n: nat)
    ensures DigitsValue(NatToString(n)) == n
    decreases n
  {
    if n >= 10 {
      NatToStringValue(n / 10);
      var s := NatToString(n);
      assert s[..|s| - 1] == NatToString(n / 10);
    }
  }

  /** `int(str(n)) == n` for every non-negative `n`. */
  lemma ParseNatToString(n: nat)
    ensures ParseInt(NatToString(n)) == Some(n)
  {
    var s := NatToString(n);
    StripUnchanged(s);
    NatToStringValue(n);
  }

  // ---------------------------------------------------------------------
  // Slicing
  // ---------------------------------------------------------------------

  /** A Python slice bound normalised to an index into a sequence of
      length `len`: negative bounds count from the end, all clamp. */
  function SliceIndex(len: nat, k: int): (r: nat)
    ensures r <= len
  {
    if k >= 0 then (if k <= len then k else len)
    else if len + k >= 0 then len + k else 0
  }

  /** `s[:k]`. */
  function SliceTo(s: string, k: int): string {
    s[..SliceIndex(|s|, k)]
  }

  /** `s[k:]`. */
  function SliceFrom(s: string, k: int): string {
    s[SliceIndex(|s|, k)..]
  }
}
