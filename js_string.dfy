/**
 * The JavaScript string operations the client and the gateway rely on:
 * `trim`, `split` on a one-character separator, `Array.prototype.join`,
 * `replace` with a string pattern, `startsWith`, and `parseInt` without a
 * radix argument. Strings are sequences of characters, one per code point;
 * JavaScript counts and indexes UTF-16 code units, so the two agree only on
 * text without characters outside the Basic Multilingual Plane.
 */
module JsString {
  import opened Wrappers

  /** The WhiteSpace and LineTerminator code points of ECMAScript: what `trim` and `parseInt` skip. */
  predicate IsWhitespace(c: char) {
    || c == ' ' || c == '\t' || c == '\n' || c == '\r' || c == '\U{000B}' || c == '\U{000C}'
    || c == '\U{00A0}' || c == '\U{1680}' || ('\U{2000}' <= c <= '\U{200A}')
    || c == '\U{2028}' || c == '\U{2029}' || c == '\U{202F}' || c == '\U{205F}'
    || c == '\U{3000}' || c == '\U{FEFF}'
  }

  predicate AllWhitespace(s: string) {
    forall i :: 0 <= i < |s| ==> IsWhitespace(s[i])
  }

  /** No whitespace at either end: the strings `trim` returns. */
  predicate IsTrimmed(s: string) {
    |s| == 0 || (!IsWhitespace(s[0]) && !IsWhitespace(s[|s| - 1]))
  }

  /** `s.trimStart()`: the suffix left after dropping the leading whitespace. */
  function TrimStart(s: string): (r: string)
    ensures |r| <= |s|
  {
    if |s| > 0 && IsWhitespace(s[0]) then TrimStart(s[1..]) else s
  }

  /** What `trimStart` removes is whitespace, and what it keeps starts with a non-blank. */
  lemma {:induction false} TrimStartFacts(s: string)
    ensures var r := TrimStart(s);
            && r == s[|s| - |r|..]
            && AllWhitespace(s[..|s| - |r|])
            && (|r| > 0 ==> !IsWhitespace(r[0]))
            && (AllWhitespace(s) ==> r == "")
  {
    if |s| > 0 && IsWhitespace(s[0]) {
      var r := TrimStart(s[1..]);
      TrimStartFacts(s[1..]);
      assert s[1..][..|s| - 1 - |r|] == s[1..|s| - |r|];
      assert AllWhitespace(s) ==> AllWhitespace(s[1..]);
    }
  }

  /** `s.trimEnd()`: the prefix left after dropping the trailing whitespace. */
  function TrimEnd(s: string): (r: string)
    ensures |r| <= |s|
  {
    if |s| > 0 && IsWhitespace(s[|s| - 1]) then TrimEnd(s[..|s| - 1]) else s
  }

  /** What `trimEnd` removes is whitespace, and what it keeps ends with a non-blank. */
  lemma {:induction false} TrimEndFacts(s: string)
    ensures var r := TrimEnd(s);
            && r == s[..|r|]
            && AllWhitespace(s[|r|..])
            && (|r| > 0 ==> !IsWhitespace(r[|r| - 1]))
  {
    if |s| > 0 && IsWhitespace(s[|s| - 1]) {
      var r := TrimEnd(s[..|s| - 1]);
      TrimEndFacts(s[..|s| - 1]);
      assert s[|r|..] == s[..|s| - 1][|r|..] + [s[|s| - 1]];
    }
  }

  /** `s.trim()`: the infix of `s` left after dropping whitespace at both ends. */
  function Trim(s: string): (r: string)
    ensures |r| <= |s|
  {
    TrimEnd(TrimStart(s))
  }

  /** `trim` leaves no whitespace at either end, empties an all-blank string, and adds no character. */
  lemma {:induction false} TrimFacts(s: string, c: char)
    ensures IsTrimmed(Trim(s))
    ensures AllWhitespace(s) ==> Trim(s) == ""
    ensures c !in s ==> c !in Trim(s)
  {
    var t := TrimStart(s);
    TrimStartFacts(s);
    var u := TrimEnd(t);
    TrimEndFacts(t);
    forall j | 0 <= j < |u| ensures u[j] == s[|s| - |t| + j] {
      assert u[j] == t[..|u|][j] == t[j];
      assert t[j] == s[|s| - |t|..][j];
    }
    if |u| > 0 {
      assert !IsWhitespace(t[0]);
    }
  }

  /** `trim` gives the empty string exactly for the strings made of whitespace only. */
  lemma {:induction false} TrimEmptyIffBlank(s: string)
    ensures Trim(s) == "" <==> AllWhitespace(s)
  {
    var t := TrimStart(s);
    TrimStartFacts(s);
    TrimEndFacts(t);
    if Trim(s) == "" {
      assert |t| == 0;
      assert s[..|s|] == s;
    } else if AllWhitespace(s) {
      TrimFacts(s, ' ');
    }
  }

  /** Trimming a string that is already trimmed changes nothing. */
  lemma TrimTrimmed(s: string)
    requires IsTrimmed(s)
    ensures Trim(s) == s
  {
    if |s| > 0 {
      assert TrimStart(s) == s;
    }
  }

  /** Leading whitespace in front of a non-empty trimmed string is exactly what `trim` removes. */
  lemma {:induction false} TrimPadded(pad: string, x: string)
    requires AllWhitespace(pad) && IsTrimmed(x) && |x| > 0
    ensures Trim(pad + x) == x
  {
    TrimStartPadded(pad, x);
  }

  lemma {:induction false} TrimStartPadded(pad: string, x: string)
    requires AllWhitespace(pad) && |x| > 0 && !IsWhitespace(x[0])
    ensures TrimStart(pad + x) == x
  {
    if |pad| > 0 {
      assert (pad + x)[1..] == pad[1..] + x;
      assert IsWhitespace((pad + x)[0]);
      TrimStartPadded(pad[1..], x);
    } else {
      assert pad + x == x;
    }
  }

  /**
   * `s.split(sep)` for a one-character separator: the maximal separator-free
   * pieces, in order; the empty string gives one empty piece.
   */
  function Split(s: string, sep: char): (r: seq<string>)
    ensures |r| > 0
    ensures forall i :: 0 <= i < |r| ==> sep !in r[i]
  {
    if |s| == 0 then [""]
    else
      var rest := Split(s[1..], sep);
      if s[0] == sep then [""] + rest
      else [[s[0]] + rest[0]] + rest[1..]
  }

  /** `parts.join(sep)` for strings. */
  function Join(parts: seq<string>, sep: string): string
  {
    if |parts| == 0 then ""
    else if |parts| == 1 then parts[0]
    else parts[0] + sep + Join(parts[1..], sep)
  }

  /** Joining the pieces of a split with the same separator gives the original string back. */
  lemma {:induction false} JoinSplit(s: string, sep: char)
    ensures Join(Split(s, sep), [sep]) == s
  {
    if |s| > 0 {
      var rest := Split(s[1..], sep);
      JoinSplit(s[1..], sep);
      if s[0] == sep {
        assert Join([""] + rest, [sep]) == [sep] + Join(rest, [sep]) by {
          assert ([""] + rest)[1..] == rest;
        }
      } else {
        var r := [[s[0]] + rest[0]] + rest[1..];
        if |rest| == 1 {
          assert Join(r, [sep]) == [s[0]] + rest[0];
        } else {
          assert r[1..] == rest[1..];
          assert Join(r, [sep]) == [s[0]] + rest[0] + [sep] + Join(rest[1..], [sep]);
        }
      }
      assert s == [s[0]] + s[1..];
    }
  }

  /** A separator-free string splits into itself alone. */
  lemma {:induction false} SplitNoSeparator(a: string, sep: char)
    requires sep !in a
    ensures Split(a, sep) == [a]
  {
    if |a| > 0 {
      SplitNoSeparator(a[1..], sep);
      assert [a[0]] + a[1..] == a;
    }
  }

  /** Splitting `a + sep + b` with a separator-free `a` yields `a` and then the pieces of `b`. */
  lemma {:induction false} SplitAfterPiece(a: string, sep: char, b: string)
    requires sep !in a
    ensures Split(a + [sep] + b, sep) == [a] + Split(b, sep)
  {
    var s := a + [sep] + b;
    if |a| == 0 {
      assert s[1..] == b;
    } else {
      assert s[1..] == a[1..] + [sep] + b;
      SplitAfterPiece(a[1..], sep, b);
      assert [a[0]] + a[1..] == a;
    }
  }

  /** Splitting at one occurrence of the separator splits the two sides independently. */
  lemma {:induction false} SplitAtSeparator(a: string, sep: char, b: string)
    ensures Split(a + [sep] + b, sep) == Split(a, sep) + Split(b, sep)
  {
    var s := a + [sep] + b;
    if |a| == 0 {
      assert s[1..] == b;
    } else {
      assert s[0] == a[0];
      assert s[1..] == a[1..] + [sep] + b;
      SplitAtSeparator(a[1..], sep, b);
    }
  }

  /** Splitting a join of separator-free pieces gives back the same pieces. */
  lemma {:induction false} SplitJoin(parts: seq<string>, sep: char)
    requires |parts| > 0
    requires forall i :: 0 <= i < |parts| ==> sep !in parts[i]
    ensures Split(Join(parts, [sep]), sep) == parts
  {
    if |parts| == 1 {
      SplitNoSeparator(parts[0], sep);
    } else {
      SplitJoin(parts[1..], sep);
      SplitAfterPiece(parts[0], sep, Join(parts[1..], [sep]));
      assert [parts[0]] + parts[1..] == parts;
    }
  }

  predicate StartsWith(s: string, prefix: string) {
    |prefix| <= |s| && s[..|prefix|] == prefix
  }

  predicate OccursAt(s: string, pat: string, i: int) {
    0 <= i && i + |pat| <= |s| && s[i..i + |pat|] == pat
  }

  /** `s.indexOf(pat, from)`, with `None` for -1. */
  function IndexOfFrom(s: string, pat: string, from: nat): (r: Option<nat>)
    ensures r.Some? ==> from <= r.value && OccursAt(s, pat, r.value)
    ensures r.Some? ==> forall j :: from <= j < r.value ==> !OccursAt(s, pat, j)
    ensures r.None? ==> forall j :: from <= j ==> !OccursAt(s, pat, j)
    decreases |s| - from
  {
    if from + |pat| > |s| then None
    else if s[from..from + |pat|] == pat then Some(from)
    else IndexOfFrom(s, pat, from + 1)
  }

  /** `s.replace(pat, rep)` for a string pattern: only the first occurrence is replaced. */
  function ReplaceFirst(s: string, pat: string, rep: string): (r: string)
    ensures StartsWith(s, pat) ==> r == rep + s[|pat|..]
    ensures (forall j :: !OccursAt(s, pat, j)) ==> r == s
  {
    match IndexOfFrom(s, pat, 0)
    case None => s
    case Some(i) =>
      assert StartsWith(s, pat) ==> i == 0 by {
        if StartsWith(s, pat) { assert OccursAt(s, pat, 0); }
      }
      s[..i] + rep + s[i + |pat|..]
  }

  /** The digit a character stands for in bases up to 36. */
  function DigitOf(c: char): Option<nat> {
    if '0' <= c <= '9' then Some(c as int - '0' as int)
    else if 'a' <= c <= 'z' then Some(c as int - 'a' as int + 10)
    else if 'A' <= c <= 'Z' then Some(c as int - 'A' as int + 10)
    else None
  }

  predicate IsDigitIn(c: char, radix: nat) {
    DigitOf(c).Some? && DigitOf(c).value < radix
  }

  predicate AllDigitsIn(ds: string, radix: nat) {
    forall i :: 0 <= i < |ds| ==> IsDigitIn(ds[i], radix)
  }

  /** The longest prefix of `s` made of digits of the radix. */
  function DigitPrefix(s: string, radix: nat): (r: string)
    ensures |r| <= |s| && r == s[..|r|]
    ensures AllDigitsIn(r, radix)
    ensures |r| < |s| ==> !IsDigitIn(s[|r|], radix)
  {
    if |s| > 0 && IsDigitIn(s[0], radix) then [s[0]] + DigitPrefix(s[1..], radix) else ""
  }

  /** The number a digit string denotes, most significant digit first. */
  function DigitsValue(ds: string, radix: nat): nat
    requires AllDigitsIn(ds, radix)
  {
    if |ds| == 0 then 0
    else DigitsValue(ds[..|ds| - 1], radix) * radix + DigitOf(ds[|ds| - 1]).value
  }

  /**
   * `parseInt(s)` with no radix: skip leading whitespace, take an optional sign,
   * read base 16 after a `0x`/`0X` prefix and base 10 otherwise, and stop at the
   * first character that is not a digit. `None` is NaN (no digit at all).
   */
  function ParseInt(s: string): (r: Option<int>)
    ensures r.Some? ==> exists i :: 0 <= i < |s| && '0' <= s[i] <= '9'
    ensures r.Some? && r.value < 0 ==> exists i :: 0 <= i < |s| && s[i] == '-'
  {
    TrimStartFacts(s);
    var t := TrimStart(s);
    var k := |s| - |t|;
    assert forall j :: 0 <= j < |t| ==> t[j] == s[k + j];
    if |t| > 0 && t[0] == '-' then
      match ParseMagnitude(t[1..])
      case None => None
      case Some(n) => assert s[k + 1] == t[1]; Some(-(n as int))
    else if |t| > 0 && t[0] == '+' then
      var m := ParseMagnitude(t[1..]);
      assert m.Some? ==> s[k + 1] == t[1];
      m
    else
      var m := ParseMagnitude(t);
      assert m.Some? ==> s[k] == t[0];
      m
  }

  /** The unsigned part of `parseInt`: the radix prefix, then the longest run of digits. */
  function ParseMagnitude(u: string): (r: Option<nat>)
    ensures r.Some? ==> |u| > 0 && '0' <= u[0] <= '9'
  {
    if |u| >= 2 && u[0] == '0' && (u[1] == 'x' || u[1] == 'X') then ParseDigits(u[2..], 16)
    else ParseDigits(u, 10)
  }

  function ParseDigits(s: string, radix: nat): Option<nat>
  {
    var digits := DigitPrefix(s, radix);
    if |digits| == 0 then None else Some(DigitsValue(digits, radix))
  }

  /** `parseInt(s) || 0`: NaN and zero both become 0. */
  function ParseIntOrZero(s: string): int
  {
    match ParseInt(s)
    case None => 0
    case Some(n) => n
  }

  function DigitChar(d: nat): (c: char)
    requires d < 10
    ensures '0' <= c <= '9' && DigitOf(c) == Some(d)
  {
    ('0' as int + d) as char
  }

  /** The decimal numeral of a natural number, as `String(n)` prints it. */
  function DecimalString(n: nat): (r: string)
    ensures |r| > 0
    ensures forall i :: 0 <= i < |r| ==> '0' <= r[i] <= '9'
    ensures n > 0 ==> r[0] != '0'
  {
    if n < 10 then [DigitChar(n)] else DecimalString(n / 10) + [DigitChar(n % 10)]
  }

  /** The decimal numeral of an integer, with a leading `-` when negative. */
  function IntString(i: int): (r: string)
    ensures |r| > 0
  {
    if i < 0 then "-" + DecimalString(-i) else DecimalString(i)
  }

  lemma {:induction false} DecimalStringValue(n: nat)
    ensures AllDigitsIn(DecimalString(n), 10)
    ensures DigitsValue(DecimalString(n), 10) == n
  {
    var r := DecimalString(n);
    if n >= 10 {
      DecimalStringValue(n / 10);
      assert r[..|r| - 1] == DecimalString(n / 10);
    }
  }

  lemma {:induction false} DigitPrefixOfDigits(ds: string, radix: nat)
    requires AllDigitsIn(ds, radix)
    ensures DigitPrefix(ds, radix) == ds
  {
    if |ds| > 0 {
      DigitPrefixOfDigits(ds[1..], radix);
      assert [ds[0]] + ds[1..] == ds;
    }
  }

  lemma MagnitudeOfDecimal(n: nat)
    ensures ParseMagnitude(DecimalString(n)) == Some(n)
  {
    var d := DecimalString(n);
    DecimalStringValue(n);
    DigitPrefixOfDigits(d, 10);
    assert !(|d| >= 2 && d[0] == '0');
  }

  lemma ParseIntUnsigned(t: string)
    requires |t| > 0 && !IsWhitespace(t[0]) && t[0] != '-' && t[0] != '+'
    ensures ParseInt(t) == ParseMagnitude(t)
  {
    assert TrimStart(t) == t;
  }

  lemma ParseIntNegative(t: string, n: nat)
    requires |t| > 0 && t[0] == '-' && ParseMagnitude(t[1..]) == Some(n)
    ensures ParseInt(t) == Some(-(n as int))
  {
    assert TrimStart(t) == t;
  }

  /** `parseInt` reads back every integer's decimal numeral exactly. */
  lemma ParseIntString(i: int)
    ensures ParseInt(IntString(i)) == Some(i)
    ensures ParseIntOrZero(IntString(i)) == i
  {
    if i < 0 {
      var t := "-" + DecimalString(-i);
      assert IntString(i) == t;
      assert t[1..] == DecimalString(-i);
      MagnitudeOfDecimal(-i);
      ParseIntNegative(t, -i);
    } else {
      var t := DecimalString(i);
      assert IntString(i) == t;
      assert '0' <= t[0] <= '9';
      assert !IsWhitespace(t[0]);
      MagnitudeOfDecimal(i);
      ParseIntUnsigned(t);
    }
  }

  /** Input whose first non-blank character is neither a sign nor a decimal digit parses to NaN. */
  lemma NonNumericIsZero(s: string)
    requires var t := TrimStart(s); |t| == 0 || (t[0] != '-' && t[0] != '+' && !('0' <= t[0] <= '9'))
    ensures ParseInt(s).None?
    ensures ParseIntOrZero(s) == 0
  {
    var t := TrimStart(s);
    assert !(|t| >= 2 && t[0] == '0');
    assert |t| > 0 ==> !IsDigitIn(t[0], 10);
    assert DigitPrefix(t, 10) == "";
  }
}
