/**
 * The parts of Kotlin's standard string library the dispatcher relies on:
 * `Char.isWhitespace`, `String.trim()`, `String.toLowerCase(Locale.ROOT)` and
 * `String.split(",")`; and `String.equals(other, ignoreCase = true)`, which
 * the SDK adapter uses for the purchase type. The case mappings cover only
 * the characters whose mapping involves an ASCII letter, so they agree with
 * Kotlin whenever one side of a comparison is ASCII.
 */
module KotlinText {

  /**
   * Kotlin's `Char.isWhitespace()`: Java's `Character.isWhitespace` or
   * `Character.isSpaceChar`, i.e. the controls U+0009..U+000D and
   * U+001C..U+001F and every character of the Unicode categories Zs, Zl, Zp.
   */
  predicate IsWhitespace(c: char) {
    || ('\U{0009}' <= c <= '\U{000D}')
    || ('\U{001C}' <= c <= '\U{001F}')
    || c == ' '
    || c == '\U{00A0}'
    || c == '\U{1680}'
    || ('\U{2000}' <= c <= '\U{200A}')
    || c == '\U{2028}'
    || c == '\U{2029}'
    || c == '\U{202F}'
    || c == '\U{205F}'
    || c == '\U{3000}'
  }

  /** A string made of whitespace only (the empty string included). */
  predicate IsBlank(s: string) {
    forall i :: 0 <= i < |s| ==> IsWhitespace(s[i])
  }

  predicate IsUpperAscii(c: char) {
    'A' <= c <= 'Z'
  }

  /**
   * The characters whose lower case is an ASCII letter other than
   * themselves: `A`..`Z` and U+212A (Kelvin sign), which lowers to `k`.
   */
  predicate IsUpperCase(c: char) {
    IsUpperAscii(c) || c == '\U{212A}'
  }

  /**
   * `Char.lowercaseChar()` on the characters whose lower case is an ASCII
   * letter; every other character is left as it is.
   */
  function LowerChar(c: char): (r: char)
    ensures !IsUpperCase(r)
    ensures IsWhitespace(r) <==> IsWhitespace(c)
    ensures IsUpperAscii(c) ==> r == (c as int + 32) as char && 'a' <= r <= 'z'
    ensures c == '\U{212A}' ==> r == 'k'
    ensures !IsUpperCase(c) ==> r == c
  {
    if IsUpperAscii(c) then (c as int + 32) as char
    else if c == '\U{212A}' then 'k'
    else c
  }

  /** A string that `Lowercase` leaves unchanged. */
  predicate IsLowerCase(s: string) {
    forall i :: 0 <= i < |s| ==> !IsUpperCase(s[i])
  }

  /** `String.toLowerCase(Locale.ROOT)`, character by character. */
  function Lowercase(s: string): (r: string)
    ensures |r| == |s|
    ensures forall i :: 0 <= i < |s| ==> r[i] == LowerChar(s[i])
    ensures IsLowerCase(r)
  {
    seq(|s|, i requires 0 <= i < |s| => LowerChar(s[i]))
  }

  /** Lower-casing a string without upper-case letters leaves it unchanged. */
  lemma LowercaseLower(s: string)
    requires IsLowerCase(s)
    ensures Lowercase(s) == s
  {
    forall i | 0 <= i < |s| ensures Lowercase(s)[i] == s[i] {
      assert !IsUpperCase(s[i]);
    }
  }

  /** A whitespace character followed by blank text is blank. */
  lemma BlankFront(s: string, n: nat)
    requires 0 < n <= |s| && IsWhitespace(s[0]) && IsBlank(s[1..][..n - 1])
    ensures IsBlank(s[..n])
  {
    forall i | 1 <= i < n ensures IsWhitespace(s[i]) {
      assert s[i] == s[1..][..n - 1][i - 1];
    }
  }

  /** Blank text followed by a whitespace character is blank. */
  lemma BlankBack(s: string, n: nat)
    requires n < |s| && IsWhitespace(s[|s| - 1]) && IsBlank(s[..|s| - 1][n..])
    ensures IsBlank(s[n..])
  {
    forall i | n <= i < |s| - 1 ensures IsWhitespace(s[i]) {
      assert s[i] == s[..|s| - 1][n..][i - n];
    }
  }

  /** Lower-casing turns a Kelvin sign between two lower-case strings into `k`. */
  lemma LowercaseKelvin(a: string, b: string)
    requires IsLowerCase(a) && IsLowerCase(b)
    ensures Lowercase(a + ['\U{212A}'] + b) == a + ['k'] + b
  {
    var s := a + ['\U{212A}'] + b;
    var r := a + ['k'] + b;
    forall i | 0 <= i < |s| ensures Lowercase(s)[i] == r[i] {
      if i < |a| {
        assert s[i] == a[i] && r[i] == a[i];
      } else if i == |a| {
        assert s[i] == '\U{212A}' && r[i] == 'k';
      } else {
        assert s[i] == b[i - |a| - 1] && r[i] == b[i - |a| - 1];
      }
    }
  }

  /** `String.trimStart()`: drops the leading whitespace. */
  function TrimStart(s: string): (r: string)
    ensures |r| <= |s| && r == s[|s| - |r|..]
    ensures r == [] || !IsWhitespace(r[0])
    ensures IsBlank(s[..|s| - |r|])
  {
    if |s| > 0 && IsWhitespace(s[0]) then
      var t := s[1..];
      var r := TrimStart(t);
      assert t[|t| - |r|..] == s[|s| - |r|..];
      BlankFront(s, |s| - |r|);
      r
    else s
  }

  /** `String.trimEnd()`: drops the trailing whitespace. */
  function TrimEnd(s: string): (r: string)
    ensures |r| <= |s| && r == s[..|r|]
    ensures r == [] || !IsWhitespace(r[|r| - 1])
    ensures IsBlank(s[|r|..])
  {
    if |s| > 0 && IsWhitespace(s[|s| - 1]) then
      var t := s[..|s| - 1];
      var r := TrimEnd(t);
      assert t[..|r|] == s[..|r|];
      BlankBack(s, |r|);
      r
    else s
  }

  /**
   * `String.trim()`: drops the leading and the trailing whitespace. The result
   * has no whitespace at either end, and it is empty exactly when the input is
   * blank.
   */
  function Trim(s: string): (r: string)
    ensures |r| <= |s|
    ensures r == [] || (!IsWhitespace(r[0]) && !IsWhitespace(r[|r| - 1]))
    ensures IsBlank(s) <==> r == []
  {
    var t := TrimStart(s);
    var r := TrimEnd(t);
    assert r != [] ==> r[0] == t[0];
    assert r == [] ==> s[..|s| - |t|] == s;
    r
  }

  /** `String.split(",")` without a limit: every piece is kept, empty ones included. */
  function Split(s: string, sep: char): (r: seq<string>)
    ensures |r| >= 1
  {
    if s == [] then [""]
    else
      var rest := Split(s[1..], sep);
      if s[0] == sep then [""] + rest
      else [[s[0]] + rest[0]] + rest[1..]
  }

  /** `joinToString(",")`: the inverse of `Split`. */
  function Join(pieces: seq<string>, sep: char): string
    requires |pieces| >= 1
  {
    if |pieces| == 1 then pieces[0] else pieces[0] + [sep] + Join(pieces[1..], sep)
  }

  /** Joining the pieces of a split gives back the string that was split. */
  lemma {:induction false} JoinSplit(s: string, sep: char)
    ensures Join(Split(s, sep), sep) == s
  {
    if s != [] {
      var rest := Split(s[1..], sep);
      JoinSplit(s[1..], sep);
      if s[0] == sep {
        assert Split(s, sep) == [""] + rest;
        assert ([""] + rest)[1..] == rest;
      } else {
        JoinExtendFirst(s[0], rest, sep);
      }
    }
  }

  /** Putting a character in front of the first piece puts it in front of the join. */
  lemma JoinExtendFirst(c: char, pieces: seq<string>, sep: char)
    requires |pieces| >= 1
    ensures Join([[c] + pieces[0]] + pieces[1..], sep) == [c] + Join(pieces, sep)
  {
    var extended := [[c] + pieces[0]] + pieces[1..];
    assert extended[1..] == pieces[1..];
  }

  /** No piece of a split contains the separator. */
  lemma {:induction false} SplitPiecesFree(s: string, sep: char)
    ensures forall i :: 0 <= i < |Split(s, sep)| ==> sep !in Split(s, sep)[i]
  {
    if s != [] {
      SplitPiecesFree(s[1..], sep);
      var rest := Split(s[1..], sep);
      var r := Split(s, sep);
      if s[0] != sep {
        assert r[0] == [s[0]] + rest[0];
        forall i | 1 <= i < |r| ensures sep !in r[i] {
          assert r[i] == rest[i];
        }
      } else {
        forall i | 1 <= i < |r| ensures sep !in r[i] {
          assert r[i] == rest[i - 1];
        }
      }
    }
  }

  /** Splitting a join of separator-free pieces gives back the pieces. */
  lemma {:induction false} SplitJoin(pieces: seq<string>, sep: char)
    requires |pieces| >= 1
    requires forall i :: 0 <= i < |pieces| ==> sep !in pieces[i]
    ensures Split(Join(pieces, sep), sep) == pieces
  {
    if |pieces| == 1 {
      SplitFree(pieces[0], sep);
    } else {
      var tail := pieces[1..];
      SplitJoin(tail, sep);
      SplitConcat(pieces[0], Join(tail, sep), sep);
    }
  }

  /** A string without the separator splits into itself alone. */
  lemma {:induction false} SplitFree(s: string, sep: char)
    requires sep !in s
    ensures Split(s, sep) == [s]
  {
    if s != [] {
      SplitFree(s[1..], sep);
      assert [s[0]] + s[1..] == s;
    }
  }

  /** Splitting `a + sep + b` with `a` separator-free puts `a` first. */
  lemma {:induction false} SplitConcat(a: string, b: string, sep: char)
    requires sep !in a
    ensures Split(a + [sep] + b, sep) == [a] + Split(b, sep)
  {
    if a == [] {
      assert a + [sep] + b == [sep] + b;
      assert ([sep] + b)[1..] == b;
    } else {
      var s := a + [sep] + b;
      assert s[1..] == a[1..] + [sep] + b;
      SplitConcat(a[1..], b, sep);
      assert [a[0]] + a[1..] == a;
    }
  }

  /** A split has one piece more than the string has separators. */
  lemma {:induction false} SplitCount(s: string, sep: char)
    ensures |Split(s, sep)| == multiset(s)[sep] + 1
  {
    if s != [] {
      SplitCount(s[1..], sep);
      assert s == [s[0]] + s[1..];
      assert multiset(s) == multiset([s[0]]) + multiset(s[1..]);
    }
  }

  /** `Trim` is the identity on a string with no whitespace at its ends. */
  lemma TrimTrimmed(s: string)
    requires s == [] || (!IsWhitespace(s[0]) && !IsWhitespace(s[|s| - 1]))
    ensures Trim(s) == s
  {
  }

  /**
   * Kotlin's `Char.uppercaseChar()` on the characters whose case mapping
   * involves an ASCII letter: the ASCII letters, U+0131 (dotless i) and
   * U+017F (long s); every other character is left as it is.
   */
  function UpperChar(c: char): char {
    if 'a' <= c <= 'z' then (c as int - 32) as char
    else if c == '\U{0131}' then 'I'
    else if c == '\U{017F}' then 'S'
    else c
  }

  /**
   * Kotlin's `Char.lowercaseChar()` on the characters whose case mapping
   * involves an ASCII letter: the ASCII letters, U+0130 (dotted capital I)
   * and U+212A (Kelvin sign); every other character is left as it is.
   */
  function LowerCharFull(c: char): char {
    if 'A' <= c <= 'Z' then (c as int + 32) as char
    else if c == '\U{0130}' then 'i'
    else if c == '\U{212A}' then 'k'
    else c
  }

  /**
   * Kotlin's `Char.equals(other, ignoreCase = true)` restricted to the case
   * mappings that involve an ASCII letter: exact when one side is ASCII.
   */
  predicate CharEqualsIgnoreCase(a: char, b: char) {
    a == b || UpperChar(a) == UpperChar(b) || LowerCharFull(UpperChar(a)) == LowerCharFull(UpperChar(b))
  }

  /**
   * Kotlin's `String.equals(other, ignoreCase = true)`, exact when one side is
   * ASCII: strings of equal length that agree character by character up to case.
   * Every string equals itself, and only strings of equal length are equal.
   */
  predicate EqualsIgnoreCase(a: string, b: string)
    ensures a == b ==> EqualsIgnoreCase(a, b)
    ensures EqualsIgnoreCase(a, b) ==> |a| == |b|
  {
    |a| == |b| && forall i :: 0 <= i < |a| ==> CharEqualsIgnoreCase(a[i], b[i])
  }

  /** An ASCII character equals a lower-case ASCII letter ignoring case exactly when it lowers to it. */
  lemma CharEqualsIgnoreCaseAscii(c: char, d: char)
    requires c < 128 as char && 'a' <= d <= 'z'
    ensures CharEqualsIgnoreCase(c, d) <==> LowerChar(c) == d
  {
    if 'A' <= c <= 'Z' {
      assert LowerCharFull(UpperChar(c)) == LowerChar(c);
    } else if 'a' <= c <= 'z' {
      assert LowerCharFull(UpperChar(c)) == c;
    } else {
      assert UpperChar(c) == c && LowerCharFull(c) == c;
    }
  }

  /**
   * For an ASCII string and a word of the letters `a`..`z`, comparing ignoring
   * case is comparing the lowered string.
   */
  lemma EqualsIgnoreCaseAscii(s: string, t: string)
    requires forall i :: 0 <= i < |s| ==> s[i] < 128 as char
    requires forall i :: 0 <= i < |t| ==> 'a' <= t[i] <= 'z'
    ensures EqualsIgnoreCase(s, t) <==> Lowercase(s) == t
  {
    if |s| == |t| {
      forall i | 0 <= i < |s| ensures CharEqualsIgnoreCase(s[i], t[i]) <==> Lowercase(s)[i] == t[i] {
        CharEqualsIgnoreCaseAscii(s[i], t[i]);
      }
    }
  }

  /** Comparing without case does not depend on the order of the two strings. */
  lemma EqualsIgnoreCaseSymmetric(a: string, b: string)
    ensures EqualsIgnoreCase(a, b) == EqualsIgnoreCase(b, a)
  {
  }
}
