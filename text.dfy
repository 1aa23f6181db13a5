/**
 * String helpers that stand for the JavaScript and Python string operations
 * the core relies on: trim, replace (first occurrence and all occurrences),
 * split at a separator, title case, and decimal integer printing and parsing.
 * Only the ASCII part of each operation is modelled.
 */
module Text {
  import opened Wrappers

  predicate IsDigit(c: char) { '0' <= c <= '9' }
  predicate IsUpper(c: char) { 'A' <= c <= 'Z' }
  predicate IsLower(c: char) { 'a' <= c <= 'z' }
  predicate IsLetter(c: char) { IsUpper(c) || IsLower(c) }

  /** The characters `String.prototype.trim` strips, restricted to ASCII. */
  predicate IsSpace(c: char) {
    c == ' ' || c == '\t' || c == '\n' || c == '\r' || c == 11 as char || c == 12 as char
  }

  /** A string that `s.trim()` turns into the empty (falsy) string. */
  ghost predicate IsBlank(s: string) {
    forall i | 0 <= i < |s| :: IsSpace(s[i])
  }

  /** `s` without its leading white space. */
  function TrimStart(s: string): (r: string)
    ensures |r| <= |s|
  {
    if s != [] && IsSpace(s[0]) then TrimStart(s[1..]) else s
  }

  /** `s` without its trailing white space. */
  function TrimEnd(s: string): (r: string)
    ensures |r| <= |s|
  {
    if s != [] && IsSpace(s[|s| - 1]) then TrimEnd(s[..|s| - 1]) else s
  }

  /** What is left after the leading white space is a suffix that does not start with white space. */
  lemma {:induction false} TrimStartSuffix(s: string)
    ensures var r := TrimStart(s);
      r == s[|s| - |r|..] && (r != [] ==> !IsSpace(r[0]))
      && forall i | 0 <= i < |s| - |r| :: IsSpace(s[i])
  {
    if s != [] && IsSpace(s[0]) {
      TrimStartSuffix(s[1..]);
      var r := TrimStart(s);
      assert r == TrimStart(s[1..]);
      forall i | 0 <= i < |s| - |r|
        ensures IsSpace(s[i])
      {
        if i > 0 {
          assert s[i] == s[1..][i - 1];
        }
      }
    }
  }

  /** What is left after the trailing white space is a prefix that does not end with white space. */
  lemma {:induction false} TrimEndPrefix(s: string)
    ensures var r := TrimEnd(s);
      r == s[..|r|] && (r != [] ==> !IsSpace(r[|r| - 1]))
      && forall i | |r| <= i < |s| :: IsSpace(s[i])
  {
    if s != [] && IsSpace(s[|s| - 1]) {
      TrimEndPrefix(s[..|s| - 1]);
      var r := TrimEnd(s);
      assert r == TrimEnd(s[..|s| - 1]);
      forall i | |r| <= i < |s|
        ensures IsSpace(s[i])
      {
        if i < |s| - 1 {
          assert s[i] == s[..|s| - 1][i];
        }
      }
    }
  }

  /** `s.trim()` */
  function Trim(s: string): string {
    TrimEnd(TrimStart(s))
  }

  /** `!s.trim()` holds exactly for the strings made of white space only. */
  lemma TrimEmptyIffBlank(s: string)
    ensures Trim(s) == "" <==> IsBlank(s)
  {
    var t := TrimStart(s);
    TrimStartSuffix(s);
    TrimEndPrefix(t);
    if t != [] {
      assert t[0] == s[|s| - |t|];
    }
  }

  /** Python `s.replace(from, to)`: every occurrence is replaced. */
  function ReplaceAll(s: string, from: char, to: char): (r: string)
    ensures |r| == |s|
    ensures forall i | 0 <= i < |s| :: r[i] == (if s[i] == from then to else s[i])
  {
    if s == [] then [] else [if s[0] == from then to else s[0]] + ReplaceAll(s[1..], from, to)
  }

  /** Replacing in a concatenation replaces in each part. */
  lemma {:induction false} ReplaceAllAppend(x: string, y: string, from: char, to: char)
    ensures ReplaceAll(x + y, from, to) == ReplaceAll(x, from, to) + ReplaceAll(y, from, to)
  {
    if x == [] {
      assert x + y == y;
    } else {
      assert (x + y)[1..] == x[1..] + y;
      ReplaceAllAppend(x[1..], y, from, to);
    }
  }

  /** JavaScript `s.replace(from, to)` with a string pattern: only the first occurrence is replaced. */
  function ReplaceFirst(s: string, from: char, to: char): (r: string)
    ensures |r| == |s|
    ensures forall i | 0 <= i < |s| :: r[i] == (if s[i] == from && from !in s[..i] then to else s[i])
  {
    if s == [] then []
    else if s[0] == from then [to] + s[1..]
    else
      var rest := ReplaceFirst(s[1..], from, to);
      PrefixMembership(s, from);
      [s[0]] + rest
  }

  /** A character occurs in a non-empty prefix exactly when it is the head or occurs in the tail's prefix. */
  lemma PrefixMembership(s: string, c: char)
    requires s != []
    ensures forall i | 1 <= i <= |s| :: (c in s[..i] <==> c == s[0] || c in s[1..][..i - 1])
  {
    forall i | 1 <= i <= |s|
      ensures c in s[..i] <==> c == s[0] || c in s[1..][..i - 1]
    {
      assert s[..i] == [s[0]] + s[1..][..i - 1];
    }
  }

  /** Python/JavaScript `s.split(sep)[0]`: the text before the first separator. */
  function BeforeFirst(s: string, sep: char): (r: string)
    ensures |r| <= |s| && r == s[..|r|] && sep !in r
    ensures |r| < |s| ==> s[|r|] == sep
  {
    if s == [] || s[0] == sep then [] else [s[0]] + BeforeFirst(s[1..], sep)
  }

  function ToUpper(c: char): char { if IsLower(c) then (c as int - 32) as char else c }
  function ToLower(c: char): char { if IsUpper(c) then (c as int + 32) as char else c }

  /**
   * Python `s.title()` on ASCII text: a letter is upper-cased when it starts a
   * word (the previous character is not a letter) and lower-cased otherwise.
   */
  function Title(s: string): (r: string)
    ensures |r| == |s|
  {
    TitleAfter(s, false)
  }

  function TitleAfter(s: string, afterLetter: bool): (r: string)
    ensures |r| == |s|
  {
    if s == [] then []
    else [if afterLetter then ToLower(s[0]) else ToUpper(s[0])] + TitleAfter(s[1..], IsLetter(s[0]))
  }

  /**
   * Each character of a title-cased string: lower-cased after a letter,
   * upper-cased otherwise (the case mappings leave non-letters alone).
   */
  lemma {:induction false} TitleAfterAt(s: string, afterLetter: bool)
    ensures forall i | 0 <= i < |s| ::
      TitleAfter(s, afterLetter)[i] == if (if i == 0 then afterLetter else IsLetter(s[i - 1])) then ToLower(s[i]) else ToUpper(s[i])
  {
    if s != [] {
      TitleAfterAt(s[1..], IsLetter(s[0]));
      var t := TitleAfter(s, afterLetter);
      assert t[1..] == TitleAfter(s[1..], IsLetter(s[0]));
      forall i | 1 <= i < |s|
        ensures t[i] == if IsLetter(s[i - 1]) then ToLower(s[i]) else ToUpper(s[i])
      {
        assert t[i] == t[1..][i - 1] && s[i] == s[1..][i - 1];
        if i > 1 {
          assert s[i - 1] == s[1..][i - 2];
        }
      }
    }
  }

  /**
   * The order of strings by code points, as a database sorts text under a
   * binary collation: a proper prefix comes first.
   */
  predicate LexLe(a: string, b: string) {
    a == [] || (b != [] && (a[0] < b[0] || (a[0] == b[0] && LexLe(a[1..], b[1..]))))
  }

  lemma {:induction false} LexLeTotal(a: string, b: string)
    ensures LexLe(a, b) || LexLe(b, a)
  {
    if a != [] && b != [] && a[0] == b[0] {
      LexLeTotal(a[1..], b[1..]);
    }
  }

  lemma {:induction false} LexLeTrans(a: string, b: string, c: string)
    requires LexLe(a, b) && LexLe(b, c)
    ensures LexLe(a, c)
  {
    if a != [] && b[0] == c[0] && a[0] == b[0] {
      LexLeTrans(a[1..], b[1..], c[1..]);
    }
  }

  lemma {:induction false} LexLeAntisymmetric(a: string, b: string)
    requires LexLe(a, b) && LexLe(b, a)
    ensures a == b
  {
    if a != [] {
      LexLeAntisymmetric(a[1..], b[1..]);
      assert a == [a[0]] + a[1..] && b == [b[0]] + b[1..];
    }
  }

  function DigitChar(d: nat): (c: char)
    requires d < 10
    ensures IsDigit(c)
  {
    ('0' as int + d) as char
  }

  /** `n.toString()` for a non-negative integer: its decimal digits. */
  function NatToString(n: nat): (s: string)
    ensures |s| > 0
    ensures forall i | 0 <= i < |s| :: IsDigit(s[i])
  {
    if n < 10 then [DigitChar(n)] else NatToString(n / 10) + [DigitChar(n % 10)]
  }

  ghost predicate AllDigits(s: string) {
    forall i | 0 <= i < |s| :: IsDigit(s[i])
  }

  function DigitValue(c: char): (d: nat)
    requires IsDigit(c)
    ensures d < 10
  {
    c as int - '0' as int
  }

  /** The number a run of decimal digits denotes. */
  function DigitsValue(s: string): nat
    requires forall i | 0 <= i < |s| :: IsDigit(s[i])
  {
    if s == [] then 0 else DigitsValue(s[..|s| - 1]) * 10 + DigitValue(s[|s| - 1])
  }

  function LeadingDigits(s: string): (r: string)
    ensures |r| <= |s| && r == s[..|r|]
    ensures forall i | 0 <= i < |r| :: IsDigit(r[i])
    ensures |r| < |s| ==> !IsDigit(s[|r|])
  {
    if s != [] && IsDigit(s[0]) then [s[0]] + LeadingDigits(s[1..]) else []
  }

  /**
   * JavaScript `parseInt(s)` in base 10: leading white space, an optional
   * sign, then the longest run of digits; `None` stands for `NaN`.
   */
  function ParseInt(s: string): (r: Option<int>)
    ensures r.None? <==> LeadingDigits(Unsigned(TrimStart(s))) == ""
  {
    var t := TrimStart(s);
    var digits := LeadingDigits(Unsigned(t));
    if digits == "" then None
    else if t[0] == '-' then Some(0 - DigitsValue(digits) as int)
    else Some(DigitsValue(digits))
  }

  function Unsigned(t: string): string {
    if t != [] && (t[0] == '-' || t[0] == '+') then t[1..] else t
  }

  lemma {:induction false} DigitsValueOfNatToString(n: nat)
    ensures DigitsValue(NatToString(n)) == n
  {
    var s := NatToString(n);
    if n >= 10 {
      DigitsValueOfNatToString(n / 10);
      assert s[..|s| - 1] == NatToString(n / 10);
    }
  }

  lemma {:induction false} LeadingDigitsOfDigits(s: string)
    requires forall i | 0 <= i < |s| :: IsDigit(s[i])
    ensures LeadingDigits(s) == s
  {
    if s != [] {
      LeadingDigitsOfDigits(s[1..]);
    }
  }

  /** Printing a time stamp and parsing it back gives the same number. */
  lemma ParseIntNatToString(n: nat)
    ensures ParseInt(NatToString(n)) == Some(n)
  {
    var s := NatToString(n);
    assert !IsSpace(s[0]) && s[0] != '-' && s[0] != '+' by { assert IsDigit(s[0]); }
    assert TrimStart(s) == s;
    assert Unsigned(s) == s;
    LeadingDigitsOfDigits(s);
    DigitsValueOfNatToString(n);
  }
}
