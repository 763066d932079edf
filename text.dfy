/**
 * The JavaScript string operations the components rely on, on strings
 * as sequences of characters: `trim`, `toLowerCase`, `startsWith`,
 * `Number.prototype.toString`, `padStart(2, '0')`, `parseInt` and a
 * character-class `replace`.
 */
module Text {
  import opened Wrappers
  import Seqs

  /** The characters `String.prototype.trim` strips: the ECMAScript WhiteSpace and LineTerminator sets. */
  predicate IsSpace(c: char) {
    c in {'\t', '\n', '\U{000B}', '\U{000C}', '\r', ' ', '\U{00A0}', '\U{1680}',
          '\U{2000}', '\U{2001}', '\U{2002}', '\U{2003}', '\U{2004}', '\U{2005}',
          '\U{2006}', '\U{2007}', '\U{2008}', '\U{2009}', '\U{200A}', '\U{2028}',
          '\U{2029}', '\U{202F}', '\U{205F}', '\U{3000}', '\U{FEFF}'}
  }

  function TrimStart(s: string): (r: string)
    ensures |r| <= |s| && r == s[|s| - |r|..]
    ensures r == [] || !IsSpace(r[0])
    ensures forall i :: 0 <= i < |s| - |r| ==> IsSpace(s[i])
  {
    if s != [] && IsSpace(s[0]) then TrimStart(s[1..]) else s
  }

  function TrimEnd(s: string): (r: string)
    ensures |r| <= |s| && r == s[..|r|]
    ensures r == [] || !IsSpace(r[|r| - 1])
    ensures forall i :: |r| <= i < |s| ==> IsSpace(s[i])
  {
    if s != [] && IsSpace(s[|s| - 1]) then TrimEnd(s[..|s| - 1]) else s
  }

  /** `s.trim()`: characters of `s` with no white space at either end. */
  function Trim(s: string): (r: string)
    ensures |r| <= |s|
    ensures forall c :: c in r ==> c in s
    ensures r == [] || (!IsSpace(r[0]) && !IsSpace(r[|r| - 1]))
  {
    TrimFacts(s);
    TrimEnd(TrimStart(s))
  }

  /** `trim` keeps the one contiguous piece of `s` that starts where its leading white space ends. */
  lemma TrimIsSlice(s: string)
    ensures var k := |s| - |TrimStart(s)|;
      var r := Trim(s);
      k + |r| <= |s| && r == s[k..k + |r|]
  {
    TrimMiddle(s);
  }

  /** `trim` keeps one contiguous piece of its input. */
  lemma TrimFacts(s: string)
    ensures var t := TrimStart(s);
      var r := TrimEnd(t);
      var k := |s| - |t|;
      k + |r| <= |s| && r == s[k..k + |r|] && (forall c :: c in r ==> c in s)
  {
    var t := TrimStart(s);
    TrimMiddle(s);
    SliceMembers(s, |s| - |t|, |TrimEnd(t)|);
  }

  /** What `trim` cuts off on either side of the kept piece is white space only. */
  lemma TrimCutsOnlySpace(s: string)
    ensures var k := |s| - |TrimStart(s)|;
      var r := Trim(s);
      (forall i :: 0 <= i < k ==> IsSpace(s[i])) &&
      (forall i :: k + |r| <= i < |s| ==> IsSpace(s[i]))
  {
    var t := TrimStart(s);
    SuffixSpaces(s, t, |s| - |t|, |TrimEnd(t)|);
  }

  /** The trimmed string is the piece of `s` that starts where the leading white space ends. */
  lemma TrimMiddle(s: string)
    ensures var t := TrimStart(s);
      var r := TrimEnd(t);
      var k := |s| - |t|;
      k + |r| <= |s| && r == s[k..k + |r|]
  {
    var t := TrimStart(s);
    var r := TrimEnd(t);
    var k := |s| - |t|;
    PrefixOfSuffix(s, k, |r|);
  }

  /** Every character of a slice occurs in the whole. */
  lemma SliceMembers(s: string, k: nat, m: nat)
    requires k + m <= |s|
    ensures forall c :: c in s[k..k + m] ==> c in s
  {
    forall c | c in s[k..k + m]
      ensures c in s
    {
      var i :| 0 <= i < m && s[k..k + m][i] == c;
      assert s[k + i] == c;
    }
  }

  /** Taking a prefix of a suffix is taking a slice. */
  lemma PrefixOfSuffix(s: string, k: nat, m: nat)
    requires k + m <= |s|
    ensures s[k..][..m] == s[k..k + m]
  {
  }

  /** White space at the end of a suffix is white space at the end of the whole. */
  lemma SuffixSpaces(s: string, t: string, k: nat, m: nat)
    requires k <= |s| && t == s[k..] && m <= |t|
    requires forall j :: m <= j < |t| ==> IsSpace(t[j])
    ensures forall i :: k + m <= i < |s| ==> IsSpace(s[i])
  {
    forall i | k + m <= i < |s|
      ensures IsSpace(s[i])
    {
      assert s[i] == t[i - k];
    }
  }

  /** `!s.trim()`: the string is empty once trimmed. */
  predicate IsBlank(s: string) {
    Trim(s) == ""
  }

  /** A string is blank exactly when every one of its characters is white space. */
  lemma BlankIffAllSpace(s: string)
    ensures IsBlank(s) <==> forall i :: 0 <= i < |s| ==> IsSpace(s[i])
  {
    var t := TrimStart(s);
    if !forall i :: 0 <= i < |s| ==> IsSpace(s[i]) {
      var k :| 0 <= k < |s| && !IsSpace(s[k]);
      assert k >= |s| - |t|;
      assert !IsSpace(t[0]);
    }
  }

  /** Trimming a trimmed string changes nothing. */
  lemma TrimIdempotent(s: string)
    ensures Trim(Trim(s)) == Trim(s)
  {
    var t := Trim(s);
    if t != [] {
      assert TrimStart(t) == t;
      assert TrimEnd(t) == t;
    }
  }

  /** `String.prototype.toLowerCase`, for the ASCII letters. */
  function LowerChar(c: char): char {
    if 'A' <= c <= 'Z' then (c as int + 32) as char else c
  }

  function ToLower(s: string): (r: string)
    ensures |r| == |s|
    ensures forall i :: 0 <= i < |s| ==> r[i] == LowerChar(s[i])
  {
    Seqs.Map(s, LowerChar)
  }

  predicate StartsWith(s: string, prefix: string) {
    |prefix| <= |s| && s[..|prefix|] == prefix
  }

  /** `s.replace(/[...]/g, '')`: every character of `chars` removed. */
  function RemoveChars(s: string, chars: set<char>): (r: string)
    ensures forall c :: c in r ==> c in s && c !in chars
    ensures forall c :: c in s && c !in chars ==> c in r
  {
    Seqs.Filter(s, c => c !in chars)
  }

  /** One character is kept exactly when it is outside the set. */
  lemma RemoveCharsSingle(c: char, chars: set<char>)
    ensures RemoveChars([c], chars) == if c in chars then [] else [c]
  {
    assert [c][1..] == [];
  }

  /** Removal works piecewise on a concatenation, so the kept characters stay in order. */
  lemma RemoveCharsConcat(a: string, b: string, chars: set<char>)
    ensures RemoveChars(a + b, chars) == RemoveChars(a, chars) + RemoveChars(b, chars)
  {
    Seqs.FilterConcat(a, b, c => c !in chars);
  }

  predicate IsDigit(c: char) {
    '0' <= c <= '9'
  }

  function DigitChar(d: nat): char
    requires d < 10
  {
    ('0' as int + d) as char
  }

  function DigitValue(c: char): nat
    requires IsDigit(c)
  {
    c as int - '0' as int
  }

  /** The decimal text of a natural number, as `n.toString()` gives it: no sign, no leading zero. */
  function NatToString(n: nat): (r: string)
    ensures |r| >= 1
    ensures forall i :: 0 <= i < |r| ==> IsDigit(r[i])
    ensures n < 10 <==> |r| == 1
    decreases n
  {
    if n < 10 then [DigitChar(n)] else NatToString(n / 10) + [DigitChar(n % 10)]
  }

  /** The number a non-empty run of decimal digits denotes. */
  function DigitsValue(s: string): nat
    requires forall i :: 0 <= i < |s| ==> IsDigit(s[i])
  {
    if s == [] then 0 else DigitsValue(s[..|s| - 1]) * 10 + DigitValue(s[|s| - 1])
  }

  /** Reading back the decimal text of `n` gives `n`. */
  lemma {:induction false} NatToStringRoundTrip(n: nat)
    ensures DigitsValue(NatToString(n)) == n
    decreases n
  {
    if n >= 10 {
      var r := NatToString(n);
      assert r[..|r| - 1] == NatToString(n / 10);
      NatToStringRoundTrip(n / 10);
    }
  }

  /** `n.toString().padStart(2, '0')`. */
  function PadStart2(s: string): (r: string)
    ensures |r| == if |s| < 2 then 2 else |s|
  {
    if |s| == 0 then "00" else if |s| == 1 then "0" + s else s
  }

  /** The `m < 10 ? '0' + m : m` idiom of the prayer screen; the same text as `padStart(2, '0')`. */
  function ZeroPad(n: nat): (r: string)
    ensures r == PadStart2(NatToString(n))
  {
    if n < 10 then "0" + NatToString(n) else NatToString(n)
  }

  /** The longest prefix of `s` made of decimal digits. */
  function LeadingDigits(s: string): (r: string)
    ensures |r| <= |s| && r == s[..|r|]
    ensures forall i :: 0 <= i < |r| ==> IsDigit(s[i])
    ensures |r| < |s| ==> !IsDigit(s[|r|])
  {
    if s != [] && IsDigit(s[0]) then [s[0]] + LeadingDigits(s[1..]) else []
  }

  /**
   * `parseInt(s)` in base 10: leading white space skipped, an optional
   * sign, then the leading digits; `None` stands for `NaN`. A number is
   * read exactly when a digit comes first, possibly after one sign, and it
   * is negative only after a minus sign. Without a radix JavaScript also
   * reads a `0x` prefix as hexadecimal; the model reads "0x1A" as 0. The
   * texts parsed here are number-field values and "HH:MM" times, which
   * never carry that prefix.
   */
  function ParseInt(s: string): (r: Option<int>)
    ensures var t := TrimStart(s);
      r.Some? <==> (t != [] && IsDigit(t[0])) || (|t| > 1 && (t[0] == '-' || t[0] == '+') && IsDigit(t[1]))
    ensures r.Some? && r.value < 0 ==> TrimStart(s) != [] && TrimStart(s)[0] == '-'
  {
    ParseSigned(TrimStart(s))
  }

  /** `parseInt` once the leading white space is gone: an optional sign, then the leading digits. */
  function ParseSigned(t: string): (r: Option<int>)
    ensures r.Some? <==> (t != [] && IsDigit(t[0])) || (|t| > 1 && (t[0] == '-' || t[0] == '+') && IsDigit(t[1]))
    ensures r.Some? && r.value < 0 ==> t != [] && t[0] == '-'
  {
    var negative := t != [] && t[0] == '-';
    var body := if t != [] && (t[0] == '-' || t[0] == '+') then t[1..] else t;
    var digits := LeadingDigits(body);
    if digits == [] then None
    else
      var magnitude: int := DigitsValue(digits);
      Some(if negative then -magnitude else magnitude)
  }

  /** `parseInt` reads back what `toString` wrote, for every natural number. */
  lemma ParseIntNatToString(n: nat)
    ensures ParseInt(NatToString(n)) == Some(n)
  {
    ParseIntDigits(NatToString(n));
    NatToStringRoundTrip(n);
  }

  /** A non-empty run of digits is read as its decimal value. */
  lemma ParseIntDigits(s: string)
    requires s != [] && forall i :: 0 <= i < |s| ==> IsDigit(s[i])
    ensures ParseInt(s) == Some(DigitsValue(s))
  {
    DigitIsPlain(s[0]);
    TrimStartKeeps(s);
    ParseSignedDigits(s);
  }

  /** After the white space, a run of digits is read as its decimal value. */
  lemma ParseSignedDigits(t: string)
    requires t != [] && forall i :: 0 <= i < |t| ==> IsDigit(t[i])
    ensures ParseSigned(t) == Some(DigitsValue(t))
  {
    DigitIsPlain(t[0]);
    LeadingDigitsAll(t);
  }

  /** Nothing is trimmed from a string that does not end with white space. */
  lemma TrimEndKeeps(s: string)
    requires s == [] || !IsSpace(s[|s| - 1])
    ensures TrimEnd(s) == s
  {
  }

  /** Nothing is trimmed from a string that does not start with white space. */
  lemma TrimStartKeeps(s: string)
    requires s == [] || !IsSpace(s[0])
    ensures TrimStart(s) == s
  {
  }

  lemma DigitIsPlain(c: char)
    requires IsDigit(c)
    ensures !IsSpace(c) && c != '-' && c != '+'
  {
  }

  lemma {:induction false} LeadingDigitsAll(s: string)
    requires forall i :: 0 <= i < |s| ==> IsDigit(s[i])
    ensures LeadingDigits(s) == s
  {
    if s != [] {
      LeadingDigitsAll(s[1..]);
    }
  }

  /** The part of `s` before the first `sep`, and what follows it (absent when `sep` does not occur). */
  function SplitOnce(s: string, sep: char): (r: (string, Option<string>))
    ensures sep !in r.0
    ensures r.1.None? ==> r.0 == s
    ensures r.1.Some? ==> s == r.0 + [sep] + r.1.value
  {
    if s == [] then ("", None)
    else if s[0] == sep then ("", Some(s[1..]))
    else
      var rest := SplitOnce(s[1..], sep);
      ([s[0]] + rest.0, rest.1)
  }

  /** Splitting at the first separator of a text built around it gives back the two parts. */
  lemma {:induction false} SplitOnceAt(a: string, sep: char, b: string)
    requires sep !in a
    ensures SplitOnce(a + [sep] + b, sep) == (a, Some(b))
  {
    if a != [] {
      var s := a + [sep] + b;
      assert s[0] == a[0] && a[0] != sep;
      assert s[1..] == a[1..] + [sep] + b;
      SplitOnceAt(a[1..], sep, b);
      assert [a[0]] + a[1..] == a;
    } else {
      assert a + [sep] + b == [sep] + b;
    }
  }

  /** Without the separator there is nothing after it. */
  lemma {:induction false} SplitOnceAbsent(a: string, sep: char)
    requires sep !in a
    ensures SplitOnce(a, sep) == (a, None)
  {
    if a != [] {
      SplitOnceAbsent(a[1..], sep);
      assert [a[0]] + a[1..] == a;
    }
  }

  /** `String(v)` for an integer. */
  function IntText(v: int): (r: string)
    ensures v >= 0 ==> r == NatToString(v)
    ensures v < 0 ==> r == "-" + NatToString(-v)
  {
    if v < 0 then "-" + NatToString(-v) else NatToString(v)
  }

  /** `parseInt` reads a two-digit, zero-padded number back. */
  lemma ParseIntZeroPad(n: nat)
    ensures ParseInt(ZeroPad(n)) == Some(n)
  {
    if n < 10 {
      assert ZeroPad(n) == ['0', DigitChar(n)];
      ParseIntDigits(['0', DigitChar(n)]);
      PaddedDigitValue(n);
    } else {
      ParseIntNatToString(n);
    }
  }

  /** A leading zero adds nothing to a digit's value. */
  lemma PaddedDigitValue(d: nat)
    requires d < 10
    ensures DigitsValue(['0', DigitChar(d)]) == d
  {
    var s := ['0', DigitChar(d)];
    assert s[..1] == ['0'];
    assert DigitsValue(['0']) == 0 by {
      assert ['0'][..0] == [];
    }
    assert DigitValue(DigitChar(d)) == d;
  }

  /** A zero-padded number below 100 is exactly two digits long. */
  lemma ZeroPadTwoDigits(n: nat)
    ensures n < 100 ==> |ZeroPad(n)| == 2
  {
    if 10 <= n < 100 {
      assert NatToString(n) == NatToString(n / 10) + [DigitChar(n % 10)];
    }
  }
}
