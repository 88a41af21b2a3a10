/**
 * String operations the pipeline uses, with the meaning Python gives them
 * (str.strip, str.upper, str.lower, str.title, str.replace, str.split,
 * str.join, str.isdigit, int(), str(int), f'{n:0Wd}' and string ordering).
 * Whitespace and digits are the ASCII ones; case mapping covers ASCII and
 * the Latin-1 letters, which is what the SINAN labels use.
 */
module Text {

  // ---------------------------------------------------------------------
  // Characters

  /** The ASCII whitespace Python's str.isspace accepts: space, tab, newline, carriage return, \v and \f. */
  predicate IsSpace(c: char) {
    c == ' ' || c == '\t' || c == '\n' || c == '\r' || c == '\U{B}' || c == '\U{C}'
  }

  /** The ASCII digits 0 to 9. */
  predicate IsDigit(c: char) {
    '0' <= c <= '9'
  }

  predicate IsLowerLetter(c: char) {
    ('a' <= c <= 'z') || ('\U{DF}' <= c <= '\U{FF}' && c != '\U{F7}')
  }

  predicate IsUpperLetter(c: char) {
    ('A' <= c <= 'Z') || ('\U{C0}' <= c <= '\U{DE}' && c != '\U{D7}')
  }

  /** A cased character in the sense of str.title: a letter. */
  predicate IsCased(c: char) {
    IsLowerLetter(c) || IsUpperLetter(c)
  }

  function UpperChar(c: char): (r: char)
    ensures IsLowerLetter(c) && c != '\U{DF}' && c != '\U{FF}' ==> IsUpperLetter(r)
    ensures !IsLowerLetter(c) ==> r == c
  {
    if 'a' <= c <= 'z' || ('\U{E0}' <= c <= '\U{FE}' && c != '\U{F7}') then (c as int - 32) as char
    else c
  }

  function LowerChar(c: char): (r: char)
    ensures IsUpperLetter(c) ==> IsLowerLetter(r)
    ensures !IsUpperLetter(c) ==> r == c
  {
    if IsUpperLetter(c) then (c as int + 32) as char else c
  }

  function DigitChar(d: nat): (c: char)
    requires d < 10
    ensures IsDigit(c)
  {
    ('0' as int + d) as char
  }

  function DigitOf(c: char): (d: nat)
    requires IsDigit(c)
    ensures d < 10 && DigitChar(d) == c
  {
    c as int - '0' as int
  }

  // ---------------------------------------------------------------------
  // str.strip

  /** The number of leading whitespace characters. */
  function Leading(s: string): (n: nat)
    ensures n <= |s|
    ensures forall k :: 0 <= k < n ==> IsSpace(s[k])
    ensures n < |s| ==> !IsSpace(s[n])
  {
    if |s| > 0 && IsSpace(s[0]) then 1 + Leading(s[1..]) else 0
  }

  /** The number of trailing whitespace characters. */
  function Trailing(s: string): (n: nat)
    ensures n <= |s|
    ensures forall k :: |s| - n <= k < |s| ==> IsSpace(s[k])
    ensures n < |s| ==> !IsSpace(s[|s| - n - 1])
  {
    if |s| > 0 && IsSpace(s[|s| - 1]) then 1 + Trailing(s[..|s| - 1]) else 0
  }

  /** Python's str.lstrip(). */
  function LStrip(s: string): (r: string)
    ensures r == s[Leading(s)..]
  {
    s[Leading(s)..]
  }

  /** Python's str.strip(): drop leading and trailing whitespace. */
  function Strip(s: string): (r: string)
    ensures r != [] ==> !IsSpace(r[0]) && !IsSpace(r[|r| - 1])
    ensures Leading(s) + |r| <= |s| && r == s[Leading(s)..Leading(s) + |r|]
    ensures forall k :: 0 <= k < Leading(s) ==> IsSpace(s[k])
    ensures forall k :: Leading(s) + |r| <= k < |s| ==> IsSpace(s[k])
  {
    var i := Leading(s);
    var t := s[i..];
    var n := Trailing(t);
    TrimmedEnds(s, i, n);
    TrimmedTail(s, i, n);
    t[..|t| - n]
  }

  /** Between a non-space at i and a non-space n places from the end, the trimmed part begins and ends with a non-space. */
  lemma TrimmedEnds(s: string, i: nat, n: nat)
    requires i <= |s| && n <= |s| - i
    requires i < |s| ==> !IsSpace(s[i])
    requires n < |s| - i ==> !IsSpace(s[i..][|s| - i - n - 1])
    ensures var r := s[i..][..|s| - i - n];
      r != [] ==> !IsSpace(r[0]) && !IsSpace(r[|r| - 1])
  {
    var t := s[i..];
    var r := t[..|t| - n];
    if r != [] {
      assert r[0] == s[i];
      assert r[|r| - 1] == t[|t| - n - 1];
    }
  }

  /** The last n places of a suffix of s are the last n places of s. */
  lemma TrimmedTail(s: string, i: nat, n: nat)
    requires i <= |s| && n <= |s| - i
    requires forall k :: |s| - i - n <= k < |s| - i ==> IsSpace(s[i..][k])
    ensures s[i..][..|s| - i - n] == s[i..|s| - n]
    ensures forall k :: |s| - n <= k < |s| ==> IsSpace(s[k])
  {
    forall k | |s| - n <= k < |s|
      ensures IsSpace(s[k])
    {
      assert s[k] == s[i..][k - i];
    }
  }

  predicate IsStripped(s: string) {
    s != [] ==> !IsSpace(s[0]) && !IsSpace(s[|s| - 1])
  }

  lemma StripOfStripped(s: string)
    requires IsStripped(s)
    ensures Strip(s) == s
  {
    assert Leading(s) == 0;
    assert Trailing(s) == 0;
  }

  lemma StripIdempotent(s: string)
    ensures Strip(Strip(s)) == Strip(s)
  {
    StripOfStripped(Strip(s));
  }

  /** Leading spaces do not survive strip. */
  lemma StripLeadingSpace(s: string)
    ensures Strip(" " + s) == Strip(s)
  {
    assert (" " + s)[1..] == s;
  }

  // ---------------------------------------------------------------------
  // Case mapping

  /** Python's str.upper() (ASCII and Latin-1 letters). */
  function Upper(s: string): (r: string)
    ensures |r| == |s| && forall i :: 0 <= i < |s| ==> r[i] == UpperChar(s[i])
  {
    if s == [] then [] else [UpperChar(s[0])] + Upper(s[1..])
  }

  /** Upper-casing character by character. */
  lemma UpperIs(s: string, t: string)
    requires |s| == |t| && forall i :: 0 <= i < |s| ==> UpperChar(s[i]) == t[i]
    ensures Upper(s) == t
  {
  }

  /** Upper-casing neither creates nor removes whitespace. */
  lemma UpperOfStripped(s: string)
    requires IsStripped(s)
    ensures IsStripped(Upper(s))
  {
  }

  /** Python's str.lower() (ASCII and Latin-1 letters). */
  function Lower(s: string): (r: string)
    ensures |r| == |s| && forall i :: 0 <= i < |s| ==> r[i] == LowerChar(s[i])
  {
    if s == [] then [] else [LowerChar(s[0])] + Lower(s[1..])
  }

  function TitleFrom(s: string, afterCased: bool): (r: string)
    ensures |r| == |s|
  {
    if s == [] then []
    else [if afterCased then LowerChar(s[0]) else UpperChar(s[0])] + TitleFrom(s[1..], IsCased(s[0]))
  }

  /**
   * Python's str.title(): a letter that follows a letter is lower-cased,
   * any other letter is upper-cased.
   */
  function Title(s: string): (r: string)
    ensures |r| == |s|
    ensures s != [] ==> r[0] == UpperChar(s[0])
  {
    TitleFrom(s, false)
  }

  // ---------------------------------------------------------------------
  // Prefixes, substrings, replacement

  predicate StartsWith(s: string, p: string) {
    p <= s
  }

  /** Python's `p in s` for strings. */
  predicate Contains(s: string, p: string)
    decreases |s|
  {
    p <= s || (s != [] && Contains(s[1..], p))
  }

  lemma ContainsAt(s: string, p: string, i: nat)
    requires i + |p| <= |s| && s[i..i + |p|] == p
    ensures Contains(s, p)
    decreases i
  {
    if i == 0 {
      assert s[..|p|] == p;
    } else {
      assert s[1..][i - 1..i - 1 + |p|] == s[i..i + |p|];
      ContainsAt(s[1..], p, i - 1);
    }
  }

  /** Python's s.replace(pat, rep): every non-overlapping occurrence, left to right. */
  function Replace(s: string, pat: string, rep: string): string
    requires pat != []
    decreases |s|
  {
    if |s| < |pat| then s
    else if pat <= s then rep + Replace(s[|pat|..], pat, rep)
    else [s[0]] + Replace(s[1..], pat, rep)
  }

  lemma ReplaceAbsent(s: string, pat: string, rep: string)
    requires pat != [] && !Contains(s, pat)
    ensures Replace(s, pat, rep) == s
    decreases |s|
  {
    if |s| >= |pat| {
      ReplaceAbsent(s[1..], pat, rep);
    }
  }

  /** Python's s.replace(pat, rep, 1): the first occurrence only. */
  function ReplaceFirst(s: string, pat: string, rep: string): string
    requires pat != []
    decreases |s|
  {
    if |s| < |pat| then s
    else if pat <= s then rep + s[|pat|..]
    else [s[0]] + ReplaceFirst(s[1..], pat, rep)
  }

  // ---------------------------------------------------------------------
  // Joining and splitting

  /** Python's sep.join(xs). */
  function Join(sep: string, xs: seq<string>): string {
    if |xs| == 0 then ""
    else if |xs| == 1 then xs[0]
    else xs[0] + sep + Join(sep, xs[1..])
  }

  lemma JoinNonEmpty(sep: string, xs: seq<string>)
    requires xs != [] && xs[0] != ""
    ensures Join(sep, xs) != ""
  {
  }

  lemma JoinHead(sep: string, xs: seq<string>)
    requires xs != [] && xs[0] != ""
    ensures Join(sep, xs) != "" && Join(sep, xs)[0] == xs[0][0]
  {
  }

  lemma JoinSingleton(sep: string, x: string)
    ensures Join(sep, [x]) == x
  {
  }

  function TokenLength(s: string): (k: nat)
    ensures k <= |s|
    ensures forall i :: 0 <= i < k ==> !IsSpace(s[i])
    ensures k < |s| ==> IsSpace(s[k])
  {
    if s == [] || IsSpace(s[0]) then 0 else 1 + TokenLength(s[1..])
  }

  /** Python's s.split() with no separator: the maximal runs of non-whitespace. */
  function SplitWhitespace(s: string): (tokens: seq<string>)
    ensures forall t :: t in tokens ==> t != [] && forall i :: 0 <= i < |t| ==> !IsSpace(t[i])
    decreases |s|
  {
    var t := LStrip(s);
    if t == [] then []
    else
      var k := TokenLength(t);
      [t[..k]] + SplitWhitespace(t[k..])
  }

  /** Python's s.split(c) for a one-character separator: never an empty list. */
  function SplitOn(s: string, c: char): (parts: seq<string>)
    ensures |parts| >= 1
  {
    if s == [] then [""]
    else if s[0] == c then [""] + SplitOn(s[1..], c)
    else
      var rest := SplitOn(s[1..], c);
      [[s[0]] + rest[0]] + rest[1..]
  }

  lemma SplitOnAbsent(s: string, c: char)
    requires c !in s
    ensures SplitOn(s, c) == [s]
  {
    if s != [] {
      assert s[0] != c && c !in s[1..];
      SplitOnAbsent(s[1..], c);
      assert s == [s[0]] + s[1..];
    }
  }

  lemma SplitOnAppend(a: string, c: char, b: string)
    requires c !in a
    ensures SplitOn(a + [c] + b, c) == [a] + SplitOn(b, c)
  {
    if a == [] {
      assert a + [c] + b == [c] + b;
    } else {
      assert (a + [c] + b)[0] == a[0] != c;
      assert (a + [c] + b)[1..] == a[1..] + [c] + b;
      SplitOnAppend(a[1..], c, b);
      assert a == [a[0]] + a[1..];
    }
  }

  function StripAll(xs: seq<string>): (r: seq<string>)
    ensures |r| == |xs| && forall i :: 0 <= i < |xs| ==> r[i] == Strip(xs[i])
  {
    if xs == [] then [] else [Strip(xs[0])] + StripAll(xs[1..])
  }

  /**
   * Splitting a ", "-joined list on ',' and stripping each piece gives the
   * list back, as long as no item holds a comma or surrounding whitespace.
   */
  lemma {:induction false} SplitJoinRoundTrip(xs: seq<string>)
    requires xs != []
    requires forall x :: x in xs ==> ',' !in x && IsStripped(x)
    ensures StripAll(SplitOn(Join(", ", xs), ',')) == xs
  {
    StripOfStripped(xs[0]);
    if |xs| == 1 {
      SplitOnAbsent(xs[0], ',');
    } else {
      var tail := Join(", ", xs[1..]);
      var rest := SplitOn(tail, ',');
      SplitJoinStep(xs[0], tail);
      SplitJoinRoundTrip(xs[1..]);
      StripJoinStep(xs[0], rest);
      assert xs == [xs[0]] + xs[1..];
    }
  }

  lemma SplitJoinStep(x: string, tail: string)
    requires ',' !in x
    ensures SplitOn(x + ", " + tail, ',') == [x] + ([" " + SplitOn(tail, ',')[0]] + SplitOn(tail, ',')[1..])
  {
    assert x + ", " + tail == x + [','] + (" " + tail);
    SplitOnAppend(x, ',', " " + tail);
    assert (" " + tail)[0] == ' ' && (" " + tail)[1..] == tail;
  }

  lemma StripJoinStep(x: string, rest: seq<string>)
    requires rest != []
    ensures StripAll([x] + ([" " + rest[0]] + rest[1..])) == [Strip(x)] + StripAll(rest)
  {
    StripLeadingSpace(rest[0]);
    StripAllCons(" " + rest[0], rest[1..]);
    StripAllCons(rest[0], rest[1..]);
    assert rest == [rest[0]] + rest[1..];
    StripAllCons(x, [" " + rest[0]] + rest[1..]);
  }

  lemma StripAllCons(x: string, ys: seq<string>)
    ensures StripAll([x] + ys) == [Strip(x)] + StripAll(ys)
  {
    assert ([x] + ys)[1..] == ys;
  }

  // ---------------------------------------------------------------------
  // Digits and numbers

  /** Python's str.isdigit() on ASCII: non-empty and all digits. */
  predicate IsDigits(s: string) {
    |s| > 0 && forall i :: 0 <= i < |s| ==> IsDigit(s[i])
  }

  /** Python's int(s) for a digit string (leading zeros allowed). */
  function DigitsValue(s: string): nat
    requires forall i :: 0 <= i < |s| ==> IsDigit(s[i])
  {
    if s == [] then 0 else DigitsValue(s[..|s| - 1]) * 10 + DigitOf(s[|s| - 1])
  }

  /** Python's str(n) for a natural number. */
  function NatToDecimal(n: nat): (s: string)
    ensures IsDigits(s)
  {
    if n < 10 then [DigitChar(n)] else NatToDecimal(n / 10) + [DigitChar(n % 10)]
  }

  /** Python's str(i) for an integer. */
  function IntToDecimal(i: int): string {
    if i < 0 then "-" + NatToDecimal(-i) else NatToDecimal(i)
  }

  lemma {:induction false} NatToDecimalValue(n: nat)
    ensures DigitsValue(NatToDecimal(n)) == n
  {
    if n >= 10 {
      var s := NatToDecimal(n);
      assert s[..|s| - 1] == NatToDecimal(n / 10);
      NatToDecimalValue(n / 10);
    }
  }

  lemma {:induction false} NatToDecimalInjective(m: nat, n: nat)
    requires NatToDecimal(m) == NatToDecimal(n)
    ensures m == n
  {
    NatToDecimalValue(m);
    NatToDecimalValue(n);
  }

  /** f'{n:0Wd}': the decimal form of n left-padded with zeros to width w. */
  function ZeroPad(n: nat, w: nat): (s: string)
    ensures IsDigits(s) && |s| >= w
  {
    var d := NatToDecimal(n);
    if |d| >= w then d else seq(w - |d|, _ => '0') + d
  }

  lemma ZerosValue(k: nat, d: string)
    requires forall i :: 0 <= i < |d| ==> IsDigit(d[i])
    ensures DigitsValue(seq(k, _ => '0') + d) == DigitsValue(d)
    decreases |d|
  {
    var z: string := seq(k, _ => '0');
    if d == [] {
      assert z + d == z;
      ZerosOnly(k);
    } else {
      assert (z + d)[..|z + d| - 1] == z + d[..|d| - 1];
      ZerosValue(k, d[..|d| - 1]);
    }
  }

  lemma ZerosOnly(k: nat)
    ensures DigitsValue(seq(k, _ => '0')) == 0
  {
    if k > 0 {
      var z: string := seq(k, _ => '0');
      assert z[..k - 1] == seq(k - 1, _ => '0');
      ZerosOnly(k - 1);
    }
  }

  /** Zero padding keeps the value: int(f'{n:0Wd}') == n. */
  lemma ZeroPadValue(n: nat, w: nat)
    ensures DigitsValue(ZeroPad(n, w)) == n
  {
    NatToDecimalValue(n);
    var d := NatToDecimal(n);
    if |d| < w {
      ZerosValue(w - |d|, d);
    }
  }

  // ---------------------------------------------------------------------
  // Ordering of strings (Python compares code point by code point)

  predicate LexLess(a: string, b: string) {
    if a == [] then b != []
    else if b == [] then false
    else if a[0] != b[0] then a[0] < b[0]
    else LexLess(a[1..], b[1..])
  }

  lemma LexLessIrreflexive(a: string)
    ensures !LexLess(a, a)
  {
  }

  lemma {:induction false} LexLessTransitive(a: string, b: string, c: string)
    requires LexLess(a, b) && LexLess(b, c)
    ensures LexLess(a, c)
  {
    if a != [] && b != [] && c != [] && a[0] == b[0] && b[0] == c[0] {
      LexLessTransitive(a[1..], b[1..], c[1..]);
    }
  }

  lemma {:induction false} LexLessTotal(a: string, b: string)
    requires a != b
    ensures LexLess(a, b) || LexLess(b, a)
  {
    if a != [] && b != [] && a[0] == b[0] {
      assert a == [a[0]] + a[1..] && b == [b[0]] + b[1..];
      LexLessTotal(a[1..], b[1..]);
    }
  }

  lemma {:induction false} LexLessAsymmetric(a: string, b: string)
    requires LexLess(a, b)
    ensures !LexLess(b, a)
  {
    if a != [] && b != [] && a[0] == b[0] {
      LexLessAsymmetric(a[1..], b[1..]);
    }
  }

  /** Comparing two strings with a common prefix is comparing what follows it. */
  lemma {:induction false} LexLessCommonPrefix(p: string, a: string, b: string)
    ensures LexLess(p + a, p + b) == LexLess(a, b)
  {
    if p != [] {
      assert (p + a)[1..] == p[1..] + a;
      assert (p + b)[1..] == p[1..] + b;
      LexLessCommonPrefix(p[1..], a, b);
    } else {
      assert p + a == a && p + b == b;
    }
  }

  /** For digit strings of the same length, string order is numeric order. */
  lemma {:induction false} LexLessDigits(a: string, b: string)
    requires |a| == |b|
    requires forall i :: 0 <= i < |a| ==> IsDigit(a[i])
    requires forall i :: 0 <= i < |b| ==> IsDigit(b[i])
    requires DigitsValue(a) < DigitsValue(b)
    ensures LexLess(a, b)
    decreases |a|
  {
    var n := |a|;
    var a', b' := a[..n - 1], b[..n - 1];
    DigitsValueBound(a');
    DigitsValueBound(b');
    if a' == b' {
      assert DigitOf(a[n - 1]) < DigitOf(b[n - 1]);
      LexLessLast(a', a[n - 1], b[n - 1]);
      assert a == a' + [a[n - 1]] && b == a' + [b[n - 1]];
    } else {
      if DigitsValue(a') == DigitsValue(b') {
        DigitsValueInjective(a', b');
        assert false;
      }
      LexLessDigits(a', b');
      LexLessExtend(a', b', [a[n - 1]], [b[n - 1]]);
      assert a == a' + [a[n - 1]] && b == b' + [b[n - 1]];
    }
  }

  lemma DigitsValueBound(s: string)
    requires forall i :: 0 <= i < |s| ==> IsDigit(s[i])
    ensures DigitsValue(s) >= 0
  {
  }

  lemma {:induction false} DigitsValueInjective(a: string, b: string)
    requires |a| == |b|
    requires forall i :: 0 <= i < |a| ==> IsDigit(a[i])
    requires forall i :: 0 <= i < |b| ==> IsDigit(b[i])
    requires DigitsValue(a) == DigitsValue(b)
    ensures a == b
    decreases |a|
  {
    if a != [] {
      var n := |a|;
      var x, y := DigitOf(a[n - 1]), DigitOf(b[n - 1]);
      assert DigitsValue(a) == DigitsValue(a[..n - 1]) * 10 + x;
      assert DigitsValue(b) == DigitsValue(b[..n - 1]) * 10 + y;
      LastDigitStep(DigitsValue(a[..n - 1]), DigitsValue(b[..n - 1]), x, y);
      DigitsValueInjective(a[..n - 1], b[..n - 1]);
      assert a == a[..n - 1] + [a[n - 1]] && b == b[..n - 1] + [b[n - 1]];
    }
  }

  /** A decimal number determines its last digit and the digits before it. */
  lemma LastDigitStep(p: int, q: int, x: int, y: int)
    requires 0 <= x < 10 && 0 <= y < 10 && p * 10 + x == q * 10 + y
    ensures x == y && p == q
  {
  }

  lemma LexLessLast(p: string, x: char, y: char)
    requires x < y
    ensures LexLess(p + [x], p + [y])
  {
    LexLessCommonPrefix(p, [x], [y]);
  }

  lemma {:induction false} LexLessExtend(a: string, b: string, x: string, y: string)
    requires |a| == |b| && LexLess(a, b)
    ensures LexLess(a + x, b + y)
  {
    if a != [] && a[0] == b[0] {
      assert (a + x)[1..] == a[1..] + x;
      assert (b + y)[1..] == b[1..] + y;
      LexLessExtend(a[1..], b[1..], x, y);
    }
  }
}
