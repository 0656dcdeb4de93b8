/** The Python `str` operations the bots rely on, stated over `seq<char>`.
    Case mapping covers ASCII letters only; whitespace is CPython's `str.isspace` set. */
module Text {
  import opened Wrappers

  function Min(a: nat, b: nat): nat {
    if a <= b then a else b
  }

  /** A non-empty sequence is its front and its last element. */
  lemma LastSplit<T>(s: seq<T>)
    requires |s| > 0
    ensures s == s[..|s| - 1] + [s[|s| - 1]]
  {
  }

  lemma Concat3<T>(x: seq<T>, y: seq<T>, z: seq<T>)
    ensures (x + y) + z == x + (y + z)
  {
  }

  lemma SplitAt<T>(s: seq<T>, n: nat)
    requires n <= |s|
    ensures s == s[..n] + s[n..]
  {
  }

  lemma Concat5<T>(a: seq<T>, b: seq<T>, c: seq<T>, d: seq<T>, e: seq<T>)
    ensures a + b + c + d + e == a + (b + (c + (d + e)))
  {
    Concat3(a + b + c, d, e);
    Concat3(a + b, c, d + e);
    Concat3(a, b, c + (d + e));
  }

  /** CPython's whitespace set: `str.isspace`, `str.strip` and `\s` in `re` on `str` all use it. */
  predicate IsSpace(c: char) {
    ('\t' <= c <= '\r') || ('\U{1C}' <= c <= '\U{1F}') || c == ' ' || c == '\U{85}' || c == '\U{A0}'
    || c == '\U{1680}' || ('\U{2000}' <= c <= '\U{200A}') || c == '\U{2028}' || c == '\U{2029}'
    || c == '\U{202F}' || c == '\U{205F}' || c == '\U{3000}'
  }

  predicate AllSpace(s: string) {
    forall i :: 0 <= i < |s| ==> IsSpace(s[i])
  }

  predicate IsDigit(c: char) {
    '0' <= c <= '9'
  }

  predicate AllDigits(s: string) {
    forall i :: 0 <= i < |s| ==> IsDigit(s[i])
  }

  /** No two strings alike. */
  predicate Distinct(xs: seq<string>) {
    forall a, b :: 0 <= a < b < |xs| ==> xs[a] != xs[b]
  }

  // ---------------------------------------------------------------------------
  // Prefixes and substrings (`str.startswith`, the `in` operator on strings)

  predicate StartsWith(s: string, prefix: string) {
    |prefix| <= |s| && s[..|prefix|] == prefix
  }

  predicate EndsWith(s: string, suffix: string) {
    |suffix| <= |s| && s[|s| - |suffix|..] == suffix
  }

  predicate OccursAt(s: string, pat: string, i: int) {
    0 <= i && i + |pat| <= |s| && s[i..i + |pat|] == pat
  }

  /** Python's `pat in s`. */
  predicate Contains(s: string, pat: string) {
    exists i :: 0 <= i <= |s| - |pat| && OccursAt(s, pat, i)
  }

  /** `pat in s` read as a scan from the left: `pat` is at the start, or further on. */
  predicate ContainsFromLeft(s: string, pat: string)
    decreases |s|
  {
    OccursAt(s, pat, 0) || (|s| > 0 && ContainsFromLeft(s[1..], pat))
  }

  /** The scan and the search for a position agree. */
  lemma {:induction false} ContainsFromLeftIsContains(s: string, pat: string)
    ensures ContainsFromLeft(s, pat) <==> Contains(s, pat)
    decreases |s|
  {
    if OccursAt(s, pat, 0) {
      assert 0 <= 0 <= |s| - |pat|;
    } else if |s| > 0 {
      ContainsFromLeftIsContains(s[1..], pat);
      ContainsShift(s, pat);
    }
  }

  /** Away from position 0, `s` contains `pat` exactly when its tail does. */
  lemma ContainsShift(s: string, pat: string)
    requires |s| > 0 && !OccursAt(s, pat, 0)
    ensures Contains(s, pat) <==> Contains(s[1..], pat)
  {
    var t := s[1..];
    if Contains(t, pat) {
      var i :| 0 <= i <= |t| - |pat| && OccursAt(t, pat, i);
      OccursShifted(s, pat, i + 1);
      assert OccursAt(s, pat, i + 1);
    }
    if Contains(s, pat) {
      var i :| 0 <= i <= |s| - |pat| && OccursAt(s, pat, i);
      assert i != 0;
      OccursShifted(s, pat, i);
      assert OccursAt(t, pat, i - 1);
    }
  }

  /** An occurrence at `i > 0` in `s` is one at `i - 1` in its tail. */
  lemma OccursShifted(s: string, pat: string, i: int)
    requires 0 < i && i + |pat| <= |s|
    ensures OccursAt(s, pat, i) <==> OccursAt(s[1..], pat, i - 1)
  {
    assert s[1..][i - 1..i - 1 + |pat|] == s[i..i + |pat|];
  }

  lemma ContainsInfix(a: string, pat: string, b: string)
    ensures Contains(a + pat + b, pat)
  {
    assert (a + pat + b)[|a|..|a| + |pat|] == pat;
    assert OccursAt(a + pat + b, pat, |a|);
  }

  /** A string that contains `pat` still contains it inside a longer string. */
  lemma ContainsWidened(s: string, pat: string, a: string, b: string)
    requires Contains(s, pat)
    ensures Contains(a + s + b, pat)
  {
    var i :| 0 <= i <= |s| - |pat| && OccursAt(s, pat, i);
    assert (a + s + b)[|a| + i..|a| + i + |pat|] == s[i..i + |pat|];
    assert OccursAt(a + s + b, pat, |a| + i);
  }

  // ---------------------------------------------------------------------------
  // ASCII case mapping (`str.upper`, `str.lower` on ASCII text)

  function UpperChar(c: char): char {
    if 'a' <= c <= 'z' then (c as int - 32) as char else c
  }

  function LowerChar(c: char): char {
    if 'A' <= c <= 'Z' then (c as int + 32) as char else c
  }

  function Upper(s: string): (r: string)
    ensures |r| == |s|
    ensures forall i :: 0 <= i < |s| ==> r[i] == UpperChar(s[i])
    ensures forall i :: 0 <= i < |r| ==> !('a' <= r[i] <= 'z')
  {
    seq(|s|, i requires 0 <= i < |s| => UpperChar(s[i]))
  }

  function Lower(s: string): (r: string)
    ensures |r| == |s|
    ensures forall i :: 0 <= i < |s| ==> r[i] == LowerChar(s[i])
    ensures forall i :: 0 <= i < |r| ==> !('A' <= r[i] <= 'Z')
  {
    seq(|s|, i requires 0 <= i < |s| => LowerChar(s[i]))
  }

  // ---------------------------------------------------------------------------
  // `str.replace(pat, rep)`: left-to-right, non-overlapping

  function Replace(s: string, pat: string, rep: string): (r: string)
    requires |pat| > 0
    ensures !Contains(s, pat) ==> r == s
    decreases |s|
  {
    if |s| < |pat| then s
    else if s[..|pat|] == pat then
      assert OccursAt(s, pat, 0);
      rep + Replace(s[|pat|..], pat, rep)
    else
      var rest := Replace(s[1..], pat, rep);
      assert !Contains(s, pat) ==> !Contains(s[1..], pat) by {
        if Contains(s[1..], pat) {
          var i :| 0 <= i <= |s[1..]| - |pat| && OccursAt(s[1..], pat, i);
          assert s[i + 1..i + 1 + |pat|] == s[1..][i..i + |pat|];
          assert OccursAt(s, pat, i + 1);
        }
      }
      [s[0]] + rest
  }

  /** Replacing one character by another leaves every other character where it was. */
  lemma {:induction false} ReplaceChar(s: string, c: char, d: char)
    ensures |Replace(s, [c], [d])| == |s|
    ensures forall i :: 0 <= i < |s| ==> Replace(s, [c], [d])[i] == (if s[i] == c then d else s[i])
    decreases |s|
  {
    if |s| > 0 {
      ReplaceChar(s[1..], c, d);
      var rest := Replace(s[1..], [c], [d]);
      if s[..1] == [c] {
        assert Replace(s, [c], [d]) == [d] + rest;
      } else {
        assert Replace(s, [c], [d]) == [s[0]] + rest;
      }
    }
  }

  // ---------------------------------------------------------------------------
  // `str.strip()`, `str.lstrip()`, `str.rstrip()` with no arguments

  function LStrip(s: string): (r: string)
    ensures EndsWith(s, r)
    ensures AllSpace(s[..|s| - |r|])
    ensures |r| == 0 || !IsSpace(r[0])
  {
    if |s| > 0 && IsSpace(s[0]) then
      var t := LStrip(s[1..]);
      assert s[1..][..|s| - 1 - |t|] == s[1..|s| - |t|];
      t
    else s
  }

  function RStrip(s: string): (r: string)
    ensures StartsWith(s, r)
    ensures AllSpace(s[|r|..])
    ensures |r| == 0 || !IsSpace(r[|r| - 1])
  {
    if |s| > 0 && IsSpace(s[|s| - 1]) then
      var t := RStrip(s[..|s| - 1]);
      assert s[..|s| - 1][|t|..] == s[|t|..|s| - 1];
      assert s[..|s| - 1][..|t|] == s[..|t|];
      assert s[|t|..] == s[|t|..|s| - 1] + [s[|s| - 1]];
      t
    else s
  }

  /** `s.strip()`: the infix of `s` left once the whitespace at both ends is removed. */
  function Strip(s: string): (r: string)
    ensures exists a, b :: 0 <= a <= b <= |s| && r == s[a..b] && AllSpace(s[..a]) && AllSpace(s[b..])
    ensures |r| == 0 || (!IsSpace(r[0]) && !IsSpace(r[|r| - 1]))
  {
    var l := LStrip(s);
    var r := RStrip(l);
    var a := |s| - |l|;
    assert s[a..a + |r|] == r;
    assert s[a + |r|..] == l[|r|..];
    r
  }

  /** A string of whitespace strips to nothing. */
  lemma {:induction false} StripBlank(s: string)
    requires AllSpace(s)
    ensures Strip(s) == ""
  {
    LStripBlank(s);
  }

  lemma {:induction false} LStripBlank(s: string)
    requires AllSpace(s)
    ensures LStrip(s) == ""
    decreases |s|
  {
    if |s| > 0 {
      assert IsSpace(s[0]);
      LStripBlank(s[1..]);
    }
  }

  /** A string with no whitespace at its ends is its own strip. */
  lemma StripNoEdgeSpace(s: string)
    requires |s| == 0 || (!IsSpace(s[0]) && !IsSpace(s[|s| - 1]))
    ensures Strip(s) == s
  {
  }

  // ---------------------------------------------------------------------------
  // `str.split(c)` with a one-character separator, and `sep.join(xs)`

  function Split(s: string, c: char): (r: seq<string>)
    ensures |r| >= 1
    ensures forall k :: 0 <= k < |r| ==> c !in r[k]
  {
    if |s| == 0 then [""]
    else
      var rest := Split(s[1..], c);
      if s[0] == c then [""] + rest
      else [[s[0]] + rest[0]] + rest[1..]
  }

  function Join(xs: seq<string>, sep: string): string {
    if |xs| == 0 then ""
    else if |xs| == 1 then xs[0]
    else xs[0] + sep + Join(xs[1..], sep)
  }

  /** Joining the fields of a split with the separator restores the string. */
  lemma {:induction false} JoinSplit(s: string, c: char)
    ensures Join(Split(s, c), [c]) == s
  {
    if |s| > 0 {
      var rest := Split(s[1..], c);
      JoinSplit(s[1..], c);
      if s[0] == c {
        assert s == [c] + s[1..];
      } else if |rest| == 1 {
        assert s == [s[0]] + s[1..];
      } else {
        assert Join(rest, [c]) == rest[0] + [c] + Join(rest[1..], [c]);
        assert s == [s[0]] + s[1..];
      }
    }
  }

  lemma {:induction false} SplitNoSeparator(s: string, c: char)
    requires c !in s
    ensures Split(s, c) == [s]
  {
    if |s| > 0 {
      SplitNoSeparator(s[1..], c);
      assert s == [s[0]] + s[1..];
    }
  }

  lemma {:induction false} SplitAtFirst(a: string, b: string, c: char)
    requires c !in a
    ensures Split(a + [c] + b, c) == [a] + Split(b, c)
  {
    if |a| > 0 {
      assert (a + [c] + b)[1..] == a[1..] + [c] + b;
      SplitAtFirst(a[1..], b, c);
      assert a == [a[0]] + a[1..];
    } else {
      assert a + [c] + b == [c] + b;
    }
  }

  /** Splitting a join restores the fields when no field holds the separator. */
  lemma {:induction false} SplitJoin(xs: seq<string>, c: char)
    requires |xs| >= 1
    requires forall k :: 0 <= k < |xs| ==> c !in xs[k]
    ensures Split(Join(xs, [c]), c) == xs
  {
    if |xs| == 1 {
      SplitNoSeparator(xs[0], c);
    } else {
      SplitJoin(xs[1..], c);
      SplitAtFirst(xs[0], Join(xs[1..], [c]), c);
      assert xs == [xs[0]] + xs[1..];
    }
  }

  /** `str.split(sep)` with a separator of several characters, scanning left to right. */
  function SplitOn(s: string, sep: string): (r: seq<string>)
    requires |sep| > 0
    ensures |r| >= 1
    decreases |s|
  {
    if |s| < |sep| then [s]
    else if s[..|sep|] == sep then [""] + SplitOn(s[|sep|..], sep)
    else
      var rest := SplitOn(s[1..], sep);
      [[s[0]] + rest[0]] + rest[1..]
  }

  /** Joining the pieces of a split with the separator restores the string. */
  lemma {:induction false} JoinSplitOn(s: string, sep: string)
    requires |sep| > 0
    ensures Join(SplitOn(s, sep), sep) == s
    decreases |s|
  {
    if |s| >= |sep| {
      if s[..|sep|] == sep {
        JoinSplitOn(s[|sep|..], sep);
        JoinSplitOnAtSep(s, sep);
      } else {
        JoinSplitOn(s[1..], sep);
        JoinSplitOnPastChar(s, sep);
      }
    }
  }

  /** The step of `JoinSplitOn` where the text starts with the separator. */
  lemma JoinSplitOnAtSep(s: string, sep: string)
    requires 0 < |sep| <= |s| && s[..|sep|] == sep
    requires Join(SplitOn(s[|sep|..], sep), sep) == s[|sep|..]
    ensures Join(SplitOn(s, sep), sep) == s
  {
    var rest := SplitOn(s[|sep|..], sep);
    assert SplitOn(s, sep) == [""] + rest;
    JoinCons("", rest, sep);
    assert "" + sep == sep;
    SplitAt(s, |sep|);
  }

  /** The step of `JoinSplitOn` where the text does not start with the separator. */
  lemma JoinSplitOnPastChar(s: string, sep: string)
    requires 0 < |sep| <= |s| && s[..|sep|] != sep
    requires Join(SplitOn(s[1..], sep), sep) == s[1..]
    ensures Join(SplitOn(s, sep), sep) == s
  {
    var rest := SplitOn(s[1..], sep);
    assert SplitOn(s, sep) == [[s[0]] + rest[0]] + rest[1..];
    JoinWidenFirst(s[0], rest, sep);
    assert s == [s[0]] + s[1..];
  }

  /** Joining one more item in front adds it and a separator. */
  lemma JoinCons(x: string, xs: seq<string>, sep: string)
    requires |xs| >= 1
    ensures Join([x] + xs, sep) == x + sep + Join(xs, sep)
  {
    assert ([x] + xs)[1..] == xs;
  }

  /** Widening the first item by a character in front widens the join by it. */
  lemma JoinWidenFirst(c: char, xs: seq<string>, sep: string)
    requires |xs| >= 1
    ensures Join([[c] + xs[0]] + xs[1..], sep) == [c] + Join(xs, sep)
  {
    var ys := [[c] + xs[0]] + xs[1..];
    if |xs| > 1 {
      assert ys[1..] == xs[1..];
      assert Join(ys, sep) == ([c] + xs[0]) + sep + Join(xs[1..], sep);
      assert Join(xs, sep) == xs[0] + sep + Join(xs[1..], sep);
    }
  }

  /** Every joined item is a substring of the joined text. */
  lemma {:induction false} JoinContainsEach(xs: seq<string>, sep: string, k: nat)
    requires k < |xs|
    ensures Contains(Join(xs, sep), xs[k])
  {
    if |xs| == 1 {
      ContainsInfix("", xs[0], "");
      assert "" + xs[0] + "" == xs[0];
    } else if k == 0 {
      ContainsInfix("", xs[0], sep + Join(xs[1..], sep));
      assert "" + xs[0] + (sep + Join(xs[1..], sep)) == Join(xs, sep);
    } else {
      JoinContainsEach(xs[1..], sep, k - 1);
      ContainsWidened(Join(xs[1..], sep), xs[k], xs[0] + sep, "");
      assert xs[0] + sep + Join(xs[1..], sep) + "" == Join(xs, sep);
    }
  }

  // ---------------------------------------------------------------------------
  // Decimal numbers: `str(n)`, `int(s)`, `s.zfill(w)`

  function DigitChar(d: nat): char
    requires d < 10
  {
    ('0' as int + d) as char
  }

  function DigitValue(c: char): nat
    requires IsDigit(c)
  {
    c as int - '0' as int
  }

  /** `str(n)` for a non-negative integer. */
  function NatToString(n: nat): (r: string)
    ensures |r| >= 1 && AllDigits(r)
    ensures |r| > 1 ==> r[0] != '0'
  {
    if n < 10 then [DigitChar(n)] else NatToString(n / 10) + [DigitChar(n % 10)]
  }

  /** The value of a string of decimal digits, leading zeros allowed. */
  function DigitsValue(s: string): nat
    requires AllDigits(s)
  {
    if |s| == 0 then 0 else DigitsValue(s[..|s| - 1]) * 10 + DigitValue(s[|s| - 1])
  }

  lemma {:induction false} DigitsValueOfNatToString(n: nat)
    ensures DigitsValue(NatToString(n)) == n
  {
    if n >= 10 {
      DigitsValueOfNatToString(n / 10);
      var s := NatToString(n);
      assert s[..|s| - 1] == NatToString(n / 10);
    }
  }

  function Zeros(k: nat): (r: string)
    ensures |r| == k && forall i :: 0 <= i < k ==> r[i] == '0'
  {
    seq(k, i => '0')
  }

  /** Leading zeros do not change the value of a digit string. */
  lemma {:induction false} DigitsValueLeadingZeros(k: nat, s: string)
    requires AllDigits(s)
    ensures AllDigits(Zeros(k) + s) && DigitsValue(Zeros(k) + s) == DigitsValue(s)
  {
    if |s| == 0 {
      ZerosValue(k);
      assert Zeros(k) + s == Zeros(k);
    } else {
      var t := Zeros(k) + s;
      assert t[..|t| - 1] == Zeros(k) + s[..|s| - 1];
      DigitsValueLeadingZeros(k, s[..|s| - 1]);
    }
  }

  lemma {:induction false} ZerosValue(k: nat)
    ensures DigitsValue(Zeros(k)) == 0
  {
    if k > 0 {
      assert Zeros(k)[..k - 1] == Zeros(k - 1);
      ZerosValue(k - 1);
    }
  }

  /** `s.zfill(width)`: zeros go after a leading sign, the rest of `s` is kept. */
  function ZFill(s: string, width: nat): (r: string)
    ensures |r| == if |s| >= width then |s| else width
  {
    if |s| >= width then s
    else if |s| > 0 && (s[0] == '+' || s[0] == '-') then [s[0]] + Zeros(width - |s|) + s[1..]
    else Zeros(width - |s|) + s
  }

  /** `int(s)` for `s` a string: surrounding whitespace, an optional sign and ASCII decimal digits,
      where a single `_` may separate two digits; anything else is Python's `ValueError`, here
      `None`. */
  function ParseInt(s: string): (r: Option<int>)
  {
    ParseSigned(Strip(s))
  }

  /** The digits of a decimal literal as `int` reads them: at least one ASCII digit, and every
      `_` stands between two digits. */
  predicate Underscored(t: string) {
    |t| > 0 && forall i :: 0 <= i < |t| ==> LiteralChar(t, i)
  }

  /** Position `i` of `t` holds a digit, or a `_` with a digit on either side. */
  predicate LiteralChar(t: string, i: nat)
    requires i < |t|
  {
    IsDigit(t[i]) || (t[i] == '_' && 0 < i < |t| - 1 && IsDigit(t[i - 1]) && IsDigit(t[i + 1]))
  }

  /** A literal is made of digits and underscores, and starts and ends with a digit. */
  lemma UnderscoredChars(t: string)
    requires Underscored(t)
    ensures forall i :: 0 <= i < |t| ==> IsDigit(t[i]) || t[i] == '_'
    ensures IsDigit(t[0]) && IsDigit(t[|t| - 1])
  {
    assert LiteralChar(t, 0) && LiteralChar(t, |t| - 1);
    forall i | 0 <= i < |t| ensures IsDigit(t[i]) || t[i] == '_' {
      assert LiteralChar(t, i);
    }
  }

  /** `t` without its underscores. */
  function DropUnderscores(t: string): (r: string)
    ensures (forall i :: 0 <= i < |t| ==> IsDigit(t[i]) || t[i] == '_') ==> AllDigits(r)
  {
    if |t| == 0 then ""
    else
      var init := DropUnderscores(t[..|t| - 1]);
      assert forall i :: 0 <= i < |t| - 1 ==> t[..|t| - 1][i] == t[i];
      if t[|t| - 1] == '_' then init else init + [t[|t| - 1]]
  }

  /** The value of the digits of a decimal literal. */
  function LiteralValue(t: string): nat
    requires Underscored(t)
  {
    UnderscoredChars(t);
    DigitsValue(DropUnderscores(t))
  }

  /** An optional sign followed by the digits of a decimal literal, and nothing else. */
  function ParseSigned(t: string): (r: Option<int>)
  {
    if |t| == 0 then None
    else if t[0] == '+' || t[0] == '-' then
      if Underscored(t[1..]) then
        var v: int := LiteralValue(t[1..]);
        Some(if t[0] == '-' then -v else v)
      else None
    else if Underscored(t) then Some(LiteralValue(t))
    else None
  }

  /** A non-empty string of digits is a literal of its own value. */
  lemma {:induction false} DigitsLiteral(t: string)
    requires |t| > 0 && AllDigits(t)
    ensures Underscored(t) && DropUnderscores(t) == t && LiteralValue(t) == DigitsValue(t)
  {
    assert forall i :: 0 <= i < |t| ==> LiteralChar(t, i);
    NoUnderscoreDropsNothing(t);
  }

  lemma {:induction false} NoUnderscoreDropsNothing(t: string)
    requires AllDigits(t)
    ensures DropUnderscores(t) == t
  {
    if |t| > 0 {
      NoUnderscoreDropsNothing(t[..|t| - 1]);
    }
  }

  /** One `_` between two digit groups is ignored: `int("1_000")` is `int("1000")`. */
  lemma GroupedDigits(a: string, b: string)
    requires |a| > 0 && AllDigits(a) && |b| > 0 && AllDigits(b)
    ensures ParseInt(a + "_" + b) == ParseInt(a + b) == Some(DigitsValue(a + b))
  {
    DigitsJoin(a, b);
    UnderscoredJoin(a, b);
    DropOneUnderscore(a, b);
    LiteralParses(a + "_" + b);
    LiteralParses(a + b);
    DigitsLiteral(a + b);
  }

  /** `int` reads a non-empty string of digits as its value, leading zeros allowed. */
  lemma ParseDigits(s: string)
    requires |s| > 0 && AllDigits(s)
    ensures ParseInt(s) == Some(DigitsValue(s))
  {
    DigitsLiteral(s);
    LiteralParses(s);
  }

  /** `int` reads a literal as its value. */
  lemma LiteralParses(s: string)
    requires Underscored(s)
    ensures ParseInt(s) == Some(LiteralValue(s))
  {
    UnderscoredChars(s);
    DigitNotSpace(s[0]);
    DigitNotSpace(s[|s| - 1]);
    StripNoEdgeSpace(s);
    DigitNotSign(s[0]);
  }

  lemma DigitsJoin(a: string, b: string)
    requires AllDigits(a) && AllDigits(b)
    ensures AllDigits(a + b)
  {
    var ab := a + b;
    forall i | 0 <= i < |ab| ensures IsDigit(ab[i]) {
      if i < |a| { assert ab[i] == a[i]; } else { assert ab[i] == b[i - |a|]; }
    }
  }

  lemma UnderscoredJoin(a: string, b: string)
    requires |a| > 0 && AllDigits(a) && |b| > 0 && AllDigits(b)
    ensures Underscored(a + "_" + b)
  {
    var s := a + "_" + b;
    forall i | 0 <= i < |s| ensures LiteralChar(s, i) {
      if i < |a| {
        assert s[i] == a[i];
      } else if i > |a| {
        assert s[i] == b[i - |a| - 1];
      } else {
        assert s[i] == '_' && s[i - 1] == a[|a| - 1] && s[i + 1] == b[0];
      }
    }
  }

  /** Dropping the underscores of `a + "_" + b`, with digit strings `a` and `b`, gives `a + b`. */
  lemma {:induction false} DropOneUnderscore(a: string, b: string)
    requires AllDigits(a) && AllDigits(b)
    ensures DropUnderscores(a + "_" + b) == a + b
    decreases |b|
  {
    if |b| == 0 {
      assert a + "_" + b == a + "_";
      assert (a + "_")[..|a|] == a;
      NoUnderscoreDropsNothing(a);
    } else {
      var b' := b[..|b| - 1];
      assert (a + "_" + b)[..|a + "_" + b| - 1] == a + "_" + b';
      DropOneUnderscore(a, b');
      assert a + b' + [b[|b| - 1]] == a + b;
    }
  }

  /** `int(str(n))` gives back `n`. */
  lemma ParseIntOfNatToString(n: nat)
    ensures ParseInt(NatToString(n)) == Some(n)
  {
    var s := NatToString(n);
    DigitNotSpace(s[0]);
    DigitNotSpace(s[|s| - 1]);
    StripNoEdgeSpace(s);
    assert ParseSigned(s) == Some(DigitsValue(s)) by {
      DigitNotSign(s[0]);
      DigitsLiteral(s);
    }
    DigitsValueOfNatToString(n);
  }

  lemma DigitNotSpace(c: char)
    requires IsDigit(c)
    ensures !IsSpace(c)
  {
  }

  lemma DigitNotSign(c: char)
    requires IsDigit(c)
    ensures c != '+' && c != '-'
  {
  }

  // ---------------------------------------------------------------------------
  // Paths

  /** `os.path.basename(p)` with `/` as the separator: the text after the last `/`. */
  function Basename(p: string): (r: string)
    ensures forall i :: 0 <= i < |r| ==> r[i] != '/'
    ensures EndsWith(p, r)
    ensures |r| < |p| ==> p[|p| - |r| - 1] == '/'
    decreases |p|
  {
    if |p| == 0 || p[|p| - 1] == '/' then ""
    else
      var q := p[..|p| - 1];
      var r := Basename(q);
      assert q[|q| - |r|..] + [p[|p| - 1]] == p[|p| - 1 - |r|..];
      assert |r| + 1 < |p| ==> p[|p| - |r| - 2] == q[|q| - |r| - 1];
      r + [p[|p| - 1]]
  }
}
