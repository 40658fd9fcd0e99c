/**
 * String helpers with the meaning Python gives them: `str.strip`, `str.split`,
 * `str.lower`, `str.upper`, `str.title`, `in`, `endswith`, `int(str)`, and
 * decimal rendering of integers.  Case mapping is ASCII-only.
 */
module Text {
  import opened Wrappers

  /** Python's `str.isspace` for a single character. */
  predicate IsSpace(c: char) {
    var n := c as int;
    (9 <= n <= 13) || (28 <= n <= 32) || n == 0x85 || n == 0xA0 || n == 0x1680
    || (0x2000 <= n <= 0x200A) || n == 0x2028 || n == 0x2029 || n == 0x202F
    || n == 0x205F || n == 0x3000
  }

  predicate NoSpace(s: string) {
    forall i :: 0 <= i < |s| ==> !IsSpace(s[i])
  }

  predicate AllSpace(s: string) {
    forall i :: 0 <= i < |s| ==> IsSpace(s[i])
  }

  /** `str.lstrip()`: the suffix left after dropping leading whitespace. */
  function TrimStart(s: string): (r: string)
    ensures |r| <= |s| && r == s[|s| - |r|..]
    ensures forall i :: 0 <= i < |s| - |r| ==> IsSpace(s[i])
    ensures r != [] ==> !IsSpace(r[0])
    decreases |s|
  {
    if s != [] && IsSpace(s[0]) then TrimStart(s[1..]) else s
  }

  /** `str.rstrip()`: the prefix left after dropping trailing whitespace. */
  function TrimEnd(s: string): (r: string)
    ensures |r| <= |s| && r == s[..|r|]
    ensures forall i :: |r| <= i < |s| ==> IsSpace(s[i])
    ensures r != [] ==> !IsSpace(r[|r| - 1])
    decreases |s|
  {
    if s != [] && IsSpace(s[|s| - 1]) then
      var r := TrimEnd(s[..|s| - 1]);
      assert forall i :: |r| <= i < |s| - 1 ==> s[i] == s[..|s| - 1][i];
      r
    else s
  }

  /** `str.strip()`. */
  function Strip(s: string): (r: string) {
    TrimEnd(TrimStart(s))
  }

  lemma StripShape(s: string)
    ensures |Strip(s)| <= |s|
    ensures Strip(s) == [] <==> AllSpace(s)
    ensures Strip(s) != [] ==> !IsSpace(Strip(s)[0]) && !IsSpace(Strip(s)[|Strip(s)| - 1])
  {
    var t := TrimStart(s);
    var r := TrimEnd(t);
    var k := |s| - |t|;
    if r == [] {
      assert t == [];
    } else {
      assert r[0] == t[0] == s[k];
    }
  }

  /** Leading whitespace before a non-blank start is dropped, and only it. */
  lemma {:induction false} TrimStartPadded(p: string, u: string)
    requires AllSpace(p) && u != [] && !IsSpace(u[0])
    ensures TrimStart(p + u) == u
    decreases |p|
  {
    if p == [] {
      assert p + u == u;
    } else {
      assert (p + u)[0] == p[0] && (p + u)[1..] == p[1..] + u;
      TrimStartPadded(p[1..], u);
    }
  }

  /** Trailing whitespace after a non-blank end is dropped, and only it. */
  lemma {:induction false} TrimEndPadded(u: string, q: string)
    requires AllSpace(q) && u != [] && !IsSpace(u[|u| - 1])
    ensures TrimEnd(u + q) == u
    decreases |q|
  {
    if q == [] {
      assert u + q == u;
    } else {
      var init := q[..|q| - 1];
      assert (u + q)[|u + q| - 1] == q[|q| - 1] && (u + q)[..|u + q| - 1] == u + init;
      TrimEndPadded(u, init);
    }
  }

  /** `str.strip()` removes exactly the whitespace padding around text with non-blank ends. */
  lemma StripPadded(p: string, u: string, q: string)
    requires AllSpace(p) && AllSpace(q) && u != [] && !IsSpace(u[0]) && !IsSpace(u[|u| - 1])
    ensures Strip(p + u + q) == u
  {
    assert p + u + q == p + (u + q);
    TrimStartPadded(p, u + q);
    TrimEndPadded(u, q);
  }

  /** A string without leading or trailing whitespace is its own strip. */
  lemma StripNoEdges(s: string)
    requires s == [] || (!IsSpace(s[0]) && !IsSpace(s[|s| - 1]))
    ensures Strip(s) == s
  {
  }

  lemma StripIdempotent(s: string)
    ensures Strip(Strip(s)) == Strip(s)
  {
    StripShape(s);
    StripNoEdges(Strip(s));
  }

  function LowerChar(c: char): char {
    if 'A' <= c <= 'Z' then (c as int - 'A' as int + 'a' as int) as char else c
  }

  function UpperChar(c: char): char {
    if 'a' <= c <= 'z' then (c as int - 'a' as int + 'A' as int) as char else c
  }

  predicate IsLetter(c: char) {
    ('a' <= c <= 'z') || ('A' <= c <= 'Z')
  }

  /** `str.lower()` on ASCII letters. */
  function Lower(s: string): (r: string)
    ensures |r| == |s| && forall i :: 0 <= i < |s| ==> r[i] == LowerChar(s[i])
  {
    seq(|s|, i requires 0 <= i < |s| => LowerChar(s[i]))
  }

  /** `str.upper()` on ASCII letters. */
  function Upper(s: string): (r: string)
    ensures |r| == |s| && forall i :: 0 <= i < |s| ==> r[i] == UpperChar(s[i])
  {
    seq(|s|, i requires 0 <= i < |s| => UpperChar(s[i]))
  }

  /** `str.title()`: a letter that starts a run of letters is upper-cased, the other letters lower-cased. */
  function Title(s: string): (r: string)
    ensures |r| == |s|
  {
    seq(|s|, i requires 0 <= i < |s| =>
      if !IsLetter(s[i]) then s[i]
      else if i == 0 || !IsLetter(s[i - 1]) then UpperChar(s[i])
      else LowerChar(s[i]))
  }

  /** Lower-casing works character by character, so it distributes over concatenation. */
  lemma LowerConcat(a: string, b: string)
    ensures Lower(a + b) == Lower(a) + Lower(b)
  {
  }

  /** Lower-casing twice is lower-casing once. */
  lemma LowerIdempotent(s: string)
    ensures Lower(Lower(s)) == Lower(s)
  {
  }

  /** `s.replace(a, b)` for single characters. */
  function ReplaceChar(s: string, a: char, b: char): (r: string)
    ensures |r| == |s|
  {
    seq(|s|, i requires 0 <= i < |s| => if s[i] == a then b else s[i])
  }

  /** `sub in s`. */
  predicate Contains(s: string, sub: string)
    decreases |s|
  {
    StartsWith(s, sub) || (s != [] && Contains(s[1..], sub))
  }

  /** `s.endswith(suffix)`. */
  predicate EndsWith(s: string, suffix: string) {
    |suffix| <= |s| && s[|s| - |suffix|..] == suffix
  }

  /** `s.startswith(prefix)`. */
  predicate StartsWith(s: string, prefix: string) {
    |prefix| <= |s| && s[..|prefix|] == prefix
  }

  /** A concatenation starts with its first part and ends with its second. */
  lemma ConcatEnds(a: string, b: string)
    ensures StartsWith(a + b, a) && EndsWith(a + b, b)
  {
    assert (a + b)[..|a|] == a;
    assert (a + b)[|a|..] == b;
  }

  /** The end of an end of `s` is an end of `s`. */
  lemma EndsWithTrans(s: string, t: string, u: string)
    requires EndsWith(s, t) && EndsWith(t, u)
    ensures EndsWith(s, u)
  {
    assert s[|s| - |u|..] == t[|t| - |u|..];
  }

  /** `s.split(c)[-1]`: the text after the last `c`, or all of `s` when there is none. */
  function AfterLast(s: string, c: char): (r: string)
    ensures |r| <= |s| && r == s[|s| - |r|..]
    ensures c !in r
    ensures |r| < |s| ==> s[|s| - |r| - 1] == c
    decreases |s|
  {
    if s == [] then []
    else if s[|s| - 1] == c then []
    else
      var init := s[..|s| - 1];
      var tail := AfterLast(init, c);
      assert s == init + [s[|s| - 1]];
      assert s[|s| - |tail| - 1..] == init[|init| - |tail|..] + [s[|s| - 1]];
      tail + [s[|s| - 1]]
  }

  /** `s.rsplit(c, 1)[0]`: the text before the last `c`. */
  function BeforeLast(s: string, c: char): (r: string)
    requires c in s
    ensures s == r + [c] + AfterLast(s, c)
  {
    var tail := AfterLast(s, c);
    assert |tail| < |s|;
    var r := s[..|s| - |tail| - 1];
    assert s == r + [c] + tail by {
      assert s == s[..|s| - |tail| - 1] + [s[|s| - |tail| - 1]] + s[|s| - |tail|..];
    }
    r
  }

  /** `s.split(c)[0]`: the text before the first `c`, or all of `s` when there is none. */
  function BeforeFirst(s: string, c: char): (r: string)
    ensures |r| <= |s| && r == s[..|r|]
    ensures c !in r
    ensures |r| < |s| ==> s[|r|] == c
    decreases |s|
  {
    if s == [] then []
    else if s[0] == c then []
    else [s[0]] + BeforeFirst(s[1..], c)
  }

  /** `f"{n:02d}"` for a natural number. */
  function TwoDigits(n: nat): (s: string)
    ensures |s| >= 2 && AllDigits(s)
  {
    if n < 10 then "0" + NatStr(n) else NatStr(n)
  }

  /** `s.split(c)`: the pieces between the separators, in order. */
  function Split(s: string, c: char): (parts: seq<string>)
    ensures |parts| >= 1
    ensures forall i :: 0 <= i < |parts| ==> c !in parts[i]
    decreases |s|
  {
    var head := BeforeFirst(s, c);
    if |head| == |s| then [s] else [head] + Split(s[|head| + 1..], c)
  }

  /** A string without the separator is one piece. */
  lemma SplitNone(a: string, c: char)
    requires c !in a
    ensures Split(a, c) == [a]
  {
  }

  /** A piece without the separator, then the separator, comes off the front. */
  lemma SplitSep(a: string, c: char, b: string)
    requires c !in a
    ensures Split(a + [c] + b, c) == [a] + Split(b, c)
  {
    var s := a + [c] + b;
    BeforeFirstSep(a, c, b);
    assert s[|a| + 1..] == b;
  }

  lemma {:induction false} BeforeFirstSep(a: string, c: char, b: string)
    requires c !in a
    ensures BeforeFirst(a + [c] + b, c) == a
    decreases |a|
  {
    var s := a + [c] + b;
    if a != [] {
      assert s[1..] == a[1..] + [c] + b;
      BeforeFirstSep(a[1..], c, b);
      assert [a[0]] + a[1..] == a;
    }
  }

  /** Splitting what was joined on a separator no piece contains gives the pieces back. */
  lemma {:induction false} SplitJoin(parts: seq<string>, c: char)
    requires |parts| >= 1
    requires forall i :: 0 <= i < |parts| ==> c !in parts[i]
    ensures Split(Join(parts, [c]), c) == parts
    decreases |parts|
  {
    if |parts| == 1 {
      SplitNone(parts[0], c);
    } else {
      SplitJoin(parts[1..], c);
      SplitSep(parts[0], c, Join(parts[1..], [c]));
      assert [parts[0]] + parts[1..] == parts;
    }
  }

  /** Three separators between four pieces that hold none split back into the four pieces. */
  lemma SplitFour(a: string, b: string, c: string, d: string, sep: char)
    requires sep !in a && sep !in b && sep !in c && sep !in d
    ensures Split(a + [sep] + (b + [sep] + (c + [sep] + d)), sep) == [a, b, c, d]
  {
    SplitNone(d, sep);
    SplitSep(c, sep, d);
    SplitSep(b, sep, c + [sep] + d);
    SplitSep(a, sep, b + [sep] + (c + [sep] + d));
  }

  /** Four separators between five pieces that hold none split back into the five pieces. */
  lemma SplitFive(a: string, b: string, c: string, d: string, e: string, sep: char)
    requires sep !in a && sep !in b && sep !in c && sep !in d && sep !in e
    ensures Split(a + [sep] + (b + [sep] + (c + [sep] + (d + [sep] + e))), sep) == [a, b, c, d, e]
  {
    SplitFour(b, c, d, e, sep);
    SplitSep(a, sep, b + [sep] + (c + [sep] + (d + [sep] + e)));
  }

  /** `p/b/c/d` with `p` a piece and its separator: the path splits into its four pieces. */
  lemma SplitPathFour(p: string, a: string, b: string, c: string, d: string, sep: char)
    requires p == a + [sep]
    requires sep !in a && sep !in b && sep !in c && sep !in d
    ensures Split(p + (b + [sep] + c + [sep] + d), sep) == [a, b, c, d]
  {
    assert p + (b + [sep] + c + [sep] + d) == a + [sep] + (b + [sep] + (c + [sep] + d));
    SplitFour(a, b, c, d, sep);
  }

  /** `p/b/c/d/e1e2` with `p` a piece and its separator: the path splits into its five pieces. */
  lemma SplitPathFive(p: string, a: string, b: string, c: string, d: string, e1: string, e2: string, sep: char)
    requires p == a + [sep]
    requires sep !in a && sep !in b && sep !in c && sep !in d && sep !in e1 + e2
    ensures Split(p + (b + [sep] + c + [sep] + d + [sep] + e1 + e2), sep) == [a, b, c, d, e1 + e2]
  {
    assert p + (b + [sep] + c + [sep] + d + [sep] + e1 + e2)
        == a + [sep] + (b + [sep] + (c + [sep] + (d + [sep] + (e1 + e2))));
    SplitFive(a, b, c, d, e1 + e2, sep);
  }

  /** A run of digits holds no character other than a digit. */
  lemma DigitsExclude(s: string, c: char)
    requires AllDigits(s) && !IsDigit(c)
    ensures c !in s
  {
  }

  /** No letter is lowered into a character it was not already, other than a letter. */
  lemma LowerKeeps(s: string, c: char)
    requires c !in s && !('a' <= c <= 'z')
    ensures c !in Lower(s)
  {
  }

  /** The longest prefix of `s` without whitespace. */
  function TakeWord(s: string): (r: string)
    ensures |r| <= |s| && r == s[..|r|] && NoSpace(r)
    ensures |r| < |s| ==> IsSpace(s[|r|])
    decreases |s|
  {
    if s == [] || IsSpace(s[0]) then [] else [s[0]] + TakeWord(s[1..])
  }

  /** `str.split()` with no separator: the maximal runs of non-whitespace, in order. */
  function Words(s: string): (r: seq<string>)
    ensures forall k :: 0 <= k < |r| ==> r[k] != [] && NoSpace(r[k])
    decreases |s|
  {
    var t := TrimStart(s);
    if t == [] then []
    else
      var w := TakeWord(t);
      assert w != [] by { assert !IsSpace(t[0]); }
      [w] + Words(t[|w|..])
  }

  /** `s.split()` is empty exactly when `s` is all whitespace. */
  lemma WordsEmpty(s: string)
    ensures Words(s) == [] <==> AllSpace(s)
  {
    var t := TrimStart(s);
    if t != [] {
      assert !IsSpace(t[0]);
      assert t[0] == s[|s| - |t|];
    }
  }

  /** `sep.join(parts)`. */
  function Join(parts: seq<string>, sep: string): string
    decreases |parts|
  {
    if parts == [] then []
    else if |parts| == 1 then parts[0]
    else parts[0] + sep + Join(parts[1..], sep)
  }

  predicate IsDigit(c: char) {
    '0' <= c <= '9'
  }

  function DigitChar(d: int): char
    requires 0 <= d < 10
  {
    ('0' as int + d) as char
  }

  function DigitValue(c: char): nat
    requires IsDigit(c)
  {
    c as int - '0' as int
  }

  predicate AllDigits(s: string) {
    forall i :: 0 <= i < |s| ==> IsDigit(s[i])
  }

  /** The value of a string of decimal digits. */
  function DigitsValue(s: string): nat
    requires AllDigits(s)
    decreases |s|
  {
    if s == [] then 0 else DigitsValue(s[..|s| - 1]) * 10 + DigitValue(s[|s| - 1])
  }

  /** `str(n)` for a natural number. */
  function NatStr(n: nat): (r: string)
    ensures r != [] && AllDigits(r)
    decreases n
  {
    if n < 10 then [DigitChar(n)] else NatStr(n / 10) + [DigitChar(n % 10)]
  }

  /** Reading back the digits `str(n)` writes gives `n`. */
  lemma {:induction false} NatStrRoundTrip(n: nat)
    ensures DigitsValue(NatStr(n)) == n
    decreases n
  {
    if n >= 10 {
      NatStrRoundTrip(n / 10);
      var s := NatStr(n);
      assert s[..|s| - 1] == NatStr(n / 10);
    }
  }

  lemma NatStrInjective(a: nat, b: nat)
    requires NatStr(a) == NatStr(b)
    ensures a == b
  {
    NatStrRoundTrip(a);
    NatStrRoundTrip(b);
  }

  /** `str(i)` for any integer. */
  function IntStr(i: int): (r: string)
    ensures r != []
  {
    if i < 0 then "-" + NatStr(-i) else NatStr(i)
  }

  /** Different integers are written differently. */
  lemma IntStrInjective(a: int, b: int)
    requires IntStr(a) == IntStr(b)
    ensures a == b
  {
    IntStrSign(a);
    IntStrSign(b);
    if a < 0 && b < 0 {
      assert IntStr(a)[1..] == NatStr(-a);
      assert IntStr(b)[1..] == NatStr(-b);
      NatStrInjective(-a, -b);
    } else if a >= 0 && b >= 0 {
      NatStrInjective(a, b);
    }
  }

  /** `str(i)` starts with a minus sign exactly when `i` is negative. */
  lemma IntStrSign(i: int)
    ensures IntStr(i)[0] == '-' <==> i < 0
  {
    if i >= 0 {
      assert IsDigit(NatStr(i)[0]);
    }
  }

  /** A common prefix can be dropped from both sides of an equation. */
  lemma DropPrefix(p: string, x: string, y: string)
    requires p + x == p + y
    ensures x == y
  {
    assert x == (p + x)[|p|..];
    assert y == (p + y)[|p|..];
  }

  /** `str(i)` starts with a sign or a digit and ends with a digit. */
  lemma IntStrEdges(i: int)
    ensures IsDigit(IntStr(i)[|IntStr(i)| - 1])
    ensures IntStr(i)[0] == '-' || IsDigit(IntStr(i)[0])
    ensures !IsSpace(IntStr(i)[0]) && !IsSpace(IntStr(i)[|IntStr(i)| - 1])
  {
    var s := IntStr(i);
    var m: nat := if i < 0 then -i else i;
    var t := NatStr(m);
    assert IsDigit(t[0]) && IsDigit(t[|t| - 1]);
    if i < 0 {
      assert s == "-" + t;
      assert s[|s| - 1] == t[|t| - 1];
    }
  }

  function Repeat(c: char, n: nat): (r: string)
    ensures |r| == n && forall i :: 0 <= i < n ==> r[i] == c
  {
    seq(n, _ => c)
  }

  function Pow10(w: nat): (p: nat)
    ensures p >= 1
  {
    if w == 0 then 1 else 10 * Pow10(w - 1)
  }

  /** `f"{n:0{w}d}"` for `0 <= n < 10^w`: exactly `w` digits, zero-padded on the left. */
  function FixedDigits(n: nat, w: nat): (r: string)
    ensures |r| == w && AllDigits(r)
    decreases w
  {
    if w == 0 then [] else FixedDigits(n / 10, w - 1) + [DigitChar(n % 10)]
  }

  /** Reading back `w` fixed digits gives `n` modulo `10^w`. */
  lemma {:induction false} FixedDigitsValue(n: nat, w: nat)
    ensures DigitsValue(FixedDigits(n, w)) == n % Pow10(w)
    decreases w
  {
    if w > 0 {
      var s := FixedDigits(n, w);
      assert s[..|s| - 1] == FixedDigits(n / 10, w - 1);
      FixedDigitsValue(n / 10, w - 1);
      ModPow10Step(n, w);
    }
  }

  lemma ModPow10Step(n: nat, w: nat)
    requires w > 0
    ensures n % Pow10(w) == (n / 10) % Pow10(w - 1) * 10 + n % 10
  {
    var p := Pow10(w - 1);
    var q := n / 10;
    var d := n % 10;
    var a := q / p;
    var b := q % p;
    assert n == a * (10 * p) + (b * 10 + d) by {
      assert n == q * 10 + d;
      assert q == a * p + b;
    }
    ModUnique(n, 10 * p, a, b * 10 + d);
  }

  lemma ModUnique(n: int, m: int, a: int, r: int)
    requires m > 0 && n == a * m + r && 0 <= r < m
    ensures n % m == r && n / m == a
  {
    var q := n / m;
    var e := n % m;
    assert n == q * m + e;
    var k := a - q;
    assert k * m == e - r by {
      assert a * m - q * m == e - r;
      assert k * m == a * m - q * m;
    }
    if k > 0 {
      MulAtLeast(k, m);
    } else if k < 0 {
      MulAtLeast(-k, m);
    }
  }

  lemma MulAtLeast(k: int, m: int)
    requires k >= 1 && m >= 0
    ensures k * m >= m
  {
    assert k * m == (k - 1) * m + m;
    assert (k - 1) * m >= 0;
  }

  /** Writing the value of a digit string back at its own width gives the string. */
  lemma {:induction false} DigitsFixed(s: string)
    requires AllDigits(s)
    ensures FixedDigits(DigitsValue(s), |s|) == s
    decreases |s|
  {
    if s != [] {
      var init := s[..|s| - 1];
      var last := s[|s| - 1];
      DigitsFixed(init);
      var v := DigitsValue(s);
      assert v == DigitsValue(init) * 10 + DigitValue(last);
      assert v / 10 == DigitsValue(init) && v % 10 == DigitValue(last);
      assert DigitChar(DigitValue(last)) == last;
    }
  }

  lemma {:induction false} DigitsValueBound(s: string)
    requires AllDigits(s)
    ensures DigitsValue(s) < Pow10(|s|)
    decreases |s|
  {
    if s != [] { DigitsValueBound(s[..|s| - 1]); }
  }

  /**
   * The digit part `int()` accepts (PEP 515): ASCII digits, starting and
   * ending with one, where an underscore may stand between two digits.
   */
  predicate GroupedDigits(s: string) {
    && s != [] && IsDigit(s[0]) && IsDigit(s[|s| - 1])
    && (forall i :: 0 <= i < |s| ==> IsDigit(s[i]) || s[i] == '_')
    && (forall i :: 0 <= i < |s| - 1 ==> IsDigit(s[i]) || IsDigit(s[i + 1]))
  }

  /** `s` with its underscores removed. */
  function DropUnderscores(s: string): (r: string)
    ensures '_' !in r && |r| <= |s|
    ensures (forall i :: 0 <= i < |s| ==> IsDigit(s[i]) || s[i] == '_') ==> AllDigits(r)
    ensures AllDigits(s) ==> r == s
    ensures s != [] && s[0] != '_' ==> r != [] && r[0] == s[0]
  {
    if s == [] then []
    else
      var rest := DropUnderscores(s[1..]);
      assert forall i :: 0 <= i < |s| - 1 ==> s[1..][i] == s[i + 1];
      if s[0] == '_' then rest else [s[0]] + rest
  }

  /**
   * `int(s)` for a string: surrounding whitespace, an optional sign, and
   * ASCII digits with single underscores between them.
   */
  function ParseInt(s: string): (r: Option<int>)
    ensures r.Some? ==> Strip(s) != []
  {
    var t := Strip(s);
    if t == [] then None
    else
      var sign := if t[0] == '-' then -1 else 1;
      var body := if t[0] == '-' || t[0] == '+' then t[1..] else t;
      if GroupedDigits(body) then Some(sign * DigitsValue(DropUnderscores(body))) else None
  }

  /** An underscore between two runs of digits does not change what `int()` reads. */
  lemma ParseIntUnderscore(a: string, b: string)
    requires a != [] && b != [] && AllDigits(a) && AllDigits(b)
    ensures AllDigits(a + b)
    ensures ParseInt(a + "_" + b) == Some(DigitsValue(a + b))
  {
    var s := a + "_" + b;
    GroupedAroundUnderscore(a, b);
    assert Strip(s) == s && s[0] != '-' && s[0] != '+' by {
      StripNoEdges(s);
    }
    assert DropUnderscores(s) == a + b by {
      assert s == a + ("_" + b);
      DropUnderscoresConcat(a, "_" + b);
      assert ("_" + b)[0] == '_' && ("_" + b)[1..] == b;
    }
  }

  /** Two runs of digits joined by an underscore are grouped digits. */
  lemma GroupedAroundUnderscore(a: string, b: string)
    requires a != [] && b != [] && AllDigits(a) && AllDigits(b)
    ensures var s := a + "_" + b; GroupedDigits(s) && IsDigit(s[0]) && IsDigit(s[|s| - 1])
  {
    var s := a + "_" + b;
    assert forall i :: 0 <= i < |s| ==> IsDigit(s[i]) || s[i] == '_' by {
      forall i | 0 <= i < |s| ensures IsDigit(s[i]) || s[i] == '_' {
        if i < |a| { assert s[i] == a[i]; } else if i > |a| { assert s[i] == b[i - |a| - 1]; }
      }
    }
    assert forall i :: 0 <= i < |s| - 1 ==> IsDigit(s[i]) || IsDigit(s[i + 1]) by {
      forall i | 0 <= i < |s| - 1 ensures IsDigit(s[i]) || IsDigit(s[i + 1]) {
        if i < |a| { assert s[i] == a[i]; } else { assert s[i + 1] == b[i - |a|]; }
      }
    }
  }

  /** Dropping underscores distributes over concatenation. */
  lemma {:induction false} DropUnderscoresConcat(a: string, b: string)
    ensures DropUnderscores(a + b) == DropUnderscores(a) + DropUnderscores(b)
    decreases |a|
  {
    if a == [] {
      assert a + b == b;
    } else {
      assert (a + b)[0] == a[0] && (a + b)[1..] == a[1..] + b;
      DropUnderscoresConcat(a[1..], b);
    }
  }

  /** Two underscores in a row are refused. */
  lemma ParseIntDoubleUnderscore(a: string, b: string)
    requires a != [] && b != [] && AllDigits(a) && AllDigits(b)
    ensures ParseInt(a + "__" + b) == None
  {
    var s := a + "__" + b;
    assert IsDigit(s[0]) && IsDigit(s[|s| - 1]);
    StripNoEdges(s);
    assert !(IsDigit(s[|a|]) || IsDigit(s[|a| + 1]));
  }

  /** A leading underscore is refused. */
  lemma ParseIntLeadingUnderscore(a: string)
    requires a != [] && AllDigits(a)
    ensures ParseInt("_" + a) == None
  {
    var s := "_" + a;
    assert !IsSpace(s[0]) && IsDigit(s[|s| - 1]);
    StripNoEdges(s);
  }

  /** `int(str(i)) == i`: the text `str` writes for an integer reads back as it. */
  lemma ParseIntIntStr(i: int)
    ensures ParseInt(IntStr(i)) == Some(i)
  {
    var s := IntStr(i);
    IntStrEdges(i);
    StripNoEdges(s);
    var m: nat := if i < 0 then -i else i;
    NatStrRoundTrip(m);
    var digits := NatStr(m);
    assert IsDigit(digits[0]);
    if i < 0 {
      assert s[0] == '-' && s[1..] == digits;
    } else {
      assert s == digits;
    }
  }

  /** Whitespace around `str(i)` does not change what `int()` reads. */
  lemma PaddedParseInt(before: string, i: int, after: string)
    requires AllSpace(before) && AllSpace(after)
    ensures ParseInt(before + IntStr(i) + after) == Some(i)
  {
    IntStrEdges(i);
    StripPadded(before, IntStr(i), after);
    StripNoEdges(IntStr(i));
    assert Strip(before + IntStr(i) + after) == Strip(IntStr(i));
    ParseIntIntStr(i);
  }

  lemma ParseIntNat(n: nat)
    ensures ParseInt(NatStr(n)) == Some(n)
  {
    var s := NatStr(n);
    NatStrRoundTrip(n);
    assert !IsSpace(s[0]) && !IsSpace(s[|s| - 1]) by {
      assert IsDigit(s[0]) && IsDigit(s[|s| - 1]);
    }
    StripNoEdges(s);
    assert s[0] != '-' && s[0] != '+' by { assert IsDigit(s[0]); }
  }
}
