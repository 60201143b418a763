/** The parts of Python's `str` behaviour the workers rely on, restricted to ASCII. */
module PyStr {
  import opened Wrappers

  /** `c.lower()` for an ASCII character. */
  function LowerChar(c: char): char {
    if 'A' <= c <= 'Z' then (c as int + 32) as char else c
  }

  /** `s.lower()` for ASCII text. */
  function Lower(s: string): (r: string)
    ensures |r| == |s|
    ensures forall i :: 0 <= i < |s| ==> r[i] == LowerChar(s[i])
  {
    seq(|s|, i requires 0 <= i < |s| => LowerChar(s[i]))
  }

  /** Lowering twice is the same as lowering once, so a lowered key can be compared to a lowered table. */
  lemma LowerIdempotent(s: string)
    ensures Lower(Lower(s)) == Lower(s)
  {
  }

  predicate StartsWith(s: string, prefix: string) {
    |prefix| <= |s| && s[..|prefix|] == prefix
  }

  predicate EndsWith(s: string, suffix: string) {
    |suffix| <= |s| && s[|s| - |suffix|..] == suffix
  }

  /** `sub in s`: some position of `s` starts a copy of `sub`. */
  predicate Contains(s: string, sub: string) {
    exists i | 0 <= i <= |s| - |sub| :: OccursAt(s, sub, i)
  }

  /** A copy of `sub` starts at position `i` of `s`. */
  predicate OccursAt(s: string, sub: string, i: int) {
    0 <= i && i + |sub| <= |s| && s[i..i + |sub|] == sub
  }

  /** `s[:n]` for a non-negative `n`. */
  function Take(s: string, n: nat): (r: string)
    ensures |r| == if n < |s| then n else |s|
    ensures r == s[..|r|]
  {
    if n < |s| then s[..n] else s
  }

  predicate IsDigit(c: char) {
    '0' <= c <= '9'
  }

  /** `s.isdigit()` for ASCII text: non-empty and made of decimal digits only. */
  predicate IsDigits(s: string) {
    |s| > 0 && forall i :: 0 <= i < |s| ==> IsDigit(s[i])
  }

  /** `int(s)` for a string of decimal digits (leading zeros allowed). */
  function DigitsValue(s: string): nat
    requires forall i :: 0 <= i < |s| ==> IsDigit(s[i])
  {
    if |s| == 0 then 0
    else DigitsValue(s[..|s| - 1]) * 10 + DigitValue(s[|s| - 1])
  }

  function DigitValue(c: char): nat
    requires IsDigit(c)
  {
    c as int - '0' as int
  }

  function DigitChar(d: nat): char
    requires d < 10
  {
    ('0' as int + d) as char
  }

  /** `str(n)` for a non-negative integer. */
  function NatToDecimal(n: nat): (r: string)
    ensures IsDigits(r)
    ensures |r| == 1 || r[0] != '0'
    decreases n
  {
    if n < 10 then [DigitChar(n)] else NatToDecimal(n / 10) + [DigitChar(n % 10)]
  }

  /** `str(i)` for any integer. */
  function IntToDecimal(i: int): string {
    if i < 0 then "-" + NatToDecimal(-i) else NatToDecimal(i)
  }

  /** Reading back what `str(n)` wrote gives `n` again. */
  lemma {:induction false} DecimalRoundTrip(n: nat)
    ensures DigitsValue(NatToDecimal(n)) == n
    decreases n
  {
    if n >= 10 {
      DecimalRoundTrip(n / 10);
      var d := NatToDecimal(n);
      assert d[..|d| - 1] == NatToDecimal(n / 10);
    }
  }

  function Zeros(k: nat): (r: string)
    ensures |r| == k
    ensures forall i :: 0 <= i < k ==> r[i] == '0'
  {
    seq(k, _ => '0')
  }

  /** Leading zeros do not change the value of a digit string. */
  lemma {:induction false} ZerosDoNotCount(k: nat, d: string)
    requires forall i :: 0 <= i < |d| ==> IsDigit(d[i])
    ensures forall i :: 0 <= i < |Zeros(k) + d| ==> IsDigit((Zeros(k) + d)[i])
    ensures DigitsValue(Zeros(k) + d) == DigitsValue(d)
    decreases |d|
  {
    var z := Zeros(k);
    if |d| == 0 {
      assert z + d == z;
      ZerosValueZero(k);
    } else {
      assert (z + d)[..|z + d| - 1] == z + d[..|d| - 1];
      ZerosDoNotCount(k, d[..|d| - 1]);
    }
  }

  lemma {:induction false} ZerosValueZero(k: nat)
    ensures DigitsValue(Zeros(k)) == 0
  {
    if k > 0 {
      assert Zeros(k)[..k - 1] == Zeros(k - 1);
      ZerosValueZero(k - 1);
    }
  }

  /** `f"{n:03d}"` for a non-negative integer: decimal, left-padded with zeros to width three. */
  function Pad3(n: nat): (r: string)
    ensures IsDigits(r)
    ensures |r| >= 3
  {
    var d := NatToDecimal(n);
    if |d| < 3 then Zeros(3 - |d|) + d else d
  }

  /** Zero padding loses nothing: the padded text still reads back as `n`. */
  lemma Pad3RoundTrip(n: nat)
    ensures DigitsValue(Pad3(n)) == n
  {
    var d := NatToDecimal(n);
    DecimalRoundTrip(n);
    if |d| < 3 {
      ZerosDoNotCount(3 - |d|, d);
    }
  }

  /** Distinct numbers never share a padded form. */
  lemma Pad3Injective(n: nat, m: nat)
    requires Pad3(n) == Pad3(m)
    ensures n == m
  {
    Pad3RoundTrip(n);
    Pad3RoundTrip(m);
  }

  /** If `a + [c] + x == b + [c] + y` and `c` occurs in neither `a` nor `b`, the split points agree. */
  lemma {:induction false} SplitAtFirst(a: string, b: string, c: char, x: string, y: string)
    requires c !in a && c !in b
    requires a + [c] + x == b + [c] + y
    ensures a == b && x == y
  {
    var s := a + [c] + x;
    FirstOccurrence(a, c, x);
    FirstOccurrence(b, c, y);
    assert |a| == |b|;
    assert a == s[..|a|] == b;
    assert x == s[|a| + 1..] == y;
  }

  /** In `a + [c] + x` with no `c` in `a`, the first `c` is at position `|a|`. */
  lemma FirstOccurrence(a: string, c: char, x: string)
    requires c !in a
    ensures (a + [c] + x)[|a|] == c
    ensures forall i :: 0 <= i < |a| ==> (a + [c] + x)[i] != c
  {
  }

  /** Python's whitespace for ASCII text (what `str.strip()` removes). */
  predicate IsSpace(c: char) {
    c == ' ' || '\t' <= c <= '\r' || '\U{1c}' <= c <= '\U{1f}'
  }

  /** `s.strip() == ""`: the text is empty or whitespace only. */
  predicate IsBlank(s: string) {
    forall i :: 0 <= i < |s| ==> IsSpace(s[i])
  }

  /** The position of the last `c` in `s` (`s.rfind(c)`, with None for -1). */
  function LastIndexOf(s: string, c: char): (r: Option<nat>)
    ensures r.Some? ==> r.value < |s| && s[r.value] == c && c !in s[r.value + 1..]
    ensures r.None? ==> c !in s
  {
    if |s| == 0 then None
    else if s[|s| - 1] == c then Some(|s| - 1)
    else
      var r := LastIndexOf(s[..|s| - 1], c);
      assert s == s[..|s| - 1] + [s[|s| - 1]];
      r
  }

  /** With no `c` after it, the `c` between `a` and `b` is the last one. */
  lemma {:induction false} LastIndexAfter(a: string, c: char, b: string)
    requires c !in b
    ensures LastIndexOf(a + [c] + b, c) == Some(|a|)
    decreases |b|
  {
    var s := a + [c] + b;
    if |b| > 0 {
      assert s[..|s| - 1] == a + [c] + b[..|b| - 1];
      assert s[|s| - 1] == b[|b| - 1];
      LastIndexAfter(a, c, b[..|b| - 1]);
    }
  }

  /** Text without `c` has no last `c`. */
  lemma {:induction false} LastIndexAbsent(s: string, c: char)
    requires c !in s
    ensures LastIndexOf(s, c) == None
    decreases |s|
  {
    if |s| > 0 {
      LastIndexAbsent(s[..|s| - 1], c);
    }
  }

  /** `s.split(sep)[-1]` for a one-character separator: the text after the last `sep`. */
  function AfterLast(s: string, sep: char): (r: string)
    ensures sep !in r
    ensures EndsWith(s, r)
    ensures r == s || (|r| < |s| && s[|s| - |r| - 1] == sep)
  {
    match LastIndexOf(s, sep)
    case None => s
    case Some(i) => s[i + 1..]
  }

  /** The items of Python's `repr` of a list of strings, e.g. `'a', 'b'` (items hold no quotes). */
  function ReprItems(xs: seq<string>): string
    decreases |xs|
  {
    if |xs| == 0 then ""
    else if |xs| == 1 then "'" + xs[0] + "'"
    else "'" + xs[0] + "', " + ReprItems(xs[1..])
  }

  /** Python's `repr` (and `str`) of a list of strings, e.g. `['a', 'b']`. */
  function ListRepr(xs: seq<string>): string {
    "[" + ReprItems(xs) + "]"
  }

  /** `c.upper()` for an ASCII character. */
  function UpperChar(c: char): char {
    if 'a' <= c <= 'z' then (c as int - 32) as char else c
  }

  /** `s.upper()` for ASCII text. */
  function Upper(s: string): (r: string)
    ensures |r| == |s|
    ensures forall i :: 0 <= i < |s| ==> r[i] == UpperChar(s[i])
  {
    if |s| == 0 then "" else [UpperChar(s[0])] + Upper(s[1..])
  }

  /** Python's `a <= b` on strings: lexicographic by code point, a prefix first. */
  predicate StrLe(a: string, b: string)
    decreases |a|
  {
    |a| == 0 || (|b| > 0 && (a[0] < b[0] || (a[0] == b[0] && StrLe(a[1..], b[1..]))))
  }

  /** Any two strings are ordered one way or the other. */
  lemma {:induction false} StrLeTotal(a: string, b: string)
    ensures StrLe(a, b) || StrLe(b, a)
    decreases |a|
  {
    if |a| > 0 && |b| > 0 && a[0] == b[0] {
      StrLeTotal(a[1..], b[1..]);
    }
  }

  predicate SortedStrings(xs: seq<string>) {
    forall i :: 0 <= i < |xs| - 1 ==> StrLe(xs[i], xs[i + 1])
  }

  /** Inserts `x` before the first element it does not exceed. */
  function InsertString(x: string, xs: seq<string>): (r: seq<string>)
    requires SortedStrings(xs)
    ensures SortedStrings(r)
    ensures multiset(r) == multiset(xs) + multiset{x}
    ensures r[0] == x || (|xs| > 0 && r[0] == xs[0])
  {
    if |xs| == 0 || StrLe(x, xs[0]) then [x] + xs
    else
      StrLeTotal(x, xs[0]);
      var rest := InsertString(x, xs[1..]);
      assert xs == [xs[0]] + xs[1..];
      [xs[0]] + rest
  }

  /** `sorted(xs)` (and `xs.sort()`): the same strings in ascending order. */
  function SortStrings(xs: seq<string>): (r: seq<string>)
    ensures SortedStrings(r)
    ensures multiset(r) == multiset(xs)
  {
    if |xs| == 0 then []
    else
      assert xs == [xs[0]] + xs[1..];
      InsertString(xs[0], SortStrings(xs[1..]))
  }
}
