/**
 * String helpers with JavaScript's meaning: `startsWith`, `split` on one
 * character, `Array.prototype.join`, `Number.prototype.toString` on integers,
 * `replace` of the first occurrence of a character, and the decimal parser
 * that inverts `toString`.
 */
module Text {
  import opened Wrappers

  /** `s.startsWith(prefix)` */
  predicate StartsWith(s: string, prefix: string) {
    |prefix| <= |s| && s[..|prefix|] == prefix
  }

  /** `s.endsWith(suffix)` */
  predicate EndsWith(s: string, suffix: string) {
    |suffix| <= |s| && s[|s| - |suffix|..] == suffix
  }

  lemma StartsWithConcat(a: string, b: string)
    ensures StartsWith(a + b, a)
  {
    assert (a + b)[..|a|] == a;
  }

  lemma EndsWithConcat(a: string, b: string)
    ensures EndsWith(a + b, b)
  {
    assert (a + b)[|a + b| - |b|..] == b;
  }

  /** A prefix of a prefix is a prefix. */
  lemma StartsWithTrans(s: string, p: string, q: string)
    requires StartsWith(s, p) && StartsWith(p, q)
    ensures StartsWith(s, q)
  {
    assert s[..|q|] == s[..|p|][..|q|];
  }

  /** `parts.join(sep)` */
  function Join(parts: seq<string>, sep: string): string {
    if |parts| == 0 then ""
    else if |parts| == 1 then parts[0]
    else parts[0] + sep + Join(parts[1..], sep)
  }

  lemma JoinCons(x: string, xs: seq<string>, sep: string)
    requires xs != []
    ensures Join([x] + xs, sep) == x + sep + Join(xs, sep)
  {
    assert ([x] + xs)[1..] == xs;
  }

  /** The number of occurrences of `c` in `s`. */
  function Count(s: string, c: char): nat {
    if s == [] then 0 else (if s[0] == c then 1 else 0) + Count(s[1..], c)
  }

  lemma {:induction false} CountConcat(a: string, b: string, c: char)
    ensures Count(a + b, c) == Count(a, c) + Count(b, c)
  {
    if a != [] {
      assert (a + b)[1..] == a[1..] + b;
      CountConcat(a[1..], b, c);
    } else {
      assert a + b == b;
    }
  }

  lemma {:induction false} CountAbsent(s: string, c: char)
    requires c !in s
    ensures Count(s, c) == 0
  {
    if s != [] {
      CountAbsent(s[1..], c);
    }
  }

  /**
   * `s.split(c)` for a one-character separator: the maximal pieces between
   * occurrences of `c`, in order; never empty (`"".split(c)` is `[""]`).
   */
  function Split(s: string, c: char): (r: seq<string>)
    ensures |r| >= 1
    decreases |s|
  {
    if c !in s then [s]
    else
      var k := FirstIndex(s, c);
      [s[..k]] + Split(s[k + 1..], c)
  }

  /** The index of the first `c` in `s`. */
  function FirstIndex(s: string, c: char): (k: nat)
    requires c in s
    ensures k < |s| && s[k] == c && c !in s[..k]
  {
    if s[0] == c then 0 else
      assert c in s[1..] by { var i :| 0 <= i < |s| && s[i] == c; assert s[1..][i - 1] == c; }
      var k := 1 + FirstIndex(s[1..], c);
      assert s[..k] == [s[0]] + s[1..][..k - 1];
      k
  }

  /** The index of the first `c` in `a + [c] + b` when `a` has none. */
  lemma FirstIndexConcat(a: string, c: char, b: string)
    requires c !in a
    ensures c in a + [c] + b && FirstIndex(a + [c] + b, c) == |a|
  {
    var s := a + [c] + b;
    assert forall i :: 0 <= i < |a| ==> s[i] == a[i];
    assert s[|a|] == c;
    var k := FirstIndex(s, c);
    assert forall i :: 0 <= i < k ==> s[..k][i] == s[i];
  }

  /** No piece of a split holds the separator. */
  lemma {:induction false} SplitPiecesFree(s: string, c: char)
    ensures PiecesFree(Split(s, c), c)
    decreases |s|
  {
    if c in s {
      var k := FirstIndex(s, c);
      SplitStep(s, c);
      SplitPiecesFree(s[k + 1..], c);
      ConsFree(s[..k], Split(s[k + 1..], c), c);
    }
  }

  predicate PiecesFree(r: seq<string>, c: char) {
    forall i :: 0 <= i < |r| ==> c !in r[i]
  }

  lemma ConsFree(x: string, r: seq<string>, c: char)
    requires c !in x && PiecesFree(r, c)
    ensures PiecesFree([x] + r, c)
  {
    forall i | 0 <= i < |[x] + r|
      ensures c !in ([x] + r)[i]
    {
      if i > 0 {
        assert ([x] + r)[i] == r[i - 1];
      }
    }
  }

  /** One step of `Split`: the piece before the first separator, then the pieces after it. */
  lemma SplitStep(s: string, c: char)
    requires c in s
    ensures Split(s, c) == [s[..FirstIndex(s, c)]] + Split(s[FirstIndex(s, c) + 1..], c)
  {
  }

  /** A separator-free prefix followed by a separator is the first piece. */
  lemma SplitAtFirst(a: string, c: char, b: string)
    requires c !in a
    ensures Split(a + [c] + b, c) == [a] + Split(b, c)
  {
    var s := a + [c] + b;
    FirstIndexConcat(a, c, b);
    SplitStep(s, c);
    assert s[..|a|] == a;
    assert s[|a| + 1..] == b;
  }

  /**
   * Splitting at a separator distributes: the pieces of `a + [c] + b` are the
   * pieces of `a` followed by those of `b`.
   */
  lemma {:induction false} SplitConcat(a: string, c: char, b: string)
    ensures Split(a + [c] + b, c) == Split(a, c) + Split(b, c)
    decreases |a|
  {
    if c !in a {
      SplitAtFirst(a, c, b);
    } else {
      var k := FirstIndex(a, c);
      var a1, a2 := a[..k], a[k + 1..];
      assert a == a1 + [c] + a2;
      SplitConcat(a2, c, b);
      SplitRegroup(a1, a2, c, b);
    }
  }

  /** The inductive step of `SplitConcat`: a first piece `a1` in front of both sides. */
  lemma SplitRegroup(a1: string, a2: string, c: char, b: string)
    requires c !in a1
    requires Split(a2 + [c] + b, c) == Split(a2, c) + Split(b, c)
    ensures Split(a1 + [c] + a2 + [c] + b, c) == Split(a1 + [c] + a2, c) + Split(b, c)
  {
    assert a1 + [c] + a2 + [c] + b == a1 + [c] + (a2 + [c] + b);
    SplitAtFirst(a1, c, a2 + [c] + b);
    SplitAtFirst(a1, c, a2);
    PrefixRegroup([a1], Split(a1 + [c] + a2 + [c] + b, c), Split(a2 + [c] + b, c),
      Split(a1 + [c] + a2, c), Split(a2, c), Split(b, c));
  }

  /** Rebracketing `head + (s1 + s2)` as `(head + s1) + s2`, with each part named. */
  lemma PrefixRegroup<T>(head: seq<T>, whole: seq<T>, tail: seq<T>, front: seq<T>, s1: seq<T>, s2: seq<T>)
    requires whole == head + tail && tail == s1 + s2 && front == head + s1
    ensures whole == front + s2
  {
  }

  /** The character of a decimal digit `0 <= d < 10`. */
  function DigitChar(d: nat): (ch: char)
    requires d < 10
    ensures IsDigit(ch)
  {
    "0123456789"[d]
  }

  predicate IsDigit(ch: char) {
    '0' <= ch <= '9'
  }

  function DigitValue(ch: char): (d: nat)
    requires IsDigit(ch)
    ensures d < 10
  {
    (ch as int - '0' as int)
  }

  lemma DigitRoundTrip(d: nat)
    requires d < 10
    ensures DigitValue(DigitChar(d)) == d
  {
  }

  predicate AllDigits(s: string) {
    forall i :: 0 <= i < |s| ==> IsDigit(s[i])
  }

  /** `n.toString()` for a non-negative integer: its shortest decimal form. */
  function NatToString(n: nat): (s: string)
    ensures |s| >= 1 && AllDigits(s)
  {
    if n < 10 then [DigitChar(n)]
    else NatToString(n / 10) + [DigitChar(n % 10)]
  }

  /** `i.toString()` for an integer, in plain decimal form. */
  function IntToString(i: int): (s: string)
  {
    if i < 0 then "-" + NatToString(-i) else NatToString(i)
  }

  /** The value of a string of decimal digits. */
  function DigitsValue(s: string): nat
    requires AllDigits(s)
  {
    if s == [] then 0 else DigitsValue(s[..|s| - 1]) * 10 + DigitValue(s[|s| - 1])
  }

  /** Parses an optionally negative decimal integer; `None` for anything else. */
  function ParseInt(s: string): Option<int> {
    if |s| >= 2 && s[0] == '-' && AllDigits(s[1..]) then Some(-(DigitsValue(s[1..]) as int))
    else if |s| >= 1 && AllDigits(s) then Some(DigitsValue(s))
    else None
  }

  lemma {:induction false} NatToStringRoundTrip(n: nat)
    ensures DigitsValue(NatToString(n)) == n
  {
    var s := NatToString(n);
    if n >= 10 {
      NatToStringRoundTrip(n / 10);
      assert s[..|s| - 1] == NatToString(n / 10);
      DigitRoundTrip(n % 10);
    } else {
      DigitRoundTrip(n);
    }
  }

  /** Parsing inverts `toString` on every integer. */
  lemma IntToStringRoundTrip(i: int)
    ensures ParseInt(IntToString(i)) == Some(i)
  {
    if i < 0 {
      NegativeRoundTrip(i);
    } else {
      NatToStringRoundTrip(i);
      ParseDigits(NatToString(i));
    }
  }

  lemma NegativeRoundTrip(i: int)
    requires i < 0
    ensures ParseInt(IntToString(i)) == Some(i)
  {
    var n: nat := -i;
    var t := NatToString(n);
    assert IntToString(i) == "-" + t;
    NatToStringRoundTrip(n);
    ParseNegative(t);
  }

  lemma ParseNegative(t: string)
    requires |t| >= 1 && AllDigits(t)
    ensures ParseInt("-" + t) == Some(-(DigitsValue(t) as int))
  {
    assert ("-" + t)[1..] == t;
  }

  lemma ParseDigits(t: string)
    requires |t| >= 1 && AllDigits(t)
    ensures ParseInt(t) == Some(DigitsValue(t) as int)
  {
    assert t[0] != '-' by { assert IsDigit(t[0]); }
  }

  /** The decimal form of an integer holds only digits and a leading minus sign. */
  lemma IntToStringChars(i: int)
    ensures forall k :: 0 <= k < |IntToString(i)| ==>
      IsDigit(IntToString(i)[k]) || (k == 0 && i < 0 && IntToString(i)[k] == '-')
  {
  }

  /**
   * JavaScript's `length`: the number of UTF-16 code units, which counts a
   * character outside the Basic Multilingual Plane as two.
   */
  function JsLength(s: string): (n: nat)
    ensures |s| <= n <= 2 * |s|
    ensures n == 0 <==> s == ""
  {
    if s == "" then 0 else (if s[0] as int > 0xFFFF then 2 else 1) + JsLength(s[1..])
  }

  /** A single emoji has length 2 in JavaScript although it is one character. */
  lemma JsLengthAstral()
    ensures |"\U{1F600}"| == 1 && JsLength("\U{1F600}") == 2
  {
  }

  /** For text inside the Basic Multilingual Plane the two lengths agree. */
  lemma {:induction false} JsLengthBmp(s: string)
    requires forall i :: 0 <= i < |s| ==> s[i] as int <= 0xFFFF
    ensures JsLength(s) == |s|
  {
    if s != "" {
      JsLengthBmp(s[1..]);
    }
  }

  /** `s.replace(c, d)` with a one-character pattern: only the first `c` changes. */
  function ReplaceFirst(s: string, c: char, d: char): (r: string)
    ensures |r| == |s|
    ensures c !in s ==> r == s
    ensures c in s ==> r[FirstIndex(s, c)] == d
    ensures c in s ==> forall i :: 0 <= i < |s| && i != FirstIndex(s, c) ==> r[i] == s[i]
  {
    if c !in s then s
    else s[..FirstIndex(s, c)] + [d] + s[FirstIndex(s, c) + 1..]
  }

  /** `s.slice(0, n)` */
  function SliceTo(s: string, n: nat): (r: string)
    ensures |r| == if n <= |s| then n else |s|
    ensures StartsWith(s, r)
  {
    if n <= |s| then s[..n] else s
  }
}
