/** The pieces of JavaScript string behaviour the views rely on: decimal
    rendering of safe integers (`n + 'h ago'`, `String(n)`), `Array.join(':')` with
    its inverse `String.split(':')`, and the `<`/`>` ordering of strings. */
module Text {

  function DigitChar(d: nat): (c: char)
    requires d < 10
    ensures '0' <= c <= '9'
  {
    (('0' as int) + d) as char
  }

  function DigitValue(c: char): (d: nat)
    requires '0' <= c <= '9'
    ensures d < 10 && DigitChar(d) == c
  {
    (c as int) - ('0' as int)
  }

  predicate IsDigits(s: string) {
    forall i :: 0 <= i < |s| ==> '0' <= s[i] <= '9'
  }

  /** Decimal rendering of a natural number, most significant digit first. */
  function NatToString(n: nat): (s: string)
    ensures |s| > 0 && IsDigits(s)
    ensures n < 10 <==> |s| == 1
    decreases n
  {
    if n < 10 then [DigitChar(n)] else NatToString(n / 10) + [DigitChar(n % 10)]
  }

  /** Decimal rendering of an integer, as `String(n)` writes a safe integer
      (magnitude below 2^53); larger numbers are written differently. */
  function IntToString(n: int): (s: string)
    ensures |s| > 0
    ensures n < 0 <==> s[0] == '-'
    ensures n >= 0 ==> s == NatToString(n)
  {
    if n < 0 then "-" + NatToString(-n) else NatToString(n)
  }

  /** The value of a string of decimal digits (the empty string reads as 0). */
  function ParseDigits(s: string): nat
    requires IsDigits(s)
  {
    if |s| == 0 then 0 else ParseDigits(s[..|s| - 1]) * 10 + DigitValue(s[|s| - 1])
  }

  lemma {:induction false} ParseNatToString(n: nat)
    ensures ParseDigits(NatToString(n)) == n
    decreases n
  {
    var s := NatToString(n);
    if n >= 10 {
      ParseNatToString(n / 10);
      assert s[..|s| - 1] == NatToString(n / 10);
    }
  }

  // ---------------------------------------------------------------------------
  // Array.join(':') and String.split(':')

  const SEP: char := ':'

  predicate NoSep(x: string) {
    forall i :: 0 <= i < |x| ==> x[i] != SEP
  }

  /** `xs.join(':')`: the elements with one separator between neighbours. */
  function Join(xs: seq<string>): (s: string)
    ensures |xs| == 0 ==> s == ""
    ensures |xs| == 1 ==> s == xs[0]
    ensures |xs| >= 1 ==> xs[0] <= s
    ensures |xs| >= 2 ==> |s| > |xs[0]| && s[|xs[0]|] == SEP
  {
    if |xs| == 0 then ""
    else if |xs| == 1 then xs[0]
    else xs[0] + [SEP] + Join(xs[1..])
  }

  /** `s.split(':')`: the maximal separator-free pieces, in order. */
  function Split(s: string): (r: seq<string>)
    ensures |r| >= 1
    decreases |s|
  {
    if |s| == 0 then [""]
    else if s[0] == SEP then [""] + Split(s[1..])
    else
      var t := Split(s[1..]);
      [[s[0]] + t[0]] + t[1..]
  }

  lemma {:induction false} SplitPrefix(x: string, rest: string)
    requires NoSep(x)
    ensures Split(x + rest) == [x + Split(rest)[0]] + Split(rest)[1..]
    decreases |x|
  {
    if |x| > 0 {
      assert (x + rest)[1..] == x[1..] + rest;
      SplitPrefix(x[1..], rest);
      assert [x[0]] + (x[1..] + Split(rest)[0]) == x + Split(rest)[0];
    } else {
      var r := Split(rest);
      assert x + rest == rest && x + r[0] == r[0];
      assert r == [r[0]] + r[1..];
    }
  }

  /** Joining with ':' and splitting again gives back the pieces, as long as
      there is at least one piece and no piece holds a ':' itself. */
  lemma {:induction false} SplitJoin(xs: seq<string>)
    requires |xs| > 0
    requires forall i :: 0 <= i < |xs| ==> NoSep(xs[i])
    ensures Split(Join(xs)) == xs
    decreases |xs|
  {
    if |xs| == 1 {
      SplitPrefix(xs[0], "");
      assert xs[0] + "" == xs[0];
    } else {
      var tail := Join(xs[1..]);
      SplitJoin(xs[1..]);
      assert xs[0] + [SEP] + tail == xs[0] + ([SEP] + tail);
      SplitPrefix(xs[0], [SEP] + tail);
      assert ([SEP] + tail)[1..] == tail;
      assert xs[0] + "" == xs[0];
      assert xs == [xs[0]] + xs[1..];
    }
  }

  /** Decimal renderings never hold the separator. */
  lemma IntToStringNoSep(n: int)
    ensures NoSep(IntToString(n))
  {
  }

  // ---------------------------------------------------------------------------
  // String ordering: `a < b` on strings is lexicographic by character code,
  // a proper prefix coming first.

  predicate StrLess(a: string, b: string)
    ensures |b| == 0 ==> !StrLess(a, b)
    ensures |a| == 0 ==> (StrLess(a, b) <==> |b| > 0)
    decreases |a|
  {
    if |b| == 0 then false
    else if |a| == 0 then true
    else if a[0] != b[0] then a[0] < b[0]
    else StrLess(a[1..], b[1..])
  }

  /** A proper prefix comes first. */
  lemma {:induction false} StrLessProperPrefix(a: string, b: string)
    requires a < b
    ensures StrLess(a, b)
    decreases |a|
  {
    if |a| > 0 {
      assert a[1..] < b[1..];
      StrLessProperPrefix(a[1..], b[1..]);
    }
  }

  lemma {:induction false} StrLessIrreflexive(a: string)
    ensures !StrLess(a, a)
    decreases |a|
  {
    if |a| > 0 {
      StrLessIrreflexive(a[1..]);
    }
  }

  lemma {:induction false} StrLessTransitive(a: string, b: string, c: string)
    requires StrLess(a, b) && StrLess(b, c)
    ensures StrLess(a, c)
    decreases |a|
  {
    if |a| > 0 && a[0] == b[0] && b[0] == c[0] {
      StrLessTransitive(a[1..], b[1..], c[1..]);
    }
  }

  /** Two different strings are always ordered one way or the other. */
  lemma {:induction false} StrLessTotal(a: string, b: string)
    requires a != b
    ensures StrLess(a, b) || StrLess(b, a)
    decreases |a|
  {
    if |a| > 0 && |b| > 0 && a[0] == b[0] {
      assert a == [a[0]] + a[1..] && b == [b[0]] + b[1..];
      StrLessTotal(a[1..], b[1..]);
    }
  }

  lemma {:induction false} StrLessAsymmetric(a: string, b: string)
    requires StrLess(a, b)
    ensures !StrLess(b, a)
    decreases |a|
  {
    if |a| > 0 && a[0] == b[0] {
      StrLessAsymmetric(a[1..], b[1..]);
    }
  }
}
