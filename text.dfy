/**
 * The strings the console tests build: lines joined by a separator, the pieces
 * of a transcript between separators, and decimal numerals for line counts.
 */
module Text {

  /** `xs` in order with `sep` between each consecutive pair; no elements give "". */
  function Join(xs: seq<string>, sep: string): string
  {
    if |xs| == 0 then ""
    else if |xs| == 1 then xs[0]
    else Join(xs[..|xs| - 1], sep) + sep + xs[|xs| - 1]
  }

  /** Joining from the front: the first element, the separator, then the rest joined. */
  lemma {:induction false} JoinCons(x: string, ys: seq<string>, sep: string)
    requires |ys| > 0
    ensures Join([x] + ys, sep) == x + sep + Join(ys, sep)
    decreases |ys|
  {
    var zs := [x] + ys;
    if |ys| == 1 {
      assert zs[..1] == [x];
    } else {
      var init := ys[..|ys| - 1];
      assert zs[..|zs| - 1] == [x] + init;
      JoinCons(x, init, sep);
    }
  }

  /** The pieces of `s` between occurrences of `c`, in order; there is always at least one. */
  function Split(s: string, c: char): (r: seq<string>)
    ensures |r| > 0
    decreases |s|
  {
    if |s| == 0 then [""]
    else
      var rest := Split(s[1..], c);
      if s[0] == c then [""] + rest
      else [[s[0]] + rest[0]] + rest[1..]
  }

  lemma {:induction false} SplitWithout(s: string, c: char)
    requires c !in s
    ensures Split(s, c) == [s]
    decreases |s|
  {
    if |s| > 0 {
      assert s[0] in s;
      assert forall k :: 0 <= k < |s[1..]| ==> s[1..][k] == s[k + 1];
      SplitWithout(s[1..], c);
      assert [s[0]] + s[1..] == s;
    }
  }

  lemma {:induction false} SplitAfter(x: string, c: char, t: string)
    requires c !in x
    ensures Split(x + [c] + t, c) == [x] + Split(t, c)
    decreases |x|
  {
    var s := x + [c] + t;
    if |x| == 0 {
      assert s[0] == c && s[1..] == t;
    } else {
      assert x[0] in x;
      assert s[0] == x[0];
      assert s[1..] == x[1..] + [c] + t;
      assert forall k :: 0 <= k < |x[1..]| ==> x[1..][k] == x[k + 1];
      SplitAfter(x[1..], c, t);
      assert [x[0]] + x[1..] == x;
    }
  }

  /**
   * Splitting a join on a one-character separator gives the elements back, as
   * long as none of them contains the separator: every element is one line.
   */
  lemma {:induction false} SplitJoin(xs: seq<string>, c: char)
    requires |xs| > 0
    requires forall i :: 0 <= i < |xs| ==> c !in xs[i]
    ensures Split(Join(xs, [c]), c) == xs
    decreases |xs|
  {
    if |xs| == 1 {
      SplitWithout(xs[0], c);
    } else {
      var tail := xs[1..];
      assert [xs[0]] + tail == xs;
      JoinCons(xs[0], tail, [c]);
      SplitAfter(xs[0], c, Join(tail, [c]));
      SplitJoin(tail, c);
    }
  }

  function Digit(d: nat): (ch: char)
    requires d < 10
  {
    ('0' as int + d) as char
  }

  predicate IsDigits(s: string)
  {
    forall i :: 0 <= i < |s| ==> '0' <= s[i] <= '9'
  }

  /** The decimal numeral of `n`, as Java's string concatenation writes a non-negative int. */
  function NatToString(n: nat): (r: string)
    ensures |r| > 0 && IsDigits(r)
    ensures r[0] == '0' ==> r == "0"
  {
    if n < 10 then [Digit(n)] else NatToString(n / 10) + [Digit(n % 10)]
  }

  /** The value of a decimal numeral. */
  function ParseNat(s: string): nat
    requires IsDigits(s)
  {
    if |s| == 0 then 0
    else ParseNat(s[..|s| - 1]) * 10 + (s[|s| - 1] as int - '0' as int)
  }

  /** Reading back a numeral gives the number that was written. */
  lemma {:induction false} ParseNatToString(n: nat)
    ensures ParseNat(NatToString(n)) == n
  {
    var s := NatToString(n);
    if n < 10 {
      assert s[..0] == "";
    } else {
      assert s[..|s| - 1] == NatToString(n / 10);
      ParseNatToString(n / 10);
    }
  }
}
