/** String helpers the compiler builds its output with: JavaScript's
    `Array.prototype.join`, the decimal text of an integer, and substring
    containment used to state what an error message mentions. */
module Text {

  /** `xs.join(sep)`: the elements in order with `sep` between neighbours;
      the empty list joins to the empty string. */
  function Join(xs: seq<string>, sep: string): string
  {
    if |xs| == 0 then ""
    else if |xs| == 1 then xs[0]
    else xs[0] + sep + Join(xs[1..], sep)
  }

  /** Appending one element to a non-empty list appends the separator and
      that element: the join keeps the list's order. */
  lemma {:induction false} JoinSnoc(xs: seq<string>, x: string, sep: string)
    requires |xs| > 0
    ensures Join(xs + [x], sep) == Join(xs, sep) + sep + x
  {
    if |xs| == 1 {
      assert xs + [x] == [xs[0], x];
      assert (xs + [x])[1..] == [x];
    } else {
      assert (xs + [x])[1..] == xs[1..] + [x];
      JoinSnoc(xs[1..], x, sep);
    }
  }

  /** `x` occurs somewhere inside `s`. */
  predicate Contains(s: string, x: string)
  {
    exists i :: 0 <= i <= |s| && x <= s[i..]
  }

  lemma ContainsPrefix(s: string, t: string)
    ensures Contains(s + t, s)
  {
    assert (s + t)[0..] == s + t;
  }

  lemma ContainsSuffix(s: string, t: string)
    ensures Contains(s + t, t)
  {
    assert (s + t)[|s|..] == t;
  }

  /** Containment survives adding text on either side. */
  lemma ContainsWiden(p: string, s: string, q: string, x: string)
    requires Contains(s, x)
    ensures Contains(p + s + q, x)
  {
    var i :| 0 <= i <= |s| && x <= s[i..];
    assert (p + s + q)[|p| + i..] == s[i..] + q;
  }

  /** Every element of a list occurs in its join. */
  lemma {:induction false} JoinContains(xs: seq<string>, sep: string, k: nat)
    requires k < |xs|
    ensures Contains(Join(xs, sep), xs[k])
  {
    if |xs| == 1 {
      assert Join(xs, sep)[0..] == xs[0];
    } else if k == 0 {
      ContainsPrefix(xs[0], sep + Join(xs[1..], sep));
      assert xs[0] + sep + Join(xs[1..], sep) == xs[0] + (sep + Join(xs[1..], sep));
    } else {
      JoinContains(xs[1..], sep, k - 1);
      ContainsWiden(xs[0] + sep, Join(xs[1..], sep), "", xs[k]);
      assert xs[0] + sep + Join(xs[1..], sep) + "" == Join(xs, sep);
    }
  }

  function DigitChar(d: nat): char
    requires d < 10
  {
    "0123456789"[d]
  }

  function DigitValue(c: char): nat
  {
    if '0' <= c <= '9' then (c - '0') as nat else 0
  }

  predicate IsDigit(c: char)
  {
    '0' <= c <= '9'
  }

  /** Decimal text of a natural number, most significant digit first, no
      leading zeros. */
  function NatText(n: nat): string
    decreases n
  {
    if n < 10 then [DigitChar(n)] else NatText(n / 10) + [DigitChar(n % 10)]
  }

  /** JavaScript's `String(n)` for an integer (below 10^21): a minus sign for
      negative values, then the decimal digits. */
  function IntText(n: int): string
  {
    if n < 0 then "-" + NatText(-n) else NatText(n)
  }

  /** Reads decimal digits back as a number. */
  function ParseNat(s: string): nat
  {
    if s == [] then 0 else ParseNat(s[..|s| - 1]) * 10 + DigitValue(s[|s| - 1])
  }

  /** Reads an optionally negative decimal numeral back as an integer. */
  function ParseInt(s: string): int
  {
    if |s| > 0 && s[0] == '-' then -(ParseNat(s[1..]) as int) else ParseNat(s)
  }

  lemma {:induction false} NatTextRoundTrip(n: nat)
    ensures |NatText(n)| > 0
    ensures forall i :: 0 <= i < |NatText(n)| ==> IsDigit(NatText(n)[i])
    ensures ParseNat(NatText(n)) == n
  {
    if n >= 10 {
      NatTextRoundTrip(n / 10);
      var s := NatText(n);
      assert s[..|s| - 1] == NatText(n / 10);
    }
  }

  /** The text of an integer reads back as the same integer, and it never
      contains a quote: numbers appear bare in the output. */
  lemma IntTextRoundTrip(n: int)
    ensures ParseInt(IntText(n)) == n
    ensures forall i :: 0 <= i < |IntText(n)| ==> IntText(n)[i] == '-' || IsDigit(IntText(n)[i])
  {
    if n < 0 {
      var digits := NatText(-n);
      NatTextRoundTrip(-n);
      assert IntText(n) == "-" + digits;
      assert IntText(n)[1..] == digits;
      assert forall i :: 1 <= i < |IntText(n)| ==> IntText(n)[i] == digits[i - 1];
    } else {
      NatTextRoundTrip(n);
    }
  }
}
