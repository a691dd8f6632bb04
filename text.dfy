/** The string operations app.js borrows from JavaScript: `Array.prototype.join`
    with a newline, the decimal rendering of a count inside a template literal,
    and, as their inverses, splitting at newlines and reading a decimal. */
module Text {

  /** `xs.join('\n')`: the elements with one newline between neighbours. */
  function JoinLines(xs: seq<string>): string
  {
    if |xs| == 0 then ""
    else if |xs| == 1 then xs[0]
    else xs[0] + "\n" + JoinLines(xs[1..])
  }

  /** `s.split('\n')`: the pieces of `s` between newlines; never empty. */
  function SplitLines(s: string): (r: seq<string>)
    ensures |r| >= 1
    ensures forall i :: 0 <= i < |r| ==> '\n' !in r[i]
  {
    if s == [] then [""]
    else
      var rest := SplitLines(s[1..]);
      if s[0] == '\n' then [""] + rest
      else [[s[0]] + rest[0]] + rest[1..]
  }

  /** True when no element contains a newline. */
  predicate NoNewlines(xs: seq<string>)
  {
    forall i :: 0 <= i < |xs| ==> '\n' !in xs[i]
  }

  /** A line without a newline splits into itself alone. */
  lemma {:induction false} SplitSingleLine(w: string)
    requires '\n' !in w
    ensures SplitLines(w) == [w]
  {
    if w != [] {
      SplitSingleLine(w[1..]);
      assert [w[0]] + w[1..] == w;
    }
  }

  /** Splitting stops at the first newline. */
  lemma {:induction false} SplitAtNewline(w: string, t: string)
    requires '\n' !in w
    ensures SplitLines(w + "\n" + t) == [w] + SplitLines(t)
  {
    if w == [] {
      assert w + "\n" + t == "\n" + t;
      assert ("\n" + t)[1..] == t;
    } else {
      assert (w + "\n" + t)[1..] == w[1..] + "\n" + t;
      SplitAtNewline(w[1..], t);
      assert [w[0]] + w[1..] == w;
    }
  }

  /** Splitting a joined, newline-free list of lines, then more text after one
      further newline, gives back the lines followed by the pieces of the text. */
  lemma {:induction false} SplitJoinAppend(xs: seq<string>, t: string)
    requires |xs| >= 1 && NoNewlines(xs)
    ensures SplitLines(JoinLines(xs) + "\n" + t) == xs + SplitLines(t)
  {
    if |xs| == 1 {
      SplitAtNewline(xs[0], t);
    } else {
      assert JoinLines(xs) + "\n" + t == xs[0] + "\n" + (JoinLines(xs[1..]) + "\n" + t);
      SplitAtNewline(xs[0], JoinLines(xs[1..]) + "\n" + t);
      SplitJoinAppend(xs[1..], t);
      assert [xs[0]] + xs[1..] == xs;
    }
  }

  /** Splitting undoes joining, for a non-empty list of newline-free lines. */
  lemma {:induction false} SplitJoin(xs: seq<string>)
    requires |xs| >= 1 && NoNewlines(xs)
    ensures SplitLines(JoinLines(xs)) == xs
  {
    if |xs| == 1 {
      SplitSingleLine(xs[0]);
    } else {
      SplitAtNewline(xs[0], JoinLines(xs[1..]));
      SplitJoin(xs[1..]);
      assert [xs[0]] + xs[1..] == xs;
    }
  }

  lemma JoinLinesConsHead(a: string, b: string, t: seq<string>)
    ensures JoinLines([a + b] + t) == a + JoinLines([b] + t)
  {
    if |t| > 0 {
      assert ([a + b] + t)[1..] == t;
      assert ([b] + t)[1..] == t;
    }
  }

  /** Joining undoes splitting, for every string. */
  lemma {:induction false} JoinSplit(s: string)
    ensures JoinLines(SplitLines(s)) == s
  {
    if s != [] {
      var rest := SplitLines(s[1..]);
      JoinSplit(s[1..]);
      if s[0] == '\n' {
        assert ([""] + rest)[1..] == rest;
      } else {
        assert [rest[0]] + rest[1..] == rest;
        JoinLinesConsHead([s[0]], rest[0], rest[1..]);
        assert [s[0]] + s[1..] == s;
      }
    }
  }

  predicate IsDigit(c: char)
  {
    '0' <= c <= '9'
  }

  predicate AllDigits(s: string)
  {
    forall i :: 0 <= i < |s| ==> IsDigit(s[i])
  }

  function DigitChar(d: nat): (c: char)
    requires d < 10
    ensures IsDigit(c) && c as int - '0' as int == d
  {
    ('0' as int + d) as char
  }

  /** How a JavaScript template literal renders a non-negative integer count:
      its decimal digits, most significant first, without leading zeros. */
  function NatToString(n: nat): (r: string)
    ensures |r| >= 1 && AllDigits(r)
    ensures r[0] == '0' ==> n == 0
  {
    if n < 10 then [DigitChar(n)]
    else NatToString(n / 10) + [DigitChar(n % 10)]
  }

  /** The number a string of decimal digits denotes. */
  function DecimalValue(s: string): nat
    requires AllDigits(s)
  {
    if s == [] then 0
    else 10 * DecimalValue(s[..|s| - 1]) + (s[|s| - 1] as int - '0' as int)
  }

  /** Reading the rendered count gives the count back. */
  lemma {:induction false} DecimalRoundTrip(n: nat)
    ensures DecimalValue(NatToString(n)) == n
  {
    var r := NatToString(n);
    if n >= 10 {
      DecimalRoundTrip(n / 10);
      assert r[..|r| - 1] == NatToString(n / 10);
    } else {
      assert r[..|r| - 1] == [];
    }
  }

  /** Different counts render differently. */
  lemma NatToStringInjective(m: nat, n: nat)
    requires NatToString(m) == NatToString(n)
    ensures m == n
  {
    DecimalRoundTrip(m);
    DecimalRoundTrip(n);
  }
}
