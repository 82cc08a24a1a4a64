/**
 * String helpers the intrinsic macros rely on: `connect` of a vector of
 * names, decimal rendering of an unsigned integer (`to_str`), and the
 * inverse readings used to show that the produced strings are unambiguous.
 */
module Strings {
  import opened Wrappers

  /** The separator `module_path!` and the function path put between names. */
  const PathSep: string := "::"

  /** `xs.connect(sep)`: the pieces in order with `sep` between neighbours. */
  function Join(xs: seq<string>, sep: string): (r: string)
  {
    if |xs| == 0 then ""
    else if |xs| == 1 then xs[0]
    else xs[0] + sep + Join(xs[1..], sep)
  }

  /** Splits a string at every occurrence of "::"; the inverse reading of `Join(_, "::")`. */
  function SplitPath(s: string): (r: seq<string>)
    ensures |r| >= 1
    decreases |s|
  {
    if |s| == 0 then [""]
    else if |s| >= 2 && s[0] == ':' && s[1] == ':' then [""] + SplitPath(s[2..])
    else
      var rest := SplitPath(s[1..]);
      [[s[0]] + rest[0]] + rest[1..]
  }

  /** A name that can appear in a module or function path: it holds no ':'. */
  predicate NoColon(x: string)
  {
    ':' !in x
  }

  lemma {:induction false} SplitPathPrefix(x: string, t: string)
    requires NoColon(x)
    ensures SplitPath(x + t) == [x + SplitPath(t)[0]] + SplitPath(t)[1..]
    decreases |x|
  {
    if x == [] {
      assert x + t == t;
      var p := SplitPath(t);
      assert x + p[0] == p[0];
      assert p == [p[0]] + p[1..];
    } else {
      var s := x + t;
      assert s[0] == x[0] && s[0] != ':';
      assert s[1..] == x[1..] + t;
      SplitPathPrefix(x[1..], t);
      assert [s[0]] + (x[1..] + SplitPath(t)[0]) == x + SplitPath(t)[0];
    }
  }

  /** Joining non-empty-listed, colon-free names with "::" and splitting again gives the names back, in order. */
  lemma {:induction false} SplitJoinRoundTrip(xs: seq<string>)
    requires |xs| >= 1
    requires forall i :: 0 <= i < |xs| ==> NoColon(xs[i])
    ensures SplitPath(Join(xs, PathSep)) == xs
    decreases |xs|
  {
    if |xs| == 1 {
      SplitPathPrefix(xs[0], "");
      assert xs[0] + "" == xs[0];
    } else {
      var j := Join(xs[1..], PathSep);
      SplitJoinRoundTrip(xs[1..]);
      assert xs[0] + PathSep + j == xs[0] + (PathSep + j);
      SplitPathPrefix(xs[0], PathSep + j);
      assert (PathSep + j)[2..] == j;
      assert SplitPath(PathSep + j) == [""] + SplitPath(j);
      assert Join(xs, PathSep) == xs[0] + (PathSep + j);
      assert SplitPath(Join(xs, PathSep)) == [xs[0] + ""] + SplitPath(j);
      assert xs[0] + "" == xs[0];
      assert xs == [xs[0]] + xs[1..];
    }
  }

  /** Every character of `s` is a decimal digit. */
  predicate IsDigits(s: string)
  {
    forall i :: 0 <= i < |s| ==> '0' <= s[i] <= '9'
  }

  function DigitChar(d: nat): (c: char)
    requires d < 10
    ensures '0' <= c <= '9' && c as int - '0' as int == d
  {
    (48 + d) as char
  }

  /** `uint::to_str`: the decimal rendering of `n`, most significant digit first. */
  function NatToString(n: nat): (s: string)
    ensures |s| >= 1 && IsDigits(s)
    ensures |s| > 1 ==> s[0] != '0'
    decreases n
  {
    if n < 10 then [DigitChar(n)]
    else NatToString(n / 10) + [DigitChar(n % 10)]
  }

  /** The number a string of decimal digits denotes. */
  function DigitsValue(s: string): (n: nat)
    requires IsDigits(s)
    decreases |s|
  {
    if |s| == 0 then 0
    else 10 * DigitsValue(s[..|s| - 1]) + (s[|s| - 1] as int - '0' as int)
  }

  /** Reading the rendering of `n` back gives `n`. */
  lemma {:induction false} NatToStringRoundTrip(n: nat)
    ensures DigitsValue(NatToString(n)) == n
    decreases n
  {
    var s := NatToString(n);
    if n >= 10 {
      NatToStringRoundTrip(n / 10);
      assert s[..|s| - 1] == NatToString(n / 10);
    }
  }

  /** The position of the last `c` in `s`, if any. */
  function LastIndexOf(s: string, c: char): (r: Option<nat>)
    ensures r.None? <==> c !in s
    ensures r.Some? ==> r.value < |s| && s[r.value] == c && c !in s[r.value + 1..]
    decreases |s|
  {
    if |s| == 0 then None
    else if s[|s| - 1] == c then Some(|s| - 1)
    else
      var r := LastIndexOf(s[..|s| - 1], c);
      assert r.Some? ==> s[r.value + 1..] == s[..|s| - 1][r.value + 1..] + [s[|s| - 1]];
      assert s == s[..|s| - 1] + [s[|s| - 1]];
      r
  }

  /** A `c` followed by a `c`-free suffix is the last `c`, and cutting there gives both sides back. */
  lemma {:induction false} LastIndexOfSplit(a: string, c: char, b: string)
    requires c !in b
    ensures LastIndexOf(a + [c] + b, c) == Some(|a|)
    ensures (a + [c] + b)[..|a|] == a && (a + [c] + b)[|a| + 1..] == b
    decreases |b|
  {
    var s := a + [c] + b;
    if |b| > 0 {
      assert s[|s| - 1] == b[|b| - 1] != c;
      assert s[..|s| - 1] == a + [c] + b[..|b| - 1];
      LastIndexOfSplit(a, c, b[..|b| - 1]);
    }
  }
}
