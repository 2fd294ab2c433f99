/**
 * The few Python `str` and `dict` operations the decoder relies on, with Python's
 * own semantics: `str.replace` (left to right, non-overlapping), `str.split` on one
 * character, `str.split(c, 1)`, `str.startswith`, slices, `str(int)` and `dict.get`.
 */
module PyStr {

  /** `s.startswith(p)` */
  predicate StartsWith(s: string, p: string)
  {
    |p| <= |s| && s[..|p|] == p
  }

  /** `s[n:]` for a non-negative `n`: empty when `n` is past the end. */
  function Drop(s: string, n: nat): string
  {
    if n <= |s| then s[n..] else []
  }

  /** `s[1:-1]`: the string without its first and its last character. */
  function Inner(s: string): string
  {
    if |s| >= 2 then s[1..|s| - 1] else []
  }

  lemma InnerBracketed(x: string)
    ensures Inner("[" + x + "]") == x
  {
    var s := "[" + x + "]";
    assert s[1..|s| - 1] == x;
  }

  /** `m.get(k, default)` */
  function Get(m: map<string, string>, k: string, default: string): string
  {
    if k in m then m[k] else default
  }

  /** `s.replace(pat, rep)`: scans left to right and replaces non-overlapping occurrences. */
  function Replace(s: string, pat: string, rep: string): string
    requires |pat| > 0
    decreases |s|
  {
    if |s| < |pat| then s
    else if s[..|pat|] == pat then rep + Replace(s[|pat|..], pat, rep)
    else [s[0]] + Replace(s[1..], pat, rep)
  }

  /** `sep.join(xs)` */
  function Join(xs: seq<string>, sep: string): string
  {
    if |xs| == 0 then []
    else if |xs| == 1 then xs[0]
    else xs[0] + sep + Join(xs[1..], sep)
  }

  /** `s.split(d)`: never empty, no part holds `d`, and joining the parts with `d` gives `s` back. */
  function Split(s: string, d: char): (parts: seq<string>)
    ensures |parts| >= 1
    ensures forall i :: 0 <= i < |parts| ==> d !in parts[i]
    ensures Join(parts, [d]) == s
    decreases |s|
  {
    if s == [] then [[]]
    else
      var rest := Split(s[1..], d);
      if s[0] == d then
        assert s == [d] + s[1..];
        [[]] + rest
      else
        var first := [s[0]] + rest[0];
        if |rest| == 1 then
          [first]
        else
          assert Join(rest, [d]) == rest[0] + [d] + Join(rest[1..], [d]);
          assert s == [s[0]] + s[1..];
          [first] + rest[1..]
  }

  /** The first index of `c` in `s`. */
  function FirstIndex(s: string, c: char): (i: nat)
    requires c in s
    ensures i < |s| && s[i] == c && c !in s[..i]
  {
    if s[0] == c then 0
    else
      assert c in s[1..] by { assert s == [s[0]] + s[1..]; }
      var j := FirstIndex(s[1..], c);
      assert s[..j + 1] == [s[0]] + s[1..][..j];
      j + 1
  }

  /** `key, value = s.split(c, 1)`: the text before the first `c` and the text after it. */
  function SplitOnce(s: string, c: char): (kv: (string, string))
    requires c in s
    ensures s == kv.0 + [c] + kv.1 && c !in kv.0
  {
    var i := FirstIndex(s, c);
    assert s == s[..i] + [c] + s[i + 1..];
    (s[..i], s[i + 1..])
  }

  /** The value of a string of decimal digits, most significant first. */
  function DigitsValue(s: string): int
  {
    if s == [] then 0 else 10 * DigitsValue(s[..|s| - 1]) + (s[|s| - 1] as int - '0' as int)
  }

  /** `int(s)` for what `str(n)` produces: a leading minus sign negates the digits that follow. */
  function DecimalValue(s: string): int
  {
    if |s| > 0 && s[0] == '-' then -DigitsValue(s[1..]) else DigitsValue(s)
  }

  /** `str(n)` for a natural number: its decimal digits, which read back as `n`. */
  function NatToString(n: nat): (r: string)
    ensures |r| >= 1
    ensures forall i :: 0 <= i < |r| ==> '0' <= r[i] <= '9'
    ensures DigitsValue(r) == n
  {
    var digit := ['0' + (n % 10) as char];
    if n < 10 then
      assert digit[..0] == [];
      digit
    else
      var r := NatToString(n / 10) + digit;
      assert r[..|r| - 1] == NatToString(n / 10);
      r
  }

  /**
   * `str(n)` for an integer: a minus sign before the digits of a negative number.
   * Only digits and the sign occur, and the text reads back as `n`, so distinct
   * numbers give distinct texts.
   */
  function IntToString(n: int): (r: string)
    ensures forall i :: 0 <= i < |r| ==> r[i] == '-' || '0' <= r[i] <= '9'
    ensures DecimalValue(r) == n
  {
    if n < 0 then
      var r := "-" + NatToString(-n);
      assert r[1..] == NatToString(-n);
      r
    else NatToString(n)
  }

  // ---------------------------------------------------------------------------
  // Facts about Replace and Split

  /** Text in which the pattern's first character never occurs passes through unchanged. */
  lemma {:induction false} ReplaceSkip(y: string, rest: string, pat: string, rep: string)
    requires |pat| > 0 && pat[0] !in y
    ensures Replace(y + rest, pat, rep) == y + Replace(rest, pat, rep)
    decreases |y|
  {
    if y != [] {
      var s := y + rest;
      assert s[1..] == y[1..] + rest;
      ReplaceSkip(y[1..], rest, pat, rep);
      if |s| < |pat| {
        assert Replace(rest, pat, rep) == rest;
      } else {
        assert s[..|pat|][0] == y[0] != pat[0];
        assert Replace(s, pat, rep) == [y[0]] + (y[1..] + Replace(rest, pat, rep));
        assert y == [y[0]] + y[1..];
      }
    } else {
      assert y + rest == rest;
    }
  }

  /** Text in which the pattern's first character never occurs is left as it is. */
  lemma ReplaceAbsent(s: string, pat: string, rep: string)
    requires |pat| > 0 && pat[0] !in s
    ensures Replace(s, pat, rep) == s
  {
    ReplaceSkip(s, [], pat, rep);
    assert s + [] == s;
  }

  /** A leading occurrence of the pattern is replaced, and scanning resumes after it. */
  lemma ReplaceMatch(pat: string, rest: string, rep: string)
    requires |pat| > 0
    ensures Replace(pat + rest, pat, rep) == rep + Replace(rest, pat, rep)
  {
    var s := pat + rest;
    assert s[..|pat|] == pat;
    assert s[|pat|..] == rest;
  }

  /** Replacing a single character distributes over concatenation. */
  lemma {:induction false} ReplaceCharConcat(a: string, b: string, c: char, rep: string)
    ensures Replace(a + b, [c], rep) == Replace(a, [c], rep) + Replace(b, [c], rep)
    decreases |a|
  {
    if a != [] {
      var s := a + b;
      assert s[..1] == a[..1] == [a[0]];
      assert s[1..] == a[1..] + b;
      ReplaceCharConcat(a[1..], b, c, rep);
      var head := if a[0] == c then rep else [a[0]];
      assert Replace(s, [c], rep) == head + Replace(a[1..] + b, [c], rep);
      assert Replace(a, [c], rep) == head + Replace(a[1..], [c], rep);
    } else {
      assert a + b == b;
    }
  }

  /** Splitting at a leading separator-free part. */
  lemma {:induction false} SplitCons(a: string, b: string, d: char)
    requires d !in a
    ensures Split(a + [d] + b, d) == [a] + Split(b, d)
    decreases |a|
  {
    var s := a + [d] + b;
    if a == [] {
      assert s[0] == d && s[1..] == b;
    } else {
      assert s[0] == a[0] != d;
      assert s[1..] == a[1..] + [d] + b;
      SplitCons(a[1..], b, d);
      assert a == [a[0]] + a[1..];
    }
  }

  /** A string without the separator is a single part. */
  lemma {:induction false} SplitNoSep(a: string, d: char)
    requires d !in a
    ensures Split(a, d) == [a]
    decreases |a|
  {
    if a != [] {
      SplitNoSep(a[1..], d);
      assert a == [a[0]] + a[1..];
    }
  }

  /** The first part of a split is the longest separator-free prefix. */
  lemma SplitFirst(s: string, d: char)
    ensures var p := Split(s, d)[0];
      |p| <= |s| && s[..|p|] == p && (|p| == |s| || s[|p|] == d)
  {
    var parts := Split(s, d);
    if |parts| > 1 {
      assert s == parts[0] + [d] + Join(parts[1..], [d]);
    }
  }

  /** `s.split(c, 1)` on a string whose first `c` is at index `i`. */
  lemma SplitOnceAt(s: string, c: char, i: nat)
    requires i < |s| && s[i] == c && c !in s[..i]
    ensures c in s && SplitOnce(s, c) == (s[..i], s[i + 1..])
  {
    var kv := SplitOnce(s, c);
    assert s[..|kv.0|] == kv.0;
  }
}
