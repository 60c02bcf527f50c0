/** The parts of Go's `strings` package that the loader relies on:
    `strings.Split` with a one-character separator and ASCII `strings.ToLower`. */
module Strings {

  /** Number of occurrences of `c` in `s`. */
  function Count(s: string, c: char): (n: nat)
    ensures n == 0 <==> c !in s
    ensures n <= |s|
  {
    if s == [] then 0
    else (if s[0] == c then 1 else 0) + Count(s[1..], c)
  }

  /** The parts glued back together, `sep` between each two (the inverse of Split). */
  function Join(parts: seq<string>, sep: char): string
    requires |parts| >= 1
  {
    if |parts| == 1 then parts[0] else parts[0] + [sep] + Join(parts[1..], sep)
  }

  /** `strings.Split(s, sep)`: the maximal runs of `s` between occurrences of `sep`.
      There is always one more part than there are separators, so the empty string
      splits into one empty part. */
  function Split(s: string, sep: char): (parts: seq<string>)
    ensures |parts| == Count(s, sep) + 1
    ensures forall i :: 0 <= i < |parts| ==> sep !in parts[i]
  {
    if s == [] then [[]]
    else
      var rest := Split(s[1..], sep);
      if s[0] == sep then [[]] + rest
      else [[s[0]] + rest[0]] + rest[1..]
  }

  /** Join undoes Split: no character of the input is lost or added. */
  lemma {:induction false} JoinSplit(s: string, sep: char)
    ensures Join(Split(s, sep), sep) == s
  {
    if s != [] {
      var rest := Split(s[1..], sep);
      JoinSplit(s[1..], sep);
      if s[0] == sep {
        assert ([[]] + rest)[1..] == rest;
      } else {
        var parts := [[s[0]] + rest[0]] + rest[1..];
        assert parts[1..] == rest[1..];
        if |rest| > 1 {
          assert Join(rest, sep) == rest[0] + [sep] + Join(rest[1..], sep);
        }
        assert s == [s[0]] + s[1..];
      }
    }
  }

  /** Splitting a string that starts with a separator-free run `p`. */
  lemma {:induction false} SplitAfterRun(p: string, t: string, sep: char)
    requires sep !in p
    ensures Split(p + t, sep) == [p + Split(t, sep)[0]] + Split(t, sep)[1..]
  {
    if p == [] {
      var parts := Split(t, sep);
      assert p + t == t;
      assert p + parts[0] == parts[0];
      assert parts == [parts[0]] + parts[1..];
    } else {
      var s := p + t;
      var inner := p[1..] + t;
      assert s[0] == p[0] && s[0] != sep;
      assert s[1..] == inner;
      SplitAfterRun(p[1..], t, sep);
      var rest := Split(inner, sep);
      assert Split(s, sep) == [[s[0]] + rest[0]] + rest[1..];
      assert [p[0]] + (p[1..] + Split(t, sep)[0]) == p + Split(t, sep)[0];
    }
  }

  /** Split undoes Join when no part contains the separator. */
  lemma {:induction false} SplitJoin(parts: seq<string>, sep: char)
    requires |parts| >= 1
    requires forall i :: 0 <= i < |parts| ==> sep !in parts[i]
    ensures Split(Join(parts, sep), sep) == parts
  {
    if |parts| == 1 {
      SplitAfterRun(parts[0], [], sep);
      assert parts[0] + [] == parts[0];
    } else {
      var tail := Join(parts[1..], sep);
      SplitJoin(parts[1..], sep);
      assert ([sep] + tail)[1..] == tail;
      SplitAfterRun(parts[0], [sep] + tail, sep);
      assert parts[0] + [sep] + tail == parts[0] + ([sep] + tail);
      assert parts[0] + [] == parts[0];
      assert parts == [parts[0]] + parts[1..];
    }
  }

  /** `g` is the text of `s` before the first `sep`, and `v` the text between the
      first and the second `sep` (or the end of `s`). */
  ghost predicate FirstTwoFields(s: string, sep: char, g: string, v: string)
  {
    && sep !in g && sep !in v
    && |g| + 1 + |v| <= |s|
    && s[..|g|] == g
    && s[|g|] == sep
    && s[|g| + 1..|g| + 1 + |v|] == v
    && (|g| + 1 + |v| == |s| || s[|g| + 1 + |v|] == sep)
  }

  /** The first two parts of a split are the first two fields of the string;
      whatever follows the second separator is ignored by anyone who reads only them. */
  lemma {:induction false} SplitFirstTwo(s: string, sep: char)
    requires sep in s
    ensures |Split(s, sep)| >= 2
    ensures FirstTwoFields(s, sep, Split(s, sep)[0], Split(s, sep)[1])
  {
    var parts := Split(s, sep);
    JoinSplit(s, sep);
    var g, v := parts[0], parts[1];
    var tail := if |parts| == 2 then [] else [sep] + Join(parts[2..], sep);
    assert Join(parts[1..], sep) == v + tail by {
      if |parts| > 2 {
        assert parts[1..][1..] == parts[2..];
      }
    }
    assert s == g + [sep] + (v + tail);
    assert s[..|g|] == g;
    assert s[|g| + 1..] == v + tail;
    assert s[|g| + 1..|g| + 1 + |v|] == (v + tail)[..|v|];
  }

  /** ASCII lower-casing of one character; everything else is left alone. */
  function LowerChar(c: char): char
  {
    if 'A' <= c <= 'Z' then (c as int - 'A' as int + 'a' as int) as char else c
  }

  /** `strings.ToLower`, restricted to ASCII. */
  function ToLower(s: string): (r: string)
    ensures |r| == |s|
    ensures forall i :: 0 <= i < |s| ==> !('A' <= r[i] <= 'Z')
    ensures forall i :: 0 <= i < |s| && !('A' <= s[i] <= 'Z') ==> r[i] == s[i]
    ensures forall i :: 0 <= i < |s| && 'A' <= s[i] <= 'Z' ==> r[i] as int == s[i] as int + 32
  {
    seq(|s|, i requires 0 <= i < |s| => LowerChar(s[i]))
  }
}
