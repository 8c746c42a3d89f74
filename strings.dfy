/** The few JavaScript string operations the result components use:
    `Array.prototype.join`, `String.prototype.startsWith` and
    `String.prototype.replace` with a string pattern. */
module Strings {

  /** `xs.join(sep)`: the elements with `sep` between neighbours. An empty
      list gives "", and otherwise the result begins with the first element. */
  function Join(xs: seq<string>, sep: string): (r: string)
    ensures |xs| == 0 ==> r == ""
    ensures |xs| > 0 ==> |xs[0]| <= |r| && r[..|xs[0]|] == xs[0]
  {
    if |xs| == 0 then ""
    else if |xs| == 1 then xs[0]
    else xs[0] + sep + Join(xs[1..], sep)
  }

  /** Where element `i` starts inside `Join(xs, sep)`: the lengths of the
      elements before it, each followed by one separator. */
  function Offset(xs: seq<string>, sep: string, i: nat): nat
    requires i <= |xs|
  {
    if i == 0 then 0 else |xs[0]| + |sep| + Offset(xs[1..], sep, i - 1)
  }

  /** The next element starts one element and one separator later. */
  lemma {:induction false} OffsetNext(xs: seq<string>, sep: string, i: nat)
    requires i < |xs|
    ensures Offset(xs, sep, i + 1) == Offset(xs, sep, i) + |xs[i]| + |sep|
  {
    if i > 0 {
      OffsetNext(xs[1..], sep, i - 1);
    }
  }

  /** A slice lying past the first part of a concatenation is a slice of the
      second part. */
  lemma SliceRight(a: string, b: string, lo: nat, hi: nat)
    requires lo <= hi <= |b|
    ensures (a + b)[|a| + lo..|a| + hi] == b[lo..hi]
  {
  }

  /** Element `i` of `xs` sits at `Offset(xs, sep, i)` inside the joined
      string. */
  lemma {:induction false} JoinAt(xs: seq<string>, sep: string, i: nat)
    requires i < |xs|
    ensures Offset(xs, sep, i) + |xs[i]| <= |Join(xs, sep)|
    ensures Join(xs, sep)[Offset(xs, sep, i)..Offset(xs, sep, i) + |xs[i]|] == xs[i]
  {
    if |xs| == 1 {
    } else if i == 0 {
      assert Join(xs, sep) == xs[0] + (sep + Join(xs[1..], sep));
    } else {
      var rest := Join(xs[1..], sep);
      assert Join(xs, sep) == (xs[0] + sep) + rest;
      JoinAt(xs[1..], sep, i - 1);
      var o := Offset(xs[1..], sep, i - 1);
      SliceRight(xs[0] + sep, rest, o, o + |xs[i]|);
    }
  }

  /** A separator follows every element but the last. */
  lemma {:induction false} JoinSeparatorAfter(xs: seq<string>, sep: string, i: nat)
    requires i + 1 < |xs|
    ensures Offset(xs, sep, i) + |xs[i]| + |sep| <= |Join(xs, sep)|
    ensures Join(xs, sep)[Offset(xs, sep, i) + |xs[i]|..Offset(xs, sep, i) + |xs[i]| + |sep|] == sep
  {
    var rest := Join(xs[1..], sep);
    if i == 0 {
      assert Join(xs, sep) == (xs[0] + sep) + rest;
    } else {
      assert Join(xs, sep) == (xs[0] + sep) + rest;
      JoinSeparatorAfter(xs[1..], sep, i - 1);
      var o := Offset(xs[1..], sep, i - 1) + |xs[i]|;
      SliceRight(xs[0] + sep, rest, o, o + |sep|);
    }
  }

  /** `JoinAt` inside a string `s` that is `head` followed by the joined
      text: element `i` sits at `start`. */
  lemma PrefixedJoinAt(s: string, head: string, xs: seq<string>, sep: string, i: nat, start: nat)
    requires i < |xs|
    requires s == head + Join(xs, sep)
    requires start == |head| + Offset(xs, sep, i)
    ensures start + |xs[i]| <= |s| && s[start..start + |xs[i]|] == xs[i]
  {
    JoinAt(xs, sep, i);
    var o := Offset(xs, sep, i);
    SliceRight(head, Join(xs, sep), o, o + |xs[i]|);
  }

  /** `JoinSeparatorAfter` inside a string `s` that is `head` followed by the
      joined text: the separator after element `i` sits at `end`. */
  lemma PrefixedSeparatorAfter(s: string, head: string, xs: seq<string>, sep: string, i: nat, end: nat)
    requires i + 1 < |xs|
    requires s == head + Join(xs, sep)
    requires end == |head| + Offset(xs, sep, i) + |xs[i]|
    ensures end + |sep| <= |s| && s[end..end + |sep|] == sep
  {
    JoinSeparatorAfter(xs, sep, i);
    var o := Offset(xs, sep, i) + |xs[i]|;
    SliceRight(head, Join(xs, sep), o, o + |sep|);
  }

  /** Nothing follows the last element. */
  lemma {:induction false} JoinLength(xs: seq<string>, sep: string)
    requires |xs| > 0
    ensures Offset(xs, sep, |xs| - 1) + |xs[|xs| - 1]| == |Join(xs, sep)|
  {
    if |xs| > 1 {
      var n := |xs| - 1;
      JoinLength(xs[1..], sep);
      assert |Join(xs, sep)| == |xs[0]| + |sep| + |Join(xs[1..], sep)|;
      assert Offset(xs, sep, n) == |xs[0]| + |sep| + Offset(xs[1..], sep, n - 1);
      assert xs[1..][n - 1] == xs[n];
    }
  }

  /** `s.startsWith(prefix)`: `s` is `prefix` followed by the rest of `s`. */
  predicate StartsWith(s: string, prefix: string): (b: bool)
    ensures b <==> |prefix| <= |s| && s == prefix + s[|prefix|..]
  {
    |prefix| <= |s| && s[..|prefix|] == prefix
  }

  /** `s.replace(pattern, rep)` with a string pattern: only the FIRST
      occurrence is replaced; without an occurrence `s` is returned as is.
      `rep` is inserted literally: JavaScript's `$&`, `$1`, ... replacement
      patterns are not expanded (every use here replaces with ""). */
  function ReplaceFirst(s: string, pattern: string, rep: string): (r: string)
    ensures StartsWith(s, pattern) ==> r == rep + s[|pattern|..]
    ensures (forall i :: 0 <= i <= |s| ==> !StartsWith(s[i..], pattern)) ==> r == s
  {
    if StartsWith(s, pattern) then
      assert s[0..] == s;
      rep + s[|pattern|..]
    else if |s| == 0 then s
    else [s[0]] + ReplaceFirst(s[1..], pattern, rep)
  }

  /** When `s` starts with the pattern, the first occurrence is the prefix, so
      removing it leaves exactly the rest of `s`. */
  lemma RemovePrefix(prefix: string, rest: string)
    ensures ReplaceFirst(prefix + rest, prefix, "") == rest
  {
    assert (prefix + rest)[..|prefix|] == prefix;
    assert (prefix + rest)[|prefix|..] == rest;
  }
}
