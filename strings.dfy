/** The string splitting that the agent's parsers rely on: Rust's `splitn(2, c)` and `split(c)`. */
module Strings {
  import opened Wrappers

  /** Position of the first `c` in `s`, or `|s|` when `s` has none. */
  function IndexOf(s: string, c: char): (i: nat)
    ensures i <= |s|
    ensures i < |s| ==> s[i] == c
    ensures forall k :: 0 <= k < i ==> s[k] != c
  {
    if s == [] then 0
    else if s[0] == c then 0
    else 1 + IndexOf(s[1..], c)
  }

  /** `IndexOf` finds nothing exactly when there is no `c`. */
  lemma IndexOfNone(s: string, c: char)
    ensures IndexOf(s, c) == |s| <==> c !in s
  {
    var i := IndexOf(s, c);
    if c in s {
      var k :| 0 <= k < |s| && s[k] == c;
      assert i <= k;
    }
  }

  /** A prefix of `s` that stops before the first `c` has no `c`. */
  lemma BeforeIndexOf(s: string, c: char)
    ensures c !in s[..IndexOf(s, c)]
  {
    var i := IndexOf(s, c);
    forall k | 0 <= k < i ensures s[..i][k] != c {
    }
  }

  /** `s.splitn(2, c)` read as a pair: the text before the first `c` and everything after it;
      `None` when there is no second piece. */
  function SplitOnce(s: string, c: char): (r: Option<(string, string)>)
    ensures r.None? <==> c !in s
    ensures r.Some? ==> r.value.0 + [c] + r.value.1 == s && c !in r.value.0
  {
    var i := IndexOf(s, c);
    IndexOfNone(s, c);
    BeforeIndexOf(s, c);
    if i == |s| then None
    else
      assert s[..i] + [c] + s[i + 1..] == s;
      Some((s[..i], s[i + 1..]))
  }

  /** `s.split(c)`: the pieces between the occurrences of `c`. Like Rust's iterator it always yields
      at least one piece, so the empty string splits into `[""]`. */
  function Split(s: string, c: char): (r: seq<string>)
    ensures |r| >= 1
    decreases |s|
  {
    var i := IndexOf(s, c);
    if i == |s| then [s] else [s[..i]] + Split(s[i + 1..], c)
  }

  /** No piece of `split(c)` contains `c`. */
  lemma {:induction false} SplitPieces(s: string, c: char)
    ensures forall k :: 0 <= k < |Split(s, c)| ==> c !in Split(s, c)[k]
    decreases |s|
  {
    var i := IndexOf(s, c);
    BeforeIndexOf(s, c);
    IndexOfNone(s, c);
    if i < |s| {
      var rest := s[i + 1..];
      SplitPieces(rest, c);
      var parts := Split(s, c);
      assert parts == [s[..i]] + Split(rest, c);
      forall k | 0 <= k < |parts| ensures c !in parts[k] {
        if k > 0 { assert parts[k] == Split(rest, c)[k - 1]; }
      }
    }
  }

  /** The pieces separated by `c`; the inverse of `Split`. */
  function Join(parts: seq<string>, c: char): string
  {
    if parts == [] then ""
    else if |parts| == 1 then parts[0]
    else parts[0] + [c] + Join(parts[1..], c)
  }

  /** Splitting loses nothing: joining the pieces with the separator gives the input back. */
  lemma {:induction false} JoinSplit(s: string, c: char)
    ensures Join(Split(s, c), c) == s
    decreases |s|
  {
    var i := IndexOf(s, c);
    if i < |s| {
      var rest := s[i + 1..];
      var tail := Split(rest, c);
      var parts := Split(s, c);
      assert parts == [s[..i]] + tail;
      assert parts[0] == s[..i] && parts[1..] == tail;
      assert Join(parts, c) == s[..i] + [c] + Join(tail, c);
      JoinSplit(rest, c);
      assert s[..i] + [c] + rest == s;
    }
  }

  /** A string without `c` splits into itself alone. */
  lemma SplitWithout(s: string, c: char)
    requires c !in s
    ensures Split(s, c) == [s]
  {
    IndexOfNone(s, c);
  }

  /** When `a` has no `c`, the first `c` of `a + b` is the first `c` of `b`, shifted by `|a|`. */
  lemma {:induction false} IndexOfAfter(a: string, c: char, b: string)
    requires c !in a
    ensures IndexOf(a + b, c) == |a| + IndexOf(b, c)
  {
    if a != [] {
      assert (a + b)[0] == a[0];
      assert (a + b)[1..] == a[1..] + b;
      assert a[0] in a;
      assert c !in a[1..] by {
        forall k | 0 <= k < |a| - 1 ensures a[1..][k] != c { assert a[1..][k] == a[k + 1]; }
      }
      IndexOfAfter(a[1..], c, b);
    } else {
      assert a + b == b;
    }
  }

  /** The first `c` of `k + [c] + v`, where `k` has none, is right after `k`. */
  lemma IndexOfSeparator(k: string, c: char, v: string)
    requires c !in k
    ensures IndexOf(k + [c] + v, c) == |k|
  {
    IndexOfAfter(k, c, [c] + v);
    assert k + [c] + v == k + ([c] + v);
  }

  /** Splitting `a + [c] + b` where `a` has no `c` gives `a` first, then the pieces of `b`. */
  lemma SplitCons(a: string, c: char, b: string)
    requires c !in a
    ensures Split(a + [c] + b, c) == [a] + Split(b, c)
  {
    var s := a + [c] + b;
    IndexOfSeparator(a, c, b);
    assert s[..|a|] == a;
    assert s[|a| + 1..] == b;
  }

  /** `splitn(2, c)` of `k + [c] + v` with `k` free of `c` gives back `k` and `v`, even when `v`
      itself contains `c`. */
  lemma SplitOnceAt(k: string, c: char, v: string)
    requires c !in k
    ensures SplitOnce(k + [c] + v, c) == Some((k, v))
  {
    var s := k + [c] + v;
    IndexOfSeparator(k, c, v);
    assert s[..|k|] == k;
    assert s[|k| + 1..] == v;
  }

  /** One unfolding of `Split` at the first `c`. */
  lemma SplitAt(s: string, c: char)
    requires IndexOf(s, c) < |s|
    ensures Split(s, c) == [s[..IndexOf(s, c)]] + Split(s[IndexOf(s, c) + 1..], c)
  {
  }

  lemma AppendAssoc<T>(x: seq<T>, y: seq<T>, z: seq<T>)
    ensures x + (y + z) == (x + y) + z
  {
  }

  /** Cutting `a` at a `c` in position `i` and regrouping the parts of `a + [c] + b`. */
  lemma Regroup(a: string, i: nat, c: char, b: string)
    requires i < |a| && a[i] == c
    ensures a + [c] + b == a[..i] + [c] + (a[i + 1..] + [c] + b)
  {
    assert a == a[..i] + [c] + a[i + 1..];
  }

  /** Appending `[c] + b`, where `b` has no `c`, adds `b` as one last piece. */
  lemma {:induction false} SplitSnoc(a: string, c: char, b: string)
    requires c !in b
    ensures Split(a + [c] + b, c) == Split(a, c) + [b]
    decreases |a|
  {
    var i := IndexOf(a, c);
    IndexOfNone(a, c);
    SplitWithout(b, c);
    if i == |a| {
      SplitWithout(a, c);
      SplitCons(a, c, b);
    } else {
      var head, tail := a[..i], a[i + 1..];
      var rest := tail + [c] + b;
      BeforeIndexOf(a, c);
      Regroup(a, i, c, b);
      SplitCons(head, c, rest);
      SplitSnoc(tail, c, b);
      SplitAt(a, c);
      AppendAssoc([head], Split(tail, c), [b]);
    }
  }
}
