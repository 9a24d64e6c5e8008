/** Sequence helpers: `filter`, `map`, `indexOf` and the counting facts the result summaries need. */
module Seqs {
  import opened Wrappers

  /** `s.filter(p)`: the elements satisfying `p`, in their original order. */
  function Filter<T(!new)>(p: T -> bool, s: seq<T>): (r: seq<T>)
    ensures |r| <= |s|
    ensures forall x :: x in r <==> x in s && p(x)
    ensures forall i :: 0 <= i < |r| ==> p(r[i])
  {
    if |s| == 0 then []
    else if p(s[0]) then [s[0]] + Filter(p, s[1..])
    else Filter(p, s[1..])
  }

  /** Filtering distributes over concatenation. */
  lemma {:induction false} FilterAppend<T(!new)>(p: T -> bool, a: seq<T>, b: seq<T>)
    ensures Filter(p, a + b) == Filter(p, a) + Filter(p, b)
    decreases |a|
  {
    if |a| > 0 {
      assert (a + b)[1..] == a[1..] + b;
      FilterAppend(p, a[1..], b);
    } else {
      assert a + b == b;
    }
  }

  /** An element and its negation split a sequence: the two filters' sizes add up. */
  lemma {:induction false} FilterPartition<T(!new)>(p: T -> bool, q: T -> bool, s: seq<T>)
    requires forall x :: q(x) == !p(x)
    ensures |Filter(p, s)| + |Filter(q, s)| == |s|
    decreases |s|
  {
    if |s| > 0 {
      FilterPartition(p, q, s[1..]);
    }
  }

  /** The three parts of a concatenation are found back at their offsets. */
  lemma Parts3<T>(a: seq<T>, b: seq<T>, c: seq<T>)
    ensures (a + b + c)[..|a|] == a
    ensures (a + b + c)[|a|..|a| + |b|] == b
    ensures (a + b + c)[|a| + |b|..] == c
  {
  }

  /** The last `n` elements of a concatenation are the last `n` of its second part. */
  lemma LastOfAppend<T>(a: seq<T>, b: seq<T>, n: nat)
    requires n <= |b|
    ensures (a + b)[|a + b| - n..] == b[|b| - n..]
  {
  }

  /** An index into the middle part of a concatenation. */
  lemma At3<T>(a: seq<T>, b: seq<T>, c: seq<T>, i: int)
    requires 0 <= i < |b|
    ensures (a + b + c)[|a| + i] == b[i]
  {
  }

  /** The middle three parts of a trail, found back inside a nesting of concatenations. */
  lemma TrailInside<T>(base: seq<T>, lead: seq<T>, p: seq<T>, m: seq<T>, w: seq<T>, t: seq<T>, rest: seq<T>, args: seq<T>)
    ensures var c := base + ((lead + (p + m + w + t)) + rest) + args;
      var k := |base| + |lead| + |p|;
      && |p| <= k && k + |m| + |w| <= |c|
      && c[k - |p|..k] == p && c[k..k + |m|] == m && c[k + |m|..k + |m| + |w|] == w
  {
    var c := base + ((lead + (p + m + w + t)) + rest) + args;
    var k := |base| + |lead| + |p|;
    assert c == (base + lead) + p + m + w + (t + rest + args);
  }

  /** Two neighbours in the middle part of a concatenation of three. */
  lemma PairAt3<T>(a: seq<T>, b: seq<T>, c: seq<T>, i: nat, x: T, y: T)
    requires i + 1 < |b| && b[i] == x && b[i + 1] == y
    ensures var s := a + b + c;
      |a| + i + 1 < |s| && s[|a| + i] == x && s[|a| + i + 1] == y
  {
  }

  /** Two neighbours of `e`, found back inside a nesting of concatenations. */
  lemma PairInside<T>(base: seq<T>, lead: seq<T>, e: seq<T>, trail: seq<T>, rest: seq<T>, args: seq<T>, i: nat)
    requires i + 1 < |e|
    ensures var c := base + ((lead + e + trail) + rest) + args;
      var k := |base| + |lead| + i;
      k + 1 < |c| && c[k] == e[i] && c[k + 1] == e[i + 1]
  {
  }

  /** `s.map(f)`. */
  function Map<A, B>(f: A -> B, s: seq<A>): (r: seq<B>)
    ensures |r| == |s|
    ensures forall i :: 0 <= i < |s| ==> r[i] == f(s[i])
  {
    seq(|s|, i requires 0 <= i < |s| => f(s[i]))
  }

  /** `s.flatMap(f)`: the pieces `f` gives each element, concatenated in order. */
  function FlatMap<A, B>(f: A -> seq<B>, s: seq<A>): seq<B>
    decreases |s|
  {
    if |s| == 0 then [] else f(s[0]) + FlatMap(f, s[1..])
  }

  /** Flat-mapping distributes over concatenation. */
  lemma {:induction false} FlatMapAppend<A, B>(f: A -> seq<B>, a: seq<A>, b: seq<A>)
    ensures FlatMap(f, a + b) == FlatMap(f, a) + FlatMap(f, b)
    decreases |a|
  {
    if |a| > 0 {
      assert (a + b)[0] == a[0] && (a + b)[1..] == a[1..] + b;
      FlatMapAppend(f, a[1..], b);
    } else {
      assert a + b == b;
    }
  }

  /** The flat map around one element: what comes before it, its own piece, what comes after. */
  lemma FlatMapAt<A, B>(f: A -> seq<B>, s: seq<A>, k: nat)
    requires k < |s|
    ensures FlatMap(f, s) == FlatMap(f, s[..k]) + f(s[k]) + FlatMap(f, s[k + 1..])
  {
    var pre, tail := s[..k], s[k..];
    assert s == pre + tail;
    FlatMapAppend(f, pre, tail);
    assert tail[0] == s[k] && tail[1..] == s[k + 1..];
    assert FlatMap(f, tail) == f(s[k]) + FlatMap(f, s[k + 1..]);
  }

  /** When every element gives at most one piece and every piece satisfies
      `p`, the flat map is no longer than the input and satisfies `p` throughout. */
  lemma {:induction false} FlatMapSmall<A, B>(f: A -> seq<B>, s: seq<A>, p: B -> bool)
    requires forall i :: 0 <= i < |s| ==> |f(s[i])| <= 1 && forall k :: 0 <= k < |f(s[i])| ==> p(f(s[i])[k])
    ensures |FlatMap(f, s)| <= |s|
    ensures forall k :: 0 <= k < |FlatMap(f, s)| ==> p(FlatMap(f, s)[k])
    decreases |s|
  {
    if |s| > 0 {
      assert forall i :: 1 <= i < |s| ==> s[1..][i - 1] == s[i];
      FlatMapSmall(f, s[1..], p);
      var e := f(s[0]);
      var rest := FlatMap(f, s[1..]);
      assert forall k :: |e| <= k < |e + rest| ==> (e + rest)[k] == rest[k - |e|];
    }
  }

  /** Filtering keeps a sequence whose every element passes. */
  lemma {:induction false} FilterAll<T(!new)>(p: T -> bool, s: seq<T>)
    requires forall i :: 0 <= i < |s| ==> p(s[i])
    ensures Filter(p, s) == s
    decreases |s|
  {
    if |s| > 0 {
      FilterAll(p, s[1..]);
      assert [s[0]] + s[1..] == s;
    }
  }

  /** `s.indexOf(x)`, with `None` standing for -1: the first position holding `x`. */
  function IndexOfElem<T(==)>(s: seq<T>, x: T): (r: Option<nat>)
    ensures r.Some? ==> r.value < |s| && s[r.value] == x && x !in s[..r.value]
    ensures r.None? <==> x !in s
    decreases |s|
  {
    if |s| == 0 then None
    else if s[0] == x then Some(0)
    else
      match IndexOfElem(s[1..], x)
      case None => None
      case Some(i) =>
        assert s[..i + 1] == [s[0]] + s[1..][..i];
        Some(i + 1)
  }
}
