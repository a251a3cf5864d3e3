/** Generic sequence helpers: mapping, filtering, and how they interact with multisets. */
module Seqs {
  import opened Wrappers

  function Map<A, B>(f: A -> B, s: seq<A>): (r: seq<B>)
    ensures |r| == |s|
    ensures forall i :: 0 <= i < |s| ==> r[i] == f(s[i])
  {
    if |s| == 0 then [] else [f(s[0])] + Map(f, s[1..])
  }

  /** The elements of `s` satisfying `p`, in their original order (a Python list comprehension with `if`). */
  function Filter<A>(p: A -> bool, s: seq<A>): (r: seq<A>)
    ensures |r| <= |s|
    ensures forall x :: x in r ==> x in s && p(x)
  {
    if |s| == 0 then [] else (if p(s[0]) then [s[0]] else []) + Filter(p, s[1..])
  }

  /** The index of the first element satisfying `p`, if any (a `for … if …: break` search). */
  function FirstWhere<A>(p: A -> bool, s: seq<A>): (i: Option<nat>)
    ensures i.Some? ==> i.value < |s| && p(s[i.value])
    ensures i.Some? ==> forall j :: 0 <= j < i.value ==> !p(s[j])
    ensures i.None? ==> forall j :: 0 <= j < |s| ==> !p(s[j])
  {
    if |s| == 0 then None
    else if p(s[0]) then Some(0)
    else
      match FirstWhere(p, s[1..])
      case None => None
      case Some(k) => Some(k + 1)
  }

  /**
   * Applies `f` to each element in order until it fails: the results before the first failure, and
   * that failure (a loop whose body may raise).
   */
  function MapUntilErr<A, B, E>(f: A -> Result<B, E>, s: seq<A>): (r: (seq<B>, Option<E>))
    ensures |r.0| <= |s|
    ensures forall i :: 0 <= i < |r.0| ==> f(s[i]) == Ok(r.0[i])
    ensures r.1.None? ==> |r.0| == |s|
    ensures r.1.Some? ==> |r.0| < |s| && f(s[|r.0|]) == Err(r.1.value)
  {
    if |s| == 0 then ([], None)
    else
      match f(s[0])
      case Err(e) => ([], Some(e))
      case Ok(b) =>
        var rest := MapUntilErr(f, s[1..]);
        ([b] + rest.0, rest.1)
  }

  /** The search stops at the first match, whatever follows it. */
  lemma FirstWhereAt<A>(p: A -> bool, skipped: seq<A>, x: A, rest: seq<A>)
    requires forall j :: 0 <= j < |skipped| ==> !p(skipped[j])
    requires p(x)
    ensures FirstWhere(p, skipped + [x] + rest) == Some(|skipped|)
  {
    var s := skipped + [x] + rest;
    assert s[|skipped|] == x;
    assert forall j :: 0 <= j < |skipped| ==> s[j] == skipped[j];
  }

  lemma {:induction false} MapAppend<A, B>(f: A -> B, a: seq<A>, b: seq<A>)
    ensures Map(f, a + b) == Map(f, a) + Map(f, b)
  {
    assert Map(f, a + b) == Map(f, a) + Map(f, b);
  }

  lemma {:induction false} FilterAppend<A>(p: A -> bool, a: seq<A>, b: seq<A>)
    ensures Filter(p, a + b) == Filter(p, a) + Filter(p, b)
    decreases |a|
  {
    if |a| == 0 {
      assert a + b == b;
    } else {
      assert (a + b)[1..] == a[1..] + b;
      FilterAppend(p, a[1..], b);
    }
  }

  /** Filtering by a predicate and by its complement splits a sequence: nothing is lost or duplicated. */
  lemma {:induction false} FilterPartition<A>(p: A -> bool, q: A -> bool, s: seq<A>)
    requires forall i :: 0 <= i < |s| ==> q(s[i]) == !p(s[i])
    ensures multiset(Filter(p, s)) + multiset(Filter(q, s)) == multiset(s)
    ensures |Filter(p, s)| + |Filter(q, s)| == |s|
    decreases |s|
  {
    if |s| > 0 {
      FilterPartition(p, q, s[1..]);
      assert s == [s[0]] + s[1..];
    }
  }

  /** Removing the element at `j` before or after mapping removes the same image. */
  lemma {:induction false} MapRemoveAt<A, B>(f: A -> B, b: seq<A>, j: nat)
    requires j < |b|
    ensures multiset(Map(f, b)) == multiset(Map(f, b[..j] + b[j + 1..])) + multiset{f(b[j])}
  {
    assert b == b[..j] + ([b[j]] + b[j + 1..]);
    MapAppend(f, b[..j], [b[j]] + b[j + 1..]);
    MapAppend(f, [b[j]], b[j + 1..]);
    MapAppend(f, b[..j], b[j + 1..]);
  }

  lemma {:induction false} MultisetRemoveAt<A>(b: seq<A>, j: nat)
    requires j < |b|
    ensures multiset(b) == multiset(b[..j] + b[j + 1..]) + multiset{b[j]}
  {
    assert b == b[..j] + [b[j]] + b[j + 1..];
  }

  lemma MultisetCancel<A>(m: multiset<A>, n: multiset<A>, x: A)
    requires m + multiset{x} == n + multiset{x}
    ensures m == n
  {
    forall y
      ensures m[y] == n[y]
    {
      assert (m + multiset{x})[y] == (n + multiset{x})[y];
    }
  }

  /**
   * `a` is a subsequence of `b`: `b` with some of its elements left out, the rest in their order.
   * A match of `a[0]` against `b[0]` is optional, so the definition admits every way of choosing.
   */
  predicate IsSubseq<A(==)>(a: seq<A>, b: seq<A>)
    decreases |b|
  {
    if |b| == 0 then |a| == 0
    else (|a| > 0 && a[0] == b[0] && IsSubseq(a[1..], b[1..])) || IsSubseq(a, b[1..])
  }

  lemma {:induction false} SubseqEmpty<A>(b: seq<A>)
    ensures IsSubseq([], b)
    decreases |b|
  {
    if |b| > 0 {
      SubseqEmpty(b[1..]);
    }
  }

  lemma {:induction false} SubseqRefl<A>(a: seq<A>)
    ensures IsSubseq(a, a)
    decreases |a|
  {
    if |a| > 0 {
      SubseqRefl(a[1..]);
    }
  }

  /** Subsequences concatenate. */
  lemma {:induction false} SubseqAppend<A>(a: seq<A>, b: seq<A>, c: seq<A>, d: seq<A>)
    requires IsSubseq(a, b) && IsSubseq(c, d)
    ensures IsSubseq(a + c, b + d)
    decreases |b|
  {
    if |b| == 0 {
      assert a + c == c && b + d == d;
    } else if |a| > 0 && a[0] == b[0] && IsSubseq(a[1..], b[1..]) {
      SubseqAppend(a[1..], b[1..], c, d);
      assert (a + c)[1..] == a[1..] + c;
      assert (b + d)[1..] == b[1..] + d;
    } else {
      SubseqAppend(a, b[1..], c, d);
      assert (b + d)[1..] == b[1..] + d;
    }
  }

  /** A subsequence takes each value at most as often as the whole does. */
  lemma {:induction false} SubseqMultiset<A>(a: seq<A>, b: seq<A>)
    requires IsSubseq(a, b)
    ensures multiset(a) <= multiset(b)
    ensures |a| <= |b|
    decreases |b|
  {
    if |b| > 0 {
      assert b == [b[0]] + b[1..];
      if |a| > 0 && a[0] == b[0] && IsSubseq(a[1..], b[1..]) {
        SubseqMultiset(a[1..], b[1..]);
        assert a == [a[0]] + a[1..];
      } else {
        SubseqMultiset(a, b[1..]);
      }
    }
  }

  /** The image of a member is a member of the image. */
  lemma {:induction false} MapMember<A, B>(f: A -> B, s: seq<A>, x: A)
    requires x in s
    ensures f(x) in Map(f, s)
    decreases |s|
  {
    if s[0] != x {
      MapMember(f, s[1..], x);
    }
  }

  /** An element that satisfies the predicate survives the filter. */
  lemma {:induction false} FilterKeeps<A>(p: A -> bool, s: seq<A>, i: nat)
    requires i < |s| && p(s[i])
    ensures s[i] in Filter(p, s)
    decreases |s|
  {
    if i > 0 {
      FilterKeeps(p, s[1..], i - 1);
    }
  }

  /** Filtering keeps the surviving elements in their order. */
  lemma {:induction false} FilterSubseq<A>(p: A -> bool, s: seq<A>)
    ensures IsSubseq(Filter(p, s), s)
    decreases |s|
  {
    if |s| > 0 {
      FilterSubseq(p, s[1..]);
      if p(s[0]) {
        assert ([s[0]] + Filter(p, s[1..]))[1..] == Filter(p, s[1..]);
      } else {
        assert [] + Filter(p, s[1..]) == Filter(p, s[1..]);
      }
    }
  }

  /** Mapping a function over two rearrangements of the same elements gives rearrangements of the same images. */
  lemma {:induction false} MapPreservesMultiset<A, B>(f: A -> B, a: seq<A>, b: seq<A>)
    requires multiset(a) == multiset(b)
    ensures multiset(Map(f, a)) == multiset(Map(f, b))
    decreases |a|
  {
    if |a| == 0 {
      assert |multiset(b)| == 0;
      assert b == [];
    } else {
      assert a[0] in multiset(b);
      var j :| 0 <= j < |b| && b[j] == a[0];
      RemoveMatching(a, b, j);
      MapPreservesMultiset(f, a[1..], b[..j] + b[j + 1..]);
      MapRecombine(f, a, b, j);
    }
  }

  /** Taking the first element of `a` out of both sides, at position `j` of `b`, keeps them rearrangements of each other. */
  lemma RemoveMatching<A>(a: seq<A>, b: seq<A>, j: nat)
    requires multiset(a) == multiset(b)
    requires |a| > 0 && j < |b| && b[j] == a[0]
    ensures multiset(a[1..]) == multiset(b[..j] + b[j + 1..])
  {
    MultisetRemoveAt(b, j);
    MultisetRemoveAt(a, 0);
    assert a[..0] + a[1..] == a[1..];
    MultisetCancel(multiset(a[1..]), multiset(b[..j] + b[j + 1..]), a[0]);
  }

  /** Putting the image of the removed element back on both sides keeps the images rearrangements of each other. */
  lemma MapRecombine<A, B>(f: A -> B, a: seq<A>, b: seq<A>, j: nat)
    requires |a| > 0 && j < |b| && b[j] == a[0]
    requires multiset(Map(f, a[1..])) == multiset(Map(f, b[..j] + b[j + 1..]))
    ensures multiset(Map(f, a)) == multiset(Map(f, b))
  {
    MapRemoveAt(f, b, j);
    MapRemoveAt(f, a, 0);
    assert a[..0] + a[1..] == a[1..];
  }

}
