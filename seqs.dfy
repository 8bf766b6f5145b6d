/** Generic sequence operations standing for JavaScript's array `filter`,
    `slice(0, n)`, `map` and `flatMap`, with the facts the rest of the model
    relies on. */
module Seqs {

  function Min(a: int, b: int): int { if a <= b then a else b }

  function Max(a: int, b: int): int { if a <= b then b else a }

  /** `s.slice(0, n)`: the first `n` elements, or all of `s` when it is shorter. */
  function Take<T>(s: seq<T>, n: nat): (r: seq<T>)
    ensures |r| == Min(n, |s|)
    ensures r <= s
    ensures |s| <= n ==> r == s
  {
    s[..Min(n, |s|)]
  }

  /** `r` is `s` with some elements left out and the rest kept in order. */
  predicate IsSubsequence<T(==)>(r: seq<T>, s: seq<T>)
    decreases |s|
  {
    r == [] ||
    (s != [] && (IsSubsequence(r, s[1..]) || (r[0] == s[0] && IsSubsequence(r[1..], s[1..]))))
  }

  /** `s.filter(p)`: the elements of `s` that satisfy `p`, in order, duplicates kept. */
  function Filter<T(==,!new)>(s: seq<T>, p: T -> bool): (r: seq<T>)
    ensures |r| <= |s|
    ensures forall x :: x in r <==> x in s && p(x)
    decreases |s|
  {
    if s == [] then []
    else
      var rest := Filter(s[1..], p);
      assert s == [s[0]] + s[1..];
      if p(s[0]) then [s[0]] + rest else rest
  }

  /** Filtering keeps every copy of an element that passes and none of one
      that fails. */
  lemma {:induction false} FilterMultiset<T(!new)>(s: seq<T>, p: T -> bool)
    ensures forall x :: multiset(Filter(s, p))[x] == if p(x) then multiset(s)[x] else 0
    decreases |s|
  {
    if s != [] {
      FilterMultiset(s[1..], p);
      assert s == [s[0]] + s[1..];
    }
  }

  /** A filter no element passes leaves nothing. */
  lemma {:induction false} FilterNonePass<T(!new)>(s: seq<T>, p: T -> bool)
    requires forall x :: x in s ==> !p(x)
    ensures Filter(s, p) == []
    decreases |s|
  {
    if s != [] {
      assert s[0] in s;
      assert forall x :: x in s[1..] ==> x in s;
      FilterNonePass(s[1..], p);
    }
  }

  /** Filtering keeps the surviving elements in their original order. */
  lemma {:induction false} FilterIsSubsequence<T(!new)>(s: seq<T>, p: T -> bool)
    ensures IsSubsequence(Filter(s, p), s)
    decreases |s|
  {
    if s != [] {
      FilterIsSubsequence(s[1..], p);
    }
  }

  /** A filter every element passes changes nothing. */
  lemma {:induction false} FilterKeepsAll<T(!new)>(s: seq<T>, p: T -> bool)
    requires forall x :: x in s ==> p(x)
    ensures Filter(s, p) == s
    decreases |s|
  {
    if s != [] {
      assert s[0] in s;
      assert forall x :: x in s[1..] ==> x in s;
      FilterKeepsAll(s[1..], p);
      assert s == [s[0]] + s[1..];
    }
  }

  /** Filtering a concatenation filters each part. */
  lemma {:induction false} FilterAppend<T(!new)>(a: seq<T>, b: seq<T>, p: T -> bool)
    ensures Filter(a + b, p) == Filter(a, p) + Filter(b, p)
    decreases |a|
  {
    if a == [] {
      assert a + b == b;
    } else {
      assert (a + b)[1..] == a[1..] + b;
      assert (a + b)[0] == a[0];
      FilterAppend(a[1..], b, p);
    }
  }

  /** `s.map(f)`. */
  function Map<T, U>(s: seq<T>, f: T -> U): (r: seq<U>)
    ensures |r| == |s|
    ensures forall i :: 0 <= i < |s| ==> r[i] == f(s[i])
  {
    seq(|s|, i requires 0 <= i < |s| => f(s[i]))
  }

  /** A value is in `s.map(f)` exactly when it is the image of an element of `s`. */
  lemma MapMember<T, U>(s: seq<T>, f: T -> U, y: U)
    ensures y in Map(s, f) <==> exists x :: x in s && f(x) == y
  {
    if exists x :: x in s && f(x) == y {
      var x :| x in s && f(x) == y;
      var k :| 0 <= k < |s| && s[k] == x;
      assert Map(s, f)[k] == y;
    }
  }

  /** `ss.flat()`: the concatenation of the sequences in `ss`, in order. */
  function Flatten<T>(ss: seq<seq<T>>): (r: seq<T>)
    ensures |r| == TotalLength(ss)
    decreases |ss|
  {
    if ss == [] then [] else ss[0] + Flatten(ss[1..])
  }

  function TotalLength<T>(ss: seq<seq<T>>): nat
    decreases |ss|
  {
    if ss == [] then 0 else |ss[0]| + TotalLength(ss[1..])
  }

  /** Element `i` of `ss[k]` sits in `Flatten(ss)` right after the elements of
      the sequences before `k`. */
  lemma {:induction false} FlattenIndex<T>(ss: seq<seq<T>>, k: nat, i: nat)
    requires k < |ss| && i < |ss[k]|
    ensures TotalLength(ss[..k]) + i < |Flatten(ss)|
    ensures Flatten(ss)[TotalLength(ss[..k]) + i] == ss[k][i]
    decreases k
  {
    if k == 0 {
      assert ss[..0] == [];
    } else {
      var rest := ss[1..];
      assert rest[k - 1] == ss[k];
      assert ss[..k][1..] == rest[..k - 1];
      FlattenIndex(rest, k - 1, i);
      AppendIndex(ss[0], Flatten(rest), TotalLength(rest[..k - 1]) + i);
    }
  }

  /** Flattening the first `k + 1` sequences appends `ss[k]` to the flattening
      of the first `k`. */
  lemma {:induction false} FlattenSnoc<T>(ss: seq<seq<T>>, k: nat)
    requires k < |ss|
    ensures Flatten(ss[..k + 1]) == Flatten(ss[..k]) + ss[k]
    decreases k
  {
    if k == 0 {
      assert ss[..1] == [ss[0]];
      assert ss[..0] == [];
    } else {
      var rest := ss[1..];
      assert ss[..k + 1][1..] == rest[..k];
      assert ss[..k][1..] == rest[..k - 1];
      assert rest[k - 1] == ss[k];
      FlattenSnoc(rest, k - 1);
    }
  }

  /** Two lists of sequences of the same lengths, position by position, have
      the same total length. */
  lemma {:induction false} TotalLengthSameShape<T, U>(ss: seq<seq<T>>, tt: seq<seq<U>>)
    requires |ss| == |tt|
    requires forall k :: 0 <= k < |ss| ==> |ss[k]| == |tt[k]|
    ensures TotalLength(ss) == TotalLength(tt)
    decreases |ss|
  {
    if ss != [] {
      assert |ss[0]| == |tt[0]|;
      TotalLengthSameShape(ss[1..], tt[1..]);
    }
  }

  /** What holds of every element of every sequence holds of every element of
      the flattening. */
  lemma {:induction false} FlattenAll<T>(ss: seq<seq<T>>, p: T -> bool)
    requires forall k, x :: 0 <= k < |ss| && x in ss[k] ==> p(x)
    ensures forall x :: x in Flatten(ss) ==> p(x)
    decreases |ss|
  {
    if ss != [] {
      FlattenAll(ss[1..], p);
      assert forall x :: x in Flatten(ss) ==> x in ss[0] || x in Flatten(ss[1..]);
    }
  }

  /** An element is in the flattening exactly when it is in one of the sequences. */
  lemma {:induction false} FlattenMember<T>(ss: seq<seq<T>>, x: T)
    ensures x in Flatten(ss) <==> exists k :: 0 <= k < |ss| && x in ss[k]
    decreases |ss|
  {
    if ss != [] {
      var rest := ss[1..];
      FlattenMember(rest, x);
      if x in Flatten(rest) {
        var k :| 0 <= k < |rest| && x in rest[k];
        assert x in ss[k + 1];
      }
      if exists k :: 0 <= k < |ss| && x in ss[k] {
        var k :| 0 <= k < |ss| && x in ss[k];
        if k > 0 {
          assert rest[k - 1] == ss[k];
        }
      }
    }
  }

  /** Leaving out the first element of `s` keeps a subsequence one. */
  lemma SubsequenceSkip<T>(r: seq<T>, s: seq<T>, h: T)
    requires IsSubsequence(r, s)
    ensures IsSubsequence(r, [h] + s)
  {
    assert ([h] + s)[1..] == s;
  }

  /** Putting the same element in front of both keeps a subsequence one. */
  lemma SubsequenceKeep<T>(r: seq<T>, s: seq<T>, h: T)
    requires IsSubsequence(r, s)
    ensures IsSubsequence([h] + r, [h] + s)
  {
    assert ([h] + s)[1..] == s;
    assert ([h] + r)[1..] == r;
  }

  /** Some of `a`, `b`, `c`, picked in that order, form a subsequence of `[a, b, c]`. */
  lemma PickedInOrder<T>(a: T, b: T, c: T, x: bool, y: bool, z: bool)
    ensures IsSubsequence((if x then [a] else []) + (if y then [b] else []) + (if z then [c] else []), [a, b, c])
  {
    var zs: seq<T> := if z then [c] else [];
    if z {
      SubsequenceKeep([], [], c);
      assert [c] + [] == [c];
    }
    assert IsSubsequence(zs, [c]);
    var ys := (if y then [b] else []) + zs;
    if y {
      SubsequenceKeep(zs, [c], b);
    } else {
      SubsequenceSkip(zs, [c], b);
      assert ys == zs;
    }
    assert [b] + [c] == [b, c];
    assert IsSubsequence(ys, [b, c]);
    var xs := (if x then [a] else []) + ys;
    if x {
      SubsequenceKeep(ys, [b, c], a);
    } else {
      SubsequenceSkip(ys, [b, c], a);
      assert xs == ys;
    }
    assert [a] + [b, c] == [a, b, c];
    AppendAssoc(if x then [a] else [], if y then [b] else [], zs);
  }

  /** The elements of `s` in the opposite order. */
  function Reverse<T>(s: seq<T>): (r: seq<T>)
    ensures |r| == |s|
    ensures forall i :: 0 <= i < |s| ==> r[i] == s[|s| - 1 - i]
    decreases |s|
  {
    if s == [] then [] else Reverse(s[1..]) + [s[0]]
  }

  /** Filters with predicates that agree everywhere give the same result. */
  lemma {:induction false} FilterSamePredicate<T(!new)>(s: seq<T>, p: T -> bool, q: T -> bool)
    requires forall x :: p(x) == q(x)
    ensures Filter(s, p) == Filter(s, q)
    decreases |s|
  {
    if s != [] {
      FilterSamePredicate(s[1..], p, q);
    }
  }

  lemma AppendAssoc<T>(x: seq<T>, y: seq<T>, z: seq<T>)
    ensures x + (y + z) == x + y + z
  {
  }

  /** Cutting `a + b` inside `a` cuts `a`. */
  lemma AppendSplit<T>(a: seq<T>, b: seq<T>, n: nat)
    requires n <= |a|
    ensures (a + b)[..n] == a[..n] && (a + b)[n..] == a[n..] + b
  {
  }

  /** Past the end of `a`, `a + b` reads from `b`. */
  lemma AppendIndex<T>(a: seq<T>, b: seq<T>, j: nat)
    requires j < |b|
    ensures |a| + j < |a + b| && (a + b)[|a| + j] == b[j]
  {
  }

  /** Appending element `i` of `xs` to `before + xs[..i]` gives `before + xs[..i + 1]`. */
  lemma SnocPrefix<T>(before: seq<T>, xs: seq<T>, i: nat)
    requires i < |xs|
    ensures before + xs[..i] + [xs[i]] == before + xs[..i + 1]
  {
    assert xs[..i + 1] == xs[..i] + [xs[i]];
  }

  /** Cutting to `n` after putting `a` in front of a sequence already cut to `n`
      is the same as cutting `a + b` to `n`. */
  lemma TakeAppendTake<T>(a: seq<T>, b: seq<T>, n: nat)
    ensures Take(a + Take(b, n), n) == Take(a + b, n)
  {
    var l := Take(a + Take(b, n), n);
    var r := Take(a + b, n);
    assert |l| == |r|;
    forall i | 0 <= i < |l| ensures l[i] == r[i] {
      if i >= |a| {
        assert l[i] == Take(b, n)[i - |a|];
      }
    }
  }

  lemma MapAppend<T, U>(a: seq<T>, b: seq<T>, f: T -> U)
    ensures Map(a + b, f) == Map(a, f) + Map(b, f)
  {
    assert |Map(a + b, f)| == |Map(a, f) + Map(b, f)|;
    forall i | 0 <= i < |a + b| ensures Map(a + b, f)[i] == (Map(a, f) + Map(b, f))[i] {
      if i < |a| {
        assert (a + b)[i] == a[i];
      } else {
        assert (a + b)[i] == b[i - |a|];
      }
    }
  }
}
