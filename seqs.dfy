/** Sequence operations the source uses through `Array.prototype.filter`,
    `slice` and the `indexOf` de-duplication idiom, with the facts about
    them that the rest of the model relies on. */
module Seqs {

  /** `a` is an order-preserving subsequence of `b`. */
  ghost predicate IsSubseq<T>(a: seq<T>, b: seq<T>)
    decreases |b|
  {
    if a == [] then true
    else if b == [] then false
    else (a[0] == b[0] && IsSubseq(a[1..], b[1..])) || IsSubseq(a, b[1..])
  }

  /** `s.filter(p)`: the elements of `s` that satisfy `p`, in order. */
  function Filter<T>(s: seq<T>, p: T -> bool): (r: seq<T>)
    ensures |r| <= |s|
    ensures forall k :: 0 <= k < |r| ==> r[k] in s && p(r[k])
    ensures forall k :: 0 <= k < |s| && p(s[k]) ==> s[k] in r
    decreases |s|
  {
    if s == [] then []
    else
      assert s == [s[0]] + s[1..];
      if p(s[0]) then [s[0]] + Filter(s[1..], p) else Filter(s[1..], p)
  }

  /** A filter keeps the surviving elements in their original order. */
  lemma {:induction false} FilterIsSubseq<T>(s: seq<T>, p: T -> bool)
    ensures IsSubseq(Filter(s, p), s)
    decreases |s|
  {
    if s != [] {
      FilterIsSubseq(s[1..], p);
    }
  }

  /** Filtering with two predicates that agree everywhere gives the same result. */
  lemma {:induction false} FilterExt<T>(s: seq<T>, p: T -> bool, q: T -> bool)
    requires forall x :: p(x) == q(x)
    ensures Filter(s, p) == Filter(s, q)
    decreases |s|
  {
    if s != [] {
      FilterExt(s[1..], p, q);
    }
  }

  /** A predicate that holds of every element keeps the whole sequence. */
  lemma {:induction false} FilterKeepsAll<T>(s: seq<T>, p: T -> bool)
    requires forall k :: 0 <= k < |s| ==> p(s[k])
    ensures Filter(s, p) == s
    decreases |s|
  {
    if s != [] {
      FilterKeepsAll(s[1..], p);
    }
  }

  /** A filter keeps every copy of an element that satisfies the predicate
      and no copy of one that does not. */
  lemma {:induction false} FilterMultiset<T>(s: seq<T>, p: T -> bool)
    ensures forall x :: multiset(Filter(s, p))[x] == if p(x) then multiset(s)[x] else 0
    decreases |s|
  {
    if s != [] {
      FilterMultiset(s[1..], p);
      assert s == [s[0]] + s[1..];
      assert multiset(s) == multiset{s[0]} + multiset(s[1..]);
      if p(s[0]) {
        assert multiset(Filter(s, p)) == multiset{s[0]} + multiset(Filter(s[1..], p));
      }
    }
  }

  /** The filter keeps every element exactly when the predicate holds of all of them. */
  lemma {:induction false} FilterFullIff<T>(s: seq<T>, p: T -> bool)
    ensures |Filter(s, p)| == |s| <==> forall k :: 0 <= k < |s| ==> p(s[k])
    decreases |s|
  {
    if s != [] {
      FilterFullIff(s[1..], p);
      assert forall k :: 1 <= k < |s| ==> s[k] == s[1..][k - 1];
    }
  }

  /** The filter keeps nothing exactly when the predicate holds of no element. */
  lemma {:induction false} FilterEmptyIff<T>(s: seq<T>, p: T -> bool)
    ensures Filter(s, p) == [] <==> forall k :: 0 <= k < |s| ==> !p(s[k])
  {
    if Filter(s, p) == [] {
      forall k | 0 <= k < |s| ensures !p(s[k]) {
        assert s[k] in s;
      }
    } else {
      assert Filter(s, p)[0] in Filter(s, p);
    }
  }

  /** Weakening the predicate can only keep more, and in the same order. */
  lemma {:induction false} FilterMonotone<T>(s: seq<T>, p: T -> bool, q: T -> bool)
    requires forall x :: p(x) ==> q(x)
    ensures IsSubseq(Filter(s, p), Filter(s, q))
    decreases |s|
  {
    if s != [] {
      FilterMonotone(s[1..], p, q);
      if !p(s[0]) && q(s[0]) {
        SubseqConsRight(Filter(s[1..], p), Filter(s[1..], q), s[0]);
      }
    }
  }

  /** Putting one more element in front of the larger sequence keeps a subsequence one. */
  lemma SubseqConsRight<T>(a: seq<T>, b: seq<T>, x: T)
    requires IsSubseq(a, b)
    ensures IsSubseq(a, [x] + b)
  {
    assert ([x] + b)[1..] == b;
  }

  /** Filtering by a disjunction of two exclusive predicates counts both parts. */
  lemma {:induction false} FilterDisjointCount<T>(s: seq<T>, p: T -> bool, q: T -> bool, pq: T -> bool)
    requires forall x :: pq(x) == (p(x) || q(x))
    requires forall x :: !(p(x) && q(x))
    ensures |Filter(s, pq)| == |Filter(s, p)| + |Filter(s, q)|
    decreases |s|
  {
    if s != [] {
      FilterDisjointCount(s[1..], p, q, pq);
    }
  }

  /** The elements of `s` from position `i` on whose value does not occur
      before their own position: `s.filter((x, i, self) => self.indexOf(x) === i)`
      restricted to the indices `i..`. */
  function KeepFirsts<T(==)>(s: seq<T>, i: nat): (r: seq<T>)
    requires i <= |s|
    decreases |s| - i
  {
    if i == |s| then []
    else if s[i] in s[..i] then KeepFirsts(s, i + 1)
    else [s[i]] + KeepFirsts(s, i + 1)
  }

  /** Removal of repeated values, keeping the first occurrence of each. */
  function Dedupe<T(==)>(s: seq<T>): seq<T> {
    KeepFirsts(s, 0)
  }

  /** A value survives from position `i` on exactly when it occurs there and not before. */
  lemma {:induction false} KeepFirstsMembers<T>(s: seq<T>, i: nat, x: T)
    requires i <= |s|
    ensures x in KeepFirsts(s, i) <==> x in s[i..] && x !in s[..i]
    decreases |s| - i
  {
    if i < |s| {
      KeepFirstsMembers(s, i + 1, x);
      assert s[i..] == [s[i]] + s[i + 1..];
      assert s[..i + 1] == s[..i] + [s[i]];
    }
  }

  /** No value survives twice. */
  lemma {:induction false} KeepFirstsDistinct<T>(s: seq<T>, i: nat)
    requires i <= |s|
    ensures Distinct(KeepFirsts(s, i))
    decreases |s| - i
  {
    if i < |s| {
      KeepFirstsDistinct(s, i + 1);
      if s[i] !in s[..i] {
        assert s[..i + 1] == s[..i] + [s[i]];
        KeepFirstsMembers(s, i + 1, s[i]);
        var r := KeepFirsts(s, i + 1);
        assert [s[i]] + r == KeepFirsts(s, i);
        forall a, b | 0 <= a < b < |[s[i]] + r| ensures ([s[i]] + r)[a] != ([s[i]] + r)[b] {
          if a == 0 {
            assert ([s[i]] + r)[b] == r[b - 1];
            assert r[b - 1] in r;
          }
        }
      }
    }
  }

  /** The survivors keep their order. */
  lemma {:induction false} KeepFirstsSubseq<T>(s: seq<T>, i: nat)
    requires i <= |s|
    ensures IsSubseq(KeepFirsts(s, i), s[i..])
    decreases |s| - i
  {
    if i < |s| {
      KeepFirstsSubseq(s, i + 1);
      assert s[i..][1..] == s[i + 1..];
      if s[i] in s[..i] {
        SubseqConsRight(KeepFirsts(s, i + 1), s[i + 1..], s[i]);
        assert [s[i]] + s[i + 1..] == s[i..];
      }
    }
  }

  /** No two positions hold the same value. */
  ghost predicate Distinct<T>(s: seq<T>) {
    forall a, b :: 0 <= a < b < |s| ==> s[a] != s[b]
  }

  /** `Dedupe` keeps every value once, drops nothing else, and lists the
      values in the order of their first occurrence. */
  lemma DedupeSpec<T>(s: seq<T>)
    ensures Distinct(Dedupe(s))
    ensures IsSubseq(Dedupe(s), s)
    ensures forall k :: 0 <= k < |s| ==> s[k] in Dedupe(s)
    ensures forall k :: 0 <= k < |Dedupe(s)| ==> Dedupe(s)[k] in s
    ensures forall a, b :: 0 <= a < b < |Dedupe(s)| ==>
      FirstIndex(s, Dedupe(s)[a]) < FirstIndex(s, Dedupe(s)[b])
  {
    KeepFirstsOrder(s, 0);
    KeepFirstsDistinct(s, 0);
    KeepFirstsSubseq(s, 0);
    assert s[0..] == s;
    forall k | 0 <= k < |s| ensures s[k] in Dedupe(s) {
      KeepFirstsMembers(s, 0, s[k]);
    }
    forall k | 0 <= k < |Dedupe(s)| ensures Dedupe(s)[k] in s {
      KeepFirstsMembers(s, 0, Dedupe(s)[k]);
    }
  }

  /** The position of the first occurrence of `x` in `s`: `s.indexOf(x)`. */
  function FirstIndex<T(==)>(s: seq<T>, x: T): (i: nat)
    requires x in s
    ensures i < |s| && s[i] == x && x !in s[..i]
  {
    if s[0] == x then 0
    else
      var i := FirstIndex(s[1..], x);
      assert s[..i + 1] == [s[0]] + s[1..][..i];
      i + 1
  }

  /** A position holding a value not seen before it is that value's first index. */
  lemma FirstIndexAt<T>(s: seq<T>, j: nat)
    requires j < |s| && s[j] !in s[..j]
    ensures FirstIndex(s, s[j]) == j
  {
  }

  /** The survivors from position `i` on are first occurrences at or after
      `i`, listed by increasing first index. */
  lemma {:induction false} KeepFirstsOrder<T>(s: seq<T>, i: nat)
    requires i <= |s|
    ensures forall a :: 0 <= a < |KeepFirsts(s, i)| ==>
      KeepFirsts(s, i)[a] in s && i <= FirstIndex(s, KeepFirsts(s, i)[a])
    ensures forall a, b :: 0 <= a < b < |KeepFirsts(s, i)| ==>
      FirstIndex(s, KeepFirsts(s, i)[a]) < FirstIndex(s, KeepFirsts(s, i)[b])
    decreases |s| - i
  {
    if i < |s| {
      KeepFirstsOrder(s, i + 1);
      var r := KeepFirsts(s, i + 1);
      forall a | 0 <= a < |r| ensures i + 1 <= FirstIndex(s, r[a]) {
      }
      if s[i] !in s[..i] {
        FirstIndexAt(s, i);
        assert KeepFirsts(s, i) == [s[i]] + r;
      }
    }
  }

  /** The survivors from `i` split at any later `n`: those before `n`, judged
      on the prefix alone, then those from `n` on. */
  lemma {:induction false} KeepFirstsSplit<T>(s: seq<T>, i: nat, n: nat)
    requires i <= n <= |s|
    ensures KeepFirsts(s, i) == KeepFirsts(s[..n], i) + KeepFirsts(s, n)
    decreases n - i
  {
    if i < n {
      KeepFirstsSplit(s, i + 1, n);
      assert s[..n][i] == s[i];
      assert s[..n][..i] == s[..i];
    } else {
      assert |s[..n]| == n;
    }
  }

  /** A value appears in the de-duplicated list right after the distinct
      values that occur before its own first occurrence. */
  lemma DedupePosition<T>(s: seq<T>, x: T)
    requires x in s
    ensures |Dedupe(s[..FirstIndex(s, x)])| < |Dedupe(s)|
    ensures Dedupe(s)[|Dedupe(s[..FirstIndex(s, x)])|] == x
  {
    var f := FirstIndex(s, x);
    KeepFirstsSplit(s, 0, f);
    assert KeepFirsts(s, f) == [x] + KeepFirsts(s, f + 1);
  }

  /** The first `n` de-duplicated values are exactly the values with fewer
      than `n` distinct values before their first occurrence. */
  lemma TakeDedupeMember<T>(s: seq<T>, n: nat, x: T)
    ensures x in Take(Dedupe(s), n) <==> x in s && |Dedupe(s[..FirstIndex(s, x)])| < n
  {
    var d := Dedupe(s);
    var r := Take(d, n);
    DedupeSpec(s);
    if x in s {
      DedupePosition(s, x);
      var p := |Dedupe(s[..FirstIndex(s, x)])|;
      if p < n {
        assert r[p] == x;
      }
      if x in r {
        var q :| 0 <= q < |r| && r[q] == x;
        assert d[q] == d[p];
      }
    }
  }

  /** `s.map(f)`. */
  function MapSeq<T, U>(s: seq<T>, f: T -> U): (r: seq<U>)
    ensures |r| == |s|
    ensures forall k :: 0 <= k < |s| ==> r[k] == f(s[k])
  {
    seq(|s|, k requires 0 <= k < |s| => f(s[k]))
  }

  /** De-duplication commutes with a map that is one-to-one on the values present. */
  lemma {:induction false} KeepFirstsMap<T, U>(s: seq<T>, f: T -> U, i: nat)
    requires i <= |s|
    requires forall a, b :: 0 <= a < |s| && 0 <= b < |s| && f(s[a]) == f(s[b]) ==> s[a] == s[b]
    ensures KeepFirsts(MapSeq(s, f), i) == MapSeq(KeepFirsts(s, i), f)
    decreases |s| - i
  {
    if i < |s| {
      KeepFirstsMap(s, f, i + 1);
      var m := MapSeq(s, f);
      assert s[i] in s[..i] <==> m[i] in m[..i] by {
        if s[i] in s[..i] {
          var j :| 0 <= j < i && s[..i][j] == s[i];
          assert m[..i][j] == m[i];
        }
        if m[i] in m[..i] {
          var j :| 0 <= j < i && m[..i][j] == m[i];
          assert s[..i][j] == s[i];
        }
      }
    }
  }

  /** `s.slice(0, n)`. */
  function Take<T>(s: seq<T>, n: nat): (r: seq<T>)
    ensures |r| <= n && |r| <= |s|
    ensures r == s[..|r|]
    ensures |s| <= n ==> r == s
  {
    if |s| <= n then s else s[..n]
  }

  /** A prefix of a subsequence is a subsequence. */
  lemma {:induction false} PrefixSubseq<T>(a: seq<T>, n: nat, b: seq<T>)
    requires n <= |a|
    requires IsSubseq(a, b)
    ensures IsSubseq(a[..n], b)
    decreases |b|
  {
    if n > 0 && b != [] {
      if a[0] == b[0] && IsSubseq(a[1..], b[1..]) {
        PrefixSubseq(a[1..], n - 1, b[1..]);
        assert a[1..][..n - 1] == a[..n][1..];
      } else {
        PrefixSubseq(a, n, b[1..]);
      }
    }
  }
}
