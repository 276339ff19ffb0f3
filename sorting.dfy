/** Python's `sorted(xs, key=k)` — a STABLE sort — described on positions:
    sorting `xs` yields `xs[i0], xs[i1], ...` where the index sequence
    `i0, i1, ...` orders the positions by key and, among equal keys, by
    position. Both sorts of the selection stage are instances: by start time
    ascending, and by score descending (`reverse=True` keeps stability, so it
    is the ascending sort on the negated score). */
module StableSort {

  /** Position `i` is placed before position `j`: a smaller key, or an
      equal key and an earlier position. */
  predicate Precedes(keys: seq<real>, i: nat, j: nat)
  {
    i < |keys| && j < |keys| && (keys[i] < keys[j] || (keys[i] == keys[j] && i < j))
  }

  predicate Below(s: seq<nat>, n: nat)
  {
    forall k :: 0 <= k < |s| ==> s[k] < n
  }

  predicate SortedBy(keys: seq<real>, s: seq<nat>)
  {
    forall a, b :: 0 <= a < b < |s| ==> Precedes(keys, s[a], s[b])
  }

  /** The positions 0, 1, ..., n-1 in order. */
  function Range(n: nat): (r: seq<nat>)
    ensures |r| == n && forall k :: 0 <= k < n ==> r[k] == k
  {
    if n == 0 then [] else Range(n - 1) + [n - 1]
  }

  /** Places position `x` into the index sequence `s`. */
  function Insert(keys: seq<real>, x: nat, s: seq<nat>): (r: seq<nat>)
    requires x < |keys| && Below(s, |keys|)
    ensures |r| == |s| + 1 && Below(r, |keys|)
    ensures forall k :: 0 <= k < |r| ==> r[k] == x || r[k] in s
  {
    if s == [] then [x]
    else if Precedes(keys, x, s[0]) then [x] + s
    else assert s == [s[0]] + s[1..]; [s[0]] + Insert(keys, x, s[1..])
  }

  /** The index sequence of a stable ascending sort of the first `n` keys,
      built by insertion. It is a permutation of 0..n-1. */
  function SortIndices(keys: seq<real>, n: nat): (r: seq<nat>)
    requires n <= |keys|
    ensures |r| == n && Below(r, n)
  {
    if n == 0 then [] else Insert(keys, n - 1, SortIndices(keys, n - 1))
  }

  /** Insertion adds exactly the one position. */
  lemma {:induction false} InsertMultiset(keys: seq<real>, x: nat, s: seq<nat>)
    requires x < |keys| && Below(s, |keys|)
    ensures multiset(Insert(keys, x, s)) == multiset(s) + multiset{x}
  {
    if s != [] && !Precedes(keys, x, s[0]) {
      InsertMultiset(keys, x, s[1..]);
      assert s == [s[0]] + s[1..];
    }
  }

  /** The sorted index sequence is a permutation of 0..n-1. */
  lemma {:induction false} SortIndicesPermutation(keys: seq<real>, n: nat)
    requires n <= |keys|
    ensures multiset(SortIndices(keys, n)) == multiset(Range(n))
  {
    if n > 0 {
      SortIndicesPermutation(keys, n - 1);
      InsertMultiset(keys, n - 1, SortIndices(keys, n - 1));
    }
  }

  /** `xs` read in the order `idx` gives. */
  function Permute<T>(xs: seq<T>, idx: seq<nat>): (r: seq<T>)
    requires Below(idx, |xs|)
    ensures |r| == |idx| && forall k :: 0 <= k < |idx| ==> r[k] == xs[idx[k]]
  {
    seq(|idx|, k requires 0 <= k < |idx| => xs[idx[k]])
  }

  lemma PrecedesTransitive(keys: seq<real>, i: nat, j: nat, l: nat)
    requires i < |keys| && j < |keys| && l < |keys|
    requires Precedes(keys, i, j) && Precedes(keys, j, l)
    ensures Precedes(keys, i, l)
  {
  }

  lemma {:induction false} InsertSorted(keys: seq<real>, x: nat, s: seq<nat>)
    requires x < |keys| && Below(s, |keys|) && SortedBy(keys, s) && x !in s
    ensures SortedBy(keys, Insert(keys, x, s))
  {
    var r := Insert(keys, x, s);
    if s == [] {
    } else if Precedes(keys, x, s[0]) {
      forall a, b | 0 <= a < b < |r| ensures Precedes(keys, r[a], r[b]) {
        if a == 0 && b > 1 {
          PrecedesTransitive(keys, x, s[0], s[b - 1]);
        }
      }
    } else {
      var t := s[1..];
      assert s == [s[0]] + t;
      InsertSorted(keys, x, t);
      var r' := Insert(keys, x, t);
      assert r == [s[0]] + r';
      forall b | 0 <= b < |r'| ensures Precedes(keys, s[0], r'[b]) {
        if r'[b] == x {
          assert x != s[0];
        } else {
          var c :| 0 <= c < |t| && t[c] == r'[b];
          assert s[c + 1] == r'[b];
        }
      }
    }
  }

  lemma BelowExcludes(s: seq<nat>, n: nat)
    requires Below(s, n)
    ensures n !in s
  {
  }

  /** The insertion sort yields the positions in stable key order. */
  lemma {:induction false} SortIndicesSorted(keys: seq<real>, n: nat)
    requires n <= |keys|
    ensures SortedBy(keys, SortIndices(keys, n))
  {
    if n > 0 {
      var s := SortIndices(keys, n - 1);
      BelowExcludes(s, n - 1);
      SortIndicesSorted(keys, n - 1);
      InsertSorted(keys, n - 1, s);
    }
  }

  /** Every position below `n` occurs in the sorted index sequence. */
  lemma SortIndicesHas(keys: seq<real>, n: nat, i: nat)
    requires n <= |keys| && i < n
    ensures i in SortIndices(keys, n)
  {
    SortIndicesPermutation(keys, n);
    assert Range(n)[i] == i;
    assert i in multiset(Range(n));
  }

  lemma {:induction false} InsertAtEnd(keys: seq<real>, x: nat, s: seq<nat>)
    requires x < |keys| && Below(s, |keys|)
    requires forall k :: 0 <= k < |s| ==> !Precedes(keys, x, s[k])
    ensures Insert(keys, x, s) == s + [x]
  {
    if s != [] {
      InsertAtEnd(keys, x, s[1..]);
      assert [s[0]] + (s[1..] + [x]) == s + [x];
    }
  }

  /** Sorting keys that are already in ascending order moves nothing. */
  lemma {:induction false} SortIndicesOfSorted(keys: seq<real>, n: nat)
    requires n <= |keys|
    requires forall a, b :: 0 <= a < b < n ==> keys[a] <= keys[b]
    ensures SortIndices(keys, n) == Range(n)
  {
    if n > 0 {
      SortIndicesOfSorted(keys, n - 1);
      InsertAtEnd(keys, n - 1, Range(n - 1));
    }
  }

  lemma PermuteCons<T>(xs: seq<T>, i: nat, s: seq<nat>)
    requires i < |xs| && Below(s, |xs|)
    ensures Permute(xs, [i] + s) == [xs[i]] + Permute(xs, s)
  {
  }

  lemma {:induction false} PermuteInsert<T>(xs: seq<T>, keys: seq<real>, x: nat, s: seq<nat>)
    requires |keys| == |xs| && x < |keys| && Below(s, |keys|)
    ensures multiset(Permute(xs, Insert(keys, x, s))) == multiset(Permute(xs, s)) + multiset{xs[x]}
  {
    if s == [] {
      assert Permute(xs, [x]) == [xs[x]];
    } else {
      var t := s[1..];
      assert s == [s[0]] + t;
      PermuteCons(xs, s[0], t);
      if Precedes(keys, x, s[0]) {
        PermuteCons(xs, x, s);
      } else {
        var rest := Insert(keys, x, t);
        PermuteInsert(xs, keys, x, t);
        PermuteCons(xs, s[0], rest);
        assert Insert(keys, x, s) == [s[0]] + rest;
      }
    }
  }

  /** Reading `xs` in sorted order loses and duplicates nothing: the first
      `n` items sorted are a permutation of `xs[..n]`. */
  lemma {:induction false} SortPermutes<T>(xs: seq<T>, keys: seq<real>, n: nat)
    requires |keys| == |xs| && n <= |xs|
    ensures multiset(Permute(xs, SortIndices(keys, n))) == multiset(xs[..n])
  {
    if n > 0 {
      assert xs[..n] == xs[..n - 1] + [xs[n - 1]];
      var s := SortIndices(keys, n - 1);
      assert Below(s, |xs|);
      assert SortIndices(keys, n) == Insert(keys, n - 1, s);
      PermuteInsert(xs, keys, n - 1, s);
      SortPermutes(xs, keys, n - 1);
    }
  }
}
