/** The two array pipelines the dashboard is built from, as JavaScript's
    Array.prototype defines them: `filter`, and a stable `sort` by a numeric
    key in descending order (the comparator `(a, b) => key(b) - key(a)`). */
module Seqs {

  // ---------------------------------------------------------------------------
  // filter

  /** `s.filter(p)`: the elements of s that satisfy p, in their original order. */
  function Filter<T>(s: seq<T>, p: T -> bool): (r: seq<T>)
    ensures |r| <= |s|
  {
    if s == [] then [] else (if p(s[0]) then [s[0]] else []) + Filter(s[1..], p)
  }

  /** The positions of s whose element satisfies p. */
  ghost function Positions<T>(s: seq<T>, p: T -> bool): set<int>
  {
    set i | 0 <= i < |s| && p(s[i])
  }

  /** idx lists, in increasing order, positions of b that spell out a. */
  ghost predicate Embeds<T>(idx: seq<int>, a: seq<T>, b: seq<T>)
  {
    && |idx| == |a|
    && (forall k :: 0 <= k < |idx| ==> 0 <= idx[k] < |b| && a[k] == b[idx[k]])
    && (forall k, l :: 0 <= k < l < |idx| ==> idx[k] < idx[l])
  }

  /** a is an order-preserving subsequence of b. */
  ghost predicate SubsequenceOf<T>(a: seq<T>, b: seq<T>)
  {
    exists idx :: Embeds(idx, a, b)
  }

  lemma SubsequenceOfSelf<T>(s: seq<T>)
    ensures SubsequenceOf(s, s)
  {
    var idx := seq(|s|, k requires 0 <= k < |s| => k);
    assert Embeds(idx, s, s);
  }

  lemma {:induction false} FilterConcat<T>(a: seq<T>, b: seq<T>, p: T -> bool)
    ensures Filter(a + b, p) == Filter(a, p) + Filter(b, p)
  {
    if a == [] {
      assert a + b == b;
    } else {
      var h := if p(a[0]) then [a[0]] else [];
      assert (a + b)[0] == a[0];
      assert (a + b)[1..] == a[1..] + b;
      assert Filter(a + b, p) == h + Filter(a[1..] + b, p);
      FilterConcat(a[1..], b, p);
      assert Filter(a, p) == h + Filter(a[1..], p);
    }
  }

  /** The number of elements kept is the number of positions that satisfy p. */
  lemma {:induction false} FilterCount<T>(s: seq<T>, p: T -> bool)
    ensures |Filter(s, p)| == |Positions(s, p)|
    decreases |s|
  {
    if s != [] {
      var n := |s| - 1;
      var init := s[..n];
      assert s == init + [s[n]];
      FilterConcat(init, [s[n]], p);
      FilterCount(init, p);
      assert Filter([s[n]], p) == (if p(s[n]) then [s[n]] else []) + Filter([], p);
      var prev := Positions(init, p);
      assert n !in prev;
      if p(s[n]) {
        assert Positions(s, p) == prev + {n};
      } else {
        assert Positions(s, p) == prev;
      }
    }
  }

  /** The kept elements occur in s in the same order. */
  lemma {:induction false} FilterEmbeds<T>(s: seq<T>, p: T -> bool) returns (idx: seq<int>)
    ensures Embeds(idx, Filter(s, p), s)
  {
    if s == [] {
      idx := [];
    } else {
      var rest := FilterEmbeds(s[1..], p);
      var f := Filter(s[1..], p);
      assert Filter(s, p) == (if p(s[0]) then [s[0]] else []) + f;
      var shifted := seq(|rest|, k requires 0 <= k < |rest| => rest[k] + 1);
      assert Embeds(shifted, f, s) by {
        forall k | 0 <= k < |shifted| ensures 0 <= shifted[k] < |s| && f[k] == s[shifted[k]] {
          assert s[1..][rest[k]] == s[rest[k] + 1];
        }
      }
      if p(s[0]) {
        idx := [0] + shifted;
        assert Filter(s, p) == [s[0]] + f;
        forall k | 0 <= k < |idx| ensures 0 <= idx[k] < |s| && Filter(s, p)[k] == s[idx[k]] {
          if k > 0 {
            assert idx[k] == shifted[k - 1];
          }
        }
      } else {
        idx := shifted;
      }
    }
  }

  /** Every element satisfying p is kept as often as it occurs in s; no other element is kept. */
  lemma {:induction false} FilterMultiset<T>(s: seq<T>, p: T -> bool)
    ensures forall x :: multiset(Filter(s, p))[x] == if p(x) then multiset(s)[x] else 0
  {
    if s != [] {
      FilterMultiset(s[1..], p);
      assert s == [s[0]] + s[1..];
      assert multiset(s) == multiset{s[0]} + multiset(s[1..]);
    }
  }

  /** What a page states about one of its `filter` calls. */
  lemma FilterFacts<T>(s: seq<T>, p: T -> bool)
    ensures SubsequenceOf(Filter(s, p), s)
    ensures forall x :: x in Filter(s, p) ==> p(x)
    ensures forall x :: p(x) ==> multiset(Filter(s, p))[x] == multiset(s)[x]
    ensures |Filter(s, p)| == |Positions(s, p)|
  {
    var idx := FilterEmbeds(s, p);
    FilterMultiset(s, p);
    FilterCount(s, p);
    forall x | x in Filter(s, p) ensures p(x) {
      assert x in multiset(Filter(s, p));
    }
  }

  /** A filter that keeps everything returns its input. */
  lemma {:induction false} FilterKeepsAll<T>(s: seq<T>, p: T -> bool)
    requires forall i :: 0 <= i < |s| ==> p(s[i])
    ensures Filter(s, p) == s
  {
    if s != [] {
      FilterKeepsAll(s[1..], p);
    }
  }

  /** Filters by a predicate and by its negation split the input between them: every
      element lands in exactly one of the two, as often as it occurs. */
  lemma {:induction false} FilterComplement<T>(s: seq<T>, p: T -> bool, q: T -> bool)
    requires forall x :: q(x) == !p(x)
    ensures multiset(Filter(s, p)) + multiset(Filter(s, q)) == multiset(s)
    ensures |Filter(s, p)| + |Filter(s, q)| == |s|
  {
    if s != [] {
      FilterComplement(s[1..], p, q);
      assert s == [s[0]] + s[1..];
      assert q(s[0]) == !p(s[0]);
      assert multiset(s) == multiset{s[0]} + multiset(s[1..]);
    }
  }

  ghost predicate NonIncreasing<T>(s: seq<T>, key: T -> nat)
  {
    forall i, j :: 0 <= i < j < |s| ==> key(s[i]) >= key(s[j])
  }

  /** The predicate "has key k", for stating stability one key at a time. */
  function KeyIs<T>(key: T -> nat, k: nat): T -> bool
  {
    x => key(x) == k
  }

  /** Inserts x into a list sorted by descending key, after every element whose key is at least x's. */
  function Insert<T>(t: seq<T>, x: T, key: T -> nat): (r: seq<T>)
    ensures |r| == |t| + 1
  {
    if t == [] then [x]
    else if key(t[0]) < key(x) then [x] + t
    else [t[0]] + Insert(t[1..], x, key)
  }

  /** `[...s].sort((a, b) => key(b) - key(a))`: insertion sort, which is stable. */
  function SortDesc<T>(s: seq<T>, key: T -> nat): (r: seq<T>)
    ensures |r| == |s|
  {
    if s == [] then [] else Insert(SortDesc(s[..|s| - 1], key), s[|s| - 1], key)
  }

  lemma {:induction false} InsertMultiset<T>(t: seq<T>, x: T, key: T -> nat)
    ensures multiset(Insert(t, x, key)) == multiset(t) + multiset{x}
  {
    if t != [] && key(t[0]) >= key(x) {
      InsertMultiset(t[1..], x, key);
      assert t == [t[0]] + t[1..];
    }
  }

  lemma {:induction false} InsertSorted<T>(t: seq<T>, x: T, key: T -> nat)
    requires NonIncreasing(t, key)
    ensures NonIncreasing(Insert(t, x, key), key)
  {
    if t != [] && key(t[0]) >= key(x) {
      var tail := Insert(t[1..], x, key);
      InsertSorted(t[1..], x, key);
      assert tail[0] == x || tail[0] == t[1];
      assert key(t[0]) >= key(tail[0]);
      var r := [t[0]] + tail;
      forall i, j | 0 <= i < j < |r| ensures key(r[i]) >= key(r[j]) {
        assert r[j] == tail[j - 1];
        if i > 0 {
          assert r[i] == tail[i - 1];
        }
      }
    } else if t != [] {
      var r := [x] + t;
      forall i, j | 0 <= i < j < |r| ensures key(r[i]) >= key(r[j]) {
        assert r[j] == t[j - 1];
        if i > 0 {
          assert r[i] == t[i - 1];
        }
      }
    }
  }

  /** Nothing in a sequence whose keys are all below k has key k. */
  lemma {:induction false} FilterNoneWithKey<T>(t: seq<T>, key: T -> nat, k: nat)
    requires forall i :: 0 <= i < |t| ==> key(t[i]) < k
    ensures Filter(t, KeyIs(key, k)) == []
  {
    if t != [] {
      FilterNoneWithKey(t[1..], key, k);
    }
  }

  /** Inserting x puts it after every element that has its key. */
  lemma {:induction false} InsertStable<T>(t: seq<T>, x: T, key: T -> nat, k: nat)
    requires NonIncreasing(t, key)
    ensures Filter(Insert(t, x, key), KeyIs(key, k))
         == Filter(t, KeyIs(key, k)) + Filter([x], KeyIs(key, k))
  {
    var p := KeyIs(key, k);
    assert Filter([x], p) == (if p(x) then [x] else []) + Filter([], p);
    if t == [] {
    } else if key(t[0]) < key(x) {
      assert Insert(t, x, key) == [x] + t;
      if key(x) == k {
        FilterNoneWithKey(t, key, k);
      }
    } else {
      InsertStable(t[1..], x, key, k);
      assert Insert(t, x, key) == [t[0]] + Insert(t[1..], x, key);
    }
  }

  /** The result is ordered by descending key and is a permutation of the input. */
  lemma {:induction false} SortDescSortedPermutation<T>(s: seq<T>, key: T -> nat)
    ensures NonIncreasing(SortDesc(s, key), key)
    ensures multiset(SortDesc(s, key)) == multiset(s)
    decreases |s|
  {
    if s != [] {
      var init := s[..|s| - 1];
      SortDescSortedPermutation(init, key);
      InsertSorted(SortDesc(init, key), s[|s| - 1], key);
      InsertMultiset(SortDesc(init, key), s[|s| - 1], key);
      assert s == init + [s[|s| - 1]];
    }
  }

  /** Stability: the elements with any one key keep their input order. */
  lemma {:induction false} SortDescStable<T>(s: seq<T>, key: T -> nat, k: nat)
    ensures Filter(SortDesc(s, key), KeyIs(key, k)) == Filter(s, KeyIs(key, k))
    decreases |s|
  {
    if s != [] {
      var init := s[..|s| - 1];
      SortDescStable(init, key, k);
      SortDescSortedPermutation(init, key);
      InsertStable(SortDesc(init, key), s[|s| - 1], key, k);
      assert s == init + [s[|s| - 1]];
      FilterConcat(init, [s[|s| - 1]], KeyIs(key, k));
    }
  }

  lemma FilterHead<T>(s: seq<T>, p: T -> bool)
    requires Filter(s, p) != []
    ensures Filter(s, p)[0] in s && p(Filter(s, p)[0])
  {
    FilterMultiset(s, p);
    assert Filter(s, p)[0] in multiset(Filter(s, p));
  }

  lemma FilterKeepsHead<T>(s: seq<T>, p: T -> bool)
    requires s != [] && p(s[0])
    ensures Filter(s, p) != []
  {
    assert Filter(s, p)[0] == s[0];
  }

  lemma SortedHeadIsMax<T>(s: seq<T>, key: T -> nat, y: T)
    requires NonIncreasing(s, key) && y in s
    ensures key(s[0]) >= key(y)
  {
    var j :| 0 <= j < |s| && s[j] == y;
    if j > 0 {
      assert key(s[0]) >= key(s[j]);
    }
  }

  /** A prefix of a sorted sequence is sorted, is drawn from it, and no element left out
      has a larger key than one kept. */
  lemma SortedPrefix<T>(s: seq<T>, key: T -> nat, m: nat)
    requires NonIncreasing(s, key) && m <= |s|
    ensures NonIncreasing(s[..m], key)
    ensures multiset(s[..m]) <= multiset(s)
    ensures forall c, d :: multiset(s[..m])[c] < multiset(s)[c] && d in s[..m] ==> key(d) >= key(c)
  {
    var r, rest := s[..m], s[m..];
    assert s == r + rest;
    assert multiset(s) == multiset(r) + multiset(rest);
    forall c, d | multiset(r)[c] < multiset(s)[c] && d in r ensures key(d) >= key(c) {
      assert c in multiset(rest);
      var j :| 0 <= j < |rest| && rest[j] == c;
      var i :| 0 <= i < |r| && r[i] == d;
      assert s[i] == d && s[m + j] == c;
    }
  }

  /** Two sorted sequences with the same elements of each key start with the same key. */
  lemma {:induction false} SortedSameFirstKey<T>(r1: seq<T>, r2: seq<T>, key: T -> nat)
    requires r1 != [] && r2 != []
    requires NonIncreasing(r1, key) && NonIncreasing(r2, key)
    requires Filter(r1, KeyIs(key, key(r1[0]))) == Filter(r2, KeyIs(key, key(r1[0])))
    requires Filter(r1, KeyIs(key, key(r2[0]))) == Filter(r2, KeyIs(key, key(r2[0])))
    ensures key(r1[0]) == key(r2[0])
  {
    var m1, m2 := key(r1[0]), key(r2[0]);
    assert Filter(r1, KeyIs(key, m1))[0] == r1[0];
    assert Filter(r2, KeyIs(key, m2))[0] == r2[0];
    FilterHead(r2, KeyIs(key, m1));
    SortedHeadIsMax(r2, key, Filter(r2, KeyIs(key, m1))[0]);
    FilterHead(r1, KeyIs(key, m2));
    SortedHeadIsMax(r1, key, Filter(r1, KeyIs(key, m2))[0]);
  }

  lemma FilterDropHead<T>(r1: seq<T>, r2: seq<T>, p: T -> bool)
    requires r1 != [] && r2 != [] && r1[0] == r2[0]
    requires Filter(r1, p) == Filter(r2, p)
    ensures Filter(r1[1..], p) == Filter(r2[1..], p)
  {
    var h := if p(r1[0]) then [r1[0]] else [];
    assert Filter(r1, p) == h + Filter(r1[1..], p);
    assert Filter(r2, p) == h + Filter(r2[1..], p);
    assert Filter(r1[1..], p) == Filter(r1, p)[|h|..];
    assert Filter(r2[1..], p) == Filter(r2, p)[|h|..];
  }

  /** A sequence sorted by descending key is fixed by the order of the elements of each key:
      every stable descending sort of s, whatever its algorithm, returns SortDesc(s, key). */
  lemma {:induction false} StableSortUnique<T>(r1: seq<T>, r2: seq<T>, key: T -> nat)
    requires NonIncreasing(r1, key) && NonIncreasing(r2, key)
    requires forall k: nat :: Filter(r1, KeyIs(key, k)) == Filter(r2, KeyIs(key, k))
    ensures r1 == r2
    decreases |r1| + |r2|
  {
    if r1 != [] {
      FilterKeepsHead(r1, KeyIs(key, key(r1[0])));
    }
    if r2 != [] {
      FilterKeepsHead(r2, KeyIs(key, key(r2[0])));
    }
    if r1 != [] && r2 != [] {
      SortedSameFirstKey(r1, r2, key);
      var m := key(r1[0]);
      assert Filter(r1, KeyIs(key, m))[0] == r1[0];
      assert Filter(r2, KeyIs(key, m))[0] == r2[0];
      forall k: nat ensures Filter(r1[1..], KeyIs(key, k)) == Filter(r2[1..], KeyIs(key, k)) {
        FilterDropHead(r1, r2, KeyIs(key, k));
      }
      StableSortUnique(r1[1..], r2[1..], key);
      assert r1 == [r1[0]] + r1[1..] && r2 == [r2[0]] + r2[1..];
    }
  }
}
