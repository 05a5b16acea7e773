/** The counting dictionaries the pages fill with `forEach`:

      const counts = { k1: 0, k2: 0, ... }
      rows.forEach(r => { counts[key(r)] = (counts[key(r)] || 0) + 1 })

    A JavaScript object with string keys enumerates its keys in insertion order,
    so the dictionary is modelled as a list of entries with distinct keys: the
    seeded keys first, in the order written, then every other key in the order
    it was first met. */
module Counting {

  datatype Entry = Entry(key: string, count: nat)

  function KeysOf(c: seq<Entry>): (r: seq<string>)
    ensures |r| == |c|
    ensures forall i :: 0 <= i < |c| ==> r[i] == c[i].key
  {
    seq(|c|, i requires 0 <= i < |c| => c[i].key)
  }

  ghost predicate Distinct(s: seq<string>)
  {
    forall i, j :: 0 <= i < j < |s| ==> s[i] != s[j]
  }

  /** `counts[k] || 0` */
  function Get(c: seq<Entry>, k: string): nat
  {
    if c == [] then 0 else if c[0].key == k then c[0].count else Get(c[1..], k)
  }

  /** `counts[k] = (counts[k] || 0) + 1` */
  function Bump(c: seq<Entry>, k: string): seq<Entry>
  {
    if c == [] then [Entry(k, 1)]
    else if c[0].key == k then [Entry(k, c[0].count + 1)] + c[1..]
    else [c[0]] + Bump(c[1..], k)
  }

  /** The seeded dictionary `{ k1: 0, k2: 0, ... }`. */
  function Zeros(keys: seq<string>): (c: seq<Entry>)
    ensures KeysOf(c) == keys
    ensures forall i :: 0 <= i < |c| ==> c[i].count == 0
  {
    seq(|keys|, i requires 0 <= i < |keys| => Entry(keys[i], 0))
  }

  /** The dictionary after the `forEach` has bumped every key of ks, in order. */
  function Tally(seed: seq<Entry>, ks: seq<string>): seq<Entry>
    decreases |ks|
  {
    if ks == [] then seed else Bump(Tally(seed, ks[..|ks| - 1]), ks[|ks| - 1])
  }

  /** The sum of all counts, whatever the key. */
  function Total(c: seq<Entry>): nat
  {
    if c == [] then 0 else c[0].count + Total(c[1..])
  }

  /** How many times k occurs in ks. */
  function Occurrences(ks: seq<string>, k: string): (n: nat)
    ensures n <= |ks|
    ensures n == 0 <==> k !in ks
    decreases |ks|
  {
    if ks == [] then 0
    else Occurrences(ks[..|ks| - 1], k) + (if ks[|ks| - 1] == k then 1 else 0)
  }

  /** Where k first occurs in ks. */
  function FirstIndex(ks: seq<string>, k: string): (i: nat)
    requires k in ks
    ensures i < |ks| && ks[i] == k && k !in ks[..i]
  {
    if ks[0] == k then 0 else 1 + FirstIndex(ks[1..], k)
  }

  /** The `forEach` loop itself. */
  method CountKeys(seed: seq<Entry>, ks: seq<string>) returns (c: seq<Entry>)
    ensures c == Tally(seed, ks)
  {
    c := seed;
    var i := 0;
    while i < |ks|
      invariant 0 <= i <= |ks|
      invariant c == Tally(seed, ks[..i])
    {
      assert ks[..i + 1][..i] == ks[..i];
      c := Bump(c, ks[i]);
      i := i + 1;
    }
    assert ks[..|ks|] == ks;
  }

  // ---------------------------------------------------------------------------
  // One bump

  lemma {:induction false} BumpGet(c: seq<Entry>, x: string, k: string)
    ensures Get(Bump(c, x), k) == Get(c, k) + (if x == k then 1 else 0)
  {
    if c != [] && c[0].key != x {
      BumpGet(c[1..], x, k);
    }
  }

  lemma {:induction false} BumpTotal(c: seq<Entry>, x: string)
    ensures Total(Bump(c, x)) == Total(c) + 1
  {
    if c != [] && c[0].key != x {
      BumpTotal(c[1..], x);
    }
  }

  lemma KeysCons(e: Entry, c: seq<Entry>)
    ensures KeysOf([e] + c) == [e.key] + KeysOf(c)
  {
  }

  /** Bumping the first key keeps the keys. */
  lemma BumpHeadKeys(c: seq<Entry>, x: string)
    requires c != [] && c[0].key == x
    ensures KeysOf(Bump(c, x)) == KeysOf(c)
  {
    assert c == [c[0]] + c[1..];
    KeysCons(c[0], c[1..]);
    KeysCons(Entry(x, c[0].count + 1), c[1..]);
  }

  /** Bumping a key other than the first passes over the first entry. */
  lemma BumpPastHeadKeys(c: seq<Entry>, x: string)
    requires c != [] && c[0].key != x
    ensures KeysOf(c) == [c[0].key] + KeysOf(c[1..])
    ensures KeysOf(Bump(c, x)) == [c[0].key] + KeysOf(Bump(c[1..], x))
  {
    assert c == [c[0]] + c[1..];
    KeysCons(c[0], c[1..]);
    KeysCons(c[0], Bump(c[1..], x));
  }

  lemma {:induction false} BumpKeysPresent(c: seq<Entry>, x: string)
    requires x in KeysOf(c)
    ensures KeysOf(Bump(c, x)) == KeysOf(c)
  {
    if c[0].key == x {
      BumpHeadKeys(c, x);
    } else {
      BumpPastHeadKeys(c, x);
      BumpKeysPresent(c[1..], x);
    }
  }

  lemma {:induction false} BumpKeysAbsent(c: seq<Entry>, x: string)
    requires x !in KeysOf(c)
    ensures KeysOf(Bump(c, x)) == KeysOf(c) + [x]
  {
    if c == [] {
      assert Bump(c, x) == [Entry(x, 1)];
    } else {
      BumpPastHeadKeys(c, x);
      BumpKeysAbsent(c[1..], x);
      assert [c[0].key] + (KeysOf(c[1..]) + [x]) == ([c[0].key] + KeysOf(c[1..])) + [x];
    }
  }

  lemma BumpKeys(c: seq<Entry>, x: string)
    ensures KeysOf(Bump(c, x)) == if x in KeysOf(c) then KeysOf(c) else KeysOf(c) + [x]
  {
    if x in KeysOf(c) {
      BumpKeysPresent(c, x);
    } else {
      BumpKeysAbsent(c, x);
    }
  }

  lemma {:induction false} FirstIndexAppend(ks: seq<string>, x: string, y: string)
    requires y in ks
    ensures y in ks + [x] && FirstIndex(ks + [x], y) == FirstIndex(ks, y)
  {
    assert (ks + [x])[0] == ks[0];
    if ks[0] != y {
      assert (ks + [x])[1..] == ks[1..] + [x];
      FirstIndexAppend(ks[1..], x, y);
    }
  }

  lemma {:induction false} FirstIndexNew(ks: seq<string>, x: string)
    requires x !in ks
    ensures x in ks + [x] && FirstIndex(ks + [x], x) == |ks|
  {
    if ks != [] {
      assert (ks + [x])[0] == ks[0];
      assert (ks + [x])[1..] == ks[1..] + [x];
      FirstIndexNew(ks[1..], x);
    }
  }

  // ---------------------------------------------------------------------------
  // The whole loop

  lemma {:induction false} TallyGet(seed: seq<Entry>, ks: seq<string>, k: string)
    ensures Get(Tally(seed, ks), k) == Get(seed, k) + Occurrences(ks, k)
    decreases |ks|
  {
    if ks != [] {
      TallyGet(seed, ks[..|ks| - 1], k);
      BumpGet(Tally(seed, ks[..|ks| - 1]), ks[|ks| - 1], k);
    }
  }

  lemma {:induction false} TallyTotal(seed: seq<Entry>, ks: seq<string>)
    ensures Total(Tally(seed, ks)) == Total(seed) + |ks|
    decreases |ks|
  {
    if ks != [] {
      TallyTotal(seed, ks[..|ks| - 1]);
      BumpTotal(Tally(seed, ks[..|ks| - 1]), ks[|ks| - 1]);
    }
  }

  /** The key order of a dictionary r filled from the seed keys sk by bumping ks: the
      seeded keys first and unchanged, then each new key once, in the order of its first
      occurrence in ks. */
  ghost predicate KeyOrder(sk: seq<string>, ks: seq<string>, r: seq<string>)
  {
    && Distinct(r)
    && |sk| <= |r|
    && r[..|sk|] == sk
    && (forall k :: k in r <==> k in sk || k in ks)
    && (forall i :: |sk| <= i < |r| ==> r[i] in ks && r[i] !in sk)
    && (forall i, j :: |sk| <= i < j < |r| ==> FirstIndex(ks, r[i]) < FirstIndex(ks, r[j]))
  }

  /** Bumping a key already present keeps the key order. */
  lemma KeyOrderOld(sk: seq<string>, init: seq<string>, x: string, p: seq<string>)
    requires KeyOrder(sk, init, p) && x in p
    ensures KeyOrder(sk, init + [x], p)
  {
    forall i | |sk| <= i < |p| ensures p[i] in init + [x] && FirstIndex(init + [x], p[i]) == FirstIndex(init, p[i]) {
      FirstIndexAppend(init, x, p[i]);
    }
  }

  /** Bumping a new key appends it, last in first-occurrence order. */
  lemma KeyOrderNew(sk: seq<string>, init: seq<string>, x: string, p: seq<string>)
    requires KeyOrder(sk, init, p) && x !in p
    ensures KeyOrder(sk, init + [x], p + [x])
  {
    var ks, r := init + [x], p + [x];
    assert x !in init;
    FirstIndexNew(init, x);
    forall i | |sk| <= i < |p| ensures p[i] in ks && FirstIndex(ks, p[i]) == FirstIndex(init, p[i]) {
      FirstIndexAppend(init, x, p[i]);
    }
    assert r[..|sk|] == p[..|sk|];
    forall i, j | 0 <= i < j < |r| ensures r[i] != r[j] {
      if j < |p| {
        assert r[i] == p[i] && r[j] == p[j];
      } else {
        assert r[i] == p[i];
      }
    }
    forall i, j | |sk| <= i < j < |r| ensures FirstIndex(ks, r[i]) < FirstIndex(ks, r[j]) {
      assert r[i] == p[i];
      if j < |p| {
        assert r[j] == p[j];
      }
    }
  }

  lemma {:induction false} TallyKeyOrder(seed: seq<Entry>, ks: seq<string>)
    requires Distinct(KeysOf(seed))
    ensures KeyOrder(KeysOf(seed), ks, KeysOf(Tally(seed, ks)))
    decreases |ks|
  {
    if ks == [] {
      assert KeysOf(seed)[..|seed|] == KeysOf(seed);
    } else {
      var init, x := ks[..|ks| - 1], ks[|ks| - 1];
      assert ks == init + [x];
      TallyKeyOrder(seed, init);
      var prev := Tally(seed, init);
      BumpKeys(prev, x);
      if x in KeysOf(prev) {
        KeyOrderOld(KeysOf(seed), init, x, KeysOf(prev));
      } else {
        KeyOrderNew(KeysOf(seed), init, x, KeysOf(prev));
      }
    }
  }

  /** The key order of the dictionary after the whole loop. */
  lemma TallyKeys(seed: seq<Entry>, ks: seq<string>)
    requires Distinct(KeysOf(seed))
    ensures var r := KeysOf(Tally(seed, ks));
      && Distinct(r)
      && |seed| <= |r|
      && r[..|seed|] == KeysOf(seed)
      && (forall k :: k in r <==> k in KeysOf(seed) || k in ks)
      && (forall i :: |seed| <= i < |r| ==> r[i] in ks && r[i] !in KeysOf(seed))
      && (forall i, j :: |seed| <= i < j < |r| ==> FirstIndex(ks, r[i]) < FirstIndex(ks, r[j]))
  {
    TallyKeyOrder(seed, ks);
  }

  lemma {:induction false} ZerosGet(keys: seq<string>, k: string)
    ensures Get(Zeros(keys), k) == 0
  {
    if keys != [] {
      assert Zeros(keys)[1..] == Zeros(keys[1..]);
      ZerosGet(keys[1..], k);
    }
  }

  lemma {:induction false} ZerosTotal(keys: seq<string>)
    ensures Total(Zeros(keys)) == 0
  {
    if keys != [] {
      assert Zeros(keys)[1..] == Zeros(keys[1..]);
      ZerosTotal(keys[1..]);
    }
  }

  /** What every page's seeded `forEach` count guarantees: the canonical keys lead, in
      the order written; the counts add up to the number of rows; each key counts
      exactly its rows; any other key follows in the order it was first met. */
  lemma SeededTally(canonical: seq<string>, ks: seq<string>)
    requires Distinct(canonical)
    ensures var c := Tally(Zeros(canonical), ks);
      && |canonical| <= |c|
      && KeysOf(c)[..|canonical|] == canonical
      && Distinct(KeysOf(c))
      && Total(c) == |ks|
      && (forall k :: Get(c, k) == Occurrences(ks, k))
      && (forall k :: k in KeysOf(c) <==> k in canonical || k in ks)
      && (forall i, j :: |canonical| <= i < j < |c| ==>
            FirstIndex(ks, c[i].key) < FirstIndex(ks, c[j].key))
  {
    var seed := Zeros(canonical);
    TallyKeys(seed, ks);
    TallyTotal(seed, ks);
    ZerosTotal(canonical);
    forall k ensures Get(Tally(seed, ks), k) == Occurrences(ks, k) {
      TallyGet(seed, ks, k);
      ZerosGet(canonical, k);
    }
  }

  /** With distinct keys, looking up an entry's own key finds that entry. */
  lemma {:induction false} GetAt(c: seq<Entry>, i: int)
    requires Distinct(KeysOf(c)) && 0 <= i < |c|
    ensures Get(c, c[i].key) == c[i].count
  {
    if i > 0 {
      assert KeysOf(c)[0] != KeysOf(c)[i];
      assert KeysOf(c[1..]) == KeysOf(c)[1..];
      GetAt(c[1..], i - 1);
    }
  }

  /** A reordering of a dictionary holds the same entries: each with its own count. */
  lemma EntryOfPermutation(c: seq<Entry>, r: seq<Entry>, i: int)
    requires Distinct(KeysOf(c)) && multiset(r) == multiset(c) && 0 <= i < |r|
    ensures r[i].count == Get(c, r[i].key) && r[i].key in KeysOf(c)
  {
    assert r[i] in multiset(c);
    var j :| 0 <= j < |c| && c[j] == r[i];
    GetAt(c, j);
    assert KeysOf(c)[j] == r[i].key;
  }

  lemma KeyOfPermutation(c: seq<Entry>, r: seq<Entry>, k: string)
    requires multiset(r) == multiset(c) && k in KeysOf(c)
    ensures k in KeysOf(r)
  {
    var j :| 0 <= j < |c| && KeysOf(c)[j] == k;
    assert c[j] in multiset(r);
    var i :| 0 <= i < |r| && r[i] == c[j];
    assert KeysOf(r)[i] == k;
  }

  /** Two different keys together count at most all the rows. */
  lemma {:induction false} OccurrencesOfTwo(ks: seq<string>, a: string, b: string)
    requires a != b
    ensures Occurrences(ks, a) + Occurrences(ks, b) <= |ks|
    decreases |ks|
  {
    if ks != [] {
      OccurrencesOfTwo(ks[..|ks| - 1], a, b);
    }
  }

  lemma {:induction false} OccurrencesAppend(a: seq<string>, b: seq<string>, k: string)
    ensures Occurrences(a + b, k) == Occurrences(a, k) + Occurrences(b, k)
    decreases |b|
  {
    if b == [] {
      assert a + b == a;
    } else {
      assert (a + b)[..|a + b| - 1] == a + b[..|b| - 1];
      OccurrencesAppend(a, b[..|b| - 1], k);
    }
  }
}
