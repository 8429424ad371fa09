/**
 * Filter, newest-first sort and truncation, the pipeline every list endpoint
 * of the stores runs (`filter(...).sort((a, b) => key(b) - key(a)).slice(0, n)`),
 * and the prefix listing of a key-value storage that feeds it.
 */
module Listing {
  import opened Js

  ghost predicate SortedDesc<T>(s: seq<T>, key: T -> int) {
    forall i, j :: 0 <= i < j < |s| ==> key(s[i]) >= key(s[j])
  }

  ghost predicate Distinct<T>(s: seq<T>) {
    forall i, j :: 0 <= i < j < |s| ==> s[i] != s[j]
  }

  /**
   * `r` holds elements of `all`, each at most as often as `all` does, and
   * nothing left over once `r` is taken out of `all` (copies counted) is
   * newer than an element of `r`.
   */
  ghost predicate NewestOf<T>(r: seq<T>, all: multiset<T>, key: T -> int) {
    && multiset(r) <= all
    && forall y, z :: y in r && z in all - multiset(r) ==> key(y) >= key(z)
  }

  /** `s.filter(p)`. */
  function Filter<T(!new)>(s: seq<T>, p: T -> bool): (r: seq<T>)
    ensures |r| <= |s|
    ensures forall x :: x in r <==> x in s && p(x)
    ensures multiset(r) <= multiset(s)
    decreases |s|
  {
    if s == [] then []
    else
      assert s == [s[0]] + s[1..];
      (if p(s[0]) then [s[0]] else []) + Filter(s[1..], p)
  }

  /**
   * Inserts `x` in front of the first element whose key is not larger, so
   * that elements with equal keys keep their relative order.
   */
  function Insert<T>(x: T, s: seq<T>, key: T -> int): (r: seq<T>)
    ensures |r| == |s| + 1
    ensures r[0] == x || (|s| > 0 && r[0] == s[0])
    ensures multiset(r) == multiset(s) + multiset{x}
    ensures SortedDesc(s, key) ==> SortedDesc(r, key)
    decreases |s|
  {
    if s == [] || key(s[0]) <= key(x) then
      assert SortedDesc(s, key) ==> SortedDesc([x] + s, key) by {
        if SortedDesc(s, key) { ConsSorted(x, s, key); }
      }
      [x] + s
    else
      var rest := Insert(x, s[1..], key);
      assert s == [s[0]] + s[1..];
      assert multiset([s[0]] + rest) == multiset{s[0]} + multiset(rest);
      InsertBehind(s, x, rest, key);
      [s[0]] + rest
  }

  /** Inserting behind the head of `s` keeps a sorted `s` sorted. */
  lemma InsertBehind<T>(s: seq<T>, x: T, rest: seq<T>, key: T -> int)
    requires s != [] && key(s[0]) > key(x)
    requires SortedDesc(s[1..], key) ==> SortedDesc(rest, key)
    requires rest != [] && (rest[0] == x || (|s| > 1 && rest[0] == s[1]))
    ensures SortedDesc(s, key) ==> SortedDesc([s[0]] + rest, key)
  {
    if SortedDesc(s, key) {
      assert SortedDesc(s[1..], key);
      ConsSorted(s[0], rest, key);
    }
  }

  /** An element no lower than the head of a sorted sequence can go in front of it. */
  lemma ConsSorted<T>(h: T, rest: seq<T>, key: T -> int)
    requires SortedDesc(rest, key) && (rest == [] || key(rest[0]) <= key(h))
    ensures SortedDesc([h] + rest, key)
  {
    forall i, j | 0 <= i < j < |rest| + 1
      ensures key(([h] + rest)[i]) >= key(([h] + rest)[j])
    {
      if i == 0 && j > 1 {
        assert key(rest[0]) >= key(rest[j - 1]);
      }
    }
  }

  /** A stable sort, largest key first. */
  function SortDesc<T>(s: seq<T>, key: T -> int): (r: seq<T>)
    ensures multiset(r) == multiset(s)
    ensures |r| == |s|
    ensures SortedDesc(r, key)
    decreases |s|
  {
    if s == [] then []
    else
      assert s == [s[0]] + s[1..];
      Insert(s[0], SortDesc(s[1..], key), key)
  }

  /** Filtering a sequence grown by one element, as a loop pushing matches does. */
  lemma {:induction false} FilterAppend<T(!new)>(s: seq<T>, x: T, p: T -> bool)
    ensures Filter(s + [x], p) == Filter(s, p) + (if p(x) then [x] else [])
    decreases |s|
  {
    if s == [] {
      assert s + [x] == [x];
      assert [x][1..] == [];
    } else {
      assert (s + [x])[0] == s[0];
      assert (s + [x])[1..] == s[1..] + [x];
      FilterAppend(s[1..], x, p);
      assert (if p(s[0]) then [s[0]] else []) + (Filter(s[1..], p) + (if p(x) then [x] else []))
          == ((if p(s[0]) then [s[0]] else []) + Filter(s[1..], p)) + (if p(x) then [x] else []);
    }
  }

  /** Keep the elements satisfying `p`, newest first, and cut to `slice(0, n)`. */
  function TopN<T(!new)>(s: seq<T>, p: T -> bool, key: T -> int, n: int): seq<T> {
    Take(SortDesc(Filter(s, p), key), n)
  }

  /**
   * What a list endpoint returns: matching elements of `s`, each at most as
   * often as it occurs among the matches, newest first, exactly as many as
   * `slice(0, n)` keeps of the matches, and no match left out, copies
   * counted, is newer than one returned.
   */
  lemma TopNSpec<T(!new)>(s: seq<T>, p: T -> bool, key: T -> int, n: int)
    ensures var r := TopN(s, p, key, n);
      && (forall x :: x in r ==> x in s && p(x))
      && NewestOf(r, multiset(Filter(s, p)), key)
      && SortedDesc(r, key)
      && |r| == SliceEnd(|Filter(s, p)|, n)
      && (forall x :: x in s && p(x) && x !in r ==> forall y :: y in r ==> key(y) >= key(x))
  {
    var f := Filter(s, p);
    var sorted := SortDesc(f, key);
    var r := Take(sorted, n);
    PrefixOfSorted(f, sorted, r, key);
  }

  /**
   * A prefix `r` of a sorted permutation of `f`: sorted, and the newest
   * elements of `f` with copies counted.
   */
  lemma PrefixOfSorted<T>(f: seq<T>, sorted: seq<T>, r: seq<T>, key: T -> int)
    requires multiset(sorted) == multiset(f) && SortedDesc(sorted, key) && r <= sorted
    ensures forall x :: x in r ==> x in f
    ensures NewestOf(r, multiset(f), key)
    ensures SortedDesc(r, key)
    ensures forall x :: x in f && x !in r ==> forall y :: y in r ==> key(y) >= key(x)
  {
    assert r == sorted[..|r|];
    assert sorted == r + sorted[|r|..];
    assert multiset(sorted) == multiset(r) + multiset(sorted[|r|..]);
    assert multiset(f) - multiset(r) == multiset(sorted[|r|..]);
    SortedSplit(r, sorted[|r|..], key);
    forall x | x in r ensures x in f {
      assert x in multiset(sorted);
    }
    forall x | x in f && x !in r
      ensures forall y :: y in r ==> key(y) >= key(x)
    {
      assert x in multiset(f);
      var j :| 0 <= j < |sorted| && sorted[j] == x;
      forall y | y in r ensures key(y) >= key(x) {
        var i :| 0 <= i < |r| && r[i] == y;
        assert i < j;
      }
    }
  }

  /** In a sorted sequence, nothing after a split point is newer than anything before it. */
  lemma SortedSplit<T>(r: seq<T>, tail: seq<T>, key: T -> int)
    requires SortedDesc(r + tail, key)
    ensures forall y, z :: y in r && z in multiset(tail) ==> key(y) >= key(z)
  {
    forall y, z | y in r && z in multiset(tail) ensures key(y) >= key(z) {
      var i :| 0 <= i < |r| && r[i] == y;
      var j :| 0 <= j < |tail| && tail[j] == z;
      assert (r + tail)[i] == y && (r + tail)[|r| + j] == z;
    }
  }

  /** Without a cut, every matching element is returned. */
  lemma TopNKeepsAll<T(!new)>(s: seq<T>, p: T -> bool, key: T -> int)
    ensures forall x :: x in s && p(x) ==> x in TopN(s, p, key, |Filter(s, p)|)
  {
    var f := Filter(s, p);
    assert TopN(s, p, key, |f|) == SortDesc(f, key);
    forall x | x in s && p(x) ensures x in SortDesc(f, key) {
      assert x in multiset(f);
    }
  }

  /**
   * `vs` holds the values of exactly the keys of `m` that start with
   * `prefix`, one per key, in the order given by `keys`.
   */
  ghost predicate ListedUnder<V>(m: map<string, V>, prefix: string, vs: seq<V>, keys: seq<string>) {
    && |vs| == |keys|
    && (forall i :: 0 <= i < |keys| ==> keys[i] in m && vs[i] == m[keys[i]])
    && Distinct(keys)
    && (forall k :: k in keys <==> k in m && StartsWith(k, prefix))
  }

  /**
   * `storage.list({prefix})` (or `list()` followed by a `startsWith` test)
   * and the loop pushing each value. The storage's own key order is not
   * modelled: keys are taken in an arbitrary order.
   */
  method ListPrefix<V>(m: map<string, V>, prefix: string) returns (vs: seq<V>, ghost keys: seq<string>)
    ensures ListedUnder(m, prefix, vs, keys)
  {
    var rest := m.Keys;
    vs, keys := [], [];
    while rest != {}
      invariant rest <= m.Keys
      invariant |vs| == |keys|
      invariant forall i :: 0 <= i < |keys| ==> keys[i] in m && vs[i] == m[keys[i]]
      invariant Distinct(keys)
      invariant forall k :: k in keys ==> k !in rest && StartsWith(k, prefix)
      invariant forall k :: k in m && k !in rest && StartsWith(k, prefix) ==> k in keys
      decreases rest
    {
      var k :| k in rest;
      rest := rest - {k};
      if StartsWith(k, prefix) {
        vs, keys := vs + [m[k]], keys + [k];
      }
    }
  }

  /** The number of keys under `prefix` whose value satisfies `p`. */
  ghost function MatchCount<V>(m: map<string, V>, prefix: string, p: V -> bool): nat {
    |set k | k in m && StartsWith(k, prefix) && p(m[k])|
  }

  /** Filtering a listing counts the matching keys. */
  lemma {:induction false} FilterCountsKeys<V(!new)>(m: map<string, V>, vs: seq<V>, keys: seq<string>, p: V -> bool)
    requires |vs| == |keys| && Distinct(keys)
    requires forall i :: 0 <= i < |keys| ==> keys[i] in m && vs[i] == m[keys[i]]
    ensures |Filter(vs, p)| == |set k | k in keys && p(m[k])|
    decreases |keys|
  {
    if keys != [] {
      FilterCountsKeys(m, vs[1..], keys[1..], p);
      MatchingKeysSplit(m, keys, p);
      assert Filter(vs, p) == (if p(vs[0]) then [vs[0]] else []) + Filter(vs[1..], p);
    }
  }

  /** The matching keys of a listing are its head, when it matches, and the matching keys of its tail. */
  lemma MatchingKeysSplit<V>(m: map<string, V>, keys: seq<string>, p: V -> bool)
    requires keys != [] && Distinct(keys)
    requires forall k :: k in keys ==> k in m
    ensures |set k | k in keys && p(m[k])| == (if p(m[keys[0]]) then 1 else 0) + |set k | k in keys[1..] && p(m[k])|
  {
    var all := set k | k in keys && p(m[k]);
    var tail := set k | k in keys[1..] && p(m[k]);
    var head: set<string> := if p(m[keys[0]]) then {keys[0]} else {};
    assert keys == [keys[0]] + keys[1..];
    assert all == head + tail;
    assert keys[0] !in keys[1..];
    assert |all| == |head| + |tail|;
  }

  /**
   * Every list endpoint over a prefix of the storage, stated on the storage
   * itself: results are stored values under `prefix` satisfying `p`, no
   * value more often than there are keys holding it, newest first,
   * `slice(0, n)` of all matches, and no unreturned match is newer than a
   * returned one. With copies counted: every listing of the prefix has the
   * same matching values, and `r` is the newest of them.
   */
  ghost predicate IsTopOfStore<V(!new)>(r: seq<V>, m: map<string, V>, prefix: string, p: V -> bool, key: V -> int, n: int) {
    && (forall v :: v in r ==> p(v) && exists k :: k in m && StartsWith(k, prefix) && m[k] == v)
    && (exists vs, keys :: ListedUnder(m, prefix, vs, keys) && multiset(r) <= multiset(vs)
          && NewestOf(r, multiset(Filter(vs, p)), key))
    && SortedDesc(r, key)
    && |r| == SliceEnd(MatchCount(m, prefix, p), n)
    && (forall k :: k in m && StartsWith(k, prefix) && p(m[k]) && m[k] !in r ==>
          forall v :: v in r ==> key(v) >= key(m[k]))
  }

  /** The pipeline run on a prefix listing meets `IsTopOfStore`; `total` is the match count. */
  lemma ListedTopN<V(!new)>(m: map<string, V>, prefix: string, vs: seq<V>, keys: seq<string>, p: V -> bool, key: V -> int, n: int)
    requires ListedUnder(m, prefix, vs, keys)
    ensures IsTopOfStore(TopN(vs, p, key, n), m, prefix, p, key, n)
    ensures |Filter(vs, p)| == MatchCount(m, prefix, p)
  {
    TopNSpec(vs, p, key, n);
    ListedCount(m, prefix, vs, keys, p);
    ListedValues(m, prefix, vs, keys, TopN(vs, p, key, n), p, key);
    assert multiset(TopN(vs, p, key, n)) <= multiset(vs);
  }

  /** Filtering a prefix listing counts the matching keys under the prefix. */
  lemma ListedCount<V(!new)>(m: map<string, V>, prefix: string, vs: seq<V>, keys: seq<string>, p: V -> bool)
    requires ListedUnder(m, prefix, vs, keys)
    ensures |Filter(vs, p)| == MatchCount(m, prefix, p)
  {
    FilterCountsKeys(m, vs, keys, p);
    assert (set k | k in keys && p(m[k])) == (set k | k in m && StartsWith(k, prefix) && p(m[k]));
  }

  /** Facts about the values of a listing carried over to the keys of the storage. */
  lemma ListedValues<V>(m: map<string, V>, prefix: string, vs: seq<V>, keys: seq<string>, r: seq<V>, p: V -> bool, key: V -> int)
    requires ListedUnder(m, prefix, vs, keys)
    requires forall v :: v in r ==> v in vs
    requires forall x :: x in vs && p(x) && x !in r ==> forall y :: y in r ==> key(y) >= key(x)
    ensures forall v :: v in r ==> exists k :: k in m && StartsWith(k, prefix) && m[k] == v
    ensures forall k :: k in m && StartsWith(k, prefix) && p(m[k]) && m[k] !in r ==>
      forall v :: v in r ==> key(v) >= key(m[k])
  {
    forall v | v in r ensures exists k :: k in m && StartsWith(k, prefix) && m[k] == v {
      var i :| 0 <= i < |vs| && vs[i] == v;
      assert keys[i] in keys;
    }
    forall k | k in m && StartsWith(k, prefix) && p(m[k]) && m[k] !in r
      ensures forall v :: v in r ==> key(v) >= key(m[k])
    {
      var i :| 0 <= i < |keys| && keys[i] == k;
      assert vs[i] in vs;
    }
  }

  /** `s.map(f)`. */
  function Mapped<A, B>(s: seq<A>, f: A -> B): (r: seq<B>)
    ensures |r| == |s|
    ensures forall i :: 0 <= i < |s| ==> r[i] == f(s[i])
  {
    seq(|s|, i requires 0 <= i < |s| => f(s[i]))
  }

  /** Mapping by a key-preserving `f` keeps the newest elements the newest, copies counted. */
  lemma MappedNewest<A, B>(a: seq<A>, b: seq<A>, f: A -> B, key: A -> int, tkey: B -> int)
    requires NewestOf(a, multiset(b), key)
    requires forall x :: tkey(f(x)) == key(x)
    ensures NewestOf(Mapped(a, f), multiset(Mapped(b, f)), tkey)
  {
    var c := SeqOf(multiset(b) - multiset(a));
    MappedSplit(a, c, b, f);
    MappedBelow(a, c, f, key, tkey);
  }

  /** Mapping a split of `b` into `a` and `c` splits the image of `b` the same way. */
  lemma MappedSplit<A, B>(a: seq<A>, c: seq<A>, b: seq<A>, f: A -> B)
    requires multiset(a) + multiset(c) == multiset(b)
    ensures multiset(Mapped(b, f)) == multiset(Mapped(a, f)) + multiset(Mapped(c, f))
  {
    assert multiset(a + c) == multiset(b);
    MappedPerm(a + c, b, f);
    MappedAppend(a, c, f);
  }

  /** An order between two sequences survives a key-preserving mapping. */
  lemma MappedBelow<A, B>(a: seq<A>, c: seq<A>, f: A -> B, key: A -> int, tkey: B -> int)
    requires forall y, z :: y in a && z in multiset(c) ==> key(y) >= key(z)
    requires forall x :: tkey(f(x)) == key(x)
    ensures forall y, w :: y in Mapped(a, f) && w in multiset(Mapped(c, f)) ==> tkey(y) >= tkey(w)
  {
    forall y, w | y in Mapped(a, f) && w in multiset(Mapped(c, f))
      ensures tkey(y) >= tkey(w)
    {
      var i :| 0 <= i < |a| && Mapped(a, f)[i] == y;
      var k :| 0 <= k < |c| && Mapped(c, f)[k] == w;
      assert a[i] in a && c[k] in multiset(c);
    }
  }

  /** The elements of a multiset, in some order. */
  ghost function SeqOf<T>(m: multiset<T>): (r: seq<T>)
    ensures multiset(r) == m
    decreases |m|
  {
    if m == multiset{} then []
    else
      var x :| x in m;
      [x] + SeqOf(m - multiset{x})
  }

  /** Sequences holding the same elements map to sequences holding the same elements. */
  lemma {:induction false} MappedPerm<A, B>(x: seq<A>, y: seq<A>, f: A -> B)
    requires multiset(x) == multiset(y)
    ensures multiset(Mapped(x, f)) == multiset(Mapped(y, f))
    decreases |x|
  {
    if x != [] {
      var h := x[0];
      assert h in multiset(y);
      var j :| 0 <= j < |y| && y[j] == h;
      var rest := y[..j] + y[j + 1..];
      RemoveAt(y, j);
      assert x == [h] + x[1..];
      assert multiset(x) == multiset{h} + multiset(x[1..]);
      forall z ensures multiset(x[1..])[z] == multiset(rest)[z] {
        assert multiset(x)[z] == multiset(y)[z];
      }
      assert multiset(x[1..]) == multiset(rest);
      MappedPerm(x[1..], rest, f);
      MappedRemoveAt(y, j, f);
      MappedAppend([h], x[1..], f);
      assert Mapped([h], f) == [f(h)];
    }
  }

  /** Removing the element at `j` before mapping takes one copy of its image out. */
  lemma MappedRemoveAt<A, B>(b: seq<A>, j: nat, f: A -> B)
    requires j < |b|
    ensures multiset(Mapped(b, f)) == multiset(Mapped(b[..j] + b[j + 1..], f)) + multiset{f(b[j])}
  {
    var u, v := b[..j], b[j + 1..];
    assert b == u + ([b[j]] + v);
    MappedAppend(u, [b[j]] + v, f);
    MappedAppend([b[j]], v, f);
    MappedAppend(u, v, f);
    assert Mapped([b[j]], f) == [f(b[j])];
    calc {
      multiset(Mapped(b, f));
      multiset(Mapped(u, f) + ([f(b[j])] + Mapped(v, f)));
      multiset(Mapped(u, f)) + multiset{f(b[j])} + multiset(Mapped(v, f));
      multiset(Mapped(u + v, f)) + multiset{f(b[j])};
    }
  }

  /** Removing the element at `j` takes one copy of it out of the multiset. */
  lemma RemoveAt<T>(b: seq<T>, j: nat)
    requires j < |b|
    ensures multiset(b) == multiset(b[..j] + b[j + 1..]) + multiset{b[j]}
  {
    assert b == b[..j] + [b[j]] + b[j + 1..];
  }

  /** Mapping distributes over concatenation. */
  lemma MappedAppend<A, B>(u: seq<A>, v: seq<A>, f: A -> B)
    ensures Mapped(u + v, f) == Mapped(u, f) + Mapped(v, f)
  {
  }
}
