/**
 * Sequence operations shared by the pages: JavaScript's `filter`, `slice(0, n)`,
 * the "group by key" pattern of `forEach` over a `Map`, and the toggle of a
 * selection list.
 */
module Seqs {
  import opened Optional

  /** `r` occurs in `s` as an order-preserving (not necessarily contiguous) sub-list. */
  ghost predicate Embeds<T(!new)>(r: seq<T>, s: seq<T>)
    decreases |s|
  {
    if r == [] then true
    else if s == [] then false
    else (r[|r| - 1] == s[|s| - 1] && Embeds(r[..|r| - 1], s[..|s| - 1])) || Embeds(r, s[..|s| - 1])
  }

  /** The elements of `s` that satisfy `p`, in their original order (`Array.prototype.filter`). */
  function Filter<T(!new)>(s: seq<T>, p: T -> bool): (r: seq<T>)
    ensures |r| <= |s|
    ensures forall x :: x in r <==> x in s && p(x)
    decreases |s|
  {
    if s == [] then []
    else
      var init := Filter(s[..|s| - 1], p);
      assert s == s[..|s| - 1] + [s[|s| - 1]];
      if p(s[|s| - 1]) then init + [s[|s| - 1]] else init
  }

  /** Filtering a sequence with one more element keeps that element exactly when it satisfies `p`. */
  lemma FilterSnoc<T(!new)>(s: seq<T>, x: T, p: T -> bool)
    ensures Filter(s + [x], p) == Filter(s, p) + (if p(x) then [x] else [])
  {
    assert (s + [x])[..|s + [x]| - 1] == s;
  }

  /** Filtering a concatenation filters each part. */
  lemma {:induction false} FilterConcat<T(!new)>(a: seq<T>, b: seq<T>, p: T -> bool)
    ensures Filter(a + b, p) == Filter(a, p) + Filter(b, p)
    decreases |b|
  {
    if b != [] {
      var b' := b[..|b| - 1];
      var x := b[|b| - 1];
      assert b == b' + [x];
      assert a + b == (a + b') + [x];
      FilterConcat(a, b', p);
      FilterSnoc(a + b', x, p);
      FilterSnoc(b', x, p);
    } else {
      assert a + b == a;
    }
  }

  lemma FilterCons<T(!new)>(x: T, s: seq<T>, p: T -> bool)
    ensures Filter([x] + s, p) == (if p(x) then [x] else []) + Filter(s, p)
  {
    FilterConcat([x], s, p);
    FilterSnoc([], x, p);
  }

  /** `Filter` keeps the order of the elements it keeps. */
  lemma {:induction false} FilterEmbeds<T(!new)>(s: seq<T>, p: T -> bool)
    ensures Embeds(Filter(s, p), s)
    decreases |s|
  {
    if s != [] {
      var init := Filter(s[..|s| - 1], p);
      FilterEmbeds(s[..|s| - 1], p);
      if p(s[|s| - 1]) {
        var r := init + [s[|s| - 1]];
        assert r[..|r| - 1] == init;
      }
    }
  }

  /** Filtering by two predicates that agree on the elements of the list gives the same list. */
  lemma {:induction false} FilterExt<T(!new)>(s: seq<T>, p: T -> bool, q: T -> bool)
    requires forall x :: x in s ==> p(x) == q(x)
    ensures Filter(s, p) == Filter(s, q)
    decreases |s|
  {
    if s != [] {
      assert s == s[..|s| - 1] + [s[|s| - 1]];
      FilterExt(s[..|s| - 1], p, q);
    }
  }

  /** A predicate that every element satisfies keeps the whole list. */
  lemma {:induction false} FilterKeepsAll<T(!new)>(s: seq<T>, p: T -> bool)
    requires forall x :: x in s ==> p(x)
    ensures Filter(s, p) == s
    decreases |s|
  {
    if s != [] {
      assert s == s[..|s| - 1] + [s[|s| - 1]];
      FilterKeepsAll(s[..|s| - 1], p);
    }
  }

  /** The number of elements of `s` that satisfy `p` (`filter(p).length`). */
  function Count<T(!new)>(s: seq<T>, p: T -> bool): nat {
    |Filter(s, p)|
  }

  /** Appending one element adds one to the count exactly when it satisfies `p`. */
  lemma CountAppend<T(!new)>(s: seq<T>, x: T, p: T -> bool)
    ensures Count(s + [x], p) == Count(s, p) + (if p(x) then 1 else 0)
  {
    assert (s + [x])[..|s + [x]| - 1] == s;
  }

  /** Counting over a concatenation adds the counts of both parts. */
  lemma {:induction false} CountConcat<T(!new)>(a: seq<T>, b: seq<T>, p: T -> bool)
    ensures Count(a + b, p) == Count(a, p) + Count(b, p)
    decreases |b|
  {
    if b == [] {
      assert a + b == a;
    } else {
      var b' := b[..|b| - 1];
      var x := b[|b| - 1];
      assert b == b' + [x];
      assert a + b == (a + b') + [x];
      CountConcat(a, b', p);
      CountAppend(a + b', x, p);
      CountAppend(b', x, p);
    }
  }

  /** A predicate implied by another counts at least as many elements. */
  lemma {:induction false} CountImplies<T(!new)>(s: seq<T>, p: T -> bool, q: T -> bool)
    requires forall x :: p(x) ==> q(x)
    ensures Count(s, p) <= Count(s, q)
    decreases |s|
  {
    if s != [] {
      var s' := s[..|s| - 1];
      assert s == s' + [s[|s| - 1]];
      CountImplies(s', p, q);
      CountAppend(s', s[|s| - 1], p);
      CountAppend(s', s[|s| - 1], q);
    }
  }

  /** Filtering first by a weaker predicate `p` does not change the count of `q`. */
  lemma {:induction false} CountFiltered<T(!new)>(s: seq<T>, p: T -> bool, q: T -> bool)
    requires forall x :: q(x) ==> p(x)
    ensures Count(Filter(s, p), q) == Count(s, q)
    decreases |s|
  {
    if s != [] {
      var s' := s[..|s| - 1];
      var x := s[|s| - 1];
      assert s == s' + [x];
      CountFiltered(s', p, q);
      CountAppend(s', x, q);
      if p(x) {
        CountAppend(Filter(s', p), x, q);
      }
    }
  }

  /** The elements of `s` whose key is `k`, in their original order. */
  function KeyFilter<T(!new), K(==,!new)>(s: seq<T>, key: T -> K, k: K): (r: seq<T>)
    ensures forall x :: x in r <==> x in s && key(x) == k
    decreases |s|
  {
    Filter(s, x => key(x) == k)
  }

  /** Appending one element extends exactly the group of its own key. */
  lemma KeyFilterAppend<T(!new), K(!new)>(s: seq<T>, x: T, key: T -> K, k: K)
    ensures KeyFilter(s + [x], key, k) == KeyFilter(s, key, k) + (if key(x) == k then [x] else [])
  {
    assert (s + [x])[..|s + [x]| - 1] == s;
  }

  /** No element occurs twice. */
  predicate NoDuplicates<T(==,!new)>(s: seq<T>) {
    forall i, j :: 0 <= i < j < |s| ==> s[i] != s[j]
  }

  /**
   * The distinct keys of `s` in order of first occurrence: the insertion order of a
   * JavaScript `Map` filled by `forEach` with `if (!map.has(k)) map.set(k, ...)`.
   */
  function Keys<T(!new), K(==,!new)>(s: seq<T>, key: T -> K): (ks: seq<K>)
    ensures NoDuplicates(ks)
    ensures forall k :: k in ks <==> exists x :: x in s && key(x) == k
    decreases |s|
  {
    if s == [] then []
    else
      var init := Keys(s[..|s| - 1], key);
      var x := s[|s| - 1];
      assert s == s[..|s| - 1] + [x];
      if key(x) in init then init else init + [key(x)]
  }

  /** Appending one element adds its key at the end when the key is new. */
  lemma KeysAppend<T(!new), K(!new)>(s: seq<T>, x: T, key: T -> K)
    ensures Keys(s + [x], key) == Keys(s, key) + (if key(x) in Keys(s, key) then [] else [key(x)])
  {
    assert (s + [x])[..|s + [x]| - 1] == s;
  }

  /** A key that does not occur has an empty group. */
  lemma {:induction false} KeyFilterOfAbsentKey<T(!new), K(!new)>(s: seq<T>, key: T -> K, k: K)
    requires k !in Keys(s, key)
    ensures KeyFilter(s, key, k) == []
    decreases |s|
  {
    if s != [] {
      var s' := s[..|s| - 1];
      assert s == s' + [s[|s| - 1]];
      KeysAppend(s', s[|s| - 1], key);
      KeyFilterAppend(s', s[|s| - 1], key, k);
      KeyFilterOfAbsentKey(s', key, k);
    }
  }

  /** The sum, over the keys `ks`, of the number of elements of each key's group that satisfy `p`. */
  function SumOver<T(!new), K(==,!new)>(s: seq<T>, key: T -> K, ks: seq<K>, p: T -> bool): nat
    decreases |ks|
  {
    if ks == [] then 0
    else SumOver(s, key, ks[..|ks| - 1], p) + Count(KeyFilter(s, key, ks[|ks| - 1]), p)
  }

  /** Appending an element to `s` raises the sum over distinct keys by one iff its key is listed and it satisfies `p`. */
  lemma {:induction false} SumOverAppend<T(!new), K(!new)>(s: seq<T>, x: T, key: T -> K, ks: seq<K>, p: T -> bool)
    requires NoDuplicates(ks)
    ensures SumOver(s + [x], key, ks, p) == SumOver(s, key, ks, p) + (if key(x) in ks && p(x) then 1 else 0)
    decreases |ks|
  {
    if ks != [] {
      var ks' := ks[..|ks| - 1];
      var k := ks[|ks| - 1];
      assert ks == ks' + [k];
      assert NoDuplicates(ks');
      SumOverAppend(s, x, key, ks', p);
      KeyFilterAppend(s, x, key, k);
      if key(x) == k {
        CountAppend(KeyFilter(s, key, k), x, p);
        assert k !in ks';
      } else {
        assert KeyFilter(s + [x], key, k) == KeyFilter(s, key, k);
        assert key(x) in ks <==> key(x) in ks';
      }
    }
  }

  /**
   * Grouping by key partitions the sequence: summed over the distinct keys, the
   * per-group counts of `p` add up to the count of `p` over the whole sequence.
   */
  lemma {:induction false} PartitionCount<T(!new), K(!new)>(s: seq<T>, key: T -> K, p: T -> bool)
    ensures SumOver(s, key, Keys(s, key), p) == Count(s, p)
    decreases |s|
  {
    if s != [] {
      var s' := s[..|s| - 1];
      assert s == s' + [s[|s| - 1]];
      PartitionCount(s', key, p);
      PartitionStep(s', s[|s| - 1], key, p);
    }
  }

  /** Appending one element keeps the partition sum equal to the count. */
  lemma PartitionStep<T(!new), K(!new)>(s: seq<T>, x: T, key: T -> K, p: T -> bool)
    requires SumOver(s, key, Keys(s, key), p) == Count(s, p)
    ensures SumOver(s + [x], key, Keys(s + [x], key), p) == Count(s + [x], p)
  {
    var ks := Keys(s, key);
    KeysAppend(s, x, key);
    SumOverAppend(s, x, key, ks, p);
    CountAppend(s, x, p);
    if key(x) !in ks {
      NewKeyGroup(s, x, key, p);
    }
  }

  /** A new key contributes the one element that introduced it. */
  lemma NewKeyGroup<T(!new), K(!new)>(s: seq<T>, x: T, key: T -> K, p: T -> bool)
    requires key(x) !in Keys(s, key)
    ensures SumOver(s + [x], key, Keys(s, key) + [key(x)], p) ==
      SumOver(s + [x], key, Keys(s, key), p) + (if p(x) then 1 else 0)
  {
    var ks1 := Keys(s, key) + [key(x)];
    assert ks1[..|ks1| - 1] == Keys(s, key);
    KeyFilterAppend(s, x, key, key(x));
    KeyFilterOfAbsentKey(s, key, key(x));
    assert KeyFilter(s + [x], key, key(x)) == [x];
    CountAppend([], x, p);
    assert [] + [x] == [x];
  }

  /** `s` without the occurrences of `x`. */
  function Without<T(==,!new)>(s: seq<T>, x: T): (r: seq<T>)
    ensures forall y :: y in r <==> y in s && y != x
  {
    Filter(s, y => y != x)
  }

  /**
   * The selection toggle of the source: an element already present is removed
   * (every occurrence), an absent one is appended at the end.
   */
  function Toggle<T(==,!new)>(s: seq<T>, x: T): (r: seq<T>)
    ensures x in r <==> x !in s
    ensures forall y :: y != x ==> (y in r <==> y in s)
    ensures x !in s ==> r == s + [x]
  {
    if x in s then Without(s, x) else s + [x]
  }

  /** Toggling the same element twice restores membership of every element. */
  lemma ToggleTwice<T(!new)>(s: seq<T>, x: T, y: T)
    ensures y in Toggle(Toggle(s, x), x) <==> y in s
  {
  }

  /** Toggling an absent element twice restores the list exactly. */
  lemma {:induction false} ToggleTwiceAbsent<T(!new)>(s: seq<T>, x: T)
    requires x !in s
    ensures Toggle(Toggle(s, x), x) == s
  {
    assert Toggle(s, x) == s + [x];
    FilterAppendOther(s, x);
  }

  lemma {:induction false} FilterAppendOther<T(!new)>(s: seq<T>, x: T)
    requires x !in s
    ensures Without(s + [x], x) == s
    decreases |s|
  {
    var t := s + [x];
    assert t[..|t| - 1] == s;
    FilterAllKept(s, x);
  }

  lemma {:induction false} FilterAllKept<T(!new)>(s: seq<T>, x: T)
    requires x !in s
    ensures Without(s, x) == s
    decreases |s|
  {
    if s != [] {
      assert s == s[..|s| - 1] + [s[|s| - 1]];
      FilterAllKept(s[..|s| - 1], x);
    }
  }

  /** Toggling never introduces a duplicate. */
  lemma {:induction false} ToggleKeepsNoDuplicates<T(!new)>(s: seq<T>, x: T)
    requires NoDuplicates(s)
    ensures NoDuplicates(Toggle(s, x))
  {
    if x in s {
      FilterKeepsNoDuplicates(s, y => y != x);
    }
  }

  lemma {:induction false} FilterKeepsNoDuplicates<T(!new)>(s: seq<T>, p: T -> bool)
    requires NoDuplicates(s)
    ensures NoDuplicates(Filter(s, p))
    decreases |s|
  {
    if s != [] {
      var s' := s[..|s| - 1];
      assert NoDuplicates(s');
      FilterKeepsNoDuplicates(s', p);
      var last := s[|s| - 1];
      assert forall i :: 0 <= i < |s'| ==> s'[i] == s[i] && s[i] != s[|s| - 1];
      assert last !in s';
      assert last !in Filter(s', p);
    }
  }

  /** The position of the first element satisfying `p`, or `|s|` when there is none (`findIndex`). */
  function FirstIndex<T(!new)>(s: seq<T>, p: T -> bool): (i: nat)
    ensures i <= |s|
    ensures forall k :: 0 <= k < i ==> !p(s[k])
    ensures i < |s| ==> p(s[i])
    decreases |s|
  {
    if s == [] then 0 else if p(s[0]) then 0 else 1 + FirstIndex(s[1..], p)
  }

  /** `s` with the element at position `i` taken out. */
  function RemoveAt<T(!new)>(s: seq<T>, i: nat): (r: seq<T>)
    requires i < |s|
    ensures |r| == |s| - 1
    ensures forall k :: 0 <= k < i ==> r[k] == s[k]
    ensures forall k :: i <= k < |r| ==> r[k] == s[k + 1]
  {
    s[..i] + s[i + 1..]
  }

  /** Extending a prefix by one element. */
  lemma PrefixStep<T>(s: seq<T>, i: nat)
    requires i < |s|
    ensures s[..i + 1] == s[..i] + [s[i]]
  {
  }

  /** The first `n` elements, or all of them when there are fewer (`slice(0, n)`). */
  function Take<T(!new)>(s: seq<T>, n: nat): (r: seq<T>)
    ensures |r| == if |s| < n then |s| else n
    ensures r <= s
    ensures |s| > n ==> r == s[..n]
  {
    if |s| <= n then s else s[..n]
  }
  /** The element found by `Array.prototype.find`: the first one satisfying `p`. */
  function Find<T(!new)>(s: seq<T>, p: T -> bool): (r: Option<T>)
    ensures r.Some? <==> exists x :: x in s && p(x)
    ensures r.Some? ==> r.value in s && p(r.value) && r.value == s[FirstIndex(s, p)]
  {
    var i := FirstIndex(s, p);
    if i < |s| then Some(s[i]) else None
  }

  /** The predicate that holds of everything: counting it counts elements. */
  predicate Always<T>(x: T) {
    true
  }

  lemma {:induction false} CountAlways<T(!new)>(s: seq<T>)
    ensures Count(s, Always) == |s|
    decreases |s|
  {
    if s != [] {
      var s' := s[..|s| - 1];
      assert s == s' + [s[|s| - 1]];
      CountAlways(s');
      CountAppend(s', s[|s| - 1], Always);
    }
  }

  /** The sum of `f` over the elements of `s`. */
  function SumOf<T(!new)>(s: seq<T>, f: T -> nat): nat
    decreases |s|
  {
    if s == [] then 0 else f(s[0]) + SumOf(s[1..], f)
  }

  lemma {:induction false} SumOfConcat<T(!new)>(a: seq<T>, b: seq<T>, f: T -> nat)
    ensures SumOf(a + b, f) == SumOf(a, f) + SumOf(b, f)
    decreases |a|
  {
    if a == [] {
      assert a + b == b;
    } else {
      assert (a + b)[1..] == a[1..] + b;
      SumOfConcat(a[1..], b, f);
    }
  }
}
