/**
 * The insertion-ordered collections the request facade builds:
 * a LinkedHashSet (Dedup) and a LinkedHashMap (an association sequence with Put).
 */
module Linked {
  import opened Wrappers

  /** No element occurs twice. */
  predicate NoDup<T(==)>(s: seq<T>) {
    forall i, j :: 0 <= i < j < |s| ==> s[i] != s[j]
  }

  /** Position of the first occurrence of x in s. */
  function IndexOf<T(==)>(s: seq<T>, x: T): (k: nat)
    requires x in s
    ensures k < |s| && s[k] == x
    ensures forall j :: 0 <= j < k ==> s[j] != x
  {
    if s[0] == x then 0 else 1 + IndexOf(s[1..], x)
  }

  /** LinkedHashSet.add: an element already present changes nothing, a new one goes last. */
  function Add<T(==)>(elems: seq<T>, x: T): seq<T> {
    if x in elems then elems else elems + [x]
  }

  /**
   * The contents of a LinkedHashSet after adding every element of s, in
   * order, to an empty one.
   */
  function Dedup<T(==)>(s: seq<T>): seq<T> {
    if |s| == 0 then [] else Add(Dedup(s[..|s| - 1]), s[|s| - 1])
  }

  /** A LinkedHashSet holds each added element exactly once, and nothing else. */
  lemma {:induction false} DedupElements<T(!new)>(s: seq<T>)
    ensures NoDup(Dedup(s))
    ensures forall x :: x in Dedup(s) <==> x in s
  {
    if |s| > 0 {
      var init := s[..|s| - 1];
      DedupElements(init);
      assert s == init + [s[|s| - 1]];
    }
  }

  /** Adding one more element to the set built from a prefix gives the set built from the longer prefix. */
  lemma DedupStep<T(!new)>(s: seq<T>, i: nat)
    requires i < |s|
    ensures Add(Dedup(s[..i]), s[i]) == Dedup(s[..i + 1])
  {
    assert s[..i + 1][..i] == s[..i];
  }

  lemma IndexOfAppend<T(!new)>(a: seq<T>, b: seq<T>, x: T)
    requires x in a
    ensures IndexOf(a + b, x) == IndexOf(a, x)
  {
    var k := IndexOf(a, x);
    assert (a + b)[k] == x;
  }

  /** Dedup keeps each element at its first occurrence: its order is the order of first occurrences in s. */
  lemma {:induction false} DedupFirstOccurrenceOrder<T(!new)>(s: seq<T>)
    ensures forall i, j :: 0 <= i < j < |Dedup(s)| ==>
      Dedup(s)[i] in s && Dedup(s)[j] in s && IndexOf(s, Dedup(s)[i]) < IndexOf(s, Dedup(s)[j])
  {
    DedupElements(s);
    if |s| > 0 {
      var init, last := s[..|s| - 1], s[|s| - 1];
      assert s == init + [last];
      DedupFirstOccurrenceOrder(init);
      DedupElements(init);
      var d, r := Dedup(init), Dedup(s);
      forall x | x in init
        ensures IndexOf(s, x) == IndexOf(init, x) < |init|
      {
        IndexOfAppend(init, [last], x);
      }
      if last !in d {
        assert last !in init;
        assert IndexOf(s, last) == |init|;
        forall i, j | 0 <= i < j < |r|
          ensures IndexOf(s, r[i]) < IndexOf(s, r[j])
        {
          assert r[i] == d[i];
          if j < |d| { assert r[j] == d[j]; }
        }
      }
    }
  }

  /** Adding more elements to a LinkedHashSet never reorders the ones already in it. */
  lemma {:induction false} DedupPrefix<T(!new)>(a: seq<T>, b: seq<T>)
    ensures Dedup(a) <= Dedup(a + b)
  {
    if |b| == 0 {
      assert a + b == a;
    } else {
      var b' := b[..|b| - 1];
      assert (a + b)[..|a + b| - 1] == a + b';
      DedupPrefix(a, b');
    }
  }

  /** A sequence without repetitions goes through a LinkedHashSet unchanged. */
  lemma {:induction false} DedupOfDistinct<T(!new)>(s: seq<T>)
    requires NoDup(s)
    ensures Dedup(s) == s
  {
    if |s| > 0 {
      var init, last := s[..|s| - 1], s[|s| - 1];
      assert Dedup(s) == Add(Dedup(init), last);
      assert NoDup(init) by {
        forall i, j | 0 <= i < j < |init|
          ensures init[i] != init[j]
        {
          assert init[i] == s[i] && init[j] == s[j];
        }
      }
      DedupOfDistinct(init);
      forall i | 0 <= i < |init|
        ensures init[i] != last
      {
        assert init[i] == s[i];
      }
      assert init + [last] == s;
    }
  }

  /** The keys of an insertion-ordered map, in insertion order. */
  function Keys<K, V>(m: seq<(K, V)>): (ks: seq<K>)
    ensures |ks| == |m|
  {
    if m == [] then [] else [m[0].0] + Keys(m[1..])
  }

  /** LinkedHashMap.get: the value stored under k, if any. */
  function Lookup<K(==), V>(m: seq<(K, V)>, k: K): (r: Option<V>)
    ensures r.Some? <==> k in Keys(m)
  {
    if m == [] then None
    else if m[0].0 == k then Some(m[0].1)
    else Lookup(m[1..], k)
  }

  /**
   * LinkedHashMap.put: a new key goes last; an existing key keeps its
   * position and gets the new value.
   */
  function Put<K(==, !new), V>(m: seq<(K, V)>, k: K, v: V): (r: seq<(K, V)>)
    ensures Keys(r) == if k in Keys(m) then Keys(m) else Keys(m) + [k]
    ensures Lookup(r, k) == Some(v)
    ensures forall k' :: k' != k ==> Lookup(r, k') == Lookup(m, k')
  {
    if m == [] then [(k, v)]
    else if m[0].0 == k then [(k, v)] + m[1..]
    else [m[0]] + Put(m[1..], k, v)
  }
}
