/** The newest-first ordering shared by every `*Sorted` method: the values
    of a keyed map, ordered by their creation time, most recent first.
    Entities with equal creation times may come in any order. */
module Sorting {
  /** Every key has a creation time, and the times never increase along
      the sequence. */
  predicate NewestFirst(keys: seq<string>, createdAt: map<string, int>)
  {
    (forall i :: 0 <= i < |keys| ==> keys[i] in createdAt) &&
    forall i, j :: 0 <= i < j < |keys| ==> createdAt[keys[i]] >= createdAt[keys[j]]
  }

  /** Inserts k into a newest-first sequence in front of the first key that
      is not newer than k. */
  function Insert(k: string, sorted: seq<string>, createdAt: map<string, int>): (r: seq<string>)
    requires k in createdAt && NewestFirst(sorted, createdAt)
    ensures multiset(r) == multiset(sorted) + multiset{k}
    ensures forall x :: x in r <==> x == k || x in sorted
    ensures NewestFirst(r, createdAt)
  {
    if sorted == [] then [k]
    else if createdAt[k] >= createdAt[sorted[0]] then
      assert forall x :: x in sorted ==> createdAt[x] <= createdAt[sorted[0]];
      Prepend(k, sorted, createdAt);
      [k] + sorted
    else
      var rest := Insert(k, sorted[1..], createdAt);
      assert sorted == [sorted[0]] + sorted[1..];
      assert forall x :: x in rest ==> createdAt[x] <= createdAt[sorted[0]];
      Prepend(sorted[0], rest, createdAt);
      [sorted[0]] + rest
  }

  /** A key no older than every key of a newest-first sequence can go in
      front of it. */
  lemma Prepend(h: string, keys: seq<string>, createdAt: map<string, int>)
    requires h in createdAt && NewestFirst(keys, createdAt)
    requires forall x :: x in keys ==> createdAt[x] <= createdAt[h]
    ensures NewestFirst([h] + keys, createdAt)
  {
    var r := [h] + keys;
    forall i, j | 0 <= i < j < |r|
      ensures createdAt[r[i]] >= createdAt[r[j]]
    {
      assert r[j] == keys[j - 1];
      if i > 0 {
        assert r[i] == keys[i - 1];
      }
    }
  }

  /** Insertion sort: a newest-first permutation of the keys. */
  function Sort(keys: seq<string>, createdAt: map<string, int>): (r: seq<string>)
    requires forall i :: 0 <= i < |keys| ==> keys[i] in createdAt
    ensures multiset(r) == multiset(keys)
    ensures NewestFirst(r, createdAt)
  {
    if keys == [] then []
    else
      assert keys == [keys[0]] + keys[1..];
      Insert(keys[0], Sort(keys[1..], createdAt), createdAt)
  }

  /** Collects the keys of the map in an unspecified order, as iterating
      over a Go map does, then sorts them newest first. */
  method NewestFirstKeys(createdAt: map<string, int>) returns (keys: seq<string>)
    ensures multiset(keys) == multiset(createdAt.Keys)
    ensures NewestFirst(keys, createdAt)
  {
    var collected: seq<string> := [];
    var rest := createdAt.Keys;
    while rest != {}
      invariant rest <= createdAt.Keys
      invariant multiset(collected) + multiset(rest) == multiset(createdAt.Keys)
      invariant forall i :: 0 <= i < |collected| ==> collected[i] in createdAt
      decreases |rest|
    {
      var k :| k in rest;
      collected := collected + [k];
      rest := rest - {k};
    }
    keys := Sort(collected, createdAt);
  }

  /** The values of m in the order of keys. */
  function ValuesAt<T>(m: map<string, T>, keys: seq<string>): (r: seq<T>)
    requires forall i :: 0 <= i < |keys| ==> keys[i] in m
    ensures |r| == |keys| && forall i :: 0 <= i < |keys| ==> r[i] == m[keys[i]]
  {
    if keys == [] then [] else [m[keys[0]]] + ValuesAt(m, keys[1..])
  }

  /** The common body of the `*Sorted` methods: the values of m, newest
      first by the creation times given for its keys. The order of the
      keys is returned as a ghost result; it is a permutation of the keys
      of m, so every value of m appears, once per key. */
  method SortValues<T>(m: map<string, T>, createdAt: map<string, int>) returns (r: seq<T>, ghost keys: seq<string>)
    requires createdAt.Keys == m.Keys
    ensures multiset(keys) == multiset(m.Keys)
    ensures |r| == |keys| && forall i :: 0 <= i < |keys| ==> keys[i] in m && r[i] == m[keys[i]]
    ensures NewestFirst(keys, createdAt)
  {
    var sortedKeys := NewestFirstKeys(createdAt);
    keys := sortedKeys;
    r := ValuesAt(m, sortedKeys);
  }

  /** A newest-first permutation of a map's keys lists every key exactly
      once. */
  lemma PermutationOfKeys(keys: seq<string>, domain: set<string>)
    requires multiset(keys) == multiset(domain)
    ensures forall k :: k in keys <==> k in domain
    ensures forall i, j :: 0 <= i < j < |keys| ==> keys[i] != keys[j]
    ensures |keys| == |domain|
  {
    forall k
      ensures k in keys <==> k in domain
    {
      assert k in keys <==> k in multiset(keys);
    }
    forall i, j | 0 <= i < j < |keys|
      ensures keys[i] != keys[j]
    {
      if keys[i] == keys[j] {
        var x := keys[i];
        assert multiset(keys)[x] <= 1;
        TwoOccurrences(keys, i, j);
      }
    }
    assert |multiset(keys)| == |keys|;
    assert |multiset(domain)| == |domain|;
  }

  lemma TwoOccurrences(s: seq<string>, i: int, j: int)
    requires 0 <= i < j < |s| && s[i] == s[j]
    ensures multiset(s)[s[i]] >= 2
  {
    assert s == s[..i] + [s[i]] + s[i+1..j] + [s[j]] + s[j+1..];
  }
}
