/**
 * A Java `Map` as the configuration code sees it: an association list whose
 * order is the map's iteration order. `put` replaces the value of a present
 * key in place and appends an absent key at the end; `putAll` puts every
 * entry of the argument, in its iteration order.
 */
module Entries {
  import opened Common

  /** No key occurs twice (what makes a list of pairs a map). */
  predicate UniqueKeys<K(==, !new), V>(m: seq<(K, V)>) {
    forall i, j | 0 <= i < j < |m| :: m[i].0 != m[j].0
  }

  predicate HasKey<K(==, !new), V>(m: seq<(K, V)>, k: K) {
    exists i | 0 <= i < |m| :: m[i].0 == k
  }

  /** The position of the first entry whose key is `k`. */
  function IndexOf<K(==, !new), V>(m: seq<(K, V)>, k: K): (r: Option<nat>)
    ensures r.Some? ==> r.value < |m| && m[r.value].0 == k
    ensures r.Some? ==> forall j | 0 <= j < r.value :: m[j].0 != k
    ensures r.None? <==> !HasKey(m, k)
    decreases |m|
  {
    if |m| == 0 then None
    else if m[0].0 == k then Some(0)
    else
      var r := IndexOf(m[1..], k);
      assert forall j | 1 <= j < |m| :: m[1..][j - 1] == m[j];
      if r.None? then None else Some(r.value + 1)
  }

  /** Map.get: the value stored under `k`, None when the key is absent. */
  function Get<K(==, !new), V>(m: seq<(K, V)>, k: K): Option<V> {
    var i := IndexOf(m, k);
    if i.Some? then Some(m[i.value].1) else None
  }

  /** In a map without repeated keys, the entry at position `i` is what `Get` returns for its key. */
  lemma GetAt<K(!new), V>(m: seq<(K, V)>, i: nat)
    requires UniqueKeys(m) && i < |m|
    ensures Get(m, m[i].0) == Some(m[i].1)
  {
  }

  /** Map.put. */
  function Put<K(==, !new), V>(m: seq<(K, V)>, k: K, v: V): (r: seq<(K, V)>)
    requires UniqueKeys(m)
    ensures UniqueKeys(r)
    ensures Get(r, k) == Some(v)
    ensures forall k' | k' != k :: Get(r, k') == Get(m, k')
    // An existing key keeps its position; a new key goes last.
    ensures HasKey(m, k) ==> |r| == |m| && forall i | 0 <= i < |m| :: r[i].0 == m[i].0
    ensures !HasKey(m, k) ==> r == m + [(k, v)]
  {
    var i := IndexOf(m, k);
    if i.Some? then
      var r := m[i.value := (k, v)];
      assert forall k' | k' != k :: IndexOf(r, k') == IndexOf(m, k') by {
        forall k' | k' != k ensures IndexOf(r, k') == IndexOf(m, k') {
          IndexOfSameKeys(r, m, k');
        }
      }
      GetAt(r, i.value);
      r
    else
      var r := m + [(k, v)];
      assert forall k' | k' != k :: IndexOf(r, k') == IndexOf(m, k') by {
        forall k' | k' != k ensures IndexOf(r, k') == IndexOf(m, k') {
          IndexOfAppend(m, (k, v), k');
        }
      }
      GetAt(r, |m|);
      r
  }

  /** IndexOf looks only at keys. */
  lemma {:induction false} IndexOfSameKeys<K(!new), V>(a: seq<(K, V)>, b: seq<(K, V)>, k: K)
    requires |a| == |b| && forall i | 0 <= i < |a| :: a[i].0 == b[i].0
    ensures IndexOf(a, k) == IndexOf(b, k)
    decreases |a|
  {
    if |a| > 0 && a[0].0 != k {
      IndexOfSameKeys(a[1..], b[1..], k);
    }
  }

  /** Appending an entry for another key does not move the first entry for `k`. */
  lemma {:induction false} IndexOfAppend<K(!new), V>(a: seq<(K, V)>, x: (K, V), k: K)
    requires x.0 != k
    ensures IndexOf(a + [x], k) == IndexOf(a, k)
    decreases |a|
  {
    if |a| > 0 && a[0].0 != k {
      assert (a + [x])[1..] == a[1..] + [x];
      IndexOfAppend(a[1..], x, k);
    }
  }

  /** Map.putAll: the entries of `s` put one after the other, in order. */
  function PutAll<K(==, !new), V>(m: seq<(K, V)>, s: seq<(K, V)>): (r: seq<(K, V)>)
    requires UniqueKeys(m)
    ensures UniqueKeys(r)
    decreases |s|
  {
    if s == [] then m
    else Put(PutAll(m, s[..|s| - 1]), s[|s| - 1].0, s[|s| - 1].1)
  }

  /**
   * After putAll, every key of `s` maps to its value in `s` (overwriting what
   * `m` held) and every other key keeps its value from `m`.
   */
  lemma {:induction false} PutAllOverwrites<K(!new), V>(m: seq<(K, V)>, s: seq<(K, V)>)
    requires UniqueKeys(m) && UniqueKeys(s)
    ensures forall i | 0 <= i < |s| :: Get(PutAll(m, s), s[i].0) == Some(s[i].1)
    ensures forall k | !HasKey(s, k) :: Get(PutAll(m, s), k) == Get(m, k)
    decreases |s|
  {
    if s != [] {
      var s' := s[..|s| - 1];
      var last := s[|s| - 1];
      PutAllOverwrites(m, s');
      forall k | !HasKey(s, k) ensures Get(PutAll(m, s), k) == Get(m, k) {
        assert k != last.0;
        assert !HasKey(s', k);
      }
      forall i | 0 <= i < |s| ensures Get(PutAll(m, s), s[i].0) == Some(s[i].1) {
        if i < |s| - 1 {
          assert s[i] == s'[i];
          assert s[i].0 != last.0;
        }
      }
    }
  }

  /** putAll never drops an entry: every key of `m` is still present afterwards. */
  lemma {:induction false} PutAllKeepsKeys<K(!new), V>(m: seq<(K, V)>, s: seq<(K, V)>, k: K)
    requires UniqueKeys(m) && HasKey(m, k)
    ensures HasKey(PutAll(m, s), k)
    decreases |s|
  {
    if s != [] {
      PutAllKeepsKeys(m, s[..|s| - 1], k);
      var p := PutAll(m, s[..|s| - 1]);
      var i := IndexOf(p, k);
      var r := PutAll(m, s);
      if s[|s| - 1].0 != k {
        assert Get(r, k) == Get(p, k);
        assert IndexOf(r, k).Some?;
      }
    }
  }
}
