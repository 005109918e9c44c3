/**
 * The `Array.prototype` methods the components use to replace their lists:
 * `filter`, `map`, `some` and `find`, on immutable sequences (every component
 * builds a new array rather than changing the old one).
 */
module JsArray {
  import opened Wrappers

  /** `s.filter(keep)`: the elements that satisfy `keep`, in their original order. */
  function Filter<T>(s: seq<T>, keep: T -> bool): (r: seq<T>)
    ensures |r| <= |s|
    ensures forall i :: 0 <= i < |r| ==> r[i] in s && keep(r[i])
    ensures forall i :: 0 <= i < |s| && keep(s[i]) ==> s[i] in r
  {
    if s == [] then [] else (if keep(s[0]) then [s[0]] else []) + Filter(s[1..], keep)
  }

  /** Filtering distributes over concatenation: the kept elements of each part stay in order. */
  lemma {:induction false} FilterConcat<T>(a: seq<T>, b: seq<T>, keep: T -> bool)
    ensures Filter(a + b, keep) == Filter(a, keep) + Filter(b, keep)
    decreases |a|
  {
    if a == [] {
      assert a + b == b;
    } else {
      assert (a + b)[0] == a[0];
      assert (a + b)[1..] == a[1..] + b;
      FilterConcat(a[1..], b, keep);
    }
  }

  /** Each element occurs in the result as often as in the input when it is kept, and never otherwise. */
  lemma {:induction false} FilterCount<T>(s: seq<T>, keep: T -> bool, x: T)
    ensures multiset(Filter(s, keep))[x] == if keep(x) then multiset(s)[x] else 0
    decreases |s|
  {
    if s != [] {
      FilterCount(s[1..], keep, x);
      assert s == [s[0]] + s[1..];
    }
  }

  /** Filtering with a test every element passes returns the sequence itself. */
  lemma {:induction false} FilterAllKept<T>(s: seq<T>, keep: T -> bool)
    requires forall i :: 0 <= i < |s| ==> keep(s[i])
    ensures Filter(s, keep) == s
    decreases |s|
  {
    if s != [] {
      FilterAllKept(s[1..], keep);
    }
  }

  /** No two elements share a key. */
  predicate UniqueKeys<T, K(==)>(s: seq<T>, key: T -> K)
  {
    forall i, j :: 0 <= i < j < |s| ==> key(s[i]) != key(s[j])
  }

  /** Filtering keeps keys unique. */
  lemma {:induction false} FilterUniqueKeys<T, K>(s: seq<T>, keep: T -> bool, key: T -> K)
    requires UniqueKeys(s, key)
    ensures UniqueKeys(Filter(s, keep), key)
    decreases |s|
  {
    if s != [] {
      var rest := Filter(s[1..], keep);
      assert UniqueKeys(s[1..], key) by {
        forall i, j | 0 <= i < j < |s[1..]|
          ensures key(s[1..][i]) != key(s[1..][j])
        {
          assert s[1..][i] == s[i + 1] && s[1..][j] == s[j + 1];
        }
      }
      FilterUniqueKeys(s[1..], keep, key);
      forall i | 0 <= i < |rest|
        ensures key(rest[i]) != key(s[0])
      {
        var k :| 0 <= k < |s[1..]| && s[1..][k] == rest[i];
        assert s[k + 1] == rest[i];
      }
    }
  }

  /** No element occurs twice. */
  predicate NoDuplicates<T(==)>(s: seq<T>)
  {
    forall i, j :: 0 <= i < j < |s| ==> s[i] != s[j]
  }

  /** Filtering a sequence without duplicates gives one without duplicates. */
  lemma FilterNoDuplicates<T>(s: seq<T>, keep: T -> bool)
    requires NoDuplicates(s)
    ensures NoDuplicates(Filter(s, keep))
  {
    var id := (x: T) => x;
    assert UniqueKeys(s, id);
    FilterUniqueKeys(s, keep, id);
    var r := Filter(s, keep);
    assert forall i, j :: 0 <= i < j < |r| ==> id(r[i]) != id(r[j]);
  }

  /** `s.map(f)`. */
  function Map<T, U>(s: seq<T>, f: T -> U): (r: seq<U>)
    ensures |r| == |s|
    ensures forall i :: 0 <= i < |s| ==> r[i] == f(s[i])
  {
    if s == [] then [] else [f(s[0])] + Map(s[1..], f)
  }

  /** Mapping twice with a function that undoes itself restores the sequence. */
  lemma MapInvolution<T>(s: seq<T>, f: T -> T)
    requires forall x :: f(f(x)) == x
    ensures Map(Map(s, f), f) == s
  {
    var r := Map(Map(s, f), f);
    assert forall i :: 0 <= i < |s| ==> r[i] == f(f(s[i]));
  }

  /** `s.some(p)`. */
  predicate Any<T>(s: seq<T>, p: T -> bool)
  {
    exists i :: 0 <= i < |s| && p(s[i])
  }

  /** `s.find(p)`: the first element satisfying `p`, or `undefined` (`None`). */
  function Find<T>(s: seq<T>, p: T -> bool): (r: Option<T>)
    ensures r.None? <==> !Any(s, p)
    ensures r.Some? ==> exists k :: 0 <= k < |s| && s[k] == r.value && p(s[k])
                                    && forall j :: 0 <= j < k ==> !p(s[j])
  {
    if s == [] then None
    else if p(s[0]) then Some(s[0])
    else
      var r := Find(s[1..], p);
      assert forall i :: 1 <= i < |s| ==> s[i] == s[1..][i - 1];
      r
  }

  /** `s.filter(x => key(x) !== k)`: the list without the entries whose key is `k`. */
  function RemoveByKey<T, K(==)>(s: seq<T>, key: T -> K, k: K): seq<T>
  {
    Filter(s, x => key(x) != k)
  }

  /**
   * Removing by key drops every entry with that key and nothing else: each
   * other entry keeps its number of occurrences (and, by `FilterConcat`, its
   * place relative to the others); without such an entry the list is unchanged.
   */
  lemma RemoveByKeyExactly<T, K>(s: seq<T>, key: T -> K, k: K, x: T)
    ensures forall i :: 0 <= i < |RemoveByKey(s, key, k)| ==> key(RemoveByKey(s, key, k)[i]) != k
    ensures multiset(RemoveByKey(s, key, k))[x] == if key(x) == k then 0 else multiset(s)[x]
    ensures (forall i :: 0 <= i < |s| ==> key(s[i]) != k) ==> RemoveByKey(s, key, k) == s
  {
    FilterCount(s, y => key(y) != k, x);
    if forall i :: 0 <= i < |s| ==> key(s[i]) != k {
      FilterAllKept(s, y => key(y) != k);
    }
  }

  /** Removing by key from a joined list removes from each part, so the kept entries stay in order. */
  lemma RemoveByKeyConcat<T, K>(s: seq<T>, t: seq<T>, key: T -> K, k: K)
    ensures RemoveByKey(s + t, key, k) == RemoveByKey(s, key, k) + RemoveByKey(t, key, k)
  {
    FilterConcat(s, t, x => key(x) != k);
  }

  /** Removing by key keeps keys unique. */
  lemma RemoveByKeyUniqueKeys<T, K>(s: seq<T>, key: T -> K, k: K)
    requires UniqueKeys(s, key)
    ensures UniqueKeys(RemoveByKey(s, key, k), key)
  {
    FilterUniqueKeys(s, x => key(x) != k, key);
  }
}
