/**
 * An insertion-ordered string-keyed map (Java's `LinkedHashMap<String, Object>`),
 * modelled as a sequence of key/value entries in iteration order.
 * `Put` of a key already present replaces its value and keeps its position;
 * `Put` of a new key appends it.
 */
module LinkedMaps {
  import opened Wrappers

  type Entries<V> = seq<(string, V)>

  /** The keys in iteration order. */
  function Keys<V>(m: Entries<V>): seq<string> {
    seq(|m|, i requires 0 <= i < |m| => m[i].0)
  }

  predicate Distinct(s: seq<string>) {
    forall i, j :: 0 <= i < j < |s| ==> s[i] != s[j]
  }

  /** A well-formed map holds every key at most once. */
  predicate DistinctKeys<V>(m: Entries<V>) {
    Distinct(Keys(m))
  }

  /** `get`: the value stored under `k`, or `None` when `k` is absent. */
  function Lookup<V>(m: Entries<V>, k: string): Option<V> {
    if |m| == 0 then None
    else if m[0].0 == k then Some(m[0].1)
    else Lookup(m[1..], k)
  }

  /** `put`: replace in place when `k` is present, append otherwise. */
  function Put<V>(m: Entries<V>, k: string, v: V): Entries<V> {
    if |m| == 0 then [(k, v)]
    else if m[0].0 == k then [(k, v)] + m[1..]
    else [m[0]] + Put(m[1..], k, v)
  }

  lemma KeysCons<V>(m: Entries<V>)
    requires |m| > 0
    ensures Keys(m) == [m[0].0] + Keys(m[1..])
  {
  }

  /** In a well-formed map, `get` of the i-th key yields the i-th value. */
  lemma {:induction false} LookupAt<V>(m: Entries<V>, i: nat)
    requires DistinctKeys(m)
    requires i < |m|
    ensures Lookup(m, m[i].0) == Some(m[i].1)
  {
    if i > 0 {
      assert Keys(m)[0] == m[0].0 && Keys(m)[i] == m[i].0;
      KeysCons(m);
      assert DistinctKeys(m[1..]) by {
        forall a, b | 0 <= a < b < |m[1..]|
          ensures Keys(m[1..])[a] != Keys(m[1..])[b]
        {
          assert Keys(m[1..])[a] == Keys(m)[a + 1];
          assert Keys(m[1..])[b] == Keys(m)[b + 1];
        }
      }
      LookupAt(m[1..], i - 1);
    }
  }

  /** `put` keeps the position of a key already present and appends a new key at the end. */
  lemma {:induction false} PutKeys<V>(m: Entries<V>, k: string, v: V)
    ensures Keys(Put(m, k, v)) == if k in Keys(m) then Keys(m) else Keys(m) + [k]
  {
    if |m| == 0 {
      assert Keys(Put(m, k, v)) == [k];
    } else {
      KeysCons(m);
      KeysCons(Put(m, k, v));
      if m[0].0 != k {
        PutKeys(m[1..], k, v);
      }
    }
  }

  /** After `put(k, v)`, `get(k)` yields `v` and every other key keeps its value. */
  lemma {:induction false} PutLookup<V>(m: Entries<V>, k: string, v: V, k': string)
    ensures Lookup(Put(m, k, v), k') == if k' == k then Some(v) else Lookup(m, k')
  {
    if |m| > 0 && m[0].0 != k {
      PutLookup(m[1..], k, v, k');
    }
  }

  /** `put` of a key that is absent appends exactly one entry. */
  lemma {:induction false} PutAbsent<V>(m: Entries<V>, k: string, v: V)
    requires k !in Keys(m)
    ensures Put(m, k, v) == m + [(k, v)]
  {
    if |m| > 0 {
      KeysCons(m);
      PutAbsent(m[1..], k, v);
    }
  }
}
