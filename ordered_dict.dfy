/**
 * Python dicts as insertion-ordered sequences of entries: lookup, item
 * assignment `d[k] = v`, and the merge `{**a, **b}`.
 */
module OrderedDict {
  import opened Wrappers

  type Dict<V> = seq<(string, V)>

  function Keys<V>(d: Dict<V>): (ks: seq<string>)
    ensures |ks| == |d|
  {
    if d == [] then [] else [d[0].0] + Keys(d[1..])
  }

  lemma {:induction false} KeysAt<V>(d: Dict<V>, i: nat)
    requires i < |d|
    ensures Keys(d)[i] == d[i].0
  {
    if i > 0 {
      KeysAt(d[1..], i - 1);
    }
  }

  predicate DistinctKeys<V>(d: Dict<V>)
  {
    forall i, j :: 0 <= i < j < |d| ==> d[i].0 != d[j].0
  }

  /** `d[k]` when `k in d`. */
  function Get<V>(d: Dict<V>, k: string): (r: Option<V>)
    ensures r.Some? <==> k in Keys(d)
  {
    if d == [] then None else if d[0].0 == k then Some(d[0].1) else Get(d[1..], k)
  }

  /**
   * `d[k] = v`: an existing key keeps its place and takes the new value, a new
   * key is appended; every other key keeps its value.
   */
  function Set<V>(d: Dict<V>, k: string, v: V): (r: Dict<V>)
    ensures Get(r, k) == Some(v)
    ensures Keys(r) == if k in Keys(d) then Keys(d) else Keys(d) + [k]
  {
    if d == [] then [(k, v)]
    else if d[0].0 == k then [(k, v)] + d[1..]
    else [d[0]] + Set(d[1..], k, v)
  }

  /** Assigning one key leaves every other key's value alone. */
  lemma {:induction false} SetOther<V>(d: Dict<V>, k: string, v: V, k': string)
    requires k' != k
    ensures Get(Set(d, k, v), k') == Get(d, k')
  {
    if d != [] && d[0].0 != k {
      SetOther(d[1..], k, v, k');
    }
  }

  /** Assigning a key keeps the keys distinct. */
  lemma SetDistinct<V>(d: Dict<V>, k: string, v: V)
    requires DistinctKeys(d)
    ensures DistinctKeys(Set(d, k, v))
  {
    var r := Set(d, k, v);
    assert Keys(r) == if k in Keys(d) then Keys(d) else Keys(d) + [k];
    forall i, j | 0 <= i < j < |r| ensures r[i].0 != r[j].0 {
      KeysAt(r, i);
      KeysAt(r, j);
      if j < |d| {
        KeysAt(d, i);
        KeysAt(d, j);
      } else {
        KeysAt(d, i);
        assert Keys(d)[i] in Keys(d);
      }
    }
  }

  /** The keys of `ks` that are not in `seen`, in order. */
  function NewKeys(ks: seq<string>, seen: seq<string>): (r: seq<string>)
    ensures |r| <= |ks|
  {
    if ks == [] then []
    else (if ks[0] in seen then [] else [ks[0]]) + NewKeys(ks[1..], seen)
  }

  /** `{**a, **b}`: the entries of `a`, then each entry of `b` assigned in order. */
  function Merge<V>(a: Dict<V>, b: Dict<V>): Dict<V>
    decreases |b|
  {
    if b == [] then a else Merge(Set(a, b[0].0, b[0].1), b[1..])
  }

  /** In a merge, the later mapping wins for a shared key. */
  lemma {:induction false} MergeGet<V>(a: Dict<V>, b: Dict<V>, k: string)
    requires DistinctKeys(b)
    ensures Get(Merge(a, b), k) == if k in Keys(b) then Get(b, k) else Get(a, k)
    decreases |b|
  {
    if b != [] {
      MergeGet(Set(a, b[0].0, b[0].1), b[1..], k);
      if k != b[0].0 {
        SetOther(a, b[0].0, b[0].1, k);
      }
      FirstKeyUnique(b);
    }
  }

  lemma {:induction false} NewKeysSkip(ks: seq<string>, seen: seq<string>, x: string)
    requires x !in ks
    ensures NewKeys(ks, seen + [x]) == NewKeys(ks, seen)
  {
    if ks != [] {
      NewKeysSkip(ks[1..], seen, x);
    }
  }

  lemma FirstKeyUnique<V>(b: Dict<V>)
    requires b != [] && DistinctKeys(b)
    ensures b[0].0 !in Keys(b[1..])
  {
    forall j | 0 <= j < |b| - 1 ensures Keys(b[1..])[j] != b[0].0 {
      KeysAt(b[1..], j);
      assert b[j + 1].0 != b[0].0;
    }
  }

  lemma NewKeysCons(x: string, kb: seq<string>, seen: seq<string>)
    ensures NewKeys([x] + kb, seen) == (if x in seen then [] else [x]) + NewKeys(kb, seen)
  {
    assert ([x] + kb)[0] == x && ([x] + kb)[1..] == kb;
  }

  lemma {:induction false} MergeKeysStep<V>(a: Dict<V>, x: string, v: V, kb: seq<string>)
    requires x !in kb
    ensures Keys(Set(a, x, v)) + NewKeys(kb, Keys(Set(a, x, v)))
            == Keys(a) + NewKeys([x] + kb, Keys(a))
  {
    var ka := Keys(a);
    NewKeysCons(x, kb, ka);
    if x in ka {
      assert Keys(Set(a, x, v)) == ka;
      assert NewKeys([x] + kb, ka) == NewKeys(kb, ka);
    } else {
      assert Keys(Set(a, x, v)) == ka + [x];
      NewKeysSkip(kb, ka, x);
      AppendAssoc(ka, x, NewKeys(kb, ka));
    }
  }

  lemma AppendAssoc(ks: seq<string>, x: string, n: seq<string>)
    ensures (ks + [x]) + n == ks + ([x] + n)
  {
  }

  /**
   * In a merge, the keys of `a` come first in their order, followed by the
   * keys of `b` that `a` lacks, in `b`'s order.
   */
  lemma {:induction false} MergeKeys<V>(a: Dict<V>, b: Dict<V>)
    requires DistinctKeys(b)
    ensures Keys(Merge(a, b)) == Keys(a) + NewKeys(Keys(b), Keys(a))
    decreases |b|
  {
    if b != [] {
      MergeKeys(Set(a, b[0].0, b[0].1), b[1..]);
      FirstKeyUnique(b);
      MergeKeysStep(a, b[0].0, b[0].1, Keys(b[1..]));
    }
  }

  /** A merge of two dicts is a dict: its keys stay distinct. */
  lemma {:induction false} MergeDistinct<V>(a: Dict<V>, b: Dict<V>)
    requires DistinctKeys(a)
    ensures DistinctKeys(Merge(a, b))
    decreases |b|
  {
    if b != [] {
      SetDistinct(a, b[0].0, b[0].1);
      MergeDistinct(Set(a, b[0].0, b[0].1), b[1..]);
    }
  }

  /** Assigning a key twice leaves the second value, in the same place. */
  lemma {:induction false} SetSet<V>(d: Dict<V>, k: string, v1: V, v2: V)
    ensures Set(Set(d, k, v1), k, v2) == Set(d, k, v2)
  {
    if d != [] && d[0].0 != k {
      SetSet(d[1..], k, v1, v2);
    }
  }
}
