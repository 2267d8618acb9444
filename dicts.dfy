/** Python dicts with string keys as association lists in insertion order:
    `d.get(k)`, `d[k] = v` and the merge `{**a, **b}`. Used for EC2 tag sets
    and for the files of the configuration backup directory. */
module Dicts {
  import opened Common

  datatype Item<V> = Item(key: string, val: V)

  function KeysOf<V>(d: seq<Item<V>>): (ks: seq<string>)
    ensures |ks| == |d| && forall i :: 0 <= i < |d| ==> ks[i] == d[i].key
  {
    seq(|d|, i requires 0 <= i < |d| => d[i].key)
  }

  /** A dict never holds a key twice. */
  predicate DistinctKeys<V>(d: seq<Item<V>>) {
    forall i, j :: 0 <= i < j < |d| ==> d[i].key != d[j].key
  }

  /** `d.get(k)`: the value of the first entry with key `k`. */
  function Get<V>(d: seq<Item<V>>, k: string): Option<V>
    decreases |d|
  {
    if d == [] then None
    else if d[0].key == k then Some(d[0].val)
    else Get(d[1..], k)
  }

  lemma {:induction false} GetSomeIffKey<V>(d: seq<Item<V>>, k: string)
    ensures Get(d, k).Some? <==> k in KeysOf(d)
    decreases |d|
  {
    if d != [] {
      GetSomeIffKey(d[1..], k);
      assert KeysOf(d) == [d[0].key] + KeysOf(d[1..]);
    }
  }

  /** `d[k] = v`: an existing key keeps its position and takes the new value;
      a new key is appended. */
  function Set<V>(d: seq<Item<V>>, k: string, v: V): (r: seq<Item<V>>)
    ensures Get(r, k) == Some(v)
    decreases |d|
  {
    if d == [] then [Item(k, v)]
    else if d[0].key == k then [Item(k, v)] + d[1..]
    else
      var rest := Set(d[1..], k, v);
      assert ([d[0]] + rest)[1..] == rest;
      [d[0]] + rest
  }

  /** Assigning `k` leaves every other key's value as it was. */
  lemma {:induction false} SetOther<V>(d: seq<Item<V>>, k: string, v: V, k': string)
    requires k' != k
    ensures Get(Set(d, k, v), k') == Get(d, k')
    decreases |d|
  {
    if d != [] && d[0].key != k {
      SetOther(d[1..], k, v, k');
      assert ([d[0]] + Set(d[1..], k, v))[1..] == Set(d[1..], k, v);
    }
  }

  /** Assigning keeps every key in its position; a new key is appended. */
  lemma {:induction false} SetKeys<V>(d: seq<Item<V>>, k: string, v: V)
    ensures |Set(d, k, v)| == if Get(d, k).Some? then |d| else |d| + 1
    ensures forall i :: 0 <= i < |d| ==> Set(d, k, v)[i].key == d[i].key
    ensures Get(d, k).None? ==> Set(d, k, v)[|d|].key == k
    decreases |d|
  {
    if d != [] && d[0].key != k {
      SetKeys(d[1..], k, v);
      var rest := Set(d[1..], k, v);
      var r := [d[0]] + rest;
      assert Set(d, k, v) == r;
      assert Get(d, k) == Get(d[1..], k);
      forall i | 0 <= i < |d| ensures r[i].key == d[i].key {
        if i > 0 {
          assert r[i] == rest[i - 1] && d[i] == d[1..][i - 1];
        }
      }
      if Get(d, k).None? {
        assert r[|d|] == rest[|d| - 1];
      }
    }
  }

  /** Assigning keeps the keys distinct. */
  lemma SetDistinct<V>(d: seq<Item<V>>, k: string, v: V)
    requires DistinctKeys(d)
    ensures DistinctKeys(Set(d, k, v))
  {
    var r := Set(d, k, v);
    SetKeys(d, k, v);
    GetSomeIffKey(d, k);
    forall i, j | 0 <= i < j < |r| ensures r[i].key != r[j].key {
      if j == |d| {
        assert KeysOf(d)[i] == d[i].key;
      }
    }
  }

  /** `{**a, **b}`: the entries of `a`, then every entry of `b` assigned in
      order, so the values of `b` win on shared keys. */
  function Merge<V>(a: seq<Item<V>>, b: seq<Item<V>>): (r: seq<Item<V>>)
    decreases |b|
  {
    if b == [] then a else Merge(Set(a, b[0].key, b[0].val), b[1..])
  }

  /** A key of the merge takes its value from `b` when `b` has it and from `a`
      otherwise; the merge has exactly the keys of both. */
  lemma {:induction false} MergeGet<V>(a: seq<Item<V>>, b: seq<Item<V>>, k: string)
    requires DistinctKeys(b)
    ensures Get(Merge(a, b), k) == if Get(b, k).Some? then Get(b, k) else Get(a, k)
    decreases |b|
  {
    if b != [] {
      var a' := Set(a, b[0].key, b[0].val);
      assert DistinctKeys(b[1..]) by {
        forall i, j | 0 <= i < j < |b[1..]| ensures b[1..][i].key != b[1..][j].key {
          assert b[1..][i] == b[i + 1] && b[1..][j] == b[j + 1];
        }
      }
      MergeGet(a', b[1..], k);
      SetKeys(a, b[0].key, b[0].val);
      if k != b[0].key {
        SetOther(a, b[0].key, b[0].val, k);
      }
      GetSomeIffKey(b, k);
      GetSomeIffKey(b[1..], k);
      assert KeysOf(b) == [b[0].key] + KeysOf(b[1..]);
      if k == b[0].key {
        assert k !in KeysOf(b[1..]) by {
          forall i | 0 <= i < |b[1..]| ensures KeysOf(b[1..])[i] != k {
            assert b[1..][i] == b[i + 1];
          }
        }
      }
    }
  }

  /** Merging keeps the keys distinct. */
  lemma {:induction false} MergeDistinct<V>(a: seq<Item<V>>, b: seq<Item<V>>)
    requires DistinctKeys(a)
    ensures DistinctKeys(Merge(a, b))
    decreases |b|
  {
    if b != [] {
      SetDistinct(a, b[0].key, b[0].val);
      MergeDistinct(Set(a, b[0].key, b[0].val), b[1..]);
    }
  }
}
