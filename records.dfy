/** JavaScript plain objects used as records: keys in insertion order, each with its value.
    Assigning a key keeps its place or appends it, and a spread copies the source's keys in turn. */
module Records {
  import opened Wrappers

  type Record<V> = seq<(string, V)>

  function KeysOf<V>(r: Record<V>): (ks: seq<string>)
    ensures |ks| == |r|
  {
    if r == [] then [] else [r[0].0] + KeysOf(r[1..])
  }

  /** The keys sit at the positions of their entries. */
  lemma {:induction false} KeysAt<V>(r: Record<V>)
    ensures forall i :: 0 <= i < |r| ==> KeysOf(r)[i] == r[i].0
  {
    if r != [] {
      KeysAt(r[1..]);
      assert KeysOf(r) == [r[0].0] + KeysOf(r[1..]);
    }
  }

  /** No key occurs twice, as in every object. */
  predicate DistinctKeys<V>(r: Record<V>) {
    r == [] || (r[0].0 !in KeysOf(r[1..]) && DistinctKeys(r[1..]))
  }

  /** `r[k]`: the value of the first entry with key `k`, or undefined. */
  function Get<V>(r: Record<V>, k: string): (v: Option<V>)
    ensures v.None? <==> k !in KeysOf(r)
    ensures v.Some? ==> (k, v.value) in r
  {
    if r == [] then None
    else if r[0].0 == k then Some(r[0].1)
    else
      assert KeysOf(r) == [r[0].0] + KeysOf(r[1..]);
      Get(r[1..], k)
  }

  /** `r[k] = v`: an existing key keeps its place and takes the new value; a new key goes last. */
  function Put<V>(r: Record<V>, k: string, v: V): (r': Record<V>)
    ensures Get(r', k) == Some(v)
    ensures forall j :: j != k ==> Get(r', j) == Get(r, j)
  {
    if r == [] then [(k, v)]
    else if r[0].0 == k then [(k, v)] + r[1..]
    else [r[0]] + Put(r[1..], k, v)
  }

  /** Assigning keeps the order of the keys, appending a new key. */
  lemma {:induction false} PutKeys<V>(r: Record<V>, k: string, v: V)
    ensures k in KeysOf(r) ==> KeysOf(Put(r, k, v)) == KeysOf(r)
    ensures k !in KeysOf(r) ==> KeysOf(Put(r, k, v)) == KeysOf(r) + [k]
  {
    if r != [] {
      if r[0].0 == k {
        PutHead(r, k, v);
      } else {
        PutKeys(r[1..], k, v);
        PutTail(r, k, v);
      }
    }
  }

  lemma PutHead<V>(r: Record<V>, k: string, v: V)
    requires r != [] && r[0].0 == k
    ensures k in KeysOf(r) && KeysOf(Put(r, k, v)) == KeysOf(r)
  {
    assert KeysOf(Put(r, k, v)) == [k] + KeysOf(r[1..]) by {
      assert Put(r, k, v) == [(k, v)] + r[1..];
      KeysCons((k, v), r[1..]);
    }
    assert KeysOf(r) == [k] + KeysOf(r[1..]) by {
      assert r == [r[0]] + r[1..];
      KeysCons(r[0], r[1..]);
    }
  }

  lemma PutTail<V>(r: Record<V>, k: string, v: V)
    requires r != [] && r[0].0 != k
    ensures KeysOf(Put(r, k, v)) == [r[0].0] + KeysOf(Put(r[1..], k, v))
    ensures KeysOf(r) == [r[0].0] + KeysOf(r[1..])
    ensures k in KeysOf(r) <==> k in KeysOf(r[1..])
  {
    assert KeysOf(Put(r, k, v)) == [r[0].0] + KeysOf(Put(r[1..], k, v)) by {
      assert Put(r, k, v) == [r[0]] + Put(r[1..], k, v);
      KeysCons(r[0], Put(r[1..], k, v));
    }
    assert KeysOf(r) == [r[0].0] + KeysOf(r[1..]) by {
      assert r == [r[0]] + r[1..];
      KeysCons(r[0], r[1..]);
    }
  }

  lemma KeysCons<V>(e: (string, V), t: Record<V>)
    ensures KeysOf([e] + t) == [e.0] + KeysOf(t)
  {
    assert ([e] + t)[1..] == t;
  }

  /** Assigning keeps the keys distinct. */
  lemma {:induction false} PutDistinct<V>(r: Record<V>, k: string, v: V)
    requires DistinctKeys(r)
    ensures DistinctKeys(Put(r, k, v))
  {
    if r != [] {
      if r[0].0 == k {
        assert Put(r, k, v)[1..] == r[1..];
      } else {
        PutDistinct(r[1..], k, v);
        PutKeys(r[1..], k, v);
        var rest := Put(r[1..], k, v);
        assert Put(r, k, v)[1..] == rest;
      }
    }
  }

  /** `{ ...a, ...b }`: `b`'s entries assigned onto `a` in order. */
  function Spread<V>(a: Record<V>, b: Record<V>): Record<V>
    decreases |b|
  {
    if b == [] then a else Spread(Put(a, b[0].0, b[0].1), b[1..])
  }

  /** In a spread, a key of `b` takes `b`'s value and every other key keeps `a`'s. */
  lemma {:induction false} SpreadGet<V>(a: Record<V>, b: Record<V>, k: string)
    requires DistinctKeys(b)
    ensures Get(Spread(a, b), k) == Get(b, k).Or(Get(a, k))
    decreases |b|
  {
    if b != [] {
      SpreadGet(Put(a, b[0].0, b[0].1), b[1..], k);
      if k == b[0].0 {
        assert k !in KeysOf(b[1..]);
      }
    }
  }

  /** The record without key `k`. */
  function Remove<V>(r: Record<V>, k: string): (r': Record<V>)
    ensures Get(r', k).None?
    ensures forall j :: j != k ==> Get(r', j) == Get(r, j)
  {
    if r == [] then []
    else if r[0].0 == k then Remove(r[1..], k)
    else [r[0]] + Remove(r[1..], k)
  }

  /** A sequence of keys without repeats. */
  predicate Distinct(ks: seq<string>) {
    ks == [] || (ks[0] !in ks[1..] && Distinct(ks[1..]))
  }

  lemma {:induction false} DistinctKeysOf<V>(r: Record<V>)
    requires DistinctKeys(r)
    ensures Distinct(KeysOf(r))
  {
    if r != [] {
      assert KeysOf(r)[1..] == KeysOf(r[1..]);
      DistinctKeysOf(r[1..]);
    }
  }
}
