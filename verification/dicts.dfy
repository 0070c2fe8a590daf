/**
 * A JavaScript plain object as an ordered list of (key, value) entries: `Object.keys`
 * order is insertion order, assigning an existing key keeps its position.
 */
module Dicts {
  import opened Values

  type Dict<V> = seq<(string, V)>

  function Keys<V>(d: Dict<V>): (ks: seq<string>)
    ensures |ks| == |d|
    ensures forall i :: 0 <= i < |d| ==> ks[i] == d[i].0
  {
    seq(|d|, i requires 0 <= i < |d| => d[i].0)
  }

  /** `Object.values(d)`, in key order. */
  function Vals<V>(d: Dict<V>): (vs: seq<V>)
    ensures |vs| == |d|
    ensures forall i :: 0 <= i < |d| ==> vs[i] == d[i].1
  {
    seq(|d|, i requires 0 <= i < |d| => d[i].1)
  }

  predicate DistinctKeys<V>(d: Dict<V>)
  {
    forall i, j :: 0 <= i < j < |d| ==> d[i].0 != d[j].0
  }

  /** `d[k]`, `None` standing for a missing key. */
  function Get<V>(d: Dict<V>, k: string): (r: Option<V>)
    ensures r.None? <==> k !in Keys(d)
    ensures r.Some? ==> (k, r.value) in d
  {
    if d == [] then None
    else if d[0].0 == k then Some(d[0].1)
    else
      assert Keys(d) == [d[0].0] + Keys(d[1..]);
      Get(d[1..], k)
  }

  /** `d[k] = v`. */
  function Put<V>(d: Dict<V>, k: string, v: V): (r: Dict<V>)
  {
    if d == [] then [(k, v)]
    else if d[0].0 == k then [(k, v)] + d[1..]
    else [d[0]] + Put(d[1..], k, v)
  }

  lemma KeysCons<V>(d: Dict<V>)
    requires d != []
    ensures Keys(d) == [d[0].0] + Keys(d[1..])
  {
  }

  /** Assigning a key the object does not have appends it. */
  lemma {:induction false} PutNew<V>(d: Dict<V>, k: string, v: V)
    requires k !in Keys(d)
    ensures Put(d, k, v) == d + [(k, v)]
  {
    if d != [] {
      KeysCons(d);
      PutNew(d[1..], k, v);
    }
  }

  /** Assigning a key the object has keeps the key order. */
  lemma {:induction false} PutExisting<V>(d: Dict<V>, k: string, v: V)
    requires k in Keys(d)
    ensures Keys(Put(d, k, v)) == Keys(d)
  {
    KeysCons(d);
    if d[0].0 != k {
      PutExisting(d[1..], k, v);
      KeysCons(Put(d, k, v));
    } else {
      KeysCons(Put(d, k, v));
    }
  }

  /** After `d[k] = v`, reading `k` gives `v` and every other key reads as before. */
  lemma {:induction false} PutGet<V>(d: Dict<V>, k: string, v: V, k': string)
    ensures Get(Put(d, k, v), k') == if k' == k then Some(v) else Get(d, k')
  {
    if d != [] && d[0].0 != k {
      PutGet(d[1..], k, v, k');
    }
  }

  /** The keys after `d[k] = v` are those before plus `k`. */
  lemma {:induction false} PutKeySet<V>(d: Dict<V>, k: string, v: V)
    ensures forall k' :: k' in Keys(Put(d, k, v)) <==> k' in Keys(d) || k' == k
  {
    if k in Keys(d) {
      PutExisting(d, k, v);
    } else {
      PutNew(d, k, v);
      assert Keys(Put(d, k, v)) == Keys(d) + [k];
    }
  }

  /** Assignment keeps the keys distinct. */
  lemma {:induction false} PutDistinct<V>(d: Dict<V>, k: string, v: V)
    requires DistinctKeys(d)
    ensures DistinctKeys(Put(d, k, v))
  {
    if k in Keys(d) {
      PutExisting(d, k, v);
      assert forall i :: 0 <= i < |d| ==> Keys(Put(d, k, v))[i] == Keys(d)[i];
    } else {
      PutNew(d, k, v);
    }
  }

  /** The keys of `ks` that are not among `drop`, in order. */
  function FilterKeys(ks: seq<string>, drop: seq<string>): seq<string>
  {
    if ks == [] then []
    else if ks[0] in drop then FilterKeys(ks[1..], drop)
    else [ks[0]] + FilterKeys(ks[1..], drop)
  }

  /** The entries of `d` whose key is not among `drop`, in order (`delete d[k]` for each k of `drop`). */
  function Without<V>(d: Dict<V>, drop: seq<string>): (r: Dict<V>)
    ensures Keys(r) == FilterKeys(Keys(d), drop)
    ensures forall i :: 0 <= i < |r| ==> r[i] in d && r[i].0 !in drop
    ensures forall i :: 0 <= i < |d| && d[i].0 !in drop ==> d[i] in r
  {
    if d == [] then []
    else
      assert Keys(d) == [d[0].0] + Keys(d[1..]);
      if d[0].0 in drop then Without(d[1..], drop)
      else
        var r := [d[0]] + Without(d[1..], drop);
        assert Keys(r) == [d[0].0] + Keys(Without(d[1..], drop));
        r
  }

  /** `Object.assign({}, a, b)`: the entries of `b` assigned, one by one, over those of `a`. */
  function Assign<V>(a: Dict<V>, b: Dict<V>): Dict<V>
    decreases |b|
  {
    if b == [] then a else Assign(Put(a, b[0].0, b[0].1), b[1..])
  }

  /** After `Object.assign`, a key of `b` reads `b`'s value and any other key reads `a`'s. */
  lemma {:induction false} AssignGet<V>(a: Dict<V>, b: Dict<V>, k: string)
    requires DistinctKeys(b)
    decreases |b|
    ensures Get(Assign(a, b), k) == if k in Keys(b) then Get(b, k) else Get(a, k)
  {
    if b != [] {
      KeysCons(b);
      PutGet(a, b[0].0, b[0].1, k);
      AssignGet(Put(a, b[0].0, b[0].1), b[1..], k);
      if k == b[0].0 {
        assert k !in Keys(b[1..]);
      }
    }
  }

  /** `Object.assign` keeps the keys of `a` first, in place, and every key of `b` is present afterwards. */
  lemma {:induction false} AssignKeys<V>(a: Dict<V>, b: Dict<V>)
    decreases |b|
    ensures Keys(a) <= Keys(Assign(a, b))
    ensures forall k :: k in Keys(a) || k in Keys(b) <==> k in Keys(Assign(a, b))
    ensures DistinctKeys(a) ==> DistinctKeys(Assign(a, b))
  {
    if b != [] {
      var a' := Put(a, b[0].0, b[0].1);
      KeysCons(b);
      PutKeySet(a, b[0].0, b[0].1);
      if DistinctKeys(a) { PutDistinct(a, b[0].0, b[0].1); }
      if b[0].0 in Keys(a) {
        PutExisting(a, b[0].0, b[0].1);
      } else {
        PutNew(a, b[0].0, b[0].1);
      }
      AssignKeys(a', b[1..]);
    }
  }

  /** Distinctness depends on the keys alone. */
  lemma DistinctKeysTransfer<A, B>(a: Dict<A>, b: Dict<B>)
    requires Keys(a) == Keys(b) && DistinctKeys(a)
    ensures DistinctKeys(b)
  {
    forall i, j | 0 <= i < j < |b| ensures b[i].0 != b[j].0 {
      assert Keys(a)[i] == Keys(b)[i] && Keys(a)[j] == Keys(b)[j];
    }
  }

  /** In an object with distinct keys, reading the i-th key gives the i-th value. */
  lemma {:induction false} GetDistinctAt<V>(d: Dict<V>, i: nat)
    requires DistinctKeys(d) && i < |d|
    ensures Get(d, d[i].0) == Some(d[i].1)
  {
    if i > 0 {
      GetDistinctAt(d[1..], i - 1);
    }
  }

  /** Reading a key after the deletions: a deleted key is gone, any other reads as before. */
  lemma {:induction false} GetWithout<V>(d: Dict<V>, drop: seq<string>, k: string)
    ensures Get(Without(d, drop), k) == if k in drop then None else Get(d, k)
  {
    if d != [] {
      GetWithout(d[1..], drop, k);
    }
  }

  /** Deleting keys keeps the remaining keys distinct. */
  lemma {:induction false} WithoutDistinct<V>(d: Dict<V>, drop: seq<string>)
    requires DistinctKeys(d)
    ensures DistinctKeys(Without(d, drop))
  {
    if d != [] {
      WithoutDistinct(d[1..], drop);
      if d[0].0 !in drop {
        var rest := Without(d[1..], drop);
        forall i | 0 <= i < |rest| ensures rest[i].0 != d[0].0 {
          assert rest[i] in d[1..];
        }
      }
    }
  }

  /** Deleting the same keys a second time changes nothing. */
  lemma {:induction false} WithoutTwice<V>(d: Dict<V>, drop: seq<string>)
    ensures Without(Without(d, drop), drop) == Without(d, drop)
  {
    if d != [] {
      WithoutTwice(d[1..], drop);
    }
  }

  /** Deletion entry by entry: one more entry of `d` is kept exactly when its key is not dropped. */
  lemma {:induction false} WithoutSnoc<V>(d: Dict<V>, e: (string, V), drop: seq<string>)
    ensures Without(d + [e], drop) == Without(d, drop) + (if e.0 in drop then [] else [e])
  {
    if d == [] {
      assert [e][1..] == [];
    } else {
      assert (d + [e])[1..] == d[1..] + [e];
      WithoutSnoc(d[1..], e, drop);
    }
  }
}
