/** Insertion-ordered dictionaries keyed by strings. A JavaScript `Map` and
    the own properties of a plain object behave alike here: reading finds the
    entry for a key, assigning to a present key keeps its position, assigning
    to a new key appends it, and `delete` removes it. */
module OrderedMaps {
  import opened Wrappers

  datatype Entry<V> = Entry(key: string, val: V)

  type OMap<V> = seq<Entry<V>>

  function Keys<V>(m: OMap<V>): (ks: seq<string>)
    ensures |ks| == |m|
    ensures forall i :: 0 <= i < |m| ==> ks[i] == m[i].key
  {
    seq(|m|, i requires 0 <= i < |m| => m[i].key)
  }

  function Get<V>(m: OMap<V>, k: string): (r: Option<V>)
    ensures r.Some? <==> k in Keys(m)
  {
    if |m| == 0 then None
    else if m[0].key == k then Some(m[0].val)
    else Get(m[1..], k)
  }

  /** `m.set(k, v)` / `obj[k] = v`. */
  function Put<V>(m: OMap<V>, k: string, v: V): (r: OMap<V>)
    ensures Get(r, k) == Some(v)
    ensures forall k' :: k' != k ==> Get(r, k') == Get(m, k')
    ensures k in Keys(m) ==> Keys(r) == Keys(m)
    ensures k !in Keys(m) ==> Keys(r) == Keys(m) + [k]
  {
    if |m| == 0 then [Entry(k, v)]
    else if m[0].key == k then
      var r := [Entry(k, v)] + m[1..];
      assert r[1..] == m[1..];
      assert Keys(r) == Keys(m);
      r
    else
      var t := Put(m[1..], k, v);
      var r := [m[0]] + t;
      KeysCons(m[0], t);
      KeysCons(m[0], m[1..]);
      assert r[1..] == t && [m[0]] + m[1..] == m;
      r
  }

  /** The keys of an entry put in front. */
  lemma KeysCons<V>(e: Entry<V>, m: OMap<V>)
    ensures Keys([e] + m) == [e.key] + Keys(m)
  {
    var l, r := Keys([e] + m), [e.key] + Keys(m);
    forall i | 0 <= i < |l|
      ensures l[i] == r[i]
    {
      if i > 0 {
        assert ([e] + m)[i] == m[i - 1];
      }
    }
  }

  /** Every entry of `Put(m, k, v)` is the new one or an entry of `m`. */
  lemma {:induction false} PutEntries<V>(m: OMap<V>, k: string, v: V)
    ensures forall e :: e in Put(m, k, v) ==> e == Entry(k, v) || e in m
  {
    if |m| > 0 && m[0].key != k {
      PutEntries(m[1..], k, v);
    }
  }

  /** `delete obj[k]`. */
  function Remove<V>(m: OMap<V>, k: string): (r: OMap<V>)
    ensures k !in Keys(r)
    ensures forall k' :: k' != k ==> Get(r, k') == Get(m, k')
    ensures |r| <= |m|
    ensures forall e :: e in r ==> e in m
  {
    if |m| == 0 then []
    else if m[0].key == k then Remove(m[1..], k)
    else [m[0]] + Remove(m[1..], k)
  }

  predicate DistinctKeys<V>(m: OMap<V>)
  {
    forall i, j :: 0 <= i < j < |m| ==> m[i].key != m[j].key
  }

  lemma PutKeepsDistinct<V>(m: OMap<V>, k: string, v: V)
    requires DistinctKeys(m)
    ensures DistinctKeys(Put(m, k, v))
  {
    var r := Put(m, k, v);
    assert Keys(r) == Keys(m) || Keys(r) == Keys(m) + [k];
    forall i, j | 0 <= i < j < |r|
      ensures r[i].key != r[j].key
    {
      assert Keys(r)[i] == r[i].key && Keys(r)[j] == r[j].key;
    }
  }

  /** In a map with distinct keys, the entry at position `i` is what `Get`
      finds for its key. */
  lemma {:induction false} GetAtDistinct<V>(m: OMap<V>, i: nat)
    requires DistinctKeys(m) && i < |m|
    ensures Get(m, m[i].key) == Some(m[i].val)
  {
    if i > 0 {
      GetAtDistinct(m[1..], i - 1);
    }
  }

  /** Deleting an absent key changes nothing. */
  lemma {:induction false} RemoveAbsent<V>(m: OMap<V>, k: string)
    requires k !in Keys(m)
    ensures Remove(m, k) == m
  {
    if |m| > 0 {
      assert Keys(m)[0] == m[0].key;
      assert Keys(m[1..]) == Keys(m)[1..];
      RemoveAbsent(m[1..], k);
    }
  }
}
