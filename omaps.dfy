/** JavaScript objects used as dictionaries: string keys that remember the
    order in which they were first assigned (`Object.keys`, `Object.entries`
    and `JSON.stringify` list them in that order), and an assignment
    `obj[k] = v` that overwrites a known key in place. */
module OrderedMaps {
  import opened Wrappers

  type OMap<V> = seq<(string, V)>

  /** `Object.keys(obj)`: each key once, in order of first assignment. */
  function Keys<V>(m: OMap<V>): (ks: seq<string>)
    ensures |ks| == |m|
    ensures forall i :: 0 <= i < |m| ==> ks[i] == m[i].0
    decreases |m|
  {
    if |m| == 0 then [] else [m[0].0] + Keys(m[1..])
  }

  predicate DistinctKeys<V>(m: OMap<V>) {
    forall i, j :: 0 <= i < j < |m| ==> m[i].0 != m[j].0
  }

  /** In an object built by assignments, `Object.keys` lists each key once. */
  lemma KeysListedOnce<V>(m: OMap<V>)
    requires DistinctKeys(m)
    ensures forall i, j :: 0 <= i < j < |Keys(m)| ==> Keys(m)[i] != Keys(m)[j]
  {
  }

  /** `obj[k]`: the value under `k`, if any. */
  function Get<V>(m: OMap<V>, k: string): (r: Option<V>)
    ensures r.None? <==> k !in Keys(m)
    decreases |m|
  {
    if |m| == 0 then None
    else if m[0].0 == k then Some(m[0].1)
    else Get(m[1..], k)
  }

  /** `obj[k] = v`: an existing key keeps its place, a new key goes last. */
  function Put<V>(m: OMap<V>, k: string, v: V): (r: OMap<V>)
    ensures Keys(r) == if k in Keys(m) then Keys(m) else Keys(m) + [k]
    decreases |m|
  {
    if |m| == 0 then [(k, v)]
    else if m[0].0 == k then [(k, v)] + m[1..]
    else [m[0]] + Put(m[1..], k, v)
  }

  /** Reading a key just assigned gives the assigned value. */
  lemma {:induction false} PutGetSame<V>(m: OMap<V>, k: string, v: V)
    ensures Get(Put(m, k, v), k) == Some(v)
    decreases |m|
  {
    if |m| > 0 && m[0].0 != k {
      PutGetSame(m[1..], k, v);
      assert ([m[0]] + Put(m[1..], k, v))[1..] == Put(m[1..], k, v);
    }
  }

  /** An assignment leaves every other key's value alone. */
  lemma {:induction false} PutGetOther<V>(m: OMap<V>, k: string, v: V, k': string)
    requires k' != k
    ensures Get(Put(m, k, v), k') == Get(m, k')
    decreases |m|
  {
    if |m| > 0 {
      if m[0].0 == k {
        assert ([(k, v)] + m[1..])[1..] == m[1..];
      } else {
        PutGetOther(m[1..], k, v, k');
        assert ([m[0]] + Put(m[1..], k, v))[1..] == Put(m[1..], k, v);
      }
    }
  }

  /** Assignments never create a second entry for a key. */
  lemma PutKeepsKeysDistinct<V>(m: OMap<V>, k: string, v: V)
    requires DistinctKeys(m)
    ensures DistinctKeys(Put(m, k, v))
  {
    var r := Put(m, k, v);
    assert forall i :: 0 <= i < |r| ==> r[i].0 == Keys(r)[i];
    assert forall i :: 0 <= i < |m| ==> m[i].0 == Keys(m)[i];
  }

  /** `Object.assign(m, other)`: every entry of `other` assigned in order. */
  function PutAll<V>(m: OMap<V>, other: OMap<V>): (r: OMap<V>)
    decreases |other|
  {
    if |other| == 0 then m else PutAll(Put(m, other[0].0, other[0].1), other[1..])
  }

  /** `Object.assign` never creates a second entry for a key. */
  lemma {:induction false} PutAllKeepsKeysDistinct<V>(m: OMap<V>, other: OMap<V>)
    requires DistinctKeys(m)
    ensures DistinctKeys(PutAll(m, other))
    decreases |other|
  {
    if |other| > 0 {
      PutKeepsKeysDistinct(m, other[0].0, other[0].1);
      PutAllKeepsKeysDistinct(Put(m, other[0].0, other[0].1), other[1..]);
    }
  }

  /** After `Object.assign` the keys of `m` keep their places and come first. */
  lemma {:induction false} PutAllKeepsPrefix<V>(m: OMap<V>, other: OMap<V>)
    ensures |Keys(PutAll(m, other))| >= |Keys(m)|
    ensures Keys(PutAll(m, other))[..|m|] == Keys(m)
    decreases |other|
  {
    if |other| > 0 {
      var m' := Put(m, other[0].0, other[0].1);
      PutAllKeepsPrefix(m', other[1..]);
      assert Keys(m')[..|m|] == Keys(m);
    }
  }

  /** With distinct keys, `Object.assign` gives every key of `other` the
      value `other` holds for it, and keeps the value of `m` elsewhere. */
  lemma {:induction false} PutAllGet<V>(m: OMap<V>, other: OMap<V>, k: string)
    requires DistinctKeys(other)
    ensures Get(PutAll(m, other), k) == if k in Keys(other) then Get(other, k) else Get(m, k)
    decreases |other|
  {
    if |other| > 0 {
      var m' := Put(m, other[0].0, other[0].1);
      assert Keys(other) == [other[0].0] + Keys(other[1..]);
      assert DistinctKeys(other[1..]);
      PutAllGet(m', other[1..], k);
      if k == other[0].0 {
        assert k !in Keys(other[1..]);
        PutGetSame(m, k, other[0].1);
      } else {
        PutGetOther(m, other[0].0, other[0].1, k);
      }
    }
  }
}
