/**
 * A Python `dict` as the logger uses it: entries kept in insertion order,
 * assignment to a present key overwriting its value in place, assignment to
 * a new key appending it at the end.
 */
module OrderedDict {
  import opened Wrappers

  type Dict<K, V> = seq<(K, V)>

  function Keys<K, V>(d: Dict<K, V>): (ks: seq<K>)
    ensures |ks| == |d| && forall i :: 0 <= i < |d| ==> ks[i] == d[i].0
  {
    if |d| == 0 then [] else [d[0].0] + Keys(d[1..])
  }

  ghost predicate DistinctKeys<K, V>(d: Dict<K, V>)
  {
    forall i, j :: 0 <= i < j < |d| ==> d[i].0 != d[j].0
  }

  /** The position of the first entry for `k`, if any. */
  function Find<K(==), V>(d: Dict<K, V>, k: K): (r: Option<nat>)
    ensures r.Some? ==> r.value < |d| && d[r.value].0 == k && forall j :: 0 <= j < r.value ==> d[j].0 != k
    ensures r.None? <==> k !in Keys(d)
  {
    if |d| == 0 then None
    else if d[0].0 == k then Some(0)
    else match Find(d[1..], k)
      case None => None
      case Some(i) => Some(i + 1)
  }

  /** `d[k]`, `None` standing for the `KeyError`. */
  function Get<K(==), V>(d: Dict<K, V>, k: K): Option<V>
  {
    match Find(d, k)
    case None => None
    case Some(i) => Some(d[i].1)
  }

  /** `d.get(k, default)`. */
  function GetOr<K(==), V>(d: Dict<K, V>, k: K, default: V): V
  {
    Get(d, k).GetOr(default)
  }

  /** `d[k] = v`. */
  function Put<K(==), V>(d: Dict<K, V>, k: K, v: V): Dict<K, V>
  {
    match Find(d, k)
    case None => d + [(k, v)]
    case Some(i) => d[i := (k, v)]
  }

  /** After `d[k] = v`, `d[k]` is `v`. */
  lemma PutGet<K, V>(d: Dict<K, V>, k: K, v: V)
    ensures Get(Put(d, k, v), k) == Some(v)
  {
    var r := Put(d, k, v);
    if Find(d, k).None? {
      assert Find(r, k) == Some(|d|) by {
        assert r[|d|].0 == k;
        forall j | 0 <= j < |d| ensures r[j].0 != k {
          assert Keys(d)[j] == d[j].0;
        }
        assert Find(r, k).Some?;
      }
    } else {
      var i := Find(d, k).value;
      assert r[i].0 == k;
    }
  }

  /** `d[k] = v` leaves every other key's value as it was. */
  lemma PutOther<K, V>(d: Dict<K, V>, k: K, v: V, k': K)
    requires k' != k
    ensures Get(Put(d, k, v), k') == Get(d, k')
  {
    var r := Put(d, k, v);
    assert |d| <= |r|;
    assert forall j :: 0 <= j < |d| ==> (r[j].0 == k' <==> d[j].0 == k');
    if Find(d, k').None? {
      assert k' !in Keys(r) by {
        forall j | 0 <= j < |r| ensures Keys(r)[j] != k' {
          if j < |d| { assert Keys(d)[j] == d[j].0; }
        }
      }
    } else {
      var i := Find(d, k').value;
      assert r[i] == d[i];
      assert Keys(r)[i] == k';
      var i2 := Find(r, k').value;
      assert i2 == i;
    }
  }

  /** `d[k] = v` keeps the order of the keys, appending `k` when it is new. */
  lemma PutKeys<K, V>(d: Dict<K, V>, k: K, v: V)
    ensures Keys(Put(d, k, v)) == if k in Keys(d) then Keys(d) else Keys(d) + [k]
  {
  }

  /** `d[k] = v` never duplicates a key. */
  lemma PutDistinct<K, V>(d: Dict<K, V>, k: K, v: V)
    requires DistinctKeys(d)
    ensures DistinctKeys(Put(d, k, v))
  {
    if Find(d, k).None? {
      forall j | 0 <= j < |d| ensures d[j].0 != k {
        assert Keys(d)[j] == d[j].0;
      }
    }
  }
}
