/**
 * A string-keyed JavaScript object (or a `Map`) whose entry order matters:
 * its entries in insertion order. `Put` is `{ ...r, [k]: v }` (or `Map.set`):
 * an existing key keeps its place and gets the new value, a new key goes last.
 */
module JsRecord {
  import opened Wrappers

  type Record<V> = seq<(string, V)>

  /** `Object.keys(r)` */
  function Keys<V>(r: Record<V>): (ks: seq<string>)
    ensures |ks| == |r|
    ensures forall i :: 0 <= i < |r| ==> ks[i] == r[i].0
  {
    seq(|r|, i requires 0 <= i < |r| => r[i].0)
  }

  /** `Object.values(r)` */
  function Values<V>(r: Record<V>): (vs: seq<V>)
    ensures |vs| == |r|
    ensures forall i :: 0 <= i < |r| ==> vs[i] == r[i].1
  {
    seq(|r|, i requires 0 <= i < |r| => r[i].1)
  }

  /** No key occurs twice, as in every JavaScript object. */
  predicate DistinctKeys<V>(r: Record<V>) {
    forall i, j :: 0 <= i < j < |r| ==> r[i].0 != r[j].0
  }

  /** `r[k]`, `undefined` when the key is absent. */
  function Get<V>(r: Record<V>, k: string): (o: Option<V>)
    ensures o.None? <==> forall i :: 0 <= i < |r| ==> r[i].0 != k
    ensures o.Some? ==> exists i :: 0 <= i < |r| && r[i] == (k, o.value)
  {
    if r == [] then None
    else if r[0].0 == k then Some(r[0].1)
    else
      var o := Get(r[1..], k);
      assert o.Some? ==> exists i :: 1 <= i < |r| && r[i] == (k, o.value) by {
        if o.Some? {
          var i :| 0 <= i < |r[1..]| && r[1..][i] == (k, o.value);
          assert r[i + 1] == (k, o.value);
        }
      }
      o
  }

  /** `r[k] ?? d` */
  function GetOr<V>(r: Record<V>, k: string, d: V): V {
    Get(r, k).GetOr(d)
  }

  /** `{ ...r, [k]: v }` */
  function Put<V>(r: Record<V>, k: string, v: V): (r': Record<V>)
    ensures Keys(r') == if k in Keys(r) then Keys(r) else Keys(r) + [k]
  {
    if r == [] then [(k, v)]
    else if r[0].0 == k then [(k, v)] + r[1..]
    else
      var rest := Put(r[1..], k, v);
      assert Keys(r) == [r[0].0] + Keys(r[1..]);
      assert Keys([r[0]] + rest) == [r[0].0] + Keys(rest);
      [r[0]] + rest
  }

  /** Reading back the key just written gives the value written. */
  lemma {:induction false} GetPutSame<V>(r: Record<V>, k: string, v: V)
    ensures Get(Put(r, k, v), k) == Some(v)
  {
    if r != [] && r[0].0 != k {
      GetPutSame(r[1..], k, v);
      assert Put(r, k, v)[1..] == Put(r[1..], k, v);
    }
  }

  /** Every other key reads as before. */
  lemma {:induction false} GetPutOther<V>(r: Record<V>, k: string, v: V, k': string)
    requires k' != k
    ensures Get(Put(r, k, v), k') == Get(r, k')
  {
    if r != [] && r[0].0 != k {
      GetPutOther(r[1..], k, v, k');
      assert Put(r, k, v)[1..] == Put(r[1..], k, v);
    } else if r != [] {
      assert Put(r, k, v)[1..] == r[1..];
    }
  }

  /** Writing a key twice is writing it once with the second value. */
  lemma {:induction false} PutPut<V>(r: Record<V>, k: string, v1: V, v2: V)
    ensures Put(Put(r, k, v1), k, v2) == Put(r, k, v2)
  {
    if r != [] && r[0].0 != k {
      PutPut(r[1..], k, v1, v2);
      assert Put(r, k, v1)[1..] == Put(r[1..], k, v1);
    }
  }

  lemma {:induction false} PutKeepsKeysDistinct<V>(r: Record<V>, k: string, v: V)
    requires DistinctKeys(r)
    ensures DistinctKeys(Put(r, k, v))
  {
    var r' := Put(r, k, v);
    assert Keys(r') == if k in Keys(r) then Keys(r) else Keys(r) + [k];
    forall i, j | 0 <= i < j < |r'| ensures r'[i].0 != r'[j].0 {
      assert Keys(r')[i] == r'[i].0 && Keys(r')[j] == r'[j].0;
      if k !in Keys(r) && j == |r| {
        assert Keys(r')[i] == Keys(r)[i];
      } else {
        assert Keys(r')[i] == Keys(r)[i] && Keys(r')[j] == Keys(r)[j];
      }
    }
  }

  /** With distinct keys, `Get` finds the one entry a key has. */
  lemma GetAt<V>(r: Record<V>, i: nat)
    requires DistinctKeys(r) && i < |r|
    ensures Get(r, r[i].0) == Some(r[i].1)
  {
    var o := Get(r, r[i].0);
    var j :| 0 <= j < |r| && r[j] == (r[i].0, o.value);
    assert j == i;
  }
}
