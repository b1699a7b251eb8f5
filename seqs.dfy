/** `Array.prototype.find` and `Array.prototype.filter`. */
module Seqs {
  import opened Wrappers

  /** `s.find(p)`: the first element satisfying p, or `undefined`. */
  function FindFirst<T>(s: seq<T>, p: T -> bool): (r: Option<T>)
    ensures r.None? <==> forall i :: 0 <= i < |s| ==> !p(s[i])
    ensures r.Some? ==> exists i :: 0 <= i < |s| && s[i] == r.value && p(s[i]) && forall j :: 0 <= j < i ==> !p(s[j])
  {
    if s == [] then None
    else if p(s[0]) then Some(s[0])
    else
      var r := FindFirst(s[1..], p);
      assert r.Some? ==> exists i :: 1 <= i < |s| && s[i] == r.value && p(s[i]) && forall j :: 0 <= j < i ==> !p(s[j]) by {
        if r.Some? {
          var i :| 0 <= i < |s[1..]| && s[1..][i] == r.value && p(s[1..][i]) && forall j :: 0 <= j < i ==> !p(s[1..][j]);
          assert forall j :: 1 <= j < i + 1 ==> !p(s[j]) by {
            forall j | 1 <= j < i + 1 ensures !p(s[j]) { assert s[j] == s[1..][j - 1]; }
          }
        }
      }
      r
  }

  /** `s.filter(p)`: the elements satisfying p, in their order in s. */
  function Filter<T>(s: seq<T>, p: T -> bool): (r: seq<T>)
    ensures |r| <= |s|
    ensures forall i :: 0 <= i < |r| ==> r[i] in s && p(r[i])
    ensures forall i :: 0 <= i < |s| && p(s[i]) ==> s[i] in r
  {
    if s == [] then []
    else if p(s[0]) then [s[0]] + Filter(s[1..], p)
    else Filter(s[1..], p)
  }

  /** Filtering keeps the order: filtering a concatenation concatenates the filtered parts. */
  lemma {:induction false} FilterAppend<T>(s: seq<T>, t: seq<T>, p: T -> bool)
    ensures Filter(s + t, p) == Filter(s, p) + Filter(t, p)
  {
    if s != [] {
      assert (s + t)[1..] == s[1..] + t;
      FilterAppend(s[1..], t, p);
    } else {
      assert s + t == t;
    }
  }

  /** Filtering a sequence with one more element at the end. */
  lemma FilterSnoc<T>(s: seq<T>, p: T -> bool)
    requires s != []
    ensures Filter(s, p) == Filter(s[..|s| - 1], p) + if p(s[|s| - 1]) then [s[|s| - 1]] else []
  {
    var n := |s| - 1;
    assert s == s[..n] + [s[n]];
    FilterAppend(s[..n], [s[n]], p);
    if !p(s[n]) {
      FilterNone([s[n]], p);
    }
  }

  /** When exactly one element satisfies p, filtering yields that element alone. */
  lemma {:induction false} FilterUnique<T>(s: seq<T>, p: T -> bool, i: nat)
    requires i < |s| && p(s[i])
    requires forall j :: 0 <= j < |s| && j != i ==> !p(s[j])
    ensures Filter(s, p) == [s[i]]
  {
    if i == 0 {
      FilterNone(s[1..], p);
    } else {
      FilterUnique(s[1..], p, i - 1);
    }
  }

  lemma {:induction false} FilterNone<T>(s: seq<T>, p: T -> bool)
    requires forall j :: 0 <= j < |s| ==> !p(s[j])
    ensures Filter(s, p) == []
  {
    if s != [] {
      FilterNone(s[1..], p);
    }
  }

  /**
   * Appending the last element of s to the first occurrences of the rest of
   * s, unless they already hold it, gives the first occurrences of s.
   */
  lemma FirstOccurrencesStep<T>(s: seq<T>, p: seq<T>, prior: seq<T>, r: seq<T>)
    requires s != [] && p == s[..|s| - 1]
    requires r == if s[|s| - 1] in prior then prior else prior + [s[|s| - 1]]
    requires forall i :: 0 <= i < |prior| ==> prior[i] in p
    requires forall i :: 0 <= i < |p| ==> p[i] in prior
    requires forall i, j :: 0 <= i < j < |prior| ==> prior[i] != prior[j]
    requires forall i, j, k :: 0 <= i < j < |prior| && 0 <= k < |p| && p[k] == prior[j] ==> prior[i] in p[..k]
    ensures forall i :: 0 <= i < |r| ==> r[i] in s
    ensures forall i :: 0 <= i < |s| ==> s[i] in r
    ensures forall i, j :: 0 <= i < j < |r| ==> r[i] != r[j]
    ensures forall i, j, k :: 0 <= i < j < |r| && 0 <= k < |s| && s[k] == r[j] ==> r[i] in s[..k]
  {
    var n := |s| - 1;
    assert s == p + [s[n]];
    forall i | 0 <= i < |s| ensures s[i] in r {
      if i < n { assert s[i] == p[i]; }
    }
    forall i, j, k | 0 <= i < j < |r| && 0 <= k < |s| && s[k] == r[j] ensures r[i] in s[..k] {
      if k == n {
        assert r[i] == prior[i];
        assert r[i] in p;
      } else if j == |prior| {
        assert false;
      } else {
        assert p[k] == prior[j];
        assert r[i] in p[..k];
        assert p[..k] == s[..k];
      }
    }
  }

  /** The distinct elements of s, each once, in the order of their first occurrence. */
  function FirstOccurrences<T(==)>(s: seq<T>): (r: seq<T>)
    ensures forall i :: 0 <= i < |r| ==> r[i] in s
    ensures forall i :: 0 <= i < |s| ==> s[i] in r
    ensures forall i, j :: 0 <= i < j < |r| ==> r[i] != r[j]
    ensures forall i, j, k :: 0 <= i < j < |r| && 0 <= k < |s| && s[k] == r[j] ==> r[i] in s[..k]
    decreases |s|
  {
    if s == [] then []
    else
      var n := |s| - 1;
      var prior := FirstOccurrences(s[..n]);
      var r := if s[n] in prior then prior else prior + [s[n]];
      FirstOccurrencesStep(s, s[..n], prior, r);
      r
  }
}
