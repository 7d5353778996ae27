/**
 * The two `Array.prototype` methods the resolver is built from: `find`, which
 * returns the first element satisfying a callback (or `undefined`), and
 * `filter`, which returns every such element in array order.
 */
module JsArray {

  import opened Wrappers

  /** `s` appears in `t` in order, possibly with elements of `t` skipped. */
  predicate IsSubsequence<T(==,!new)>(s: seq<T>, t: seq<T>)
    decreases |t|
  {
    if s == [] then true
    else if t == [] then false
    else if s[0] == t[0] then IsSubsequence(s[1..], t[1..])
    else IsSubsequence(s, t[1..])
  }

  /** `s.find(p)`: the first element of `s` that satisfies `p`, if any. */
  function Find<T>(s: seq<T>, p: T -> bool): (r: Option<T>)
    ensures r.None? <==> forall i :: 0 <= i < |s| ==> !p(s[i])
    ensures r.Some? ==> exists k :: 0 <= k < |s| && s[k] == r.value && p(s[k]) && forall j :: 0 <= j < k ==> !p(s[j])
    decreases |s|
  {
    if s == [] then None
    else if p(s[0]) then Some(s[0])
    else
      var r := Find(s[1..], p);
      assert r.Some? ==> exists k :: 0 < k < |s| && s[k] == r.value && p(s[k]) && forall j :: 0 <= j < k ==> !p(s[j]) by {
        if r.Some? {
          var k :| 0 <= k < |s[1..]| && s[1..][k] == r.value && p(s[1..][k]) && forall j :: 0 <= j < k ==> !p(s[1..][j]);
          assert forall j :: 0 <= j < k + 1 ==> !p(s[j]) by {
            forall j | 0 <= j < k + 1 ensures !p(s[j]) {
              if j > 0 { assert s[j] == s[1..][j - 1]; }
            }
          }
          assert s[k + 1] == r.value && p(s[k + 1]);
        }
      }
      r
  }

  /** `s.filter(p)`: the elements of `s` that satisfy `p`, in the order of `s`. */
  function Filter<T>(s: seq<T>, p: T -> bool): (r: seq<T>)
    ensures |r| <= |s|
    ensures forall i :: 0 <= i < |r| ==> p(r[i])
    decreases |s|
  {
    if s == [] then []
    else if p(s[0]) then [s[0]] + Filter(s[1..], p)
    else Filter(s[1..], p)
  }

  /** `filter` keeps every satisfying element as often as it occurs, and nothing else. */
  lemma {:induction false} FilterCounts<T(!new)>(s: seq<T>, p: T -> bool)
    ensures forall x :: multiset(Filter(s, p))[x] == if p(x) then multiset(s)[x] else 0
    decreases |s|
  {
    if s != [] {
      FilterCounts(s[1..], p);
      assert s == [s[0]] + s[1..];
    }
  }

  /** `filter` keeps the order of the array. */
  lemma {:induction false} FilterOrdered<T(!new)>(s: seq<T>, p: T -> bool)
    ensures IsSubsequence(Filter(s, p), s)
    decreases |s|
  {
    if s != [] {
      FilterOrdered(s[1..], p);
      if p(s[0]) {
        assert ([s[0]] + Filter(s[1..], p))[1..] == Filter(s[1..], p);
      }
    }
  }

  /** `find` answers the first index whose element satisfies the callback. */
  lemma FindFirst<T>(s: seq<T>, p: T -> bool, k: nat)
    requires k < |s| && p(s[k])
    requires forall j :: 0 <= j < k ==> !p(s[j])
    ensures Find(s, p) == Some(s[k])
  {
  }

  /** `find` depends only on what the callback answers, not on how it is written. */
  lemma FindExtensional<T>(s: seq<T>, p: T -> bool, q: T -> bool)
    requires forall i :: 0 <= i < |s| ==> p(s[i]) == q(s[i])
    ensures Find(s, p) == Find(s, q)
  {
  }

  /** `filter` depends only on what the callback answers, not on how it is written. */
  lemma {:induction false} FilterExtensional<T(!new)>(s: seq<T>, p: T -> bool, q: T -> bool)
    requires forall i :: 0 <= i < |s| ==> p(s[i]) == q(s[i])
    ensures Filter(s, p) == Filter(s, q)
    decreases |s|
  {
    if s != [] {
      FilterExtensional(s[1..], p, q);
    }
  }

  /** Every element `filter` keeps is an element of the array. */
  lemma FilterMember<T(!new)>(s: seq<T>, p: T -> bool, x: T)
    requires x in Filter(s, p)
    ensures x in s && p(x)
  {
    FilterCounts(s, p);
    assert multiset(Filter(s, p))[x] > 0;
  }

  /** No element satisfies the callback: `filter` gives the empty array. */
  lemma {:induction false} FilterNone<T(!new)>(s: seq<T>, p: T -> bool)
    requires forall i :: 0 <= i < |s| ==> !p(s[i])
    ensures Filter(s, p) == []
    decreases |s|
  {
    if s != [] {
      FilterNone(s[1..], p);
    }
  }

  /** Exactly one element satisfies the callback: `filter` gives it alone. */
  lemma {:induction false} FilterSingle<T(!new)>(s: seq<T>, p: T -> bool, k: nat)
    requires k < |s| && p(s[k])
    requires forall j :: 0 <= j < |s| && j != k ==> !p(s[j])
    ensures Filter(s, p) == [s[k]]
    decreases |s|
  {
    if k == 0 {
      FilterNone(s[1..], p);
    } else {
      FilterSingle(s[1..], p, k - 1);
    }
  }

  /** Two distinct elements satisfy the callback: `filter` keeps at least two. */
  lemma {:induction false} FilterTwo<T(!new)>(s: seq<T>, p: T -> bool, i: nat, j: nat)
    requires i < j < |s| && p(s[i]) && p(s[j])
    ensures |Filter(s, p)| >= 2
    decreases |s|
  {
    if i == 0 {
      assert s[j] == s[1..][j - 1];
      FilterNonEmpty(s[1..], p, j - 1);
    } else {
      FilterTwo(s[1..], p, i - 1, j - 1);
    }
  }

  /** One element satisfies the callback: `filter` keeps something. */
  lemma FilterNonEmpty<T(!new)>(s: seq<T>, p: T -> bool, k: nat)
    requires k < |s| && p(s[k])
    ensures Filter(s, p) != []
  {
    FilterCounts(s, p);
    assert multiset(s)[s[k]] > 0;
    assert multiset(Filter(s, p))[s[k]] > 0;
  }

  /** `filter` keeps two or more elements only when two distinct positions satisfy the callback. */
  lemma {:induction false} FilterTwoWitness<T(!new)>(s: seq<T>, p: T -> bool)
    requires |Filter(s, p)| >= 2
    ensures exists i, j :: 0 <= i < j < |s| && p(s[i]) && p(s[j])
    decreases |s|
  {
    if p(s[0]) {
      var rest := Filter(s[1..], p);
      assert rest != [];
      FilterMember(s[1..], p, rest[0]);
      var k :| 0 <= k < |s[1..]| && s[1..][k] == rest[0];
      assert p(s[0]) && p(s[k + 1]);
    } else {
      FilterTwoWitness(s[1..], p);
      var i, j :| 0 <= i < j < |s[1..]| && p(s[1..][i]) && p(s[1..][j]);
      assert p(s[i + 1]) && p(s[j + 1]);
    }
  }
}
