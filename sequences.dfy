/**
 * The array built-ins the storefront page relies on (`find`, `map`, `filter`
 * and `reduce`), stated as functions on sequences, together with the facts
 * about them that the cart and the catalog views need.
 */
module Sequences {

  datatype Option<T> = None | Some(value: T)

  /** `s.find(f)`: the first element of `s` that satisfies `f`, if there is one. */
  function Find<T(==)>(s: seq<T>, f: T -> bool): (r: Option<T>)
    ensures r.None? <==> forall i :: 0 <= i < |s| ==> !f(s[i])
    ensures r.Some? ==> exists k :: 0 <= k < |s| && s[k] == r.value && f(s[k]) &&
                                    forall j :: 0 <= j < k ==> !f(s[j])
  {
    if s == [] then None
    else if f(s[0]) then Some(s[0])
    else
      var r := Find(s[1..], f);
      if r.Some? then
        var k :| 0 <= k < |s[1..]| && s[1..][k] == r.value && f(s[1..][k]) &&
                 forall j :: 0 <= j < k ==> !f(s[1..][j]);
        assert s[k + 1] == r.value;
        r
      else r
  }

  /** `s.map(f)`: `f` applied to every element, in order. */
  function Map<T, U>(s: seq<T>, f: T -> U): (r: seq<U>)
    ensures |r| == |s|
    ensures forall i :: 0 <= i < |s| ==> r[i] == f(s[i])
  {
    if s == [] then [] else [f(s[0])] + Map(s[1..], f)
  }

  /** `s.filter(f)`: the elements that satisfy `f`, in their original order. */
  function Filter<T(==,!new)>(s: seq<T>, f: T -> bool): (r: seq<T>)
    ensures |r| <= |s|
    ensures forall x :: x in r <==> x in s && f(x)
  {
    if s == [] then []
    else if f(s[0]) then [s[0]] + Filter(s[1..], f)
    else Filter(s[1..], f)
  }

  /**
   * `s.reduce(f, init)`: a left fold that starts from `init`. The last
   * element is combined last, with the fold of everything before it.
   */
  function Reduce<T, A>(s: seq<T>, f: (A, T) -> A, init: A): (r: A)
    ensures s == [] ==> r == init
    ensures s != [] ==> r == f(Reduce(s[..|s| - 1], f, init), s[|s| - 1])
  {
    if s == [] then init
    else
      var r := Reduce(s[1..], f, f(init, s[0]));
      if |s| == 1 then r
      else
        assert s[..|s| - 1][1..] == s[1..][..|s| - 2];
        r
  }

  /** `s` occurs in `t` with its elements in the same relative order. */
  predicate IsSubsequence<T(==)>(s: seq<T>, t: seq<T>)
    decreases |t|
  {
    if s == [] then true
    else if t == [] then false
    else if s[0] == t[0] then IsSubsequence(s[1..], t[1..])
    else IsSubsequence(s, t[1..])
  }

  /** Filtering keeps the survivors in their original relative order. */
  lemma {:induction false} FilterIsSubsequence<T(!new)>(s: seq<T>, f: T -> bool)
    ensures IsSubsequence(Filter(s, f), s)
  {
    if s != [] {
      FilterIsSubsequence(s[1..], f);
      var rest := Filter(s[1..], f);
      if !f(s[0]) {
        assert Filter(s, f) == rest;
        if rest != [] {
          assert f(rest[0]) && rest[0] != s[0];
        }
      }
    }
  }

  /** A filter that every element passes changes nothing. */
  lemma {:induction false} FilterKeepsAll<T(!new)>(s: seq<T>, f: T -> bool)
    requires forall i :: 0 <= i < |s| ==> f(s[i])
    ensures Filter(s, f) == s
  {
    if s != [] {
      FilterKeepsAll(s[1..], f);
      assert [s[0]] + s[1..] == s;
    }
  }

  /**
   * Two filters whose tests disagree on every element split the sequence:
   * each element lands in exactly one of the two results.
   */
  lemma {:induction false} FilterPartition<T(!new)>(s: seq<T>, f: T -> bool, g: T -> bool)
    requires forall i :: 0 <= i < |s| ==> f(s[i]) != g(s[i])
    ensures multiset(Filter(s, f)) + multiset(Filter(s, g)) == multiset(s)
  {
    if s != [] {
      FilterPartition(s[1..], f, g);
      assert [s[0]] + s[1..] == s;
    }
  }

  /** A filter that rejects exactly the element at `k` deletes just that element. */
  lemma {:induction false} FilterDropsOne<T(!new)>(s: seq<T>, f: T -> bool, k: int)
    requires 0 <= k < |s| && !f(s[k])
    requires forall i :: 0 <= i < |s| && i != k ==> f(s[i])
    ensures Filter(s, f) == s[..k] + s[k + 1..]
  {
    if k == 0 {
      assert forall i :: 0 <= i < |s[1..]| ==> f(s[1..][i]);
      FilterKeepsAll(s[1..], f);
    } else {
      FilterDropsOne(s[1..], f, k - 1);
      assert s[..k] == [s[0]] + s[1..][..k - 1];
      assert s[1..][k..] == s[k + 1..];
    }
  }
}
