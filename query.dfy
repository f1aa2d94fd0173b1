/**
 * The part of the hosted database that the pages rely on: a `.where(...)`
 * query returns the records of a collection that satisfy a condition, in
 * collection order, and `res.data[0]` picks the first of them.
 */
module Query {
  import opened Wrappers

  /** The records of `s` that satisfy `p`, in their original order. */
  function Where<T(!new)>(s: seq<T>, p: T -> bool): (r: seq<T>)
    ensures |r| <= |s|
    ensures forall x :: x in r <==> x in s && p(x)
  {
    if s == [] then [] else (if p(s[0]) then [s[0]] else []) + Where(s[1..], p)
  }

  /** `data[0]`: the first element, or `undefined` when there is none. */
  function First<T>(s: seq<T>): (r: Option<T>)
    ensures r.None? <==> s == []
    ensures r.Some? ==> r.value == s[0]
  {
    if s == [] then None else Some(s[0])
  }

  /** The first record of the query result is the first record of `s` that satisfies `p`. */
  lemma {:induction false} FirstOfWhere<T(!new)>(s: seq<T>, p: T -> bool, i: nat)
    requires i < |s| && p(s[i])
    requires forall j :: 0 <= j < i ==> !p(s[j])
    ensures First(Where(s, p)) == Some(s[i])
  {
    if i > 0 {
      assert Where(s, p) == Where(s[1..], p);
      FirstOfWhere(s[1..], p, i - 1);
    }
  }
}
