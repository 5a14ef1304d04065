/**
 * Lists of records keyed by a numeric `id`, as the dashboard keeps them in component state
 * (automations, connected accounts, header notifications). Every handler that changes such a
 * list builds the new list with `filter` (drop the records with one id) or with `map`
 * (rewrite the records with one id); both are defined here once, over any record type,
 * given the function that reads a record's id.
 */
module IdLists {

  /** The list `s` without the records whose id is `id` (`s.filter(x => x.id !== id)`). */
  function RemoveId<T(!new)>(s: seq<T>, idOf: T -> int, id: int): (r: seq<T>)
    ensures |r| <= |s|
    ensures forall x :: x in r <==> x in s && idOf(x) != id
  {
    if s == [] then []
    else if idOf(s[0]) != id then [s[0]] + RemoveId(s[1..], idOf, id)
    else RemoveId(s[1..], idOf, id)
  }

  /** The list `s` with `f` applied to exactly the records whose id is `id` (`s.map(x => x.id === id ? f(x) : x)`). */
  function UpdateId<T(!new)>(s: seq<T>, idOf: T -> int, id: int, f: T -> T): (r: seq<T>)
    ensures |r| == |s|
    ensures forall i :: 0 <= i < |s| ==> r[i] == if idOf(s[i]) == id then f(s[i]) else s[i]
  {
    if s == [] then []
    else [if idOf(s[0]) == id then f(s[0]) else s[0]] + UpdateId(s[1..], idOf, id, f)
  }

  /** `r` is `s` with some elements left out, the rest in their original order. */
  ghost predicate IsSubsequence<T>(r: seq<T>, s: seq<T>)
    decreases |s|
  {
    if r == [] then true
    else if s == [] then false
    else (r[0] == s[0] && IsSubsequence(r[1..], s[1..])) || IsSubsequence(r, s[1..])
  }

  /** The ids of the records, in list order. */
  function Ids<T(!new)>(s: seq<T>, idOf: T -> int): (r: seq<int>)
    ensures |r| == |s|
    ensures forall i :: 0 <= i < |s| ==> r[i] == idOf(s[i])
  {
    if s == [] then [] else [idOf(s[0])] + Ids(s[1..], idOf)
  }

  /** Removing keeps the surviving records in their original relative order. */
  lemma {:induction false} RemoveIdKeepsOrder<T(!new)>(s: seq<T>, idOf: T -> int, id: int)
    ensures IsSubsequence(RemoveId(s, idOf, id), s)
  {
    if s != [] {
      RemoveIdKeepsOrder(s[1..], idOf, id);
      if idOf(s[0]) != id {
        var r := RemoveId(s, idOf, id);
        assert r[0] == s[0] && r[1..] == RemoveId(s[1..], idOf, id);
      } else {
        var r := RemoveId(s, idOf, id);
        if r != [] {
          assert IsSubsequence(r, s[1..]);
        }
      }
    }
  }

  /** Removing drops every copy of a record with that id and keeps every copy of any other record. */
  lemma {:induction false} RemoveIdCounts<T(!new)>(s: seq<T>, idOf: T -> int, id: int)
    ensures forall x :: multiset(RemoveId(s, idOf, id))[x] == if idOf(x) == id then 0 else multiset(s)[x]
  {
    if s != [] {
      RemoveIdCounts(s[1..], idOf, id);
      assert s == [s[0]] + s[1..];
      assert multiset(s) == multiset{s[0]} + multiset(s[1..]);
    }
  }

  /** Removing an id that no record carries leaves the list as it was. */
  lemma {:induction false} RemoveAbsentId<T(!new)>(s: seq<T>, idOf: T -> int, id: int)
    requires forall x :: x in s ==> idOf(x) != id
    ensures RemoveId(s, idOf, id) == s
  {
    if s != [] {
      assert s[0] in s;
      forall x | x in s[1..] ensures idOf(x) != id {
        assert x in s;
      }
      RemoveAbsentId(s[1..], idOf, id);
      assert s == [s[0]] + s[1..];
    }
  }

  /** Removing the same id twice is the same as removing it once. */
  lemma RemoveIdIdempotent<T(!new)>(s: seq<T>, idOf: T -> int, id: int)
    ensures RemoveId(RemoveId(s, idOf, id), idOf, id) == RemoveId(s, idOf, id)
  {
    RemoveAbsentId(RemoveId(s, idOf, id), idOf, id);
  }

  /** A rewrite that keeps ids keeps the list's ids, in order. */
  lemma UpdateIdKeepsIds<T(!new)>(s: seq<T>, idOf: T -> int, id: int, f: T -> T)
    requires forall x :: idOf(f(x)) == idOf(x)
    ensures Ids(UpdateId(s, idOf, id, f), idOf) == Ids(s, idOf)
  {
  }
}
