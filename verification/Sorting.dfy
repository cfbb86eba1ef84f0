/** Stable insertion sort by a key, as the library sorts the modules use. */
module Sorting {

  function Insert<T>(key: T -> int, x: T, s: seq<T>): seq<T> {
    if s == [] || key(x) < key(s[0]) then [x] + s else [s[0]] + Insert(key, x, s[1..])
  }

  function Sort<T>(key: T -> int, s: seq<T>): seq<T> {
    if s == [] then [] else Insert(key, s[|s| - 1], Sort(key, s[..|s| - 1]))
  }

  predicate Ascending<T>(key: T -> int, s: seq<T>) {
    forall i, j | 0 <= i < j < |s| :: key(s[i]) < key(s[j])
  }

  predicate DistinctKeys<T>(key: T -> int, s: seq<T>) {
    forall i, j | 0 <= i < j < |s| :: key(s[i]) != key(s[j])
  }

  lemma {:induction false} InsertElements<T>(key: T -> int, x: T, s: seq<T>)
    ensures multiset(Insert(key, x, s)) == multiset(s) + multiset{x}
    ensures Insert(key, x, s) != []
    ensures Insert(key, x, s)[0] == x || (s != [] && Insert(key, x, s)[0] == s[0])
  {
    if s != [] && key(x) >= key(s[0]) {
      assert s == [s[0]] + s[1..];
      InsertElements(key, x, s[1..]);
    }
  }

  lemma {:induction false} InsertAscending<T>(key: T -> int, x: T, s: seq<T>)
    requires Ascending(key, s) && forall i | 0 <= i < |s| :: key(s[i]) != key(x)
    ensures Ascending(key, Insert(key, x, s))
  {
    if s != [] && key(x) >= key(s[0]) {
      InsertAscending(key, x, s[1..]);
      InsertElements(key, x, s[1..]);
      var t := Insert(key, x, s[1..]);
      assert key(s[0]) < key(t[0]);
      assert Insert(key, x, s) == [s[0]] + t;
    }
  }

  lemma {:induction false} SortFacts<T>(key: T -> int, s: seq<T>)
    requires DistinctKeys(key, s)
    ensures Ascending(key, Sort(key, s)) && multiset(Sort(key, s)) == multiset(s)
  {
    if s != [] {
      var before, last := s[..|s| - 1], s[|s| - 1];
      assert s == before + [last];
      SortFacts(key, before);
      var sorted := Sort(key, before);
      forall i | 0 <= i < |sorted|
        ensures key(sorted[i]) != key(last)
      {
        assert sorted[i] in multiset(sorted);
        assert sorted[i] in before;
      }
      InsertAscending(key, last, sorted);
      InsertElements(key, last, sorted);
    }
  }

  /** There is one ascending list of given elements. */
  lemma {:induction false} SameAscending<T>(key: T -> int, s: seq<T>, t: seq<T>)
    requires Ascending(key, s) && Ascending(key, t) && forall x :: x in s <==> x in t
    ensures s == t
  {
    if s != [] || t != [] {
      var x := if s != [] then s[0] else t[0];
      assert x in s || x in t;
      SameHead(key, s, t);
      WithoutHead(key, s);
      WithoutHead(key, t);
      SameAscending(key, s[1..], t[1..]);
    }
  }

  lemma SameHead<T>(key: T -> int, s: seq<T>, t: seq<T>)
    requires Ascending(key, s) && Ascending(key, t) && s != [] && t != [] && forall x :: x in s <==> x in t
    ensures s[0] == t[0]
  {
    assert s[0] in t && t[0] in s;
    var i :| 0 <= i < |t| && t[i] == s[0];
    var j :| 0 <= j < |s| && s[j] == t[0];
  }

  lemma WithoutHead<T>(key: T -> int, s: seq<T>)
    requires Ascending(key, s) && s != []
    ensures Ascending(key, s[1..]) && forall x :: x in s[1..] <==> x in s && x != s[0]
  {
    assert s == [s[0]] + s[1..];
    assert forall x | x in s[1..] :: exists k :: 0 < k < |s| && s[k] == x;
  }
}
