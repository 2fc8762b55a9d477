/** Insertion sorts: by a string key (the datastore's `order(...)` and Python's
    `sort(key=..., reverse=...)`) and on numbers (Python's `sorted`). Their contracts state a
    sorted permutation; the order of records with equal keys is not stated. */
module Sorting {
  import opened Strings

  /** Whether a record with key `a` may stand before one with key `b`. */
  predicate Before(a: string, b: string, descending: bool) {
    if descending then LessEq(b, a) else LessEq(a, b)
  }

  predicate SortedBy<T>(s: seq<T>, key: T -> string, descending: bool) {
    forall i, j :: 0 <= i < j < |s| ==> Before(key(s[i]), key(s[j]), descending)
  }

  lemma BeforeTotal(a: string, b: string, descending: bool)
    ensures Before(a, b, descending) || Before(b, a, descending)
  {
    LessTotal(a, b);
  }

  lemma BeforeTransitive(a: string, b: string, c: string, descending: bool)
    requires Before(a, b, descending) && Before(b, c, descending)
    ensures Before(a, c, descending)
  {
    if descending {
      LessEqTransitive(c, b, a);
    } else {
      LessEqTransitive(a, b, c);
    }
  }

  function Insert<T>(x: T, s: seq<T>, key: T -> string, descending: bool): (r: seq<T>)
    requires SortedBy(s, key, descending)
    ensures SortedBy(r, key, descending)
    ensures multiset(r) == multiset(s) + multiset{x}
    ensures |r| == |s| + 1
    ensures r[0] == x || (|s| > 0 && r[0] == s[0])
    decreases |s|
  {
    if |s| == 0 then [x]
    else if Before(key(x), key(s[0]), descending) then
      assert forall j :: 0 < j < |s| ==> Before(key(x), key(s[j]), descending) by {
        forall j | 0 < j < |s| ensures Before(key(x), key(s[j]), descending) {
          BeforeTransitive(key(x), key(s[0]), key(s[j]), descending);
        }
      }
      [x] + s
    else
      BeforeTotal(key(x), key(s[0]), descending);
      var rest := Insert(x, s[1..], key, descending);
      assert Before(key(s[0]), key(rest[0]), descending) by {
        if rest[0] != x {
          assert rest[0] == s[1];
        }
      }
      forall j | 0 < j < |rest| ensures Before(key(s[0]), key(rest[j]), descending) {
        BeforeTransitive(key(s[0]), key(rest[0]), key(rest[j]), descending);
      }
      assert s == [s[0]] + s[1..];
      [s[0]] + rest
  }

  /** The records of `s` in key order (ascending, or descending when asked). */
  function SortBy<T>(s: seq<T>, key: T -> string, descending: bool): (r: seq<T>)
    ensures SortedBy(r, key, descending)
    ensures multiset(r) == multiset(s)
    ensures |r| == |s|
    decreases |s|
  {
    if |s| == 0 then []
    else
      assert s == [s[0]] + s[1..];
      Insert(s[0], SortBy(s[1..], key, descending), key, descending)
  }

  // ---------------------------------------------------------------------------
  // Numbers
  // ---------------------------------------------------------------------------

  predicate SortedReals(s: seq<real>) {
    forall i, j :: 0 <= i < j < |s| ==> s[i] <= s[j]
  }

  function InsertReal(x: real, s: seq<real>): (r: seq<real>)
    requires SortedReals(s)
    ensures SortedReals(r)
    ensures multiset(r) == multiset(s) + multiset{x}
    ensures |r| == |s| + 1
    ensures r[0] == x || (|s| > 0 && r[0] == s[0])
    decreases |s|
  {
    if |s| == 0 then [x]
    else if x <= s[0] then [x] + s
    else
      var rest := InsertReal(x, s[1..]);
      assert s[0] <= rest[0];
      assert s == [s[0]] + s[1..];
      [s[0]] + rest
  }

  /** Python's `sorted(xs)` on numbers. */
  function SortReals(s: seq<real>): (r: seq<real>)
    ensures SortedReals(r)
    ensures multiset(r) == multiset(s)
    ensures |r| == |s|
    decreases |s|
  {
    if |s| == 0 then []
    else
      assert s == [s[0]] + s[1..];
      InsertReal(s[0], SortReals(s[1..]))
  }
}
