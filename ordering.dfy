/** The store's `orderBy` on one numeric column, as an insertion sort on a key; rows with
    equal keys come out in no promised order. A descending order is the ascending order of
    the negated key. */
module Ordering {

  ghost predicate SortedBy<T>(s: seq<T>, key: T -> real) {
    forall i, j :: 0 <= i < j < |s| ==> key(s[i]) <= key(s[j])
  }

  /** Inserts `x` before the first element with a greater or equal key. */
  function Insert<T>(x: T, s: seq<T>, key: T -> real): (r: seq<T>)
    requires SortedBy(s, key)
    ensures SortedBy(r, key)
    ensures multiset(r) == multiset(s) + multiset{x}
    ensures |r| == |s| + 1
    ensures forall k :: 0 <= k < |r| ==> r[k] == x || r[k] in s
  {
    if |s| == 0 then [x]
    else if key(x) <= key(s[0]) then
      assert SortedBy([x] + s, key) by { InsertFrontSorted(x, s, key); }
      [x] + s
    else
      var rest := Insert(x, s[1..], key);
      assert s == [s[0]] + s[1..];
      assert SortedBy([s[0]] + rest, key) by { ConsSorted(s, x, rest, key); }
      assert multiset(s) == multiset{s[0]} + multiset(s[1..]);
      assert multiset([s[0]] + rest) == multiset{s[0]} + multiset(rest);
      assert forall k :: 0 <= k < |rest| ==> rest[k] == x || rest[k] in s;
      [s[0]] + rest
  }

  lemma InsertFrontSorted<T>(x: T, s: seq<T>, key: T -> real)
    requires SortedBy(s, key) && |s| > 0 && key(x) <= key(s[0])
    ensures SortedBy([x] + s, key)
  {
    var r := [x] + s;
    forall i, j | 0 <= i < j < |r| ensures key(r[i]) <= key(r[j]) {
      if i > 0 {
        assert r[i] == s[i - 1] && r[j] == s[j - 1];
      } else {
        assert r[j] == s[j - 1];
        assert key(s[0]) <= key(s[j - 1]);
      }
    }
  }

  lemma ConsSorted<T>(s: seq<T>, x: T, rest: seq<T>, key: T -> real)
    requires SortedBy(s, key) && |s| > 0 && key(s[0]) < key(x)
    requires SortedBy(rest, key)
    requires forall k :: 0 <= k < |rest| ==> rest[k] == x || rest[k] in s[1..]
    ensures SortedBy([s[0]] + rest, key)
  {
    var r := [s[0]] + rest;
    forall i, j | 0 <= i < j < |r| ensures key(r[i]) <= key(r[j]) {
      if i > 0 {
        assert r[i] == rest[i - 1] && r[j] == rest[j - 1];
      } else {
        assert r[j] == rest[j - 1];
        if rest[j - 1] != x {
          var m :| 0 <= m < |s[1..]| && s[1..][m] == rest[j - 1];
          assert s[m + 1] == rest[j - 1];
        }
      }
    }
  }

  /** `s` ordered by ascending `key`; elements with equal keys keep no promised order. */
  function SortBy<T>(s: seq<T>, key: T -> real): (r: seq<T>)
    ensures SortedBy(r, key)
    ensures multiset(r) == multiset(s)
    ensures |r| == |s|
  {
    if |s| == 0 then []
    else
      assert s == [s[0]] + s[1..];
      Insert(s[0], SortBy(s[1..], key), key)
  }

  /** The sorted result holds exactly the elements of the input. */
  lemma SortByMembers<T>(s: seq<T>, key: T -> real)
    ensures forall x :: x in SortBy(s, key) <==> x in s
  {
    var r := SortBy(s, key);
    forall x ensures x in r <==> x in s {
      assert x in r <==> x in multiset(r);
      assert x in s <==> x in multiset(s);
    }
  }
}
