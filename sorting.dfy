/** `Array.prototype.sort` with a comparator of the form `key(a) - key(b)`, as
    the views use it: a sort ascending by an integer key. A
    descending order is the ascending order of the negated key, which is what
    returning `-compareValue` amounts to. */
module Sorting {

  /** Ascending by `key`. */
  ghost predicate Ordered<T>(s: seq<T>, key: T -> int) {
    forall i, j :: 0 <= i < j < |s| ==> key(s[i]) <= key(s[j])
  }

  /** `x` put in front of the first element whose key is not below its own,
      so that `x` lands before the elements it ties with. */
  function Insert<T>(x: T, s: seq<T>, key: T -> int): (r: seq<T>)
    ensures |r| == |s| + 1
    ensures multiset(r) == multiset(s) + multiset{x}
    decreases |s|
  {
    if s == [] || key(x) <= key(s[0]) then [x] + s
    else
      assert s == [s[0]] + s[1..];
      [s[0]] + Insert(x, s[1..], key)
  }

  /** Insertion sort: the head is inserted into the sorted tail. */
  function SortByKey<T>(s: seq<T>, key: T -> int): (r: seq<T>)
    ensures |r| == |s|
    ensures multiset(r) == multiset(s)
    decreases |s|
  {
    if s == [] then []
    else
      assert s == [s[0]] + s[1..];
      Insert(s[0], SortByKey(s[1..], key), key)
  }

  lemma {:induction false} InsertOrdered<T>(x: T, s: seq<T>, key: T -> int)
    requires Ordered(s, key)
    ensures Ordered(Insert(x, s, key), key)
    decreases |s|
  {
    if s == [] || key(x) <= key(s[0]) {
      var r := [x] + s;
      forall i, j | 0 <= i < j < |r| ensures key(r[i]) <= key(r[j]) {
        if i == 0 {
          assert key(s[0]) <= key(s[j - 1]) || j - 1 == 0;
        }
      }
    } else {
      var tail := s[1..];
      assert Ordered(tail, key);
      InsertOrdered(x, tail, key);
      var t := Insert(x, tail, key);
      var r := [s[0]] + t;
      // every element of the inserted tail is `x` or came from the tail
      forall k | 0 <= k < |t| ensures key(s[0]) <= key(t[k]) {
        assert t[k] in multiset(t);
        assert t[k] in multiset(tail) || t[k] == x;
        if t[k] != x {
          var m :| 0 <= m < |tail| && tail[m] == t[k];
          assert tail[m] == s[m + 1];
        }
      }
      forall i, j | 0 <= i < j < |r| ensures key(r[i]) <= key(r[j]) {
        if i == 0 {
          assert r[j] == t[j - 1];
        } else {
          assert r[i] == t[i - 1] && r[j] == t[j - 1];
        }
      }
    }
  }

  /** The sorted sequence is ordered by the key. */
  lemma {:induction false} SortByKeyOrdered<T>(s: seq<T>, key: T -> int)
    ensures Ordered(SortByKey(s, key), key)
    decreases |s|
  {
    if s != [] {
      SortByKeyOrdered(s[1..], key);
      InsertOrdered(s[0], SortByKey(s[1..], key), key);
    }
  }

  /** Sorting keeps exactly the elements it was given. */
  lemma SortByKeyMembers<T>(s: seq<T>, key: T -> int)
    ensures forall x :: x in SortByKey(s, key) <==> x in s
  {
    var r := SortByKey(s, key);
    assert multiset(r) == multiset(s);
    forall x ensures x in r <==> x in s {
      assert x in r <==> x in multiset(r);
      assert x in s <==> x in multiset(s);
    }
  }

  /** Sorting an ordered sequence leaves it as it is. */
  lemma {:induction false} SortOrderedIsIdentity<T>(s: seq<T>, key: T -> int)
    requires Ordered(s, key)
    ensures SortByKey(s, key) == s
    decreases |s|
  {
    if s != [] {
      var tail := s[1..];
      assert Ordered(tail, key) by {
        forall i, j | 0 <= i < j < |tail| ensures key(tail[i]) <= key(tail[j]) {
          assert tail[i] == s[i + 1] && tail[j] == s[j + 1];
        }
      }
      SortOrderedIsIdentity(tail, key);
      assert SortByKey(s, key) == Insert(s[0], tail, key);
      if tail != [] {
        assert tail[0] == s[1];
        assert key(s[0]) <= key(s[1]);
      }
      assert Insert(s[0], tail, key) == [s[0]] + tail;
      assert s == [s[0]] + tail;
    }
  }
}
