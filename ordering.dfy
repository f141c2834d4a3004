/** Orders in which the database hands back documents: a collection's natural
    order (ascending id), filtering that keeps order, sorting on a numeric key
    in descending order (Mongo's `sort({key: -1})`), and `skip`/`limit`. */
module Ordering {
  import opened Common

  predicate Increasing(s: seq<Id>)
  {
    forall i, j :: 0 <= i < j < |s| ==> s[i] < s[j]
  }

  /** Below any member of a set of ids there is a least member: ids are
      natural numbers, so descending through smaller members stops. */
  lemma {:induction false} LeastExists(s: set<Id>, x: Id)
    requires x in s
    ensures exists m :: m in s && forall y :: y in s ==> m <= y
    decreases x
  {
    if exists y :: y in s && y < x {
      var y :| y in s && y < x;
      LeastExists(s, y);
    } else {
      assert forall y :: y in s ==> x <= y;
    }
  }

  function Least(s: set<Id>): (m: Id)
    requires s != {}
    ensures m in s && forall y :: y in s ==> m <= y
  {
    var x :| x in s;
    LeastExists(s, x);
    var m :| m in s && forall y :: y in s ==> m <= y; m
  }

  /** The ids of a collection in natural order: increasing, each id once. */
  function NaturalOrder(s: set<Id>): (r: seq<Id>)
    ensures Increasing(r)
    ensures forall x :: x in r <==> x in s
    ensures |r| == |s|
    decreases |s|
  {
    if s == {} then []
    else
      var m := Least(s);
      var rest := NaturalOrder(s - {m});
      assert forall y :: y in rest ==> m < y;
      [m] + rest
  }

  /** An increasing sequence is determined by its elements. */
  lemma {:induction false} IncreasingUnique(a: seq<Id>, b: seq<Id>)
    requires Increasing(a) && Increasing(b)
    requires forall x :: x in a <==> x in b
    ensures a == b
    decreases |a|
  {
    assert a != [] ==> a[0] in b;
    assert b != [] ==> b[0] in a;
    if a != [] {
      var k :| 0 <= k < |b| && b[k] == a[0];
      var i :| 0 <= i < |a| && a[i] == b[0];
      assert a[0] == b[0];
      forall x
        ensures x in a[1..] <==> x in b[1..]
      {
        if x in a[1..] {
          var i :| 1 <= i < |a| && a[i] == x;
          assert x in b && x != b[0];
          var k :| 0 <= k < |b| && b[k] == x;
        }
        if x in b[1..] {
          var i :| 1 <= i < |b| && b[i] == x;
          assert x in a && x != a[0];
          var k :| 0 <= k < |a| && a[k] == x;
        }
      }
      IncreasingUnique(a[1..], b[1..]);
      assert a == [a[0]] + a[1..] && b == [b[0]] + b[1..];
    }
  }

  /** In an increasing sequence every element occurs once. */
  lemma {:induction false} IncreasingCountsOne(s: seq<Id>)
    requires Increasing(s)
    ensures forall x :: x in s ==> multiset(s)[x] == 1
    decreases |s|
  {
    if s != [] {
      IncreasingCountsOne(s[1..]);
      assert s == [s[0]] + s[1..];
      assert s[0] !in s[1..];
    }
  }

  /** A new id above every existing one goes to the end of the natural order. */
  lemma NaturalOrderAppend(s: set<Id>, k: Id)
    requires forall y :: y in s ==> y < k
    ensures NaturalOrder(s + {k}) == NaturalOrder(s) + [k]
  {
    var n := NaturalOrder(s);
    var r := n + [k];
    forall i, j | 0 <= i < j < |r|
      ensures r[i] < r[j]
    {
      assert r[i] == n[i];
      if j < |n| {
        assert r[j] == n[j];
      } else {
        assert n[i] in s;
      }
    }
    IncreasingUnique(NaturalOrder(s + {k}), r);
  }

  /** `s.filter(p)`: order kept, exactly the elements satisfying `p`. */
  function Select(s: seq<Id>, p: Id -> bool): (r: seq<Id>)
    ensures forall x :: x in r <==> x in s && p(x)
    ensures |r| <= |s|
    ensures Increasing(s) ==> Increasing(r)
  {
    if s == [] then []
    else
      var rest := Select(s[1..], p);
      if p(s[0]) then
        var r := [s[0]] + rest;
        assert Increasing(s) ==> Increasing(r) by {
          if Increasing(s) {
            assert Increasing(s[1..]);
            forall i, j | 0 <= i < j < |r|
              ensures r[i] < r[j]
            {
              assert r[j] == rest[j - 1];
              if i == 0 {
                assert r[j] in s[1..];
                var k :| 0 <= k < |s[1..]| && s[1..][k] == r[j];
                assert s[k + 1] == r[j];
              } else {
                assert r[i] == rest[i - 1];
              }
            }
          }
        }
        r
      else rest
  }

  lemma {:induction false} SelectAppend(s: seq<Id>, k: Id, p: Id -> bool)
    ensures Select(s + [k], p) == Select(s, p) + (if p(k) then [k] else [])
    decreases |s|
  {
    if s == [] {
      assert [] + [k] == [k];
      assert [k][1..] == [];
    } else {
      assert (s + [k])[1..] == s[1..] + [k];
      SelectAppend(s[1..], k, p);
    }
  }

  /** Filters that agree on the elements select the same thing. */
  lemma {:induction false} SelectAgree(s: seq<Id>, p: Id -> bool, q: Id -> bool)
    requires forall x :: x in s ==> p(x) == q(x)
    ensures Select(s, p) == Select(s, q)
    decreases |s|
  {
    if s != [] {
      assert forall x :: x in s[1..] ==> x in s;
      SelectAgree(s[1..], p, q);
    }
  }

  /** Filtering out an element that occurs once shortens the sequence by
      one. */
  lemma {:induction false} SelectDropsOne(s: seq<Id>, k: Id)
    requires Increasing(s) && k in s
    ensures |Select(s, x => x != k)| == |s| - 1
    decreases |s|
  {
    if s[0] == k {
      assert forall x :: x in s[1..] ==> x != k by {
        forall x | x in s[1..] ensures x != k {
          var j :| 0 <= j < |s[1..]| && s[1..][j] == x;
          assert s[j + 1] == x;
        }
      }
      SelectNothing(s[1..], x => x != k);
    } else {
      assert Increasing(s[1..]);
      assert k in s[1..];
      SelectDropsOne(s[1..], k);
    }
  }

  /** A filter that every element passes changes nothing. */
  lemma {:induction false} SelectNothing(s: seq<Id>, p: Id -> bool)
    requires forall x :: x in s ==> p(x)
    ensures Select(s, p) == s
    decreases |s|
  {
    if s != [] {
      assert p(s[0]);
      assert forall x :: x in s[1..] ==> x in s;
      SelectNothing(s[1..], p);
      calc {
        Select(s, p);
        [s[0]] + Select(s[1..], p);
        [s[0]] + s[1..];
      }
    }
  }

  /** Removing one id from a collection removes it from the natural order
      and leaves the others in place. */
  lemma NaturalOrderRemove(s: set<Id>, k: Id)
    ensures NaturalOrder(s - {k}) == Select(NaturalOrder(s), x => x != k)
  {
    IncreasingUnique(NaturalOrder(s - {k}), Select(NaturalOrder(s), x => x != k));
  }

  /** Descending in the key, as `sort({key: -1})` promises. */
  predicate SortedDesc(s: seq<Id>, key: Id -> real)
  {
    forall i, j :: 0 <= i < j < |s| ==> key(s[i]) >= key(s[j])
  }

  /** The head of a descending sequence has the largest key. */
  lemma HeadHasLargestKey(s: seq<Id>, key: Id -> real)
    requires SortedDesc(s, key) && s != []
    ensures forall y :: y in s ==> key(s[0]) >= key(y)
  {
    forall y | y in s
      ensures key(s[0]) >= key(y)
    {
      var i :| 0 <= i < |s| && s[i] == y;
    }
  }

  lemma ConsSorted(h: Id, t: seq<Id>, key: Id -> real)
    requires SortedDesc(t, key)
    requires forall y :: y in t ==> key(h) >= key(y)
    ensures SortedDesc([h] + t, key)
  {
    var r := [h] + t;
    forall i, j | 0 <= i < j < |r|
      ensures key(r[i]) >= key(r[j])
    {
      assert r[j] == t[j - 1];
      if i > 0 {
        assert r[i] == t[i - 1];
      }
    }
  }

  function InsertDesc(x: Id, s: seq<Id>, key: Id -> real): (r: seq<Id>)
    requires SortedDesc(s, key)
    ensures SortedDesc(r, key)
    ensures multiset(r) == multiset(s) + multiset{x}
    ensures forall y :: y in r <==> y == x || y in s
  {
    if s == [] then [x]
    else if key(x) >= key(s[0]) then
      HeadHasLargestKey(s, key);
      ConsSorted(x, s, key);
      [x] + s
    else
      SortedDescTail(s, key);
      var rest := InsertDesc(x, s[1..], key);
      HeadHasLargestKey(s, key);
      assert forall y :: y in rest ==> key(s[0]) >= key(y) by {
        forall y | y in rest
          ensures key(s[0]) >= key(y)
        {
          if y != x {
            assert y in s[1..];
            assert y in s;
          }
        }
      }
      ConsSorted(s[0], rest, key);
      assert s == [s[0]] + s[1..];
      assert multiset([s[0]] + rest) == multiset{s[0]} + multiset(rest);
      [s[0]] + rest
  }

  lemma SortedDescTail(s: seq<Id>, key: Id -> real)
    requires SortedDesc(s, key) && s != []
    ensures SortedDesc(s[1..], key)
  {
    var t := s[1..];
    forall i, j | 0 <= i < j < |t|
      ensures key(t[i]) >= key(t[j])
    {
      assert t[i] == s[i + 1] && t[j] == s[j + 1];
    }
  }

  /** An ordering the database may return for `sort({key: -1})`: the same
      ids, descending in the key. The database leaves the order of equal
      keys open, and so does this contract. */
  function SortDesc(s: seq<Id>, key: Id -> real): (r: seq<Id>)
    ensures SortedDesc(r, key)
    ensures multiset(r) == multiset(s)
    ensures forall x :: x in r <==> x in s
  {
    if s == [] then []
    else
      var rest := SortDesc(s[1..], key);
      assert s == [s[0]] + s[1..];
      InsertDesc(s[0], rest, key)
  }

  /** A prefix of a sequence without repeats has no repeats. */
  lemma PrefixCountsOne(s: seq<Id>, n: nat)
    requires n <= |s|
    requires forall x :: x in s ==> multiset(s)[x] == 1
    ensures forall x :: x in s[..n] ==> multiset(s[..n])[x] == 1
  {
    assert s == s[..n] + s[n..];
    assert multiset(s) == multiset(s[..n]) + multiset(s[n..]);
    forall x | x in s[..n]
      ensures multiset(s[..n])[x] == 1
    {
      assert x in s;
    }
  }

  /** A prefix of a descending sequence is descending, and no element
      after the prefix has a larger key than one inside it. */
  lemma PrefixOfSortedDesc(s: seq<Id>, key: Id -> real, n: nat)
    requires SortedDesc(s, key) && n <= |s|
    ensures SortedDesc(s[..n], key)
    ensures forall x, y :: x in s[..n] && y in s[n..] ==> key(x) >= key(y)
  {
    var p := s[..n];
    forall i, j | 0 <= i < j < |p|
      ensures key(p[i]) >= key(p[j])
    {
      assert p[i] == s[i] && p[j] == s[j];
    }
    forall x, y | x in p && y in s[n..]
      ensures key(x) >= key(y)
    {
      var i :| 0 <= i < n && p[i] == x;
      var j :| 0 <= j < |s| - n && s[n..][j] == y;
      assert s[i] == x && s[n + j] == y;
    }
  }

  /** An element kept by a prefix of a descending sequence has a key at
      least that of any element the prefix drops. */
  lemma PrefixIsTop(s: seq<Id>, key: Id -> real, n: nat, x: Id, y: Id)
    requires SortedDesc(s, key) && n <= |s|
    requires x in s[..n] && y in s && y !in s[..n]
    ensures key(x) >= key(y)
  {
    var i :| 0 <= i < n && s[..n][i] == x;
    var j :| 0 <= j < |s| && s[j] == y;
    assert s[i] == x;
  }

  /** `.skip(skip).limit(limit)` with a positive limit. */
  function Window(s: seq<Id>, skip: nat, limit: nat): (r: seq<Id>)
    ensures |r| <= limit
    ensures skip >= |s| ==> r == []
    ensures skip < |s| ==> skip + |r| <= |s| && r == s[skip..skip + |r|]
    ensures skip < |s| ==> |r| == if |s| - skip < limit then |s| - skip else limit
  {
    if skip >= |s| then []
    else if |s| - skip < limit then s[skip..]
    else s[skip..skip + limit]
  }
}
