/** Integer keys in ascending order: what sorting the keys of a Go map with
    sort.Ints yields, whatever order the map hands them out in. */
module Keys {
  import opened Text

  predicate Increasing(s: seq<int>)
  {
    forall i, j :: 0 <= i < j < |s| ==> s[i] < s[j]
  }

  predicate IsMinKey(k: int, keys: set<int>)
  {
    k in keys && forall x :: x in keys ==> k <= x
  }

  /** A non-empty set of keys has a member to pick. */
  lemma HasKey(keys: set<int>)
    requires keys != {}
    ensures exists k :: k in keys
  {
    if forall k :: k !in keys {
      assert false;
    }
  }

  lemma {:induction false} MinExists(keys: set<int>)
    requires keys != {}
    ensures exists k :: IsMinKey(k, keys)
    decreases |keys|
  {
    HasKey(keys);
    var y :| y in keys;
    var rest := keys - {y};
    if rest == {} {
      assert keys == {y};
      assert IsMinKey(y, keys);
    } else {
      MinExists(rest);
      var k :| IsMinKey(k, rest);
      forall x | x in keys && x != y ensures k <= x {
        assert x in rest;
      }
      if k < y {
        assert IsMinKey(k, keys);
      } else {
        assert IsMinKey(y, keys);
      }
    }
  }

  function MinKey(keys: set<int>): (k: int)
    requires keys != {}
    ensures IsMinKey(k, keys)
  {
    MinExists(keys);
    var k :| IsMinKey(k, keys);
    k
  }

  /** The keys in ascending order, each once. */
  function SortedKeys(keys: set<int>): (s: seq<int>)
    ensures Increasing(s)
    ensures forall x :: x in s <==> x in keys
    ensures |s| == |keys|
    decreases |keys|
  {
    if keys == {} then []
    else
      var k := MinKey(keys);
      var rest := SortedKeys(keys - {k});
      assert forall j :: 0 <= j < |rest| ==> rest[j] in rest;
      [k] + rest
  }

  /** An increasing sequence is determined by its elements. */
  lemma {:induction false} IncreasingUnique(a: seq<int>, b: seq<int>)
    requires Increasing(a) && Increasing(b)
    requires forall x :: x in a <==> x in b
    ensures a == b
  {
    if |a| > 0 && |b| > 0 {
      Member(a, 0);
      Member(b, 0);
      var j :| 0 <= j < |a| && a[j] == b[0];
      var k :| 0 <= k < |b| && b[k] == a[0];
      assert a[0] == b[0];
      forall x ensures x in a[1..] <==> x in b[1..] {
        if x in a[1..] {
          var i :| 1 <= i < |a| && a[i] == x;
          assert x in b;
          var l :| 0 <= l < |b| && b[l] == x;
          assert l != 0;
        }
        if x in b[1..] {
          var i :| 1 <= i < |b| && b[i] == x;
          assert x in a;
          var l :| 0 <= l < |a| && a[l] == x;
          assert l != 0;
        }
      }
      IncreasingUnique(a[1..], b[1..]);
      assert a == [a[0]] + a[1..] && b == [b[0]] + b[1..];
    } else if |a| > 0 {
      Member(a, 0);
      assert false;
    } else if |b| > 0 {
      Member(b, 0);
      assert false;
    }
  }

  /** Inserts a new key at its place in an increasing sequence. */
  function InsertKey(s: seq<int>, x: int): (r: seq<int>)
    requires Increasing(s) && x !in s
    ensures Increasing(r)
    ensures forall y :: y in r <==> y in s || y == x
  {
    if |s| == 0 then [x]
    else if x < s[0] then [x] + s
    else
      var rest := InsertKey(s[1..], x);
      assert forall j :: 0 <= j < |rest| ==> rest[j] in rest;
      [s[0]] + rest
  }


  /** sort.Ints over keys that are pairwise distinct (the keys of a map),
      one insertion at a time. */
  method SortInts(a: seq<int>) returns (s: seq<int>)
    requires forall i, j :: 0 <= i < j < |a| ==> a[i] != a[j]
    ensures Increasing(s)
    ensures forall x :: x in s <==> x in a
  {
    s := [];
    for i := 0 to |a|
      invariant Increasing(s)
      invariant forall y :: y in s <==> y in a[..i]
    {
      assert a[i] !in a[..i];
      s := InsertKey(s, a[i]);
      assert a[..i + 1] == a[..i] + [a[i]];
    }
    assert a[..|a|] == a;
  }

  /** Collects the keys of a set in whatever order they are picked. */
  method CollectKeys(keys: set<int>) returns (s: seq<int>)
    ensures forall x :: x in s <==> x in keys
    ensures forall i, j :: 0 <= i < j < |s| ==> s[i] != s[j]
  {
    s := [];
    var unvisited := keys;
    while unvisited != {}
      invariant unvisited <= keys
      invariant forall x :: x in s <==> x in keys && x !in unvisited
      invariant forall i, j :: 0 <= i < j < |s| ==> s[i] != s[j]
      decreases |unvisited|
    {
      HasKey(unvisited);
      var k :| k in unvisited;
      s := s + [k];
      unvisited := unvisited - {k};
    }
  }
}
