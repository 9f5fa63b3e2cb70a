/** Rows of a database table as a sequence in insertion order, and the
    statements the core runs on them through the ORM: deleting every row
    that belongs to an owner, finding a row by its key, and inserting or
    upserting a list of rows one by one. */
module Tables {
  import opened Wrappers

  /** The rows whose `owner` column is not `key`: what
      `delete ... where <owner> = key` leaves behind. */
  function Without<T>(rows: seq<T>, owner: T -> int, key: int): (r: seq<T>)
    ensures |r| <= |rows|
  {
    if |rows| == 0 then []
    else
      var n := |rows| - 1;
      Without(rows[..n], owner, key) + (if owner(rows[n]) != key then [rows[n]] else [])
  }

  /** The rows whose `owner` column is `key`, in table order. */
  function Owned<T>(rows: seq<T>, owner: T -> int, key: int): (r: seq<T>)
    ensures |r| <= |rows|
  {
    if |rows| == 0 then []
    else
      var n := |rows| - 1;
      Owned(rows[..n], owner, key) + (if owner(rows[n]) == key then [rows[n]] else [])
  }

  /** Splitting a table by owner loses no row and keeps each side's order:
      the rows a delete removes are exactly the owned ones, so the rows
      affected it reports is their number. */
  lemma {:induction false} Partition<T>(rows: seq<T>, owner: T -> int, key: int)
    ensures |Without(rows, owner, key)| + |Owned(rows, owner, key)| == |rows|
    ensures forall x :: x in Without(rows, owner, key) <==> x in rows && owner(x) != key
    ensures forall x :: x in Owned(rows, owner, key) <==> x in rows && owner(x) == key
  {
    if |rows| > 0 {
      var n := |rows| - 1;
      Partition(rows[..n], owner, key);
      assert rows == rows[..n] + [rows[n]];
    }
  }

  lemma {:induction false} WithoutAppend<T>(a: seq<T>, b: seq<T>, owner: T -> int, key: int)
    ensures Without(a + b, owner, key) == Without(a, owner, key) + Without(b, owner, key)
    ensures Owned(a + b, owner, key) == Owned(a, owner, key) + Owned(b, owner, key)
    decreases |b|
  {
    if |b| > 0 {
      var n := |b| - 1;
      assert (a + b)[..|a| + n] == a + b[..n];
      WithoutAppend(a, b[..n], owner, key);
    } else {
      assert a + b == a;
    }
  }

  lemma {:induction false} AllOwned<T>(rows: seq<T>, owner: T -> int, key: int)
    requires forall i :: 0 <= i < |rows| ==> owner(rows[i]) == key
    ensures Without(rows, owner, key) == []
    ensures Owned(rows, owner, key) == rows
  {
    if |rows| > 0 {
      var n := |rows| - 1;
      AllOwned(rows[..n], owner, key);
      assert rows == rows[..n] + [rows[n]];
    }
  }

  lemma {:induction false} NoneOwned<T>(rows: seq<T>, owner: T -> int, key: int)
    requires forall i :: 0 <= i < |rows| ==> owner(rows[i]) != key
    ensures Without(rows, owner, key) == rows
    ensures Owned(rows, owner, key) == []
  {
    if |rows| > 0 {
      var n := |rows| - 1;
      NoneOwned(rows[..n], owner, key);
      assert rows == rows[..n] + [rows[n]];
    }
  }

  /** Replacing an owner's rows: after deleting them and appending a new list
      that belongs to the owner, the owner has exactly the new list, in its
      order, and every other owner has exactly the rows it had. */
  lemma Replace<T>(rows: seq<T>, added: seq<T>, owner: T -> int, key: int, other: int)
    requires forall i :: 0 <= i < |added| ==> owner(added[i]) == key
    requires other != key
    ensures Owned(Without(rows, owner, key) + added, owner, key) == added
    ensures Owned(Without(rows, owner, key) + added, owner, other) == Owned(rows, owner, other)
  {
    var kept := Without(rows, owner, key);
    WithoutAppend(kept, added, owner, key);
    WithoutAppend(kept, added, owner, other);
    OwnedWithout(rows, owner, key, key);
    AllOwned(added, owner, key);
    NoneOwned(added, owner, other);
    OwnedWithout(rows, owner, key, other);
  }

  /** Deleting one owner's rows removes all of them and touches no other
      owner's. */
  lemma {:induction false} OwnedWithout<T>(rows: seq<T>, owner: T -> int, key: int, other: int)
    ensures Owned(Without(rows, owner, key), owner, other) == if other == key then [] else Owned(rows, owner, other)
  {
    if |rows| > 0 {
      var n := |rows| - 1;
      var x := rows[n];
      OwnedWithout(rows[..n], owner, key, other);
      var tail := if owner(x) != key then [x] else [];
      assert Without(rows, owner, key) == Without(rows[..n], owner, key) + tail;
      WithoutAppend(Without(rows[..n], owner, key), tail, owner, other);
      OneRow(x, owner, other);
      if owner(x) == key {
        assert Owned(tail, owner, other) == [];
      }
    }
  }

  /** A single row is owned by `key` exactly when its owner column says so. */
  lemma OneRow<T>(x: T, owner: T -> int, key: int)
    ensures Owned([x], owner, key) == if owner(x) == key then [x] else []
    ensures Without([x], owner, key) == if owner(x) != key then [x] else []
  {
    assert [x][..0] == [];
  }

  // ---------------------------------------------------------------------------
  // Keys

  /** The first row whose key is `k`, if any: a Find by primary key. */
  function Lookup<T>(rows: seq<T>, key: T -> int, k: int): (r: Option<T>)
    ensures r.Some? ==> r.value in rows && key(r.value) == k
    ensures r.None? ==> forall x :: x in rows ==> key(x) != k
  {
    if |rows| == 0 then None
    else if key(rows[0]) == k then Some(rows[0])
    else Lookup(rows[1..], key, k)
  }

  /** A row can be inserted unless it names a key the table already holds;
      a zero key is left to the database's sequence and never clashes. */
  predicate Clashes<T>(rows: seq<T>, key: T -> int, r: T)
  {
    key(r) != 0 && Lookup(rows, key, key(r)).Some?
  }

  /** How many of `added` a run of inserts into `rows` gets through: the
      index of the first row that clashes with the table as it is then, or
      all of them. */
  function Inserted<T>(rows: seq<T>, added: seq<T>, key: T -> int): (k: nat)
    ensures k <= |added|
  {
    if |added| == 0 then 0
    else
      var n := |added| - 1;
      var k := Inserted(rows, added[..n], key);
      if k < n then k
      else if Clashes(rows + added[..n], key, added[n]) then n
      else |added|
  }

  /** Once a run of inserts has stopped, later rows do not matter. */
  lemma {:induction false} InsertedStops<T>(rows: seq<T>, added: seq<T>, key: T -> int, m: nat)
    requires m <= |added| && Inserted(rows, added[..m], key) < m
    ensures Inserted(rows, added, key) == Inserted(rows, added[..m], key)
    decreases |added| - m
  {
    if m < |added| {
      assert added[..m + 1][..m] == added[..m];
      InsertedStops(rows, added, key, m + 1);
    } else {
      assert added[..m] == added;
    }
  }

  /** Keys that are zero or new to the table and to the rows before them. */
  predicate NewKeys<T>(rows: seq<T>, added: seq<T>, key: T -> int)
  {
    forall i :: 0 <= i < |added| ==> !Clashes(rows + added[..i], key, added[i])
  }

  /** Rows with added keys are all inserted. */
  lemma {:induction false} InsertedNew<T>(rows: seq<T>, added: seq<T>, key: T -> int)
    requires NewKeys(rows, added, key)
    ensures Inserted(rows, added, key) == |added|
  {
    if |added| > 0 {
      var n := |added| - 1;
      assert NewKeys(rows, added[..n], key) by {
        forall i | 0 <= i < n ensures !Clashes(rows + added[..n][..i], key, added[..n][i]) {
          assert added[..n][..i] == added[..i];
        }
      }
      InsertedNew(rows, added[..n], key);
    }
  }

  /** Upsert on the key: a row whose non-zero key the table holds replaces
      the first row with that key in place; any other row is appended. */
  function Upsert<T>(rows: seq<T>, key: T -> int, r: T): (t: seq<T>)
    ensures |t| == |rows| || t == rows + [r]
  {
    if key(r) != 0 && Lookup(rows, key, key(r)).Some? then rows[Position(rows, key, key(r)) := r]
    else rows + [r]
  }

  /** The index of the first row whose key is `k`, or |rows|. */
  function Position<T>(rows: seq<T>, key: T -> int, k: int): (i: nat)
    ensures i <= |rows|
    ensures i < |rows| <==> Lookup(rows, key, k).Some?
  {
    if |rows| == 0 then 0
    else if key(rows[0]) == k then 0
    else 1 + Position(rows[1..], key, k)
  }

  /** A run of upserts, one row after the other. */
  function UpsertAll<T>(rows: seq<T>, added: seq<T>, key: T -> int): seq<T>
  {
    if |added| == 0 then rows
    else
      var n := |added| - 1;
      Upsert(UpsertAll(rows, added[..n], key), key, added[n])
  }

  /** Upserting rows with added keys appends them in order. */
  lemma {:induction false} UpsertAllNew<T>(rows: seq<T>, added: seq<T>, key: T -> int)
    requires NewKeys(rows, added, key)
    ensures UpsertAll(rows, added, key) == rows + added
  {
    if |added| > 0 {
      var n := |added| - 1;
      assert NewKeys(rows, added[..n], key) by {
        forall i | 0 <= i < n ensures !Clashes(rows + added[..n][..i], key, added[..n][i]) {
          assert added[..n][..i] == added[..i];
        }
      }
      UpsertAllNew(rows, added[..n], key);
      assert !Clashes(rows + added[..n], key, added[n]);
      assert rows + added[..n] + [added[n]] == rows + added;
    }
  }

  /** Keys that are zero, or differ from every key of the table and of the
      rows before them. */
  predicate DistinctKeys<T>(rows: seq<T>, added: seq<T>, key: T -> int)
  {
    forall i :: 0 <= i < |added| && key(added[i]) != 0 ==>
      (forall p :: 0 <= p < |rows| ==> key(rows[p]) != key(added[i])) &&
      (forall j :: 0 <= j < i ==> key(added[j]) != key(added[i]))
  }

  lemma DistinctNew<T>(rows: seq<T>, added: seq<T>, key: T -> int)
    requires DistinctKeys(rows, added, key)
    ensures NewKeys(rows, added, key)
  {
    forall i | 0 <= i < |added| ensures !Clashes(rows + added[..i], key, added[i]) {
      var t := rows + added[..i];
      if key(added[i]) != 0 && Lookup(t, key, key(added[i])).Some? {
        assert false;
      }
    }
  }

  lemma {:induction false} LookupAppend<T>(rows: seq<T>, key: T -> int, r: T, k: int)
    ensures Lookup(rows + [r], key, k) ==
      if Lookup(rows, key, k).Some? then Lookup(rows, key, k) else if key(r) == k then Some(r) else None
  {
    if |rows| > 0 {
      assert (rows + [r])[1..] == rows[1..] + [r];
      LookupAppend(rows[1..], key, r, k);
    }
  }

  lemma {:induction false} LookupUpdate<T>(rows: seq<T>, key: T -> int, r: T, k: int)
    requires Position(rows, key, key(r)) < |rows|
    ensures Lookup(rows[Position(rows, key, key(r)) := r], key, k) ==
      if k == key(r) then Some(r) else Lookup(rows, key, k)
  {
    var p := Position(rows, key, key(r));
    var t := rows[p := r];
    if key(rows[0]) == key(r) {
      assert t[1..] == rows[1..];
    } else {
      assert t[1..] == rows[1..][p - 1 := r];
      LookupUpdate(rows[1..], key, r, k);
    }
  }

  /** After an upsert the row is what its key finds, and every other key
      finds what it found before. */
  lemma UpsertLookup<T>(rows: seq<T>, key: T -> int, r: T, k: int)
    requires k != 0 || key(r) != 0
    ensures Lookup(Upsert(rows, key, r), key, k) == if k == key(r) then Some(r) else Lookup(rows, key, k)
  {
    if key(r) != 0 && Lookup(rows, key, key(r)).Some? {
      LookupUpdate(rows, key, r, k);
    } else {
      LookupAppend(rows, key, r, k);
    }
  }
}
