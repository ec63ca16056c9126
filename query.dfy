/** The relational operations the record scopes are built from: `where`,
    `order(... :desc)`, `pluck` and `distinct`, over a table held as the
    sequence of its rows in insertion order. */
module Query {
  import opened Common

  /** `where`: the rows satisfying `p`, in table order. */
  function Where<T(!new)>(rows: seq<T>, p: T -> bool): (r: seq<T>)
    ensures forall x :: x in r <==> x in rows && p(x)
    ensures forall x :: multiset(r)[x] == if p(x) then multiset(rows)[x] else 0
  {
    if rows == [] then []
    else
      var rest := Where(rows[1..], p);
      assert rows == [rows[0]] + rows[1..];
      if p(rows[0]) then [rows[0]] + rest else rest
  }

  /** Chaining two `where` scopes is one `where` on the conjunction,
      with the same rows in the same order. */
  lemma {:induction false} WhereWhere<T(!new)>(rows: seq<T>, p: T -> bool, q: T -> bool)
    ensures Where(Where(rows, p), q) == Where(rows, x => p(x) && q(x))
  {
    if rows != [] {
      WhereWhere(rows[1..], p, q);
    }
  }

  ghost predicate Increasing<T>(s: seq<T>, key: T -> int) {
    forall i, j :: 0 <= i < j < |s| ==> key(s[i]) < key(s[j])
  }

  /** `where` keeps the rows in table order: a table whose keys increase
      yields a selection whose keys increase. */
  lemma {:induction false} WhereKeepsIncreasing<T(!new)>(rows: seq<T>, p: T -> bool, key: T -> int)
    requires Increasing(rows, key)
    ensures Increasing(Where(rows, p), key)
  {
    if rows != [] {
      var rest := Where(rows[1..], p);
      WhereKeepsIncreasing(rows[1..], p, key);
      if p(rows[0]) {
        HeadBelowRest(rows, rest, key);
        ConsIncreasing(rows[0], rest, key);
      }
    }
  }

  /** A sequence whose keys increase is fixed by its elements: two such
      sequences holding the same elements are equal. */
  lemma {:induction false} IncreasingDetermined<T>(s: seq<T>, t: seq<T>, key: T -> int)
    requires Increasing(s, key) && Increasing(t, key)
    requires forall x :: x in s <==> x in t
    ensures s == t
    decreases |s|
  {
    assert s == [] <==> t == [] by {
      if s != [] { assert s[0] in s; }
      if t != [] { assert t[0] in t; }
    }
    if s != [] {
      assert s[0] in t && t[0] in s;
      var j :| 0 <= j < |t| && t[j] == s[0];
      var i :| 0 <= i < |s| && s[i] == t[0];
      FirstIsLeast(s, key, i);
      FirstIsLeast(t, key, j);
      assert s[0] == t[0];
      forall x ensures x in s[1..] <==> x in t[1..] {
        FirstNotInRest(s, key, x);
        FirstNotInRest(t, key, x);
      }
      IncreasingDetermined(s[1..], t[1..], key);
      assert s == [s[0]] + s[1..] && t == [t[0]] + t[1..];
    }
  }

  /** In an increasing sequence the first key is the least, and no later
      element has it. */
  lemma FirstIsLeast<T>(s: seq<T>, key: T -> int, k: int)
    requires Increasing(s, key) && 0 <= k < |s|
    ensures key(s[0]) <= key(s[k])
    ensures k != 0 ==> key(s[0]) < key(s[k])
  {
  }

  /** In an increasing sequence the first element appears only once. */
  lemma FirstNotInRest<T>(s: seq<T>, key: T -> int, x: T)
    requires s != [] && Increasing(s, key)
    ensures Increasing(s[1..], key)
    ensures x in s[1..] <==> x in s && x != s[0]
  {
    assert s == [s[0]] + s[1..];
    if x in s[1..] {
      var m :| 0 <= m < |s[1..]| && s[1..][m] == x;
      assert s[m + 1] == x;
      assert key(s[0]) < key(s[m + 1]);
    }
    assert forall a, b :: 0 <= a < b < |s[1..]| ==> s[1..][a] == s[a + 1] && s[1..][b] == s[b + 1];
  }

  lemma HeadBelowRest<T>(rows: seq<T>, rest: seq<T>, key: T -> int)
    requires rows != [] && Increasing(rows, key)
    requires forall x :: x in rest ==> x in rows[1..]
    ensures forall k :: 0 <= k < |rest| ==> key(rows[0]) < key(rest[k])
  {
    forall k | 0 <= k < |rest| ensures key(rows[0]) < key(rest[k]) {
      assert rest[k] in rows[1..];
      var m :| 0 <= m < |rows[1..]| && rows[1..][m] == rest[k];
      assert rows[m + 1] == rest[k];
    }
  }

  lemma ConsIncreasing<T>(x: T, rest: seq<T>, key: T -> int)
    requires Increasing(rest, key)
    requires forall k :: 0 <= k < |rest| ==> key(x) < key(rest[k])
    ensures Increasing([x] + rest, key)
  {
    var r := [x] + rest;
    forall i, j | 0 <= i < j < |r| ensures key(r[i]) < key(r[j]) {
      assert r[j] == rest[j - 1];
      if i > 0 { assert r[i] == rest[i - 1]; }
    }
  }

  /** `pluck`: one column of every row. */
  function Pluck<T, U>(rows: seq<T>, column: T -> U): (r: seq<U>)
    ensures |r| == |rows|
    ensures forall i :: 0 <= i < |rows| ==> r[i] == column(rows[i])
  {
    seq(|rows|, i requires 0 <= i < |rows| => column(rows[i]))
  }

  /** `where.not(column: nil).pluck(column)`: the non-nil values, in order. */
  function Values<T(!new)>(s: seq<Option<T>>): (r: seq<T>)
    ensures forall x :: x in r <==> Some(x) in s
    ensures forall x :: multiset(r)[x] == multiset(s)[Some(x)]
    ensures |r| == |s| - multiset(s)[None]
  {
    if s == [] then []
    else
      assert s == [s[0]] + s[1..];
      if s[0].Some? then [s[0].value] + Values(s[1..]) else Values(s[1..])
  }

  ghost predicate NoDuplicates<T>(s: seq<T>) {
    forall i, j :: 0 <= i < j < |s| ==> s[i] != s[j]
  }

  /** `distinct`: every value once (the order is the database's choice). */
  function Distinct<T(==,!new)>(s: seq<T>): (r: seq<T>)
    ensures forall x :: x in r <==> x in s
    ensures NoDuplicates(r)
  {
    if s == [] then []
    else if s[0] in s[1..] then Distinct(s[1..])
    else [s[0]] + Distinct(s[1..])
  }

  ghost predicate SortedDesc<T>(s: seq<T>, key: T -> int) {
    forall i, j :: 0 <= i < j < |s| ==> key(s[i]) >= key(s[j])
  }

  function InsertDesc<T>(x: T, s: seq<T>, key: T -> int): (r: seq<T>)
    requires SortedDesc(s, key)
    ensures SortedDesc(r, key)
    ensures multiset(r) == multiset(s) + multiset{x}
  {
    if s == [] || key(s[0]) <= key(x) then
      InsertAtHead(x, s, key);
      [x] + s
    else
      var rest := InsertDesc(x, s[1..], key);
      InsertBehindHead(x, s, rest, key);
      [s[0]] + rest
  }

  lemma InsertAtHead<T>(x: T, s: seq<T>, key: T -> int)
    requires SortedDesc(s, key)
    requires s == [] || key(s[0]) <= key(x)
    ensures SortedDesc([x] + s, key)
    ensures multiset([x] + s) == multiset(s) + multiset{x}
  {
    var r := [x] + s;
    forall i, j | 0 <= i < j < |r| ensures key(r[i]) >= key(r[j]) {
      assert r[j] == s[j - 1];
      if i > 0 { assert r[i] == s[i - 1]; } else { assert key(s[0]) >= key(s[j - 1]); }
    }
  }

  lemma InsertBehindHead<T>(x: T, s: seq<T>, rest: seq<T>, key: T -> int)
    requires s != [] && SortedDesc(s, key) && key(x) < key(s[0])
    requires SortedDesc(rest, key)
    requires multiset(rest) == multiset(s[1..]) + multiset{x}
    ensures SortedDesc([s[0]] + rest, key)
    ensures multiset([s[0]] + rest) == multiset(s) + multiset{x}
  {
    assert s == [s[0]] + s[1..];
    var r := [s[0]] + rest;
    forall k | 0 <= k < |rest| ensures key(rest[k]) <= key(s[0]) {
      assert rest[k] in multiset(rest);
      if rest[k] != x {
        assert rest[k] in multiset(s[1..]);
        var m :| 0 <= m < |s[1..]| && s[1..][m] == rest[k];
        assert s[m + 1] == rest[k];
      }
    }
    forall i, j | 0 <= i < j < |r| ensures key(r[i]) >= key(r[j]) {
      assert r[j] == rest[j - 1];
      if i > 0 { assert r[i] == rest[i - 1]; }
    }
  }

  /** `order(key: :desc)`: the same rows, largest key first. Rows with
      equal keys come out in an order the database does not promise. */
  function OrderDesc<T>(rows: seq<T>, key: T -> int): (r: seq<T>)
    ensures SortedDesc(r, key)
    ensures multiset(r) == multiset(rows)
  {
    if rows == [] then []
    else
      assert rows == [rows[0]] + rows[1..];
      InsertDesc(rows[0], OrderDesc(rows[1..], key), key)
  }
}
