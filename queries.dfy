/**
 * The three query shapes the storage layer asks of its tables: the first row
 * whose column equals a value (`where(eq(col, v))` then `result[0]`), a filter
 * (`where(...)`), and `orderBy(desc(createdAt))`. Rows are kept in insertion
 * order; the functions here are generic in the row type and take the column as
 * a function.
 */
module Queries {
  import opened Wrappers

  /** No two rows agree on `key`: what a primary key or a `.unique()` column guarantees. */
  ghost predicate Unique<T, K>(rows: seq<T>, key: T -> K) {
    forall i, j :: 0 <= i < j < |rows| ==> key(rows[i]) != key(rows[j])
  }

  /** Some row has `k` in its `key` column. */
  ghost predicate Taken<T, K>(rows: seq<T>, key: T -> K, k: K) {
    exists i :: 0 <= i < |rows| && key(rows[i]) == k
  }

  /** Appending a row whose key is not taken keeps the column unique. */
  lemma UniqueAppend<T, K>(rows: seq<T>, x: T, key: T -> K)
    requires Unique(rows, key) && !Taken(rows, key, key(x))
    ensures Unique(rows + [x], key)
  {
  }

  /** The first row whose `key` column equals `k`, or None when no row matches. */
  function FindBy<T, K(==)>(rows: seq<T>, key: T -> K, k: K): (r: Option<T>)
    ensures r.None? <==> forall i :: 0 <= i < |rows| ==> key(rows[i]) != k
    ensures r.Some? ==>
      exists i :: 0 <= i < |rows| && rows[i] == r.value && key(rows[i]) == k &&
        forall j :: 0 <= j < i ==> key(rows[j]) != k
  {
    if rows == [] then None
    else if key(rows[0]) == k then Some(rows[0])
    else
      var r := FindBy(rows[1..], key, k);
      assert forall i :: 1 <= i < |rows| ==> rows[i] == rows[1..][i - 1];
      r
  }

  /** On a unique column, the lookup by a row's own key finds exactly that row. */
  lemma FindByUnique<T, K>(rows: seq<T>, key: T -> K, i: nat)
    requires Unique(rows, key)
    requires i < |rows|
    ensures FindBy(rows, key, key(rows[i])) == Some(rows[i])
  {
    var r := FindBy(rows, key, key(rows[i]));
    var j :| 0 <= j < |rows| && rows[j] == r.value && key(rows[j]) == key(rows[i]) &&
             forall m :: 0 <= m < j ==> key(rows[m]) != key(rows[i]);
    assert j == i;
  }

  /** Appending a row changes a lookup only when no earlier row matched. */
  lemma {:induction false} FindByAppend<T, K>(rows: seq<T>, x: T, key: T -> K, k: K)
    ensures FindBy(rows + [x], key, k) ==
      if FindBy(rows, key, k).Some? then FindBy(rows, key, k)
      else if key(x) == k then Some(x)
      else None
  {
    if rows == [] {
      assert rows + [x] == [x];
    } else {
      assert (rows + [x])[1..] == rows[1..] + [x];
      FindByAppend(rows[1..], x, key, k);
    }
  }

  /** `where(p)`: the rows satisfying `p`, in table order. */
  function Where<T(!new)>(rows: seq<T>, p: T -> bool): (r: seq<T>)
    ensures |r| <= |rows|
    ensures forall i :: 0 <= i < |r| ==> p(r[i])
    ensures forall x :: x in r <==> x in rows && p(x)
    ensures forall x :: multiset(r)[x] == if p(x) then multiset(rows)[x] else 0
  {
    if rows == [] then []
    else
      var rest := Where(rows[1..], p);
      assert rows == [rows[0]] + rows[1..];
      if p(rows[0]) then [rows[0]] + rest else rest
  }

  /** Rows ordered by `at`, largest (newest) first. Equal timestamps may come in any order. */
  ghost predicate NewestFirstOrder<T>(s: seq<T>, at: T -> int) {
    forall i, j :: 0 <= i < j < |s| ==> at(s[i]) >= at(s[j])
  }

  function InsertByTime<T>(x: T, s: seq<T>, at: T -> int): (r: seq<T>)
    requires NewestFirstOrder(s, at)
    ensures NewestFirstOrder(r, at)
    ensures multiset(r) == multiset(s) + multiset{x}
  {
    if s == [] || at(x) >= at(s[0]) then
      [x] + s
    else
      var rest := InsertByTime(x, s[1..], at);
      assert s == [s[0]] + s[1..];
      BoundedByHead(s, x, rest, at);
      [s[0]] + rest
  }

  /** Every row of `rest` (a reordering of the tail of `s` plus an older `x`) is no newer than `s[0]`. */
  lemma BoundedByHead<T>(s: seq<T>, x: T, rest: seq<T>, at: T -> int)
    requires s != [] && NewestFirstOrder(s, at) && at(x) < at(s[0])
    requires multiset(rest) == multiset(s[1..]) + multiset{x}
    ensures forall i :: 0 <= i < |rest| ==> at(s[0]) >= at(rest[i])
  {
    forall i | 0 <= i < |rest|
      ensures at(s[0]) >= at(rest[i])
    {
      assert rest[i] in multiset(rest);
      if rest[i] != x {
        assert rest[i] in multiset(s[1..]);
        var j :| 0 <= j < |s[1..]| && s[1..][j] == rest[i];
        assert s[j + 1] == rest[i];
      }
    }
  }

  /** `orderBy(desc(createdAt))`: the same rows, newest first. */
  function NewestFirst<T>(rows: seq<T>, at: T -> int): (r: seq<T>)
    ensures NewestFirstOrder(r, at)
    ensures multiset(r) == multiset(rows)
  {
    if rows == [] then []
    else
      assert rows == [rows[0]] + rows[1..];
      InsertByTime(rows[0], NewestFirst(rows[1..], at), at)
  }
}
