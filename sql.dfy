/** The pieces of SQL semantics that the store's statements rely on: how a
    statement's `get` picks a row, how `all` with a WHERE clause selects rows,
    how ORDER BY compares TEXT columns, and the order in which it returns rows. */
module Sql {
  import opened Wrappers

  // ---------------------------------------------------------------------------
  // TEXT ordering (the default BINARY collation: character by character)

  predicate TextLe(a: string, b: string) {
    a == [] || (b != [] && (a[0] < b[0] || (a[0] == b[0] && TextLe(a[1..], b[1..]))))
  }

  lemma {:induction false} TextLeTotal(a: string, b: string)
    ensures TextLe(a, b) || TextLe(b, a)
  {
    if a != [] && b != [] && a[0] == b[0] {
      TextLeTotal(a[1..], b[1..]);
    }
  }

  lemma {:induction false} TextLeTransitive(a: string, b: string, c: string)
    requires TextLe(a, b) && TextLe(b, c)
    ensures TextLe(a, c)
  {
    if a != [] && a[0] == b[0] && b[0] == c[0] {
      TextLeTransitive(a[1..], b[1..], c[1..]);
    }
  }

  lemma {:induction false} TextLeAntisymmetric(a: string, b: string)
    requires TextLe(a, b) && TextLe(b, a)
    ensures a == b
  {
    if a != [] {
      TextLeAntisymmetric(a[1..], b[1..]);
      assert a == [a[0]] + a[1..] && b == [b[0]] + b[1..];
    }
  }

  /** `a` is a prefix of `b`, or the two first differ at a position where `a`
      has the smaller character: the byte-wise comparison of the BINARY collation. */
  predicate Lexicographic(a: string, b: string) {
    (|a| <= |b| && a == b[..|a|])
    || exists k :: 0 <= k < |a| && k < |b| && a[..k] == b[..k] && a[k] < b[k]
  }

  lemma {:induction false} TextLeIsLexicographic(a: string, b: string)
    ensures TextLe(a, b) <==> Lexicographic(a, b)
  {
    if a == [] {
      assert a == b[..0];
    } else if b == [] {
    } else if a[0] < b[0] {
      assert a[..0] == b[..0];
    } else if a[0] > b[0] {
      forall k | 0 < k <= |a| && k <= |b|
        ensures a[..k][0] == a[0] && b[..k][0] == b[0]
      {
      }
    } else {
      TextLeIsLexicographic(a[1..], b[1..]);
      LexicographicTail(a, b);
    }
  }

  /** Strings with the same first character compare as their tails do. */
  lemma LexicographicTail(a: string, b: string)
    requires a != [] && b != [] && a[0] == b[0]
    ensures Lexicographic(a, b) <==> Lexicographic(a[1..], b[1..])
  {
    PrefixTail(a, b);
    if k :| 0 <= k < |a| && k < |b| && a[..k] == b[..k] && a[k] < b[k] {
      DifferenceToTail(a, b, k);
    }
    if k :| 0 <= k < |a[1..]| && k < |b[1..]| && a[1..][..k] == b[1..][..k] && a[1..][k] < b[1..][k] {
      DifferenceFromTail(a, b, k);
    }
  }

  lemma PrefixTail(a: string, b: string)
    requires a != [] && b != [] && a[0] == b[0]
    ensures (|a| <= |b| && a == b[..|a|]) <==> (|a[1..]| <= |b[1..]| && a[1..] == b[1..][..|a[1..]|])
  {
  }

  lemma DifferenceToTail(a: string, b: string, k: nat)
    requires a != [] && b != [] && a[0] == b[0]
    requires k < |a| && k < |b| && a[..k] == b[..k] && a[k] < b[k]
    ensures 0 < k && a[1..][..k-1] == b[1..][..k-1] && a[1..][k-1] < b[1..][k-1]
  {
    assert a[1..][..k-1] == a[..k][1..];
    assert b[1..][..k-1] == b[..k][1..];
  }

  lemma DifferenceFromTail(a: string, b: string, k: nat)
    requires a != [] && b != [] && a[0] == b[0]
    requires k < |a[1..]| && k < |b[1..]| && a[1..][..k] == b[1..][..k] && a[1..][k] < b[1..][k]
    ensures a[..k+1] == b[..k+1] && a[k+1] < b[k+1]
  {
  }

  /** A NULLable TEXT column: NULL sorts before every value. */
  predicate NullableTextLe(a: Option<string>, b: Option<string>) {
    a.None? || (b.Some? && TextLe(a.value, b.value))
  }

  // ---------------------------------------------------------------------------
  // Row selection

  /** The position of the row `get` returns: the first row, in table order,
      that satisfies the WHERE clause, or `|rows|` when none does. */
  function FirstMatch<T>(rows: seq<T>, where: T -> bool): (i: nat)
    ensures i <= |rows|
    ensures i < |rows| ==> where(rows[i])
    ensures forall j :: 0 <= j < i ==> !where(rows[j])
  {
    if rows == [] then 0
    else if where(rows[0]) then 0
    else 1 + FirstMatch(rows[1..], where)
  }

  /** Appending a row leaves `get` at the row it found before, and finds the
      new row only when no earlier row matches. */
  lemma {:induction false} FirstMatchAppend<T>(rows: seq<T>, x: T, where: T -> bool)
    ensures FirstMatch(rows + [x], where) ==
      if FirstMatch(rows, where) < |rows| then FirstMatch(rows, where)
      else if where(x) then |rows| else |rows| + 1
  {
    if rows != [] {
      assert (rows + [x])[1..] == rows[1..] + [x];
      FirstMatchAppend(rows[1..], x, where);
    }
  }

  /** The rows `all` returns before ordering: those satisfying the WHERE clause,
      each as often as it occurs in the table. */
  function Filter<T(!new)>(rows: seq<T>, where: T -> bool): (r: seq<T>)
    ensures forall x :: multiset(r)[x] == if where(x) then multiset(rows)[x] else 0
  {
    if rows == [] then []
    else
      assert rows == [rows[0]] + rows[1..];
      (if where(rows[0]) then [rows[0]] else []) + Filter(rows[1..], where)
  }

  /** Two WHERE clauses that agree on every row of the table select the same rows. */
  lemma {:induction false} FilterAgrees<T(!new)>(rows: seq<T>, f: T -> bool, g: T -> bool)
    requires forall x :: x in rows ==> f(x) == g(x)
    ensures Filter(rows, f) == Filter(rows, g)
  {
    if rows != [] {
      FilterAgrees(rows[1..], f, g);
    }
  }

  // ---------------------------------------------------------------------------
  // ORDER BY

  /** `before` orders rows by a key: any two rows are comparable, and the
      relation is transitive. Rows with equal keys are related both ways. */
  ghost predicate TotalPreorder<T(!new)>(before: (T, T) -> bool) {
    && (forall a, b :: before(a, b) || before(b, a))
    && (forall a, b, c :: before(a, b) && before(b, c) ==> before(a, c))
  }

  predicate SortedBy<T>(rows: seq<T>, before: (T, T) -> bool) {
    forall i, j :: 0 <= i < j < |rows| ==> before(rows[i], rows[j])
  }

  /** Places `x` in front of the first row it may precede. */
  function InsertBy<T(!new)>(x: T, rows: seq<T>, before: (T, T) -> bool): (r: seq<T>)
    requires TotalPreorder(before) && SortedBy(rows, before)
    ensures SortedBy(r, before)
    ensures multiset(r) == multiset(rows) + multiset{x}
  {
    if rows == [] then [x]
    else if before(x, rows[0]) then
      PrecedesAll(x, rows, before);
      PrependSorted(x, rows, before);
      [x] + rows
    else
      assert rows == [rows[0]] + rows[1..];
      var tail := InsertBy(x, rows[1..], before);
      HeadPrecedesInserted(x, rows, tail, before);
      PrependSorted(rows[0], tail, before);
      [rows[0]] + tail
  }

  lemma PrecedesAll<T(!new)>(x: T, rows: seq<T>, before: (T, T) -> bool)
    requires TotalPreorder(before) && SortedBy(rows, before)
    requires rows != [] && before(x, rows[0])
    ensures forall y :: y in multiset(rows) ==> before(x, y)
  {
  }

  lemma HeadPrecedesInserted<T(!new)>(x: T, rows: seq<T>, tail: seq<T>, before: (T, T) -> bool)
    requires TotalPreorder(before) && SortedBy(rows, before)
    requires rows != [] && !before(x, rows[0])
    requires multiset(tail) == multiset(rows[1..]) + multiset{x}
    ensures forall y :: y in multiset(tail) ==> before(rows[0], y)
  {
  }

  lemma PrependSorted<T>(x: T, rows: seq<T>, before: (T, T) -> bool)
    requires SortedBy(rows, before)
    requires forall y :: y in multiset(rows) ==> before(x, y)
    ensures SortedBy([x] + rows, before)
  {
  }

  /** The rows in the order ORDER BY gives them (an insertion sort; rows with
      equal keys keep their table order). */
  function SortBy<T(!new)>(rows: seq<T>, before: (T, T) -> bool): (r: seq<T>)
    requires TotalPreorder(before)
    ensures SortedBy(r, before)
    ensures multiset(r) == multiset(rows)
  {
    if rows == [] then []
    else
      assert rows == [rows[0]] + rows[1..];
      InsertBy(rows[0], SortBy(rows[1..], before), before)
  }

  /** Two orderings of the same rows agree when no two distinct rows have equal
      keys: ORDER BY then fixes the result completely. */
  lemma {:induction false} SortedUnique<T>(a: seq<T>, b: seq<T>, before: (T, T) -> bool)
    requires SortedBy(a, before) && SortedBy(b, before)
    requires multiset(a) == multiset(b)
    requires forall x, y :: x in a && y in a && before(x, y) && before(y, x) ==> x == y
    ensures a == b
  {
    if a != [] {
      SameHead(a, b, before);
      SameTail(a, b);
      forall x, y | x in a[1..] && y in a[1..] && before(x, y) && before(y, x)
        ensures x == y
      {
        assert x in a && y in a;
      }
      SortedUnique(a[1..], b[1..], before);
      assert a == [a[0]] + a[1..] && b == [b[0]] + b[1..];
    }
  }

  lemma SameHead<T>(a: seq<T>, b: seq<T>, before: (T, T) -> bool)
    requires a != [] && SortedBy(a, before) && SortedBy(b, before)
    requires multiset(a) == multiset(b)
    requires forall x, y :: x in a && y in a && before(x, y) && before(y, x) ==> x == y
    ensures b != [] && a[0] == b[0]
  {
    assert a[0] in multiset(b);
    var k :| 0 <= k < |b| && b[k] == a[0];
    assert b[0] in multiset(a);
    var m :| 0 <= m < |a| && a[m] == b[0];
    if k > 0 && m > 0 {
      assert before(b[0], b[k]) && before(a[0], a[m]);
      assert a[0] in a && b[0] in a;
    }
  }

  lemma SameTail<T>(a: seq<T>, b: seq<T>)
    requires a != [] && b != [] && a[0] == b[0]
    requires multiset(a) == multiset(b)
    ensures multiset(a[1..]) == multiset(b[1..])
  {
    assert a == [a[0]] + a[1..] && b == [b[0]] + b[1..];
    assert multiset(a[1..]) == multiset(a) - multiset{a[0]};
    assert multiset(b[1..]) == multiset(b) - multiset{a[0]};
  }
}
