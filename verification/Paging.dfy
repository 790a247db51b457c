/** ORDER BY under a strict total order, and LIMIT/OFFSET pages of the ordered rows. */
module Paging {

  ghost predicate StrictTotal<T(!new)>(less: (T, T) -> bool, rows: set<T>) {
    && (forall a :: a in rows ==> !less(a, a))
    && (forall a, b :: a in rows && b in rows && a != b ==> less(a, b) || less(b, a))
    && (forall a, b, c :: a in rows && b in rows && c in rows && less(a, b) && less(b, c) ==> less(a, c))
  }

  ghost predicate Least<T(!new)>(less: (T, T) -> bool, rows: set<T>, x: T) {
    x in rows && forall y :: y in rows && y != x ==> less(x, y)
  }

  lemma {:induction false} LeastExists<T(!new)>(less: (T, T) -> bool, rows: set<T>)
    requires StrictTotal(less, rows) && rows != {}
    ensures exists x :: Least(less, rows, x)
    decreases |rows|
  {
    var x :| x in rows;
    if rows == {x} {
      assert Least(less, rows, x);
    } else {
      LeastExists(less, rows - {x});
      var y :| Least(less, rows - {x}, y);
      assert Least(less, rows, if less(x, y) then x else y);
    }
  }

  /** The rows in order. */
  ghost function Sorted<T(!new)>(less: (T, T) -> bool, rows: set<T>): (r: seq<T>)
    requires StrictTotal(less, rows)
    ensures |r| == |rows|
    ensures forall x :: x in r <==> x in rows
    ensures forall i, j :: 0 <= i < j < |r| ==> less(r[i], r[j])
    decreases |rows|
  {
    if rows == {} then []
    else
      LeastExists(less, rows);
      var x :| Least(less, rows, x);
      var rest := Sorted(less, rows - {x});
      assert forall y :: y in rest ==> less(x, y);
      [x] + rest
  }

  ghost predicate Increasing<T(!new)>(less: (T, T) -> bool, listing: seq<T>) {
    forall i, j :: 0 <= i < j < |listing| ==> less(listing[i], listing[j])
  }

  lemma TailElements<T(!new)>(less: (T, T) -> bool, rows: set<T>, listing: seq<T>, y: T)
    requires StrictTotal(less, rows) && Increasing(less, listing) && listing != []
    requires forall x :: x in listing ==> x in rows
    ensures y in listing[1..] <==> y in listing && y != listing[0]
  {
    if y in listing[1..] {
      var i :| 0 < i < |listing| && listing[i] == y;
      assert less(listing[0], listing[i]);
    }
  }

  lemma HeadIsLeast<T(!new)>(less: (T, T) -> bool, rows: set<T>, listing: seq<T>)
    requires StrictTotal(less, rows) && Increasing(less, listing) && listing != []
    requires forall x :: x in listing <==> x in rows
    ensures Least(less, rows, listing[0])
  {
    forall y | y in rows && y != listing[0]
      ensures less(listing[0], y)
    {
      var i :| 0 <= i < |listing| && listing[i] == y;
    }
  }

  lemma HasElement<T>(s: seq<T>)
    requires s != []
    ensures exists x :: x in s
  {
    assert s[0] in s;
  }

  lemma {:induction false} ListingsEqual<T(!new)>(less: (T, T) -> bool, rows: set<T>, a: seq<T>, b: seq<T>)
    requires StrictTotal(less, rows) && Increasing(less, a) && Increasing(less, b)
    requires forall x :: x in a <==> x in rows
    requires forall x :: x in b <==> x in rows
    ensures a == b
    decreases |a|
  {
    if a == [] {
      if b != [] {
        HasElement(b);
      }
    } else {
      assert a[0] in rows;
      assert b != [] by {
        assert a[0] in b;
      }
      HeadIsLeast(less, rows, a);
      HeadIsLeast(less, rows, b);
      assert a[0] == b[0];
      forall y
        ensures y in a[1..] <==> y in rows - {a[0]}
        ensures y in b[1..] <==> y in rows - {a[0]}
      {
        TailElements(less, rows, a, y);
        TailElements(less, rows, b, y);
      }
      ListingsEqual(less, rows - {a[0]}, a[1..], b[1..]);
    }
  }

  /** There is only one ordered listing: the database has no freedom in what it returns. */
  lemma SortedUnique<T(!new)>(less: (T, T) -> bool, rows: set<T>, listing: seq<T>)
    requires StrictTotal(less, rows) && Increasing(less, listing)
    requires forall x :: x in listing <==> x in rows
    ensures listing == Sorted(less, rows)
  {
    ListingsEqual(less, rows, listing, Sorted(less, rows));
  }

  // ---------- pages

  function Min(a: nat, b: nat): nat { if a < b then a else b }

  /** LIMIT limit OFFSET offset */
  function Page<T>(rows: seq<T>, limit: nat, offset: nat): seq<T> {
    rows[Min(offset, |rows|)..Min(offset + limit, |rows|)]
  }

  /** A page is the rows from the offset on, up to as many as the limit, and empty past the end. */
  lemma PageMeaning<T>(rows: seq<T>, limit: nat, offset: nat)
    ensures |Page(rows, limit, offset)| <= limit
    ensures forall k :: 0 <= k < |Page(rows, limit, offset)| ==>
              offset + k < |rows| && Page(rows, limit, offset)[k] == rows[offset + k]
    ensures |Page(rows, limit, offset)| < limit ==> |rows| <= offset + |Page(rows, limit, offset)|
  {
  }

  /** The first n pages, one after the other. */
  function Pages<T>(rows: seq<T>, limit: nat, n: nat): seq<T> {
    if n == 0 then [] else Pages(rows, limit, n - 1) + Page(rows, limit, (n - 1) * limit)
  }

  lemma {:induction false} PagesArePrefixes<T>(rows: seq<T>, limit: nat, n: nat)
    ensures Pages(rows, limit, n) == rows[..Min(n * limit, |rows|)]
  {
    if n > 0 {
      PagesArePrefixes(rows, limit, n - 1);
      assert n * limit == (n - 1) * limit + limit;
    }
  }

  /** Reading pages until they run out gives every row, once, in order. */
  lemma PagesCoverAll<T>(rows: seq<T>, limit: nat, n: nat)
    requires limit > 0 && n * limit >= |rows|
    ensures Pages(rows, limit, n) == rows
  {
    PagesArePrefixes(rows, limit, n);
  }

  // ---------- counting

  function Image<A(!new), B>(s: set<A>, f: A -> B): set<B> {
    set x | x in s :: f(x)
  }

  /** An injective image has as many elements. */
  lemma {:induction false} ImageCount<A(!new), B>(s: set<A>, f: A -> B)
    requires forall x, y :: x in s && y in s && f(x) == f(y) ==> x == y
    ensures |Image(s, f)| == |s|
    decreases |s|
  {
    if s != {} {
      var x :| x in s;
      ImageCount(s - {x}, f);
      assert Image(s, f) == Image(s - {x}, f) + {f(x)};
    }
  }
}
