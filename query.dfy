/** The store's collection-query endpoint. The server evaluates the filter
    over the collection in its own order and answers with a status code; the
    model keeps that order as the order of the collection sequence. */
module Query {

  /** One query endpoint: the collection behind it and the status code it
      answers with, or a transport failure (an exception in the client). */
  datatype Endpoint<T> = Endpoint(status: int, collection: seq<T>) | Unreachable

  const StatusOk := 200

  /** The query is answered with status 200; every other outcome is a
      failure the caller treats as "no results". */
  predicate Succeeds<T>(e: Endpoint<T>)
  {
    e.Endpoint? && e.status == StatusOk
  }

  /** The server-side filter: the rows that `keep` admits, in order. */
  function Select<T(==)>(rows: seq<T>, keep: T -> bool): (r: seq<T>)
    ensures |r| <= |rows|
    ensures forall x :: x in r ==> x in rows && keep(x)
    ensures forall i :: 0 <= i < |rows| && keep(rows[i]) ==> rows[i] in r
  {
    if rows == [] then []
    else if keep(rows[0]) then [rows[0]] + Select(rows[1..], keep)
    else Select(rows[1..], keep)
  }

  /** The `results` list of a query, or `[]` when the query fails. */
  function Results<T(==)>(e: Endpoint<T>, keep: T -> bool): (r: seq<T>)
    ensures !Succeeds(e) ==> r == []
    ensures forall x :: x in r ==> Succeeds(e) && x in e.collection && keep(x)
    ensures Succeeds(e) ==> forall x :: x in e.collection && keep(x) ==> x in r
  {
    if Succeeds(e) then Select(e.collection, keep) else []
  }

  /** Row `i` is admitted and no earlier row is. */
  ghost predicate IsFirstKept<T>(rows: seq<T>, keep: T -> bool, i: int)
  {
    0 <= i < |rows| && keep(rows[i]) && forall j :: 0 <= j < i ==> !keep(rows[j])
  }

  /** The first result of a filter is the first admitted row of the
      collection: every row before it is rejected. */
  lemma {:induction false} SelectHeadIsFirst<T>(rows: seq<T>, keep: T -> bool)
    requires Select(rows, keep) != []
    ensures exists i :: IsFirstKept(rows, keep, i) && rows[i] == Select(rows, keep)[0]
  {
    if !keep(rows[0]) {
      SelectHeadIsFirst(rows[1..], keep);
      var k :| IsFirstKept(rows[1..], keep, k) && rows[1..][k] == Select(rows[1..], keep)[0];
      assert IsFirstKept(rows, keep, k + 1);
    }
  }

  /** The filter keeps collection order: filtering two consecutive parts of
      a collection gives the two filtered parts one after the other. */
  lemma {:induction false} SelectAppend<T>(a: seq<T>, b: seq<T>, keep: T -> bool)
    ensures Select(a + b, keep) == Select(a, keep) + Select(b, keep)
  {
    if a == [] {
      assert a + b == b;
    } else {
      var ab := a + b;
      assert ab != [] && ab[0] == a[0] && ab[1..] == a[1..] + b;
      SelectAppend(a[1..], b, keep);
      if keep(a[0]) {
        assert Select(ab, keep) == [a[0]] + Select(a[1..] + b, keep);
        assert Select(a, keep) == [a[0]] + Select(a[1..], keep);
      } else {
        assert Select(ab, keep) == Select(a[1..] + b, keep);
        assert Select(a, keep) == Select(a[1..], keep);
      }
    }
  }

  /** A one-row collection yields that row exactly when it is admitted. */
  lemma SelectSingle<T>(x: T, keep: T -> bool)
    ensures Select([x], keep) == if keep(x) then [x] else []
  {
    assert [x][1..] == [];
  }
}
