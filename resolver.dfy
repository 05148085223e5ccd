/** Finding the weekly or monthly summary page for a (title, year) key. The
    weekly and the monthly lookup are one algorithm run against two
    collections. */
module Resolver {

  import opened Wrappers
  import opened Workspace
  import opened Query

  /** The compound filter: exact title equality and exact year equality.
      A record whose Year is empty matches no year. */
  predicate Matches(rec: Record, title: string, year: int)
  {
    rec.title == title && rec.year == Some(year)
  }

  /** Record `i` matches and no earlier record does. */
  predicate IsFirstMatch(rows: seq<Record>, i: int, title: string, year: int)
    requires 0 <= i < |rows|
  {
    Matches(rows[i], title, year) && forall j :: 0 <= j < i ==> !Matches(rows[j], title, year)
  }

  /** The id of the first record of the query's results, or `None` when the
      query fails or has no results. */
  function FindPageWithYear(e: Endpoint<Record>, title: string, year: int): (r: Option<string>)
    ensures r.Some? ==>
      Succeeds(e) &&
      exists i :: 0 <= i < |e.collection| && IsFirstMatch(e.collection, i, title, year) && e.collection[i].id == r.value
    ensures r.None? <==>
      !Succeeds(e) || forall rec :: rec in e.collection ==> !Matches(rec, title, year)
  {
    var keep := (rec: Record) => Matches(rec, title, year);
    var results := Results(e, keep);
    if results != [] then
      SelectHeadIsFirst(e.collection, keep);
      Some(results[0].id)
    else
      None
  }

  /** The lookup yields a truthy id: the query succeeds and the first
      matching record has a non-empty id. */
  ghost predicate LinkFound(e: Endpoint<Record>, title: string, year: int)
  {
    Succeeds(e) &&
    exists i :: 0 <= i < |e.collection| && IsFirstMatch(e.collection, i, title, year) && e.collection[i].id != ""
  }

  /** With exactly one record carrying the key, the lookup returns its id,
      whatever records differ from it in title only or in year only. */
  lemma UniqueMatchResolves(e: Endpoint<Record>, k: int, title: string, year: int)
    requires Succeeds(e) && 0 <= k < |e.collection|
    requires Matches(e.collection[k], title, year)
    requires forall j :: 0 <= j < |e.collection| && j != k ==> !Matches(e.collection[j], title, year)
    ensures FindPageWithYear(e, title, year) == Some(e.collection[k].id)
  {
  }
}
