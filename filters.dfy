/**
 * The two list filters the pages share: a free-text search box and an
 * inclusive date range whose upper end covers the whole day.
 *
 * `new Date(s).getTime()` is a parameter `timeOf` of the callers; it gives
 * `None` where JavaScript gives `NaN`. An empty date box gives no bound
 * (`null`); a bound or a date that is `NaN` makes both comparisons false,
 * so it excludes nothing either, and `None` stands for both.
 */
module Filters {
  import opened Wrappers
  import opened Text

  /** One day in milliseconds: `24 * 60 * 60 * 1000`. */
  const DayMs: int := 86400000

  /** The search box and the two date boxes of a list page. */
  datatype Criteria = Criteria(search: string, dateFrom: string, dateTo: string)

  /** The Clear button: the search and both dates go back to empty. */
  function Clear(c: Criteria): (r: Criteria)
    ensures r.search == [] && r.dateFrom == [] && r.dateTo == []
  {
    Criteria("", "", "")
  }

  /** `search.trim().toLowerCase()`. */
  function Query(search: string): (q: string)
    ensures q == [] <==> forall k :: 0 <= k < |search| ==> IsSpace(search[k])
  {
    TrimEmptyIff(search);
    ToLower(Trim(search))
  }

  /** `!q || haystack.toLowerCase().includes(q)`. */
  function Matches(q: string, haystack: string): (b: bool)
    ensures q == [] ==> b
    ensures b ==> |q| <= |haystack|
  {
    q == [] || Includes(ToLower(haystack), q)
  }

  /** `box ? new Date(box).getTime() : null`. */
  function Bound(box: string, timeOf: string -> Option<int>): (b: Option<int>)
    ensures box == [] ==> b == None
  {
    if box == [] then None else timeOf(box)
  }

  /** Kept by `if (from !== null && t < from) return false; if (to !== null && t > to + day - 1) return false`. */
  function InRange(t: Option<int>, from: Option<int>, to: Option<int>): (b: bool)
    ensures t == None ==> b
    ensures from == None && to == None ==> b
  {
    && !(from.Some? && t.Some? && t.value < from.value)
    && !(to.Some? && t.Some? && t.value > to.value + DayMs - 1)
  }

  /** With both bounds and a real date: `from <= t` and `t` falls no later than the end of the `to` day. */
  lemma InRangeIff(t: int, from: int, to: int)
    ensures InRange(Some(t), Some(from), Some(to)) <==> from <= t < to + DayMs
  {
  }

  /** No bound excludes nothing. */
  lemma InRangeUnbounded(t: Option<int>)
    ensures InRange(t, None, None)
  {
  }

  /** An empty search box matches every haystack. */
  lemma EmptySearchMatches(search: string, haystack: string)
    requires forall k :: 0 <= k < |search| ==> IsSpace(search[k])
    ensures Matches(Query(search), haystack)
  {
  }

  /** The search ignores the case of the haystack's ASCII letters. */
  lemma MatchesIgnoresCase(q: string, haystack: string)
    ensures Matches(q, haystack) <==> Matches(q, ToLower(haystack))
  {
    ToLowerIdempotent(haystack);
  }

  /** Cleared criteria let every record through, whatever its text and date. */
  lemma ClearedKeepsAll(c: Criteria, haystack: string, t: Option<int>, timeOf: string -> Option<int>)
    ensures var k := Clear(c);
      Matches(Query(k.search), haystack) && InRange(t, Bound(k.dateFrom, timeOf), Bound(k.dateTo, timeOf))
  {
    assert Query("") == [];
  }
}
