/** The prep items list: the Prep-type inventory items, narrowed by a search. */
module PrepItems {
  import opened Lists
  import opened Domain
  import Filters

  function Haystack(i: InventoryItem): string
  {
    i.name + " " + i.id + " " + i.sku + " " + i.category
  }

  predicate IsPrep(i: InventoryItem)
  {
    i.itemType == Prep
  }

  function MatchesQuery(query: string): InventoryItem -> bool
  {
    (i: InventoryItem) => Filters.Matches(query, Haystack(i))
  }

  function IsPrepMatching(query: string): InventoryItem -> bool
  {
    (i: InventoryItem) => IsPrep(i) && Filters.Matches(query, Haystack(i))
  }

  /** `prep`: Prep items first, then the search over name, id, sku and category. */
  function PrepList(inventory: seq<InventoryItem>, q: string): (r: seq<InventoryItem>)
    ensures forall x :: x in r ==> x.itemType == Prep
    ensures forall x :: x in r <==> x in inventory && x.itemType == Prep && Filters.Matches(Filters.Query(q), Haystack(x))
    ensures Filters.Query(q) == [] ==> r == Filter(inventory, IsPrep)
    ensures IsSubsequence(r, inventory)
  {
    var query := Filters.Query(q);
    FilterFilterIsSubsequence(inventory, IsPrep, MatchesQuery(query), IsPrepMatching(query));
    Filter(Filter(inventory, IsPrep), MatchesQuery(query))
  }

  /** Both filters at once: one pass testing the type and the search. */
  lemma PrepListIsOneFilter(inventory: seq<InventoryItem>, q: string)
    ensures PrepList(inventory, q) == Filter(inventory, IsPrepMatching(Filters.Query(q)))
  {
    var query := Filters.Query(q);
    FilterFilterIsSubsequence(inventory, IsPrep, MatchesQuery(query), IsPrepMatching(query));
  }
}
