/**
 * The menu items list: the Menu-type inventory items followed by three
 * fixed menu items, less the ones deleted on the page, narrowed by a
 * search over name, id and category.
 */
module MenuItems {
  import opened Lists
  import opened Domain
  import Filters

  datatype MenuRow = MenuRow(id: string, name: string, category: string, active: bool, imageSrc: string)

  /** A Menu-type inventory item as a row: always active, with the thumbnail. */
  function FromInventory(i: InventoryItem, thumb: string): (r: MenuRow)
    ensures r.id == i.id && r.name == i.name && r.category == i.category
    ensures r.active && r.imageSrc == thumb
  {
    MenuRow(i.id, i.name, i.category, true, thumb)
  }

  /** The three menu items the page always lists. */
  function Fixtures(thumb: string): (r: seq<MenuRow>)
    ensures |r| == 3 && r[0].active && r[1].active && !r[2].active
  {
    [MenuRow("MENU-001", "Classic Cheeseburger", "Mains", true, thumb),
     MenuRow("MENU-002", "Caesar Salad", "Salads", true, thumb),
     MenuRow("MENU-003", "Chocolate Lava Cake", "Desserts", false, thumb)]
  }

  function MenuInventory(inventory: seq<InventoryItem>): (r: seq<InventoryItem>)
    ensures forall i :: i in r <==> i in inventory && i.itemType == Menu
  {
    Filter(inventory, (i: InventoryItem) => i.itemType == Menu)
  }

  /** The inventory rows, in inventory order, then the fixtures. */
  function Base(inventory: seq<InventoryItem>, thumb: string): (r: seq<MenuRow>)
    ensures |r| == |MenuInventory(inventory)| + 3
    ensures forall j :: 0 <= j < |MenuInventory(inventory)| ==> r[j] == FromInventory(MenuInventory(inventory)[j], thumb)
    ensures r[|r| - 3..] == Fixtures(thumb)
  {
    var menu := MenuInventory(inventory);
    seq(|menu|, j requires 0 <= j < |menu| => FromInventory(menu[j], thumb)) + Fixtures(thumb)
  }

  function Haystack(r: MenuRow): string
  {
    r.name + " " + r.id + " " + r.category
  }

  function NotDeleted(deletedIds: set<string>): MenuRow -> bool
  {
    (x: MenuRow) => x.id !in deletedIds
  }

  function MatchesQuery(query: string): MenuRow -> bool
  {
    (x: MenuRow) => Filters.Matches(query, Haystack(x))
  }

  function Listed(deletedIds: set<string>, query: string): MenuRow -> bool
  {
    (x: MenuRow) => x.id !in deletedIds && Filters.Matches(query, Haystack(x))
  }

  /** `menuItems`. */
  function MenuList(inventory: seq<InventoryItem>, deletedIds: set<string>, q: string, thumb: string): (r: seq<MenuRow>)
    ensures forall x :: x in r ==> x.id !in deletedIds
    ensures forall x :: x in r <==> x in Base(inventory, thumb) && x.id !in deletedIds
                                    && Filters.Matches(Filters.Query(q), Haystack(x))
    ensures Filters.Query(q) == [] ==> r == Filter(Base(inventory, thumb), NotDeleted(deletedIds))
    ensures IsSubsequence(r, Base(inventory, thumb))
  {
    var query := Filters.Query(q);
    FilterFilterIsSubsequence(Base(inventory, thumb), NotDeleted(deletedIds), MatchesQuery(query),
                              Listed(deletedIds, query));
    Filter(Filter(Base(inventory, thumb), NotDeleted(deletedIds)), MatchesQuery(query))
  }

  /** The page's state: the search text and the ids deleted so far. */
  class MenuItemsPage {
    var q: string
    var deletedIds: set<string>

    constructor ()
      ensures q == "" && deletedIds == {}
    {
      q, deletedIds := "", {};
    }

    /** `handleDelete`: the id is added only when the deletion is confirmed. */
    method Delete(id: string, confirmed: bool)
      modifies this`deletedIds
      ensures deletedIds == if confirmed then old(deletedIds) + {id} else old(deletedIds)
      ensures old(deletedIds) <= deletedIds
    {
      if confirmed {
        deletedIds := deletedIds + {id};
      }
    }
  }

  /** With nothing deleted and an empty search, the list closes with the three fixtures. */
  lemma FixturesListed(inventory: seq<InventoryItem>, q: string, thumb: string)
    requires Filters.Query(q) == []
    ensures var r := MenuList(inventory, {}, q, thumb);
      |r| >= 3 && r[|r| - 3..] == Fixtures(thumb) && !r[|r| - 1].active
  {
    var b := Base(inventory, thumb);
    assert forall j :: 0 <= j < |b| ==> NotDeleted({})(b[j]);
    assert Filter(b, NotDeleted({})) == b;
    assert MenuList(inventory, {}, q, thumb) == b;
  }

  /** A confirmed delete removes the row from the list whatever the search. */
  lemma DeletedIsNotListed(inventory: seq<InventoryItem>, deletedIds: set<string>, id: string, q: string, thumb: string)
    ensures forall x :: x in MenuList(inventory, deletedIds + {id}, q, thumb) ==> x.id != id
  {
  }
}
