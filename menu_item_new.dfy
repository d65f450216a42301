/**
 * The menu item builder: it reads and edits one draft of the menu store
 * that rebuilds its state, costs its lines against the selling price, and
 * offers the raw and prep inventory items to add as lines.
 */
module MenuItemNew {
  import opened Wrappers
  import opened Text
  import opened Lists
  import opened Domain
  import opened Money
  import opened MenuTypes
  import MenuStore
  import RecipeDetail
  import Filters

  /** `getPreferredVendorIdForSku`: the first vendor whose catalogue has the sku, else "-". */
  function PreferredVendorId(vendors: seq<Vendor>, sku: string): (r: string)
    ensures (forall j :: 0 <= j < |vendors| ==> !Any(vendors[j].products, (p: VendorProduct) => p.sku == sku)) ==> r == "-"
    ensures (exists j :: 0 <= j < |vendors| && Any(vendors[j].products, (p: VendorProduct) => p.sku == sku)) ==>
      exists k :: 0 <= k < |vendors| && r == vendors[k].id
        && Any(vendors[k].products, (p: VendorProduct) => p.sku == sku)
        && forall j :: 0 <= j < k ==> !Any(vendors[j].products, (p: VendorProduct) => p.sku == sku)
  {
    match Find(vendors, (v: Vendor) => Any(v.products, (p: VendorProduct) => p.sku == sku))
    case None => "-"
    case Some(v) => v.id
  }

  predicate RawOrPrep(i: InventoryItem)
  {
    i.itemType == Raw || i.itemType == Prep
  }

  function PickerText(i: InventoryItem): string
  {
    i.name + " " + i.id + " " + i.sku + " " + i.category + " " + i.itemType.Label()
  }

  /** `pickables`: the raw and prep items, narrowed by the picker query when there is one. */
  function Pickables(inventory: seq<InventoryItem>, pickerQ: string): (r: seq<InventoryItem>)
    ensures forall i :: i in r ==> RawOrPrep(i)
    ensures forall i :: i in r <==> i in inventory && RawOrPrep(i) && Filters.Matches(Filters.Query(pickerQ), PickerText(i))
    ensures Filters.Query(pickerQ) == [] ==> r == Filter(inventory, RawOrPrep)
  {
    var q := Filters.Query(pickerQ);
    Filter(Filter(inventory, RawOrPrep), (i: InventoryItem) => q == [] || Includes(ToLower(PickerText(i)), q))
  }

  /** The picker lists at most the first thirty of them. */
  function Listed(pickables: seq<InventoryItem>): (r: seq<InventoryItem>)
    ensures |r| <= 30 && |r| <= |pickables| && r == pickables[..|r|]
    ensures |pickables| <= 30 ==> r == pickables
  {
    Take(pickables, 30)
  }

  function LineCost(l: Line): real
  {
    l.qty * l.unitCost
  }

  /**
   * `totalCost`: 0 without a draft, else the rounded sum of qty × unitCost
   * over its lines; a stored record without lines makes `draft.lines.reduce`
   * throw.
   */
  function TotalCost(draft: Option<DraftFields>): (r: Result<real>)
    ensures draft.None? ==> r == Ok(0.0)
    ensures draft.Some? && draft.value.lines.None? ==> r.Threw?
    ensures draft.Some? && draft.value.lines.Some? ==>
      var ls := draft.value.lines.value;
      r.Ok? && -0.005 <= r.value - SumOf(ls, LineCost) <= 0.005 && Round2(r.value) == r.value
  {
    match draft
    case None => Ok(0.0)
    case Some(d) =>
      match d.lines
      case None => Threw("TypeError: draft.lines is undefined")
      case Some(ls) =>
        Round2Idempotent(SumOf(ls, LineCost));
        Ok(Round2(SumOf(ls, LineCost)))
  }

  /** `draft?.sellingPrice || 0`. */
  function SellingPrice(draft: Option<DraftFields>): (r: real)
    ensures draft.None? || draft.value.sellingPrice.None? ==> r == 0.0
    ensures draft.Some? && draft.value.sellingPrice.Some? ==> r == draft.value.sellingPrice.value
  {
    if draft.Some? && draft.value.sellingPrice.Some? then draft.value.sellingPrice.value else 0.0
  }

  /** `sellingPrice > 0 ? (totalCost / sellingPrice) * 100 : 0`. */
  function FoodCostPercent(totalCost: real, sellingPrice: real): (r: real)
    ensures sellingPrice > 0.0 ==> r * sellingPrice == totalCost * 100.0
    ensures sellingPrice <= 0.0 ==> r == 0.0
  {
    if sellingPrice > 0.0 then totalCost / sellingPrice * 100.0 else 0.0
  }

  /** The builder's percentage is the recipe page's with a yield of one: it does not divide by a yield. */
  lemma FoodCostIgnoresYield(totalCost: real, sellingPrice: real)
    ensures FoodCostPercent(totalCost, sellingPrice)
         == RecipeDetail.FoodCostPercent(RecipeDetail.CostPerPortion(totalCost, 1.0), sellingPrice)
  {
  }

  /** `isNew`: the id starts with "MENU-". */
  predicate IsNew(draftId: string)
  {
    StartsWith(draftId, "MENU-")
  }

  /** Every created draft counts as new, and so do the fixture ids such as MENU-001. */
  lemma IsNewCases(now: nat)
    ensures IsNew(DraftId(now))
    ensures IsNew("MENU-001")
  {
    var id := DraftId(now);
    assert id[..5] == id[..11][..5];
  }

  /** The colour of the percentage: above 35 red, above 28 amber, else emerald. */
  function Tone(p: real): RecipeDetail.Tone
  {
    if p > 35.0 then RecipeDetail.Red else if p > 28.0 then RecipeDetail.Amber else RecipeDetail.Emerald
  }

  /** The builder colours a percentage as the recipe page colours its texts. */
  lemma ToneMatchesRecipePage(p: real)
    ensures Tone(p) == RecipeDetail.TextTone(p)
  {
  }

  /** The line a picked inventory item becomes. */
  function PickedLine(inv: InventoryItem, vendors: seq<Vendor>, lineId: string, thumb: string): (l: Line)
    ensures l.qty == 1.0 && l.unitCost == inv.cost && l.unit == inv.unit && l.inventoryItemId == inv.id
    ensures l.vendorId == PreferredVendorId(vendors, inv.sku)
  {
    Line(lineId, inv.id, inv.name, PreferredVendorId(vendors, inv.sku), inv.cost, 1.0, inv.unit, Some(thumb))
  }

  /** Picking an item appends exactly that one line to a whole draft. */
  lemma PickAddsOneLine(s: MenuStore.Drafts, draftId: string, inv: InventoryItem, vendors: seq<Vendor>, lineId: string, thumb: string)
    requires draftId in s && MenuStore.Whole(s[draftId])
    ensures var r := MenuStore.AddLine(s, draftId, PickedLine(inv, vendors, lineId, thumb));
      r.Ok? && draftId in r.value && r.value[draftId].lines.Some?
      && |r.value[draftId].lines.value| == |s[draftId].lines.value| + 1
      && r.value[draftId].lines.value[|s[draftId].lines.value|] == PickedLine(inv, vendors, lineId, thumb)
  {
  }

  /** A quantity edit: `updateLine(draftId, l.id, { qty: v < 0 ? 0 : v })`. */
  function QtyEdit(s: MenuStore.Drafts, draftId: string, lineId: string, v: real): (r: Result<MenuStore.Drafts>)
    ensures draftId in s && MenuStore.Whole(s[draftId]) ==>
      var ls := s[draftId].lines.value;
      && r.Ok? && draftId in r.value && r.value[draftId].lines.Some?
      && var ls' := r.value[draftId].lines.value;
      && |ls'| == |ls|
      && forall j :: 0 <= j < |ls| ==>
           if ls[j].id == lineId then ls'[j] == ls[j].(qty := ClampNonNegative(v)) && ls'[j].qty >= 0.0
           else ls'[j] == ls[j]
  {
    MenuStore.UpdateLine(s, draftId, lineId, LinePatch(None, None, None, None, None, Some(ClampNonNegative(v)), None, None))
  }

  /** The inventory item with that id, if any: `MOCK_INVENTORY.find(i => i.id === id)`. */
  function InventoryWithId(inventory: seq<InventoryItem>, id: string): (r: Option<InventoryItem>)
    ensures r.Some? ==> r.value in inventory && r.value.id == id
    ensures r.None? <==> forall j :: 0 <= j < |inventory| ==> inventory[j].id != id
  {
    Find(inventory, (i: InventoryItem) => i.id == id)
  }

  /** The one line a draft loaded from an inventory item starts with. */
  function InventoryDraftLine(thumb: string): Line
  {
    Line("line-1", "ITM-003", "Burger Patty (Prep)", "-", 1.85, 1.0, "EA", Some(thumb))
  }

  /** The hard-coded menu items MENU-001 to MENU-003; every other id has none. */
  function KnownMenuItem(id: string, thumb: string): (r: Option<Draft>)
    ensures r.Some? <==> id == "MENU-001" || id == "MENU-002" || id == "MENU-003"
    ensures r.Some? ==> r.value.id == id
  {
    if id == "MENU-001" then
      Some(MenuTypes.Draft.Draft("MENU-001", "Classic Cheeseburger", "Mains", true, None, 14.0, [
        Line("l1", "ITM-003", "Burger Patty (Prep)", "-", 1.85, 1.0, "EA", Some(thumb)),
        Line("l2", "ITM-005", "Ground Beef 80/20", "V-001", 4.25, 0.25, "LB", Some(thumb))]))
    else if id == "MENU-002" then
      Some(MenuTypes.Draft.Draft("MENU-002", "Caesar Salad", "Salads", true, None, 12.0, [
        Line("l1", "ITM-006", "Romaine Lettuce", "V-002", 1.5, 0.5, "HD", Some(thumb))]))
    else if id == "MENU-003" then
      Some(MenuTypes.Draft.Draft("MENU-003", "Chocolate Lava Cake", "Desserts", true, None, 9.0, []))
    else None
  }

  /** Whether the loading effect runs: no draft yet, a non-empty id, and not a "MENU-DRAFT" id. */
  predicate Loads(s: MenuStore.Drafts, id: string)
  {
    id !in s && id != [] && !StartsWith(id, "MENU-DRAFT")
  }

  /**
   * The loading effect: with no draft under a non-empty id that does not
   * start with "MENU-DRAFT", an inventory item with that id, or else one of
   * the hard-coded menu items, is stored as a whole, active draft.
   */
  function Hydrate(s: MenuStore.Drafts, id: string, inventory: seq<InventoryItem>, thumb: string): (r: MenuStore.Drafts)
    ensures !Loads(s, id) ==> r == s
    ensures forall k :: k in s ==> k in r && r[k] == s[k]
    ensures r.Keys <= s.Keys + {id}
    ensures Loads(s, id) ==>
      (id in r <==> InventoryWithId(inventory, id).Some? || KnownMenuItem(id, thumb).Some?)
    ensures id in r && id !in s ==> MenuStore.Whole(r[id]) && r[id].active == Some(true) && r[id].imageSrc.None?
    ensures Loads(s, id) && InventoryWithId(inventory, id).Some? ==>
      var item := InventoryWithId(inventory, id).value;
      && r[id].id == Some(id) && r[id].name == Some(item.name) && r[id].category == Some(item.category)
      && r[id].sellingPrice == Some(18.5) && r[id].lines == Some([InventoryDraftLine(thumb)])
    ensures Loads(s, id) && InventoryWithId(inventory, id).None? && KnownMenuItem(id, thumb).Some? ==>
      var d := KnownMenuItem(id, thumb).value;
      && r[id].id == Some(id) && r[id].name == Some(d.name) && r[id].category == Some(d.category)
      && r[id].sellingPrice == Some(d.sellingPrice) && r[id].lines == Some(d.lines)
  {
    if !Loads(s, id) then s
    else
      match InventoryWithId(inventory, id)
      case Some(existing) =>
        s[id := DraftFields(Some(existing.id), Some(existing.name), Some(existing.category), Some(true), None,
                            Some(18.5), Some([InventoryDraftLine(thumb)]))]
      case None =>
        match KnownMenuItem(id, thumb)
        case None => s
        case Some(d) =>
          s[id := DraftFields(Some(d.id), Some(d.name), Some(d.category), Some(true), None, Some(d.sellingPrice), Some(d.lines))]
  }

  /**
   * Opening MENU-001 on an empty store, with no inventory item of that id,
   * loads the cheeseburger at 14.00 with its two lines.
   */
  lemma HydrateCheeseburger(inventory: seq<InventoryItem>, thumb: string)
    requires forall j :: 0 <= j < |inventory| ==> inventory[j].id != "MENU-001"
    ensures "MENU-001" in Hydrate(map[], "MENU-001", inventory, thumb)
    ensures Hydrate(map[], "MENU-001", inventory, thumb)["MENU-001"].sellingPrice == Some(14.0)
    ensures Hydrate(map[], "MENU-001", inventory, thumb)["MENU-001"].name == Some("Classic Cheeseburger")
  {
    assert !StartsWith("MENU-001", "MENU-DRAFT");
  }
}
