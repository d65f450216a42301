/**
 * The waste entry page: a form that picks an inventory item of one type,
 * previews the cost of the wasted quantity, and records entries in a list
 * with a summary for the form's date.
 */
module Waste {
  import opened Wrappers
  import opened Lists
  import opened Domain
  import opened Money
  import opened Ids

  datatype Reason = Expired | SpilledDamaged | PreparationMistake | Overproduction | Returned
  {
    function Label(): string
    {
      match this
      case Expired => "Expired"
      case SpilledDamaged => "Spilled/Damaged"
      case PreparationMistake => "Preparation Mistake"
      case Overproduction => "Overproduction"
      case Returned => "Returned"
    }
  }

  /** One recorded waste entry. */
  datatype WasteRow = WasteRow(
    id: string,
    date: string,
    time: string,
    wasteType: ItemType,
    itemId: string,
    itemName: string,
    unit: string,
    quantity: real,
    reason: Reason,
    cost: real,
    onHandAtTime: real)

  // ------------------------------------------------------------ the form

  /** `filteredItems`: the inventory items of the selected type. */
  function FilteredItems(inventory: seq<InventoryItem>, t: ItemType): (r: seq<InventoryItem>)
    ensures forall i :: i in r <==> i in inventory && i.itemType == t
    ensures IsSubsequence(r, inventory)
  {
    FilterIsSubsequence(inventory, (i: InventoryItem) => i.itemType == t);
    Filter(inventory, (i: InventoryItem) => i.itemType == t)
  }

  /** `selectedItem`: the inventory item with the chosen id, if any. */
  function SelectedItem(inventory: seq<InventoryItem>, itemId: string): (r: Option<InventoryItem>)
    ensures r.None? <==> forall j :: 0 <= j < |inventory| ==> inventory[j].id != itemId
    ensures r.Some? ==> r.value in inventory && r.value.id == itemId
  {
    Find(inventory, (i: InventoryItem) => i.id == itemId)
  }

  /** `unitOptions`: nothing before an item is chosen, then only that item's unit. */
  function UnitOptions(selected: Option<InventoryItem>): (r: seq<string>)
    ensures selected.None? <==> r == []
    ensures selected.Some? ==> r == [selected.value.unit]
  {
    if selected.None? then [] else [selected.value.unit]
  }

  /** The cost of a wasted quantity, rounded to cents. */
  function ExtendedCost(quantity: real, unitCost: real): (r: real)
    ensures -0.005 <= r - quantity * unitCost <= 0.005
    ensures Round2(r) == r
  {
    Round2Idempotent(quantity * unitCost);
    Round2(quantity * unitCost)
  }

  datatype Preview = Preview(canShow: bool, extendedCost: real)

  /** `costPreview`: shown only with an item, a unit and a positive quantity. */
  function CostPreview(selected: Option<InventoryItem>, unit: string, quantity: real): (r: Preview)
    ensures r.canShow <==> selected.Some? && unit != [] && quantity > 0.0
    ensures !r.canShow ==> r.extendedCost == 0.0
    ensures r.canShow ==> -0.005 <= r.extendedCost - quantity * selected.value.cost <= 0.005
  {
    if selected.None? || unit == [] || quantity <= 0.0 then Preview(false, 0.0)
    else Preview(true, ExtendedCost(quantity, selected.value.cost))
  }

  /**
   * `canAdd`. The reason is always one of the offered ones, so its test
   * never fails and does not appear here.
   */
  predicate CanAdd(selected: Option<InventoryItem>, unit: string, quantity: real, date: string, time: string)
  {
    selected.Some? && unit != [] && quantity > 0.0 && date != [] && time != []
  }

  /** The preview is shown for every entry that may be added. */
  lemma CanAddShowsPreview(selected: Option<InventoryItem>, unit: string, quantity: real, date: string, time: string)
    requires CanAdd(selected, unit, quantity, date, time)
    ensures CostPreview(selected, unit, quantity).canShow
  {
  }

  // ------------------------------------------------------------- the ids

  /** `WST-${String(n).padStart(4, "0")}`. */
  function WasteId(n: nat): string
  {
    Numbered("WST-", n, 4)
  }

  function RowIds(rows: seq<WasteRow>): seq<string>
  {
    IdsOf(rows, (r: WasteRow) => r.id)
  }

  /** The id the page gives a new entry: the row count plus one. */
  function CountBasedWasteId(rows: seq<WasteRow>): string
  {
    WasteId(|rows| + 1)
  }

  /**
   * Deleting WST-0001 from the two fixture rows leaves WST-0002 alone; the
   * next entry is then given WST-0002 again, and a delete by id removes both.
   */
  lemma CountBasedWasteIdRepeats(fixture: WasteRow, added: WasteRow)
    requires fixture.id == WasteId(2)
    requires added.id == CountBasedWasteId([fixture])
    ensures added.id == fixture.id
    ensures Filter([added, fixture], (r: WasteRow) => r.id != WasteId(2)) == []
  {
    FilterPrepend(added, [fixture], (r: WasteRow) => r.id != WasteId(2));
    FilterPrepend(fixture, [], (r: WasteRow) => r.id != WasteId(2));
  }

  /** The id a new entry should get: one above every existing entry number. */
  function FreshWasteId(rows: seq<WasteRow>): (id: string)
    ensures forall i :: 0 <= i < |rows| ==> rows[i].id != id
  {
    NextAboveIsNew(RowIds(rows), "WST", 4);
    assert "WST" + "-" == "WST-";
    WasteId(NextAbove(RowIds(rows)))
  }

  /** With no gaps from deletes, the fresh id is the count-based one. */
  lemma FreshWasteIdWithoutGaps(rows: seq<WasteRow>)
    requires forall i :: 0 <= i < |rows| ==> rows[i].id == WasteId(|rows| - i)
    ensures FreshWasteId(rows) == CountBasedWasteId(rows)
  {
    var ids := RowIds(rows);
    var xs := Suffixes(ids);
    CountDownSuffixes(rows);
    if |rows| > 0 {
      MaxWithZeroIs(xs, 0);
    }
    assert NextAbove(ids) == MaxWithZero(xs) + 1;
  }

  lemma CountDownSuffixes(rows: seq<WasteRow>)
    requires forall i :: 0 <= i < |rows| ==> rows[i].id == WasteId(|rows| - i)
    ensures var xs := Suffixes(RowIds(rows)); forall i :: 0 <= i < |xs| ==> xs[i] == |rows| - i
  {
    var xs := Suffixes(RowIds(rows));
    forall i | 0 <= i < |rows| ensures xs[i] == |rows| - i {
      var n: nat := |rows| - i;
      var id := rows[i].id;
      assert id == WasteId(n);
      SuffixOfWasteId(n);
      assert xs[i] == SuffixNumber(id);
    }
  }

  lemma SuffixOfWasteId(n: nat)
    ensures SuffixNumber(WasteId(n)) == n
  {
    assert "WST" + "-" == "WST-";
    NumberedSuffix("WST", n, 4);
  }

  // ------------------------------------------------------------ summary

  predicate OnDate(r: WasteRow, date: string)
  {
    r.date == date
  }

  function RowCost(r: WasteRow): real
  {
    r.cost
  }

  /** "Today's Summary": the entries recorded for the form's date. */
  function SummaryRows(rows: seq<WasteRow>, date: string): (r: seq<WasteRow>)
    ensures |r| <= |rows|
    ensures forall x :: x in r <==> x in rows && x.date == date
  {
    Filter(rows, (x: WasteRow) => OnDate(x, date))
  }

  /** The number of entries on the form's date: at most the number of entries. */
  function SummaryCount(rows: seq<WasteRow>, date: string): (r: nat)
    ensures r <= |rows|
  {
    |SummaryRows(rows, date)|
  }

  /** The cost of the entries on the form's date: not negative when no entry's cost is. */
  function SummaryCost(rows: seq<WasteRow>, date: string): (r: real)
    ensures (forall x :: x in rows ==> x.cost >= 0.0) ==> r >= 0.0
  {
    var today := SummaryRows(rows, date);
    assert forall j :: 0 <= j < |today| ==> today[j] in today;
    SumOf(today, RowCost)
  }

  /** A new entry counts in the summary exactly when it is for the form's date. */
  lemma SummaryAfterAdd(row: WasteRow, rows: seq<WasteRow>, date: string)
    ensures SummaryCount([row] + rows, date) == SummaryCount(rows, date) + (if row.date == date then 1 else 0)
    ensures SummaryCost([row] + rows, date) == SummaryCost(rows, date) + (if row.date == date then row.cost else 0.0)
  {
    FilterPrepend(row, rows, (x: WasteRow) => OnDate(x, date));
    if row.date == date {
      SumOfPrepend(row, SummaryRows(rows, date), RowCost);
    } else {
      assert [] + SummaryRows(rows, date) == SummaryRows(rows, date);
    }
  }

  /** The entry recorded by the form. */
  function NewRow(id: string, date: string, time: string, t: ItemType, item: InventoryItem,
                  unit: string, quantity: real, reason: Reason): (r: WasteRow)
    ensures r.itemId == item.id && r.onHandAtTime == item.onHand && r.quantity == quantity
    ensures -0.005 <= r.cost - quantity * item.cost <= 0.005
  {
    WasteRow(id, date, time, t, item.id, item.name, unit, quantity, reason,
             ExtendedCost(quantity, item.cost), item.onHand)
  }

  /** An added entry records exactly the cost the preview showed. */
  lemma AddedCostIsPreviewed(id: string, date: string, time: string, t: ItemType, item: InventoryItem,
                             unit: string, quantity: real, reason: Reason)
    requires CanAdd(Some(item), unit, quantity, date, time)
    ensures NewRow(id, date, time, t, item, unit, quantity, reason).cost == CostPreview(Some(item), unit, quantity).extendedCost
  {
  }

  /** The page's state. */
  class WastePage {
    const inventory: seq<InventoryItem>
    var date: string
    var time: string
    var wasteType: ItemType
    var itemId: string
    var unit: string
    var quantity: real
    var reason: Reason
    var rows: seq<WasteRow>

    /** Opened at `today` and `clock`, with the fixture entries. */
    constructor (inventory: seq<InventoryItem>, today: string, clock: string, fixtures: seq<WasteRow>)
      ensures this.inventory == inventory && date == today && time == clock && rows == fixtures
      ensures wasteType == Raw && itemId == "" && unit == "" && quantity == 0.0 && reason == Expired
    {
      this.inventory := inventory;
      date, time, wasteType, itemId := today, clock, Raw, "";
      unit, quantity, reason, rows := "", 0.0, Expired, fixtures;
    }

    /** Changing the type clears the item and the unit. */
    method SetType(t: ItemType)
      modifies this
      ensures wasteType == t && itemId == "" && unit == ""
      ensures date == old(date) && time == old(time) && quantity == old(quantity)
      ensures reason == old(reason) && rows == old(rows)
    {
      wasteType, itemId, unit := t, "", "";
    }

    /** Choosing an item sets the unit to that item's unit, the only one offered. */
    method SelectItem(v: string)
      modifies this
      ensures itemId == v
      ensures SelectedItem(inventory, v).Some? ==> unit == SelectedItem(inventory, v).value.unit
      ensures SelectedItem(inventory, v).Some? ==> UnitOptions(SelectedItem(inventory, itemId)) == [unit]
      ensures SelectedItem(inventory, v).None? ==> unit == old(unit)
      ensures wasteType == old(wasteType) && date == old(date) && time == old(time)
      ensures quantity == old(quantity) && reason == old(reason) && rows == old(rows)
    {
      itemId := v;
      var item := SelectedItem(inventory, v);
      if item.Some? {
        unit := item.value.unit;
      }
    }

    /** The quantity input stores `val < 0 ? 0 : val`. */
    method SetQuantity(v: real)
      modifies this`quantity
      ensures quantity == ClampNonNegative(v)
      ensures quantity >= 0.0 && (v >= 0.0 ==> quantity == v) && (v < 0.0 ==> quantity == 0.0)
    {
      quantity := ClampNonNegative(v);
    }

    /** `resetForm`: the form's defaults, with the clock's time; the date stays. */
    method ResetForm(clock: string)
      modifies this
      ensures wasteType == Raw && itemId == "" && unit == "" && quantity == 0.0 && reason == Expired
      ensures time == clock && date == old(date) && rows == old(rows)
    {
      wasteType, itemId, unit, quantity, reason, time := Raw, "", "", 0.0, Expired, clock;
    }

    /**
     * `handleAdd` with the new entry's id given: nothing happens unless the
     * entry may be added; otherwise the entry goes first and the form is
     * reset, keeping its date.
     */
    method AddAs(id: string, clock: string)
      modifies this
      ensures var sel := SelectedItem(inventory, old(itemId));
        !CanAdd(sel, old(unit), old(quantity), old(date), old(time)) ==>
          rows == old(rows) && itemId == old(itemId) && unit == old(unit) && quantity == old(quantity)
          && wasteType == old(wasteType) && reason == old(reason) && time == old(time) && date == old(date)
      ensures var sel := SelectedItem(inventory, old(itemId));
        CanAdd(sel, old(unit), old(quantity), old(date), old(time)) ==>
          && rows == [NewRow(id, old(date), old(time), old(wasteType), sel.value,
                             old(unit), old(quantity), old(reason))] + old(rows)
          && wasteType == Raw && itemId == "" && unit == "" && quantity == 0.0 && time == clock
          && reason == Expired && date == old(date)
    {
      var sel := SelectedItem(inventory, itemId);
      if CanAdd(sel, unit, quantity, date, time) {
        var row := NewRow(id, date, time, wasteType, sel.value, unit, quantity, reason);
        rows := [row] + rows;
        ResetForm(clock);
      }
    }

    /**
     * `handleAdd` as the page has it: the entry is numbered one past the
     * number of listed entries, which after a delete can be an id that a
     * listed entry already has (`CountBasedWasteIdRepeats`).
     */
    method Add(clock: string)
      modifies this
      ensures var sel := SelectedItem(inventory, old(itemId));
        !CanAdd(sel, old(unit), old(quantity), old(date), old(time)) ==>
          rows == old(rows) && itemId == old(itemId) && unit == old(unit) && quantity == old(quantity)
          && wasteType == old(wasteType) && reason == old(reason) && time == old(time) && date == old(date)
      ensures var sel := SelectedItem(inventory, old(itemId));
        CanAdd(sel, old(unit), old(quantity), old(date), old(time)) ==>
          && rows == [NewRow(CountBasedWasteId(old(rows)), old(date), old(time), old(wasteType), sel.value,
                             old(unit), old(quantity), old(reason))] + old(rows)
          && wasteType == Raw && itemId == "" && unit == "" && quantity == 0.0 && time == clock
          && reason == Expired && date == old(date)
    {
      AddAs(CountBasedWasteId(rows), clock);
    }

    /**
     * The corrected `handleAdd`: the entry is numbered above every listed
     * entry, so no other listed entry has its id.
     */
    method AddFresh(clock: string)
      modifies this
      ensures var sel := SelectedItem(inventory, old(itemId));
        !CanAdd(sel, old(unit), old(quantity), old(date), old(time)) ==>
          rows == old(rows) && itemId == old(itemId) && unit == old(unit) && quantity == old(quantity)
          && wasteType == old(wasteType) && reason == old(reason) && time == old(time) && date == old(date)
      ensures var sel := SelectedItem(inventory, old(itemId));
        CanAdd(sel, old(unit), old(quantity), old(date), old(time)) ==>
          && rows == [NewRow(FreshWasteId(old(rows)), old(date), old(time), old(wasteType), sel.value,
                             old(unit), old(quantity), old(reason))] + old(rows)
          && wasteType == Raw && itemId == "" && unit == "" && quantity == 0.0 && time == clock
          && reason == Expired && date == old(date)
      ensures CanAdd(SelectedItem(inventory, old(itemId)), old(unit), old(quantity), old(date), old(time)) ==>
        forall i :: 1 <= i < |rows| ==> rows[i].id != rows[0].id
    {
      AddAs(FreshWasteId(rows), clock);
    }

    /** `handleDeleteRow`: every entry with that id goes. */
    method DeleteRow(id: string)
      modifies this`rows
      ensures rows == Filter(old(rows), (r: WasteRow) => r.id != id)
      ensures forall r :: r in rows <==> r in old(rows) && r.id != id
    {
      rows := Filter(rows, (r: WasteRow) => r.id != id);
    }
  }
}
