/**
 * The purchasing bills page: the line items of the bill being entered and
 * its totals, the gate on adding a bill, the list of captured bills with
 * its search and date filter, the sum over the date range, and the CSV
 * export.
 */
module Bills {
  import opened Wrappers
  import opened Text
  import opened Lists
  import opened Domain
  import opened Money
  import opened Filters
  import opened Ids
  import Csv

  datatype Category = PettyCash | LocalPurchase | UrgentBuy | Misc
  {
    function Label(): string
    {
      match this
      case PettyCash => "Petty Cash"
      case LocalPurchase => "Local Purchase"
      case UrgentBuy => "Urgent Buy"
      case Misc => "Misc"
    }
  }

  datatype BillItem = BillItem(inventoryItemId: string, name: string, qty: real, unitPrice: real)

  /** `Partial<BillItem>`. */
  datatype ItemPatch = ItemPatch(inventoryItemId: Option<string>, name: Option<string>, qty: Option<real>, unitPrice: Option<real>)

  datatype BillRow = BillRow(
    id: string,
    date: string,
    supplier: string,
    category: Category,
    items: seq<BillItem>,
    gstRate: real,
    subtotal: real,
    gstAmount: real,
    total: real,
    paidBy: string,
    reference: string)

  // --------------------------------------------------------------- totals

  function LineTotal(it: BillItem): real
  {
    it.qty * it.unitPrice
  }

  /** `items.reduce((sum, it) => sum + it.qty * it.unitPrice, 0)`. */
  function Subtotal(items: seq<BillItem>): (r: real)
    ensures (forall j :: 0 <= j < |items| ==> items[j].qty >= 0.0 && items[j].unitPrice >= 0.0) ==> r >= 0.0
  {
    SumOf(items, LineTotal)
  }

  /** `Number(((subtotal * gstRate) / 100).toFixed(2))`. */
  function GstAmount(subtotal: real, gstRate: real): (r: real)
    ensures Round2(r) == r
    ensures -0.005 <= r - subtotal * gstRate / 100.0 <= 0.005
  {
    Round2Idempotent(subtotal * gstRate / 100.0);
    Round2(subtotal * gstRate / 100.0)
  }

  /** `Number((subtotal + gstAmount).toFixed(2))`. */
  function Total(subtotal: real, gstRate: real): (r: real)
    ensures Round2(r) == r
    ensures -0.005 <= r - (subtotal + GstAmount(subtotal, gstRate)) <= 0.005
  {
    Round2Idempotent(subtotal + GstAmount(subtotal, gstRate));
    Round2(subtotal + GstAmount(subtotal, gstRate))
  }

  /** The tax and the total are whole cents, and the total is within a cent of the exact taxed amount. */
  lemma TotalsAreRounded(subtotal: real, gstRate: real)
    ensures Round2(GstAmount(subtotal, gstRate)) == GstAmount(subtotal, gstRate)
    ensures Round2(Total(subtotal, gstRate)) == Total(subtotal, gstRate)
    ensures -0.01 <= Total(subtotal, gstRate) - subtotal * (1.0 + gstRate / 100.0) <= 0.01
  {
    Round2Idempotent(subtotal * gstRate / 100.0);
    Round2Idempotent(subtotal + GstAmount(subtotal, gstRate));
  }

  /** Changing one line changes the subtotal by the difference of the two line totals. */
  lemma SubtotalAfterUpdate(items: seq<BillItem>, i: nat, it: BillItem)
    requires i < |items|
    ensures Subtotal(items[i := it]) == Subtotal(items) - LineTotal(items[i]) + LineTotal(it)
  {
    SumOfUpdate(items, i, it, LineTotal);
  }

  /** `canAddBill`: a date, at least one line, a positive total and a payer. */
  predicate CanAddBill(date: string, items: seq<BillItem>, total: real, paidBy: string)
  {
    date != [] && |items| > 0 && total > 0.0 && paidBy != []
  }

  // ------------------------------------------------------------ bill ids

  /** `BILL-${String(n).padStart(4, "0")}`. */
  function BillId(n: nat): string
  {
    Numbered("BILL-", n, 4)
  }

  function RowIds(rows: seq<BillRow>): seq<string>
  {
    IdsOf(rows, (r: BillRow) => r.id)
  }

  /** The id the page gives a new bill: the row count plus one. */
  function CountBasedBillId(rows: seq<BillRow>): string
  {
    BillId(|rows| + 1)
  }

  /** After a delete, the count-based id can be one a remaining bill already has. */
  lemma CountBasedBillIdRepeats(a: BillRow, b: BillRow)
    requires a.id == BillId(3) && b.id == BillId(2)
    ensures CountBasedBillId([a, b]) == a.id
  {
  }

  /** The id a new bill should get: one above every existing bill number. */
  function FreshBillId(rows: seq<BillRow>): (id: string)
    ensures forall i :: 0 <= i < |rows| ==> rows[i].id != id
  {
    NextAboveIsNew(RowIds(rows), "BILL", 4);
    assert "BILL" + "-" == "BILL-";
    BillId(NextAbove(RowIds(rows)))
  }

  /** With no gaps from deletes, the fresh id is the count-based one. */
  lemma FreshBillIdWithoutGaps(rows: seq<BillRow>)
    requires forall i :: 0 <= i < |rows| ==> rows[i].id == BillId(|rows| - i)
    ensures FreshBillId(rows) == CountBasedBillId(rows)
  {
    var ids := RowIds(rows);
    var xs := Suffixes(ids);
    CountDownSuffixes(rows);
    if |rows| > 0 {
      MaxWithZeroIs(xs, 0);
    }
    assert NextAbove(ids) == MaxWithZero(xs) + 1;
  }

  lemma CountDownSuffixes(rows: seq<BillRow>)
    requires forall i :: 0 <= i < |rows| ==> rows[i].id == BillId(|rows| - i)
    ensures var xs := Suffixes(RowIds(rows)); forall i :: 0 <= i < |xs| ==> xs[i] == |rows| - i
  {
    var xs := Suffixes(RowIds(rows));
    forall i | 0 <= i < |rows| ensures xs[i] == |rows| - i {
      var n: nat := |rows| - i;
      var id := rows[i].id;
      assert id == BillId(n);
      SuffixOfBillId(n);
      assert xs[i] == SuffixNumber(id);
    }
  }

  lemma SuffixOfBillId(n: nat)
    ensures SuffixNumber(BillId(n)) == n
  {
    assert "BILL" + "-" == "BILL-";
    NumberedSuffix("BILL", n, 4);
  }

  // --------------------------------------------------- list and filtering

  /** The text the search box is matched against. */
  function Haystack(r: BillRow): string
  {
    var itemsText := Join(seq(|r.items|, i requires 0 <= i < |r.items| => r.items[i].name), " ");
    r.id + " " + r.supplier + " " + r.category.Label() + " " + itemsText + " " + r.paidBy + " " + r.reference
  }

  predicate InDateRange(r: BillRow, c: Criteria, timeOf: string -> Option<int>)
  {
    InRange(timeOf(r.date), Bound(c.dateFrom, timeOf), Bound(c.dateTo, timeOf))
  }

  predicate Kept(r: BillRow, c: Criteria, timeOf: string -> Option<int>)
  {
    Matches(Query(c.search), Haystack(r)) && InDateRange(r, c, timeOf)
  }

  /** `filteredBills`: the bills that match the search and fall in the date range, in order. */
  function FilteredBills(rows: seq<BillRow>, c: Criteria, timeOf: string -> Option<int>): (r: seq<BillRow>)
    ensures forall b :: b in r <==> b in rows && Kept(b, c, timeOf)
  {
    Filter(rows, (b: BillRow) => Kept(b, c, timeOf))
  }

  lemma FilteredBillsInOrder(rows: seq<BillRow>, c: Criteria, timeOf: string -> Option<int>)
    ensures IsSubsequence(FilteredBills(rows, c, timeOf), rows)
  {
    FilterIsSubsequence(rows, (b: BillRow) => Kept(b, c, timeOf));
  }

  /** `totalInRange`: the sum of the totals of the bills in the date range. */
  function TotalInRange(rows: seq<BillRow>, c: Criteria, timeOf: string -> Option<int>): real
  {
    SumOf(Filter(rows, (b: BillRow) => InDateRange(b, c, timeOf)), (b: BillRow) => b.total)
  }

  /** The range total ignores the search text: it sums what the list would show with the search cleared. */
  lemma TotalInRangeIgnoresSearch(rows: seq<BillRow>, c: Criteria, timeOf: string -> Option<int>)
    ensures TotalInRange(rows, c, timeOf)
         == SumOf(FilteredBills(rows, c.(search := ""), timeOf), (b: BillRow) => b.total)
  {
    var c' := c.(search := "");
    forall i | 0 <= i < |rows|
      ensures InDateRange(rows[i], c, timeOf) == Kept(rows[i], c', timeOf)
    {
      EmptySearchMatches("", Haystack(rows[i]));
    }
    FilterSameOn(rows, (b: BillRow) => InDateRange(b, c, timeOf), (b: BillRow) => Kept(b, c', timeOf));
  }

  /** A bill added in front adds its total when it is in range and nothing otherwise. */
  lemma TotalInRangePrepend(r: BillRow, rows: seq<BillRow>, c: Criteria, timeOf: string -> Option<int>)
    ensures TotalInRange([r] + rows, c, timeOf)
         == (if InDateRange(r, c, timeOf) then r.total else 0.0) + TotalInRange(rows, c, timeOf)
  {
    var p := (b: BillRow) => InDateRange(b, c, timeOf);
    var f := (b: BillRow) => b.total;
    FilterPrepend(r, rows, p);
    if p(r) {
      SumOfPrepend(r, Filter(rows, p), f);
    } else {
      assert [] + Filter(rows, p) == Filter(rows, p);
    }
  }

  /** The item picker: everything for an empty query, else the items whose text contains it. */
  function PickerItems(inventory: seq<InventoryItem>, query: string): (r: seq<InventoryItem>)
    ensures Query(query) == [] ==> r == inventory
    ensures forall i :: i in r <==> i in inventory && Matches(Query(query), i.name + " " + i.id + " " + i.sku + " " + i.category)
  {
    var q := Query(query);
    if q == [] then inventory
    else Filter(inventory, (i: InventoryItem) => Includes(ToLower(i.name + " " + i.id + " " + i.sku + " " + i.category), q))
  }

  /** The picker shows `filteredInventory.slice(0, 30)`: at most thirty matches, in order. */
  function PickerShown(inventory: seq<InventoryItem>, query: string): (r: seq<InventoryItem>)
    ensures |r| <= 30 && |r| <= |PickerItems(inventory, query)| && r == PickerItems(inventory, query)[..|r|]
    ensures |PickerItems(inventory, query)| <= 30 ==> r == PickerItems(inventory, query)
  {
    var all := PickerItems(inventory, query);
    Take(all, 30)
  }

  // ------------------------------------------------------------ export

  const Header: seq<string> :=
    ["Bill ID", "Date", "Supplier", "Category", "Items", "GST %", "Subtotal", "GST", "Total", "Paid By", "Reference"]

  /** `${it.name} x${it.qty}` for every line, joined by "; ". */
  function ItemsText(items: seq<BillItem>, show: real -> string): string
  {
    Join(seq(|items|, i requires 0 <= i < |items| => items[i].name + " x" + show(items[i].qty)), "; ")
  }

  function CsvRow(r: BillRow, show: real -> string): (v: seq<string>)
    ensures |v| == |Header|
    ensures v[0] == r.id && v[6] == Fixed2(r.subtotal) && v[7] == Fixed2(r.gstAmount) && v[8] == Fixed2(r.total)
  {
    [r.id, r.date, r.supplier, r.category.Label(), ItemsText(r.items, show), show(r.gstRate),
     Fixed2(r.subtotal), Fixed2(r.gstAmount), Fixed2(r.total), r.paidBy, r.reference]
  }

  function CsvRows(rows: seq<BillRow>, show: real -> string): (v: seq<seq<string>>)
    ensures |v| == |rows| && forall i :: 0 <= i < |rows| ==> v[i] == CsvRow(rows[i], show)
  {
    seq(|rows|, i requires 0 <= i < |rows| => CsvRow(rows[i], show))
  }

  /** `exportCsv`, with `String(x)` for a number passed in as `show`. */
  function ExportCsv(rows: seq<BillRow>, c: Criteria, timeOf: string -> Option<int>, show: real -> string): string
  {
    Csv.Document([Header] + CsvRows(FilteredBills(rows, c, timeOf), show))
  }

  /** The export reads back as the header and one row per listed bill. */
  lemma ExportReadsBack(rows: seq<BillRow>, c: Criteria, timeOf: string -> Option<int>, show: real -> string)
    ensures Csv.ReadDocument(ExportCsv(rows, c, timeOf, show))
         == Some([Header] + CsvRows(FilteredBills(rows, c, timeOf), show))
  {
    Csv.ReadBack([Header] + CsvRows(FilteredBills(rows, c, timeOf), show));
  }

  // -------------------------------------------------------- item editing

  /** `{ ...item, ...patch }`: a field the patch supplies replaces the line's, the others stay. */
  function PatchItem(it: BillItem, p: ItemPatch): (r: BillItem)
    ensures Overrides(p.inventoryItemId, it.inventoryItemId, r.inventoryItemId)
    ensures Overrides(p.name, it.name, r.name)
    ensures Overrides(p.qty, it.qty, r.qty)
    ensures Overrides(p.unitPrice, it.unitPrice, r.unitPrice)
  {
    BillItem(p.inventoryItemId.GetOr(it.inventoryItemId), p.name.GetOr(it.name), p.qty.GetOr(it.qty), p.unitPrice.GetOr(it.unitPrice))
  }

  function HasInventoryId(id: string): BillItem -> bool
  {
    (it: BillItem) => it.inventoryItemId == id
  }

  /**
   * `addInventoryItemToBill`: an unknown id changes nothing; an item already
   * on the bill has its quantity raised by one; otherwise a line with
   * quantity 1 at the item's cost is appended.
   */
  function WithInventoryItem(items: seq<BillItem>, inventory: seq<InventoryItem>, id: string): (r: seq<BillItem>)
    ensures Find(inventory, (x: InventoryItem) => x.id == id).None? ==> r == items
    ensures Find(inventory, (x: InventoryItem) => x.id == id).Some? ==>
      var inv := Find(inventory, (x: InventoryItem) => x.id == id).value;
      match FirstIndex(items, HasInventoryId(inv.id))
      case Some(k) =>
        |r| == |items| && r[k] == items[k].(qty := Round2(items[k].qty + 1.0))
        && forall j :: 0 <= j < |items| && j != k ==> r[j] == items[j]
      case None => r == items + [BillItem(inv.id, inv.name, 1.0, inv.cost)]
  {
    match Find(inventory, (x: InventoryItem) => x.id == id)
    case None => items
    case Some(inv) =>
      match FirstIndex(items, HasInventoryId(inv.id))
      case Some(k) => items[k := items[k].(qty := Round2(items[k].qty + 1.0))]
      case None => items + [BillItem(inv.id, inv.name, 1.0, inv.cost)]
  }

  /** No two lines are for the same inventory item. */
  predicate UniqueItems(items: seq<BillItem>)
  {
    forall i, j :: 0 <= i < |items| && 0 <= j < |items| && items[i].inventoryItemId == items[j].inventoryItemId ==> i == j
  }

  /** Picking items keeps one line per inventory item. */
  lemma WithInventoryItemKeepsUnique(items: seq<BillItem>, inventory: seq<InventoryItem>, id: string)
    requires UniqueItems(items)
    ensures UniqueItems(WithInventoryItem(items, inventory, id))
  {
    var f := Find(inventory, (x: InventoryItem) => x.id == id);
    if f.Some? && FirstIndex(items, HasInventoryId(f.value.id)).None? {
      var r := WithInventoryItem(items, inventory, id);
      forall j | 0 <= j < |items| ensures r[j].inventoryItemId != r[|items|].inventoryItemId {
        assert !HasInventoryId(f.value.id)(items[j]);
      }
    }
  }

  /** The bill that `handleAddBill` puts in front. */
  function NewRow(id: string, date: string, supplier: string, category: Category, items: seq<BillItem>,
                  gstRate: real, paidBy: string, reference: string): (r: BillRow)
    ensures r.supplier == (if supplier == [] then "(No supplier)" else supplier)
    ensures r.reference == (if reference == [] then "-" else reference)
    ensures r.subtotal == Round2(Subtotal(items)) && r.total == Total(Subtotal(items), gstRate)
    ensures r.gstAmount == GstAmount(Subtotal(items), gstRate)
    ensures r.items == items && r.id == id
  {
    var sub := Subtotal(items);
    BillRow(id, date, if supplier == [] then "(No supplier)" else supplier, category, items, gstRate,
            Round2(sub), GstAmount(sub, gstRate), Total(sub, gstRate), paidBy,
            if reference == [] then "-" else reference)
  }

  /** The page's state. */
  class BillsPage {
    var date: string
    var supplier: string
    var category: Category
    var gstRate: real
    var paidBy: string
    var reference: string
    var rows: seq<BillRow>
    var items: seq<BillItem>

    /** Opened on `today`, with the fixture bills. */
    constructor (today: string, fixtures: seq<BillRow>)
      ensures date == today && supplier == "" && category == PettyCash && gstRate == 8.0
      ensures paidBy == "Cashier" && reference == "" && items == [] && rows == fixtures
    {
      date, supplier, category, gstRate := today, "", PettyCash, 8.0;
      paidBy, reference, items, rows := "Cashier", "", [], fixtures;
    }

    /** `resetForm`. */
    method ResetForm(today: string)
      modifies this
      ensures date == today && supplier == "" && category == PettyCash && gstRate == 8.0
      ensures paidBy == "Cashier" && reference == "" && items == [] && rows == old(rows)
    {
      date, supplier, category, gstRate := today, "", PettyCash, 8.0;
      paidBy, reference, items := "Cashier", "", [];
    }

    /**
     * `handleAddBill` with the new bill's id given: nothing happens unless
     * the bill may be added; otherwise the new bill goes first and the whole
     * form is reset.
     */
    method AddBillAs(id: string, today: string)
      modifies this
      ensures !CanAddBill(old(date), old(items), Total(Subtotal(old(items)), old(gstRate)), old(paidBy)) ==>
        rows == old(rows) && items == old(items) && date == old(date) && supplier == old(supplier)
        && reference == old(reference) && paidBy == old(paidBy) && gstRate == old(gstRate) && category == old(category)
      ensures CanAddBill(old(date), old(items), Total(Subtotal(old(items)), old(gstRate)), old(paidBy)) ==>
        && rows == [NewRow(id, old(date), old(supplier), old(category), old(items),
                           old(gstRate), old(paidBy), old(reference))] + old(rows)
        && items == [] && date == today && supplier == "" && category == PettyCash && gstRate == 8.0
        && paidBy == "Cashier" && reference == ""
    {
      if CanAddBill(date, items, Total(Subtotal(items), gstRate), paidBy) {
        var row := NewRow(id, date, supplier, category, items, gstRate, paidBy, reference);
        rows := [row] + rows;
        ResetForm(today);
      }
    }

    /**
     * `handleAddBill` as the page has it: the new bill is numbered one past
     * the number of listed bills, which after a delete can be an id that a
     * listed bill already has (`CountBasedBillIdRepeats`).
     */
    method AddBill(today: string)
      modifies this
      ensures !CanAddBill(old(date), old(items), Total(Subtotal(old(items)), old(gstRate)), old(paidBy)) ==>
        rows == old(rows) && items == old(items) && date == old(date) && supplier == old(supplier)
        && reference == old(reference) && paidBy == old(paidBy) && gstRate == old(gstRate) && category == old(category)
      ensures CanAddBill(old(date), old(items), Total(Subtotal(old(items)), old(gstRate)), old(paidBy)) ==>
        && rows == [NewRow(CountBasedBillId(old(rows)), old(date), old(supplier), old(category), old(items),
                           old(gstRate), old(paidBy), old(reference))] + old(rows)
        && items == [] && date == today && supplier == "" && category == PettyCash && gstRate == 8.0
        && paidBy == "Cashier" && reference == ""
    {
      AddBillAs(CountBasedBillId(rows), today);
    }

    /**
     * The corrected `handleAddBill`: the new bill is numbered above every
     * listed bill, so no other listed bill has its id.
     */
    method AddBillFresh(today: string)
      modifies this
      ensures !CanAddBill(old(date), old(items), Total(Subtotal(old(items)), old(gstRate)), old(paidBy)) ==>
        rows == old(rows) && items == old(items) && date == old(date) && supplier == old(supplier)
        && reference == old(reference) && paidBy == old(paidBy) && gstRate == old(gstRate) && category == old(category)
      ensures CanAddBill(old(date), old(items), Total(Subtotal(old(items)), old(gstRate)), old(paidBy)) ==>
        && rows == [NewRow(FreshBillId(old(rows)), old(date), old(supplier), old(category), old(items),
                           old(gstRate), old(paidBy), old(reference))] + old(rows)
        && items == [] && date == today && supplier == "" && category == PettyCash && gstRate == 8.0
        && paidBy == "Cashier" && reference == ""
      ensures CanAddBill(old(date), old(items), Total(Subtotal(old(items)), old(gstRate)), old(paidBy)) ==>
        forall i :: 1 <= i < |rows| ==> rows[i].id != rows[0].id
    {
      AddBillAs(FreshBillId(rows), today);
    }

    /** The delete button of a listed bill: every bill with that id goes. */
    method DeleteBill(id: string)
      modifies this`rows
      ensures rows == Filter(old(rows), (b: BillRow) => b.id != id)
    {
      rows := Filter(rows, (b: BillRow) => b.id != id);
    }

    method AddInventoryItem(inventory: seq<InventoryItem>, id: string)
      modifies this`items
      ensures items == WithInventoryItem(old(items), inventory, id)
    {
      items := WithInventoryItem(items, inventory, id);
    }

    /** `updateItem`: only the line at `index` is patched. */
    method UpdateItem(index: int, patch: ItemPatch)
      modifies this`items
      ensures items == UpdateAt(old(items), index, (it: BillItem) => PatchItem(it, patch))
    {
      items := UpdateAt(items, index, (it: BillItem) => PatchItem(it, patch));
    }

    /** `removeItem`: only the line at `index` goes. */
    method RemoveItem(index: int)
      modifies this`items
      ensures items == RemoveAt(old(items), index)
    {
      items := RemoveAt(items, index);
    }
  }
}
