/**
 * The bill detail page: the bill named by the route, and its CSV export
 * (a summary of the stored figures, an empty row, then one row per line).
 */
module BillDetail {
  import opened Wrappers
  import opened Lists
  import opened Money
  import opened Bills
  import Csv

  /** `MOCK_BILLS.find(b => b.id === billId) || null`. */
  function BillFor(bills: seq<BillRow>, billId: string): (r: Option<BillRow>)
    ensures r.Some? ==> r.value in bills && r.value.id == billId
    ensures r.None? <==> forall j :: 0 <= j < |bills| ==> bills[j].id != billId
  {
    Find(bills, (b: BillRow) => b.id == billId)
  }

  /** The bill shown is the first with the route id. */
  lemma BillForIsFirst(bills: seq<BillRow>, billId: string, k: nat)
    requires k < |bills| && bills[k].id == billId
    requires forall j :: 0 <= j < k ==> bills[j].id != billId
    ensures BillFor(bills, billId) == Some(bills[k])
  {
    var f := (b: BillRow) => b.id == billId;
    assert f(bills[k]);
    var i := FirstIndex(bills, f);
    assert i.Some? && i.value <= k;
  }

  const SummaryHeader: seq<string> :=
    ["Bill ID", "Date", "Supplier", "Category", "Paid By", "Reference", "GST %", "Subtotal", "GST", "Total"]

  const ItemHeader: seq<string> := ["Item", "Qty", "Unit Price", "Line Total"]

  /** The stored figures of the bill, not figures recomputed from its lines. */
  function Summary(b: BillRow, show: real -> string): (v: seq<string>)
    ensures |v| == |SummaryHeader|
    ensures v[7] == Fixed2(b.subtotal) && v[8] == Fixed2(b.gstAmount) && v[9] == Fixed2(b.total)
  {
    [b.id, b.date, b.supplier, b.category.Label(), b.paidBy, b.reference, show(b.gstRate),
     Fixed2(b.subtotal), Fixed2(b.gstAmount), Fixed2(b.total)]
  }

  function ItemRow(it: BillItem, show: real -> string): (v: seq<string>)
    ensures |v| == |ItemHeader| && v[3] == Fixed2(it.qty * it.unitPrice)
  {
    [it.name, show(it.qty), Fixed2(it.unitPrice), Fixed2(it.qty * it.unitPrice)]
  }

  function ItemRows(items: seq<BillItem>, show: real -> string): (v: seq<seq<string>>)
    ensures |v| == |items| && forall i :: 0 <= i < |items| ==> v[i] == ItemRow(items[i], show)
  {
    seq(|items|, i requires 0 <= i < |items| => ItemRow(items[i], show))
  }

  /** The rows the export writes for a bill, in order. */
  function ExportRows(b: BillRow, show: real -> string): (v: seq<seq<string>>)
    ensures |v| == 4 + |b.items|
    ensures v[0] == SummaryHeader && v[1] == Summary(b, show) && v[2] == [] && v[3] == ItemHeader
    ensures forall i :: 0 <= i < |b.items| ==> v[4 + i] == ItemRow(b.items[i], show)
  {
    [SummaryHeader, Summary(b, show), [], ItemHeader] + ItemRows(b.items, show)
  }

  /** The export button: nothing without a bill, otherwise the CSV text. */
  function Export(bill: Option<BillRow>, show: real -> string): (r: Option<string>)
    ensures r.None? <==> bill.None?
  {
    match bill
    case None => None
    case Some(b) => Some(Csv.Document(ExportRows(b, show)))
  }

  /** The exported text reads back as exactly the rows above. */
  lemma ExportReadsBack(b: BillRow, show: real -> string)
    ensures Csv.ReadDocument(Export(Some(b), show).value) == Some(ExportRows(b, show))
  {
    Csv.ReadBack(ExportRows(b, show));
  }
}
