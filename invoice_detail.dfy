/**
 * The invoice editor: a new invoice copies the lines of the purchase
 * order it is raised against, an existing one loads its header; the lines'
 * quantities can be edited, and saving is refused with the first failing
 * check.
 */
module InvoiceDetail {
  import opened Wrappers
  import opened Lists
  import opened Domain
  import opened Money
  import OrderDetail

  /** The GST rate the page applies, as a fraction. */
  const GstRate: real := 0.06

  /** `gst`: the subtotal's GST rounded to cents. */
  function Gst(subtotal: real): (r: real)
    ensures -0.005 <= r - subtotal * GstRate <= 0.005
    ensures subtotal >= 0.0 ==> r >= 0.0
  {
    Round2(subtotal * GstRate)
  }

  /** `total`: the unrounded subtotal plus the rounded GST. */
  function Total(items: seq<OrderItem>): real
  {
    OrderDetail.Total(items) + Gst(OrderDetail.Total(items))
  }

  /** The total is within half a cent of 106 % of the line sum. */
  lemma TotalIsNearGross(items: seq<OrderItem>)
    ensures -0.005 <= Total(items) - OrderDetail.Total(items) * 1.06 <= 0.005
  {
  }

  /** `isDuplicate`: another invoice than the one on the route already has that number. */
  predicate IsDuplicate(invoices: seq<Invoice>, invoiceNumber: string, routeId: string)
  {
    Any(invoices, (i: Invoice) => i.id == invoiceNumber && i.id != routeId)
  }

  /** Keeping an invoice's own number is never a duplicate. */
  lemma OwnNumberIsNotDuplicate(invoices: seq<Invoice>, routeId: string)
    ensures !IsDuplicate(invoices, routeId, routeId)
  {
  }

  datatype SaveOutcome = MissingPo | MissingNumber | Duplicate | Saved

  /** `handleSave`: the checks in order; the first that fails decides. */
  function Save(invoices: seq<Invoice>, poId: string, invoiceNumber: string, routeId: string): (r: SaveOutcome)
    ensures r == MissingPo <==> poId == []
    ensures r == MissingNumber <==> poId != [] && invoiceNumber == []
    ensures r == Duplicate <==> poId != [] && invoiceNumber != [] && IsDuplicate(invoices, invoiceNumber, routeId)
    ensures r == Saved <==> poId != [] && invoiceNumber != [] && !IsDuplicate(invoices, invoiceNumber, routeId)
  {
    if poId == [] then MissingPo
    else if invoiceNumber == [] then MissingNumber
    else if IsDuplicate(invoices, invoiceNumber, routeId) then Duplicate
    else Saved
  }

  /** The purchase orders a new invoice may be raised against: every one that is not Closed. */
  function PoChoices(orders: seq<Order>): (r: seq<Order>)
    ensures forall o :: o in r <==> o in orders && o.status != Closed
    ensures IsSubsequence(r, orders)
  {
    FilterIsSubsequence(orders, (o: Order) => o.status != Closed);
    Filter(orders, (o: Order) => o.status != Closed)
  }

  /** The Create/Finalize action is offered unless the invoice is already Finalized. */
  predicate ShowsFinalize(existing: Option<Invoice>)
  {
    existing.None? || existing.value.status != InvoiceStatus.Finalized
  }

  /** `handleQuantityChange`: the new quantity on the lines with that id and nowhere else. */
  function WithQuantity(items: seq<OrderItem>, itemId: int, newQty: real): (r: seq<OrderItem>)
    ensures |r| == |items|
    ensures forall j :: 0 <= j < |items| ==>
      if items[j].id == itemId then r[j] == items[j].(quantity := newQty) else r[j] == items[j]
  {
    OrderDetail.PatchWhere(items, itemId, OrderDetail.ItemPatch(None, None, Some(newQty), None, None))
  }

  /** The page's state. The order lines are values, so the copy a new invoice edits is its own. */
  class InvoiceEditor {
    const orderItems: map<string, seq<OrderItem>>
    const isNew: bool
    const existing: Option<Invoice>
    var poId: string
    var invoiceNumber: string
    var invoiceDate: string
    var dueDate: string
    var items: seq<OrderItem>

    /**
     * Opened on the route id with the `po` query parameter. An existing
     * invoice loads its header and its order's lines; a new one loads the
     * lines of the order in the query.
     */
    constructor (invoices: seq<Invoice>, orderItems: map<string, seq<OrderItem>>, routeId: string,
                 queryPo: Option<string>, today: string)
      ensures this.orderItems == orderItems && isNew == (routeId == "new")
      ensures existing == if isNew then None else Find(invoices, (i: Invoice) => i.id == routeId)
      ensures existing.Some? ==>
        && poId == existing.value.poNumber && invoiceNumber == existing.value.id
        && invoiceDate == existing.value.invoiceDate && dueDate == existing.value.dueDate.GetOr("")
        && items == (if poId != [] && poId in orderItems then orderItems[poId] else [])
      ensures existing.None? ==>
        && poId == queryPo.GetOr("") && invoiceNumber == "" && invoiceDate == today && dueDate == ""
        && items == (if isNew && poId != [] && poId in orderItems then orderItems[poId] else [])
    {
      this.orderItems := orderItems;
      isNew := routeId == "new";
      var found := if routeId == "new" then None else Find(invoices, (i: Invoice) => i.id == routeId);
      existing := found;
      poId, invoiceNumber, invoiceDate, dueDate, items := queryPo.GetOr(""), "", today, "", [];
      if found.Some? {
        var inv := found.value;
        poId, invoiceNumber, invoiceDate, dueDate := inv.poNumber, inv.id, inv.invoiceDate, inv.dueDate.GetOr("");
        if inv.poNumber != [] && inv.poNumber in orderItems {
          items := orderItems[inv.poNumber];
        }
      } else if routeId == "new" && queryPo.GetOr("") != [] && queryPo.GetOr("") in orderItems {
        items := orderItems[queryPo.GetOr("")];
      }
    }

    /** Choosing a purchase order on a new invoice loads a copy of its lines, if it has any. */
    method SetPo(p: string)
      modifies this`poId, this`items
      ensures poId == p
      ensures isNew && p != [] && p in orderItems ==> items == orderItems[p]
      ensures !(isNew && p != [] && p in orderItems) ==> items == old(items)
    {
      poId := p;
      if isNew && p != [] && p in orderItems {
        items := orderItems[p];
      }
    }

    /** `handleQuantityChange`. */
    method QuantityChange(itemId: int, newQty: real)
      modifies this`items
      ensures items == WithQuantity(old(items), itemId, newQty)
    {
      items := WithQuantity(items, itemId, newQty);
    }
  }
}
