/**
 * The shared in-memory tables of purchase orders and invoices, with the
 * line items recorded per order, per receiving and per invoice, and the
 * generator of the next invoice number.
 */
module MockData {
  import opened Wrappers
  import opened Text
  import opened Lists
  import opened Domain
  import opened Ids

  // ------------------------------------------------------- order updates

  /** `Partial<Order>`: the fields an update supplies. */
  datatype OrderPatch = OrderPatch(
    id: Option<string>,
    vendorId: Option<string>,
    vendorName: Option<string>,
    orderDate: Option<string>,
    deliveryDate: Option<string>,
    status: Option<OrderStatus>,
    total: Option<real>,
    itemCount: Option<int>,
    memo: Option<string>)

  const NoChanges := OrderPatch(None, None, None, None, None, None, None, None, None)

  /** A patch that supplies only the status. */
  function OnlyStatus(s: OrderStatus): OrderPatch
  {
    NoChanges.(status := Some(s))
  }

  /** `Object.assign(order, updates)`: every supplied field replaces the order's, the others stay. */
  function Merge(o: Order, u: OrderPatch): (r: Order)
    ensures Overrides(u.id, o.id, r.id)
    ensures Overrides(u.vendorId, o.vendorId, r.vendorId)
    ensures Overrides(u.vendorName, o.vendorName, r.vendorName)
    ensures Overrides(u.orderDate, o.orderDate, r.orderDate)
    ensures Overrides(u.deliveryDate, o.deliveryDate, r.deliveryDate)
    ensures Overrides(u.status, o.status, r.status)
    ensures Overrides(u.total, o.total, r.total)
    ensures Overrides(u.itemCount, o.itemCount, r.itemCount)
    ensures u.memo.Some? ==> r.memo == u.memo
    ensures u.memo.None? ==> r.memo == o.memo
  {
    Order(
      u.id.GetOr(o.id),
      u.vendorId.GetOr(o.vendorId),
      u.vendorName.GetOr(o.vendorName),
      u.orderDate.GetOr(o.orderDate),
      u.deliveryDate.GetOr(o.deliveryDate),
      u.status.GetOr(o.status),
      u.total.GetOr(o.total),
      u.itemCount.GetOr(o.itemCount),
      if u.memo.Some? then u.memo else o.memo)
  }

  /** An update that supplies nothing leaves the order as it was. */
  lemma MergeNothing(o: Order)
    ensures Merge(o, NoChanges) == o
  {
  }

  /** Applying the same update twice is applying it once. */
  lemma MergeTwice(o: Order, u: OrderPatch)
    ensures Merge(Merge(o, u), u) == Merge(o, u)
  {
  }

  /** `o => o.id === id`. */
  function HasId(id: string): Order -> bool
  {
    (o: Order) => o.id == id
  }

  /**
   * `updateMockOrder(id, updates)` on the order list: the first order with
   * that id is merged with the update; no other order changes; an unknown
   * id leaves the list as it was.
   */
  function Patched(orders: seq<Order>, id: string, u: OrderPatch): (r: seq<Order>)
    ensures |r| == |orders|
    ensures FirstIndex(orders, HasId(id)).None? ==> r == orders
    ensures FirstIndex(orders, HasId(id)).Some? ==>
      var k := FirstIndex(orders, HasId(id)).value;
      r[k] == Merge(orders[k], u) && forall j :: 0 <= j < |orders| && j != k ==> r[j] == orders[j]
  {
    match FirstIndex(orders, HasId(id))
    case None => orders
    case Some(k) => UpdateAt(orders, k, o => Merge(o, u))
  }

  /** `updateMockOrderStatus(id, status)`: only the first order with that id gets the new status. */
  function WithStatus(orders: seq<Order>, id: string, s: OrderStatus): (r: seq<Order>)
    ensures |r| == |orders|
    ensures FirstIndex(orders, HasId(id)).None? ==> r == orders
    ensures FirstIndex(orders, HasId(id)).Some? ==>
      var k := FirstIndex(orders, HasId(id)).value;
      r[k] == orders[k].(status := s) && forall j :: 0 <= j < |orders| && j != k ==> r[j] == orders[j]
  {
    match FirstIndex(orders, HasId(id))
    case None => orders
    case Some(k) => orders[k := orders[k].(status := s)]
  }

  /** Setting a status is the update that supplies only that status. */
  lemma WithStatusIsPatch(orders: seq<Order>, id: string, s: OrderStatus)
    ensures WithStatus(orders, id, s) == Patched(orders, id, OnlyStatus(s))
  {
    var a := WithStatus(orders, id, s);
    var b := Patched(orders, id, OnlyStatus(s));
    forall j | 0 <= j < |orders| ensures a[j] == b[j] {
    }
  }

  /** The status a receiving leaves on its purchase order. */
  function ReceivedStatus(allReceived: bool): (s: OrderStatus)
    ensures s == Received <==> allReceived
    ensures s == PartiallyReceived <==> !allReceived
  {
    if allReceived then Received else PartiallyReceived
  }

  /** After a receiving, the order it names is Received exactly when everything arrived. */
  lemma ReceivingSetsStatus(orders: seq<Order>, poId: string, allReceived: bool, k: nat)
    requires k < |orders| && orders[k].id == poId
    requires forall j :: 0 <= j < k ==> orders[j].id != poId
    ensures var after := WithStatus(orders, poId, ReceivedStatus(allReceived));
      (after[k].status == Received <==> allReceived)
      && (after[k].status == PartiallyReceived <==> !allReceived)
  {
    assert FirstIndex(orders, HasId(poId)) == Some(k);
  }

  // ------------------------------------------------------ invoice numbers

  function InvoiceIds(invoices: seq<Invoice>): seq<string>
  {
    IdsOf(invoices, (inv: Invoice) => inv.id)
  }

  /** The number the next invoice gets: one more than the largest existing suffix, at least 1. */
  function NextNumber(invoices: seq<Invoice>): (n: nat)
    ensures n >= 1
    ensures forall i :: 0 <= i < |invoices| ==> SuffixNumber(invoices[i].id) < n
  {
    NextAbove(InvoiceIds(invoices))
  }

  /** `generateInvoiceNumber()`, with the current year passed in. */
  function InvoiceNumber(invoices: seq<Invoice>, year: nat): (r: string)
    ensures |r| >= 9 && StartsWith(r, "INV-")
  {
    var pre := "INV-" + NatToDecimal(year) + "-";
    var r := Numbered(pre, NextNumber(invoices), 3);
    assert r[..4] == pre[..4];
    r
  }

  /** The generated number is "INV-", the year, "-", then at least three digits denoting the next number. */
  lemma InvoiceNumberShape(invoices: seq<Invoice>, year: nat)
    ensures var pre := "INV-" + NatToDecimal(year) + "-";
      var id := InvoiceNumber(invoices, year);
      && StartsWith(id, pre)
      && |id[|pre|..]| >= 3 && AllDigits(id[|pre|..]) && DigitsValue(id[|pre|..]) == NextNumber(invoices)
  {
    NumberedShape("INV-" + NatToDecimal(year) + "-", NextNumber(invoices), 3);
  }

  /** The generated number's own suffix is the next number. */
  lemma InvoiceNumberSuffix(invoices: seq<Invoice>, year: nat)
    ensures SuffixNumber(InvoiceNumber(invoices, year)) == NextNumber(invoices)
  {
    NumberedSuffix("INV-" + NatToDecimal(year), NextNumber(invoices), 3);
  }

  /** The generated number is larger than every existing suffix, so it matches no existing invoice id. */
  lemma InvoiceNumberIsNew(invoices: seq<Invoice>, year: nat)
    ensures forall i :: 0 <= i < |invoices| ==>
      SuffixNumber(invoices[i].id) < SuffixNumber(InvoiceNumber(invoices, year))
    ensures forall i :: 0 <= i < |invoices| ==> invoices[i].id != InvoiceNumber(invoices, year)
  {
    InvoiceNumberSuffix(invoices, year);
  }

  // ------------------------------------------------------------ the store

  /** The module-level tables `MOCK_ORDERS`, `MOCK_ORDER_ITEMS`, `MOCK_RECEIVED_ITEMS`, `MOCK_INVOICES`, `MOCK_INVOICE_ITEMS`. */
  class MockDb {
    var orders: seq<Order>
    var orderItems: map<string, seq<OrderItem>>
    var receivedItems: map<string, seq<OrderItem>>
    var invoices: seq<Invoice>
    var invoiceItems: map<string, seq<OrderItem>>

    /** The fixtures; received and invoice items start empty. */
    constructor (orders0: seq<Order>, orderItems0: map<string, seq<OrderItem>>, invoices0: seq<Invoice>)
      ensures orders == orders0 && orderItems == orderItems0 && invoices == invoices0
      ensures receivedItems == map[] && invoiceItems == map[]
    {
      orders := orders0;
      orderItems := orderItems0;
      receivedItems := map[];
      invoices := invoices0;
      invoiceItems := map[];
    }

    /** `addMockOrder`: `unshift`, so the new order is first and the others follow unchanged. */
    method AddOrder(o: Order)
      modifies this`orders
      ensures orders == [o] + old(orders)
      ensures |orders| == |old(orders)| + 1 && orders[0] == o
      ensures forall j :: 0 <= j < |old(orders)| ==> orders[j + 1] == old(orders)[j]
    {
      orders := [o] + orders;
    }

    /** `updateMockOrderStatus`. */
    method UpdateOrderStatus(id: string, s: OrderStatus)
      modifies this`orders
      ensures orders == WithStatus(old(orders), id, s)
    {
      var k := FirstIndex(orders, HasId(id));
      if k.Some? {
        orders := orders[k.value := orders[k.value].(status := s)];
      }
    }

    /** `updateMockOrder`: merge into the first order with that id; store the items under the id whenever they are given. */
    method UpdateOrder(id: string, u: OrderPatch, items: Option<seq<OrderItem>>)
      modifies this`orders, this`orderItems
      ensures orders == Patched(old(orders), id, u)
      ensures orderItems == if items.Some? then old(orderItems)[id := items.value] else old(orderItems)
    {
      var k := FirstIndex(orders, HasId(id));
      if k.Some? {
        orders := orders[k.value := Merge(orders[k.value], u)];
      }
      if items.Some? {
        orderItems := orderItems[id := items.value];
      }
    }

    /** `addMockReceiving`: record what arrived and move the order to Received or Partially Received. */
    method AddReceiving(poId: string, items: seq<OrderItem>, allReceived: bool)
      modifies this`orders, this`receivedItems
      ensures receivedItems == old(receivedItems)[poId := items]
      ensures orders == WithStatus(old(orders), poId, ReceivedStatus(allReceived))
    {
      receivedItems := receivedItems[poId := items];
      UpdateOrderStatus(poId, if allReceived then Received else PartiallyReceived);
    }

    /** `addMockInvoice`: the invoice goes first. */
    method AddInvoice(inv: Invoice)
      modifies this`invoices
      ensures invoices == [inv] + old(invoices)
    {
      invoices := [inv] + invoices;
    }

    /** `addMockInvoiceItems`: only that invoice's entry is replaced. */
    method AddInvoiceItems(invoiceId: string, items: seq<OrderItem>)
      modifies this`invoiceItems
      ensures invoiceItems == old(invoiceItems)[invoiceId := items]
      ensures forall k :: k in old(invoiceItems) && k != invoiceId ==> k in invoiceItems && invoiceItems[k] == old(invoiceItems)[k]
    {
      invoiceItems := invoiceItems[invoiceId := items];
    }

    /** `generateInvoiceNumber()` over the current invoices. */
    method GenerateInvoiceNumber(year: nat) returns (id: string)
      ensures id == InvoiceNumber(invoices, year)
      ensures forall i :: 0 <= i < |invoices| ==> invoices[i].id != id
    {
      id := InvoiceNumber(invoices, year);
      InvoiceNumberIsNew(invoices, year);
    }
  }
}
