/**
 * The purchase order editor: a vendor is chosen from a searchable list,
 * lines are added empty and then filled from that vendor's catalogue, and
 * creating the order prepends it to the shared order list.
 */
module OrderDetail {
  import opened Wrappers
  import opened Text
  import opened Lists
  import opened Domain
  import opened MockData
  import Filters

  /** `filteredVendors`: every vendor for a blank search, else those whose id or name contains it. */
  function FilteredVendors(vendors: seq<Vendor>, search: string): (r: seq<Vendor>)
    ensures Filters.Query(search) == [] ==> r == vendors
    ensures Filters.Query(search) != [] ==> forall v :: v in r <==>
      (v in vendors && (Includes(ToLower(v.id), Filters.Query(search)) || Includes(ToLower(v.name), Filters.Query(search))))
    ensures IsSubsequence(r, vendors)
  {
    var q := Filters.Query(search);
    if q == [] then
      FilterIsSubsequence(vendors, (v: Vendor) => true);
      vendors
    else
      FilterIsSubsequence(vendors, (v: Vendor) => Includes(ToLower(v.id), q) || Includes(ToLower(v.name), q));
      Filter(vendors, (v: Vendor) => Includes(ToLower(v.id), q) || Includes(ToLower(v.name), q))
  }

  function LineTotal(it: OrderItem): real
  {
    it.quantity * it.cost
  }

  /** `calculateTotal`: Σ quantity × cost. */
  function Total(items: seq<OrderItem>): (r: real)
    ensures (forall j :: 0 <= j < |items| ==> LineTotal(items[j]) >= 0.0) ==> r >= 0.0
  {
    SumOf(items, LineTotal)
  }

  /** Adding a line adds its quantity × cost to the total. */
  lemma TotalAfterAppend(items: seq<OrderItem>, it: OrderItem)
    ensures Total(items + [it]) == Total(items) + it.quantity * it.cost
  {
    assert (items + [it])[..|items|] == items;
  }

  /** A patch of some of a line's fields (`{ ...item, [field]: value }`). */
  datatype ItemPatch = ItemPatch(name: Option<string>, sku: Option<string>, quantity: Option<real>,
                                 unit: Option<string>, cost: Option<real>)

  /** `{ ...item, [field]: value }`: the id is kept; a field the patch supplies is replaced, the others stay. */
  function PatchItem(it: OrderItem, p: ItemPatch): (r: OrderItem)
    ensures r.id == it.id
    ensures Overrides(p.name, it.name, r.name)
    ensures Overrides(p.sku, it.sku, r.sku)
    ensures Overrides(p.quantity, it.quantity, r.quantity)
    ensures Overrides(p.unit, it.unit, r.unit)
    ensures Overrides(p.cost, it.cost, r.cost)
  {
    it.(name := p.name.GetOr(it.name), sku := p.sku.GetOr(it.sku), quantity := p.quantity.GetOr(it.quantity),
        unit := p.unit.GetOr(it.unit), cost := p.cost.GetOr(it.cost))
  }

  function HasItemId(id: int): OrderItem -> bool
  {
    (it: OrderItem) => it.id == id
  }

  /** `items.map(item => item.id === id ? f(item) : item)`. */
  function PatchWhere(items: seq<OrderItem>, id: int, p: ItemPatch): (r: seq<OrderItem>)
    ensures |r| == |items|
    ensures forall j :: 0 <= j < |items| ==> r[j] == if items[j].id == id then PatchItem(items[j], p) else items[j]
  {
    MapWhere(items, HasItemId(id), (it: OrderItem) => PatchItem(it, p))
  }

  /** What a catalogue product writes onto a line: its name, sku, unit and price. */
  function ProductPatch(p: VendorProduct): ItemPatch
  {
    ItemPatch(Some(p.name), Some(p.sku), None, Some(p.unit), Some(p.price))
  }

  /** A product patch keeps the quantity and the id and copies the rest from the product. */
  lemma ProductPatchCopies(it: OrderItem, p: VendorProduct)
    ensures var r := PatchItem(it, ProductPatch(p));
      r.id == it.id && r.quantity == it.quantity && r.name == p.name && r.sku == p.sku
      && r.unit == p.unit && r.cost == p.price
  {
  }

  /** `vendorName: selectedVendor?.name || "Unknown Vendor"`. */
  function VendorName(selected: Option<Vendor>): (r: string)
    ensures r != []
    ensures selected.Some? && selected.value.name != [] ==> r == selected.value.name
    ensures !(selected.Some? && selected.value.name != []) ==> r == "Unknown Vendor"
  {
    if selected.Some? && selected.value.name != [] then selected.value.name else "Unknown Vendor"
  }

  /** The order `handleCreateOrder` builds; `r` is the random number below 10000. */
  function NewOrder(r: nat, vendorId: string, selected: Option<Vendor>, today: string, deliveryDate: string,
                    items: seq<OrderItem>): (o: Order)
    ensures o.status == Open && o.total == Total(items) && o.itemCount == |items| && o.vendorId == vendorId
    ensures StartsWith(o.id, "PO-")
  {
    Order("PO-" + NatToDecimal(r), vendorId, VendorName(selected), today, deliveryDate, Open,
          Total(items), |items|, None)
  }

  /** Why creating an order stopped, or the id it was created under. */
  datatype CreateOutcome = MissingVendor | NoItems | Created(id: string)

  /** The two mock lines an existing order is shown with. */
  function ExistingItems(): seq<OrderItem>
  {
    [OrderItem(1, "Whole Milk", "DAIRY-001", 10.0, "GAL", 4.5),
     OrderItem(2, "Eggs, Large", "DAIRY-002", 5.0, "CS", 45.0)]
  }

  /** The page's state. */
  class OrderEditor {
    const vendors: seq<Vendor>
    const isNew: bool
    var vendorId: string
    var vendorSearch: string
    var deliveryDate: string
    var notes: string
    var items: seq<OrderItem>

    /**
     * Opened on the route id; an existing order loads its vendor, its
     * delivery date and the mock lines.
     */
    constructor (vendors: seq<Vendor>, orders: seq<Order>, routeId: string, tomorrow: string)
      ensures this.vendors == vendors && isNew == (routeId == "new")
      ensures vendorSearch == "" && notes == ""
      ensures var existing := Find(orders, (o: Order) => o.id == routeId);
        if !isNew && routeId != "" && existing.Some? then
          vendorId == existing.value.vendorId && deliveryDate == existing.value.deliveryDate && items == ExistingItems()
        else
          vendorId == "" && deliveryDate == tomorrow && items == []
    {
      this.vendors := vendors;
      isNew := routeId == "new";
      vendorSearch, notes := "", "";
      var existing := Find(orders, (o: Order) => o.id == routeId);
      if routeId != "new" && routeId != "" && existing.Some? {
        vendorId, deliveryDate, items := existing.value.vendorId, existing.value.deliveryDate, ExistingItems();
      } else {
        vendorId, deliveryDate, items := "", tomorrow, [];
      }
    }

    /** `selectedVendor`. */
    function SelectedVendor(): (r: Option<Vendor>)
      reads this
      ensures r.Some? ==> r.value in vendors && r.value.id == vendorId
      ensures r.None? <==> forall j :: 0 <= j < |vendors| ==> vendors[j].id != vendorId
    {
      var id := vendorId;
      Find(vendors, (v: Vendor) => v.id == id)
    }

    /** `vendorProducts`: the chosen vendor's catalogue, or nothing. */
    function VendorProducts(): (r: seq<VendorProduct>)
      reads this
      ensures SelectedVendor().None? ==> r == []
      ensures SelectedVendor().Some? ==> r == SelectedVendor().value.products
    {
      match SelectedVendor()
      case None => []
      case Some(v) => v.products
    }

    /** Choosing a vendor clears the lines and the search. */
    method SetVendor(v: string)
      modifies this
      ensures vendorId == v && items == [] && vendorSearch == ""
      ensures deliveryDate == old(deliveryDate) && notes == old(notes)
    {
      vendorId, items, vendorSearch := v, [], "";
    }

    /** `handleAddItem`: without a vendor nothing is added; else one empty line with quantity 1. */
    method AddItem(now: int)
      modifies this`items
      ensures vendorId == "" ==> items == old(items)
      ensures vendorId != "" ==> items == old(items) + [OrderItem(now, "", "", 1.0, "", 0.0)]
    {
      if vendorId != "" {
        items := items + [OrderItem(now, "", "", 1.0, "", 0.0)];
      }
    }

    /** `handleProductSelect`: a product outside the vendor's catalogue changes nothing. */
    method ProductSelect(itemId: int, productId: string)
      modifies this`items
      ensures var p := Find(VendorProducts(), (p: VendorProduct) => p.id == productId);
        p.None? ==> items == old(items)
      ensures var p := Find(VendorProducts(), (p: VendorProduct) => p.id == productId);
        p.Some? ==> items == PatchWhere(old(items), itemId, ProductPatch(p.value))
    {
      var p := Find(VendorProducts(), (p: VendorProduct) => p.id == productId);
      if p.Some? {
        items := PatchWhere(items, itemId, ProductPatch(p.value));
      }
    }

    /** `updateItem`: only the lines with that id change. */
    method UpdateItem(id: int, patch: ItemPatch)
      modifies this`items
      ensures items == PatchWhere(old(items), id, patch)
    {
      items := PatchWhere(items, id, patch);
    }

    /** `removeItem`: the lines with that id go; the rest stay in order. */
    method RemoveItem(id: int)
      modifies this`items
      ensures items == Filter(old(items), (it: OrderItem) => it.id != id)
    {
      items := Filter(items, (it: OrderItem) => it.id != id);
    }

    /**
     * `handleCreateOrder`: a missing vendor is reported first, then an
     * empty order; neither creates anything. Otherwise the open order goes
     * first in the shared list.
     */
    method CreateOrder(db: MockDb, r: nat, today: string) returns (outcome: CreateOutcome)
      requires r < 10000
      modifies db`orders
      ensures vendorId == "" ==> outcome == MissingVendor && db.orders == old(db.orders)
      ensures vendorId != "" && items == [] ==> outcome == NoItems && db.orders == old(db.orders)
      ensures vendorId != "" && items != [] ==>
        && outcome == Created("PO-" + NatToDecimal(r))
        && db.orders == [NewOrder(r, vendorId, SelectedVendor(), today, deliveryDate, items)] + old(db.orders)
    {
      if vendorId == "" {
        return MissingVendor;
      }
      if |items| == 0 {
        return NoItems;
      }
      var o := NewOrder(r, vendorId, SelectedVendor(), today, deliveryDate, items);
      db.AddOrder(o);
      outcome := Created(o.id);
    }
  }
}
