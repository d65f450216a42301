/**
 * The records the back office shares between its pages: purchase orders,
 * invoices, order lines, vendors with their catalogues, inventory items,
 * recipes and inventory postings. Money and quantities are exact `real`s;
 * dates stay the strings the records hold.
 */
module Domain {
  import opened Wrappers

  datatype OrderStatus =
    | Draft | Open | Sent | NeedsReceiving | PartiallyReceived | Received | Closed
  {
    /** The text the status is stored and shown as. */
    function Label(): string
    {
      match this
      case Draft => "Draft"
      case Open => "Open"
      case Sent => "Sent"
      case NeedsReceiving => "Needs Receiving"
      case PartiallyReceived => "Partially Received"
      case Received => "Received"
      case Closed => "Closed"
    }
  }

  datatype InvoiceStatus = Draft | Pending | Finalized | Rejected
  {
    function Label(): string
    {
      match this
      case Draft => "Draft"
      case Pending => "Pending"
      case Finalized => "Finalized"
      case Rejected => "Rejected"
    }
  }

  /** The kind of an inventory item. */
  datatype ItemType = Raw | Prep | Menu
  {
    function Label(): string
    {
      match this
      case Raw => "Raw"
      case Prep => "Prep"
      case Menu => "Menu"
    }
  }

  datatype Order = Order(
    id: string,
    vendorId: string,
    vendorName: string,
    orderDate: string,
    deliveryDate: string,
    status: OrderStatus,
    total: real,
    itemCount: int,
    memo: Option<string>)

  datatype Invoice = Invoice(
    id: string,
    vendorId: string,
    vendorName: string,
    poNumber: string,
    invoiceDate: string,
    dueDate: Option<string>,
    deliveryDate: string,
    status: InvoiceStatus,
    subtotal: real,
    gst: real,
    total: real,
    updatedAt: string)

  datatype OrderItem = OrderItem(id: int, name: string, sku: string, quantity: real, unit: string, cost: real)

  datatype VendorProduct = VendorProduct(id: string, name: string, sku: string, price: real, unit: string)

  datatype Vendor = Vendor(id: string, name: string, products: seq<VendorProduct>)

  datatype InventoryItem = InventoryItem(
    id: string,
    name: string,
    sku: string,
    category: string,
    itemType: ItemType,
    onHand: real,
    unit: string,
    cost: real,
    par: real)

  datatype Recipe = Recipe(
    id: string,
    name: string,
    category: string,
    yieldAmount: real,
    yieldUnit: string,
    cost: real,
    price: real,
    foodCostPercent: real)

  datatype PostingStatus = Draft | Posted
  {
    function Label(): string
    {
      match this
      case Draft => "Draft"
      case Posted => "Posted"
    }
  }

  datatype InventoryPosting = InventoryPosting(
    id: string,
    date: string,
    location: string,
    status: PostingStatus,
    itemsCounted: nat,
    totalItems: nat,
    createdBy: string)
}
