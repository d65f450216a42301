/**
 * The status badge: a status string is lower-cased and looked up in a
 * fixed table of badge kinds; an explicit kind overrides the table and an
 * unknown status is neutral. The badge shows the status as given.
 */
module StatusBadge {
  import opened Wrappers
  import opened Text
  import opened Domain

  datatype StatusType = Success | Warning | Error | Info | Neutral | DraftKind | PendingKind

  datatype Icon = CheckCircle | Clock | XCircle | Package | FileText

  /** `TYPE_MAP`: the lower-case statuses that have a kind of their own. */
  const TypeMap: map<string, StatusType> := map[
    "finalized" := Success, "approved" := Success, "active" := Success, "sent" := Success, "delivered" := Success,
    "pending" := Warning, "needs receiving" := Warning, "partially received" := Warning,
    "rejected" := Error, "deleted" := Error, "overdue" := Error,
    "draft" := DraftKind, "open" := Info]

  /** `type || TYPE_MAP[status.toLowerCase()] || "neutral"`. */
  function Resolve(status: string, override: Option<StatusType>): (r: StatusType)
    ensures override.Some? ==> r == override.value
    ensures override.None? && ToLower(status) in TypeMap ==> r == TypeMap[ToLower(status)]
    ensures override.None? && ToLower(status) !in TypeMap ==> r == Neutral
  {
    if override.Some? then override.value
    else if ToLower(status) in TypeMap then TypeMap[ToLower(status)]
    else Neutral
  }

  /** The lookup ignores the case of the status. */
  lemma ResolveIgnoresCase(status: string, override: Option<StatusType>)
    ensures Resolve(ToLower(status), override) == Resolve(status, override)
  {
    ToLowerIdempotent(status);
  }

  /** `ICONS`. */
  function IconFor(t: StatusType): (i: Icon)
    ensures i == Clock <==> t == Warning || t == PendingKind
    ensures i == FileText <==> t == Neutral || t == DraftKind
  {
    match t
    case Success => CheckCircle
    case Warning => Clock
    case Error => XCircle
    case Info => Package
    case Neutral => FileText
    case DraftKind => FileText
    case PendingKind => Clock
  }

  /** What the badge shows: its kind, its icon unless `showIcon` is off, and the status text unchanged. */
  datatype Badge = Badge(kind: StatusType, icon: Option<Icon>, text: string)

  /** `StatusBadge({ status, type, showIcon = true })`. */
  function Render(status: string, override: Option<StatusType>, showIcon: bool): (b: Badge)
    ensures b.text == status && b.kind == Resolve(status, override)
    ensures showIcon ==> b.icon == Some(IconFor(b.kind))
    ensures !showIcon ==> b.icon.None?
  {
    var kind := Resolve(status, override);
    Badge(kind, if showIcon then Some(IconFor(kind)) else None, status)
  }

  /** The table never yields the pending kind: it only comes from an explicit override. */
  lemma PendingOnlyByOverride(status: string, override: Option<StatusType>)
    requires Resolve(status, override) == PendingKind
    ensures override == Some(PendingKind)
  {
  }

  /** How each purchase order status is shown; Received and Closed are not in the table. */
  lemma OrderStatusKinds()
    ensures Resolve(OrderStatus.Draft.Label(), None) == DraftKind
    ensures Resolve(Open.Label(), None) == Info
    ensures Resolve(Sent.Label(), None) == Success
    ensures Resolve(NeedsReceiving.Label(), None) == Warning
    ensures Resolve(PartiallyReceived.Label(), None) == Warning
    ensures Resolve(Received.Label(), None) == Neutral
    ensures Resolve(Closed.Label(), None) == Neutral
  {
    assert ToLower("Draft") == "draft";
    assert ToLower("Open") == "open";
    assert ToLower("Sent") == "sent";
    assert ToLower("Needs Receiving") == "needs receiving";
    assert ToLower("Partially Received") == "partially received";
    assert ToLower("Received") == "received";
    assert ToLower("Closed") == "closed";
  }

  /** How each invoice status is shown. */
  lemma InvoiceStatusKinds()
    ensures Resolve(InvoiceStatus.Draft.Label(), None) == DraftKind
    ensures Resolve(Pending.Label(), None) == Warning
    ensures Resolve(Finalized.Label(), None) == Success
    ensures Resolve(Rejected.Label(), None) == Error
  {
    assert ToLower("Draft") == "draft";
    assert ToLower("Pending") == "pending";
    assert ToLower("Finalized") == "finalized";
    assert ToLower("Rejected") == "rejected";
  }
}
