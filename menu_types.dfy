/**
 * A menu item being built: its header fields and its ingredient lines, and
 * the partial records (`Partial<...>`) that patch them by object spread.
 */
module MenuTypes {
  import opened Wrappers
  import opened Text

  datatype Line = Line(
    id: string,
    inventoryItemId: string,
    name: string,
    vendorId: string,
    unitCost: real,
    qty: real,
    unit: string,
    imageSrc: Option<string>)

  /** `Partial<MenuIngredientLine>`. */
  datatype LinePatch = LinePatch(
    id: Option<string>,
    inventoryItemId: Option<string>,
    name: Option<string>,
    vendorId: Option<string>,
    unitCost: Option<real>,
    qty: Option<real>,
    unit: Option<string>,
    imageSrc: Option<string>)

  datatype Draft = Draft(
    id: string,
    name: string,
    category: string,
    active: bool,
    imageSrc: Option<string>,
    sellingPrice: real,
    lines: seq<Line>)

  /**
   * `Partial<MenuItemDraft>`: an object holding some of a draft's fields.
   * It is both the patch an update spreads and, in the store that rebuilds
   * its state, what may end up stored under an id nobody created.
   */
  datatype DraftFields = DraftFields(
    id: Option<string>,
    name: Option<string>,
    category: Option<string>,
    active: Option<bool>,
    imageSrc: Option<string>,
    sellingPrice: Option<real>,
    lines: Option<seq<Line>>)

  /** `{}`, also what spreading `undefined` gives. */
  const NoFields := DraftFields(None, None, None, None, None, None, None)

  function Pick<T>(later: Option<T>, earlier: Option<T>): (r: Option<T>)
    ensures r == if later.Some? then later else earlier
  {
    if later.Some? then later else earlier
  }

  /** `{ ...l, ...p }` on a line: every field the patch holds replaces the line's. */
  function PatchLine(l: Line, p: LinePatch): (r: Line)
    ensures Overrides(p.id, l.id, r.id)
    ensures Overrides(p.inventoryItemId, l.inventoryItemId, r.inventoryItemId)
    ensures Overrides(p.name, l.name, r.name)
    ensures Overrides(p.vendorId, l.vendorId, r.vendorId)
    ensures Overrides(p.unitCost, l.unitCost, r.unitCost)
    ensures Overrides(p.qty, l.qty, r.qty)
    ensures Overrides(p.unit, l.unit, r.unit)
    ensures p.imageSrc.Some? ==> r.imageSrc == p.imageSrc
    ensures p.imageSrc.None? ==> r.imageSrc == l.imageSrc
  {
    Line(
      p.id.GetOr(l.id),
      p.inventoryItemId.GetOr(l.inventoryItemId),
      p.name.GetOr(l.name),
      p.vendorId.GetOr(l.vendorId),
      p.unitCost.GetOr(l.unitCost),
      p.qty.GetOr(l.qty),
      p.unit.GetOr(l.unit),
      Pick(p.imageSrc, l.imageSrc))
  }

  /** `{ ...a, ...b }` on partial drafts. */
  function Spread(a: DraftFields, b: DraftFields): DraftFields
  {
    DraftFields(
      Pick(b.id, a.id), Pick(b.name, a.name), Pick(b.category, a.category), Pick(b.active, a.active),
      Pick(b.imageSrc, a.imageSrc), Pick(b.sellingPrice, a.sellingPrice), Pick(b.lines, a.lines))
  }

  /** A whole draft seen as an object holding all its fields. */
  function Fields(d: Draft): (r: DraftFields)
    ensures r.id.Some? && r.name.Some? && r.category.Some? && r.active.Some?
    ensures r.sellingPrice.Some? && r.lines.Some?
  {
    DraftFields(Some(d.id), Some(d.name), Some(d.category), Some(d.active), d.imageSrc, Some(d.sellingPrice), Some(d.lines))
  }

  /** `{ ...draft, ...patch }` on a whole draft, which stays whole. */
  function PatchDraft(d: Draft, p: DraftFields): (r: Draft)
    ensures Fields(r) == Spread(Fields(d), p)
  {
    Draft(
      p.id.GetOr(d.id), p.name.GetOr(d.name), p.category.GetOr(d.category), p.active.GetOr(d.active),
      Pick(p.imageSrc, d.imageSrc), p.sellingPrice.GetOr(d.sellingPrice), p.lines.GetOr(d.lines))
  }

  /** Spreading the empty object changes nothing, on either side. */
  lemma SpreadNothing(a: DraftFields)
    ensures Spread(a, NoFields) == a && Spread(NoFields, a) == a
  {
  }

  /** Later spreads win, so spreading is associative. */
  lemma SpreadAssociative(a: DraftFields, b: DraftFields, c: DraftFields)
    ensures Spread(Spread(a, b), c) == Spread(a, Spread(b, c))
  {
  }

  /** `MENU-DRAFT-${String(Date.now())}`. */
  function DraftId(now: nat): (id: string)
    ensures StartsWith(id, "MENU-DRAFT-")
  {
    var id := "MENU-DRAFT-" + NatToDecimal(now);
    assert id[..|"MENU-DRAFT-"|] == "MENU-DRAFT-";
    id
  }

  /** The draft `createMenuDraft` stores under a new id. */
  function NewDraft(id: string): (d: Draft)
    ensures d.id == id && d.name == "New Menu Item" && d.category == "Mains"
    ensures d.active && d.sellingPrice == 0.0 && d.lines == [] && d.imageSrc == None
  {
    Draft(id, "New Menu Item", "Mains", true, None, 0.0, [])
  }

  /** `l => l.id === lineId`. */
  function IsLine(lineId: string): Line -> bool
  {
    (l: Line) => l.id == lineId
  }

  /** `l => l.id !== lineId`. */
  function NotLine(lineId: string): Line -> bool
  {
    (l: Line) => l.id != lineId
  }

  /** No two lines share an id. */
  predicate UniqueIds(lines: seq<Line>)
  {
    forall i, j :: 0 <= i < |lines| && 0 <= j < |lines| && lines[i].id == lines[j].id ==> i == j
  }
}
