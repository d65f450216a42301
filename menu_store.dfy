/**
 * The menu-draft store that rebuilds its state on every action: each
 * action maps the record of drafts to a new record by spreading, `map`
 * and `filter`. A stored value is whatever object the spreads produced,
 * so it is a `DraftFields`; a line action on a stored object without
 * `lines` throws a `TypeError`.
 */
module MenuStore {
  import opened Wrappers
  import opened Text
  import opened Lists
  import opened MenuTypes

  type Drafts = map<string, DraftFields>

  /** Every field a created draft has is present. */
  predicate Whole(f: DraftFields)
  {
    f.id.Some? && f.name.Some? && f.category.Some? && f.active.Some? && f.sellingPrice.Some? && f.lines.Some?
  }

  predicate AllWhole(s: Drafts)
  {
    forall k :: k in s ==> Whole(s[k])
  }

  /** `createMenuDraft`, with `Date.now()` passed in: stores a fresh default draft and gives its id. */
  function CreateMenuDraft(s: Drafts, now: nat): (r: (Drafts, string))
    ensures StartsWith(r.1, "MENU-DRAFT-")
    ensures r.1 in r.0 && r.0[r.1] == Fields(NewDraft(r.1))
    ensures r.0.Keys == s.Keys + {r.1}
    ensures forall k :: k in s && k != r.1 ==> r.0[k] == s[k]
  {
    var id := DraftId(now);
    (s[id := Fields(NewDraft(id))], id)
  }

  /** `updateMenuDraft`: `{ ...s[id], ...patch }` under `id`, whether or not a draft was there. */
  function UpdateMenuDraft(s: Drafts, id: string, patch: DraftFields): (r: Drafts)
    ensures id in r && r[id] == Spread(if id in s then s[id] else NoFields, patch)
    ensures r.Keys == s.Keys + {id}
    ensures forall k :: k in s && k != id ==> r[k] == s[k]
  {
    s[id := Spread(if id in s then s[id] else NoFields, patch)]
  }

  /** On a whole draft the update replaces exactly the fields the patch holds. */
  lemma UpdateWholeDraft(s: Drafts, id: string, d: Draft, patch: DraftFields)
    requires id in s && s[id] == Fields(d)
    ensures UpdateMenuDraft(s, id, patch)[id] == Fields(PatchDraft(d, patch))
  {
  }

  /** On an id nobody created, the update stores the patch on its own, which need not be a whole draft. */
  lemma UpdateMissingStoresPatch(s: Drafts, id: string, patch: DraftFields)
    requires id !in s
    ensures UpdateMenuDraft(s, id, patch)[id] == patch
    ensures !Whole(patch) ==> !AllWhole(UpdateMenuDraft(s, id, patch))
  {
    SpreadNothing(patch);
  }

  /**
   * The shape every line action shares: a missing draft returns the state
   * as it was; a stored object without lines throws; otherwise only that
   * draft's lines are replaced by `f` of them.
   */
  function WithLines(s: Drafts, menuId: string, f: seq<Line> -> seq<Line>): (r: Result<Drafts>)
    ensures menuId !in s ==> r == Ok(s)
    ensures menuId in s && s[menuId].lines.None? ==> r.Threw?
    ensures menuId in s && s[menuId].lines.Some? ==>
      && r.Ok? && r.value.Keys == s.Keys
      && r.value[menuId] == s[menuId].(lines := Some(f(s[menuId].lines.value)))
      && forall k :: k in s && k != menuId ==> r.value[k] == s[k]
  {
    if menuId !in s then Ok(s)
    else if s[menuId].lines.None? then Threw("TypeError: draft.lines is undefined")
    else Ok(s[menuId := s[menuId].(lines := Some(f(s[menuId].lines.value)))])
  }

  /** `addLine`: `[...draft.lines, line]`. */
  function AddLine(s: Drafts, menuId: string, line: Line): (r: Result<Drafts>)
    ensures menuId in s && s[menuId].lines.Some? ==>
      r.Ok? && menuId in r.value && r.value[menuId].lines == Some(s[menuId].lines.value + [line])
  {
    WithLines(s, menuId, (ls: seq<Line>) => ls + [line])
  }

  /** `updateLine`: every line with that id is patched; the others keep their place and value. */
  function UpdateLine(s: Drafts, menuId: string, lineId: string, patch: LinePatch): (r: Result<Drafts>)
    ensures menuId in s && s[menuId].lines.Some? ==>
      var ls := s[menuId].lines.value;
      && r.Ok? && menuId in r.value && r.value[menuId].lines.Some?
      && var ls' := r.value[menuId].lines.value;
      && |ls'| == |ls|
      && forall j :: 0 <= j < |ls| ==> ls'[j] == if ls[j].id == lineId then PatchLine(ls[j], patch) else ls[j]
  {
    WithLines(s, menuId, (ls: seq<Line>) => MapWhere(ls, IsLine(lineId), (l: Line) => PatchLine(l, patch)))
  }

  /** `removeLine`: every line with that id goes; the rest stay in order. */
  function RemoveLine(s: Drafts, menuId: string, lineId: string): (r: Result<Drafts>)
    ensures menuId in s && s[menuId].lines.Some? ==>
      var ls := s[menuId].lines.value;
      && r.Ok? && menuId in r.value && r.value[menuId].lines == Some(Filter(ls, NotLine(lineId)))
      && forall l :: l in r.value[menuId].lines.value <==> l in ls && l.id != lineId
  {
    WithLines(s, menuId, (ls: seq<Line>) => Filter(ls, NotLine(lineId)))
  }

  /** The lines left by `removeLine` are the old lines with some dropped, in order. */
  lemma RemoveLineKeepsOrder(s: Drafts, menuId: string, lineId: string)
    requires menuId in s && s[menuId].lines.Some?
    ensures IsSubsequence(RemoveLine(s, menuId, lineId).value[menuId].lines.value, s[menuId].lines.value)
  {
    FilterIsSubsequence(s[menuId].lines.value, NotLine(lineId));
  }

  /** While every stored draft is whole, no line action throws and all drafts stay whole. */
  lemma LineActionsKeepWhole(s: Drafts, menuId: string, line: Line, lineId: string, patch: LinePatch)
    requires AllWhole(s)
    ensures AddLine(s, menuId, line).Ok? && AllWhole(AddLine(s, menuId, line).value)
    ensures UpdateLine(s, menuId, lineId, patch).Ok? && AllWhole(UpdateLine(s, menuId, lineId, patch).value)
    ensures RemoveLine(s, menuId, lineId).Ok? && AllWhole(RemoveLine(s, menuId, lineId).value)
  {
  }

  /** Creating keeps every draft whole; updating does when the id was already there. */
  lemma HeaderActionsKeepWhole(s: Drafts, now: nat, id: string, patch: DraftFields)
    requires AllWhole(s)
    ensures AllWhole(CreateMenuDraft(s, now).0)
    ensures id in s ==> AllWhole(UpdateMenuDraft(s, id, patch))
  {
  }

  /** Once an update on a missing id has stored a patch without lines, adding a line to it throws. */
  lemma AddLineAfterBlindUpdateThrows(s: Drafts, id: string, patch: DraftFields, line: Line)
    requires id !in s && patch.lines.None?
    ensures AddLine(UpdateMenuDraft(s, id, patch), id, line).Threw?
  {
    UpdateMissingStoresPatch(s, id, patch);
  }
}
