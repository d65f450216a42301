/**
 * The menu-draft store that updates its record in place: a missing draft
 * makes every action but creation a no-op, a line is appended with
 * `push`, only the first line with a matching id is patched
 * (`findIndex` then `Object.assign`), and removal reassigns the filtered
 * lines. Its drafts are always whole.
 */
module MenuStoreInPlace {
  import opened Wrappers
  import opened Text
  import opened Lists
  import opened MenuTypes
  import MenuStore

  /** `findIndex` then `Object.assign`: only the first line with that id is patched. */
  function PatchFirst(lines: seq<Line>, lineId: string, patch: LinePatch): (r: seq<Line>)
    ensures |r| == |lines|
    ensures FirstIndex(lines, IsLine(lineId)).None? ==> r == lines
    ensures FirstIndex(lines, IsLine(lineId)).Some? ==>
      var k := FirstIndex(lines, IsLine(lineId)).value;
      r[k] == PatchLine(lines[k], patch) && forall j :: 0 <= j < |lines| && j != k ==> r[j] == lines[j]
  {
    match FirstIndex(lines, IsLine(lineId))
    case None => lines
    case Some(k) => lines[k := PatchLine(lines[k], patch)]
  }

  /** With unique line ids, patching the first match is patching every match. */
  lemma PatchFirstIsPatchAll(lines: seq<Line>, lineId: string, patch: LinePatch)
    requires UniqueIds(lines)
    ensures PatchFirst(lines, lineId, patch) == MapWhere(lines, IsLine(lineId), (l: Line) => PatchLine(l, patch))
  {
    var a := PatchFirst(lines, lineId, patch);
    var b := MapWhere(lines, IsLine(lineId), (l: Line) => PatchLine(l, patch));
    var k := FirstIndex(lines, IsLine(lineId));
    forall j | 0 <= j < |lines| ensures a[j] == b[j] {
      if k.Some? && j != k.value {
        assert lines[j].id != lineId;
      }
    }
  }

  /** When two lines share an id, the first-match store leaves the second one unpatched. */
  lemma PatchFirstSkipsLaterMatch(lines: seq<Line>, lineId: string, patch: LinePatch, i: nat, j: nat)
    requires i < j < |lines| && lines[i].id == lineId && lines[j].id == lineId
    ensures PatchFirst(lines, lineId, patch)[j] == lines[j]
  {
    var k := FirstIndex(lines, IsLine(lineId));
    assert IsLine(lineId)(lines[i]);
    assert k.Some? && k.value <= i;
  }

  /** The record seen as the rebuilding store sees it. */
  function View(drafts: map<string, Draft>): (r: MenuStore.Drafts)
    ensures r.Keys == drafts.Keys && MenuStore.AllWhole(r)
    ensures forall k :: k in drafts ==> r[k] == Fields(drafts[k])
  {
    map k | k in drafts :: Fields(drafts[k])
  }

  class Store {
    /** `menuDrafts.value`. */
    var drafts: map<string, Draft>

    /** A new store holds no drafts. */
    constructor ()
      ensures drafts == map[]
    {
      drafts := map[];
    }

    /** `createMenuDraft`, with `Date.now()` passed in. */
    method CreateMenuDraft(now: nat) returns (id: string)
      modifies this
      ensures id == DraftId(now) && StartsWith(id, "MENU-DRAFT-")
      ensures drafts == old(drafts)[id := NewDraft(id)]
    {
      id := DraftId(now);
      drafts := drafts[id := NewDraft(id)];
    }

    /** `updateMenuDraft`: a missing id is left alone; otherwise the patch is spread over the draft. */
    method UpdateMenuDraft(id: string, patch: DraftFields)
      modifies this
      ensures id !in old(drafts) ==> drafts == old(drafts)
      ensures id in old(drafts) ==> drafts == old(drafts)[id := PatchDraft(old(drafts)[id], patch)]
    {
      if id in drafts {
        drafts := drafts[id := PatchDraft(drafts[id], patch)];
      }
    }

    /** `addLine`: `draft.lines.push(line)`. */
    method AddLine(menuId: string, line: Line)
      modifies this
      ensures menuId !in old(drafts) ==> drafts == old(drafts)
      ensures menuId in old(drafts) ==>
        drafts == old(drafts)[menuId := old(drafts)[menuId].(lines := old(drafts)[menuId].lines + [line])]
    {
      if menuId in drafts {
        var d := drafts[menuId];
        drafts := drafts[menuId := d.(lines := d.lines + [line])];
      }
    }

    /** `updateLine`: only the first line with that id is patched. */
    method UpdateLine(menuId: string, lineId: string, patch: LinePatch)
      modifies this
      ensures menuId !in old(drafts) ==> drafts == old(drafts)
      ensures menuId in old(drafts) ==>
        drafts == old(drafts)[menuId := old(drafts)[menuId].(lines := PatchFirst(old(drafts)[menuId].lines, lineId, patch))]
    {
      if menuId in drafts {
        var d := drafts[menuId];
        var idx := FirstIndex(d.lines, IsLine(lineId));
        if idx.Some? {
          drafts := drafts[menuId := d.(lines := d.lines[idx.value := PatchLine(d.lines[idx.value], patch)])];
        }
      }
    }

    /** `removeLine`: `draft.lines = draft.lines.filter(l => l.id !== lineId)`. */
    method RemoveLine(menuId: string, lineId: string)
      modifies this
      ensures menuId !in old(drafts) ==> drafts == old(drafts)
      ensures menuId in old(drafts) ==>
        drafts == old(drafts)[menuId := old(drafts)[menuId].(lines := Filter(old(drafts)[menuId].lines, NotLine(lineId)))]
    {
      if menuId in drafts {
        var d := drafts[menuId];
        drafts := drafts[menuId := d.(lines := Filter(d.lines, NotLine(lineId)))];
      }
    }
  }

  // ----------------------------------------- agreement of the two stores

  /** Both stores create the same draft. */
  lemma CreateAgrees(drafts: map<string, Draft>, now: nat)
    ensures MenuStore.CreateMenuDraft(View(drafts), now).0 == View(drafts[DraftId(now) := NewDraft(DraftId(now))])
  {
  }

  /** On an existing draft both stores apply the same header update. */
  lemma UpdateAgrees(drafts: map<string, Draft>, id: string, patch: DraftFields)
    requires id in drafts
    ensures MenuStore.UpdateMenuDraft(View(drafts), id, patch) == View(drafts[id := PatchDraft(drafts[id], patch)])
  {
  }

  /** The two stores differ on a missing id: the in-place one ignores it, the other stores the patch. */
  lemma UpdateDisagreesOnMissingId(drafts: map<string, Draft>, id: string, patch: DraftFields)
    requires id !in drafts
    ensures id in MenuStore.UpdateMenuDraft(View(drafts), id, patch) && id !in View(drafts)
  {
  }

  /** Both stores append the same line. */
  lemma AddLineAgrees(drafts: map<string, Draft>, menuId: string, line: Line)
    requires menuId in drafts
    ensures MenuStore.AddLine(View(drafts), menuId, line)
         == Ok(View(drafts[menuId := drafts[menuId].(lines := drafts[menuId].lines + [line])]))
  {
    var a := MenuStore.AddLine(View(drafts), menuId, line).value;
    var b := View(drafts[menuId := drafts[menuId].(lines := drafts[menuId].lines + [line])]);
    assert a.Keys == b.Keys;
    assert a[menuId] == b[menuId];
    assert forall k :: k in a ==> a[k] == b[k];
    assert a == b;
  }

  /** Both stores remove the same lines. */
  lemma RemoveLineAgrees(drafts: map<string, Draft>, menuId: string, lineId: string)
    requires menuId in drafts
    ensures MenuStore.RemoveLine(View(drafts), menuId, lineId)
         == Ok(View(drafts[menuId := drafts[menuId].(lines := Filter(drafts[menuId].lines, NotLine(lineId)))]))
  {
    var a := MenuStore.RemoveLine(View(drafts), menuId, lineId).value;
    var b := View(drafts[menuId := drafts[menuId].(lines := Filter(drafts[menuId].lines, NotLine(lineId)))]);
    assert a.Keys == b.Keys;
    assert a[menuId] == b[menuId];
    assert forall k :: k in a ==> a[k] == b[k];
    assert a == b;
  }

  /** With unique line ids the two stores patch the same line. */
  lemma UpdateLineAgrees(drafts: map<string, Draft>, menuId: string, lineId: string, patch: LinePatch)
    requires menuId in drafts && UniqueIds(drafts[menuId].lines)
    ensures MenuStore.UpdateLine(View(drafts), menuId, lineId, patch)
         == Ok(View(drafts[menuId := drafts[menuId].(lines := PatchFirst(drafts[menuId].lines, lineId, patch))]))
  {
    PatchFirstIsPatchAll(drafts[menuId].lines, lineId, patch);
    var a := MenuStore.UpdateLine(View(drafts), menuId, lineId, patch).value;
    var b := View(drafts[menuId := drafts[menuId].(lines := PatchFirst(drafts[menuId].lines, lineId, patch))]);
    assert a.Keys == b.Keys;
    assert a[menuId] == b[menuId];
    assert forall k :: k in a ==> a[k] == b[k];
    assert a == b;
  }
}
