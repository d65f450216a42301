# Restaurant back office: a verified model of its page logic

This project models the logic of a restaurant back office that runs on mock data. Amounts are exact `real`s. Strings are `seq<char>`.

The model covers:

- **Shared mock tables.** Orders and invoices are prepended. An order is patched by id, and a receiving step sets its status. Invoice numbers are generated from the existing ones.
- **The menu-draft store, in two versions.** One rebuilds its state on every action. The other updates its record in place. They differ on a missing draft and on duplicate line ids, and the model proves where they agree and where they differ.
- **The line-item editors and their costing.** These are bills, bill detail, recipe detail, the menu item builder, waste entry, purchase-order detail and invoice detail. They have totals, GST and rounding to cents, guarded divisions, the 28 % and 35 % bands, the gates that decide whether a row may be added, sequential ids and CSV export.
- **The list filters and classifiers.**
  - A search box plus an inclusive date range.
  - Type and search filters.
  - Mapping a status to a badge kind.
  - Stock-level flags.
  - Recipe summary figures.
  - The navigation's active-link prefix rules.
- **The count session of a new inventory posting.**

Pages whose state changes step by step are classes with `modifies` clauses. Each such class has the page's fields and one method per handler. Pure derivations are functions with contracts, and lemmas relate them.

These become parameters of the model:

- the clock (`Date.now()`, today's date, the current time);
- `Math.random()` (the draw is `r`);
- `confirm()` (a boolean);
- `new Date(s).getTime()` (a function `timeOf` that gives `None` for `NaN`);
- JavaScript's `String(x)` of a non-integer number (a function `show`).

`toFixed(2)` becomes `Money.Round2` and `Money.Fixed2`: exact rounding of the real value to cents, half away from zero, and its decimal text.

Three behaviours of the code are easy to miss, and the model keeps them as written:

- The rebuilding store's `updateMenuDraft` on a missing id creates an entry holding only the patch. It does not ignore the id.
- A later line action on that entry throws (`Result.Threw`), because the entry has no `lines`.
- Item lookup's critical flag is `onHand < par * 0.5`, which can hold while `isLow` does not when `par` is negative.

## Model

| member | source | states |
|---|---|---|
| MockData.MockDb.constructor | app/utils/mockData.ts:3-30 | The tables start as the given orders, order items and invoices; the received-items and invoice-items records start empty. |
| MockData.MockDb.AddOrder | app/utils/mockData.ts:32-34 | The new order is at index 0 and every old order moves up one place, unchanged; the length grows by one. |
| MockData.WithStatus | app/utils/mockData.ts:36-39 | Only the first order with that id gets the new status; an unknown id leaves the list unchanged; the length is kept. |
| MockData.MockDb.UpdateOrderStatus | app/utils/mockData.ts:36-39 | The order list becomes `WithStatus` of the old list. |
| MockData.Merge | app/utils/mockData.ts:43 | `Object.assign`: field by field (id, vendor id and name, both dates, status, total, item count, memo), a value the patch supplies is taken from it, and an unmentioned field is kept. |
| MockData.MergeNothing | app/utils/mockData.ts:43 | Merging an empty patch leaves the order as it was. |
| MockData.MergeTwice | app/utils/mockData.ts:43 | Merging the same patch twice is merging it once. |
| MockData.Patched | app/utils/mockData.ts:41-43 | Only the first order with that id is merged with the patch; no match leaves the list unchanged. |
| MockData.WithStatusIsPatch | app/utils/mockData.ts:36-43 | Setting a status is the same as merging a patch that holds only that status. |
| MockData.MockDb.UpdateOrder | app/utils/mockData.ts:41-45 | The orders are patched by id. When items are passed, the items entry for that id is replaced even if no order has that id; otherwise the entry is kept. |
| MockData.ReceivedStatus | app/utils/mockData.ts:53 | The status is Received exactly when everything was received, and Partially Received exactly when it was not. |
| MockData.ReceivingSetsStatus | app/utils/mockData.ts:51-54 | After receiving, the first order with that PO id is Received exactly when everything was received. |
| MockData.MockDb.AddReceiving | app/utils/mockData.ts:51-54 | The received items for the PO are stored, and the order status is set through `WithStatus`. |
| MockData.MockDb.AddInvoice | app/utils/mockData.ts:56 | The invoice is prepended to the invoice list. |
| MockData.MockDb.AddInvoiceItems | app/utils/mockData.ts:58-60 | Only that invoice's items entry is overwritten; every other entry is kept. |
| Ids.IdsOf | app/utils/mockData.ts:63 | Lists the records' ids, in order; the invoices, bills and waste entries use it. |
| MockData.NextNumber | app/utils/mockData.ts:63-68 | The number is at least 1 and above every existing invoice's last-segment number, with a non-number read as 0. |
| MockData.InvoiceNumberShape | app/utils/mockData.ts:69-70 | The number is "INV-", the year and "-", followed by at least three digits that denote `NextNumber`. |
| MockData.InvoiceNumber | app/utils/mockData.ts:62-71 | The generated number starts with "INV-" and has at least nine characters. |
| MockData.InvoiceNumberSuffix | app/utils/mockData.ts:62-70 | Reading back the last segment of the generated number gives `NextNumber`. |
| MockData.InvoiceNumberIsNew | app/utils/mockData.ts:62-70 | The generated number's suffix is above every existing suffix, so no existing invoice has that id. |
| MockData.MockDb.GenerateInvoiceNumber | app/utils/mockData.ts:62-71 | Returns `InvoiceNumber` of the current invoices for the given year, and that id is not taken. |
| Ids.MaxWithZero | app/utils/mockData.ts:68 | `Math.max(0, ...xs)`: the result is at least 0 and every element, and it is 0 or one of the elements. |
| Ids.NextAbove | app/utils/mockData.ts:63-68 | One more than that maximum: it is at least 1 and above every id's suffix number. |
| Ids.NumberedShape | app/utils/mockData.ts:70 | prefix + `padStart(width, "0")`: the prefix, followed by at least `width` digits that denote the number. |
| Ids.NumberedSuffix | app/utils/mockData.ts:63-70 | With a prefix ending in "-", the last segment of a numbered id parses back to its number. |
| Ids.Numbered | app/utils/mockData.ts:70 | The id starts with its prefix and is at least `width` characters longer than it. |
| Ids.SuffixNumber | app/utils/mockData.ts:64-66 | The number read from the part after the last "-" is never negative, because that part holds no "-". |
| Ids.NumberedInjective | app/utils/mockData.ts:70 | Different numbers under the same prefix give different ids. |
| Ids.NextAboveIsNew | app/utils/mockData.ts:62-70 | An id numbered with `NextAbove(ids)` is none of the ids. |
| Text.ParsePadded | app/utils/mockData.ts:65 | `parseInt(s, 10)` of a zero-padded decimal gives back the number. |
| Text.ParseInt | app/utils/mockData.ts:65 | `parseInt(s, 10)`; `ParsePadded` proves it reads a zero-padded decimal back. |
| Text.LastSegmentOf | app/utils/mockData.ts:64-65 | The last segment of `p + sep + t` is `t` when `t` has no separator. |
| Text.NatToDecimal | app/utils/mockData.ts:70 | `String(n)` for a whole number: a non-empty digit string that denotes `n`, with no leading zero. |
| Text.PadStart | app/utils/mockData.ts:70 | `padStart`: the string is kept at the end, the fill is at the front, and the length is the larger of the two. |
| MenuTypes.PatchLine | client/src/lib/menuStore.ts:85 | `{ ...l, ...patch }`: field by field (id, item id, name, vendor, unit cost, qty, unit, image), a value the patch supplies replaces the line's, and an unmentioned field is kept. |
| MenuTypes.PatchDraft | stores/menu.ts:41 | `{ ...draft, ...patch }` on a whole draft, stated as a spread of its fields. |
| MenuTypes.SpreadNothing | client/src/lib/menuStore.ts:56-59 | Spreading an empty patch, or spreading onto nothing, gives the other side back. |
| MenuTypes.SpreadAssociative | client/src/lib/menuStore.ts:56-59 | Two patches spread one after the other are one combined patch. |
| MenuTypes.DraftId | client/src/lib/menuStore.ts:36 | The new draft id starts with "MENU-DRAFT-". |
| MenuTypes.NewDraft | client/src/lib/menuStore.ts:40-47 | The new draft is named "New Menu Item", in "Mains", active, price 0, with no lines. |
| MenuStore.CreateMenuDraft | client/src/lib/menuStore.ts:35-51 | Exactly one draft is added under the returned "MENU-DRAFT-" id, with the default fields; every other draft is kept. |
| MenuStore.UpdateMenuDraft | client/src/lib/menuStore.ts:52-61 | The entry becomes the old one (or nothing) spread with the patch; the keys gain only that id; the other drafts are kept. |
| MenuStore.UpdateWholeDraft | client/src/lib/menuStore.ts:52-61 | On an existing whole draft, the update is the header patch of that draft. |
| MenuStore.UpdateMissingStoresPatch | client/src/lib/menuStore.ts:56-59 | On a missing id, the new entry is just the patch, and an incomplete patch leaves a draft record that is not whole. |
| MenuStore.WithLines | client/src/lib/menuStore.ts:62-103 | A missing draft leaves the state unchanged. A record without lines throws. Otherwise only that draft's lines change; the keys, the other drafts and its header fields are kept. |
| MenuStore.AddLine | client/src/lib/menuStore.ts:62-75 | The line is appended at the end of that draft's lines. |
| MenuStore.UpdateLine | client/src/lib/menuStore.ts:76-89 | Every line with a matching id is patched; other lines and the order are kept. |
| MenuStore.RemoveLine | client/src/lib/menuStore.ts:90-103 | Every line with that id is removed and every other line is kept. |
| MenuStore.RemoveLineKeepsOrder | client/src/lib/menuStore.ts:99 | The remaining lines keep their order. |
| MenuStore.LineActionsKeepWhole | client/src/lib/menuStore.ts:62-103 | On a store of whole drafts, the line actions never throw and they keep every draft whole. |
| MenuStore.HeaderActionsKeepWhole | client/src/lib/menuStore.ts:35-61 | Creating a draft, or updating an existing one, keeps a store of whole drafts whole. |
| MenuStore.AddLineAfterBlindUpdateThrows | client/src/lib/menuStore.ts:56-75 | An update of a missing id without lines, followed by `addLine` on it, throws. |
| MenuStoreInPlace.PatchFirst | stores/menu.ts:53-56 | `findIndex` then `Object.assign`: only the first matching line is patched; no match leaves the lines unchanged. |
| MenuStoreInPlace.PatchFirstIsPatchAll | stores/menu.ts:53-56 | With unique line ids, patching the first match is patching every match. |
| MenuStoreInPlace.PatchFirstSkipsLaterMatch | stores/menu.ts:53-56 | When two lines share an id, the later one is left unpatched. |
| MenuStoreInPlace.View | stores/menu.ts:23 | The in-place record as the rebuilding store sees it: same keys, every draft whole. |
| MenuStoreInPlace.Store.constructor | stores/menu.ts:23 | The store starts with no drafts. |
| MenuStoreInPlace.Store.CreateMenuDraft | stores/menu.ts:25-36 | Returns a "MENU-DRAFT-" id and stores the default draft under it. |
| MenuStoreInPlace.Store.UpdateMenuDraft | stores/menu.ts:38-42 | A missing id is left alone; otherwise the patch is merged into the draft. |
| MenuStoreInPlace.Store.AddLine | stores/menu.ts:44-48 | The line is pushed at the end; a missing draft leaves the store unchanged. |
| MenuStoreInPlace.Store.UpdateLine | stores/menu.ts:50-57 | Only the first line with a matching id is patched; all else is unchanged. |
| MenuStoreInPlace.Store.RemoveLine | stores/menu.ts:59-63 | The lines become the filtered lines; a missing draft is left alone. |
| MenuStoreInPlace.CreateAgrees | stores/menu.ts:25-36 | Both stores create the same draft. |
| MenuStoreInPlace.UpdateAgrees | stores/menu.ts:38-42 | On an existing draft both stores apply the same header update. |
| MenuStoreInPlace.UpdateDisagreesOnMissingId | stores/menu.ts:38-42 | On a missing id the rebuilding store gains an entry; the in-place one does not. |
| MenuStoreInPlace.AddLineAgrees | stores/menu.ts:44-48 | Both stores append the same line. |
| MenuStoreInPlace.RemoveLineAgrees | stores/menu.ts:59-63 | Both stores remove the same lines. |
| MenuStoreInPlace.UpdateLineAgrees | stores/menu.ts:50-57 | With unique line ids both stores patch the same line. |
| Lists.FirstIndex | stores/menu.ts:53 | `findIndex`: the index found satisfies the test and no earlier one does; none is found exactly when no element satisfies it. |
| Lists.Find | app/utils/mockData.ts:37 | `find`: the first element that satisfies the test, or none exactly when no element does. |
| Lists.Filter | client/src/pages/inventory/waste.tsx:140 | `filter`: an element is kept exactly when it satisfies the test and is in the input. |
| Lists.FilterIsSubsequence | client/src/pages/inventory/waste.tsx:140 | A filter keeps the input's order. |
| Lists.MapWhere | client/src/lib/menuStore.ts:85 | `map` with a conditional update: each matching element is updated, each other one is kept. |
| Lists.UpdateAt | client/src/pages/purchasing/bills.tsx:252-254 | Only the element at the index is updated, when the index is in range. |
| Lists.RemoveAt | client/src/pages/purchasing/bills.tsx:256-258 | Exactly the element at the index is dropped and the others keep their order; an index out of range changes nothing. |
| Lists.SumOfAppend | client/src/pages/purchasing/bills.tsx:109 | A `reduce` sum over two joined lists is the sum of the two sums. |
| Lists.SumOfUpdate | client/src/pages/purchasing/bills.tsx:109 | Replacing one element changes the sum by the difference of the two terms. |
| Money.Cents | client/src/pages/purchasing/bills.tsx:113 | Rounds to a whole number of cents, at most half a cent away, keeping the sign. |
| Money.Round2 | client/src/pages/purchasing/bills.tsx:113 | `Number(x.toFixed(2))`: at most half a cent from `x`, and not negative for a non-negative `x`. |
| Money.Round2OfCents | client/src/pages/purchasing/bills.tsx:117 | A whole number of cents is left as it is. |
| Money.Round2Idempotent | client/src/pages/purchasing/bills.tsx:117 | Rounding twice is rounding once. |
| Money.Round2Monotone | client/src/pages/purchasing/bills.tsx:113-117 | Rounding keeps order. |
| Money.ClampNonNegative | client/src/pages/inventory/waste.tsx:260 | `v < 0 ? 0 : v`: a negative value gives 0, and a non-negative value is kept. |
| Money.TwoDigits | client/src/pages/purchasing/bills.tsx:204 | Two digits that denote a number below 100. |
| Money.Fixed2 | client/src/pages/purchasing/bills.tsx:204-206 | `toFixed(2)`; `Fixed2Denotes` proves the text is the sign, whole part, point and two digits of `Round2(x)`. |
| Money.Fixed2Denotes | client/src/pages/purchasing/bills.tsx:204-206 | `toFixed(2)`: an optional sign, digits, a point and two digits, which together denote the rounded value. |
| Csv.Escape | client/src/pages/purchasing/bills.tsx:211 | `replace(/"/g, '""')` adds exactly one character per double quote, and a value with no quote is unchanged. |
| Csv.Quote | client/src/pages/purchasing/bills.tsx:211 | A quoted field is two characters longer than its escaped value, and opens and closes with a double quote. |
| Csv.QuoteAll | client/src/pages/purchasing/bills.tsx:211 | Every field of a row is quote-wrapped. |
| Csv.RowsText | client/src/pages/purchasing/bills.tsx:211 | Every row becomes its comma-joined quoted fields. |
| Csv.Row | client/src/pages/purchasing/bills.tsx:211 | An empty row is the empty line; any other row begins with its first field quoted. |
| Csv.Document | client/src/pages/purchasing/bills.tsx:211-212 | No rows give the empty text; otherwise the document begins with its first row, the header. |
| Csv.ReadEscaped | client/src/pages/purchasing/bills.tsx:211 | An escaped field followed by its closing quote reads back as the field. |
| Csv.ReadRow | client/src/pages/purchasing/bills.tsx:211 | A row of quoted fields joined by "," reads back as those fields. |
| Csv.ReadBack | client/src/pages/purchasing/bills.tsx:211-212 | A document of rows joined by "\n" reads back as exactly those rows: the quoting has an inverse. |
| Text.TrimEmptyIff | client/src/pages/purchasing/bills.tsx:123 | `trim()` gives "" exactly when the input is all whitespace. |
| Text.Trim | client/src/pages/purchasing/bills.tsx:123 | `trim()`; `TrimEmptyIff` and `TrimHasNoOuterSpace` state what it leaves. |
| Text.TrimHasNoOuterSpace | client/src/pages/purchasing/bills.tsx:123 | A trimmed string starts and ends with something other than whitespace. |
| Text.ToLower | client/src/pages/purchasing/bills.tsx:123 | Lower-cases every ASCII letter and keeps every other character. |
| Text.ToLowerIdempotent | client/src/pages/purchasing/bills.tsx:129 | Lower-casing twice is lower-casing once. |
| Text.IncludesInPart | client/src/pages/purchasing/bills.tsx:129-130 | A query found in one part of a haystack is found in the whole haystack. |
| Filters.Query | client/src/pages/purchasing/bills.tsx:123 | The normalised query is empty exactly when the search box holds only whitespace. |
| Filters.EmptySearchMatches | client/src/pages/purchasing/bills.tsx:130 | A blank search matches every row. |
| Filters.Matches | client/src/pages/purchasing/bills.tsx:130 | An empty query keeps every record, and a query longer than the haystack keeps none. |
| Filters.MatchesIgnoresCase | client/src/pages/purchasing/bills.tsx:129-130 | Matching does not depend on the case of the haystack. |
| Filters.Bound | client/src/pages/purchasing/bills.tsx:124-125 | An empty date box gives no bound. |
| Filters.InRangeIff | client/src/pages/purchasing/bills.tsx:133-138 | With both bounds, a date is kept exactly when `from <= t < to + one day`: the end day is included. |
| Filters.InRange | client/src/pages/purchasing/bills.tsx:133-138 | A date that does not parse (`NaN` compares false) is never filtered out, and with neither bound nothing is. |
| Filters.InRangeUnbounded | client/src/pages/inventory/posting.tsx:19-20 | With no bounds every date is kept. |
| Filters.Clear | client/src/pages/inventory/posting.tsx:96 | Clear resets the search and both dates to empty. |
| Filters.ClearedKeepsAll | client/src/pages/inventory/posting.tsx:96 | After Clear, every row passes both the search and the date test. |
| Bills.Subtotal | client/src/pages/purchasing/bills.tsx:108-110 | The sum of qty × unitPrice, not negative when no line is negative. |
| Bills.GstAmount | client/src/pages/purchasing/bills.tsx:112-114 | Whole cents, within half a cent of subtotal × rate / 100. |
| Bills.Total | client/src/pages/purchasing/bills.tsx:116-118 | Whole cents, within half a cent of the subtotal plus the GST amount. |
| Bills.CanAddBill | client/src/pages/purchasing/bills.tsx:120 | `canAddBill`: a date, at least one line, a positive total and a payer; the gate of `AddBill`. |
| Bills.TotalsAreRounded | client/src/pages/purchasing/bills.tsx:112-118 | The GST amount and the total are whole cents, and the total is within a cent of subtotal × (1 + rate/100). |
| Bills.SubtotalAfterUpdate | client/src/pages/purchasing/bills.tsx:252-254 | Changing one line changes the subtotal by that line's difference. |
| Bills.CountBasedBillIdRepeats | client/src/pages/purchasing/bills.tsx:175-177 | After a delete, the id "row count + 1" can equal the id of a remaining bill. |
| Bills.FreshBillId | client/src/pages/purchasing/bills.tsx:175-177 | A new bill id that no existing row has. |
| Bills.FreshBillIdWithoutGaps | client/src/pages/purchasing/bills.tsx:175-177 | While the rows are numbered without gaps, the fresh id equals the page's count-based id. |
| Bills.CountDownSuffixes | client/src/pages/purchasing/bills.tsx:175-177 | Rows numbered from the count down to 1 have exactly those suffix numbers. |
| Bills.SuffixOfBillId | client/src/pages/purchasing/bills.tsx:177 | A bill id's number reads back from it. |
| Bills.FilteredBills | client/src/pages/purchasing/bills.tsx:122-141 | A row is listed exactly when it matches the search and its date is in range. |
| Bills.FilteredBillsInOrder | client/src/pages/purchasing/bills.tsx:127 | The listed rows keep the order of the rows. |
| Bills.TotalInRange | client/src/pages/purchasing/bills.tsx:143-158 | The sum of the totals of the bills in the date range; `TotalInRangeIgnoresSearch` and `TotalInRangePrepend` state what it depends on. |
| Bills.TotalInRangeIgnoresSearch | client/src/pages/purchasing/bills.tsx:143-158 | The in-range total is the sum of the totals listed with the same dates and a blank search. |
| Bills.TotalInRangePrepend | client/src/pages/purchasing/bills.tsx:143-158 | A new row adds its total to the in-range total exactly when its date is in range. |
| Bills.PickerItems | client/src/pages/purchasing/bills.tsx:99-106 | A blank query offers the whole inventory; otherwise an item is offered exactly when its name, id, sku or category matches. |
| Bills.PickerShown | client/src/pages/purchasing/bills.tsx:386 | The picker shows the first thirty matches in order, or all of them when there are fewer. |
| Bills.CsvRow | client/src/pages/purchasing/bills.tsx:197-209 | Eleven fields: the id first, then the stored subtotal, GST and total to two decimals. |
| Bills.CsvRows | client/src/pages/purchasing/bills.tsx:197 | One CSV row per listed bill, in order. |
| Bills.ExportCsv | client/src/pages/purchasing/bills.tsx:194-211 | The header and one row per listed bill, quoted; `ExportReadsBack` reads it back. |
| Bills.ExportReadsBack | client/src/pages/purchasing/bills.tsx:194-212 | The export reads back as the header followed by one row per listed bill. |
| Bills.WithInventoryItem | client/src/pages/purchasing/bills.tsx:223-246 | An unknown item changes nothing. An item already present raises only that line's qty by 1, rounded. Otherwise a line with qty 1 at the item's cost is appended. |
| Bills.WithInventoryItemKeepsUnique | client/src/pages/purchasing/bills.tsx:223-246 | The lines stay unique by inventory item. |
| Bills.NewRow | client/src/pages/purchasing/bills.tsx:176-188 | A blank supplier is stored as "(No supplier)" and a blank reference as "-"; the subtotal, GST amount and total are the computed ones. |
| Bills.BillsPage.constructor | client/src/pages/purchasing/bills.tsx:81-93 | The form starts at today, Petty Cash, 8 % GST, paid by Cashier, with no items; the rows are the fixtures. |
| Bills.BillsPage.ResetForm | client/src/pages/purchasing/bills.tsx:160-170 | The form goes back to its defaults; the rows are kept. |
| Bills.BillsPage.AddBill | client/src/pages/purchasing/bills.tsx:172-192 | Without a date, items, a positive total and a payer, nothing changes. Otherwise the new row, numbered as the page numbers it (`CountBasedBillId`, which can repeat an id), is prepended, and every form field goes back to its default: date today, no supplier, Petty Cash, 8 %, Cashier, no reference, no items. |
| Bills.BillsPage.AddBillAs | client/src/pages/purchasing/bills.tsx:172-192 | With the id given: without `canAddBill` nothing changes; otherwise the new bill goes first and the whole form is reset to its opening values. |
| Bills.BillsPage.AddBillFresh | client/src/pages/purchasing/bills.tsx:172-192 | The corrected handler: the same gate and reset, with the new row numbered by `FreshBillId`. Whenever the gate is open, no other row has the new id. |
| Bills.BillsPage.DeleteBill | client/src/pages/purchasing/bills.tsx:612 | The rows with that id are removed. |
| Bills.BillsPage.AddInventoryItem | client/src/pages/purchasing/bills.tsx:223-246 | The items become `WithInventoryItem` of the old items. |
| Bills.BillsPage.UpdateItem | client/src/pages/purchasing/bills.tsx:252-254 | Only the line at the index is patched. |
| Bills.PatchItem | client/src/pages/purchasing/bills.tsx:252-254 | `{ ...item, ...patch }`: each field the patch supplies replaces the line's, and every other field stays. |
| Bills.BillsPage.RemoveItem | client/src/pages/purchasing/bills.tsx:256-258 | Exactly the line at the index is dropped. |
| BillDetail.BillFor | client/src/pages/purchasing/bill-detail.tsx:35 | The bill whose id equals the route id, or none exactly when no bill has it. |
| BillDetail.BillForIsFirst | client/src/pages/purchasing/bill-detail.tsx:35 | It is the first bill with that id. |
| BillDetail.Summary | client/src/pages/purchasing/bill-detail.tsx:62-73 | Ten fields, with the stored subtotal, GST and total, not values recomputed from the items. |
| BillDetail.ItemRow | client/src/pages/purchasing/bill-detail.tsx:76 | The line total is qty × unitPrice to two decimals. |
| BillDetail.ItemRows | client/src/pages/purchasing/bill-detail.tsx:76 | One row per item, in order. |
| BillDetail.ExportRows | client/src/pages/purchasing/bill-detail.tsx:60-77 | A header, the summary row, an empty row, the item header, then one row per item. |
| BillDetail.Export | client/src/pages/purchasing/bill-detail.tsx:59 | Nothing is exported exactly when there is no bill. |
| BillDetail.ExportReadsBack | client/src/pages/purchasing/bill-detail.tsx:60-79 | The exported text reads back as exactly those rows. |
| RecipeDetail.TotalCost | client/src/pages/recipes/detail.tsx:85 | The sum of quantity × unitCost, not negative when no line is negative. |
| RecipeDetail.CostPerPortion | client/src/pages/recipes/detail.tsx:86 | Times the yield it gives the total when the yield is positive; otherwise it is 0. |
| RecipeDetail.FoodCostPercent | client/src/pages/recipes/detail.tsx:87 | Times the menu price it gives cost per portion × 100 when the price is positive; otherwise it is 0. |
| RecipeDetail.FoodCostPercentNonNegative | client/src/pages/recipes/detail.tsx:85-87 | With no negative line, the food cost % is not negative. |
| RecipeDetail.MessageFor | client/src/pages/recipes/detail.tsx:445-451 | The four messages are disjoint and exhaustive: exactly 0, at most 28, at most 35, above 35. |
| RecipeDetail.TextTone | client/src/pages/recipes/detail.tsx:415-442 | The text colour is never the muted one. |
| RecipeDetail.PanelTone | client/src/pages/recipes/detail.tsx:402-408 | The panel is muted exactly when the food cost percentage is not positive. |
| RecipeDetail.MessageMonotone | client/src/pages/recipes/detail.tsx:445-451 | A higher positive percentage never gives a better message. |
| RecipeDetail.TonesAgreeWhenPositive | client/src/pages/recipes/detail.tsx:400-451 | For a positive percentage, the panel, the text colour and the message name the same band. |
| RecipeDetail.NegativePercentMixedTones | client/src/pages/recipes/detail.tsx:400-451 | For a negative percentage, the panel is muted while the text says excellent. |
| RecipeDetail.BarWidth | client/src/pages/recipes/detail.tsx:436 | `min(p, 100)`. |
| RecipeDetail.AddedIngredient | client/src/pages/recipes/detail.tsx:89-99 | One line is appended: quantity 1, unit "EA", cost 0, no item. |
| RecipeDetail.UpdatedIngredient | client/src/pages/recipes/detail.tsx:101-103 | Only the lines with that id are patched. |
| RecipeDetail.Patch | client/src/pages/recipes/detail.tsx:101-103 | `{ ...ing, [field]: value }`: the id is kept, a field given replaces the old one, and the others stay. |
| RecipeDetail.KeptUnit | client/src/pages/recipes/detail.tsx:117 | The line's unit is kept unless it is empty or "-", in which case the item's unit is taken. |
| RecipeDetail.SelectedItem | client/src/pages/recipes/detail.tsx:105-122 | An unknown item changes nothing; otherwise the matching lines get the item's id, name and cost, and `KeptUnit`. |
| RecipeDetail.RemovedIngredient | client/src/pages/recipes/detail.tsx:124-126 | A line is kept exactly when its id differs. |
| RecipeDetail.RemovedIngredientCost | client/src/pages/recipes/detail.tsx:85-126 | Removing lines lowers the total cost by exactly their cost. |
| RecipeDetail.PresetLines | client/src/pages/recipes/detail.tsx:69-79 | RCP-001 opens with its three fixed lines, RCP-002 with its two, any other recipe with none. |
| RecipeDetail.PresetCosts | client/src/pages/recipes/detail.tsx:69-85 | The sample recipes open with total costs 3.0625 (RCP-001) and 1.25 (RCP-002). |
| RecipeDetail.RecipeEditor.constructor | client/src/pages/recipes/detail.tsx:49-83 | A new recipe, or an empty id, loads only the defaults, with no lines. An existing recipe takes its name, category, yield and price from the record and opens with `PresetLines` of its id. An unknown id keeps the defaults. |
| RecipeDetail.RecipeEditor.AddIngredient | client/src/pages/recipes/detail.tsx:89-99 | The ingredients become `AddedIngredient` of the old ones. |
| RecipeDetail.RecipeEditor.UpdateIngredient | client/src/pages/recipes/detail.tsx:101-103 | The ingredients become `UpdatedIngredient` of the old ones. |
| RecipeDetail.RecipeEditor.SelectInventoryItem | client/src/pages/recipes/detail.tsx:105-122 | The ingredients become `SelectedItem` of the old ones. |
| RecipeDetail.RecipeEditor.RemoveIngredient | client/src/pages/recipes/detail.tsx:124-126 | The ingredients become `RemovedIngredient` of the old ones. |
| MenuItemNew.PreferredVendorId | client/src/pages/recipes/menu-item-new.tsx:35-38 | A vendor whose catalogue has the sku, or "-" when no vendor has it. |
| MenuItemNew.Pickables | client/src/pages/recipes/menu-item-new.tsx:124-133 | Only Raw and Prep items; an item is offered exactly when it matches the query on name, id, sku, category and type; a blank query keeps all of them. |
| MenuItemNew.Listed | client/src/pages/recipes/menu-item-new.tsx:251 | The first 30 pickable items, or all of them when there are fewer. |
| Lists.Take | client/src/pages/recipes/menu-item-new.tsx:251 | `slice(0, n)`: the first `n` elements in order, all of them when there are fewer. |
| MenuItemNew.TotalCost | client/src/pages/recipes/menu-item-new.tsx:135-140 | 0 with no draft. A stored record without lines throws. Otherwise the cost is within half a cent of the sum of qty × unitCost, and a whole number of cents. |
| MenuItemNew.FoodCostPercent | client/src/pages/recipes/menu-item-new.tsx:143 | For a positive price, the percentage times the price is 100 × the cost; otherwise 0. |
| MenuItemNew.SellingPrice | client/src/pages/recipes/menu-item-new.tsx:142 | The draft's price when it has one; 0 when there is no draft or no price. |
| MenuItemNew.FoodCostIgnoresYield | client/src/pages/recipes/menu-item-new.tsx:142-143 | The page's food cost % is the recipe page's formula with the yield fixed at 1. |
| MenuItemNew.IsNewCases | client/src/pages/recipes/menu-item-new.tsx:144 | A fresh draft id counts as new, and so does the existing id "MENU-001". |
| MenuItemNew.IsNew | client/src/pages/recipes/menu-item-new.tsx:144 | `isNew`: the id starts with "MENU-"; its cases are in `IsNewCases`. |
| MenuItemNew.ToneMatchesRecipePage | client/src/pages/recipes/menu-item-new.tsx:431-435 | Red above 35 and amber above 28 give the same colour as the recipe page's text colour. |
| MenuItemNew.Tone | client/src/pages/recipes/menu-item-new.tsx:431-435 | Red above 35, amber above 28, emerald otherwise; `ToneMatchesRecipePage` ties it to the recipe page. |
| MenuItemNew.PickedLine | client/src/pages/recipes/menu-item-new.tsx:256-267 | The picked line has qty 1, the item's cost, unit and id, and the preferred vendor. |
| MenuItemNew.PickAddsOneLine | client/src/pages/recipes/menu-item-new.tsx:256-267 | Picking an item appends exactly that one line to the draft. |
| MenuItemNew.QtyEdit | client/src/pages/recipes/menu-item-new.tsx:340-342 | Every line with that id gets the quantity clamped to 0 or more; the other lines are kept. |
| MenuItemNew.Hydrate | client/src/pages/recipes/menu-item-new.tsx:55-118 | A draft already loaded, no id, or a "MENU-DRAFT" id leaves the store unchanged. Otherwise the id is added exactly when it is an inventory id or one of MENU-001 to MENU-003: an inventory item gives its name and category, price 18.50 and the one fixed line; a hard-coded item gives its own fields. The new draft is whole and active, and every other draft is kept. |
| MenuItemNew.InventoryWithId | client/src/pages/recipes/menu-item-new.tsx:58 | The inventory item with that id; none exactly when no item has it. |
| MenuItemNew.KnownMenuItem | client/src/pages/recipes/menu-item-new.tsx:70-98 | A hard-coded draft exists exactly for MENU-001, MENU-002 and MENU-003, under its own id. |
| MenuItemNew.HydrateCheeseburger | client/src/pages/recipes/menu-item-new.tsx:70-116 | Opening MENU-001 on an empty store, with no inventory item of that id, loads "Classic Cheeseburger" at 14.00. |
| Waste.FilteredItems | client/src/pages/inventory/waste.tsx:78-80 | The items offered are exactly the inventory items of the selected type, in order. |
| Waste.SelectedItem | client/src/pages/inventory/waste.tsx:82-84 | The item with that id, or none exactly when no item has it. |
| Waste.UnitOptions | client/src/pages/inventory/waste.tsx:86-91 | The only unit offered is the selected item's; without an item, none is offered. |
| Waste.ExtendedCost | client/src/pages/inventory/waste.tsx:102 | Within half a cent of quantity × cost, and a whole number of cents. |
| Waste.CostPreview | client/src/pages/inventory/waste.tsx:93-104 | Shown exactly when an item, a unit and a positive quantity are present; the cost is 0 when not shown. |
| Waste.CanAdd | client/src/pages/inventory/waste.tsx:115 | `canAdd`: an item, a unit, a positive quantity, a date and a time; `CanAddShowsPreview` ties it to the preview. |
| Waste.CanAddShowsPreview | client/src/pages/inventory/waste.tsx:93-115 | Whenever a row may be added, its preview is shown. |
| Waste.CountBasedWasteIdRepeats | client/src/pages/inventory/waste.tsx:122 | After WST-0001 is deleted, the next entry gets WST-0002 again, and a delete of WST-0002 then removes both. |
| Waste.FreshWasteId | client/src/pages/inventory/waste.tsx:122 | A new entry id that no existing row has. |
| Waste.FreshWasteIdWithoutGaps | client/src/pages/inventory/waste.tsx:122 | While the rows are numbered without gaps, the fresh id equals the page's count-based id. |
| Waste.CountDownSuffixes | client/src/pages/inventory/waste.tsx:122 | Rows numbered from the count down to 1 have exactly those suffix numbers. |
| Waste.SuffixOfWasteId | client/src/pages/inventory/waste.tsx:122 | An entry id's number reads back from it. |
| Waste.SummaryRows | client/src/pages/inventory/waste.tsx:353-358 | The summary covers exactly the rows whose date equals the form date. |
| Waste.SummaryCount | client/src/pages/inventory/waste.tsx:353 | The number of entries on the form's date, at most the number of entries. |
| Waste.SummaryCost | client/src/pages/inventory/waste.tsx:358 | The cost of the entries on the form's date, not negative when no entry's cost is. |
| Waste.SummaryAfterAdd | client/src/pages/inventory/waste.tsx:135 | A new row adds 1 to the summary count, and its cost to the summary cost, exactly when its date is the form date. |
| Waste.NewRow | client/src/pages/inventory/waste.tsx:121-133 | The row records the item, the quantity and the item's on-hand, with a cost within half a cent of quantity × cost. |
| Waste.AddedCostIsPreviewed | client/src/pages/inventory/waste.tsx:102-131 | An added row's cost is the previewed cost. |
| Waste.WastePage.constructor | client/src/pages/inventory/waste.tsx:41-76 | The form starts at today and now, type Raw, no item or unit, quantity 0, reason Expired; the rows are the fixtures. |
| Waste.WastePage.SetType | client/src/pages/inventory/waste.tsx:187-191 | Changing the type clears the item and the unit; nothing else changes. |
| Waste.WastePage.SelectItem | client/src/pages/inventory/waste.tsx:205-209 | Selecting a known item sets the unit to that item's unit, which is then the only option. |
| Waste.WastePage.SetQuantity | client/src/pages/inventory/waste.tsx:258-261 | The stored quantity is `ClampNonNegative(v)`: a negative input is stored as 0, any other as given. |
| Waste.WastePage.ResetForm | client/src/pages/inventory/waste.tsx:106-113 | The form goes back to its defaults with the new time; the date and rows are kept. |
| Waste.WastePage.Add | client/src/pages/inventory/waste.tsx:117-137 | Without `canAdd` nothing changes. Otherwise a new row, numbered as the page numbers it (`CountBasedWasteId`, which can repeat an id), is prepended, and the form is reset: Raw, no item, no unit, quantity 0, Expired, the clock's time, the date kept. |
| Waste.WastePage.AddAs | client/src/pages/inventory/waste.tsx:117-137 | With the id given: without `canAdd` nothing changes; otherwise the new entry goes first and the form is reset, the date kept. |
| Waste.WastePage.AddFresh | client/src/pages/inventory/waste.tsx:117-137 | The corrected handler: the same gate and reset, with the new row numbered by `FreshWasteId`. Whenever the gate is open, no other row has the new id. |
| Waste.WastePage.DeleteRow | client/src/pages/inventory/waste.tsx:139-141 | Exactly the rows with that id are removed. |
| OrderDetail.FilteredVendors | client/src/pages/purchasing/order-detail.tsx:45-51 | A blank query gives all vendors; otherwise a vendor is listed exactly when its lower-cased id or name contains the query; order is kept. |
| OrderDetail.Total | client/src/pages/purchasing/order-detail.tsx:116-118 | The sum of quantity × cost, not negative when no line total is negative. |
| OrderDetail.TotalAfterAppend | client/src/pages/purchasing/order-detail.tsx:69-89 | Appending a line adds its quantity × cost to the total. |
| OrderDetail.PatchWhere | client/src/pages/purchasing/order-detail.tsx:106-110 | Only the items with that id are patched. |
| OrderDetail.PatchItem | client/src/pages/purchasing/order-detail.tsx:106-110 | `{ ...item, [field]: value }`: the id is kept, a field given replaces the old one, and the others stay. |
| OrderDetail.ProductPatchCopies | client/src/pages/purchasing/order-detail.tsx:91-104 | Selecting a product copies its name, sku, unit and price onto the line, and keeps the line's id and quantity. |
| OrderDetail.VendorName | client/src/pages/purchasing/order-detail.tsx:133 | The selected vendor's name when there is one and it is not empty; otherwise "Unknown Vendor". |
| OrderDetail.NewOrder | client/src/pages/purchasing/order-detail.tsx:130-139 | The new order is Open, with total = `Total(items)`, itemCount = number of items, and an id starting "PO-". |
| OrderDetail.OrderEditor.constructor | client/src/pages/purchasing/order-detail.tsx:28-67 | A known order id loads its vendor, delivery date and the two mock lines; otherwise the editor is empty. |
| OrderDetail.OrderEditor.SelectedVendor | client/src/pages/purchasing/order-detail.tsx:42 | The vendor with the chosen id, or none exactly when no vendor has it. |
| OrderDetail.OrderEditor.VendorProducts | client/src/pages/purchasing/order-detail.tsx:42-43 | The selected vendor's products; none without a selected vendor. |
| OrderDetail.OrderEditor.SetVendor | client/src/pages/purchasing/order-detail.tsx:225-229 | Changing the vendor clears all items and the search. |
| OrderDetail.OrderEditor.AddItem | client/src/pages/purchasing/order-detail.tsx:69-89 | With no vendor the items are unchanged; otherwise one line with quantity 1 and cost 0 is appended. |
| OrderDetail.OrderEditor.ProductSelect | client/src/pages/purchasing/order-detail.tsx:91-104 | A product not in the vendor's catalogue changes nothing; otherwise only the matching line is patched. |
| OrderDetail.OrderEditor.UpdateItem | client/src/pages/purchasing/order-detail.tsx:106-110 | Only the item with that id is patched. |
| OrderDetail.OrderEditor.RemoveItem | client/src/pages/purchasing/order-detail.tsx:112-114 | Exactly the items with that id are removed. |
| OrderDetail.OrderEditor.CreateOrder | client/src/pages/purchasing/order-detail.tsx:120-141 | A missing vendor is refused first, then an empty item list, and neither creates an order. Otherwise `NewOrder` is prepended to the shared orders. |
| InvoiceDetail.Gst | client/src/pages/purchasing/invoice-detail.tsx:63-64 | Within half a cent of subtotal × 0.06, and not negative for a non-negative subtotal. |
| InvoiceDetail.Total | client/src/pages/purchasing/invoice-detail.tsx:65 | The unrounded subtotal plus the rounded GST; `TotalIsNearGross` bounds it. |
| InvoiceDetail.TotalIsNearGross | client/src/pages/purchasing/invoice-detail.tsx:62-65 | The total is within half a cent of subtotal × 1.06. |
| InvoiceDetail.OwnNumberIsNotDuplicate | client/src/pages/purchasing/invoice-detail.tsx:86 | An existing invoice keeping its own number is not a duplicate. |
| InvoiceDetail.IsDuplicate | client/src/pages/purchasing/invoice-detail.tsx:86 | `isDuplicate`: an invoice other than the one on the route already has the number. |
| InvoiceDetail.ShowsFinalize | client/src/pages/purchasing/invoice-detail.tsx:139 | The Create/Finalize action is offered unless the loaded invoice is already Finalized. |
| InvoiceDetail.Save | client/src/pages/purchasing/invoice-detail.tsx:75-90 | The checks run in order: missing PO, then missing number, then duplicate. The save goes ahead exactly when all three pass. |
| InvoiceDetail.PoChoices | client/src/pages/purchasing/invoice-detail.tsx:255 | Exactly the orders that are not Closed, in order. |
| InvoiceDetail.WithQuantity | client/src/pages/purchasing/invoice-detail.tsx:68-73 | Only the quantity of the item with that id changes. |
| InvoiceDetail.InvoiceEditor.constructor | client/src/pages/purchasing/invoice-detail.tsx:22-59 | An existing invoice loads its PO, number and dates, and the PO's items. A new one starts from the `po` query parameter, with today's date. |
| InvoiceDetail.InvoiceEditor.SetPo | client/src/pages/purchasing/invoice-detail.tsx:53-59 | For a new invoice with a known PO, the items become a copy of that PO's items; otherwise the items are kept. |
| InvoiceDetail.InvoiceEditor.QuantityChange | client/src/pages/purchasing/invoice-detail.tsx:68-73 | The items become `WithQuantity` of the old ones. |
| PostingNew.IdSet | client/src/pages/inventory/posting-new.tsx:28 | Exactly the inventory's ids. |
| PostingNew.IdSetSize | client/src/pages/inventory/posting-new.tsx:207 | At most one id per item, and exactly one when the ids are unique. |
| PostingNew.InitialCounts | client/src/pages/inventory/posting-new.tsx:27-29 | One key per inventory id. |
| PostingNew.InitialCountsValue | client/src/pages/inventory/posting-new.tsx:27-29 | `Object.fromEntries`: each id holds the on-hand of the last item with that id. |
| PostingNew.InitialCountsAreOnHand | client/src/pages/inventory/posting-new.tsx:27-29 | With unique ids, every item starts at its on-hand. |
| PostingNew.PartialIff | client/src/pages/inventory/posting-new.tsx:207-214 | Fewer counted keys than items exactly when some item has no count. |
| PostingNew.CountSession.constructor | client/src/pages/inventory/posting-new.tsx:18-29 | Starts in setup, weekly, a new count, today, with the initial counts. |
| PostingNew.CountSession.Continue | client/src/pages/inventory/posting-new.tsx:31-33 | Setup moves to counting. |
| PostingNew.CountSession.Back | client/src/pages/inventory/posting-new.tsx:131 | Counting moves back to setup. |
| PostingNew.CountSession.Edit | client/src/pages/inventory/posting-new.tsx:43-48 | Empty input deletes that key; a negative value is refused; any other value is stored under that id. No other key changes. |
| PostingNew.CountSession.CountedAtMostInventory | client/src/pages/inventory/posting-new.tsx:207 | The number counted never exceeds the inventory size. |
| PostingNew.CountSession.PartialWhenUncounted | client/src/pages/inventory/posting-new.tsx:209-214 | The partial warning shows exactly when some item has no count. |
| PostingNew.CountSession.Counted | client/src/pages/inventory/posting-new.tsx:207 | "0 of m items counted" shows exactly when no count has been entered. |
| PostingNew.CountSession.IsPartial | client/src/pages/inventory/posting-new.tsx:209-214 | The warning needs a non-empty inventory, and before any entry it shows exactly when the inventory is not empty. |
| PostingList.Filtered | client/src/pages/inventory/posting.tsx:17-36 | A posting is listed exactly when it matches the search on id, location, creator and status and its date is in range. |
| PostingList.FilteredInOrder | client/src/pages/inventory/posting.tsx:22 | The listed postings keep their order. |
| PostingList.ClearedListsAll | client/src/pages/inventory/posting.tsx:96 | After Clear every posting is listed, in order. |
| PostingList.CsvRow | client/src/pages/inventory/posting.tsx:83 | Six fields per posting, under the header's columns: id, date, location, status label, `Completion(p)` and creator. |
| PostingList.CsvRows | client/src/pages/inventory/posting.tsx:83 | One row per listed posting, in order. |
| PostingList.ExportCsv | client/src/pages/inventory/posting.tsx:82-86 | The header and one row per listed posting, quoted; `ExportReadsBack` reads it back. |
| PostingList.ExportReadsBack | client/src/pages/inventory/posting.tsx:82-87 | The export reads back as the header followed by one row per listed posting. |
| PostingList.CompletionDenotes | client/src/pages/inventory/posting.tsx:83 | The completion text is two non-empty parts separated by "/". |
| PostingList.Completion | client/src/pages/inventory/posting.tsx:83 | The completion text is the counted number, "/", the total; its only "/" is the one between them. |
| StatusBadge.Resolve | client/src/components/common/StatusBadge.tsx:60-62 | An explicit type wins; otherwise the lower-cased status is looked up in the map, falling back to neutral. |
| StatusBadge.ResolveIgnoresCase | client/src/components/common/StatusBadge.tsx:61 | The status's case does not matter. |
| StatusBadge.Render | client/src/components/common/StatusBadge.tsx:60-75 | The text shown is the original status. The icon belongs to the resolved kind, and it is drawn only when `showIcon` is on. |
| StatusBadge.IconFor | client/src/components/common/StatusBadge.tsx:50-58 | The clock is drawn exactly for warning and pending, and the file icon exactly for neutral and draft. |
| StatusBadge.PendingOnlyByOverride | client/src/components/common/StatusBadge.tsx:21-38 | The pending kind comes only from an explicit type. |
| StatusBadge.OrderStatusKinds | client/src/components/common/StatusBadge.tsx:21-38 | Each order status's badge kind; Received and Closed are unmapped and so neutral. |
| StatusBadge.InvoiceStatusKinds | client/src/components/common/StatusBadge.tsx:21-38 | Each invoice status's badge kind. |
| Overview.CountsPartition | client/src/pages/recipes/overview.tsx:7-9 | The Menu, Prep and Raw counts add up to the inventory size. |
| Overview.CountOfType | client/src/pages/recipes/overview.tsx:7-9 | No type has more items than the inventory. |
| Overview.Positive | client/src/pages/recipes/overview.tsx:78 | Exactly the recipes with a positive food cost %. |
| Overview.AverageFoodCost | client/src/pages/recipes/overview.tsx:77-81 | Missing ("-") exactly when no recipe has a positive food cost %; otherwise positive. |
| Overview.AverageText | client/src/pages/recipes/overview.tsx:79-80 | "-" exactly when no recipe has a positive food cost %; otherwise the rendered average followed by "%". |
| Overview.AverageIsMean | client/src/pages/recipes/overview.tsx:79 | The average times the number of positive values is their sum. |
| Overview.NoPositiveIff | client/src/pages/recipes/overview.tsx:78-80 | No positive values exactly when no recipe has a positive food cost %. |
| Overview.Mean | client/src/pages/recipes/overview.tsx:79 | The quotient is the mean, and a positive total gives a positive mean. |
| Overview.SumOfPositive | client/src/pages/recipes/overview.tsx:79 | A non-empty list of positive values has a positive sum. |
| Overview.Highest | client/src/pages/recipes/overview.tsx:87-90 | None exactly for no recipes; otherwise the first recipe whose cost is at least every other's. |
| Overview.HighestText | client/src/pages/recipes/overview.tsx:89 | "-" exactly when there are no recipes. |
| MenuItems.MenuInventory | client/src/pages/recipes/menu-items.tsx:40 | Exactly the Menu-type inventory items. |
| MenuItems.Base | client/src/pages/recipes/menu-items.tsx:34-46 | The Menu-type items followed by the three hard-coded items, in that order. |
| MenuItems.FromInventory | client/src/pages/recipes/menu-items.tsx:40-46 | A Menu-type item becomes a row with its id, name and category, always active, with the thumbnail. |
| MenuItems.Fixtures | client/src/pages/recipes/menu-items.tsx:34-38 | The three fixed menu items; the first two are active and the third is not. |
| MenuItems.FixturesListed | client/src/pages/recipes/menu-items.tsx:34-47 | With nothing deleted and an empty search, the list ends with the three fixed items. |
| MenuItems.MenuList | client/src/pages/recipes/menu-items.tsx:40-54 | No deleted id is listed. An item is listed exactly when it is in the base list, not deleted, and matching. A blank query keeps every item that is not deleted. Order is kept. |
| MenuItems.MenuItemsPage.constructor | client/src/pages/recipes/menu-items.tsx:34-54 | Starts with no query and no deleted ids. |
| MenuItems.MenuItemsPage.Delete | client/src/pages/recipes/menu-items.tsx:56-65 | The id is added only when it is confirmed, so the set only grows. |
| MenuItems.DeletedIsNotListed | client/src/pages/recipes/menu-items.tsx:47-65 | Once deleted, an id no longer appears, whatever the query. |
| PrepItems.PrepList | client/src/pages/recipes/prep-items.tsx:15-24 | Only Prep items. An item is listed exactly when it matches on name, id, sku or category. A blank query gives every Prep item. Inventory order is kept. |
| PrepItems.PrepListIsOneFilter | client/src/pages/recipes/prep-items.tsx:17-23 | The two chained filters are one filter by both tests. |
| ItemLookup.StylingOf | client/src/pages/inventory/item-lookup.tsx:72 | Red exactly when low and critical, amber exactly when low but not critical, no styling exactly when not low. |
| ItemLookup.IsLow | client/src/pages/inventory/item-lookup.tsx:64 | `isLow`: on hand below par. |
| ItemLookup.IsCritical | client/src/pages/inventory/item-lookup.tsx:65 | `isCritical`: on hand below half of par. |
| ItemLookup.ShowsDot | client/src/pages/inventory/item-lookup.tsx:69-71 | The indicator dot is drawn exactly for a low item. |
| ItemLookup.CriticalIsLow | client/src/pages/inventory/item-lookup.tsx:64-65 | With a non-negative par, critical stock is also low, so it is red. |
| ItemLookup.NegativeParHidesCritical | client/src/pages/inventory/item-lookup.tsx:64-72 | With a negative par, an item can be critical and still show no dot and no styling. |
| AppShell.RootOnlyExact | client/src/components/layout/AppShell.tsx:96 | The "/" item is active only on "/" exactly. |
| AppShell.IsActive | client/src/components/layout/AppShell.tsx:96 | A top-level entry is active on an exact match, or on a prefix match unless it is "/". |
| AppShell.ActiveIsPrefix | client/src/components/layout/AppShell.tsx:96 | Any other top-level item is active exactly when the location starts with its link. |
| AppShell.ChildActiveIsPrefix | client/src/components/layout/AppShell.tsx:153 | A child link is active exactly when the location starts with it. |
| AppShell.ChildActive | client/src/components/layout/AppShell.tsx:153 | A child link is active on an exact or a prefix match. |
| AppShell.OverviewActiveUnderPurchasing | client/src/components/layout/AppShell.tsx:28-65 | On every /purchasing/ page the Purchasing entry of the navigation table and its "Overview" child are both active. |
| AppShell.PrefixIgnoresSegments | client/src/components/layout/AppShell.tsx:96 | The prefix test does not respect path segments: "/purchasingX" activates "/purchasing". |
| AppShell.IsPos | client/src/components/layout/AppShell.tsx:73 | `isPOS`: the location starts with "/pos". |
| AppShell.ShowsSidebar | client/src/components/layout/AppShell.tsx:197-212 | The desktop sidebar is drawn exactly off the point-of-sale routes. |
| AppShell.Shell.constructor | client/src/components/layout/AppShell.tsx:69-79 | Each group starts open exactly when the location starts with that group's path; the mobile sheet starts closed. |
| AppShell.Shell.Toggle | client/src/components/layout/AppShell.tsx:126 | Only that group's open flag flips. |
| AppShell.Shell.SetOpen | client/src/components/layout/AppShell.tsx:204 | The mobile sheet's open flag is set. |

## Left out

- Floating point is left out. Amounts are exact reals. `toFixed(2)` is exact rounding half away from zero, which can differ from binary floating point on values such as 1.005. `toFixed(1)` on the percentages is display only.
- `Number(...)`, `parseFloat`, `Number.isFinite` and `NaN` are left out. Inputs arrive as reals. A quantity box that is empty or unreadable is not modelled, apart from the count session's empty entry.
- MenuItemNew.TotalCost treats every quantity and unit cost as finite, so the page's "non-finite counts as 0" guards are not modelled.
- The clock, `Math.random()`, `new Date()` and `getFullYear()` are parameters, so the model does not say which values they take.
- Date parsing is the parameter `timeOf`.
- `confirm()` is a boolean parameter.
- Toasts, `setLocation` navigation, the Blob, URL and anchor download, and the rendering itself are UI and I/O. JSX classes are modelled only where they encode a rule: bands, dot, sidebar.
- `String(x)` of a non-integer number is the parameter `show`, used in the CSV fields that print a quantity or a GST rate.
- OrderDetail.OrderEditor.CreateOrder requires the random draw `r` to be below 10000, because that is what `Math.floor(Math.random() * 10000)` yields.
- PostingNew.CountSession.Edit requires the id to be an inventory id, because the page binds the handler to the rows it renders from the inventory.
- The setters that only copy an input into a field are not modelled: the posting's frequency, type and date, the form text boxes, and the picker open flags.
- Bills.PatchItem, OrderDetail.PatchItem, RecipeDetail.Patch, MockData.Merge and MenuTypes.PatchLine hold each patched field as an option. A key present with the value `undefined`, which the spread or `Object.assign` would copy over the old value, is not modelled.
- The invoice page's save success path creates no record, so it is modelled only as the outcome `Saved`.
- client/src/lib/mockData.ts is not part of this model. The pages' calls into its `addMockOrder` are modelled by `MockData.MockDb.AddOrder`.
- The tab selection in `recipes/home.tsx` and the low-stock filter in `inventory/home.tsx` are single expressions and are not modelled.
- The server handlers, the database and logging layers, the pages that only show mock data, routing, and the test and build configuration are not part of this model.
- Text.ToLower folds ASCII letters only. JavaScript's `toLowerCase` folds all of Unicode, so a search such as "é" against "CAFÉ" matches in the page and not in the model; the filters, pickers and badge lookup built on it share this gap.
- StatusBadge.Resolve treats the type map as a plain table. In the page it is a JavaScript object, so a status that lower-cases to an `Object.prototype` key such as "constructor" or "__proto__" reads that property instead of falling back to neutral.
- MenuStoreInPlace.Store.AddLine and MenuStoreInPlace.Store.UpdateLine treat lines as values. In the page store, `push` keeps the caller's line object and `Object.assign` changes it in place, so a caller holding that object, or an array passed as `lines` to an update, sees later edits; the model does not capture this aliasing.
- The MockData.MockDb tables are reassigned sequences and maps. Aliasing between an order object held elsewhere and the table entry it came from is not modelled.

## Findings

| source | as written | input that shows it | evidently intended | confidence | as-written member | corrected member |
|---|---|---|---|---|---|---|
| client/src/pages/purchasing/bills.tsx:175-177 | A new bill's id is "BILL-" + (rows.length + 1), zero-padded. | Fixture bills BILL-0001 and BILL-0002. Add one (BILL-0003), delete BILL-0001, and the next bill is BILL-0003 again. Deleting either one (bills.tsx:612) then removes both. | A new bill id that no existing bill has. | not executed | Bills.CountBasedBillIdRepeats | Bills.FreshBillId |
| client/src/pages/inventory/waste.tsx:122 | A new waste entry's id is "WST-" + (rows.length + 1), zero-padded. | Fixture entries WST-0001 and WST-0002. Delete WST-0001, and the next entry is WST-0002 again. Deleting WST-0002 (waste.tsx:139-141) then removes both. | A new entry id that no existing entry has. | not executed | Waste.CountBasedWasteIdRepeats | Waste.FreshWasteId |

In both rows the corrected id is one above the largest existing number. `Bills.FreshBillIdWithoutGaps` and `Waste.FreshWasteIdWithoutGaps` prove it equals the page's id while nothing has been deleted. `Bills.BillsPage.AddBill` and `Waste.WastePage.Add` model the handlers as written, with the count-based id. `Bills.BillsPage.AddBillFresh` and `Waste.WastePage.AddFresh` are the corrected handlers, and they prove the new row's id is unique.
