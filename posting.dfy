/**
 * The inventory postings list: search and date-range filtering over the
 * postings, its CSV export and the Clear button.
 */
module PostingList {
  import opened Wrappers
  import opened Text
  import opened Lists
  import opened Domain
  import opened Filters
  import Csv

  /** The text the search box is matched against. */
  function Haystack(p: InventoryPosting): string
  {
    p.id + " " + p.location + " " + p.createdBy + " " + p.status.Label()
  }

  predicate Kept(p: InventoryPosting, c: Criteria, timeOf: string -> Option<int>)
  {
    && Matches(Query(c.search), Haystack(p))
    && InRange(timeOf(p.date), Bound(c.dateFrom, timeOf), Bound(c.dateTo, timeOf))
  }

  /** `filtered`: the postings that match the search and fall in the date range. */
  function Filtered(postings: seq<InventoryPosting>, c: Criteria, timeOf: string -> Option<int>): (r: seq<InventoryPosting>)
    ensures forall p :: p in r <==> p in postings && Kept(p, c, timeOf)
  {
    Filter(postings, p => Kept(p, c, timeOf))
  }

  /** The filter keeps the postings in their original order. */
  lemma FilteredInOrder(postings: seq<InventoryPosting>, c: Criteria, timeOf: string -> Option<int>)
    ensures IsSubsequence(Filtered(postings, c, timeOf), postings)
  {
    FilterIsSubsequence(postings, p => Kept(p, c, timeOf));
  }

  /** With nothing to filter by, every posting is listed, in the original order. */
  lemma ClearedListsAll(postings: seq<InventoryPosting>, c: Criteria, timeOf: string -> Option<int>)
    ensures Filtered(postings, Clear(c), timeOf) == postings
  {
    var keep := p => Kept(p, Clear(c), timeOf);
    forall i | 0 <= i < |postings| ensures keep(postings[i]) {
      ClearedKeepsAll(c, Haystack(postings[i]), timeOf(postings[i].date), timeOf);
    }
  }

  /** The completion column, `${itemsCounted}/${totalItems}`. */
  function Completion(p: InventoryPosting): (r: string)
    ensures |r| == |NatToDecimal(p.itemsCounted)| + 1 + |NatToDecimal(p.totalItems)|
    ensures r[|NatToDecimal(p.itemsCounted)|] == '/'
    ensures forall k :: 0 <= k < |r| && r[k] == '/' ==> k == |NatToDecimal(p.itemsCounted)|
  {
    var a := NatToDecimal(p.itemsCounted);
    var b := NatToDecimal(p.totalItems);
    var r := a + "/" + b;
    assert forall k :: 0 <= k < |a| ==> r[k] == a[k];
    assert forall k :: |a| < k < |r| ==> r[k] == b[k - |a| - 1];
    r
  }

  const Header: seq<string> := ["Posting ID", "Date", "Location", "Status", "Completion", "Created By"]

  /** One row of the export, its columns in the order of `Header`. */
  function CsvRow(p: InventoryPosting): (r: seq<string>)
    ensures |r| == |Header|
    ensures r[0] == p.id && r[1] == p.date && r[2] == p.location
    ensures r[3] == p.status.Label() && r[4] == Completion(p) && r[5] == p.createdBy
  {
    [p.id, p.date, p.location, p.status.Label(), Completion(p), p.createdBy]
  }

  function CsvRows(ps: seq<InventoryPosting>): (r: seq<seq<string>>)
    ensures |r| == |ps| && forall i :: 0 <= i < |ps| ==> r[i] == CsvRow(ps[i])
  {
    seq(|ps|, i requires 0 <= i < |ps| => CsvRow(ps[i]))
  }

  /** Export CSV: the header, then one row per listed posting. */
  function ExportCsv(postings: seq<InventoryPosting>, c: Criteria, timeOf: string -> Option<int>): string
  {
    Csv.Document([Header] + CsvRows(Filtered(postings, c, timeOf)))
  }

  /** The export reads back as the header followed by one row per listed posting. */
  lemma ExportReadsBack(postings: seq<InventoryPosting>, c: Criteria, timeOf: string -> Option<int>)
    ensures Csv.ReadDocument(ExportCsv(postings, c, timeOf))
         == Some([Header] + CsvRows(Filtered(postings, c, timeOf)))
  {
    Csv.ReadBack([Header] + CsvRows(Filtered(postings, c, timeOf)));
  }

  /** The completion column holds the two counts in decimal around a slash. */
  lemma CompletionDenotes(p: InventoryPosting)
    ensures var s := Completion(p);
      exists k :: 0 < k < |s| - 1 && s[k] == '/'
        && AllDigits(s[..k]) && DigitsValue(s[..k]) == p.itemsCounted
        && AllDigits(s[k + 1..]) && DigitsValue(s[k + 1..]) == p.totalItems
  {
    var a := NatToDecimal(p.itemsCounted);
    var s := Completion(p);
    assert s[..|a|] == a;
    assert s[|a| + 1..] == NatToDecimal(p.totalItems);
  }
}
