/**
 * The comma-separated export every page writes: each value is wrapped in
 * double quotes with each inner quote doubled, the values of a row are
 * joined by ",", and the rows by "\n". A reader for that format is given
 * beside it, and the two are shown to be inverse.
 */
module Csv {
  import opened Wrappers
  import opened Text

  /** The number of double quotes in `v`. */
  function QuoteCount(v: string): nat
  {
    if |v| == 0 then 0 else (if v[0] == '"' then 1 else 0) + QuoteCount(v[1..])
  }

  /** `v.replace(/"/g, '""')`: one more character per quote, and a value without quotes is kept. */
  function Escape(v: string): (r: string)
    ensures |r| >= |v|
    ensures |r| == |v| + QuoteCount(v)
    ensures QuoteCount(v) == 0 ==> r == v
  {
    if |v| == 0 then ""
    else (if v[0] == '"' then "\"\"" else [v[0]]) + Escape(v[1..])
  }

  /** `"${String(v).replace(/"/g, '""')}"`. */
  function Quote(v: string): (r: string)
    ensures |r| == |v| + QuoteCount(v) + 2
    ensures r[0] == '"' && r[|r| - 1] == '"'
  {
    "\"" + Escape(v) + "\""
  }

  function QuoteAll(fields: seq<string>): (r: seq<string>)
    ensures |r| == |fields| && forall i :: 0 <= i < |fields| ==> r[i] == Quote(fields[i])
  {
    seq(|fields|, i requires 0 <= i < |fields| => Quote(fields[i]))
  }

  /** `row.map(quote).join(",")`. */
  function Row(fields: seq<string>): (r: string)
    ensures |fields| == 0 ==> r == ""
    ensures |fields| >= 1 ==> StartsWith(r, Quote(fields[0]))
  {
    var q := QuoteAll(fields);
    if |q| >= 1 then JoinEnds(q, ","); Join(q, ",") else Join(q, ",")
  }

  function RowsText(rows: seq<seq<string>>): (r: seq<string>)
    ensures |r| == |rows| && forall i :: 0 <= i < |rows| ==> r[i] == Row(rows[i])
  {
    seq(|rows|, i requires 0 <= i < |rows| => Row(rows[i]))
  }

  /** `rows.map(row => ...).join("\n")`. */
  function Document(rows: seq<seq<string>>): (r: string)
    ensures |rows| == 0 ==> r == ""
    ensures |rows| >= 1 ==> StartsWith(r, Row(rows[0]))
  {
    var t := RowsText(rows);
    if |t| >= 1 then JoinEnds(t, "\n"); Join(t, "\n") else Join(t, "\n")
  }

  // --------------------------------------------------------------- reader

  /**
   * Reads the inside of a quoted value, starting just after its opening
   * quote: a doubled quote stands for one quote, a single quote ends it.
   * Gives the value and what follows the closing quote.
   */
  function ReadQuoted(s: string): (r: Option<(string, string)>)
    ensures r.Some? ==> |r.value.1| < |s|
  {
    if |s| == 0 then None
    else if s[0] == '"' then
      if |s| >= 2 && s[1] == '"' then
        match ReadQuoted(s[2..])
        case None => None
        case Some(p) => Some(("\"" + p.0, p.1))
      else Some(("", s[1..]))
    else
      match ReadQuoted(s[1..])
      case None => None
      case Some(p) => Some(([s[0]] + p.0, p.1))
  }

  /** Reads one or more quoted values separated by ","; gives them and the rest. */
  function ReadFields(s: string): (r: Option<(seq<string>, string)>)
    ensures r.Some? ==> |r.value.1| < |s|
    decreases |s|
  {
    if |s| == 0 || s[0] != '"' then None
    else
      match ReadQuoted(s[1..])
      case None => None
      case Some(p) =>
        if |p.1| > 0 && p.1[0] == ',' then
          match ReadFields(p.1[1..])
          case None => None
          case Some(q) => Some(([p.0] + q.0, q.1))
        else Some(([p.0], p.1))
  }

  /** Reads a whole export back into its rows of values; `None` if it is not well formed. */
  function ReadDocument(s: string): Option<seq<seq<string>>>
    decreases |s|
  {
    var row := if |s| == 0 || s[0] == '\n' then Some(([], s)) else ReadFields(s);
    match row
    case None => None
    case Some(p) =>
      if |p.1| == 0 then Some([p.0])
      else if p.1[0] != '\n' then None
      else
        match ReadDocument(p.1[1..])
        case None => None
        case Some(more) => Some([p.0] + more)
  }

  // ----------------------------------------------------------- round trip

  lemma {:induction false} ReadEscaped(v: string, rest: string)
    requires rest == [] || rest[0] != '"'
    ensures ReadQuoted(Escape(v) + "\"" + rest) == Some((v, rest))
  {
    var s := Escape(v) + "\"" + rest;
    if |v| == 0 {
      assert s == "\"" + rest;
      assert s[1..] == rest;
    } else {
      ReadEscaped(v[1..], rest);
      var t := Escape(v[1..]) + "\"" + rest;
      if v[0] == '"' {
        assert s == "\"\"" + t;
        assert s[2..] == t;
      } else {
        assert s == [v[0]] + t;
        assert s[1..] == t;
      }
      assert [v[0]] + v[1..] == v;
    }
  }

  /** Joining one or more parts puts the separator between the first and the rest. */
  lemma JoinCons(parts: seq<string>, sep: string)
    requires |parts| >= 2
    ensures Join(parts, sep) == parts[0] + sep + Join(parts[1..], sep)
  {
  }

  /** A quoted value is read back, and what follows it is left. */
  lemma ReadQuotedValue(v: string, after: string)
    requires after == [] || after[0] != '"'
    ensures var s := Quote(v) + after; |s| > 0 && s[0] == '"' && ReadQuoted(s[1..]) == Some((v, after))
  {
    var s := Quote(v) + after;
    assert s == "\"" + (Escape(v) + "\"" + after);
    assert s[1..] == Escape(v) + "\"" + after;
    ReadEscaped(v, after);
  }

  /** A row of two or more values is the first value, a comma and the row of the rest. */
  lemma RowCons(fields: seq<string>)
    requires |fields| >= 2
    ensures Row(fields) == Quote(fields[0]) + "," + Row(fields[1..])
  {
    var q := QuoteAll(fields);
    assert q[1..] == QuoteAll(fields[1..]);
    JoinCons(q, ",");
  }

  lemma {:induction false} ReadRow(fields: seq<string>, rest: string)
    requires |fields| >= 1
    requires rest == [] || rest[0] == '\n'
    ensures ReadFields(Row(fields) + rest) == Some((fields, rest))
  {
    if |fields| == 1 {
      assert Row(fields) == Quote(fields[0]);
      ReadQuotedValue(fields[0], rest);
      assert fields == [fields[0]];
    } else {
      var tail := Row(fields[1..]);
      RowCons(fields);
      var after := "," + tail + rest;
      assert Row(fields) + rest == Quote(fields[0]) + after;
      ReadQuotedValue(fields[0], after);
      assert after[1..] == tail + rest;
      ReadRow(fields[1..], rest);
      assert [fields[0]] + fields[1..] == fields;
    }
  }

  /** A row reads back from the start of a line, whatever line follows. */
  lemma ReadLine(row: seq<string>, rest: string)
    requires rest == [] || rest[0] == '\n'
    ensures var s := Row(row) + rest;
      (if |s| == 0 || s[0] == '\n' then Some(([], s)) else ReadFields(s)) == Some((row, rest))
  {
    if |row| == 0 {
      assert Row(row) == "";
      assert Row(row) + rest == rest;
    } else {
      ReadRow(row, rest);
      assert Row(row)[0] == '"' by {
        var q := QuoteAll(row);
        if |q| >= 2 { JoinCons(q, ","); }
      }
    }
  }

  /** Every export of at least one row reads back as exactly its rows. */
  lemma {:induction false} ReadBack(rows: seq<seq<string>>)
    requires |rows| >= 1
    ensures ReadDocument(Document(rows)) == Some(rows)
  {
    var t := RowsText(rows);
    if |rows| == 1 {
      assert Document(rows) == Row(rows[0]);
      ReadLine(rows[0], "");
      assert Row(rows[0]) + "" == Row(rows[0]);
      assert rows == [rows[0]];
    } else {
      assert t[1..] == RowsText(rows[1..]);
      JoinCons(t, "\n");
      var rest := "\n" + Document(rows[1..]);
      assert Document(rows) == Row(rows[0]) + rest;
      ReadLine(rows[0], rest);
      assert rest[1..] == Document(rows[1..]);
      ReadBack(rows[1..]);
      assert [rows[0]] + rows[1..] == rows;
    }
  }
}
