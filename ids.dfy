/**
 * Record ids made of a prefix and a zero-padded sequence number
 * (`INV-2024-001`, `BILL-0001`, `WST-0001`), and reading the number back
 * from the part after the last "-".
 */
module Ids {
  import opened Text

  /** `prefix + String(n).padStart(width, "0")`. */
  function Numbered(prefix: string, n: nat, width: nat): (r: string)
    ensures |r| >= |prefix| + width && StartsWith(r, prefix)
  {
    prefix + PadStart(NatToDecimal(n), width, '0')
  }

  /**
   * `parseInt(id.split("-").at(-1), 10)`, with `NaN` read as 0. The last
   * segment holds no "-", so the number read is never negative.
   */
  function SuffixNumber(id: string): (r: int)
    ensures r >= 0
  {
    var seg := LastSegment(id, '-');
    var t := TrimStart(seg);
    assert |t| > 0 ==> t[0] == seg[|seg| - |t|];
    ParseInt(seg).GetOr(0)
  }

  /** `records.map(r => r.id)`: the ids of the records, in order. */
  function IdsOf<T>(records: seq<T>, id: T -> string): (r: seq<string>)
    ensures |r| == |records| && forall i :: 0 <= i < |records| ==> r[i] == id(records[i])
  {
    seq(|records|, i requires 0 <= i < |records| => id(records[i]))
  }

  /** `Math.max(0, ...numbers)`. */
  function MaxWithZero(xs: seq<int>): (m: int)
    ensures m >= 0
    ensures forall i :: 0 <= i < |xs| ==> xs[i] <= m
    ensures m == 0 || exists i :: 0 <= i < |xs| && xs[i] == m
  {
    if |xs| == 0 then 0
    else
      var m := MaxWithZero(xs[..|xs| - 1]);
      if xs[|xs| - 1] > m then xs[|xs| - 1] else m
  }

  /** Zero-padding a rendered number keeps it a digit string with the same value. */
  lemma PaddedDigits(n: nat, width: nat)
    ensures var p := PadStart(NatToDecimal(n), width, '0');
      |p| >= width && AllDigits(p) && DigitsValue(p) == n
  {
    var d := NatToDecimal(n);
    var p := PadStart(d, width, '0');
    var z := p[..|p| - |d|];
    assert p == z + d;
    DigitsValueLeadingZeros(z, d);
  }

  /** The id is the prefix followed by at least `width` digits that denote `n`. */
  lemma NumberedShape(prefix: string, n: nat, width: nat)
    ensures var id := Numbered(prefix, n, width);
      && StartsWith(id, prefix)
      && |id[|prefix|..]| >= width && AllDigits(id[|prefix|..]) && DigitsValue(id[|prefix|..]) == n
  {
    var id := Numbered(prefix, n, width);
    var p := PadStart(NatToDecimal(n), width, '0');
    assert id[..|prefix|] == prefix;
    assert id[|prefix|..] == p;
    PaddedDigits(n, width);
  }

  /** When the prefix ends in "-", the number reads back from the id. */
  lemma NumberedSuffix(p: string, n: nat, width: nat)
    ensures SuffixNumber(Numbered(p + "-", n, width)) == n
  {
    var d := PadStart(NatToDecimal(n), width, '0');
    PaddedDigits(n, width);
    assert forall k :: 0 <= k < |d| ==> d[k] != '-';
    assert Numbered(p + "-", n, width) == p + ['-'] + d;
    LastSegmentOf(p, '-', d);
    ParsePadded(n, width);
  }

  /** Different numbers under the same prefix give different ids. */
  lemma NumberedInjective(p: string, m: nat, n: nat, width: nat)
    requires m != n
    ensures Numbered(p + "-", m, width) != Numbered(p + "-", n, width)
  {
    NumberedSuffix(p, m, width);
    NumberedSuffix(p, n, width);
  }

  /**
   * The next number above every id's suffix: `Math.max(0, ...suffixes) + 1`.
   * An id numbered with it under a prefix ending in "-" is none of the ids.
   */
  function NextAbove(ids: seq<string>): (n: nat)
    ensures n >= 1 && forall i :: 0 <= i < |ids| ==> SuffixNumber(ids[i]) < n
  {
    var xs := Suffixes(ids);
    assert forall i :: 0 <= i < |ids| ==> xs[i] <= MaxWithZero(xs);
    MaxWithZero(xs) + 1
  }

  function Suffixes(ids: seq<string>): (r: seq<int>)
    ensures |r| == |ids| && forall i :: 0 <= i < |ids| ==> r[i] == SuffixNumber(ids[i])
  {
    seq(|ids|, i requires 0 <= i < |ids| => SuffixNumber(ids[i]))
  }

  lemma NextAboveIsNew(ids: seq<string>, p: string, width: nat)
    ensures forall i :: 0 <= i < |ids| ==> ids[i] != Numbered(p + "-", NextAbove(ids), width)
  {
    NumberedSuffix(p, NextAbove(ids), width);
  }

  /** A largest element that is not negative is the maximum. */
  lemma MaxWithZeroIs(xs: seq<int>, k: nat)
    requires k < |xs| && xs[k] >= 0
    requires forall i :: 0 <= i < |xs| ==> xs[i] <= xs[k]
    ensures MaxWithZero(xs) == xs[k]
  {
    var m := MaxWithZero(xs);
    if m != 0 {
      var i :| 0 <= i < |xs| && xs[i] == m;
    }
  }
}
