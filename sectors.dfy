/**
 * Per-sector weight totals, as the analytics build them in a plain object keyed
 * by sector name (`acc[sector] = (acc[sector] || 0) + weight`), and the two
 * concentration figures read off those totals.
 *
 * The object is modelled as a list of (sector, total) entries in first-appearance
 * order with distinct sector names. JavaScript lists integer-like keys first, but
 * every figure below is a sum, a maximum or a membership test, for which the
 * order of the entries does not matter.
 */
module Sectors {
  import opened Numerics

  datatype Holding = Holding(sector: string, weight: real)

  datatype SectorTotal = SectorTotal(sector: string, total: real)

  /** Σ of the weights of the holdings in sector c. */
  function SectorSum(hs: seq<Holding>, c: string): real {
    if hs == [] then 0.0
    else SectorSum(hs[..|hs| - 1], c) + (if hs[|hs| - 1].sector == c then hs[|hs| - 1].weight else 0.0)
  }

  /** The table has an entry for sector c. */
  predicate HasKey(ts: seq<SectorTotal>, c: string) {
    ts != [] && (ts[0].sector == c || HasKey(ts[1..], c))
  }

  /** No sector has two entries. */
  predicate DistinctKeys(ts: seq<SectorTotal>) {
    ts == [] || (!HasKey(ts[1..], ts[0].sector) && DistinctKeys(ts[1..]))
  }

  /** Some holding is in sector c. */
  predicate Occurs(hs: seq<Holding>, c: string) {
    hs != [] && (hs[|hs| - 1].sector == c || Occurs(hs[..|hs| - 1], c))
  }

  /** `acc[c] || 0`: the total recorded for c, or 0 when c has no entry. */
  function TotalOf(ts: seq<SectorTotal>, c: string): real {
    if ts == [] then 0.0 else if ts[0].sector == c then ts[0].total else TotalOf(ts[1..], c)
  }

  /** `acc[c] = (acc[c] || 0) + w`: update the entry of c, or append one. */
  function Add(ts: seq<SectorTotal>, c: string, w: real): seq<SectorTotal> {
    if ts == [] then [SectorTotal(c, w)]
    else if ts[0].sector == c then [SectorTotal(c, ts[0].total + w)] + ts[1..]
    else [ts[0]] + Add(ts[1..], c, w)
  }

  lemma {:induction false} AddHasKey(ts: seq<SectorTotal>, c: string, w: real, x: string)
    ensures HasKey(Add(ts, c, w), x) <==> HasKey(ts, x) || x == c
  {
    if ts != [] && ts[0].sector != c {
      AddHasKey(ts[1..], c, w, x);
      assert Add(ts, c, w)[1..] == Add(ts[1..], c, w);
    }
  }

  lemma {:induction false} AddDistinct(ts: seq<SectorTotal>, c: string, w: real)
    requires DistinctKeys(ts)
    ensures DistinctKeys(Add(ts, c, w))
  {
    if ts != [] && ts[0].sector != c {
      AddDistinct(ts[1..], c, w);
      AddHasKey(ts[1..], c, w, ts[0].sector);
      assert Add(ts, c, w)[1..] == Add(ts[1..], c, w);
    } else if ts != [] {
      assert Add(ts, c, w)[1..] == ts[1..];
    }
  }

  lemma {:induction false} AddTotal(ts: seq<SectorTotal>, c: string, w: real, x: string)
    ensures TotalOf(Add(ts, c, w), x) == TotalOf(ts, x) + (if x == c then w else 0.0)
  {
    if ts != [] && ts[0].sector != c {
      AddTotal(ts[1..], c, w, x);
      assert Add(ts, c, w)[1..] == Add(ts[1..], c, w);
    } else if ts != [] {
      assert Add(ts, c, w)[1..] == ts[1..];
    }
  }

  /**
   * The totals after visiting the holdings in order. When `skipBlank` holds, a
   * holding whose sector is empty (falsy) is ignored, as `if (asset.sector)` does.
   */
  function SectorTotals(hs: seq<Holding>, skipBlank: bool): seq<SectorTotal> {
    if hs == [] then []
    else
      var ts := SectorTotals(hs[..|hs| - 1], skipBlank);
      var h := hs[|hs| - 1];
      if skipBlank && h.sector == "" then ts else Add(ts, h.sector, h.weight)
  }

  /** A holding in sector c contributes to the table. */
  predicate Counted(c: string, skipBlank: bool) {
    !(skipBlank && c == "")
  }

  /** The table has no two entries for one sector. */
  lemma {:induction false} SectorTotalsDistinct(hs: seq<Holding>, skipBlank: bool)
    ensures DistinctKeys(SectorTotals(hs, skipBlank))
  {
    if hs != [] {
      SectorTotalsDistinct(hs[..|hs| - 1], skipBlank);
      var h := hs[|hs| - 1];
      if !(skipBlank && h.sector == "") {
        AddDistinct(SectorTotals(hs[..|hs| - 1], skipBlank), h.sector, h.weight);
      }
    }
  }

  /** The table has an entry for exactly the counted sectors that occur among the holdings. */
  lemma {:induction false} SectorTotalsKeys(hs: seq<Holding>, skipBlank: bool, c: string)
    ensures HasKey(SectorTotals(hs, skipBlank), c) <==> Counted(c, skipBlank) && Occurs(hs, c)
  {
    if hs != [] {
      SectorTotalsKeys(hs[..|hs| - 1], skipBlank, c);
      var h := hs[|hs| - 1];
      if !(skipBlank && h.sector == "") {
        AddHasKey(SectorTotals(hs[..|hs| - 1], skipBlank), h.sector, h.weight, c);
      }
    }
  }

  /** The total of each counted sector is the sum of the weights of its holdings. */
  lemma {:induction false} SectorTotalsSum(hs: seq<Holding>, skipBlank: bool, c: string)
    requires Counted(c, skipBlank)
    ensures TotalOf(SectorTotals(hs, skipBlank), c) == SectorSum(hs, c)
  {
    if hs != [] {
      SectorTotalsSum(hs[..|hs| - 1], skipBlank, c);
      var h := hs[|hs| - 1];
      if !(skipBlank && h.sector == "") {
        AddTotal(SectorTotals(hs[..|hs| - 1], skipBlank), h.sector, h.weight, c);
      }
    }
  }

  /** In a table with distinct keys, TotalOf reads the entry of that sector. */
  lemma {:induction false} TotalOfEntry(ts: seq<SectorTotal>, k: nat)
    requires DistinctKeys(ts) && k < |ts|
    ensures TotalOf(ts, ts[k].sector) == ts[k].total
  {
    if k > 0 {
      TotalOfEntry(ts[1..], k - 1);
      assert ts[1..][k - 1] == ts[k];
      HasKeyAt(ts[1..], k - 1);
    }
  }

  lemma {:induction false} HasKeyAt(ts: seq<SectorTotal>, k: nat)
    requires k < |ts|
    ensures HasKey(ts, ts[k].sector)
  {
    if k > 0 {
      HasKeyAt(ts[1..], k - 1);
      assert ts[1..][k - 1] == ts[k];
    }
  }

  /**
   * Every entry of the table is a counted sector whose total is the sum of the
   * weights of its holdings, and no sector has two entries.
   */
  lemma SectorTotalsEntries(hs: seq<Holding>, skipBlank: bool)
    ensures DistinctKeys(SectorTotals(hs, skipBlank))
    ensures forall k :: 0 <= k < |SectorTotals(hs, skipBlank)| ==>
      (Counted(SectorTotals(hs, skipBlank)[k].sector, skipBlank) &&
       Occurs(hs, SectorTotals(hs, skipBlank)[k].sector) &&
       SectorTotals(hs, skipBlank)[k].total == SectorSum(hs, SectorTotals(hs, skipBlank)[k].sector))
  {
    var ts := SectorTotals(hs, skipBlank);
    SectorTotalsDistinct(hs, skipBlank);
    forall k | 0 <= k < |ts|
      ensures Counted(ts[k].sector, skipBlank) && Occurs(hs, ts[k].sector)
      ensures ts[k].total == SectorSum(hs, ts[k].sector)
    {
      HasKeyAt(ts, k);
      SectorTotalsKeys(hs, skipBlank, ts[k].sector);
      TotalOfEntry(ts, k);
      SectorTotalsSum(hs, skipBlank, ts[k].sector);
    }
  }

  /** Σ total² over the table: the Herfindahl–Hirschman index. */
  function Hhi(ts: seq<SectorTotal>): (r: real)
    ensures 0.0 <= r
  {
    if ts == [] then 0.0 else Hhi(ts[1..]) + ts[0].total * ts[0].total
  }

  /** `Math.max(...totals, 0)`. */
  function MaxTotal(ts: seq<SectorTotal>): (r: real)
    ensures 0.0 <= r
    ensures forall i :: 0 <= i < |ts| ==> ts[i].total <= r
    ensures r == 0.0 || exists i :: 0 <= i < |ts| && ts[i].total == r
  {
    if ts == [] then 0.0
    else
      var m := MaxTotal(ts[1..]);
      if ts[0].total >= m then ts[0].total else m
  }
}
