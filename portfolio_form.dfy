/**
 * The arithmetic and text rules of the portfolio form in js/portfolio.js:
 * `escapeHtml`, the value and weight of one asset row, the quantity
 * conversion between the form and the stored record, and the form's totals.
 *
 * The form reads numbers with `parseFloat(...) || 0`; the model receives the
 * numbers themselves, and an input that is missing or empty as None.
 */
module PortfolioForm {
  import opened Numerics

  // escapeHtml

  /** The replacement of one character under `/[&<>"']/g`. */
  function Escape(c: char): string {
    match c
    case '&' => "&amp;"
    case '<' => "&lt;"
    case '>' => "&gt;"
    case '"' => "&quot;"
    case '\'' => "&#039;"
    case _ => [c]
  }

  /** The texts f gives for the characters of s, one after the other. */
  function ReplaceEach(f: char -> string, s: string): string {
    if s == [] then [] else f(s[0]) + ReplaceEach(f, s[1..])
  }

  /** ReplaceEach unfolded once in front of a text. */
  lemma ReplaceEachCons(f: char -> string, c: char, s: string)
    ensures ReplaceEach(f, [c] + s) == f(c) + ReplaceEach(f, s)
  {
    assert ([c] + s)[0] == c && ([c] + s)[1..] == s;
  }

  /** A per-character replacement distributes over concatenation. */
  lemma {:induction false} ReplaceEachAppend(f: char -> string, a: string, b: string)
    ensures ReplaceEach(f, a + b) == ReplaceEach(f, a) + ReplaceEach(f, b)
  {
    if a == [] {
      assert a + b == b;
    } else {
      var c, t := a[0], a[1..];
      assert a == [c] + t && a + b == [c] + (t + b);
      ReplaceEachAppend(f, t, b);
      ReplaceEachCons(f, c, t + b);
      ReplaceEachCons(f, c, t);
      var e, x, y := f(c), ReplaceEach(f, t), ReplaceEach(f, b);
      assert e + (x + y) == (e + x) + y;
    }
  }

  /** The replacement applied to every character of s. */
  function EscapeChars(s: string): string {
    ReplaceEach(Escape, s)
  }

  /** `escapeHtml(unsafe)`: '' for a missing or empty input, else every special character replaced. */
  function EscapeHtml(unsafe: Option<string>): (r: string)
    ensures unsafe.None? || unsafe.value == "" ==> r == ""
  {
    if unsafe.None? then "" else EscapeChars(unsafe.value)
  }

  /** One of the four characters that can open a tag or close an attribute. */
  predicate Markup(c: char) {
    c == '<' || c == '>' || c == '"' || c == '\''
  }

  /** One of the five characters `escapeHtml` replaces. */
  predicate Special(c: char) {
    c == '&' || Markup(c)
  }

  /** The output of escapeHtml contains none of < > " '. */
  lemma {:induction false} EscapeCharsNoMarkup(s: string)
    ensures forall i :: 0 <= i < |EscapeChars(s)| ==> !Markup(EscapeChars(s)[i])
  {
    if s != [] {
      EscapeCharsNoMarkup(s[1..]);
      var e, rest := Escape(s[0]), EscapeChars(s[1..]);
      assert forall i :: 0 <= i < |e| ==> !Markup(e[i]);
      assert EscapeChars(s) == e + rest;
      forall i | 0 <= i < |e + rest|
        ensures !Markup((e + rest)[i])
      {
        if i >= |e| {
          assert (e + rest)[i] == rest[i - |e|];
        }
      }
    }
  }

  /** Escaping works character by character: it distributes over concatenation. */
  lemma EscapeCharsAppend(a: string, b: string)
    ensures EscapeChars(a + b) == EscapeChars(a) + EscapeChars(b)
  {
    ReplaceEachAppend(Escape, a, b);
  }

  /** A text without any of the five special characters is left unchanged. */
  lemma {:induction false} EscapeCharsPlain(s: string)
    requires forall i :: 0 <= i < |s| ==> !Special(s[i])
    ensures EscapeChars(s) == s
  {
    if s != [] {
      EscapeCharsPlain(s[1..]);
      assert Escape(s[0]) == [s[0]];
      assert s == [s[0]] + s[1..];
    }
  }

  /** The HTML entities decoded again, reading the text from the left. */
  function Unescape(t: string): string
    decreases |t|
  {
    if t == [] then []
    else if |t| >= 5 && t[..5] == "&amp;" then "&" + Unescape(t[5..])
    else if |t| >= 4 && t[..4] == "&lt;" then "<" + Unescape(t[4..])
    else if |t| >= 4 && t[..4] == "&gt;" then ">" + Unescape(t[4..])
    else if |t| >= 6 && t[..6] == "&quot;" then "\"" + Unescape(t[6..])
    else if |t| >= 6 && t[..6] == "&#039;" then "'" + Unescape(t[6..])
    else [t[0]] + Unescape(t[1..])
  }

  // Decoding reads each entity off the front of a text.

  lemma UnescapeAmp(rest: string)
    ensures Unescape("&amp;" + rest) == "&" + Unescape(rest)
  {
    var t := "&amp;" + rest;
    assert t[..5] == "&amp;" && t[5..] == rest;
  }

  lemma UnescapeLt(rest: string)
    ensures Unescape("&lt;" + rest) == "<" + Unescape(rest)
  {
    var t := "&lt;" + rest;
    assert |t| >= 5 ==> t[..5][1] == 'l';
    assert t[..4] == "&lt;" && t[4..] == rest;
  }

  lemma UnescapeGt(rest: string)
    ensures Unescape("&gt;" + rest) == ">" + Unescape(rest)
  {
    var t := "&gt;" + rest;
    assert |t| >= 5 ==> t[..5][1] == 'g';
    assert t[..4][1] == 'g';
    assert t[..4] == "&gt;" && t[4..] == rest;
  }

  lemma UnescapeQuot(rest: string)
    ensures Unescape("&quot;" + rest) == "\"" + Unescape(rest)
  {
    var t := "&quot;" + rest;
    assert t[..5][1] == 'q' && t[..4][1] == 'q';
    assert t[..6] == "&quot;" && t[6..] == rest;
  }

  lemma UnescapeApos(rest: string)
    ensures Unescape("&#039;" + rest) == "'" + Unescape(rest)
  {
    var t := "&#039;" + rest;
    assert t[..5][1] == '#' && t[..4][1] == '#' && t[..6][1] == '#';
    assert t[..6] == "&#039;" && t[6..] == rest;
  }

  /** A character that is not special is read back as itself. */
  lemma UnescapePlain(c: char, rest: string)
    requires !Special(c)
    ensures Unescape([c] + rest) == [c] + Unescape(rest)
  {
    var t := [c] + rest;
    assert t[0] == c && t[1..] == rest;
    assert |t| >= 4 ==> t[..4][0] != '&';
    assert |t| >= 5 ==> t[..5][0] != '&';
    assert |t| >= 6 ==> t[..6][0] != '&';
  }

  /** Decoding undoes one character's replacement in front of any text. */
  lemma UnescapeStep(c: char, rest: string)
    ensures Unescape(Escape(c) + rest) == [c] + Unescape(rest)
  {
    if c == '&' {
      UnescapeAmp(rest);
    } else if c == '<' {
      UnescapeLt(rest);
    } else if c == '>' {
      UnescapeGt(rest);
    } else if c == '"' {
      UnescapeQuot(rest);
    } else if c == '\'' {
      UnescapeApos(rest);
    } else {
      UnescapePlain(c, rest);
    }
  }

  /** Decoding the escaped text gives the original text back. */
  lemma {:induction false} EscapeRoundTrip(s: string)
    ensures Unescape(EscapeChars(s)) == s
  {
    if s != [] {
      EscapeRoundTrip(s[1..]);
      UnescapeStep(s[0], EscapeChars(s[1..]));
      assert s == [s[0]] + s[1..];
    }
  }

  // The value and weight of one asset row

  /** The total value and the weight (in percent) the row displays. */
  datatype Figures = Figures(total: real, weight: real)

  /**
   * `calculateAssetValues`: 0 and 0 when the price or the entered amount is
   * missing; otherwise the total is price × quantity for a stock and the entered
   * dollar amount for a commodity, and the weight is the total as a percentage
   * of the portfolio size when that is positive, else 0.
   */
  function AssetFigures(price: Option<real>, isStock: bool, input: Option<real>, portfolioSize: real): (f: Figures)
    ensures price.None? || input.None? ==> f == Figures(0.0, 0.0)
    ensures portfolioSize <= 0.0 ==> f.weight == 0.0
  {
    if price.None? || input.None? then Figures(0.0, 0.0)
    else
      var total := if isStock then price.value * input.value else input.value;
      Figures(total, WeightOf(total, portfolioSize))
  }

  /** `portfolioSize > 0 ? (totalValue / portfolioSize) * 100 : 0`. */
  function WeightOf(total: real, portfolioSize: real): (w: real)
    ensures 0.0 < portfolioSize ==> w * portfolioSize == total * 100.0
  {
    if portfolioSize > 0.0 then total / portfolioSize * 100.0 else 0.0
  }

  /** A stock's total is price × quantity, a commodity's total is the amount entered. */
  lemma AssetTotals(price: real, input: real, portfolioSize: real)
    ensures AssetFigures(Some(price), true, Some(input), portfolioSize).total == price * input
    ensures AssetFigures(Some(price), false, Some(input), portfolioSize).total == input
  {
  }

  /** The weight is proportional to the total: doubling the amount doubles the weight. */
  lemma {:induction false} WeightLinear(a: real, b: real, portfolioSize: real)
    ensures WeightOf(a + b, portfolioSize) == WeightOf(a, portfolioSize) + WeightOf(b, portfolioSize)
  {
    if portfolioSize > 0.0 {
      var s := portfolioSize;
      assert (a + b) / s == a / s + b / s;
    }
  }

  // Saving and loading the quantity

  /**
   * `handleFormSubmit`: a stock keeps its quantity, a commodity's dollar amount
   * is stored as units (amount / price); a zero price has no quotient (None).
   */
  function SavedQuantity(isStock: bool, entered: real, price: real): (q: Option<real>)
    ensures q.None? <==> !isStock && price == 0.0
  {
    if isStock then Some(entered) else if price == 0.0 then None else Some(entered / price)
  }

  /** `editPortfolio`: a stock's quantity as stored, a commodity's units back into dollars. */
  function LoadedQuantity(isStock: bool, stored: real, purchasePrice: real): (q: real)
    ensures isStock || purchasePrice != 0.0 ==> SavedQuantity(isStock, q, purchasePrice) == Some(stored)
  {
    if isStock then stored
    else
      var q := stored * purchasePrice;
      assert purchasePrice != 0.0 ==> q / purchasePrice == stored;
      q
  }

  /** Saving then loading gives back what was entered, whenever saving has a value. */
  lemma QuantityRoundTrip(isStock: bool, entered: real, price: real)
    requires SavedQuantity(isStock, entered, price).Some?
    ensures LoadedQuantity(isStock, SavedQuantity(isStock, entered, price).value, price) == entered
  {
    if !isStock {
      var q := entered / price;
      assert q * price == entered;
    }
  }

  // Portfolio totals

  /** The figures the form shows under the asset rows. */
  datatype Totals = Totals(invested: real, weight: real, remaining: real, overweight: bool)

  function InvestedTo(rows: seq<Figures>, k: nat): real
    requires k <= |rows|
  {
    if k == 0 then 0.0 else InvestedTo(rows, k - 1) + rows[k - 1].total
  }

  function WeightTo(rows: seq<Figures>, k: nat): real
    requires k <= |rows|
  {
    if k == 0 then 0.0 else WeightTo(rows, k - 1) + rows[k - 1].weight
  }

  /** `calculatePortfolioTotals`: invested and weight summed over the rows, remaining = size − invested, a warning above 100%. */
  function PortfolioTotals(rows: seq<Figures>, portfolioSize: real): (t: Totals)
    ensures t.remaining + t.invested == portfolioSize
    ensures t.overweight <==> t.weight > 100.0
  {
    var invested, weight := InvestedTo(rows, |rows|), WeightTo(rows, |rows|);
    Totals(invested, weight, portfolioSize - invested, weight > 100.0)
  }

  /** The `forEach` of `calculatePortfolioTotals`, proved to compute `PortfolioTotals`. */
  method CalculatePortfolioTotals(rows: seq<Figures>, portfolioSize: real) returns (t: Totals)
    ensures t == PortfolioTotals(rows, portfolioSize)
  {
    var totalInvested, totalWeight := 0.0, 0.0;
    for i := 0 to |rows|
      invariant totalInvested == InvestedTo(rows, i) && totalWeight == WeightTo(rows, i)
    {
      totalInvested := totalInvested + rows[i].total;
      totalWeight := totalWeight + rows[i].weight;
    }
    t := Totals(totalInvested, totalWeight, portfolioSize - totalInvested, totalWeight > 100.0);
  }

  /** Every row's weight is its total as a percentage of the portfolio size. */
  predicate WeighedAgainst(rows: seq<Figures>, portfolioSize: real) {
    forall i :: 0 <= i < |rows| ==> rows[i].weight == WeightOf(rows[i].total, portfolioSize)
  }

  /**
   * When every row was weighed against the same portfolio size, the total
   * weight is the invested amount as a percentage of that size.
   */
  lemma {:induction false} TotalWeightOfInvested(rows: seq<Figures>, portfolioSize: real, k: nat)
    requires k <= |rows| && WeighedAgainst(rows, portfolioSize)
    ensures WeightTo(rows, k) == WeightOf(InvestedTo(rows, k), portfolioSize)
  {
    if k > 0 {
      TotalWeightOfInvested(rows, portfolioSize, k - 1);
      WeightLinear(InvestedTo(rows, k - 1), rows[k - 1].total, portfolioSize);
    }
  }

  /** So the weight warning fires exactly when more than the portfolio size is invested. */
  lemma OverweightWhenOverInvested(rows: seq<Figures>, portfolioSize: real)
    requires WeighedAgainst(rows, portfolioSize) && 0.0 < portfolioSize
    ensures PortfolioTotals(rows, portfolioSize).overweight <==> PortfolioTotals(rows, portfolioSize).invested > portfolioSize
  {
    TotalWeightOfInvested(rows, portfolioSize, |rows|);
    var t := PortfolioTotals(rows, portfolioSize);
    OverweightScale(t.invested, t.weight, portfolioSize);
  }

  lemma OverweightScale(invested: real, weight: real, size: real)
    requires 0.0 < size && weight == WeightOf(invested, size)
    ensures weight > 100.0 <==> invested > size
  {
    assert weight * size == invested * 100.0;
    if weight > 100.0 {
      ProductPositive(weight - 100.0, size);
    }
    if invested > size {
      assert (invested - size) * 100.0 > 0.0;
    }
  }
}
