/**
 * The two data-shaping rules of the portfolio routes in routes/assets.js: the
 * reduce in `GET /portfolios` that folds the flat join rows into one record
 * per portfolio, and the field validation and value sum of `POST /portfolios`.
 *
 * The reduce's accumulator is a plain object keyed by `portfolio_id`, modelled
 * as a `map`. `Object.values` lists integer keys in ascending order, so the
 * records come out sorted by id.
 */
module AssetHandlers {
  import opened Numerics

  // GET /portfolios: grouping the join rows

  /** One `portfolio_details` row; a `detailId` of 0 is the missing (null) id of a portfolio without details. */
  datatype Detail = Detail(detailId: nat, assetType: string, assetSymbol: string, quantity: real,
                           weight: real, purchasePrice: real, purchaseDate: string)

  /** One row of the left join: the portfolio's columns and one detail's columns. */
  datatype PortfolioRow = PortfolioRow(portfolioId: nat, portfolioName: string, initialValue: real,
                                       creationDate: string, description: string, detail: Detail)

  /** A grouped portfolio with the details of its rows. */
  datatype PortfolioRecord = PortfolioRecord(portfolioId: nat, portfolioName: string, initialValue: real,
                                             creationDate: string, description: string, details: seq<Detail>)

  /** The record the reduce creates for the first row of a portfolio. */
  function NewRecord(row: PortfolioRow): PortfolioRecord {
    PortfolioRecord(row.portfolioId, row.portfolioName, row.initialValue, row.creationDate, row.description, [])
  }

  /** `if (row.detail_id) details.push(...)`. */
  function WithDetail(r: PortfolioRecord, row: PortfolioRow): PortfolioRecord {
    if row.detail.detailId != 0 then r.(details := r.details + [row.detail]) else r
  }

  /** One call of the reducer on the accumulator. */
  function GroupRow(acc: map<nat, PortfolioRecord>, row: PortfolioRow): map<nat, PortfolioRecord> {
    var id := row.portfolioId;
    var created := if id in acc then acc else acc[id := NewRecord(row)];
    created[id := WithDetail(created[id], row)]
  }

  /** The accumulator after the rows, in order. */
  function GroupedMap(rows: seq<PortfolioRow>): map<nat, PortfolioRecord> {
    if rows == [] then map[] else GroupRow(GroupedMap(rows[..|rows| - 1]), rows[|rows| - 1])
  }

  // Object.values: the entries in ascending key order

  /** k is the smallest element of s. */
  predicate IsLeast(k: nat, s: set<nat>) {
    k in s && forall j :: j in s ==> k <= j
  }

  lemma {:induction false} HasLeast(s: set<nat>)
    requires s != {}
    ensures exists k :: IsLeast(k, s)
  {
    var x :| x in s;
    if s == {x} {
      assert IsLeast(x, s);
    } else {
      var rest := s - {x};
      HasLeast(rest);
      var k :| IsLeast(k, rest);
      var least := if x < k then x else k;
      forall j | j in s
        ensures least <= j
      {
        if j != x {
          assert j in rest;
        }
      }
      assert IsLeast(least, s);
    }
  }

  /** The smallest key. */
  function Least(s: set<nat>): (k: nat)
    requires s != {}
    ensures k in s && forall j :: j in s ==> k <= j
  {
    HasLeast(s);
    var k :| IsLeast(k, s); k
  }

  predicate Increasing(ks: seq<nat>) {
    forall i, j :: 0 <= i < j < |ks| ==> ks[i] < ks[j]
  }

  /** The keys in ascending order. */
  function SortedKeys(s: set<nat>): (ks: seq<nat>)
    ensures Increasing(ks) && |ks| == |s|
    ensures forall k :: k in ks <==> k in s
    decreases |s|
  {
    if s == {} then []
    else
      var k := Least(s);
      var rest := SortedKeys(s - {k});
      assert forall j :: j in rest ==> k < j;
      [k] + rest
  }

  /** `Object.values(acc)`. */
  function Values(m: map<nat, PortfolioRecord>): (vs: seq<PortfolioRecord>)
    ensures |vs| == |m.Keys|
  {
    var ks := SortedKeys(m.Keys);
    seq(|ks|, i requires 0 <= i < |ks| => m[ks[i]])
  }

  /** The handler's reduce, proved to compute the grouping above. */
  method GroupPortfolios(rows: seq<PortfolioRow>) returns (result: seq<PortfolioRecord>)
    ensures result == Values(GroupedMap(rows))
  {
    var acc: map<nat, PortfolioRecord> := map[];
    for i := 0 to |rows|
      invariant acc == GroupedMap(rows[..i])
    {
      var row := rows[i];
      if row.portfolioId !in acc {
        acc := acc[row.portfolioId := NewRecord(row)];
      }
      if row.detail.detailId != 0 {
        var r := acc[row.portfolioId];
        acc := acc[row.portfolioId := r.(details := r.details + [row.detail])];
      }
      assert rows[..i + 1][..i] == rows[..i];
    }
    assert rows[..|rows|] == rows;
    result := Values(acc);
  }

  // The reference description of a portfolio's record

  /** Some row belongs to portfolio id. */
  predicate Mentions(rows: seq<PortfolioRow>, id: nat) {
    rows != [] && (rows[|rows| - 1].portfolioId == id || Mentions(rows[..|rows| - 1], id))
  }

  /** The first row of portfolio id. */
  function FirstRow(rows: seq<PortfolioRow>, id: nat): (r: PortfolioRow)
    requires Mentions(rows, id)
    ensures r.portfolioId == id
  {
    var init := rows[..|rows| - 1];
    if Mentions(init, id) then FirstRow(init, id) else rows[|rows| - 1]
  }

  /** The details of the rows of portfolio id that have one, in row order. */
  function DetailsOf(rows: seq<PortfolioRow>, id: nat): seq<Detail> {
    if rows == [] then []
    else
      var last := rows[|rows| - 1];
      DetailsOf(rows[..|rows| - 1], id) + (if last.portfolioId == id && last.detail.detailId != 0 then [last.detail] else [])
  }

  /** The record of portfolio id: its first row's columns and the details of all its rows. */
  function Summary(rows: seq<PortfolioRow>, id: nat): PortfolioRecord
    requires Mentions(rows, id)
  {
    var f := FirstRow(rows, id);
    PortfolioRecord(id, f.portfolioName, f.initialValue, f.creationDate, f.description, DetailsOf(rows, id))
  }

  /**
   * The accumulator has a key for exactly the portfolios the rows mention, and
   * each key's record is that portfolio's summary.
   */
  lemma {:induction false} GroupedMapSummary(rows: seq<PortfolioRow>, id: nat)
    ensures id in GroupedMap(rows) <==> Mentions(rows, id)
    ensures id in GroupedMap(rows) ==> GroupedMap(rows)[id] == Summary(rows, id)
  {
    if rows != [] {
      var init, row := rows[..|rows| - 1], rows[|rows| - 1];
      GroupedMapSummary(init, id);
      if row.portfolioId == id && !Mentions(init, id) {
        DetailsOfUnmentioned(init, id);
      }
    }
  }

  lemma {:induction false} DetailsOfUnmentioned(rows: seq<PortfolioRow>, id: nat)
    requires !Mentions(rows, id)
    ensures DetailsOf(rows, id) == []
  {
    if rows != [] {
      DetailsOfUnmentioned(rows[..|rows| - 1], id);
    }
  }

  /**
   * The records come out one per mentioned portfolio, in ascending id order, and
   * each is that portfolio's first row's columns with the details of its rows in
   * row order.
   */
  lemma GroupPortfoliosSpec(rows: seq<PortfolioRow>)
    ensures var result := Values(GroupedMap(rows));
      (forall i, j :: 0 <= i < j < |result| ==> result[i].portfolioId < result[j].portfolioId) &&
      (forall id :: Mentions(rows, id) <==> exists i :: 0 <= i < |result| && result[i].portfolioId == id) &&
      (forall i :: 0 <= i < |result| ==> Mentions(rows, result[i].portfolioId) && result[i] == Summary(rows, result[i].portfolioId))
  {
    var m := GroupedMap(rows);
    var ks := SortedKeys(m.Keys);
    var result := Values(m);
    GroupedRecords(rows, m, ks, result);
    GroupedCovers(rows, m, ks, result);
    assert Increasing(ks);
  }

  /** The i-th record is the summary of the i-th smallest mentioned id. */
  lemma GroupedRecords(rows: seq<PortfolioRow>, m: map<nat, PortfolioRecord>, ks: seq<nat>, result: seq<PortfolioRecord>)
    requires m == GroupedMap(rows) && ks == SortedKeys(m.Keys) && result == Values(m)
    ensures |result| == |ks|
    ensures forall i :: 0 <= i < |ks| ==>
      result[i].portfolioId == ks[i] && Mentions(rows, ks[i]) && result[i] == Summary(rows, ks[i])
  {
    forall i | 0 <= i < |ks|
      ensures result[i].portfolioId == ks[i] && Mentions(rows, ks[i]) && result[i] == Summary(rows, ks[i])
    {
      GroupedMapSummary(rows, ks[i]);
    }
  }

  /** Every mentioned id has a record. */
  lemma GroupedCovers(rows: seq<PortfolioRow>, m: map<nat, PortfolioRecord>, ks: seq<nat>, result: seq<PortfolioRecord>)
    requires m == GroupedMap(rows) && ks == SortedKeys(m.Keys) && result == Values(m)
    ensures forall id :: Mentions(rows, id) ==> exists i :: 0 <= i < |result| && result[i].portfolioId == id
  {
    GroupedRecords(rows, m, ks, result);
    forall id | Mentions(rows, id)
      ensures exists i :: 0 <= i < |result| && result[i].portfolioId == id
    {
      GroupedMapSummary(rows, id);
      var i :| 0 <= i < |ks| && ks[i] == id;
      assert result[i].portfolioId == id;
    }
  }

  /** A portfolio with no detail rows still gets a record, with no details. */
  lemma LoneHeaderRow(row: PortfolioRow)
    requires row.detail.detailId == 0
    ensures Values(GroupedMap([row])) == [NewRecord(row)]
  {
    assert [row][..0] == [];
    assert GroupedMap([row]) == map[row.portfolioId := NewRecord(row)];
    assert SortedKeys({row.portfolioId}) == [row.portfolioId];
  }

  // POST /portfolios: validation and total value

  /** One asset of the request body; "" and 0 are the falsy values the checks refuse. */
  datatype AssetInput = AssetInput(assetType: string, symbol: string, quantity: real, price: real)

  /** The request body: `assets` is None when it is not an array. */
  datatype CreateRequest = CreateRequest(portfolioName: string, assets: Option<seq<AssetInput>>)

  /** The handler's answer: one of the three 400 errors, or 201 with the total value. */
  datatype CreateOutcome = MissingName | NoAssets | IncompleteAsset | Created(totalValue: real)

  /** `asset.type && asset.symbol && asset.quantity && asset.price`. */
  predicate Complete(a: AssetInput) {
    a.assetType != "" && a.symbol != "" && a.quantity != 0.0 && a.price != 0.0
  }

  /** Σ quantity × price of the first k assets. */
  function ValueTo(assets: seq<AssetInput>, k: nat): real
    requires k <= |assets|
  {
    if k == 0 then 0.0 else ValueTo(assets, k - 1) + assets[k - 1].quantity * assets[k - 1].price
  }

  /** The index of the first incomplete asset, or |assets| when all are complete. */
  function FirstIncomplete(assets: seq<AssetInput>): (k: nat)
    ensures k <= |assets|
    ensures forall i :: 0 <= i < k ==> Complete(assets[i])
    ensures k < |assets| ==> !Complete(assets[k])
  {
    if assets == [] then 0
    else if !Complete(assets[0]) then 0
    else 1 + FirstIncomplete(assets[1..])
  }

  /** The handler's checks in their order, then the value of the portfolio. */
  function CreateOutcomeOf(req: CreateRequest): CreateOutcome {
    if req.portfolioName == "" then MissingName
    else if req.assets.None? || req.assets.value == [] then NoAssets
    else if FirstIncomplete(req.assets.value) < |req.assets.value| then IncompleteAsset
    else Created(ValueTo(req.assets.value, |req.assets.value|))
  }

  /**
   * A portfolio is created exactly when it has a name and a non-empty list of
   * assets each with a type, a symbol, a quantity and a price; its value is
   * then Σ quantity × price.
   */
  lemma CreatedExactly(req: CreateRequest)
    ensures CreateOutcomeOf(req).Created? <==>
      req.portfolioName != "" && req.assets.Some? && req.assets.value != [] &&
      forall i :: 0 <= i < |req.assets.value| ==> Complete(req.assets.value[i])
    ensures CreateOutcomeOf(req).Created? ==>
      CreateOutcomeOf(req).totalValue == ValueTo(req.assets.value, |req.assets.value|)
  {
  }

  /** With positive quantities and prices the value is positive. */
  lemma {:induction false} ValuePositive(assets: seq<AssetInput>, k: nat)
    requires 0 < k <= |assets|
    requires forall i :: 0 <= i < |assets| ==> 0.0 < assets[i].quantity && 0.0 < assets[i].price
    ensures 0.0 < ValueTo(assets, k)
  {
    ProductPositive(assets[k - 1].quantity, assets[k - 1].price);
    if k > 1 {
      ValuePositive(assets, k - 1);
    }
  }

  /** The validation loop and the value loop of the handler. */
  method CreatePortfolio(req: CreateRequest) returns (outcome: CreateOutcome)
    ensures outcome == CreateOutcomeOf(req)
  {
    if req.portfolioName == "" {
      return MissingName;
    }
    if req.assets.None? || req.assets.value == [] {
      return NoAssets;
    }
    var assets := req.assets.value;
    for i := 0 to |assets|
      invariant forall j :: 0 <= j < i ==> Complete(assets[j])
    {
      var a := assets[i];
      if a.assetType == "" || a.symbol == "" || a.quantity == 0.0 || a.price == 0.0 {
        return IncompleteAsset;
      }
    }
    var totalValue := 0.0;
    for i := 0 to |assets|
      invariant totalValue == ValueTo(assets, i)
    {
      totalValue := totalValue + assets[i].quantity * assets[i].price;
    }
    return Created(totalValue);
  }
}
