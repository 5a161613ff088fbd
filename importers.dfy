/** Importing positions: the currency and quantity parsers, the Schwab
    positions export (header detection, column mapping, row filtering and
    per-symbol lot aggregation) and writing positions into the holdings
    table in one of three modes.  The CSV reader is a parameter: given the
    lines from the header row on, it returns the field names and one field
    map per data row, a field the row did not supply mapped to `None`. */
module Importers {
  import opened Common
  import opened Records
  import opened HoldingStore

  // ---------------------------------------------------------------------
  // Currency and quantity fields
  // ---------------------------------------------------------------------

  /** The spellings of a missing value. */
  predicate Blank(v: string) {
    var t := Strip(v);
    t == "N/A" || t == "--" || t == ""
  }

  /** `parse_currency(value)`: `None` for a missing or blank value,
      otherwise `float` of the value with "$" and "," removed. */
  function ParseCurrency(value: Option<string>): (r: Option<real>)
    ensures value.None? || Blank(value.value) ==> r.None?
  {
    if value.None? || value.value == "" || Blank(value.value) then None
    else ParseDecimal(Strip(RemoveChar(RemoveChar(value.value, '$'), ',')))
  }

  /** `parse_quantity(value)`: as `parse_currency` but only "," is removed. */
  function ParseQuantity(value: Option<string>): (r: Option<real>)
    ensures value.None? || Blank(value.value) ==> r.None?
  {
    if value.None? || value.value == "" || Blank(value.value) then None
    else ParseDecimal(Strip(RemoveChar(value.value, ',')))
  }

  /** Whatever survives stripping parses only if all of the string is made
      of decimal characters. */
  lemma StrippedDecimalChars(x: string)
    requires ParseDecimal(Strip(x)).Some?
    ensures forall i :: 0 <= i < |x| ==> DecimalChar(x[i])
  {
    var k, m := StripSplit(x);
    ParsedDecimalChars(Strip(x));
    forall i | 0 <= i < |x| ensures DecimalChar(x[i]) {
      if k <= i < m {
        assert Strip(x)[i - k] == x[i];
      }
    }
  }

  /** A parsed amount is written with digits, a sign, a point, whitespace,
      "$" and ","; a parsed quantity has no "$". */
  lemma ParsedAmountChars(v: string)
    ensures ParseCurrency(Some(v)).Some? ==>
              forall i :: 0 <= i < |v| ==> DecimalChar(v[i]) || v[i] == '$' || v[i] == ','
    ensures ParseQuantity(Some(v)).Some? ==> forall i :: 0 <= i < |v| ==> DecimalChar(v[i]) || v[i] == ','
  {
    var once := RemoveChar(v, '$');
    var twice := RemoveChar(once, ',');
    if ParseCurrency(Some(v)).Some? {
      StrippedDecimalChars(twice);
      forall i | 0 <= i < |v| && v[i] != '$' && v[i] != ','
        ensures DecimalChar(v[i])
      {
        RemoveCharKeeps(v, '$', v[i]);
        RemoveCharKeeps(once, ',', v[i]);
        var j :| 0 <= j < |twice| && twice[j] == v[i];
      }
    }
    if ParseQuantity(Some(v)).Some? {
      StrippedDecimalChars(RemoveChar(v, ','));
      forall i | 0 <= i < |v| && v[i] != ','
        ensures DecimalChar(v[i])
      {
        RemoveCharKeeps(v, ',', v[i]);
        var j :| 0 <= j < |RemoveChar(v, ',')| && RemoveChar(v, ',')[j] == v[i];
      }
    }
  }

  /** A value with a "$" is no quantity, and the two parsers agree on
      every value without one. */
  lemma QuantityVersusCurrency(value: string)
    ensures '$' in value ==> ParseQuantity(Some(value)).None?
    ensures '$' !in value ==> ParseQuantity(Some(value)) == ParseCurrency(Some(value))
  {
    if '$' in value {
      ParsedAmountChars(value);
      var i :| 0 <= i < |value| && value[i] == '$';
      assert !DecimalChar(value[i]);
    } else {
      RemoveCharAbsent(value, '$');
    }
  }

  // ---------------------------------------------------------------------
  // Schwab rows
  // ---------------------------------------------------------------------

  /** `ImportedPosition` */
  datatype Position = Position(
    symbol: string,
    shares: real,
    costBasisPerShare: real,
    totalCost: real,
    description: Option<string>)

  /** What the CSV reader returns. */
  datatype CsvTable = CsvTable(fieldnames: seq<string>, rows: seq<map<string, Option<string>>>)

  /** The columns `parse_schwab_csv` picks out of the field names. */
  datatype Columns = Columns(qty: Option<string>, cost: Option<string>, securityType: Option<string>)

  predicate IsQtyColumn(col: string) {
    Contains(col, "Qty") || Contains(col, "Quantity")
  }

  /** The exact cost-basis column name is no quantity column. */
  lemma CostBasisNotQty()
    ensures !IsQtyColumn("Cost Basis")
  {
    if Contains("Cost Basis", "Qty") {
      ContainsHead("Cost Basis", "Qty");
    }
    if Contains("Cost Basis", "Quantity") {
      ContainsHead("Cost Basis", "Quantity");
    }
  }

  /** The column mapping after the first `|fs|` field names: each test
      takes the last field name it matches, in the order quantity, cost
      basis, security type. */
  function ColumnsOf(fs: seq<string>): (c: Columns)
    ensures c.qty.Some? ==> c.qty.value in fs && IsQtyColumn(c.qty.value)
    ensures c.qty.None? <==> forall i :: 0 <= i < |fs| ==> !IsQtyColumn(fs[i])
    ensures c.cost.Some? ==> c.cost == Some("Cost Basis") && "Cost Basis" in fs
    ensures c.cost.None? <==> "Cost Basis" !in fs
    ensures c.securityType.Some? ==> c.securityType.value in fs && Contains(c.securityType.value, "Security Type")
                                     && !IsQtyColumn(c.securityType.value)
  {
    if fs == [] then Columns(None, None, None)
    else
      var c := ColumnsOf(fs[..|fs| - 1]);
      var col := fs[|fs| - 1];
      assert fs == fs[..|fs| - 1] + [col];
      CostBasisNotQty();
      if IsQtyColumn(col) then c.(qty := Some(col))
      else if col == "Cost Basis" then c.(cost := Some(col))
      else if Contains(col, "Security Type") then c.(securityType := Some(col))
      else c
  }

  /** The columns a data row is read with, once a quantity column exists. */
  datatype Layout = Layout(qty: string, cost: Option<string>, securityType: Option<string>)

  /** `row.get(col, "")`: a field the row lacks reads as empty, one the
      reader left unfilled as `None`. */
  function Field(row: map<string, Option<string>>, col: string): Option<string> {
    if col in row then row[col] else Some("")
  }

  /** The message of the exception `.strip()` raises on an unfilled field. */
  const StripError: string := "'NoneType' object has no attribute 'strip'"

  datatype RowOutcome = Skip | Lot(position: Position) | Fail(message: string)

  predicate SpecialSymbol(symbol: string) {
    var s := Lower(symbol);
    s == "cash & cash investments" || s == "account total"
  }

  /** The symbols of rows that are no position: empty, cash, the account
      total, and pending entries. */
  predicate SkippedSymbol(symbol: string) {
    symbol == "" || SpecialSymbol(symbol) || Upper(symbol) == "NO NUMBER"
  }

  /** A security type that is kept: empty, equity, or a kind of warrant. */
  predicate KeptType(t: string) {
    t == "" || Lower(t) == "equity" || Contains(Lower(t), "warrant")
  }

  /** The raw security type, empty when there is no such column. */
  function TypeField(row: map<string, Option<string>>, cols: Layout): Option<string> {
    if cols.securityType.Some? then Field(row, cols.securityType.value) else Some("")
  }

  /** The parsed total cost, `None` when there is no such column. */
  function TotalCostOf(row: map<string, Option<string>>, cols: Layout): Option<real> {
    ParseCurrency(if cols.cost.Some? then Field(row, cols.cost.value) else Some(""))
  }

  /** A lot: positive shares, and a per-share cost that is the total over
      the shares. */
  ghost predicate GoodLot(p: Position) {
    p.shares > 0.0 && p.costBasisPerShare == p.totalCost / p.shares
  }

  /** The lot of a kept row; a missing total cost counts as 0. */
  function LotOf(symbol: string, qty: real, total: Option<real>, desc: string): (p: Position)
    requires qty > 0.0
    ensures GoodLot(p) && p.symbol == symbol && p.shares == qty
    ensures total.Some? ==> p.totalCost == total.value
    ensures total.None? ==> p.totalCost == 0.0 && p.costBasisPerShare == 0.0
    ensures p.description.None? <==> desc == ""
  {
    var totalCost := if total.Some? then total.value else 0.0;
    var perShare := if total.Some? then total.value / qty else 0.0;
    Position(symbol, qty, perShare, totalCost, if desc != "" then Some(desc) else None)
  }

  /** The body of the row loop of `parse_schwab_csv` up to aggregation:
      which rows are skipped, which raise (`.strip()` on an unfilled
      field), and the lot a kept row yields. */
  function ReadRow(row: map<string, Option<string>>, cols: Layout): (r: RowOutcome)
    ensures Field(row, "Symbol").None? ==> r == Fail(StripError)
    ensures Field(row, "Symbol").Some? && SkippedSymbol(Strip(Field(row, "Symbol").value)) ==> r == Skip
    ensures r.Lot? ==>
              Field(row, "Symbol").Some? && r.position.symbol == Strip(Field(row, "Symbol").value)
              && !SkippedSymbol(r.position.symbol)
              && TypeField(row, cols).Some? && KeptType(Strip(TypeField(row, cols).value))
              && ParseQuantity(Field(row, cols.qty)) == Some(r.position.shares) && GoodLot(r.position)
              && (TotalCostOf(row, cols).None? ==> r.position.totalCost == 0.0 && r.position.costBasisPerShare == 0.0)
              && (TotalCostOf(row, cols).Some? ==> r.position.totalCost == TotalCostOf(row, cols).value)
    ensures Field(row, "Symbol").Some? && !SkippedSymbol(Strip(Field(row, "Symbol").value))
            && TypeField(row, cols).Some? && KeptType(Strip(TypeField(row, cols).value))
            && ParseQuantity(Field(row, cols.qty)).Some? && ParseQuantity(Field(row, cols.qty)).value > 0.0
            ==> r.Lot? || r == Fail(StripError)
  {
    match Field(row, "Symbol")
    case None => Fail(StripError)
    case Some(raw) =>
      var symbol := Strip(raw);
      if SkippedSymbol(symbol) then Skip
      else
        match TypeField(row, cols)
        case None => Fail(StripError)
        case Some(t) =>
          if !KeptType(Strip(t)) then Skip
          else
            var qty := ParseQuantity(Field(row, cols.qty));
            if qty.None? || qty.value <= 0.0 then Skip
            else
              match Field(row, "Description")
              case None => Fail(StripError)
              case Some(d) => Lot(LotOf(symbol, qty.value, TotalCostOf(row, cols), Strip(d)))
  }

  // ---------------------------------------------------------------------
  // Aggregation of lots by symbol
  // ---------------------------------------------------------------------

  /** Two lots of one symbol: shares and costs add up, the first lot's
      description stays. */
  function Merge(existing: Position, lot: Position): Position {
    var shares := existing.shares + lot.shares;
    var total := existing.totalCost + lot.totalCost;
    Position(existing.symbol, shares, if shares > 0.0 then total / shares else 0.0, total, existing.description)
  }

  /** One step of `aggregated[symbol] = ...`, on the positions in insertion
      order. */
  function AddLot(ps: seq<Position>, lot: Position): seq<Position> {
    match FirstIndex((p: Position) => p.symbol == lot.symbol, ps)
    case Some(k) => ps[k := Merge(ps[k], lot)]
    case None => ps + [lot]
  }

  /** `list(aggregated.values())` after the given lots. */
  function Aggregate(lots: seq<Position>): seq<Position> {
    if lots == [] then [] else AddLot(Aggregate(lots[..|lots| - 1]), lots[|lots| - 1])
  }

  /** The shares of one symbol's lots. */
  function SharesOf(lots: seq<Position>, symbol: string): real {
    if lots == [] then 0.0
    else SharesOf(lots[..|lots| - 1], symbol) + if lots[|lots| - 1].symbol == symbol then lots[|lots| - 1].shares else 0.0
  }

  /** The total cost of one symbol's lots. */
  function TotalOf(lots: seq<Position>, symbol: string): real {
    if lots == [] then 0.0
    else TotalOf(lots[..|lots| - 1], symbol) + if lots[|lots| - 1].symbol == symbol then lots[|lots| - 1].totalCost else 0.0
  }

  predicate HasSymbol(ps: seq<Position>, s: string) {
    exists k :: 0 <= k < |ps| && ps[k].symbol == s
  }

  /** The aggregate of lots: one position per symbol. */
  ghost predicate Aggregates(ps: seq<Position>, lots: seq<Position>) {
    (forall i, j :: 0 <= i < j < |ps| ==> ps[i].symbol != ps[j].symbol)
    && (forall s :: HasSymbol(ps, s) <==> HasSymbol(lots, s))
    && (forall k :: 0 <= k < |ps| ==> AggregatesAt(ps[k], lots))
  }

  /** A symbol's position: summed shares and cost, per-share cost the total
      over the shares, and the description of the symbol's first lot. */
  ghost predicate AggregatesAt(p: Position, lots: seq<Position>) {
    p.shares == SharesOf(lots, p.symbol) && p.shares > 0.0
    && p.totalCost == TotalOf(lots, p.symbol)
    && p.costBasisPerShare == p.totalCost / p.shares
    && exists k :: 0 <= k < |lots| && lots[k].symbol == p.symbol && p.description == lots[k].description
                   && forall j :: 0 <= j < k ==> lots[j].symbol != p.symbol
  }

  /** Aggregation of good lots yields exactly one position per symbol, with
      the sums and the first description. */
  lemma {:induction false} AggregateSpec(lots: seq<Position>)
    requires forall i :: 0 <= i < |lots| ==> GoodLot(lots[i])
    ensures Aggregates(Aggregate(lots), lots)
  {
    if lots != [] {
      var init, lot := lots[..|lots| - 1], lots[|lots| - 1];
      AggregateSpec(init);
      AddLotSpec(Aggregate(init), init, lot);
      assert init + [lot] == lots;
    }
  }

  lemma AddLotSpec(ps: seq<Position>, init: seq<Position>, lot: Position)
    requires Aggregates(ps, init) && GoodLot(lot)
    ensures Aggregates(AddLot(ps, lot), init + [lot])
  {
    var lots := init + [lot];
    assert lots[..|init|] == init;
    var r := AddLot(ps, lot);
    forall k | 0 <= k < |ps| && ps[k].symbol != lot.symbol
      ensures AggregatesAt(ps[k], lots)
    {
      OtherSymbolKept(ps[k], init, lot);
    }
    match FirstIndex((p: Position) => p.symbol == lot.symbol, ps)
    case Some(k) =>
      MergeSpec(ps[k], init, lot);
      assert r == ps[k := Merge(ps[k], lot)];
      assert forall i :: 0 <= i < |r| ==> r[i].symbol == ps[i].symbol;
      assert HasSymbol(ps, lot.symbol) by {
        assert ps[k].symbol == lot.symbol;
      }
      SymbolsStep(ps, r, init, lot);
    case None =>
      FreshSymbol(init, lot, ps);
      assert r == ps + [lot];
      assert !HasSymbol(ps, lot.symbol);
      SymbolsStep(ps, r, init, lot);
  }

  lemma SymbolsStep(ps: seq<Position>, r: seq<Position>, init: seq<Position>, lot: Position)
    requires Aggregates(ps, init)
    requires (r == ps + [lot] && !HasSymbol(ps, lot.symbol))
             || (|r| == |ps| && (forall i :: 0 <= i < |r| ==> r[i].symbol == ps[i].symbol) && HasSymbol(ps, lot.symbol))
    requires forall k :: 0 <= k < |r| ==> AggregatesAt(r[k], init + [lot])
    ensures Aggregates(r, init + [lot])
  {
    forall s ensures HasSymbol(r, s) <==> HasSymbol(init + [lot], s) {
      HasSymbolSnoc(init, lot, s);
      if r == ps + [lot] {
        HasSymbolSnoc(ps, lot, s);
      } else {
        SameSymbols(ps, r, s);
      }
    }
  }

  lemma HasSymbolSnoc(xs: seq<Position>, x: Position, s: string)
    ensures HasSymbol(xs + [x], s) <==> HasSymbol(xs, s) || x.symbol == s
  {
    if HasSymbol(xs, s) {
      var k :| 0 <= k < |xs| && xs[k].symbol == s;
      assert (xs + [x])[k] == xs[k];
    }
    if x.symbol == s {
      assert (xs + [x])[|xs|] == x;
    }
  }

  lemma SameSymbols(xs: seq<Position>, ys: seq<Position>, s: string)
    requires |xs| == |ys| && forall i :: 0 <= i < |xs| ==> xs[i].symbol == ys[i].symbol
    ensures HasSymbol(xs, s) <==> HasSymbol(ys, s)
  {
    if HasSymbol(xs, s) {
      var k :| 0 <= k < |xs| && xs[k].symbol == s;
      assert ys[k].symbol == s;
    }
    if HasSymbol(ys, s) {
      var k :| 0 <= k < |ys| && ys[k].symbol == s;
      assert xs[k].symbol == s;
    }
  }

  lemma SumsStep(init: seq<Position>, lot: Position, s: string)
    ensures SharesOf(init + [lot], s) == SharesOf(init, s) + if lot.symbol == s then lot.shares else 0.0
    ensures TotalOf(init + [lot], s) == TotalOf(init, s) + if lot.symbol == s then lot.totalCost else 0.0
  {
    assert (init + [lot])[..|init|] == init;
  }

  lemma OtherSymbolKept(p: Position, init: seq<Position>, lot: Position)
    requires AggregatesAt(p, init) && p.symbol != lot.symbol
    ensures AggregatesAt(p, init + [lot])
  {
    SumsStep(init, lot, p.symbol);
    var k :| 0 <= k < |init| && init[k].symbol == p.symbol && p.description == init[k].description
             && forall j :: 0 <= j < k ==> init[j].symbol != p.symbol;
    assert (init + [lot])[k] == init[k];
  }

  lemma MergeSpec(p: Position, init: seq<Position>, lot: Position)
    requires AggregatesAt(p, init) && GoodLot(lot) && p.symbol == lot.symbol
    ensures AggregatesAt(Merge(p, lot), init + [lot])
  {
    SumsStep(init, lot, p.symbol);
    var k :| 0 <= k < |init| && init[k].symbol == p.symbol && p.description == init[k].description
             && forall j :: 0 <= j < k ==> init[j].symbol != p.symbol;
    assert (init + [lot])[k] == init[k];
  }

  lemma FreshSymbol(init: seq<Position>, lot: Position, ps: seq<Position>)
    requires Aggregates(ps, init) && GoodLot(lot)
    requires forall k :: 0 <= k < |ps| ==> ps[k].symbol != lot.symbol
    ensures AggregatesAt(lot, init + [lot])
  {
    var lots := init + [lot];
    SumsStep(init, lot, lot.symbol);
    assert !HasSymbol(ps, lot.symbol);
    assert forall j :: 0 <= j < |init| ==> init[j].symbol != lot.symbol;
    NoShares(init, lot.symbol);
    assert lots[|init|] == lot;
    assert forall j :: 0 <= j < |init| ==> lots[j].symbol != lot.symbol;
  }

  lemma {:induction false} NoShares(lots: seq<Position>, s: string)
    requires forall j :: 0 <= j < |lots| ==> lots[j].symbol != s
    ensures SharesOf(lots, s) == 0.0 && TotalOf(lots, s) == 0.0
  {
    if lots != [] {
      NoShares(lots[..|lots| - 1], s);
    }
  }

  // ---------------------------------------------------------------------
  // `parse_schwab_csv`
  // ---------------------------------------------------------------------

  const TooShortError: string := "CSV file too short - expected at least 4 lines"
  const NoHeaderError: string := "Could not find header row with 'Symbol' column"
  const NoQuantityError: string := "Could not find Quantity column"

  /** The lines of the export, surrounding whitespace removed. */
  function ExportLines(content: string): seq<string> {
    Split(Strip(content), '\n')
  }

  predicate IsHeaderLine(line: string) {
    Contains(line, "Symbol")
  }

  /** The lot a data row contributes, if any. */
  function RowLot(row: map<string, Option<string>>, cols: Layout): Option<Position> {
    match ReadRow(row, cols)
    case Lot(p) => Some(p)
    case _ => None
  }

  /** The lots of the kept rows, in file order. */
  function Lots(rows: seq<map<string, Option<string>>>, cols: Layout): seq<Position> {
    Collect((row: map<string, Option<string>>) => RowLot(row, cols), rows)
  }

  /** One error per raising row, numbered from `first` on. */
  function RowErrors(rows: seq<map<string, Option<string>>>, cols: Layout, first: nat): seq<string> {
    if rows == [] then []
    else
      var k := |rows| - 1;
      RowErrors(rows[..k], cols, first) + match ReadRow(rows[k], cols)
        case Fail(m) => ["Row " + NatToString(first + k) + ": " + m]
        case _ => []
  }

  /** The positions and error messages of a parse. */
  datatype Parsed = Parsed(positions: seq<Position>, errors: seq<string>)

  /** What `parse_schwab_csv` returns for the export, given the CSV reader
      of the lines from the header row on. */
  function ParseSchwab(content: string, reader: seq<string> -> CsvTable): Parsed {
    var lines := ExportLines(content);
    if |lines| < 4 then Parsed([], [TooShortError])
    else
      match FirstIndex(IsHeaderLine, lines)
      case None => Parsed([], [NoHeaderError])
      case Some(h) =>
        var table := reader(lines[h..]);
        var cols := ColumnsOf(table.fieldnames);
        if cols.qty.None? then Parsed([], [NoQuantityError])
        else
          var layout := Layout(cols.qty.value, cols.cost, cols.securityType);
          Parsed(Aggregate(Lots(table.rows, layout)), RowErrors(table.rows, layout, h + 2))
  }

  /** Every row error names its row, and there are no more of them than
      rows. */
  lemma {:induction false} RowErrorsShape(rows: seq<map<string, Option<string>>>, cols: Layout, first: nat)
    ensures |RowErrors(rows, cols, first)| <= |rows|
    ensures forall i :: 0 <= i < |RowErrors(rows, cols, first)| ==> StartsWith(RowErrors(rows, cols, first)[i], "Row ")
  {
    if rows != [] {
      var k := |rows| - 1;
      RowErrorsShape(rows[..k], cols, first);
    }
  }

  /** A kept row's symbol is a position, and a position comes from kept
      rows of its symbol only. */
  lemma LotsSymbols(rows: seq<map<string, Option<string>>>, cols: Layout, s: string)
    ensures HasSymbol(Lots(rows, cols), s) <==> exists k :: 0 <= k < |rows| && RowLot(rows[k], cols).Some? && RowLot(rows[k], cols).value.symbol == s
  {
    var f := (row: map<string, Option<string>>) => RowLot(row, cols);
    var lots := Lots(rows, cols);
    if HasSymbol(lots, s) {
      var i :| 0 <= i < |lots| && lots[i].symbol == s;
      CollectMembers(f, rows, lots[i]);
    }
    if exists k :: 0 <= k < |rows| && RowLot(rows[k], cols).Some? && RowLot(rows[k], cols).value.symbol == s {
      var k :| 0 <= k < |rows| && RowLot(rows[k], cols).Some? && RowLot(rows[k], cols).value.symbol == s;
      CollectMembers(f, rows, RowLot(rows[k], cols).value);
      MemberHasSymbol(lots, RowLot(rows[k], cols).value);
    }
  }

  lemma MemberHasSymbol(ps: seq<Position>, p: Position)
    requires p in ps
    ensures HasSymbol(ps, p.symbol)
  {
    var i :| 0 <= i < |ps| && ps[i] == p;
  }

  /** Every lot is a good one. */
  lemma LotsGood(rows: seq<map<string, Option<string>>>, cols: Layout)
    ensures forall i :: 0 <= i < |Lots(rows, cols)| ==> GoodLot(Lots(rows, cols)[i])
  {
    var f := (row: map<string, Option<string>>) => RowLot(row, cols);
    forall i | 0 <= i < |Lots(rows, cols)| ensures GoodLot(Lots(rows, cols)[i]) {
      CollectMembers(f, rows, Lots(rows, cols)[i]);
    }
  }

  /** A structural failure yields its one message and no positions;
      otherwise the positions aggregate the lots of the kept rows, one per
      symbol, and every other message names a row. */
  lemma ParseSchwabSpec(content: string, reader: seq<string> -> CsvTable)
    ensures |ExportLines(content)| < 4 ==> ParseSchwab(content, reader) == Parsed([], [TooShortError])
    ensures |ExportLines(content)| >= 4 && (forall i :: 0 <= i < |ExportLines(content)| ==> !IsHeaderLine(ExportLines(content)[i]))
            ==> ParseSchwab(content, reader) == Parsed([], [NoHeaderError])
    ensures var lines := ExportLines(content);
      |lines| >= 4 && FirstIndex(IsHeaderLine, lines).Some? ==>
        var h := FirstIndex(IsHeaderLine, lines).value;
        var table := reader(lines[h..]);
        var cols := ColumnsOf(table.fieldnames);
        var r := ParseSchwab(content, reader);
        (cols.qty.None? ==> r == Parsed([], [NoQuantityError]))
        && (cols.qty.Some? ==>
              var layout := Layout(cols.qty.value, cols.cost, cols.securityType);
              Aggregates(r.positions, Lots(table.rows, layout))
              && |r.errors| <= |table.rows|
              && forall i :: 0 <= i < |r.errors| ==> StartsWith(r.errors[i], "Row "))
  {
    var lines := ExportLines(content);
    if |lines| >= 4 && FirstIndex(IsHeaderLine, lines).Some? {
      var h := FirstIndex(IsHeaderLine, lines).value;
      var table := reader(lines[h..]);
      var cols := ColumnsOf(table.fieldnames);
      if cols.qty.Some? {
        var layout := Layout(cols.qty.value, cols.cost, cols.securityType);
        LotsGood(table.rows, layout);
        AggregateSpec(Lots(table.rows, layout));
        RowErrorsShape(table.rows, layout, h + 2);
      }
    }
  }

  /** The search for the header row: the first line naming "Symbol". */
  method FindHeader(lines: seq<string>) returns (header: Option<nat>)
    ensures header == FirstIndex(IsHeaderLine, lines)
  {
    var i := 0;
    while i < |lines| && !Contains(lines[i], "Symbol")
      invariant 0 <= i <= |lines|
      invariant forall j :: 0 <= j < i ==> !IsHeaderLine(lines[j])
    {
      i := i + 1;
    }
    header := if i < |lines| then Some(i) else None;
  }

  /** The loop over the field names that picks the columns. */
  method MapColumns(fieldnames: seq<string>) returns (cols: Columns)
    ensures cols == ColumnsOf(fieldnames)
  {
    cols := Columns(None, None, None);
    for j := 0 to |fieldnames|
      invariant cols == ColumnsOf(fieldnames[..j])
    {
      var col := fieldnames[j];
      assert fieldnames[..j + 1][..j] == fieldnames[..j];
      if IsQtyColumn(col) {
        cols := cols.(qty := Some(col));
      } else if col == "Cost Basis" {
        cols := cols.(cost := Some(col));
      } else if Contains(col, "Security Type") {
        cols := cols.(securityType := Some(col));
      }
    }
    assert fieldnames[..|fieldnames|] == fieldnames;
  }

  /** The loop over the data rows, numbered from `first` on: lots are
      aggregated by symbol and raising rows reported. */
  method ReadRows(rows: seq<map<string, Option<string>>>, layout: Layout, first: nat)
    returns (positions: seq<Position>, errors: seq<string>)
    ensures positions == Aggregate(Lots(rows, layout))
    ensures errors == RowErrors(rows, layout, first)
  {
    positions := [];
    errors := [];
    for k := 0 to |rows|
      invariant positions == Aggregate(Lots(rows[..k], layout))
      invariant errors == RowErrors(rows[..k], layout, first)
    {
      ReadStep(rows, layout, first, k);
      ghost var lots := Lots(rows[..k], layout);
      var outcome := ReadRow(rows[k], layout);
      if outcome.Lot? {
        assert Lots(rows[..k + 1], layout) == lots + [outcome.position];
        AggregateSnoc(lots, outcome.position);
        positions := AddLot(positions, outcome.position);
      } else {
        assert Lots(rows[..k + 1], layout) == lots + [];
        assert lots + [] == lots;
        if outcome.Fail? {
          errors := errors + ["Row " + NatToString(first + k) + ": " + outcome.message];
        }
      }
    }
    assert rows[..|rows|] == rows;
  }

  lemma ReadStep(rows: seq<map<string, Option<string>>>, layout: Layout, first: nat, k: nat)
    requires k < |rows|
    ensures Lots(rows[..k + 1], layout) == Lots(rows[..k], layout) + OptionToSeq(RowLot(rows[k], layout))
    ensures RowErrors(rows[..k + 1], layout, first) == RowErrors(rows[..k], layout, first)
              + if ReadRow(rows[k], layout).Fail?
                then ["Row " + NatToString(first + k) + ": " + ReadRow(rows[k], layout).message] else []
  {
    CollectSnoc((row: map<string, Option<string>>) => RowLot(row, layout), rows, k);
    RowErrorsSnoc(rows[..k + 1], layout, first);
    PrefixStep(rows, k);
  }

  lemma RowErrorsSnoc(rows: seq<map<string, Option<string>>>, layout: Layout, first: nat)
    requires rows != []
    ensures var k := |rows| - 1;
            RowErrors(rows, layout, first) == RowErrors(rows[..k], layout, first)
              + if ReadRow(rows[k], layout).Fail?
                then ["Row " + NatToString(first + k) + ": " + ReadRow(rows[k], layout).message] else []
  {
  }


  lemma AggregateSnoc(lots: seq<Position>, p: Position)
    ensures Aggregate(lots + [p]) == AddLot(Aggregate(lots), p)
  {
    assert (lots + [p])[..|lots|] == lots;
  }

  /** `parse_schwab_csv(csv_content)` */
  method ParseSchwabCsv(content: string, reader: seq<string> -> CsvTable)
    returns (positions: seq<Position>, errors: seq<string>)
    ensures Parsed(positions, errors) == ParseSchwab(content, reader)
  {
    var lines := Split(Strip(content), '\n');
    if |lines| < 4 {
      return [], [TooShortError];
    }
    var header := FindHeader(lines);
    if header.None? {
      return [], [NoHeaderError];
    }
    var h := header.value;
    var table := reader(lines[h..]);
    var cols := MapColumns(table.fieldnames);
    if cols.qty.None? {
      return [], [NoQuantityError];
    }
    positions, errors := ReadRows(table.rows, Layout(cols.qty.value, cols.cost, cols.securityType), h + 2);
  }

  // ---------------------------------------------------------------------
  // `import_positions` and `import_schwab_csv`
  // ---------------------------------------------------------------------

  /** The modes that are not the default upsert. */
  const ReplaceMode: string := "replace"
  const AddOnlyMode: string := "add_only"

  /** `ImportResult` */
  datatype ImportResult = ImportResult(created: nat, updated: nat, skipped: nat, errors: seq<string>,
                                       positions: seq<Position>)

  /** No two positions name the same symbol, ignoring case. */
  predicate DistinctSymbols(positions: seq<Position>) {
    forall i, j :: 0 <= i < j < |positions| ==> Upper(positions[i].symbol) != Upper(positions[j].symbol)
  }

  /** Two rows with one id are one row. */
  lemma SameIdSameRow(rows: seq<Holding>, nextId: nat, x: Holding, y: Holding)
    requires TableValid((h: Holding) => h.id, rows, nextId)
    requires x in rows && y in rows && x.id == y.id
    ensures x == y
  {
    var i :| 0 <= i < |rows| && rows[i] == x;
    var j :| 0 <= j < |rows| && rows[j] == y;
  }

  /** A table change that keeps every row's id, owner and symbol, and
      changes only rows of one user, leaves every other user's rows, every
      id and every symbol lookup as they were. */
  lemma SameKeys(before: seq<Holding>, after: seq<Holding>, userId: Id)
    requires |after| == |before|
    requires forall i :: 0 <= i < |before| ==>
               after[i].id == before[i].id && after[i].userId == before[i].userId && after[i].symbol == before[i].symbol
    requires forall i :: 0 <= i < |before| && after[i] != before[i] ==> before[i].userId == userId
    ensures forall h: Holding :: h.userId != userId ==> (h in after <==> h in before)
    ensures forall id :: FindHolding(after, id).Some? <==> FindHolding(before, id).Some?
    ensures forall symbol, u :: HoldingBySymbol(after, symbol, u).Some? <==> HoldingBySymbol(before, symbol, u).Some?
  {
    forall h: Holding | h.userId != userId ensures h in after <==> h in before {
      if h in after {
        var i :| 0 <= i < |after| && after[i] == h;
      }
      if h in before {
        var i :| 0 <= i < |before| && before[i] == h;
      }
    }
  }

  /** Appending a row of the user keeps every other user's rows, every id
      and every symbol the user held. */
  lemma AppendKeys(before: seq<Holding>, h: Holding, userId: Id)
    requires h.userId == userId
    ensures forall x: Holding :: x.userId != userId ==> (x in before + [h] <==> x in before)
    ensures forall id :: FindHolding(before, id).Some? ==> FindHolding(before + [h], id).Some?
    ensures forall symbol :: HoldingBySymbol(before, symbol, userId).Some? ==> HoldingBySymbol(before + [h], symbol, userId).Some?
    ensures forall symbol :: Upper(symbol) == h.symbol ==> HoldingBySymbol(before + [h], symbol, userId).Some?
    ensures forall symbol :: HoldingBySymbol(before, symbol, userId).None? && Upper(symbol) != h.symbol
                             ==> HoldingBySymbol(before + [h], symbol, userId).None?
  {
    var after := before + [h];
    assert after[|before|] == h;
    assert forall i :: 0 <= i < |before| ==> after[i] == before[i];
  }

  /** `for holding in repo.get_all(user_id): repo.delete(holding.id)` */
  method DeleteUserHoldings(repo: HoldingRepository, userId: Id)
    requires repo.Valid()
    modifies repo
    ensures repo.Valid() && repo.nextId == old(repo.nextId)
    ensures forall x :: x in repo.rows <==> x in old(repo.rows) && x.userId != userId
  {
    ghost var rows0 := repo.rows;
    var existing := UserHoldings(repo.rows, userId);
    UserHoldingsMembers(rows0, userId);
    ghost var gone: set<Id> := {};
    for k := 0 to |existing|
      invariant repo.Valid() && repo.nextId == old(repo.nextId)
      invariant forall x :: x in repo.rows <==> x in rows0 && x.id !in gone
      invariant forall m :: 0 <= m < k ==> existing[m].id in gone
      invariant forall x :: x in rows0 && x.id in gone ==> x.userId == userId
    {
      ghost var before := repo.rows;
      var id := existing[k].id;
      var deleted := repo.Delete(id, None);
      DeleteStep(rows0, before, repo.rows, gone, id, deleted);
      forall x | x in rows0 && x.id == id ensures x.userId == userId {
        SameIdSameRow(rows0, repo.nextId, x, existing[k]);
      }
      gone := gone + {id};
    }
    forall x | x in rows0 && x.userId == userId ensures x.id in gone {
      var m :| 0 <= m < |existing| && existing[m] == x;
    }
  }

  lemma DeleteStep(rows0: seq<Holding>, before: seq<Holding>, after: seq<Holding>, gone: set<Id>, id: Id, deleted: bool)
    requires forall x :: x in before <==> x in rows0 && x.id !in gone
    requires deleted ==> forall x :: x in after <==> x in before && x.id != id
    requires !deleted ==> after == before && FindHolding(before, id).None?
    ensures forall x :: x in after <==> x in rows0 && x.id !in gone + {id}
  {
    if !deleted {
      forall x | x in before ensures x.id != id {
        var i :| 0 <= i < |before| && before[i] == x;
      }
    }
  }

  /** How `after` extends `before`: the rows of `before` keep their place,
      id, owner and symbol, only `userId`'s rows among them change, and the
      rows after them are new rows of `userId` with ids from `nextId` on. */
  ghost predicate Grows(before: seq<Holding>, after: seq<Holding>, userId: Id, nextId: nat) {
    |before| <= |after|
    && (forall i :: 0 <= i < |before| ==>
          after[i].id == before[i].id && after[i].userId == before[i].userId && after[i].symbol == before[i].symbol
          && (after[i] != before[i] ==> before[i].userId == userId))
    && (forall i :: |before| <= i < |after| ==> after[i].userId == userId && after[i].id >= nextId)
  }

  lemma GrowsTrans(a: seq<Holding>, b: seq<Holding>, c: seq<Holding>, userId: Id, n: nat, m: nat)
    requires Grows(a, b, userId, n) && Grows(b, c, userId, m) && n <= m
    ensures Grows(a, c, userId, n)
  {
  }

  /** What growing keeps: every other user's rows, every id, every symbol
      the user holds; and when `before` holds nothing of the user, the
      user's rows are all new. */
  lemma GrowsFacts(before: seq<Holding>, after: seq<Holding>, userId: Id, nextId: nat)
    requires Grows(before, after, userId, nextId)
    ensures forall h: Holding :: h.userId != userId ==> (h in after <==> h in before)
    ensures forall id :: FindHolding(before, id).Some? ==> FindHolding(after, id).Some?
    ensures forall symbol :: HoldingBySymbol(before, symbol, userId).Some? ==> HoldingBySymbol(after, symbol, userId).Some?
    ensures (forall i :: 0 <= i < |before| ==> before[i].userId != userId) ==>
              forall x :: x in after && x.userId == userId ==> x.id >= nextId
  {
    forall h: Holding | h.userId != userId ensures h in after <==> h in before {
      if h in after {
        var i :| 0 <= i < |after| && after[i] == h;
      }
      if h in before {
        var i :| 0 <= i < |before| && before[i] == h;
      }
    }
    forall id | FindHolding(before, id).Some? ensures FindHolding(after, id).Some? {
      var i :| 0 <= i < |before| && before[i] == FindHolding(before, id).value;
      assert after[i].id == id;
    }
    forall symbol | HoldingBySymbol(before, symbol, userId).Some?
      ensures HoldingBySymbol(after, symbol, userId).Some?
    {
      var i :| 0 <= i < |before| && before[i] == HoldingBySymbol(before, symbol, userId).value;
      assert after[i].userId == userId && after[i].symbol == Upper(symbol);
    }
    if forall i :: 0 <= i < |before| ==> before[i].userId != userId {
      forall x | x in after && x.userId == userId ensures x.id >= nextId {
        var i :| 0 <= i < |after| && after[i] == x;
      }
    }
  }

  /** An update of one of the user's rows grows the table. */
  lemma UpdateGrows(before: seq<Holding>, after: seq<Holding>, nextId: nat, e: Holding, userId: Id,
                    shares: Option<real>, costBasis: Option<real>)
    requires TableValid((h: Holding) => h.id, before, nextId) && e in before && e.userId == userId
    requires |after| == |before|
    requires forall i :: 0 <= i < |after| ==>
               after[i] == if before[i].id == e.id then Updated(before[i], shares, costBasis, None) else before[i]
    ensures Grows(before, after, userId, nextId)
  {
    forall i | 0 <= i < |before| && after[i] != before[i] ensures before[i].userId == userId {
      SameIdSameRow(before, nextId, before[i], e);
    }
  }

  lemma GrowsRefl(rows: seq<Holding>, userId: Id, nextId: nat)
    ensures Grows(rows, rows, userId, nextId)
  {
  }

  lemma AppendGrows(before: seq<Holding>, h: Holding, userId: Id, nextId: nat)
    requires h.userId == userId && h.id >= nextId
    ensures Grows(before, before + [h], userId, nextId)
  {
  }

  /** `after` keeps the old rows in place and only appends. */
  ghost predicate Extends(before: seq<Holding>, after: seq<Holding>) {
    |before| <= |after| && after[..|before|] == before
  }

  /** The user's holding of the position's symbol has the position's
      shares and per-share cost. */
  predicate HoldsPosition(rows: seq<Holding>, userId: Id, pos: Position) {
    var h := HoldingBySymbol(rows, pos.symbol, userId);
    h.Some? && h.value.shares == pos.shares && h.value.costBasis == pos.costBasisPerShare
  }

  /** No later position names the symbol of position `j`. */
  predicate LastOfSymbol(positions: seq<Position>, j: nat) {
    forall k :: j < k < |positions| ==> Upper(positions[k].symbol) != Upper(positions[j].symbol)
  }

  /** Position `j` is the last of its symbol and is written to its
      holding: the mode updates and `update` accepts its values. */
  predicate WrittenLast(positions: seq<Position>, j: nat, mode: string)
    requires j < |positions|
  {
    LastOfSymbol(positions, j) && mode != AddOnlyMode
    && UpdateCheck(Some(positions[j].shares), Some(positions[j].costBasisPerShare)).None?
  }

  lemma ExtendsTrans(a: seq<Holding>, b: seq<Holding>, c: seq<Holding>)
    requires Extends(a, b) && Extends(b, c)
    ensures Extends(a, c)
  {
    assert c[..|a|] == c[..|b|][..|a|];
  }

  /** Every symbol lookup of the user other than `symbol`'s answers as
      before. */
  ghost predicate OthersKept(before: seq<Holding>, after: seq<Holding>, userId: Id, symbol: string) {
    forall s :: Upper(s) != Upper(symbol) ==> HoldingBySymbol(after, s, userId) == HoldingBySymbol(before, s, userId)
  }

  /** None of the first `n` positions names `symbol`. */
  predicate Unnamed(positions: seq<Position>, n: nat, symbol: string)
    requires n <= |positions|
  {
    forall j :: 0 <= j < n ==> Upper(positions[j].symbol) != Upper(symbol)
  }

  /** Every symbol that none of the first `n` positions names is looked up
      as in `start`. */
  ghost predicate UnnamedKept(start: seq<Holding>, rows: seq<Holding>, userId: Id, positions: seq<Position>, n: nat)
    requires n <= |positions|
  {
    forall s {:trigger HoldingBySymbol(rows, s, userId)} :: Unnamed(positions, n, s) ==>
      HoldingBySymbol(rows, s, userId) == HoldingBySymbol(start, s, userId)
  }

  /** Importing position `n`, which keeps every other symbol, keeps the
      symbols no position up to `n` names. */
  lemma UnnamedStep(start: seq<Holding>, before: seq<Holding>, after: seq<Holding>, userId: Id,
                    positions: seq<Position>, n: nat)
    requires n < |positions| && UnnamedKept(start, before, userId, positions, n)
    requires OthersKept(before, after, userId, positions[n].symbol)
    ensures UnnamedKept(start, after, userId, positions, n + 1)
  {
    forall s | Unnamed(positions, n + 1, s)
      ensures HoldingBySymbol(after, s, userId) == HoldingBySymbol(start, s, userId)
    {
      assert Unnamed(positions, n, s);
      assert Upper(positions[n].symbol) != Upper(s);
    }
  }

  /** A symbol lookup after an in-place update of the row with id `id`
      finds the same row, updated when it is that one. */
  lemma UpdateBySymbol(before: seq<Holding>, after: seq<Holding>, id: Id, shares: Option<real>,
                       costBasis: Option<real>, symbol: string, userId: Id)
    requires |after| == |before|
    requires forall i :: 0 <= i < |after| ==>
               after[i] == if before[i].id == id then Updated(before[i], shares, costBasis, None) else before[i]
    ensures HoldingBySymbol(after, symbol, userId) ==
              match HoldingBySymbol(before, symbol, userId)
              case None => None
              case Some(h) => Some(if h.id == id then Updated(h, shares, costBasis, None) else h)
  {
    var p := (h: Holding) => h.userId == userId && h.symbol == Upper(symbol);
    assert forall i :: 0 <= i < |after| ==> (p(after[i]) <==> p(before[i]));
    var a := FirstIndex(p, after);
    var b := FirstIndex(p, before);
    if a.Some? {
      assert p(before[a.value]);
    }
    if b.Some? {
      assert p(after[b.value]);
    }
  }

  /** Updating the row of `symbol` keeps every other symbol's lookup. */
  lemma UpdateKeepsOthers(before: seq<Holding>, after: seq<Holding>, nextId: nat, e: Holding, userId: Id,
                          shares: Option<real>, costBasis: Option<real>, symbol: string)
    requires TableValid((h: Holding) => h.id, before, nextId) && e in before && e.symbol == Upper(symbol)
    requires |after| == |before|
    requires forall i :: 0 <= i < |after| ==>
               after[i] == if before[i].id == e.id then Updated(before[i], shares, costBasis, None) else before[i]
    ensures OthersKept(before, after, userId, symbol)
  {
    forall s | Upper(s) != Upper(symbol)
      ensures HoldingBySymbol(after, s, userId) == HoldingBySymbol(before, s, userId)
    {
      UpdateBySymbol(before, after, e.id, shares, costBasis, s, userId);
      var h := HoldingBySymbol(before, s, userId);
      if h.Some? && h.value.id == e.id {
        SameIdSameRow(before, nextId, h.value, e);
      }
    }
  }

  /** A symbol lookup after appending `h` finds the row it found before,
      else `h` when it matches. */
  lemma AppendLookup(before: seq<Holding>, h: Holding, userId: Id, s: string)
    ensures HoldingBySymbol(before + [h], s, userId) ==
              if HoldingBySymbol(before, s, userId).Some? then HoldingBySymbol(before, s, userId)
              else if h.userId == userId && h.symbol == Upper(s) then Some(h)
              else None
  {
    var after := before + [h];
    var p := (x: Holding) => x.userId == userId && x.symbol == Upper(s);
    assert forall i :: 0 <= i < |before| ==> after[i] == before[i];
    var b := FirstIndex(p, before);
    var a := FirstIndex(p, after);
    if b.Some? {
      assert p(after[b.value]);
    } else {
      assert after[|before|] == h;
    }
    if a.Some? && a.value < |before| {
      assert p(before[a.value]);
    }
  }

  /** Appending a row of `symbol` keeps every other symbol's lookup. */
  lemma AppendBySymbol(before: seq<Holding>, h: Holding, userId: Id, symbol: string)
    requires h.symbol == Upper(symbol)
    ensures OthersKept(before, before + [h], userId, symbol)
  {
    forall s | Upper(s) != Upper(symbol)
      ensures HoldingBySymbol(before + [h], s, userId) == HoldingBySymbol(before, s, userId)
    {
      AppendLookup(before, h, userId, s);
    }
  }

  /** A step that leaves the table as it was. */
  lemma Unchanged(rows: seq<Holding>, userId: Id, nextId: nat, symbol: string)
    ensures Grows(rows, rows, userId, nextId) && OthersKept(rows, rows, userId, symbol) && Extends(rows, rows)
  {
    assert rows[..|rows|] == rows;
  }

  /** Appending the holding of a symbol the user did not hold grows the
      table, keeps every other symbol's lookup, and the symbol's lookup
      finds the new row. */
  lemma CreatedFacts(before: seq<Holding>, h: Holding, userId: Id, nextId: nat, symbol: string)
    requires h.id >= nextId && h.userId == userId && h.symbol == Upper(symbol)
    requires HoldingBySymbol(before, symbol, userId).None?
    ensures Grows(before, before + [h], userId, nextId)
    ensures OthersKept(before, before + [h], userId, symbol)
    ensures Extends(before, before + [h])
    ensures HoldingBySymbol(before + [h], symbol, userId) == Some(h)
  {
    AppendGrows(before, h, userId, nextId);
    AppendBySymbol(before, h, userId, symbol);
    AppendLookup(before, h, userId, symbol);
    assert (before + [h])[..|before|] == before;
  }

  /** Updating the symbol's row in place grows the table, keeps every
      other symbol's lookup, and the symbol's lookup finds the updated
      row. */
  lemma UpdatedFacts(before: seq<Holding>, after: seq<Holding>, nextId: nat, e: Holding, userId: Id,
                     shares: Option<real>, costBasis: Option<real>, symbol: string)
    requires TableValid((h: Holding) => h.id, before, nextId)
    requires HoldingBySymbol(before, symbol, userId) == Some(e)
    requires |after| == |before|
    requires forall i :: 0 <= i < |after| ==>
               after[i] == if before[i].id == e.id then Updated(before[i], shares, costBasis, None) else before[i]
    ensures Grows(before, after, userId, nextId)
    ensures OthersKept(before, after, userId, symbol)
    ensures HoldingBySymbol(after, symbol, userId) == Some(Updated(e, shares, costBasis, None))
  {
    UpdateGrows(before, after, nextId, e, userId, shares, costBasis);
    UpdateKeepsOthers(before, after, nextId, e, userId, shares, costBasis, symbol);
    UpdateBySymbol(before, after, e.id, shares, costBasis, symbol, userId);
  }

  /** What importing one position did. */
  datatype ImportStep = Created | Changed | Skipped | Failed(message: string)

  /** The import of a position whose symbol the user holds as `e`: skipped
      in "add_only" mode, otherwise `e` gets the position's shares and
      per-share cost, or the update is refused with the symbol prefixed to
      its message. */
  ghost predicate ExistingImported(before: seq<Holding>, after: seq<Holding>, e: Holding, pos: Position,
                                   mode: string, step: ImportStep)
  {
    var check := UpdateCheck(Some(pos.shares), Some(pos.costBasisPerShare));
    if mode == AddOnlyMode then step == Skipped && after == before
    else if check.Some? then step == Failed(pos.symbol + ": " + check.value) && after == before
    else
      step == Changed && |after| == |before|
      && forall i :: 0 <= i < |after| ==>
           after[i] == if before[i].id == e.id
                       then Updated(before[i], Some(pos.shares), Some(pos.costBasisPerShare), None)
                       else before[i]
  }

  /** The body of the loop of `import_positions` for one position. */
  method ImportOne(repo: HoldingRepository, userId: Id, pos: Position, mode: string) returns (step: ImportStep)
    requires repo.Valid()
    modifies repo
    ensures repo.Valid() && repo.nextId >= old(repo.nextId)
    ensures Grows(old(repo.rows), repo.rows, userId, old(repo.nextId))
    ensures HoldingBySymbol(repo.rows, pos.symbol, userId).Some?
    ensures HoldingBySymbol(old(repo.rows), pos.symbol, userId).None? ==>
              step == Created
              && repo.rows == old(repo.rows)
                              + [Holding(old(repo.nextId), userId, Upper(pos.symbol), pos.shares, pos.costBasisPerShare, None)]
    ensures mode == AddOnlyMode ==> step == Created || step == Skipped
    ensures HoldingBySymbol(old(repo.rows), pos.symbol, userId).Some? ==>
              ExistingImported(old(repo.rows), repo.rows, HoldingBySymbol(old(repo.rows), pos.symbol, userId).value,
                               pos, mode, step)
    ensures OthersKept(old(repo.rows), repo.rows, userId, pos.symbol)
    ensures mode == AddOnlyMode ==> Extends(old(repo.rows), repo.rows)
    ensures mode != AddOnlyMode && UpdateCheck(Some(pos.shares), Some(pos.costBasisPerShare)).None? ==>
              HoldsPosition(repo.rows, userId, pos)
  {
    var existing := HoldingBySymbol(repo.rows, pos.symbol, userId);
    if existing.Some? {
      if mode == AddOnlyMode {
        Unchanged(repo.rows, userId, repo.nextId, pos.symbol);
        return Skipped;
      }
      ghost var before := repo.rows;
      var e := existing.value;
      assert FindHolding(before, e.id).Some? by {
        var i :| 0 <= i < |before| && before[i] == e;
      }
      var r := repo.Update(e.id, Some(pos.shares), Some(pos.costBasisPerShare), None);
      if r.Err? {
        Unchanged(repo.rows, userId, repo.nextId, pos.symbol);
        return Failed(pos.symbol + ": " + r.error);
      }
      UpdatedFacts(before, repo.rows, old(repo.nextId), e, userId, Some(pos.shares), Some(pos.costBasisPerShare),
                   pos.symbol);
      step := Changed;
    } else {
      var h := repo.Create(pos.symbol, pos.shares, pos.costBasisPerShare, None, userId);
      CreatedFacts(old(repo.rows), h, userId, old(repo.nextId), pos.symbol);
      step := Created;
    }
  }

  /** The loop of `import_positions` over the positions. */
  method ImportAll(repo: HoldingRepository, userId: Id, positions: seq<Position>, mode: string)
    returns (created: nat, updated: nat, skipped: nat, errors: seq<string>)
    requires repo.Valid()
    modifies repo
    ensures repo.Valid() && repo.nextId >= old(repo.nextId)
    ensures Grows(old(repo.rows), repo.rows, userId, old(repo.nextId))
    ensures created + updated + skipped + |errors| == |positions|
    ensures mode == AddOnlyMode ==> updated == 0 && errors == []
    ensures forall j :: 0 <= j < |positions| ==> HoldingBySymbol(repo.rows, positions[j].symbol, userId).Some?
    ensures (forall s :: HoldingBySymbol(old(repo.rows), s, userId).None?) && DistinctSymbols(positions) ==>
              created == |positions| && updated == 0 && skipped == 0 && errors == []
    ensures mode == AddOnlyMode ==> Extends(old(repo.rows), repo.rows)
    ensures forall j :: 0 <= j < |positions| && WrittenLast(positions, j, mode) ==>
              HoldsPosition(repo.rows, userId, positions[j])
    ensures forall s :: Unnamed(positions, |positions|, s) ==>
              HoldingBySymbol(repo.rows, s, userId) == HoldingBySymbol(old(repo.rows), s, userId)
  {
    ghost var start, startId := repo.rows, repo.nextId;
    ghost var unheld := forall s :: HoldingBySymbol(start, s, userId).None?;
    created, updated, skipped, errors := 0, 0, 0, [];
    GrowsRefl(start, userId, startId);
    ProgressStart(start, userId, positions, mode);
    for i := 0 to |positions|
      invariant repo.Valid() && repo.nextId >= startId
      invariant Grows(start, repo.rows, userId, startId)
      invariant created + updated + skipped + |errors| == i
      invariant mode == AddOnlyMode ==> updated == 0 && errors == []
      invariant ImportProgress(start, repo.rows, userId, positions, i, mode)
      invariant UnnamedKept(start, repo.rows, userId, positions, i)
      invariant unheld && DistinctSymbols(positions) ==>
                  created == i && updated == 0 && skipped == 0 && errors == []
                  && forall j :: i <= j < |positions| ==> HoldingBySymbol(repo.rows, positions[j].symbol, userId).None?
    {
      ghost var before, beforeId := repo.rows, repo.nextId;
      var step := ImportOne(repo, userId, positions[i], mode);
      GrowsTrans(start, before, repo.rows, userId, startId, beforeId);
      ProgressStep(start, before, repo.rows, userId, beforeId, positions, i, mode);
      UnnamedStep(start, before, repo.rows, userId, positions, i);
      if unheld && DistinctSymbols(positions) {
        FreshStep(before, repo.rows, userId, positions, i, beforeId);
      }
      match step
      case Created => created := created + 1;
      case Changed => updated := updated + 1;
      case Skipped => skipped := skipped + 1;
      case Failed(m) => errors := errors + [m];
    }
  }

  /** The symbols imported so far stay held. */
  lemma HeldStep(before: seq<Holding>, after: seq<Holding>, userId: Id, nextId: nat, positions: seq<Position>, i: nat)
    requires Grows(before, after, userId, nextId) && i < |positions|
    requires forall j :: 0 <= j < i ==> HoldingBySymbol(before, positions[j].symbol, userId).Some?
    requires HoldingBySymbol(after, positions[i].symbol, userId).Some?
    ensures forall j :: 0 <= j < i + 1 ==> HoldingBySymbol(after, positions[j].symbol, userId).Some?
  {
    GrowsFacts(before, after, userId, nextId);
  }

  /** The positions written so far keep their values while a position of
      another symbol is imported. */
  lemma WrittenStep(before: seq<Holding>, after: seq<Holding>, userId: Id, positions: seq<Position>, i: nat,
                    mode: string)
    requires i < |positions|
    requires forall j :: 0 <= j < i && WrittenLast(positions, j, mode) ==> HoldsPosition(before, userId, positions[j])
    requires OthersKept(before, after, userId, positions[i].symbol)
    requires WrittenLast(positions, i, mode) ==> HoldsPosition(after, userId, positions[i])
    ensures forall j :: 0 <= j < i + 1 && WrittenLast(positions, j, mode) ==> HoldsPosition(after, userId, positions[j])
  {
    forall j | 0 <= j < i && WrittenLast(positions, j, mode) ensures HoldsPosition(after, userId, positions[j]) {
      assert Upper(positions[i].symbol) != Upper(positions[j].symbol);
    }
  }

  /** After the first `i` positions: each of their symbols is held, the
      positions written last hold their values, and in "add_only" the
      table only grew at its end. */
  ghost predicate ImportProgress(start: seq<Holding>, rows: seq<Holding>, userId: Id, positions: seq<Position>,
                                 i: nat, mode: string)
    requires i <= |positions|
  {
    (forall j :: 0 <= j < i ==> HoldingBySymbol(rows, positions[j].symbol, userId).Some?)
    && (forall j :: 0 <= j < i && WrittenLast(positions, j, mode) ==> HoldsPosition(rows, userId, positions[j]))
    && (mode == AddOnlyMode ==> Extends(start, rows))
  }

  /** Before any position is imported there is nothing to state. */
  lemma ProgressStart(start: seq<Holding>, userId: Id, positions: seq<Position>, mode: string)
    ensures ImportProgress(start, start, userId, positions, 0, mode)
  {
    assert start[..|start|] == start;
  }

  /** Importing position `i` as `ImportOne` promises extends the progress
      by one position. */
  lemma ProgressStep(start: seq<Holding>, before: seq<Holding>, after: seq<Holding>, userId: Id, nextId: nat,
                     positions: seq<Position>, i: nat, mode: string)
    requires i < |positions| && ImportProgress(start, before, userId, positions, i, mode)
    requires Grows(before, after, userId, nextId)
    requires HoldingBySymbol(after, positions[i].symbol, userId).Some?
    requires OthersKept(before, after, userId, positions[i].symbol)
    requires mode == AddOnlyMode ==> Extends(before, after)
    requires WrittenLast(positions, i, mode) ==> HoldsPosition(after, userId, positions[i])
    ensures ImportProgress(start, after, userId, positions, i + 1, mode)
  {
    HeldStep(before, after, userId, nextId, positions, i);
    WrittenStep(before, after, userId, positions, i, mode);
    if mode == AddOnlyMode {
      ExtendsTrans(start, before, after);
    }
  }

  /** With distinct symbols, a symbol not yet held is created, and the
      symbols still to come stay unheld. */
  lemma FreshStep(before: seq<Holding>, after: seq<Holding>, userId: Id, positions: seq<Position>, i: nat, nextId: nat)
    requires DistinctSymbols(positions) && i < |positions|
    requires forall j :: i <= j < |positions| ==> HoldingBySymbol(before, positions[j].symbol, userId).None?
    requires after == before + [Holding(nextId, userId, Upper(positions[i].symbol), positions[i].shares,
                                        positions[i].costBasisPerShare, None)]
    ensures forall j :: i + 1 <= j < |positions| ==> HoldingBySymbol(after, positions[j].symbol, userId).None?
  {
    var h := after[|before|];
    AppendKeys(before, h, userId);
    forall j | i + 1 <= j < |positions| ensures HoldingBySymbol(after, positions[j].symbol, userId).None? {
      assert Upper(positions[j].symbol) != h.symbol;
      assert HoldingBySymbol(before, positions[j].symbol, userId).None?;
    }
  }

  /** `import_positions(db, user_id, positions, mode)`: every position is
      counted once, as created, updated, skipped or failed; every position's
      symbol is held afterwards; other users' holdings are untouched;
      outside "replace" none of the user's holdings disappear, and with
      "replace" all of them are new; "add_only" only appends; and the
      last position of each symbol, when the mode updates and its values
      are accepted, leaves its shares and cost on the holding. */
  method ImportPositions(repo: HoldingRepository, userId: Id, positions: seq<Position>, mode: string)
    returns (result: ImportResult)
    requires repo.Valid()
    modifies repo
    ensures repo.Valid()
    ensures result.positions == positions
    ensures result.created + result.updated + result.skipped + |result.errors| == |positions|
    ensures mode == AddOnlyMode ==> result.updated == 0 && result.errors == []
    ensures forall j :: 0 <= j < |positions| ==> HoldingBySymbol(repo.rows, positions[j].symbol, userId).Some?
    ensures forall h: Holding :: h.userId != userId ==> (h in repo.rows <==> h in old(repo.rows))
    ensures mode != ReplaceMode ==>
              (forall id :: FindHolding(old(repo.rows), id).Some? ==> FindHolding(repo.rows, id).Some?)
              && forall symbol :: HoldingBySymbol(old(repo.rows), symbol, userId).Some? ==>
                                    HoldingBySymbol(repo.rows, symbol, userId).Some?
    ensures mode == ReplaceMode ==> forall x :: x in repo.rows && x.userId == userId ==> x.id >= old(repo.nextId)
    ensures mode == ReplaceMode && DistinctSymbols(positions) ==>
              result.created == |positions| && result.updated == 0 && result.skipped == 0 && result.errors == []
    ensures mode == AddOnlyMode ==> Extends(old(repo.rows), repo.rows)
    ensures forall j :: 0 <= j < |positions| && WrittenLast(positions, j, mode) ==>
              HoldsPosition(repo.rows, userId, positions[j])
    ensures mode != ReplaceMode ==>
              forall s :: Unnamed(positions, |positions|, s) ==>
                HoldingBySymbol(repo.rows, s, userId) == HoldingBySymbol(old(repo.rows), s, userId)
  {
    if mode == ReplaceMode {
      DeleteUserHoldings(repo, userId);
      assert forall s :: HoldingBySymbol(repo.rows, s, userId).None?;
      assert forall i :: 0 <= i < |repo.rows| ==> repo.rows[i].userId != userId by {
        assert forall i :: 0 <= i < |repo.rows| ==> repo.rows[i] in repo.rows;
      }
    }
    ghost var start, startId := repo.rows, repo.nextId;
    var created, updated, skipped, errors := ImportAll(repo, userId, positions, mode);
    GrowsFacts(start, repo.rows, userId, startId);
    result := ImportResult(created, updated, skipped, errors, positions);
  }

  /** `import_schwab_csv(db, user_id, csv_content, mode)`: a parse with
      errors imports nothing and reports them with zero counts; otherwise
      the parsed positions are imported. */
  method ImportSchwabCsv(repo: HoldingRepository, userId: Id, content: string, reader: seq<string> -> CsvTable,
                         mode: string) returns (result: ImportResult)
    requires repo.Valid()
    modifies repo
    ensures repo.Valid()
    ensures var parsed := ParseSchwab(content, reader);
      parsed.errors != [] ==>
        result == ImportResult(0, 0, 0, parsed.errors, []) && repo.rows == old(repo.rows) && repo.nextId == old(repo.nextId)
    ensures var parsed := ParseSchwab(content, reader);
      parsed.errors == [] ==>
        result.positions == parsed.positions
        && result.created + result.updated + result.skipped + |result.errors| == |parsed.positions|
        && (forall j :: 0 <= j < |parsed.positions| ==> HoldingBySymbol(repo.rows, parsed.positions[j].symbol, userId).Some?)
        && (forall h: Holding :: h.userId != userId ==> (h in repo.rows <==> h in old(repo.rows)))
        && (mode != ReplaceMode ==>
              (forall id :: FindHolding(old(repo.rows), id).Some? ==> FindHolding(repo.rows, id).Some?)
              && forall symbol :: HoldingBySymbol(old(repo.rows), symbol, userId).Some? ==>
                                    HoldingBySymbol(repo.rows, symbol, userId).Some?)
        && (mode == ReplaceMode ==> forall x :: x in repo.rows && x.userId == userId ==> x.id >= old(repo.nextId))
        && (mode == AddOnlyMode ==> Extends(old(repo.rows), repo.rows))
        && (forall j :: 0 <= j < |parsed.positions| && WrittenLast(parsed.positions, j, mode) ==>
              HoldsPosition(repo.rows, userId, parsed.positions[j]))
        && (mode != ReplaceMode ==>
              forall s :: Unnamed(parsed.positions, |parsed.positions|, s) ==>
                HoldingBySymbol(repo.rows, s, userId) == HoldingBySymbol(old(repo.rows), s, userId))
  {
    var positions, parseErrors := ParseSchwabCsv(content, reader);
    if parseErrors != [] {
      return ImportResult(0, 0, 0, parseErrors, []);
    }
    result := ImportPositions(repo, userId, positions, mode);
  }
}
