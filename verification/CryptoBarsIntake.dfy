/**
 The crypto bars intake from text to canonical CSV, and what happens when the canonical CSV is taken
 in again.
 */
module CryptoBarsIntake {
  import opened Wrappers
  import opened Seqs
  import opened Text
  import opened FixedPoint
  import opened CryptoBars
  import Csv = CsvText

  // ---------------------------------------------------------------- parsing

  /** What JSON decoding and unpacking makes of a text that looks like JSON. */
  datatype Decoded = NotJson(blocker: Blocker) | Items(rows: seq<seq<Cell>>)

  datatype Input =
    | MissingFile
    | Undecodable
    | FileText(text: string, decoded: Decoded)

  /** A CSV record under its header: one cell a column, absent values empty. */
  function CellsOf(header: seq<string>, row: seq<string>): seq<Cell> {
    seq(|header|, i requires 0 <= i < |header| => Cell(ColumnOf(header[i]), if i < |row| then row[i] else ""))
  }

  function RowResult(header: seq<string>, row: seq<string>, codec: Codec): Result<Bar, Blocker> {
    if |row| > |header| then Err(MalformedRow)
    else
      match BarOf(CellsOf(header, row), codec)
      case Ok(bar) => Ok(bar)
      case Err(error) => Err(RowRejected(error))
  }

  /** The data rows: blank lines are skipped. */
  function DataRows(rows: seq<seq<string>>): seq<seq<string>> {
    Filter(rows, (row: seq<string>) => row != [])
  }

  type RowReader = seq<string> -> Result<Bar, Blocker>

  function Reader(header: seq<string>, codec: Codec): RowReader {
    (row: seq<string>) => RowResult(header, row, codec)
  }

  function BarsIn(rows: seq<seq<string>>, read: RowReader): seq<Bar> {
    if rows == [] then []
    else
      var n := |rows| - 1;
      BarsIn(rows[..n], read) + match read(rows[n]) case Ok(bar) => [bar] case Err(_) => []
  }

  function BlockersIn(rows: seq<seq<string>>, read: RowReader): seq<Blocker> {
    if rows == [] then []
    else
      var n := |rows| - 1;
      BlockersIn(rows[..n], read) + match read(rows[n]) case Ok(_) => [] case Err(blocker) => [blocker]
  }

  /** `_parse_csv_text` on the records the reader makes of the text. */
  function ParseRecords(records: seq<seq<string>>, codec: Codec): Result<seq<Bar>, seq<Blocker>> {
    if records == [] || records[0] == [] then Err([MalformedCsv])
    else if |Elements(records[0])| != |records[0]| then Err([DuplicateColumns])
    else ParseData(DataRows(records[1..]), Reader(records[0], codec))
  }

  function ParseData(data: seq<seq<string>>, read: RowReader): Result<seq<Bar>, seq<Blocker>> {
    if BlockersIn(data, read) != [] then Err(Dedupe(BlockersIn(data, read))) else Ok(BarsIn(data, read))
  }

  method ParseCsvText(text: string, codec: Codec) returns (result: Result<seq<Bar>, seq<Blocker>>)
    ensures result == ParseRecords(Csv.ReadRows(text), codec)
  {
    var records := Csv.ReadRows(text);
    if records == [] || records[0] == [] {
      return Err([MalformedCsv]);
    }
    if |Elements(records[0])| != |records[0]| {
      return Err([DuplicateColumns]);
    }
    result := ReadDataRows(DataRows(records[1..]), Reader(records[0], codec));
  }

  method ReadDataRows(data: seq<seq<string>>, read: RowReader) returns (result: Result<seq<Bar>, seq<Blocker>>)
    ensures result == ParseData(data, read)
  {
    var bars: seq<Bar>, blockers: seq<Blocker> := [], [];
    for i := 0 to |data|
      invariant bars == BarsIn(data[..i], read) && blockers == BlockersIn(data[..i], read)
    {
      assert data[..i + 1][..i] == data[..i];
      match read(data[i]) {
        case Ok(bar) => bars := bars + [bar];
        case Err(blocker) => blockers := blockers + [blocker];
      }
    }
    assert data[..|data|] == data;
    result := if blockers != [] then Err(Dedupe(blockers)) else Ok(bars);
  }

  type ItemReader = seq<Cell> -> Result<Bar, RowError>

  /** JSON items are read in order, up to the first that fails. */
  function BarsOfItems(rows: seq<seq<Cell>>, read: ItemReader): Result<seq<Bar>, seq<Blocker>> {
    if rows == [] then Ok([])
    else
      match BarsOfItems(rows[..|rows| - 1], read)
      case Err(blockers) => Err(blockers)
      case Ok(front) =>
        match read(rows[|rows| - 1])
        case Err(error) => Err([RowRejected(error)])
        case Ok(bar) => Ok(front + [bar])
  }

  function ItemBars(rows: seq<seq<Cell>>, codec: Codec): Result<seq<Bar>, seq<Blocker>> {
    BarsOfItems(rows, row => BarOf(row, codec))
  }

  predicate LooksLikeJson(text: string) {
    var stripped := StripLeft(text);
    stripped != "" && (stripped[0] == '{' || stripped[0] == '[')
  }

  function ParseInput(text: string, decoded: Decoded, codec: Codec): Result<seq<Bar>, seq<Blocker>> {
    if StripLeft(text) == "" then Err([EmptyInput])
    else if LooksLikeJson(text) then
      match decoded
      case NotJson(blocker) => Err([blocker])
      case Items(rows) => ItemBars(rows, codec)
    else ParseRecords(Csv.ReadRows(text), codec)
  }

  method ParseInputText(text: string, decoded: Decoded, codec: Codec) returns (result: Result<seq<Bar>, seq<Blocker>>)
    ensures result == ParseInput(text, decoded, codec)
  {
    if StripLeft(text) == "" {
      return Err([EmptyInput]);
    }
    if LooksLikeJson(text) {
      return match decoded case NotJson(blocker) => Err([blocker]) case Items(rows) => ItemBars(rows, codec);
    }
    result := ParseCsvText(text, codec);
  }

  /** The whole intake up to its outcome. */
  function Intake(input: Input, config: Config, codec: Codec): Outcome {
    match input
    case MissingFile => Invalid([InputMissing])
    case Undecodable => Invalid([MalformedInput])
    case FileText(text, decoded) =>
      match ParseInput(text, decoded, codec)
      case Err(blockers) => Invalid(blockers)
      case Ok(bars) => Classify(bars, config)
  }

  // ---------------------------------------------------------------- parsed bars are good

  ghost predicate AllGood(bars: seq<Bar>, codec: Codec) {
    forall i :: 0 <= i < |bars| ==> GoodBar(bars[i], codec)
  }

  lemma {:induction false} BarsInAreGood(rows: seq<seq<string>>, read: RowReader, codec: Codec)
    requires forall row :: read(row).Ok? ==> GoodBar(read(row).value, codec)
    ensures AllGood(BarsIn(rows, read), codec)
  {
    if rows != [] {
      BarsInAreGood(rows[..|rows| - 1], read, codec);
    }
  }

  lemma RowResultIsGood(header: seq<string>, row: seq<string>, codec: Codec)
    requires Faithful(codec)
    ensures RowResult(header, row, codec).Ok? ==> GoodBar(RowResult(header, row, codec).value, codec)
  {
    if BarOf(CellsOf(header, row), codec).Ok? {
      ReadBarsAreGood(CellsOf(header, row), codec);
    }
  }

  lemma {:induction false} ItemsAreGood(rows: seq<seq<Cell>>, read: ItemReader, codec: Codec)
    requires forall row :: read(row).Ok? ==> GoodBar(read(row).value, codec)
    ensures BarsOfItems(rows, read).Ok? ==> AllGood(BarsOfItems(rows, read).value, codec)
  {
    if rows != [] {
      ItemsAreGood(rows[..|rows| - 1], read, codec);
    }
  }

  lemma ItemBarsAreGood(rows: seq<seq<Cell>>, codec: Codec)
    requires Faithful(codec)
    ensures ItemBars(rows, codec).Ok? ==> AllGood(ItemBars(rows, codec).value, codec)
  {
    var read: ItemReader := row => BarOf(row, codec);
    forall row | read(row).Ok?
      ensures GoodBar(read(row).value, codec)
    {
      ReadBarsAreGood(row, codec);
    }
    ItemsAreGood(rows, read, codec);
  }

  lemma ParsedBarsAreGood(text: string, decoded: Decoded, codec: Codec)
    requires Faithful(codec) && ParseInput(text, decoded, codec).Ok?
    ensures AllGood(ParseInput(text, decoded, codec).value, codec)
  {
    if LooksLikeJson(text) {
      ItemBarsAreGood(decoded.rows, codec);
    } else {
      var records := Csv.ReadRows(text);
      var read := Reader(records[0], codec);
      forall row
        ensures read(row).Ok? ==> GoodBar(read(row).value, codec)
      {
        RowResultIsGood(records[0], row, codec);
      }
      BarsInAreGood(DataRows(records[1..]), read, codec);
    }
  }

  /** Two inputs that parse to the same bars in a different order are treated alike, and an accepted
      intake is sorted, fresh and long enough. */
  lemma IntakeForgetsOrder(a: Input, b: Input, config: Config, codec: Codec)
    requires Faithful(codec) && a.FileText? && b.FileText?
    requires ParseInput(a.text, a.decoded, codec).Ok? && ParseInput(b.text, b.decoded, codec).Ok?
    requires multiset(ParseInput(a.text, a.decoded, codec).value)
               == multiset(ParseInput(b.text, b.decoded, codec).value)
    ensures Intake(a, config, codec) == Intake(b, config, codec)
  {
    ParsedBarsAreGood(a.text, a.decoded, codec);
    ClassifyForgetsOrder(ParseInput(a.text, a.decoded, codec).value, ParseInput(b.text, b.decoded, codec).value,
                         config);
  }

  // ---------------------------------------------------------------- the canonical CSV

  const HEADER := ["timestamp", "symbol", "asset_class", "open", "high", "low", "close", "volume", "basis", "source"]

  /** The fields of a canonical row before its basis and source. */
  function BarFields(bar: Bar, codec: Codec): seq<string> {
    [codec.stampText(bar.timestamp), bar.symbol, CRYPTO,
     bar.open.text, bar.high.text, bar.low.text, bar.close.text, bar.volume.text]
  }

  function CanonicalRow(bar: Bar, config: Config, codec: Codec): seq<string> {
    BarFields(bar, codec) + [config.basis, config.source]
  }

  function CanonicalRows(bars: seq<Bar>, config: Config, codec: Codec): seq<seq<string>> {
    seq(|bars|, i requires 0 <= i < |bars| => CanonicalRow(bars[i], config, codec))
  }

  function CanonicalText(bars: seq<Bar>, config: Config, codec: Codec, d: Csv.Dialect): string {
    Csv.WriteRows([HEADER] + CanonicalRows(bars, config, codec), d)
  }

  lemma {:induction false} WriteRowsAppend(rows: seq<seq<string>>, row: seq<string>, d: Csv.Dialect)
    ensures Csv.WriteRows(rows + [row], d) == Csv.WriteRows(rows, d) + Csv.WriteRow(row, d)
  {
    if rows == [] {
      assert [row][1..] == [];
      assert rows + [row] == [row];
    } else {
      WriteRowsAppend(rows[1..], row, d);
      assert (rows + [row])[1..] == rows[1..] + [row];
      Csv.Regroup(Csv.WriteRow(rows[0], d), Csv.WriteRows(rows[1..], d), Csv.WriteRow(row, d));
    }
  }

  /** `_write_canonical_csv` */
  method WriteCanonicalCsv(bars: seq<Bar>, config: Config, codec: Codec, d: Csv.Dialect) returns (text: string)
    ensures text == CanonicalText(bars, config, codec, d)
  {
    var rows := CanonicalRows(bars, config, codec);
    text := Csv.WriteRow(HEADER, d);
    OneRow(HEADER, d);
    for i := 0 to |bars|
      invariant text == Csv.WriteRows([HEADER] + rows[..i], d)
    {
      WriteRowsAppend([HEADER] + rows[..i], rows[i], d);
      assert [HEADER] + rows[..i] + [rows[i]] == [HEADER] + rows[..i + 1];
      text := text + Csv.WriteRow(CanonicalRow(bars[i], config, codec), d);
    }
    assert rows[..|bars|] == rows;
  }

  lemma OneRow(row: seq<string>, d: Csv.Dialect)
    ensures Csv.WriteRows([row] + [], d) == Csv.WriteRow(row, d)
  {
    assert [row] + [] == [row] && [row][1..] == [];
  }

  /** One intake: its outcome, and the canonical text it writes when it accepts. */
  method BuildIntake(input: Input, config: Config, codec: Codec, d: Csv.Dialect)
    returns (outcome: Outcome, canonical: Option<string>)
    ensures outcome == Intake(input, config, codec)
    ensures canonical == if outcome.Accepted? then Some(CanonicalText(outcome.rows, config, codec, d)) else None
  {
    canonical := None;
    match input {
      case MissingFile =>
        outcome := Invalid([InputMissing]);
      case Undecodable =>
        outcome := Invalid([MalformedInput]);
      case FileText(text, decoded) =>
        var parsed := ParseInputText(text, decoded, codec);
        match parsed {
          case Err(blockers) =>
            outcome := Invalid(blockers);
          case Ok(bars) =>
            outcome := ClassifyBars(bars, config);
            if outcome.Accepted? {
              var written := WriteCanonicalCsv(outcome.rows, config, codec, d);
              canonical := Some(written);
            }
        }
    }
  }

  // ---------------------------------------------------------------- printable fields

  lemma PrintableReturns(f: string, d: Csv.Dialect)
    requires Printable(f)
    ensures f != "" && Csv.BreakSafe(f, d) && Csv.Returned(f, d) == f && Csv.WriteField(f, d) == f
  {
    assert !Csv.NeedsQuotes(f, d) by {
      forall i | 0 <= i < |f|
        ensures !Csv.ForcesQuotes(f[i], d)
      {
        assert !Csv.IsBreak(f[i]);
      }
    }
  }

  /** Lower-case ASCII letters and underscores. */
  predicate PlainName(name: string) {
    name != "" && forall i :: 0 <= i < |name| ==> 'a' <= name[i] <= 'z' || name[i] == '_'
  }

  lemma PlainNamePrints(name: string)
    requires PlainName(name)
    ensures Printable(name) && Lower(Strip(name)) == name
  {
    assert Trimmed(name);
    StripTrims(name);
    assert Lower(name) == name;
  }

  lemma HeaderNames()
    ensures |HEADER| == 10 && forall i :: 0 <= i < 10 ==> PlainName(HEADER[i])
  {
  }

  lemma HeaderIsDistinct()
    ensures NoDup(HEADER)
  {
    assert HEADER[0][0] == 't' && HEADER[1][..2] == "sy" && HEADER[2][0] == 'a' && HEADER[3][0] == 'o'
        && HEADER[4][0] == 'h';
    assert HEADER[5][0] == 'l' && HEADER[6][0] == 'c' && HEADER[7][0] == 'v' && HEADER[8][0] == 'b'
        && HEADER[9][..2] == "so";
  }

  function ColumnAt(i: nat): Option<Column>
    requires i < 10
  {
    if i == 0 then Some(TimestampCol) else if i == 1 then Some(SymbolCol) else if i == 2 then Some(AssetClassCol)
    else if i == 3 then Some(OpenCol) else if i == 4 then Some(HighCol) else if i == 5 then Some(LowCol)
    else if i == 6 then Some(CloseCol) else if i == 7 then Some(VolumeCol) else None
  }

  lemma HeaderColumns(i: nat)
    requires i < 10
    ensures ColumnOf(HEADER[i]) == ColumnAt(i)
  {
    HeaderNames();
    PlainNamePrints(HEADER[i]);
  }

  lemma CellColumns(row: seq<string>)
    ensures |CellsOf(HEADER, row)| == 10
    ensures forall i :: 0 <= i < 10 ==> CellsOf(HEADER, row)[i].column == ColumnAt(i)
  {
    forall i | 0 <= i < 10
      ensures CellsOf(HEADER, row)[i].column == ColumnAt(i)
    {
      HeaderColumns(i);
    }
  }

  lemma HeaderReturns(d: Csv.Dialect)
    ensures Csv.ReturnedRow(HEADER, d) == HEADER && Csv.AllSafe([HEADER], d)
  {
    Csv.ReturnedRowAt(HEADER, d);
    HeaderNames();
    forall i | 0 <= i < 10
      ensures Csv.Returned(HEADER[i], d) == HEADER[i] && HEADER[i] != "" && Csv.BreakSafe(HEADER[i], d)
    {
      PlainNamePrints(HEADER[i]);
      PrintableReturns(HEADER[i], d);
    }
  }

  // ---------------------------------------------------------------- a canonical row is its bar

  predicate UpperName(name: string) {
    name != "" && forall i :: 0 <= i < |name| ==> 'A' <= name[i] <= 'Z'
  }

  lemma UpperNamePrints(name: string)
    requires UpperName(name)
    ensures Printable(name)
  {
    assert Trimmed(name);
    StripTrims(name);
  }

  lemma UpperNameKeeps(name: string)
    requires UpperName(name)
    ensures Upper(name) == name && '/' !in name && '-' !in name && '_' !in name && ' ' !in name
  {
  }

  lemma NothingToDrop(name: string)
    requires '/' !in name && '-' !in name && '_' !in name && ' ' !in name
    ensures Without(Without(Without(Without(name, '/'), '-'), '_'), ' ') == name
  {
    ReplaceAbsent(name, '/', "");
    ReplaceAbsent(name, '-', "");
    ReplaceAbsent(name, '_', "");
    ReplaceAbsent(name, ' ', "");
  }

  lemma UpperNameNormal(name: string)
    requires UpperName(name)
    ensures NormalizeSymbol(name) == Some(name)
  {
    UpperNamePrints(name);
    UpperNameKeeps(name);
    NothingToDrop(name);
  }

  lemma SymbolReads(row: seq<Cell>)
    requires FirstText(row, SymbolCol) == SYMBOL
    ensures RowSymbol(row) == Ok(SYMBOL)
  {
    assert UpperName(SYMBOL);
    UpperNameNormal(SYMBOL);
  }

  lemma SymbolPrints()
    ensures Printable(SYMBOL)
  {
    assert UpperName(SYMBOL);
    UpperNamePrints(SYMBOL);
  }

  const CRYPTO := "crypto"

  lemma AssetClassPrints()
    ensures Printable(CRYPTO) && Lower(CRYPTO) == CRYPTO
  {
    assert PlainName(CRYPTO);
    PlainNamePrints(CRYPTO);
  }

  lemma AssetClassReads(row: seq<Cell>)
    requires FirstText(row, AssetClassCol) == CRYPTO
    ensures AssetClassFits(row)
  {
    AssetClassPrints();
  }

  lemma EightPrint(a: string, b: string, c: string, d: string, e: string, f: string, g: string, h: string)
    requires Printable(a) && Printable(b) && Printable(c) && Printable(d)
    requires Printable(e) && Printable(f) && Printable(g) && Printable(h)
    ensures forall i :: 0 <= i < 8 ==> Printable([a, b, c, d, e, f, g, h][i])
  {
  }

  lemma FieldsPrint(bar: Bar, codec: Codec)
    requires GoodBar(bar, codec)
    ensures |BarFields(bar, codec)| == 8
    ensures forall i :: 0 <= i < 8 ==> Printable(BarFields(bar, codec)[i])
  {
    SymbolPrints();
    AssetClassPrints();
    EightPrint(codec.stampText(bar.timestamp), bar.symbol, CRYPTO, bar.open.text, bar.high.text, bar.low.text,
               bar.close.text, bar.volume.text);
  }

  /** A row whose first eight fields print gives each of them back in its column. */
  lemma FieldText(fields: seq<string>, rest: seq<string>, column: Column, k: nat)
    requires k < |fields| && k < 8 && Printable(fields[k]) && ColumnAt(k) == Some(column)
    ensures FirstText(CellsOf(HEADER, fields + rest), column) == fields[k]
  {
    var cells := CellsOf(HEADER, fields + rest);
    CellColumns(fields + rest);
    assert cells[k].text == fields[k];
    FirstTextAt(cells, column, k);
  }

  /** The text a row of cells has in every price column of a bar. */
  ghost predicate SpellsValues(row: seq<Cell>, bar: Bar, codec: Codec) {
    && FirstText(row, TimestampCol) == codec.stampText(bar.timestamp)
    && FirstText(row, OpenCol) == bar.open.text && FirstText(row, HighCol) == bar.high.text
    && FirstText(row, LowCol) == bar.low.text && FirstText(row, CloseCol) == bar.close.text
    && FirstText(row, VolumeCol) == bar.volume.text
  }

  lemma SpelledBarReads(row: seq<Cell>, bar: Bar, codec: Codec)
    requires GoodValues(bar, codec) && SpellsValues(row, bar, codec)
    requires RowSymbol(row) == Ok(bar.symbol) && AssetClassFits(row)
    ensures BarOf(row, codec) == Ok(bar)
  {
    assert RequiredAmount(row, OpenCol, codec) == Ok(bar.open);
    assert RequiredAmount(row, HighCol, codec) == Ok(bar.high);
    assert RequiredAmount(row, LowCol, codec) == Ok(bar.low);
    assert RequiredAmount(row, CloseCol, codec) == Ok(bar.close);
    assert VolumeAmount(row, codec) == Ok(bar.volume);
    assert RowTimestamp(row, codec) == Ok(bar.timestamp);
  }

  lemma CellsRead(cells: seq<Cell>, bar: Bar, codec: Codec)
    requires GoodBar(bar, codec) && SpellsValues(cells, bar, codec)
    requires FirstText(cells, SymbolCol) == bar.symbol && FirstText(cells, AssetClassCol) == CRYPTO
    ensures BarOf(cells, codec) == Ok(bar)
  {
    SymbolReads(cells);
    AssetClassReads(cells);
    SpelledBarReads(cells, bar, codec);
  }

  lemma RowNames(bar: Bar, rest: seq<string>, codec: Codec)
    requires |BarFields(bar, codec)| == 8 && forall i :: 0 <= i < 8 ==> Printable(BarFields(bar, codec)[i])
    ensures var cells := CellsOf(HEADER, BarFields(bar, codec) + rest);
            FirstText(cells, SymbolCol) == bar.symbol && FirstText(cells, AssetClassCol) == CRYPTO
  {
    var fields := BarFields(bar, codec);
    FieldText(fields, rest, SymbolCol, 1);
    FieldText(fields, rest, AssetClassCol, 2);
  }

  lemma CanonicalRowReads(bar: Bar, rest: seq<string>, codec: Codec)
    requires GoodBar(bar, codec) && |rest| == 2
    ensures RowResult(HEADER, BarFields(bar, codec) + rest, codec) == Ok(bar)
  {
    FieldsPrint(bar, codec);
    RowSpells(bar, rest, codec);
    RowNames(bar, rest, codec);
    CellsRead(CellsOf(HEADER, BarFields(bar, codec) + rest), bar, codec);
    HeaderNames();
  }

  lemma RowSpells(bar: Bar, rest: seq<string>, codec: Codec)
    requires |BarFields(bar, codec)| == 8 && forall i :: 0 <= i < 8 ==> Printable(BarFields(bar, codec)[i])
    ensures SpellsValues(CellsOf(HEADER, BarFields(bar, codec) + rest), bar, codec)
  {
    var fields := BarFields(bar, codec);
    FieldText(fields, rest, TimestampCol, 0);
    FieldText(fields, rest, OpenCol, 3);
    FieldText(fields, rest, HighCol, 4);
    FieldText(fields, rest, LowCol, 5);
    FieldText(fields, rest, CloseCol, 6);
    FieldText(fields, rest, VolumeCol, 7);
  }

  /** What a canonical row is read back as. */
  function RowAgain(bar: Bar, config: Config, codec: Codec, d: Csv.Dialect): seq<string> {
    BarFields(bar, codec) + [Csv.Returned(config.basis, d), Csv.Returned(config.source, d)]
  }

  lemma CanonicalRowReturns(bar: Bar, config: Config, codec: Codec, d: Csv.Dialect)
    requires GoodBar(bar, codec)
    ensures Csv.ReturnedRow(CanonicalRow(bar, config, codec), d) == RowAgain(bar, config, codec, d)
  {
    var row := CanonicalRow(bar, config, codec);
    Csv.ReturnedRowAt(row, d);
    FieldsPrint(bar, codec);
    forall i | 0 <= i < 8
      ensures Csv.Returned(row[i], d) == BarFields(bar, codec)[i]
    {
      PrintableReturns(BarFields(bar, codec)[i], d);
    }
  }

  lemma CanonicalRowSafe(bar: Bar, config: Config, codec: Codec, d: Csv.Dialect)
    requires GoodBar(bar, codec) && config.basis != "" && config.source != ""
    requires Csv.BreakSafe(config.basis, d) && Csv.BreakSafe(config.source, d)
    ensures Csv.AllSafe([CanonicalRow(bar, config, codec)], d)
  {
    var row := CanonicalRow(bar, config, codec);
    FieldsPrint(bar, codec);
    forall i | 0 <= i < 8
      ensures row[i] != "" && Csv.BreakSafe(row[i], d)
    {
      PrintableReturns(BarFields(bar, codec)[i], d);
    }
  }

  // ---------------------------------------------------------------- the canonical text parses

  lemma {:induction false} AllRowsRead(rows: seq<seq<string>>, bars: seq<Bar>, read: RowReader)
    requires |rows| == |bars| && forall i :: 0 <= i < |rows| ==> read(rows[i]) == Ok(bars[i])
    ensures BarsIn(rows, read) == bars && BlockersIn(rows, read) == []
  {
    if rows != [] {
      AllRowsRead(rows[..|rows| - 1], bars[..|bars| - 1], read);
    }
  }

  lemma RowsMakeTable(head: seq<string>, rows: seq<seq<string>>, d: Csv.Dialect)
    requires Csv.AllSafe([head], d) && forall i :: 0 <= i < |rows| ==> Csv.AllSafe([rows[i]], d)
    ensures Csv.AllSafe([head] + rows, d)
  {
    var table := [head] + rows;
    forall i | 0 <= i < |table|
      ensures table[i] != [] && forall j :: 0 <= j < |table[i]| ==> table[i][j] != "" && Csv.BreakSafe(table[i][j], d)
    {
      assert [table[i]][0] == table[i];
      assert i > 0 ==> Csv.AllSafe([rows[i - 1]], d);
    }
  }

  lemma CanonicalTableSafe(bars: seq<Bar>, config: Config, codec: Codec, d: Csv.Dialect)
    requires AllGood(bars, codec) && config.basis != "" && config.source != ""
    requires Csv.BreakSafe(config.basis, d) && Csv.BreakSafe(config.source, d)
    ensures Csv.AllSafe([HEADER] + CanonicalRows(bars, config, codec), d)
  {
    var rows := CanonicalRows(bars, config, codec);
    HeaderReturns(d);
    forall i | 0 <= i < |rows|
      ensures Csv.AllSafe([rows[i]], d)
    {
      CanonicalRowSafe(bars[i], config, codec, d);
    }
    RowsMakeTable(HEADER, rows, d);
  }

  lemma RecordsAgain(bars: seq<Bar>, config: Config, codec: Codec, d: Csv.Dialect)
    requires AllGood(bars, codec) && config.basis != "" && config.source != ""
    requires Csv.BreakSafe(config.basis, d) && Csv.BreakSafe(config.source, d)
    ensures var records := Csv.ReadRows(CanonicalText(bars, config, codec, d));
            && |records| == |bars| + 1 && records[0] == HEADER
            && forall i :: 0 <= i < |bars| ==> records[i + 1] == RowAgain(bars[i], config, codec, d)
  {
    var table := [HEADER] + CanonicalRows(bars, config, codec);
    CanonicalTableSafe(bars, config, codec, d);
    Csv.WrittenReadsBack(table, d);
    Csv.ReturnedRowsAt(table, d);
    HeaderReturns(d);
    forall i | 0 <= i < |bars|
      ensures Csv.ReturnedRow(table[i + 1], d) == RowAgain(bars[i], config, codec, d)
    {
      CanonicalRowReturns(bars[i], config, codec, d);
    }
  }

  lemma CanonicalRecordsParse(records: seq<seq<string>>, bars: seq<Bar>, config: Config, codec: Codec, d: Csv.Dialect)
    requires AllGood(bars, codec) && |records| == |bars| + 1 && records[0] == HEADER
    requires forall i :: 0 <= i < |bars| ==> records[i + 1] == RowAgain(bars[i], config, codec, d)
    ensures ParseRecords(records, codec) == Ok(bars)
  {
    HeaderIsDistinct();
    NoDupCardinality(HEADER);
    var data := records[1..];
    forall i | 0 <= i < |data|
      ensures data[i] != [] && RowResult(HEADER, data[i], codec) == Ok(bars[i])
    {
      assert data[i] == records[i + 1];
      CanonicalRowReads(bars[i], [Csv.Returned(config.basis, d), Csv.Returned(config.source, d)], codec);
    }
    FilterAll(data, (row: seq<string>) => row != []);
    AllRowsRead(data, bars, Reader(HEADER, codec));
  }

  lemma CanonicalIsNotJson(bars: seq<Bar>, config: Config, codec: Codec, d: Csv.Dialect)
    ensures var text := CanonicalText(bars, config, codec, d);
            StripLeft(text) != "" && !LooksLikeJson(text)
  {
    var text := CanonicalText(bars, config, codec, d);
    HeaderNames();
    PlainNamePrints(HEADER[0]);
    PrintableReturns(HEADER[0], d);
    assert text[0] == HEADER[0][0] == 't';
    assert StripLeft(text) == text;
  }

  lemma CanonicalParses(bars: seq<Bar>, decoded: Decoded, config: Config, codec: Codec, d: Csv.Dialect)
    requires AllGood(bars, codec) && config.basis != "" && config.source != ""
    requires Csv.BreakSafe(config.basis, d) && Csv.BreakSafe(config.source, d)
    ensures ParseInput(CanonicalText(bars, config, codec, d), decoded, codec) == Ok(bars)
  {
    CanonicalIsNotJson(bars, config, codec, d);
    RecordsAgain(bars, config, codec, d);
    CanonicalRecordsParse(Csv.ReadRows(CanonicalText(bars, config, codec, d)), bars, config, codec, d);
  }

  // ---------------------------------------------------------------- and when it does not

  lemma {:induction false} OneBadRowBlocks(rows: seq<seq<string>>, read: RowReader, k: nat)
    requires k < |rows| && read(rows[k]).Err?
    ensures BlockersIn(rows, read) != []
  {
    var n := |rows| - 1;
    if k < n {
      OneBadRowBlocks(rows[..n], read, k);
    }
  }

  lemma ShortRowFails(row: seq<string>, codec: Codec)
    requires |row| <= 2
    ensures RowResult(HEADER, row, codec).Err?
  {
    var cells := CellsOf(HEADER, row);
    CellColumns(row);
    FirstTextAt(cells, OpenCol, 3);
    assert cells[3].text == "";
    OpenIsRequired(cells, codec);
  }

  lemma ShortRecordFails(records: seq<seq<string>>, codec: Codec)
    requires records != [] && records[0] == HEADER && Csv.ShortRow(records, 1)
    ensures ParseRecords(records, codec).Err?
  {
    var i :| 1 <= i < |records| && 1 <= |records[i]| <= 2;
    var keep := (row: seq<string>) => row != [];
    var data := Filter(records[1..], keep);
    assert records[1..][i - 1] == records[i];
    FilterMembers(records[1..], keep, records[i]);
    var k :| 0 <= k < |data| && data[k] == records[i];
    ShortRowFails(data[k], codec);
    OneBadRowBlocks(data, Reader(HEADER, codec), k);
  }

  lemma TrimmedEnds(s: string)
    requires s != "" && Strip(s) == s
    ensures !Csv.IsBreak(s[|s| - 1])
  {
    StripTrims(s);
  }

  lemma BrokenRecords(bars: seq<Bar>, config: Config, codec: Codec, d: Csv.Dialect)
    requires bars != [] && AllGood(bars, codec) && ValidConfig(config)
    requires !Csv.BreakSafe(config.basis, d) || !Csv.BreakSafe(config.source, d)
    ensures var records := Csv.ReadRows(CanonicalText(bars, config, codec, d));
            records != [] && records[0] == HEADER && Csv.ShortRow(records, 1)
  {
    HeaderReturns(d);
    TrimmedEnds(config.basis);
    TrimmedEnds(config.source);
    FieldsPrint(bars[0], codec);
    var fields := BarFields(bars[0], codec);
    forall i | 0 <= i < |fields|
      ensures fields[i] != "" && Csv.BreakSafe(fields[i], d)
    {
      PrintableReturns(fields[i], d);
    }
    var rows := CanonicalRows(bars, config, codec);
    Csv.BrokenTable(HEADER, fields, config.basis, config.source, rows[1..], d);
    assert [HEADER, fields + [config.basis, config.source]] + rows[1..] == [HEADER] + rows;
  }

  lemma CanonicalFails(bars: seq<Bar>, decoded: Decoded, config: Config, codec: Codec, d: Csv.Dialect)
    requires bars != [] && AllGood(bars, codec) && ValidConfig(config)
    requires !Csv.BreakSafe(config.basis, d) || !Csv.BreakSafe(config.source, d)
    ensures ParseInput(CanonicalText(bars, config, codec, d), decoded, codec).Err?
  {
    CanonicalIsNotJson(bars, config, codec, d);
    BrokenRecords(bars, config, codec, d);
    ShortRecordFails(Csv.ReadRows(CanonicalText(bars, config, codec, d)), codec);
  }

  /** A basis the configuration accepts and the fixpoint does not survive, under either dialect. */
  lemma LineSeparatorIsUnsafe(d: Csv.Dialect)
    ensures Strip("v1\U{2028}v2") == "v1\U{2028}v2" && !Csv.BreakSafe("v1\U{2028}v2", d)
  {
    var basis := "v1\U{2028}v2";
    assert Trimmed(basis);
    StripTrims(basis);
    assert Csv.IsBreak(basis[2]);
  }

  /** Taking the canonical CSV in again: it is accepted with the same rows exactly when neither the
      basis nor the source holds a line-break character that the writer leaves unquoted; otherwise
      the intake of its own output is invalid. */
  lemma IntakeFixpoint(input: Input, decoded: Decoded, config: Config, codec: Codec, d: Csv.Dialect)
    requires Faithful(codec) && ValidConfig(config) && Intake(input, config, codec).Accepted?
    ensures var again := Intake(FileText(CanonicalText(Intake(input, config, codec).rows, config, codec, d), decoded),
                                config, codec);
            && (Csv.BreakSafe(config.basis, d) && Csv.BreakSafe(config.source, d)
                <==> again == Intake(input, config, codec))
            && (again != Intake(input, config, codec) ==> again.Invalid?)
  {
    var bars := ParseInput(input.text, input.decoded, codec).value;
    ParsedBarsAreGood(input.text, input.decoded, codec);
    AcceptedRowsAgain(bars, config, codec);
    ReparseRows(Classify(bars, config).rows, decoded, config, codec, d);
  }

  /** What reading the canonical text of good rows gives. */
  lemma ReparseRows(rows: seq<Bar>, decoded: Decoded, config: Config, codec: Codec, d: Csv.Dialect)
    requires rows != [] && AllGood(rows, codec) && ValidConfig(config)
    ensures var parsed := ParseInput(CanonicalText(rows, config, codec, d), decoded, codec);
            if Csv.BreakSafe(config.basis, d) && Csv.BreakSafe(config.source, d) then parsed == Ok(rows)
            else parsed.Err?
  {
    if Csv.BreakSafe(config.basis, d) && Csv.BreakSafe(config.source, d) {
      CanonicalParses(rows, decoded, config, codec, d);
    } else {
      CanonicalFails(rows, decoded, config, codec, d);
    }
  }

  lemma AcceptedRowsAgain(bars: seq<Bar>, config: Config, codec: Codec)
    requires AllGood(bars, codec) && ValidConfig(config) && Classify(bars, config).Accepted?
    ensures var rows := Classify(bars, config).rows;
            rows != [] && AllGood(rows, codec) && Classify(rows, config) == Classify(bars, config)
  {
    AcceptedMeans(bars, config);
    AcceptedIsFixed(bars, config);
    GoodRows(bars, Classify(bars, config).rows, codec);
  }

  lemma GoodRows(bars: seq<Bar>, rows: seq<Bar>, codec: Codec)
    requires AllGood(bars, codec) && multiset(rows) == multiset(bars)
    ensures AllGood(rows, codec)
  {
    forall i | 0 <= i < |rows|
      ensures GoodBar(rows[i], codec)
    {
      assert rows[i] in multiset(rows) && rows[i] in multiset(bars);
      assert rows[i] in bars;
    }
  }

  // ---------------------------------------------------------------- the assumptions can be met

  /** Whole numbers as their own spelling. */
  predicate IsNumeral(s: string) {
    s != "" && (forall i :: 0 <= i < |s| ==> IsDigit(s[i])) && Numeral(NumeralValue(s)) == s
  }

  lemma NumeralPrints(s: string)
    requires IsNumeral(s)
    ensures Printable(s)
  {
    assert Trimmed(s) by {
      assert IsDigit(s[0]) && IsDigit(s[|s| - 1]);
    }
    StripTrims(s);
  }

  lemma NumeralIsNumeral(n: nat)
    ensures IsNumeral(Numeral(n)) && NumeralValue(Numeral(n)) == n
  {
    NumeralRoundTrip(n);
  }

  /** A codec as the results assume it exists, and it reads something. */
  lemma FaithfulIsPossible() returns (codec: Codec)
    ensures Faithful(codec)
    ensures codec.readStamp("7").At? && codec.readAmount("7").Some?
  {
    var readDecimal := PlainReaderExists();
    codec := Codec(s => if IsNumeral(s) then At(NumeralValue(s)) else NotIso,
                   t => if t >= 0 then Numeral(t) else "0", s => AmountOf(readDecimal(s)));
    assert ReadsThrough(codec, readDecimal);
    forall s | codec.readStamp(s).At?
      ensures var t := codec.readStamp(s).instant;
              Printable(codec.stampText(t)) && codec.readStamp(codec.stampText(t)) == At(t)
    {
      NumeralIsNumeral(NumeralValue(s));
      NumeralPrints(s);
    }
    NumeralIsNumeral(7);
    assert Numeral(7) == "7";
    ReadPlainReads(false, "7", "");
    assert Plain(false, "7", "") == "7";
  }
}
