/**
 What the bars of an intake say of the cells they were read from, and what each outcome of the intake
 says of the bars.
 */
module CryptoRows {
  import opened Wrappers
  import opened Gates
  import opened Seqs
  import opened Sorting
  import opened Text
  import opened CryptoBars
  import opened CryptoBarsIntake
  import Csv = CsvText

  // ---------------------------------------------------------------- cells

  /** The accepted spellings of each column, in lower case. */
  function Spellings(column: Column): set<string> {
    match column
    case TimestampCol => {"timestamp", "datetime", "date", "t"}
    case SymbolCol => {"symbol", "s"}
    case AssetClassCol => {"asset_class"}
    case OpenCol => {"open", "o"}
    case HighCol => {"high", "h"}
    case LowCol => {"low", "l"}
    case CloseCol => {"close", "c"}
    case VolumeCol => {"volume", "v"}
  }

  /** A key names a column exactly when, trimmed and in lower case, it is one of the column's spellings. */
  lemma ColumnMeans(key: string, column: Column)
    ensures ColumnOf(key) == Some(column) <==> Lower(Strip(key)) in Spellings(column)
  {
  }

  /** The row's text for a column: that of its first cell under the column, trimmed; empty without one. */
  ghost predicate Holds(row: seq<Cell>, column: Column, text: string) {
    || (text == "" && forall i :: 0 <= i < |row| ==> row[i].column != Some(column))
    || exists k :: 0 <= k < |row| && row[k].column == Some(column) && text == Strip(row[k].text)
                   && forall i :: 0 <= i < k ==> row[i].column != Some(column)
  }

  lemma {:induction false} NoCell(row: seq<Cell>, column: Column)
    requires forall i :: 0 <= i < |row| ==> row[i].column != Some(column)
    ensures FirstText(row, column) == ""
  {
    if row != [] {
      NoCell(row[1..], column);
    }
  }

  lemma {:induction false} FirstCell(row: seq<Cell>, column: Column)
    ensures Holds(row, column, FirstText(row, column))
  {
    if row != [] && row[0].column != Some(column) {
      FirstCell(row[1..], column);
      if k :| 0 <= k < |row| - 1 && row[1..][k].column == Some(column)
              && forall i :: 0 <= i < k ==> row[1..][i].column != Some(column) {
        assert row[k + 1].column == Some(column);
        assert forall i :: 1 <= i < k + 1 ==> row[i] == row[1..][i - 1];
      } else {
        assert forall i :: 1 <= i < |row| ==> row[i] == row[1..][i - 1];
      }
    }
  }

  lemma FirstTextMeans(row: seq<Cell>, column: Column, text: string)
    ensures FirstText(row, column) == text <==> Holds(row, column, text)
  {
    FirstCell(row, column);
    if Holds(row, column, text) {
      if k :| 0 <= k < |row| && row[k].column == Some(column) && text == Strip(row[k].text)
              && forall i :: 0 <= i < k ==> row[i].column != Some(column) {
        FirstTextAt(row, column, k);
      } else {
        NoCell(row, column);
      }
    }
  }

  // ---------------------------------------------------------------- symbols

  predicate IsSeparator(c: char) {
    c == '/' || c == '-' || c == '_' || c == ' '
  }

  /** What is left of a symbol: its characters in upper case, trimmed, without the four separators. */
  function Compacted(text: string): string {
    Filter(Upper(Strip(text)), (c: char) => !IsSeparator(c))
  }

  lemma {:induction false} WithoutMeans(s: string, drop: char, keep: char -> bool)
    ensures Without(Filter(s, keep), drop) == Filter(s, (c: char) => keep(c) && c != drop)
  {
    if s != "" {
      var n := |s| - 1;
      WithoutMeans(s[..n], drop, keep);
      var front := Filter(s[..n], keep);
      ReplaceAppend(front, [s[n]], drop, "");
      assert [s[n]][1..] == "" && Replace("", drop, "") == "";
      assert Filter(s, keep) == if keep(s[n]) then front + [s[n]] else front;
    }
  }

  lemma NormalizeMeans(text: string)
    ensures NormalizeSymbol(text) == if Compacted(text) == "" then None else Some(Compacted(text))
  {
    var s := Upper(Strip(text));
    var all := (c: char) => true;
    var noSlash := (c: char) => all(c) && c != '/';
    var noHyphen := (c: char) => noSlash(c) && c != '-';
    var noLine := (c: char) => noHyphen(c) && c != '_';
    var noSpace := (c: char) => noLine(c) && c != ' ';
    FilterAll(s, all);
    WithoutMeans(s, '/', all);
    WithoutMeans(s, '-', noSlash);
    WithoutMeans(s, '_', noHyphen);
    WithoutMeans(s, ' ', noLine);
    FilterAgrees(s, noSpace, (c: char) => !IsSeparator(c));
  }

  // ---------------------------------------------------------------- one row

  /** Every cell of the bar is read from its own column. */
  ghost predicate RowSays(row: seq<Cell>, bar: Bar, codec: Codec) {
    && bar.symbol == "BTCUSD" && codec.readStamp(FirstText(row, TimestampCol)) == At(bar.timestamp)
    && codec.readAmount(FirstText(row, OpenCol)) == Some(bar.open)
    && codec.readAmount(FirstText(row, HighCol)) == Some(bar.high)
    && codec.readAmount(FirstText(row, LowCol)) == Some(bar.low)
    && codec.readAmount(FirstText(row, CloseCol)) == Some(bar.close)
    && if FirstText(row, VolumeCol) == "" then bar.volume == Amount(0.0, "0")
       else codec.readAmount(FirstText(row, VolumeCol)) == Some(bar.volume)
  }

  ghost function PriceFault(row: seq<Cell>, column: Column, codec: Codec): Option<RowError> {
    var text := FirstText(row, column);
    Require(text != "", MissingField(column),
    Require(exists a :: codec.readAmount(text) == Some(a) && a.value > 0.0, InvalidValues, None))
  }

  ghost function StampFault(row: seq<Cell>, codec: Codec): Option<RowError> {
    var text := FirstText(row, TimestampCol);
    Require(text != "", MissingField(TimestampCol),
    Require(!codec.readStamp(text).NotIso?, TimestampIso,
    Require(!codec.readStamp(text).Naive?, TimestampTimezone, None)))
  }

  /** Low and high enclose open and close. */
  predicate Encloses(open: Option<Amount>, high: Option<Amount>, low: Option<Amount>, close: Option<Amount>) {
    open.Some? && high.Some? && low.Some? && close.Some? ==>
      && low.value.value <= open.value.value <= high.value.value
      && low.value.value <= close.value.value <= high.value.value
  }

  ghost function VolumeFault(row: seq<Cell>, codec: Codec): Option<RowError> {
    var text := FirstText(row, VolumeCol);
    Require(text == "" || exists a :: codec.readAmount(text) == Some(a) && a.value >= 0.0, InvalidValues, None)
  }

  ghost function PricesFault(row: seq<Cell>, codec: Codec): Option<RowError> {
    Then(PriceFault(row, OpenCol, codec),
         Then(PriceFault(row, HighCol, codec), Then(PriceFault(row, LowCol, codec), PriceFault(row, CloseCol, codec))))
  }

  ghost predicate PricesEnclose(row: seq<Cell>, codec: Codec) {
    Encloses(codec.readAmount(FirstText(row, OpenCol)), codec.readAmount(FirstText(row, HighCol)),
             codec.readAmount(FirstText(row, LowCol)), codec.readAmount(FirstText(row, CloseCol)))
  }

  /** The first fault of a row; None when it is a bar. A row without a symbol is taken to be BTCUSD. */
  ghost function RowFault(row: seq<Cell>, codec: Codec): Option<RowError> {
    var symbol, assetClass := FirstText(row, SymbolCol), FirstText(row, AssetClassCol);
    Require(symbol == "" || Compacted(symbol) != "", BadSymbol,
    Require(symbol == "" || Compacted(symbol) == "BTCUSD", SymbolMustBe,
    Require(assetClass == "" || Lower(assetClass) == "crypto", AssetClassMustBe,
            Then(PricesFault(row, codec),
                 Then(VolumeFault(row, codec),
                      Require(PricesEnclose(row, codec), InvalidOhlc, StampFault(row, codec)))))))
  }

  lemma SymbolFits(row: seq<Cell>)
    ensures var text := FirstText(row, SymbolCol);
            RowSymbol(row) == if text == "" || Compacted(text) == "BTCUSD" then Ok("BTCUSD")
                              else if Compacted(text) == "" then Err(BadSymbol) else Err(SymbolMustBe)
  {
    NormalizeMeans(FirstText(row, SymbolCol));
  }

  /** What an amount of a row is when it is one, and what is wrong with it when it is none. */
  predicate Reads<T, U(==)>(result: Result<T, RowError>, fault: Option<RowError>, cell: U, value: T -> U) {
    match result
    case Err(error) => fault == Some(error)
    case Ok(a) => fault == None && cell == value(a)
  }

  lemma PriceMeans(row: seq<Cell>, column: Column, codec: Codec)
    ensures Reads(RequiredAmount(row, column, codec), PriceFault(row, column, codec),
                  codec.readAmount(FirstText(row, column)), a => Some(a))
  {
  }

  lemma VolumeMeans(row: seq<Cell>, codec: Codec)
    ensures Reads(VolumeAmount(row, codec), VolumeFault(row, codec),
                  if FirstText(row, VolumeCol) == "" then Some(Amount(0.0, "0"))
                  else codec.readAmount(FirstText(row, VolumeCol)), a => Some(a))
  {
  }

  lemma StampMeans(row: seq<Cell>, codec: Codec)
    ensures Reads(RowTimestamp(row, codec), StampFault(row, codec), codec.readStamp(FirstText(row, TimestampCol)),
                  t => At(t))
  {
  }

  lemma EnclosesMeans(open: Amount, high: Amount, low: Amount, close: Amount)
    ensures OhlcFits(open, high, low, close) <==> Encloses(Some(open), Some(high), Some(low), Some(close))
  {
  }

  /** A row is read as a bar exactly when nothing is wrong with it, and then the bar says what the row says. */
  lemma BarMeans(row: seq<Cell>, codec: Codec)
    ensures match BarOf(row, codec)
            case Err(error) => RowFault(row, codec) == Some(error)
            case Ok(bar) => RowFault(row, codec) == None && RowSays(row, bar, codec)
  {
    SymbolFits(row);
    PriceMeans(row, OpenCol, codec);
    PriceMeans(row, HighCol, codec);
    PriceMeans(row, LowCol, codec);
    PriceMeans(row, CloseCol, codec);
    VolumeMeans(row, codec);
    StampMeans(row, codec);
    var open, high := RequiredAmount(row, OpenCol, codec), RequiredAmount(row, HighCol, codec);
    var low, close := RequiredAmount(row, LowCol, codec), RequiredAmount(row, CloseCol, codec);
    if open.Ok? && high.Ok? && low.Ok? && close.Ok? {
      EnclosesMeans(open.value, high.value, low.value, close.value);
    }
  }

  /** What a row says determines the bar. */
  lemma BarIff(row: seq<Cell>, bar: Bar, codec: Codec)
    ensures BarOf(row, codec) == Ok(bar) <==> RowFault(row, codec) == None && RowSays(row, bar, codec)
  {
    BarMeans(row, codec);
  }

  // ---------------------------------------------------------------- a CSV text

  ghost function RecordFault(header: seq<string>, record: seq<string>, codec: Codec): Option<Blocker> {
    if |record| > |header| then Some(MalformedRow)
    else
      match RowFault(CellsOf(header, record), codec)
      case None => None
      case Some(error) => Some(RowRejected(error))
  }

  ghost predicate RecordSays(header: seq<string>, record: seq<string>, bar: Bar, codec: Codec) {
    RecordFault(header, record, codec) == None && RowSays(CellsOf(header, record), bar, codec)
  }

  lemma RecordMeans(header: seq<string>, record: seq<string>, codec: Codec)
    ensures match RowResult(header, record, codec)
            case Err(blocker) => RecordFault(header, record, codec) == Some(blocker)
            case Ok(bar) => RecordSays(header, record, bar, codec)
  {
    BarMeans(CellsOf(header, record), codec);
  }

  lemma {:induction false} BarsAreRead(data: seq<seq<string>>, read: RowReader)
    requires BlockersIn(data, read) == []
    ensures var bars := BarsIn(data, read);
            |bars| == |data| && forall i :: 0 <= i < |data| ==> read(data[i]) == Ok(bars[i])
  {
    if data != [] {
      BarsAreRead(data[..|data| - 1], read);
    }
  }

  lemma {:induction false} BlockersAreRead(data: seq<seq<string>>, read: RowReader, b: Blocker)
    ensures b in BlockersIn(data, read) <==> exists i :: 0 <= i < |data| && read(data[i]) == Err(b)
  {
    if data != [] {
      var n := |data| - 1;
      BlockersAreRead(data[..n], read, b);
      if i :| 0 <= i < n && read(data[..n][i]) == Err(b) {
        assert read(data[i]) == Err(b);
      }
      if i :| 0 <= i < n && read(data[i]) == Err(b) {
        assert read(data[..n][i]) == Err(b);
      }
    }
  }

  lemma BarsMean(header: seq<string>, data: seq<seq<string>>, codec: Codec)
    requires BlockersIn(data, Reader(header, codec)) == []
    ensures var bars := BarsIn(data, Reader(header, codec));
            |bars| == |data| && forall i :: 0 <= i < |data| ==> RecordSays(header, data[i], bars[i], codec)
  {
    BarsAreRead(data, Reader(header, codec));
    forall i | 0 <= i < |data|
      ensures RecordSays(header, data[i], BarsIn(data, Reader(header, codec))[i], codec)
    {
      RecordMeans(header, data[i], codec);
    }
  }

  lemma BlockersMean(header: seq<string>, data: seq<seq<string>>, codec: Codec, b: Blocker)
    ensures b in BlockersIn(data, Reader(header, codec)) <==>
              exists i :: 0 <= i < |data| && RecordFault(header, data[i], codec) == Some(b)
  {
    BlockersAreRead(data, Reader(header, codec), b);
    forall i | 0 <= i < |data|
      ensures Reader(header, codec)(data[i]) == Err(b) <==> RecordFault(header, data[i], codec) == Some(b)
    {
      RecordMeans(header, data[i], codec);
    }
  }

  lemma {:induction false} DedupeMeans(s: seq<Blocker>)
    ensures NoDup(Dedupe(s)) && forall b :: b in Dedupe(s) <==> b in s
  {
    if s != [] {
      DedupeMeans(s[..|s| - 1]);
      assert s == s[..|s| - 1] + [s[|s| - 1]];
    }
  }

  /** The records under their header are these bars, one for one. */
  ghost predicate RecordsSay(records: seq<seq<string>>, bars: seq<Bar>, codec: Codec) {
    && records != [] && records[0] != [] && NoDup(records[0])
    && var data := DataRows(records[1..]);
       |bars| == |data| && forall i :: 0 <= i < |data| ==> RecordSays(records[0], data[i], bars[i], codec)
  }

  /** What parsing a CSV answers: the bars its records say, or what is wrong with it. Every record at fault
      is named, once for each kind of fault. */
  lemma ParseMeans(records: seq<seq<string>>, codec: Codec)
    ensures ParseRecords(records, codec).Ok? ==> RecordsSay(records, ParseRecords(records, codec).value, codec)
    ensures ParseRecords(records, codec).Err? ==>
              var blockers := ParseRecords(records, codec).error;
              if records == [] || records[0] == [] then blockers == [MalformedCsv]
              else if !NoDup(records[0]) then blockers == [DuplicateColumns]
              else
                var data := DataRows(records[1..]);
                && blockers != [] && NoDup(blockers)
                && forall b :: b in blockers <==>
                     exists i :: 0 <= i < |data| && RecordFault(records[0], data[i], codec) == Some(b)
  {
    if records != [] && records[0] != [] {
      NoDupCardinality(records[0]);
      var data, read := DataRows(records[1..]), Reader(records[0], codec);
      if BlockersIn(data, read) == [] {
        BarsMean(records[0], data, codec);
      } else {
        DedupeMeans(BlockersIn(data, read));
        assert BlockersIn(data, read)[0] in Dedupe(BlockersIn(data, read));
        forall b
          ensures b in BlockersIn(data, read) <==>
                    exists i :: 0 <= i < |data| && RecordFault(records[0], data[i], codec) == Some(b)
        {
          BlockersMean(records[0], data, codec, b);
        }
      }
    }
  }

  /** Bars are determined by the records that say them, so a CSV parses to no others. */
  lemma ParseIff(records: seq<seq<string>>, bars: seq<Bar>, codec: Codec)
    ensures ParseRecords(records, codec) == Ok(bars) <==> RecordsSay(records, bars, codec)
  {
    ParseMeans(records, codec);
    if RecordsSay(records, bars, codec) {
      var data := DataRows(records[1..]);
      forall i | 0 <= i < |data|
        ensures RecordFault(records[0], data[i], codec) == None
        ensures RowResult(records[0], data[i], codec) == Ok(bars[i])
      {
        assert RecordSays(records[0], data[i], bars[i], codec);
        BarIff(CellsOf(records[0], data[i]), bars[i], codec);
      }
      AllRowsRead(data, bars, Reader(records[0], codec));
      NoDupCardinality(records[0]);
    }
  }

  // ---------------------------------------------------------------- JSON, and either

  ghost predicate ItemsSay(rows: seq<seq<Cell>>, bars: seq<Bar>, codec: Codec) {
    && |bars| == |rows|
    && forall i :: 0 <= i < |rows| ==> RowFault(rows[i], codec) == None && RowSays(rows[i], bars[i], codec)
  }

  lemma {:induction false} ItemsAreRead(rows: seq<seq<Cell>>, read: ItemReader)
    requires BarsOfItems(rows, read).Ok?
    ensures var bars := BarsOfItems(rows, read).value;
            |bars| == |rows| && forall i :: 0 <= i < |rows| ==> read(rows[i]) == Ok(bars[i])
  {
    if rows != [] {
      ItemsAreRead(rows[..|rows| - 1], read);
    }
  }

  lemma {:induction false} ItemFails(rows: seq<seq<Cell>>, read: ItemReader) returns (k: nat)
    requires BarsOfItems(rows, read).Err?
    ensures k < |rows| && read(rows[k]).Err?
    ensures BarsOfItems(rows, read) == Err([RowRejected(read(rows[k]).error)])
    ensures forall i :: 0 <= i < k ==> read(rows[i]).Ok?
  {
    var n := |rows| - 1;
    if BarsOfItems(rows[..n], read).Err? {
      k := ItemFails(rows[..n], read);
    } else {
      ItemsAreRead(rows[..n], read);
      k := n;
    }
  }

  ghost predicate FirstAtFault(rows: seq<seq<Cell>>, codec: Codec, error: RowError) {
    exists k :: 0 <= k < |rows| && RowFault(rows[k], codec) == Some(error)
                && forall i :: 0 <= i < k ==> RowFault(rows[i], codec) == None
  }

  /** JSON items are bars one for one, or the first fault among them is reported alone. */
  lemma ItemsMean(rows: seq<seq<Cell>>, codec: Codec)
    ensures ItemBars(rows, codec).Ok? ==> ItemsSay(rows, ItemBars(rows, codec).value, codec)
    ensures ItemBars(rows, codec).Err? ==>
              var blockers := ItemBars(rows, codec).error;
              |blockers| == 1 && blockers[0].RowRejected? && FirstAtFault(rows, codec, blockers[0].error)
  {
    forall i | 0 <= i < |rows|
      ensures BarOf(rows[i], codec).Err? ==> RowFault(rows[i], codec) == Some(BarOf(rows[i], codec).error)
      ensures BarOf(rows[i], codec).Ok? ==>
                RowFault(rows[i], codec) == None && RowSays(rows[i], BarOf(rows[i], codec).value, codec)
    {
      BarMeans(rows[i], codec);
    }
    var read: ItemReader := row => BarOf(row, codec);
    if BarsOfItems(rows, read).Ok? {
      ItemsAreRead(rows, read);
    } else {
      var k := ItemFails(rows, read);
    }
  }

  lemma ItemsIff(rows: seq<seq<Cell>>, bars: seq<Bar>, codec: Codec)
    ensures ItemBars(rows, codec) == Ok(bars) <==> ItemsSay(rows, bars, codec)
  {
    ItemsMean(rows, codec);
    if ItemsSay(rows, bars, codec) {
      var read := ItemBars(rows, codec).value;
      forall i | 0 <= i < |rows|
        ensures read[i] == bars[i]
      {
        BarIff(rows[i], bars[i], codec);
        BarIff(rows[i], read[i], codec);
      }
      assert read == bars;
    }
  }

  predicate BeginsLikeJson(text: string) {
    "{" <= StripLeft(text) || "[" <= StripLeft(text)
  }

  /** The text, which is not blank, says these bars: as JSON when it begins like JSON, as CSV otherwise. */
  ghost predicate TextSays(text: string, decoded: Decoded, bars: seq<Bar>, codec: Codec) {
    && !Blank(text)
    && if BeginsLikeJson(text)
       then decoded.Items? && ItemsSay(decoded.rows, bars, codec)
       else RecordsSay(Csv.ReadRows(text), bars, codec)
  }

  lemma TextIff(text: string, decoded: Decoded, bars: seq<Bar>, codec: Codec)
    ensures ParseInput(text, decoded, codec) == Ok(bars) <==> TextSays(text, decoded, bars, codec)
  {
    StripLeftBlank(text);
    if decoded.Items? {
      ItemsIff(decoded.rows, bars, codec);
    }
    ParseIff(Csv.ReadRows(text), bars, codec);
  }

  // ---------------------------------------------------------------- outcomes

  /** Not a whole second older than the maximum. */
  predicate Recent(bar: Bar, config: Config) {
    config.observedAt - bar.timestamp < (config.maxAge / 1_000_000 + 1) * 1_000_000
  }

  /** The latest bar decides for all. */
  lemma LatestDecides(bars: seq<Bar>, config: Config)
    requires bars != [] && DistinctTimes(bars)
    ensures Ordered(bars) != [] && Ordered(bars)[|Ordered(bars)| - 1] in bars
    ensures forall bar :: bar in bars ==> bar.timestamp <= Ordered(bars)[|Ordered(bars)| - 1].timestamp
  {
    OrderedIsSort(bars);
    OrderedAscends(bars);
    SameMultisetSameMembers(Ordered(bars), bars);
    forall bar | bar in bars
      ensures bar.timestamp <= Ordered(bars)[|Ordered(bars)| - 1].timestamp
    {
      assert bar in Ordered(bars);
    }
  }

  lemma JudgedOutcome(ordered: seq<Bar>, config: Config)
    requires ordered != [] && StrictlyIncreasing(ordered) && config.maxAge >= 0
    ensures var last := ordered[|ordered| - 1];
            Judge(ordered, config) ==
            if last.timestamp > config.observedAt then Stale(FutureDated, |ordered|)
            else if !Recent(last, config) then Stale(TooOld, |ordered|)
            else if |ordered| < config.requiredBars then Insufficient(|ordered|) else Accepted(ordered, |ordered|)
  {
    var last := ordered[|ordered| - 1];
    CurrentMeans(last.timestamp, config.observedAt, config.maxAge);
    if last.timestamp <= config.observedAt {
      AllUsable(ordered, config.observedAt);
    }
  }

  /** Every outcome for bars as they are parsed, by the bars themselves, in whatever order they come. */
  lemma OutcomeMeans(bars: seq<Bar>, config: Config)
    requires config.maxAge >= 0 && forall i :: 0 <= i < |bars| ==> bars[i].symbol == SYMBOL
    ensures var outcome := Classify(bars, config);
            if bars == [] then outcome == Invalid([ZeroBars])
            else if !DistinctTimes(bars) then outcome == Invalid([DuplicateTimestamps, NotAscending])
            else if exists bar :: bar in bars && bar.timestamp > config.observedAt then
              outcome == Stale(FutureDated, |bars|)
            else if forall bar :: bar in bars ==> !Recent(bar, config) then outcome == Stale(TooOld, |bars|)
            else if |bars| < config.requiredBars then outcome == Insufficient(|bars|)
            else
              && outcome.Accepted? && outcome.usable == |bars|
              && multiset(outcome.rows) == multiset(bars) && StrictlyIncreasing(outcome.rows)
  {
    BlockersOfNamed(bars);
    if bars != [] && DistinctTimes(bars) {
      OrderedIsSort(bars);
      OrderedAscends(bars);
      LatestDecides(bars, config);
      JudgedOutcome(Ordered(bars), config);
    }
  }

  /** Enough rows in strictly ascending order, none of them after the observation and one of them recent. */
  ghost predicate UsableRows(rows: seq<Bar>, config: Config) {
    && StrictlyIncreasing(rows) && |rows| >= config.requiredBars
    && (forall bar :: bar in rows ==> bar.timestamp <= config.observedAt)
    && (exists bar :: bar in rows && Recent(bar, config))
  }

  lemma SaidAreNamed(text: string, decoded: Decoded, bars: seq<Bar>, codec: Codec)
    requires TextSays(text, decoded, bars, codec)
    ensures forall i :: 0 <= i < |bars| ==> bars[i].symbol == SYMBOL
  {
    if !BeginsLikeJson(text) {
      var records := Csv.ReadRows(text);
      forall i | 0 <= i < |bars|
        ensures bars[i].symbol == SYMBOL
      {
        assert RecordSays(records[0], DataRows(records[1..])[i], bars[i], codec);
      }
    }
  }

  lemma AcceptedIff(bars: seq<Bar>, config: Config, rows: seq<Bar>)
    requires config.maxAge >= 0 && config.requiredBars >= 1
    requires forall i :: 0 <= i < |bars| ==> bars[i].symbol == SYMBOL
    ensures Classify(bars, config) == Accepted(rows, |rows|) <==>
              UsableRows(rows, config) && multiset(bars) == multiset(rows)
    ensures Classify(bars, config).Accepted? ==> Classify(bars, config).usable == |Classify(bars, config).rows|
  {
    OutcomeMeans(bars, config);
    if multiset(bars) == multiset(rows) {
      SameMultisetSameMembers(bars, rows);
    }
    if Classify(bars, config).Accepted? {
      SameMultisetSameMembers(bars, Classify(bars, config).rows);
    }
    if multiset(bars) == multiset(rows) && StrictlyIncreasing(rows) {
      SameTimesDistinct(rows, bars);
      AscendingIsOrdered(bars, rows);
      if Classify(bars, config).Accepted? {
        AscendingIsOrdered(bars, Classify(bars, config).rows);
      }
    }
  }

  /** There is one way to put bars at distinct times in ascending order. */
  lemma AscendingIsOrdered(bars: seq<Bar>, rows: seq<Bar>)
    requires multiset(bars) == multiset(rows) && StrictlyIncreasing(rows)
    ensures rows == Ordered(bars)
  {
    BarOrder();
    OrderedIsSort(bars);
    DistinctSeparates(rows);
    SortedUnique(rows, Ordered(bars), BAR_LEQ);
  }

  /** The text parses to the bars it says. */
  lemma SaidIsParsed(input: Input, config: Config, codec: Codec, bars: seq<Bar>)
    requires input.FileText? && TextSays(input.text, input.decoded, bars, codec)
    ensures Intake(input, config, codec) == Classify(bars, config)
    ensures forall i :: 0 <= i < |bars| ==> bars[i].symbol == SYMBOL
  {
    TextIff(input.text, input.decoded, bars, codec);
    SaidAreNamed(input.text, input.decoded, bars, codec);
  }

  lemma AcceptedIsSaid(input: Input, config: Config, codec: Codec) returns (bars: seq<Bar>)
    requires Intake(input, config, codec).Accepted?
    ensures input.FileText? && TextSays(input.text, input.decoded, bars, codec)
  {
    bars := ParseInput(input.text, input.decoded, codec).value;
    TextIff(input.text, input.decoded, bars, codec);
  }

  /** When an intake is accepted, exactly: its text says bars at distinct times, none of them after the
      observation, one of them recent, and enough of them; the rows are these bars in ascending order. */
  lemma IntakeIff(input: Input, config: Config, codec: Codec, rows: seq<Bar>)
    requires config.maxAge >= 0 && config.requiredBars >= 1
    ensures Intake(input, config, codec) == Accepted(rows, |rows|) <==>
              && input.FileText? && UsableRows(rows, config)
              && exists bars :: TextSays(input.text, input.decoded, bars, codec) && multiset(bars) == multiset(rows)
    ensures Intake(input, config, codec).Accepted? ==>
              Intake(input, config, codec).usable == |Intake(input, config, codec).rows|
  {
    if Intake(input, config, codec).Accepted? {
      var bars := AcceptedIsSaid(input, config, codec);
      SaidIsParsed(input, config, codec, bars);
      AcceptedIff(bars, config, rows);
    }
    if input.FileText? && UsableRows(rows, config) {
      forall bars: seq<Bar> | TextSays(input.text, input.decoded, bars, codec) && multiset(bars) == multiset(rows)
        ensures Intake(input, config, codec) == Accepted(rows, |rows|)
      {
        SaidIsParsed(input, config, codec, bars);
        AcceptedIff(bars, config, rows);
      }
    }
  }
}
