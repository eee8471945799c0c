/**
 Crypto bars: reading one from a row of named cells, and classifying a collection of them by
 duplicates, freshness and history.
 */
module CryptoBars {
  import opened Wrappers
  import opened Seqs
  import opened Sorting
  import opened Text
  import opened FixedPoint
  import CsvText

  // ---------------------------------------------------------------- cells

  /** A `Decimal` read from text: its value and its fixed-point spelling. */
  datatype Amount = Amount(value: real, text: string)

  /** An ISO timestamp read from text, in microseconds. */
  datatype Stamp = At(instant: int) | NotIso | Naive

  /** How timestamps and decimals are spelled: `datetime.fromisoformat`, `isoformat`, and `Decimal` with
      `format(value, "f")`. None stands for a text that is no finite decimal. */
  datatype Codec = Codec(
    readStamp: string -> Stamp, stampText: int -> string, readAmount: string -> Option<Amount>)

  const ZERO := Amount(0.0, "0")

  /** Printable as a CSV field as it stands. */
  ghost predicate Printable(s: string) {
    && s != "" && Strip(s) == s
    && forall i :: 0 <= i < |s| ==> s[i] != ',' && s[i] != '"' && !CsvText.IsBreak(s[i])
  }

  /** The amount a decimal makes. */
  function AmountOf(d: Option<Decimal>): Option<Amount> {
    match d
    case None => None
    case Some(d) => Some(Amount(DecimalValue(d), Fixed(d)))
  }

  /** Amounts are read by way of decimals. */
  ghost predicate ReadsThrough(codec: Codec, readDecimal: string -> Option<Decimal>) {
    ReadsPlain(readDecimal) && forall s :: codec.readAmount(s) == AmountOf(readDecimal(s))
  }

  ghost predicate StampsPrintBack(codec: Codec) {
    forall s :: codec.readStamp(s).At? ==>
      var t := codec.readStamp(s).instant;
      Printable(codec.stampText(t)) && codec.readStamp(codec.stampText(t)) == At(t)
  }

  /** Printed timestamps are printable and read back, and a decimal text without an exponent means what
      it spells. */
  ghost predicate Faithful(codec: Codec) {
    StampsPrintBack(codec) && exists readDecimal :: ReadsThrough(codec, readDecimal)
  }

  lemma FixedIsPrintable(d: Decimal)
    ensures Printable(Fixed(d))
  {
    FixedChars(d);
    StripTrims(Fixed(d));
  }

  lemma DecimalReadsBack(codec: Codec, readDecimal: string -> Option<Decimal>, d: Decimal)
    requires ReadsThrough(codec, readDecimal)
    ensures codec.readAmount(Fixed(d)) == AmountOf(Some(d))
  {
    FixedReadsBack(readDecimal, d);
    assert codec.readAmount(Fixed(d)) == AmountOf(readDecimal(Fixed(d)));
  }

  /** Every amount read prints as a text that reads back as the same amount. */
  lemma AmountReadsBack(codec: Codec, text: string)
    requires Faithful(codec) && codec.readAmount(text).Some?
    ensures GoodAmount(codec.readAmount(text).value, codec)
  {
    var readDecimal :| ReadsThrough(codec, readDecimal);
    assert codec.readAmount(text) == AmountOf(readDecimal(text));
    var d := readDecimal(text).value;
    FixedIsPrintable(d);
    DecimalReadsBack(codec, readDecimal, d);
  }

  datatype Column = TimestampCol | SymbolCol | AssetClassCol | OpenCol | HighCol | LowCol | CloseCol | VolumeCol

  /** The column a key names; the accepted spellings of different columns are disjoint. */
  function ColumnOf(key: string): Option<Column> {
    var k := Lower(Strip(key));
    if k == "timestamp" || k == "datetime" || k == "date" || k == "t" then Some(TimestampCol)
    else if k == "symbol" || k == "s" then Some(SymbolCol)
    else if k == "asset_class" then Some(AssetClassCol)
    else if k == "open" || k == "o" then Some(OpenCol)
    else if k == "high" || k == "h" then Some(HighCol)
    else if k == "low" || k == "l" then Some(LowCol)
    else if k == "close" || k == "c" then Some(CloseCol)
    else if k == "volume" || k == "v" then Some(VolumeCol)
    else None
  }

  /** One item of a row mapping, in order; an absent value has empty text. */
  datatype Cell = Cell(column: Option<Column>, text: string)

  /** `_first_text` */
  function FirstText(row: seq<Cell>, column: Column): string {
    if row == [] then ""
    else if row[0].column == Some(column) then Strip(row[0].text)
    else FirstText(row[1..], column)
  }

  lemma {:induction false} FirstTextAt(row: seq<Cell>, column: Column, k: nat)
    requires k < |row| && row[k].column == Some(column)
    requires forall i :: 0 <= i < k ==> row[i].column != Some(column)
    ensures FirstText(row, column) == Strip(row[k].text)
  {
    if k > 0 {
      FirstTextAt(row[1..], column, k - 1);
    }
  }

  // ---------------------------------------------------------------- one bar

  datatype Bar = Bar(timestamp: int, symbol: string, open: Amount, high: Amount, low: Amount, close: Amount,
                     volume: Amount)

  const SYMBOL := "BTCUSD"

  datatype RowError =
    | BadSymbol | SymbolMustBe | AssetClassMustBe | MissingField(column: Column) | InvalidValues | InvalidOhlc
    | TimestampIso | TimestampTimezone

  function Without(s: string, drop: char): string {
    Replace(s, drop, "")
  }

  /** `normalize_crypto_symbol` */
  function NormalizeSymbol(text: string): Option<string> {
    var compact := Without(Without(Without(Without(Upper(Strip(text)), '/'), '-'), '_'), ' ');
    if compact == "" then None else Some(compact)
  }

  function RequiredAmount(row: seq<Cell>, column: Column, codec: Codec): Result<Amount, RowError> {
    var text := FirstText(row, column);
    if text == "" then Err(MissingField(column))
    else
      match codec.readAmount(text)
      case None => Err(InvalidValues)
      case Some(a) => if a.value <= 0.0 then Err(InvalidValues) else Ok(a)
  }

  function VolumeAmount(row: seq<Cell>, codec: Codec): Result<Amount, RowError> {
    var text := FirstText(row, VolumeCol);
    if text == "" then Ok(ZERO)
    else
      match codec.readAmount(text)
      case None => Err(InvalidValues)
      case Some(a) => if a.value < 0.0 then Err(InvalidValues) else Ok(a)
  }

  function RowSymbol(row: seq<Cell>): Result<string, RowError> {
    var text := FirstText(row, SymbolCol);
    if text == "" then Ok(SYMBOL)
    else
      match NormalizeSymbol(text)
      case None => Err(BadSymbol)
      case Some(symbol) => if symbol != SYMBOL then Err(SymbolMustBe) else Ok(symbol)
  }

  predicate AssetClassFits(row: seq<Cell>) {
    var text := FirstText(row, AssetClassCol);
    text == "" || Lower(text) == "crypto"
  }

  function RowTimestamp(row: seq<Cell>, codec: Codec): Result<int, RowError> {
    var text := FirstText(row, TimestampCol);
    if text == "" then Err(MissingField(TimestampCol))
    else
      match codec.readStamp(text)
      case At(instant) => Ok(instant)
      case NotIso => Err(TimestampIso)
      case Naive => Err(TimestampTimezone)
  }

  function Max(a: real, b: real): real {
    if a >= b then a else b
  }

  function Min(a: real, b: real): real {
    if a <= b then a else b
  }

  /** High and low bound open and close. */
  predicate OhlcFits(open: Amount, high: Amount, low: Amount, close: Amount) {
    high.value >= Max(open.value, close.value) && low.value <= Min(open.value, close.value)
  }

  /** `_bar_from_mapping`, with its checks in their order. */
  function BarOf(row: seq<Cell>, codec: Codec): Result<Bar, RowError> {
    var symbol := RowSymbol(row);
    if symbol.Err? then Err(symbol.error)
    else if !AssetClassFits(row) then Err(AssetClassMustBe)
    else
      var open := RequiredAmount(row, OpenCol, codec);
      if open.Err? then Err(open.error)
      else
        var high := RequiredAmount(row, HighCol, codec);
        if high.Err? then Err(high.error)
        else
          var low := RequiredAmount(row, LowCol, codec);
          if low.Err? then Err(low.error)
          else
            var close := RequiredAmount(row, CloseCol, codec);
            if close.Err? then Err(close.error)
            else
              var volume := VolumeAmount(row, codec);
              if volume.Err? then Err(volume.error)
              else if !OhlcFits(open.value, high.value, low.value, close.value) then Err(InvalidOhlc)
              else
                var timestamp := RowTimestamp(row, codec);
                if timestamp.Err? then Err(timestamp.error)
                else Ok(Bar(timestamp.value, symbol.value, open.value, high.value, low.value, close.value,
                            volume.value))
  }

  ghost predicate GoodAmount(a: Amount, codec: Codec) {
    Printable(a.text) && codec.readAmount(a.text) == Some(a)
  }

  /** What holds of every bar that was read. */
  ghost predicate GoodBar(bar: Bar, codec: Codec) {
    bar.symbol == SYMBOL && GoodValues(bar, codec)
  }

  ghost predicate GoodValues(bar: Bar, codec: Codec) {
    && Printable(codec.stampText(bar.timestamp)) && codec.readStamp(codec.stampText(bar.timestamp)) == At(bar.timestamp)
    && GoodAmount(bar.open, codec) && GoodAmount(bar.high, codec) && GoodAmount(bar.low, codec)
    && GoodAmount(bar.close, codec) && GoodAmount(bar.volume, codec)
    && bar.open.value > 0.0 && bar.high.value > 0.0 && bar.low.value > 0.0 && bar.close.value > 0.0
    && bar.volume.value >= 0.0
    && OhlcFits(bar.open, bar.high, bar.low, bar.close)
  }

  lemma ZeroIsGood(codec: Codec)
    requires Faithful(codec)
    ensures GoodAmount(ZERO, codec)
  {
    var readDecimal :| ReadsThrough(codec, readDecimal);
    var zero := Decimal(false, 0, 0);
    assert Scale(0, 0) == 0 && Fixed(zero) == Numeral(0) == "0";
    FixedIsPrintable(zero);
    DecimalReadsBack(codec, readDecimal, zero);
  }

  /** What printing and reading back keeps. */
  ghost predicate PrintsBack(codec: Codec) {
    && StampsPrintBack(codec)
    && (forall text :: codec.readAmount(text).Some? ==> GoodAmount(codec.readAmount(text).value, codec))
    && GoodAmount(ZERO, codec)
  }

  lemma FaithfulPrintsBack(codec: Codec)
    requires Faithful(codec)
    ensures PrintsBack(codec)
  {
    ZeroIsGood(codec);
    forall text | codec.readAmount(text).Some?
      ensures GoodAmount(codec.readAmount(text).value, codec)
    {
      AmountReadsBack(codec, text);
    }
  }

  lemma BarPrintsBack(row: seq<Cell>, codec: Codec)
    requires PrintsBack(codec) && BarOf(row, codec).Ok?
    ensures GoodBar(BarOf(row, codec).value, codec)
  {
  }

  lemma ReadBarsAreGood(row: seq<Cell>, codec: Codec)
    requires Faithful(codec) && BarOf(row, codec).Ok?
    ensures GoodBar(BarOf(row, codec).value, codec)
  {
    FaithfulPrintsBack(codec);
    BarPrintsBack(row, codec);
  }

  /** A row without an open price is never a bar. */
  lemma OpenIsRequired(row: seq<Cell>, codec: Codec)
    requires FirstText(row, OpenCol) == ""
    ensures BarOf(row, codec).Err?
  {
  }

  // ---------------------------------------------------------------- classification

  datatype Config = Config(basis: string, source: string, observedAt: int, requiredBars: int, maxAge: int)

  /** What `CryptoBarsIntakeConfig.__post_init__` leaves behind. */
  ghost predicate ValidConfig(config: Config) {
    && config.basis != "" && Strip(config.basis) == config.basis
    && config.source != "" && Strip(config.source) == config.source
    && config.requiredBars >= 1 && config.maxAge >= 0
  }

  datatype Blocker =
    | InputMissing | MalformedInput | EmptyInput | MalformedJson | MalformedCsv | DuplicateColumns | MalformedRow
    | RowRejected(error: RowError)
    | ZeroBars | SymbolBlocker | DuplicateTimestamps | NotAscending
    | FutureDated | TooOld | InsufficientHistory

  const BAR_LEQ := (a: Bar, b: Bar) => a.timestamp <= b.timestamp

  ghost predicate DistinctTimes(bars: seq<Bar>) {
    forall i, j :: 0 <= i < j < |bars| ==> bars[i].timestamp != bars[j].timestamp
  }

  ghost predicate StrictlyIncreasing(bars: seq<Bar>) {
    forall i, j :: 0 <= i < j < |bars| ==> bars[i].timestamp < bars[j].timestamp
  }

  function Ordered(bars: seq<Bar>): seq<Bar> {
    Sort(bars, BAR_LEQ)
  }

  lemma BarOrder()
    ensures TotalPreorder(BAR_LEQ)
  {
  }

  lemma DistinctSeparates(bars: seq<Bar>)
    requires DistinctTimes(bars)
    ensures Separates(bars, BAR_LEQ)
  {
  }

  lemma OrderedIsSort(bars: seq<Bar>)
    ensures SortedBy(Ordered(bars), BAR_LEQ) && multiset(Ordered(bars)) == multiset(bars) && |Ordered(bars)| == |bars|
  {
    BarOrder();
    SortSorts(bars, BAR_LEQ);
    SortPermutes(bars, BAR_LEQ);
  }


  lemma {:induction false} OrderedEnds(bars: seq<Bar>)
    requires bars != []
    ensures Ordered(bars) != []
  {
    OrderedIsSort(bars);
  }

  lemma SameTimesDistinct(a: seq<Bar>, b: seq<Bar>)
    requires multiset(a) == multiset(b) && DistinctTimes(a)
    ensures DistinctTimes(b)
  {
    SameMultisetSameMembers(a, b);
    NoDupIsSingleCount(a);
    NoDupIsSingleCount(b);
    forall i, j | 0 <= i < j < |b|
      ensures b[i].timestamp != b[j].timestamp
    {
      assert b[i] in a && b[j] in a && b[i] != b[j];
      var k :| 0 <= k < |a| && a[k] == b[i];
      var l :| 0 <= l < |a| && a[l] == b[j];
      assert k != l;
    }
  }

  lemma SortedAscends(bars: seq<Bar>)
    requires SortedBy(bars, BAR_LEQ)
    ensures StrictlyIncreasing(bars) <==> DistinctTimes(bars)
    ensures StrictlyIncreasing(bars) <==> forall i :: 0 < i < |bars| ==> bars[i - 1].timestamp < bars[i].timestamp
  {
    forall i, j | 0 <= i < j < |bars|
      ensures BAR_LEQ(bars[i], bars[j])
    {
    }
    if forall i :: 0 < i < |bars| ==> bars[i - 1].timestamp < bars[i].timestamp {
      forall i, j | 0 <= i < j < |bars|
        ensures bars[i].timestamp < bars[j].timestamp
      {
        assert bars[j - 1].timestamp < bars[j].timestamp;
        assert i < j - 1 ==> BAR_LEQ(bars[i], bars[j - 1]);
      }
    }
  }

  // ---------------------------------------------------------------- validation

  /** `_dedupe` */
  function Dedupe(s: seq<Blocker>): seq<Blocker> {
    if s == [] then []
    else
      var front := Dedupe(s[..|s| - 1]);
      if s[|s| - 1] in s[..|s| - 1] then front else front + [s[|s| - 1]]
  }

  function TimesSeen(bars: seq<Bar>): set<int> {
    if bars == [] then {} else TimesSeen(bars[..|bars| - 1]) + {bars[|bars| - 1].timestamp}
  }

  lemma {:induction false} TimesSeenAre(bars: seq<Bar>, t: int)
    ensures t in TimesSeen(bars) <==> exists i :: 0 <= i < |bars| && bars[i].timestamp == t
  {
    if bars != [] {
      var n := |bars| - 1;
      TimesSeenAre(bars[..n], t);
      if t in TimesSeen(bars[..n]) {
        var i :| 0 <= i < n && bars[..n][i].timestamp == t;
        assert bars[i].timestamp == t;
      } else {
        forall i | 0 <= i < n
          ensures bars[i].timestamp != t
        {
          assert bars[..n][i].timestamp != t;
        }
      }
    }
  }

  /** What the first loop of `_validation_blockers` appends, bar by bar. */
  function LoopBlockers(bars: seq<Bar>): seq<Blocker> {
    if bars == [] then []
    else
      var n := |bars| - 1;
      LoopBlockers(bars[..n])
      + (if bars[n].symbol != SYMBOL then [SymbolBlocker] else [])
      + (if bars[n].timestamp in TimesSeen(bars[..n]) then [DuplicateTimestamps] else [])
  }

  predicate Ascends(bars: seq<Bar>) {
    forall i :: 0 < i < |bars| ==> bars[i - 1].timestamp < bars[i].timestamp
  }

  function BlockersOf(bars: seq<Bar>): seq<Blocker> {
    Dedupe(LoopBlockers(bars) + if Ascends(Ordered(bars)) then [] else [NotAscending])
  }

  method CollectBlockers(bars: seq<Bar>) returns (found: seq<Blocker>)
    ensures found == LoopBlockers(bars)
  {
    found := [];
    var seen: set<int> := {};
    for i := 0 to |bars|
      invariant found == LoopBlockers(bars[..i]) && seen == TimesSeen(bars[..i])
    {
      assert bars[..i + 1][..i] == bars[..i];
      if bars[i].symbol != SYMBOL {
        found := found + [SymbolBlocker];
      }
      if bars[i].timestamp in seen {
        found := found + [DuplicateTimestamps];
      }
      seen := seen + {bars[i].timestamp};
    }
    assert bars[..|bars|] == bars;
  }

  method ChecksAscend(ordered: seq<Bar>) returns (ascends: bool)
    ensures ascends == Ascends(ordered)
  {
    var i := 1;
    while i < |ordered|
      invariant 1 <= i
      invariant forall k :: 0 < k < i && k < |ordered| ==> ordered[k - 1].timestamp < ordered[k].timestamp
    {
      if ordered[i].timestamp <= ordered[i - 1].timestamp {
        return false;
      }
      i := i + 1;
    }
    ascends := true;
  }

  /** `_validation_blockers` */
  method ValidationBlockers(bars: seq<Bar>) returns (blockers: seq<Blocker>)
    ensures blockers == BlockersOf(bars)
  {
    var found := CollectBlockers(bars);
    var ascends := ChecksAscend(Ordered(bars));
    blockers := Dedupe(found + if ascends then [] else [NotAscending]);
  }

  lemma DistinctOneMore(bars: seq<Bar>)
    requires bars != []
    ensures var n := |bars| - 1;
            DistinctTimes(bars) <==> DistinctTimes(bars[..n]) && bars[n].timestamp !in TimesSeen(bars[..n])
  {
    var n := |bars| - 1;
    var front := bars[..n];
    TimesSeenAre(front, bars[n].timestamp);
    if DistinctTimes(bars) {
      forall i, j | 0 <= i < j < n
        ensures front[i].timestamp != front[j].timestamp
      {
        assert bars[i].timestamp != bars[j].timestamp;
      }
      forall i | 0 <= i < n
        ensures front[i].timestamp != bars[n].timestamp
      {
        assert bars[i].timestamp != bars[n].timestamp;
      }
    } else {
      var i, j :| 0 <= i < j < |bars| && bars[i].timestamp == bars[j].timestamp;
      assert front[i].timestamp == bars[i].timestamp;
      assert j < n ==> front[j].timestamp == bars[j].timestamp;
    }
  }

  lemma {:induction false} LoopBlockersOfNamed(bars: seq<Bar>)
    requires forall i :: 0 <= i < |bars| ==> bars[i].symbol == SYMBOL
    ensures forall i :: 0 <= i < |LoopBlockers(bars)| ==> LoopBlockers(bars)[i] == DuplicateTimestamps
    ensures LoopBlockers(bars) == [] <==> DistinctTimes(bars)
  {
    if bars != [] {
      LoopBlockersOfNamed(bars[..|bars| - 1]);
      DistinctOneMore(bars);
    }
  }

  lemma {:induction false} DedupeConstant(s: seq<Blocker>, b: Blocker)
    requires s != [] && forall i :: 0 <= i < |s| ==> s[i] == b
    ensures Dedupe(s) == [b]
  {
    var n := |s| - 1;
    if n > 0 {
      assert s[..n][0] == b;
      DedupeConstant(s[..n], b);
    }
  }

  lemma DedupeAddsNew(s: seq<Blocker>, b: Blocker)
    requires b !in s
    ensures Dedupe(s + [b]) == Dedupe(s) + [b]
  {
    assert (s + [b])[..|s|] == s;
  }

  lemma OrderedDistinct(bars: seq<Bar>)
    ensures Ascends(Ordered(bars)) <==> DistinctTimes(bars)
  {
    OrderedIsSort(bars);
    SortedAscends(Ordered(bars));
    if DistinctTimes(bars) {
      SameTimesDistinct(bars, Ordered(bars));
    }
    if DistinctTimes(Ordered(bars)) {
      SameTimesDistinct(Ordered(bars), bars);
    }
  }

  lemma DedupeOfLoop(found: seq<Blocker>)
    requires forall i :: 0 <= i < |found| ==> found[i] == DuplicateTimestamps
    ensures found != [] ==> Dedupe(found + [NotAscending]) == [DuplicateTimestamps, NotAscending]
    ensures found == [] ==> Dedupe(found + []) == []
  {
    if found != [] {
      DedupeConstant(found, DuplicateTimestamps);
      DedupeAddsNew(found, NotAscending);
    }
  }

  /** For bars as the parser makes them, the adjacency blocker comes exactly with the duplicate one. */
  lemma BlockersOfNamed(bars: seq<Bar>)
    requires forall i :: 0 <= i < |bars| ==> bars[i].symbol == SYMBOL
    ensures BlockersOf(bars) == if DistinctTimes(bars) then [] else [DuplicateTimestamps, NotAscending]
  {
    LoopBlockersOfNamed(bars);
    OrderedDistinct(bars);
    DedupeOfLoop(LoopBlockers(bars));
  }

  // ---------------------------------------------------------------- freshness

  datatype Freshness = FutureDatedBars | StaleBars | CurrentBars

  const SECOND := 1_000_000

  /** `_crypto_freshness`; both operands are non-negative where they are divided. */
  function CryptoFreshness(latest: int, observedAt: int, maxAge: int): Freshness {
    if latest > observedAt then FutureDatedBars
    else if (observedAt - latest) / SECOND > maxAge / SECOND then StaleBars
    else CurrentBars
  }

  /** Whole seconds are compared, so a bar may be up to a second older than the maximum. */
  lemma CurrentMeans(latest: int, observedAt: int, maxAge: int)
    requires maxAge >= 0
    ensures CryptoFreshness(latest, observedAt, maxAge).CurrentBars?
            <==> 0 <= observedAt - latest < (maxAge / SECOND + 1) * SECOND
  {
  }

  // ---------------------------------------------------------------- outcome

  datatype Outcome =
    | Invalid(blockers: seq<Blocker>)
    | Stale(blocker: Blocker, observed: nat)
    | Insufficient(usable: nat)
    | Accepted(rows: seq<Bar>, usable: nat)

  function Usable(bars: seq<Bar>, observedAt: int): seq<Bar> {
    Filter(bars, (b: Bar) => b.timestamp <= observedAt)
  }

  /** Everything after parsing. */
  function Classify(bars: seq<Bar>, config: Config): Outcome {
    if bars == [] then Invalid([ZeroBars])
    else if BlockersOf(bars) != [] then Invalid(BlockersOf(bars))
    else
      OrderedEnds(bars);
      Judge(Ordered(bars), config)
  }

  function Judge(ordered: seq<Bar>, config: Config): Outcome
    requires ordered != []
  {
    var usable := |Usable(ordered, config.observedAt)|;
    match CryptoFreshness(ordered[|ordered| - 1].timestamp, config.observedAt, config.maxAge)
    case FutureDatedBars => Stale(FutureDated, |ordered|)
    case StaleBars => Stale(TooOld, |ordered|)
    case CurrentBars => if usable < config.requiredBars then Insufficient(usable) else Accepted(ordered, usable)
  }

  /** The outcome, canonical rows included, depends only on the multiset of bars. */
  lemma ClassifyForgetsOrder(a: seq<Bar>, b: seq<Bar>, config: Config)
    requires forall i :: 0 <= i < |a| ==> a[i].symbol == SYMBOL
    requires multiset(a) == multiset(b)
    ensures Classify(a, config) == Classify(b, config)
  {
    SameMultisetSameMembers(a, b);
    forall i | 0 <= i < |b|
      ensures b[i].symbol == SYMBOL
    {
      assert b[i] in a;
    }
    BlockersOfNamed(a);
    BlockersOfNamed(b);
    if DistinctTimes(a) {
      SameTimesDistinct(a, b);
      BarOrder();
      DistinctSeparates(a);
      SortOrderIndependent(a, b, BAR_LEQ);
    } else if DistinctTimes(b) {
      SameTimesDistinct(b, a);
    }
  }

  lemma {:induction false} AllUsable(bars: seq<Bar>, observedAt: int)
    requires forall i :: 0 <= i < |bars| ==> bars[i].timestamp <= observedAt
    ensures Usable(bars, observedAt) == bars
  {
    if bars != [] {
      AllUsable(bars[..|bars| - 1], observedAt);
    }
  }

  lemma AcceptedParts(bars: seq<Bar>, config: Config)
    requires forall i :: 0 <= i < |bars| ==> bars[i].symbol == SYMBOL
    requires Classify(bars, config).Accepted?
    ensures Ordered(bars) != [] && DistinctTimes(bars)
    ensures Classify(bars, config) == Judge(Ordered(bars), config)
    ensures Classify(bars, config).rows == Ordered(bars)
  {
    OrderedEnds(bars);
    BlockersOfNamed(bars);
  }

  lemma JudgeMeans(ordered: seq<Bar>, config: Config)
    requires ordered != [] && StrictlyIncreasing(ordered) && config.maxAge >= 0
    requires Judge(ordered, config).Accepted?
    ensures Judge(ordered, config).usable == |ordered| >= config.requiredBars
    ensures 0 <= config.observedAt - ordered[|ordered| - 1].timestamp < (config.maxAge / SECOND + 1) * SECOND
  {
    CurrentMeans(ordered[|ordered| - 1].timestamp, config.observedAt, config.maxAge);
    AllUsable(ordered, config.observedAt);
  }

  lemma OrderedAscends(bars: seq<Bar>)
    requires DistinctTimes(bars)
    ensures StrictlyIncreasing(Ordered(bars)) && multiset(Ordered(bars)) == multiset(bars)
  {
    OrderedIsSort(bars);
    SameTimesDistinct(bars, Ordered(bars));
    SortedAscends(Ordered(bars));
  }

  /** The staging of `build_crypto_bars_intake` after parsing. */
  method ClassifyBars(bars: seq<Bar>, config: Config) returns (outcome: Outcome)
    ensures outcome == Classify(bars, config)
  {
    if bars == [] {
      return Invalid([ZeroBars]);
    }
    var blockers := ValidationBlockers(bars);
    if blockers != [] {
      return Invalid(blockers);
    }
    OrderedEnds(bars);
    outcome := Judge(Ordered(bars), config);
  }

  /** What acceptance means: the same bars in strictly increasing time, enough of them, all of them
      usable, and the latest within the age limit. */
  lemma AcceptedMeans(bars: seq<Bar>, config: Config)
    requires config.maxAge >= 0
    requires forall i :: 0 <= i < |bars| ==> bars[i].symbol == SYMBOL
    requires Classify(bars, config).Accepted?
    ensures var rows := Classify(bars, config).rows;
            && rows != [] && multiset(rows) == multiset(bars) && StrictlyIncreasing(rows)
            && Classify(bars, config).usable == |rows| >= config.requiredBars
            && 0 <= config.observedAt - rows[|rows| - 1].timestamp < (config.maxAge / SECOND + 1) * SECOND
  {
    AcceptedParts(bars, config);
    OrderedAscends(bars);
    JudgeMeans(Ordered(bars), config);
  }

  /** Classifying the accepted rows again accepts them as they are. */
  lemma AcceptedIsFixed(bars: seq<Bar>, config: Config)
    requires forall i :: 0 <= i < |bars| ==> bars[i].symbol == SYMBOL
    requires Classify(bars, config).Accepted?
    ensures Classify(Classify(bars, config).rows, config) == Classify(bars, config)
  {
    AcceptedParts(bars, config);
    OrderedAscends(bars);
    ClassifyForgetsOrder(bars, Ordered(bars), config);
  }
}
