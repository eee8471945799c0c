/**
 Window summaries of the shadow replay: histogram counts over trailing, nested and split windows of
 the replay rows, the threshold-frequency review and the recommendation drawn from them.
 */
module WindowEvidence {
  import opened Wrappers
  import opened Seqs
  import opened RollingIndicators

  const RECENT_ROW_COUNT := 260
  const THREE_YEAR_ROW_COUNT := 756
  const FIVE_YEAR_ROW_COUNT := 1260

  datatype Row = Row(
    date: string,
    sma: SmaPosture,
    rsi: RsiPosture,
    routeReason: string,
    finalMutationEligible: bool,
    shadowBlocked: bool,
    disagreement: bool,
    conflict: bool,
    rsiPaperCandidate: bool)

  datatype FrequencyClass = TooSparse | InBand | TooNoisy

  datatype Bucket = KeepShadow | NeedsThresholdReview | NeedsRegimeReview | NeedsOosBacktest | RejectCandidate

  datatype Summary = Summary(
    rowCount: nat,
    smaCounts: map<SmaPosture, nat>,
    rsiCounts: map<RsiPosture, nat>,
    routeReasonCounts: multiset<string>,
    finalMutationEligibleCount: nat,
    shadowBlockedCount: nat,
    disagreementCount: nat,
    conflictCount: nat,
    conflictDates: seq<string>,
    shadowBlockedDates: seq<string>,
    frequencyClass: FrequencyClass,
    bucket: Bucket)

  datatype SummaryError = EmptyWindow | RsiRowMutationEligible | TooFewBars

  const SMA_POSTURES := {SmaInsufficientHistory, BullishRiskOn, DefensiveRiskOff}
  const RSI_POSTURES := {RsiInsufficientHistory, OversoldBuyCandidate, OverboughtCashCandidate, NeutralNoTrade}

  // ---------------------------------------------------------------- threshold frequency

  function FrequencyReview(rowCount: nat, oversold: nat, overbought: nat): FrequencyClass
    requires rowCount > 0
  {
    var triggers := oversold + overbought;
    var frequency := triggers as real / rowCount as real;
    if triggers == 0 || frequency < 0.01 then TooSparse
    else if frequency > 0.35 then TooNoisy
    else InBand
  }

  function Rank(c: FrequencyClass): nat {
    match c
    case TooSparse => 0
    case InBand => 1
    case TooNoisy => 2
  }

  lemma QuotientThresholds(triggers: real, rows: real)
    requires rows > 0.0
    ensures triggers / rows < 0.01 <==> 100.0 * triggers < rows
    ensures triggers / rows > 0.35 <==> 100.0 * triggers > 35.0 * rows
  {
    var f := triggers / rows;
    assert f * rows == triggers;
    ProductOrder(0.01, f, rows);
    ProductOrder(f, 0.35, rows);
  }

  /** The review, decided by whole-number products. */
  lemma FrequencyByProducts(rowCount: nat, oversold: nat, overbought: nat)
    requires rowCount > 0
    ensures var triggers := oversold + overbought;
            FrequencyReview(rowCount, oversold, overbought) ==
            if 100 * triggers < rowCount then TooSparse
            else if 100 * triggers > 35 * rowCount then TooNoisy
            else InBand
  {
    var triggers := oversold + overbought;
    QuotientThresholds(triggers as real, rowCount as real);
    assert (100 * triggers) as real == 100.0 * triggers as real;
    assert (35 * rowCount) as real == 35.0 * rowCount as real;
  }

  /** The mediant inequality: the class of two blocks together lies between their classes. */
  lemma FrequencyBetween(n1: nat, low1: nat, high1: nat, n2: nat, low2: nat, high2: nat)
    requires n1 > 0 && n2 > 0
    ensures var r1 := Rank(FrequencyReview(n1, low1, high1));
            var r2 := Rank(FrequencyReview(n2, low2, high2));
            var r := Rank(FrequencyReview(n1 + n2, low1 + low2, high1 + high2));
            (if r1 <= r2 then r1 else r2) <= r <= (if r1 <= r2 then r2 else r1)
  {
    FrequencyByProducts(n1, low1, high1);
    FrequencyByProducts(n2, low2, high2);
    FrequencyByProducts(n1 + n2, low1 + low2, high1 + high2);
  }

  function WindowBucket(conflicts: nat, shadowBlocked: nat, frequencyClass: FrequencyClass): Bucket {
    if conflicts > 0 || shadowBlocked > 0 then NeedsOosBacktest
    else if frequencyClass != InBand then NeedsThresholdReview
    else KeepShadow
  }

  // ---------------------------------------------------------------- one window

  function SmaIs(p: SmaPosture): Row -> bool {
    (row: Row) => row.sma == p
  }

  function RsiIs(p: RsiPosture): Row -> bool {
    (row: Row) => row.rsi == p
  }

  const ELIGIBLE := (row: Row) => row.finalMutationEligible
  const BLOCKED := (row: Row) => row.shadowBlocked
  const DISAGREES := (row: Row) => row.disagreement
  const CONFLICTS := (row: Row) => row.conflict
  /** A row the summary must not contain: a promoted RSI candidate that is not blocked. */
  const RSI_MUTABLE := (row: Row) => row.rsiPaperCandidate && !row.shadowBlocked

  function Reasons(rows: seq<Row>): multiset<string> {
    multiset(seq(|rows|, i requires 0 <= i < |rows| => rows[i].routeReason))
  }

  function Dates(rows: seq<Row>): (dates: seq<string>)
    ensures |dates| == |rows|
  {
    seq(|rows|, i requires 0 <= i < |rows| => rows[i].date)
  }

  function FirstFive(dates: seq<string>): seq<string> {
    if |dates| <= 5 then dates else dates[..5]
  }

  function SmaHistogram(rows: seq<Row>): map<SmaPosture, nat> {
    map p | p in SMA_POSTURES :: Count(rows, SmaIs(p))
  }

  function RsiHistogram(rows: seq<Row>): map<RsiPosture, nat> {
    map p | p in RSI_POSTURES :: Count(rows, RsiIs(p))
  }

  function Triggers(rows: seq<Row>): FrequencyClass
    requires rows != []
  {
    FrequencyReview(|rows|, Count(rows, RsiIs(OversoldBuyCandidate)), Count(rows, RsiIs(OverboughtCashCandidate)))
  }

  /** What a window summary means, count by count. */
  ghost predicate Summarizes(s: Summary, rows: seq<Row>)
    requires rows != []
  {
    && s.rowCount == |rows|
    && s.smaCounts == SmaHistogram(rows)
    && s.rsiCounts == RsiHistogram(rows)
    && s.routeReasonCounts == Reasons(rows)
    && s.finalMutationEligibleCount == Count(rows, ELIGIBLE)
    && s.shadowBlockedCount == Count(rows, BLOCKED)
    && s.disagreementCount == Count(rows, DISAGREES)
    && s.conflictCount == Count(rows, CONFLICTS)
    && s.conflictDates == FirstFive(Dates(Filter(rows, CONFLICTS)))
    && s.shadowBlockedDates == FirstFive(Dates(Filter(rows, BLOCKED)))
    && s.frequencyClass == Triggers(rows)
    && s.bucket == WindowBucket(s.conflictCount, s.shadowBlockedCount, s.frequencyClass)
  }

  /** The counters the summary loop keeps. */
  datatype Counters = Counters(
    sma: map<SmaPosture, nat>,
    rsi: map<RsiPosture, nat>,
    reasons: multiset<string>,
    eligible: nat,
    rsiMutable: nat,
    blocked: nat,
    disagreements: nat,
    conflicts: nat,
    conflictDates: seq<string>,
    blockedDates: seq<string>)

  predicate HasAllKeys(c: Counters) {
    c.sma.Keys == SMA_POSTURES && c.rsi.Keys == RSI_POSTURES
  }

  lemma AllPosturesListed(row: Row)
    ensures row.sma in SMA_POSTURES && row.rsi in RSI_POSTURES
  {
    match row.sma {
      case SmaInsufficientHistory =>
      case BullishRiskOn =>
      case DefensiveRiskOff =>
    }
    match row.rsi {
      case RsiInsufficientHistory =>
      case OversoldBuyCandidate =>
      case OverboughtCashCandidate =>
      case NeutralNoTrade =>
    }
  }

  /** One turn of the summary loop. */
  function Advance(c: Counters, row: Row): (after: Counters)
    requires HasAllKeys(c)
    ensures HasAllKeys(after)
  {
    AllPosturesListed(row);
    Counters(
      c.sma[row.sma := c.sma[row.sma] + 1],
      c.rsi[row.rsi := c.rsi[row.rsi] + 1],
      c.reasons + multiset{row.routeReason},
      c.eligible + (if row.finalMutationEligible then 1 else 0),
      c.rsiMutable + (if row.rsiPaperCandidate && !row.shadowBlocked then 1 else 0),
      c.blocked + (if row.shadowBlocked then 1 else 0),
      c.disagreements + (if row.disagreement then 1 else 0),
      c.conflicts + (if row.conflict then 1 else 0),
      if row.conflict && |c.conflictDates| < 5 then c.conflictDates + [row.date] else c.conflictDates,
      if row.shadowBlocked && |c.blockedDates| < 5 then c.blockedDates + [row.date] else c.blockedDates)
  }

  const ZERO_COUNTERS :=
    Counters(map p | p in SMA_POSTURES :: 0, map p | p in RSI_POSTURES :: 0, multiset{}, 0, 0, 0, 0, 0, [], [])

  function CountersOf(rows: seq<Row>): (c: Counters)
    ensures HasAllKeys(c)
  {
    if rows == [] then ZERO_COUNTERS else Advance(CountersOf(rows[..|rows| - 1]), rows[|rows| - 1])
  }

  lemma {:induction false} SmaCountedAt(rows: seq<Row>, p: SmaPosture)
    requires p in SMA_POSTURES
    ensures CountersOf(rows).sma[p] == Count(rows, SmaIs(p))
  {
    if rows != [] {
      SmaCountedAt(rows[..|rows| - 1], p);
    }
  }

  lemma SmaCounted(rows: seq<Row>)
    ensures CountersOf(rows).sma == SmaHistogram(rows)
  {
    forall p | p in SMA_POSTURES
      ensures CountersOf(rows).sma[p] == Count(rows, SmaIs(p))
    {
      SmaCountedAt(rows, p);
    }
  }

  lemma {:induction false} RsiCountedAt(rows: seq<Row>, p: RsiPosture)
    requires p in RSI_POSTURES
    ensures CountersOf(rows).rsi[p] == Count(rows, RsiIs(p))
  {
    if rows != [] {
      RsiCountedAt(rows[..|rows| - 1], p);
    }
  }

  lemma RsiCounted(rows: seq<Row>)
    ensures CountersOf(rows).rsi == RsiHistogram(rows)
  {
    forall p | p in RSI_POSTURES
      ensures CountersOf(rows).rsi[p] == Count(rows, RsiIs(p))
    {
      RsiCountedAt(rows, p);
    }
  }

  lemma {:induction false} ReasonsCounted(rows: seq<Row>)
    ensures CountersOf(rows).reasons == Reasons(rows)
  {
    if rows != [] {
      var n := |rows| - 1;
      ReasonsCounted(rows[..n]);
      assert rows == rows[..n] + [rows[n]];
      ReasonsAppend(rows[..n], [rows[n]]);
      assert Reasons([rows[n]]) == multiset{rows[n].routeReason};
    }
  }

  lemma {:induction false} EligibleCounted(rows: seq<Row>)
    ensures CountersOf(rows).eligible == Count(rows, ELIGIBLE)
    ensures CountersOf(rows).rsiMutable == Count(rows, RSI_MUTABLE)
  {
    if rows != [] {
      EligibleCounted(rows[..|rows| - 1]);
    }
  }

  lemma {:induction false} FlagsCounted(rows: seq<Row>)
    ensures CountersOf(rows).blocked == Count(rows, BLOCKED)
    ensures CountersOf(rows).disagreements == Count(rows, DISAGREES)
    ensures CountersOf(rows).conflicts == Count(rows, CONFLICTS)
  {
    if rows != [] {
      FlagsCounted(rows[..|rows| - 1]);
    }
  }

  lemma FirstFiveAppend(kept: seq<Row>, row: Row)
    ensures FirstFive(Dates(kept + [row])) ==
            if |FirstFive(Dates(kept))| < 5 then FirstFive(Dates(kept)) + [row.date] else FirstFive(Dates(kept))
  {
    assert Dates(kept + [row]) == Dates(kept) + [row.date];
  }

  lemma {:induction false} ConflictDatesKept(rows: seq<Row>)
    ensures CountersOf(rows).conflictDates == FirstFive(Dates(Filter(rows, CONFLICTS)))
  {
    if rows != [] {
      var n := |rows| - 1;
      ConflictDatesKept(rows[..n]);
      FirstFiveAppend(Filter(rows[..n], CONFLICTS), rows[n]);
    }
  }

  lemma {:induction false} BlockedDatesKept(rows: seq<Row>)
    ensures CountersOf(rows).blockedDates == FirstFive(Dates(Filter(rows, BLOCKED)))
  {
    if rows != [] {
      var n := |rows| - 1;
      BlockedDatesKept(rows[..n]);
      FirstFiveAppend(Filter(rows[..n], BLOCKED), rows[n]);
    }
  }

  /** The counting loop over the rows of one window. */
  method CountRows(rows: seq<Row>) returns (c: Counters)
    ensures c == CountersOf(rows)
  {
    c := ZERO_COUNTERS;
    for i := 0 to |rows|
      invariant c == CountersOf(rows[..i])
    {
      assert rows[..i + 1][..i] == rows[..i];
      c := Advance(c, rows[i]);
    }
    assert rows[..|rows|] == rows;
  }

  /** Every counter of the loop is the count, histogram or date list it stands for. */
  lemma CountersMeasureRows(rows: seq<Row>)
    ensures var c := CountersOf(rows);
            && c.sma == SmaHistogram(rows)
            && c.rsi == RsiHistogram(rows)
            && c.reasons == Reasons(rows)
            && c.eligible == Count(rows, ELIGIBLE)
            && c.rsiMutable == Count(rows, RSI_MUTABLE)
            && c.blocked == Count(rows, BLOCKED)
            && c.disagreements == Count(rows, DISAGREES)
            && c.conflicts == Count(rows, CONFLICTS)
            && c.conflictDates == FirstFive(Dates(Filter(rows, CONFLICTS)))
            && c.blockedDates == FirstFive(Dates(Filter(rows, BLOCKED)))
  {
    SmaCounted(rows);
    RsiCounted(rows);
    ReasonsCounted(rows);
    EligibleCounted(rows);
    FlagsCounted(rows);
    ConflictDatesKept(rows);
    BlockedDatesKept(rows);
  }

  /** A window summary, or the reason there is none: no rows, or an RSI row that could be mutated. */
  method BuildWindowSummary(rows: seq<Row>) returns (r: Result<Summary, SummaryError>)
    ensures r == Err(EmptyWindow) <==> rows == []
    ensures r == Err(RsiRowMutationEligible) <==> rows != [] && exists row :: row in rows && RSI_MUTABLE(row)
    ensures r.Ok? <==> rows != [] && forall row :: row in rows ==> !RSI_MUTABLE(row)
    ensures r.Ok? ==> Summarizes(r.value, rows)
  {
    if rows == [] {
      return Err(EmptyWindow);
    }
    var c := CountRows(rows);
    CountersMeasureRows(rows);
    CountBounds(rows, RSI_MUTABLE);
    if c.rsiMutable != 0 {
      return Err(RsiRowMutationEligible);
    }
    var frequencyClass := FrequencyReview(|rows|, c.rsi[OversoldBuyCandidate], c.rsi[OverboughtCashCandidate]);
    r := Ok(Summary(|rows|, c.sma, c.rsi, c.reasons, c.eligible, c.blocked, c.disagreements, c.conflicts,
                    c.conflictDates, c.blockedDates,
                    frequencyClass, WindowBucket(c.conflicts, c.blocked, frequencyClass)));
  }

  // ---------------------------------------------------------------- the windows

  datatype WindowId = Recent260 | Trailing3Years | Trailing5Years | FullAvailable | EarlierHalf | LaterHalf

  datatype Window = Window(id: WindowId, start: nat, end: nat)

  function WindowSlices(n: nat): seq<Window>
    requires n >= RECENT_ROW_COUNT
  {
    [Window(Recent260, n - RECENT_ROW_COUNT, n)]
    + (if n >= THREE_YEAR_ROW_COUNT then [Window(Trailing3Years, n - THREE_YEAR_ROW_COUNT, n)] else [])
    + (if n >= FIVE_YEAR_ROW_COUNT then [Window(Trailing5Years, n - FIVE_YEAR_ROW_COUNT, n)] else [])
    + [Window(FullAvailable, 0, n)]
    + (if n >= RECENT_ROW_COUNT * 2 then [Window(EarlierHalf, 0, n / 2), Window(LaterHalf, n / 2, n)] else [])
  }

  function RowsOf(rows: seq<Row>, w: Window): seq<Row>
    requires w.start <= w.end <= |rows|
  {
    rows[w.start..w.end]
  }

  /** Every window is a non-empty stretch of the rows. The windows are told apart by their id, the
      trailing ones grow with their position, and the two halves meet in the middle. */
  lemma WindowsAreSlices(n: nat, w: Window, v: Window)
    requires n >= RECENT_ROW_COUNT && w in WindowSlices(n) && v in WindowSlices(n)
    ensures w.start < w.end <= n
    ensures w.id == v.id ==> w == v
    ensures Window(FullAvailable, 0, n) in WindowSlices(n)
    ensures w.id.Recent260? && !v.id.EarlierHalf? ==> v.start <= w.start && w.end == v.end
    ensures w.id.Trailing3Years? && v.id.Trailing5Years? ==> v.start < w.start && w.end == v.end
    ensures w.id.EarlierHalf? && v.id.LaterHalf? ==> w.start == 0 && w.end == v.start && v.end == n
  {
  }

  /** Which windows there are, and where: the last 260 rows and the whole always, three and five years of 252
      rows each when there are that many, and two halves from 520 rows on. */
  lemma WindowsExist(n: nat, w: Window)
    requires n >= 260
    ensures w in WindowSlices(n) <==>
              match w.id
              case Recent260 => w.start + 260 == w.end == n
              case Trailing3Years => n >= 756 && w.start + 756 == w.end == n
              case Trailing5Years => n >= 1260 && w.start + 1260 == w.end == n
              case FullAvailable => w.start == 0 && w.end == n
              case EarlierHalf => n >= 520 && w.start == 0 && w.end == n / 2
              case LaterHalf => n >= 520 && w.start == n / 2 && w.end == n
  {
  }

  /** Where the windows stand among each other. */
  function Place(id: WindowId): nat {
    match id
    case Recent260 => 0
    case Trailing3Years => 1
    case Trailing5Years => 2
    case FullAvailable => 3
    case EarlierHalf => 4
    case LaterHalf => 5
  }

  lemma WindowsInPlace(n: nat, i: nat, j: nat)
    requires n >= 260 && i < j < |WindowSlices(n)|
    ensures Place(WindowSlices(n)[i].id) < Place(WindowSlices(n)[j].id)
  {
  }

  // ---------------------------------------------------------------- conservation

  lemma {:induction false} HistogramTotals(rows: seq<Row>)
    ensures Count(rows, SmaIs(SmaInsufficientHistory)) + Count(rows, SmaIs(BullishRiskOn))
          + Count(rows, SmaIs(DefensiveRiskOff)) == |rows|
    ensures Count(rows, RsiIs(RsiInsufficientHistory)) + Count(rows, RsiIs(OversoldBuyCandidate))
          + Count(rows, RsiIs(OverboughtCashCandidate)) + Count(rows, RsiIs(NeutralNoTrade)) == |rows|
  {
    if rows != [] {
      HistogramTotals(rows[..|rows| - 1]);
    }
  }

  /** The SMA counts of a window add up to its rows, and so do its RSI counts and its reasons. */
  lemma CountsSumToRows(s: Summary, rows: seq<Row>)
    requires rows != [] && Summarizes(s, rows)
    ensures s.smaCounts[SmaInsufficientHistory] + s.smaCounts[BullishRiskOn] + s.smaCounts[DefensiveRiskOff]
              == s.rowCount
    ensures s.rsiCounts[RsiInsufficientHistory] + s.rsiCounts[OversoldBuyCandidate]
          + s.rsiCounts[OverboughtCashCandidate] + s.rsiCounts[NeutralNoTrade] == s.rowCount
    ensures |s.routeReasonCounts| == s.rowCount
    ensures s.conflictCount <= s.rowCount && s.shadowBlockedCount <= s.rowCount
  {
    HistogramTotals(rows);
    CountBounds(rows, CONFLICTS);
    CountBounds(rows, BLOCKED);
  }

  lemma HistogramsAppend(rows1: seq<Row>, rows2: seq<Row>)
    ensures forall p :: p in SMA_POSTURES ==>
              SmaHistogram(rows1 + rows2)[p] == SmaHistogram(rows1)[p] + SmaHistogram(rows2)[p]
    ensures forall p :: p in RSI_POSTURES ==>
              RsiHistogram(rows1 + rows2)[p] == RsiHistogram(rows1)[p] + RsiHistogram(rows2)[p]
  {
    forall p | p in SMA_POSTURES
      ensures SmaHistogram(rows1 + rows2)[p] == SmaHistogram(rows1)[p] + SmaHistogram(rows2)[p]
    {
      CountAppend(rows1, rows2, SmaIs(p));
    }
    forall p | p in RSI_POSTURES
      ensures RsiHistogram(rows1 + rows2)[p] == RsiHistogram(rows1)[p] + RsiHistogram(rows2)[p]
    {
      CountAppend(rows1, rows2, RsiIs(p));
    }
  }

  /** The two histograms have a count for every posture. */
  predicate Tallied(s: Summary) {
    s.smaCounts.Keys == SMA_POSTURES && s.rsiCounts.Keys == RSI_POSTURES
  }

  /** Every count of `s` is the sum of those of `s1` and `s2`. */
  predicate AddsUp(s1: Summary, s2: Summary, s: Summary)
    requires Tallied(s1) && Tallied(s2) && Tallied(s)
  {
    && s.rowCount == s1.rowCount + s2.rowCount
    && (forall p :: p in SMA_POSTURES ==> s.smaCounts[p] == s1.smaCounts[p] + s2.smaCounts[p])
    && (forall p :: p in RSI_POSTURES ==> s.rsiCounts[p] == s1.rsiCounts[p] + s2.rsiCounts[p])
    && s.routeReasonCounts == s1.routeReasonCounts + s2.routeReasonCounts
    && s.conflictCount == s1.conflictCount + s2.conflictCount
    && s.shadowBlockedCount == s1.shadowBlockedCount + s2.shadowBlockedCount
    && s.disagreementCount == s1.disagreementCount + s2.disagreementCount
    && s.finalMutationEligibleCount == s1.finalMutationEligibleCount + s2.finalMutationEligibleCount
  }

  /** Counts of two adjacent windows add up to the counts of their union. */
  lemma SplitWindowsConserve(s1: Summary, rows1: seq<Row>, s2: Summary, rows2: seq<Row>, s: Summary)
    requires rows1 != [] && rows2 != []
    requires Summarizes(s1, rows1) && Summarizes(s2, rows2) && Summarizes(s, rows1 + rows2)
    ensures Tallied(s1) && Tallied(s2) && Tallied(s) && AddsUp(s1, s2, s)
  {
    HistogramsAppend(rows1, rows2);
    ReasonsAppend(rows1, rows2);
    CountAppend(rows1, rows2, CONFLICTS);
    CountAppend(rows1, rows2, BLOCKED);
    CountAppend(rows1, rows2, DISAGREES);
    CountAppend(rows1, rows2, ELIGIBLE);
  }

  /** The frequency class of a union lies between the classes of its two parts; in particular two
      halves of one class make a whole of that class. */
  lemma SplitWindowsBracketFrequency(s1: Summary, rows1: seq<Row>, s2: Summary, rows2: seq<Row>, s: Summary)
    requires rows1 != [] && rows2 != []
    requires Summarizes(s1, rows1) && Summarizes(s2, rows2) && Summarizes(s, rows1 + rows2)
    ensures var r1, r2, r := Rank(s1.frequencyClass), Rank(s2.frequencyClass), Rank(s.frequencyClass);
            (r1 <= r <= r2) || (r2 <= r <= r1)
    ensures s1.frequencyClass == s2.frequencyClass ==> s.frequencyClass == s1.frequencyClass
  {
    var low, high := RsiIs(OversoldBuyCandidate), RsiIs(OverboughtCashCandidate);
    CountAppend(rows1, rows2, low);
    CountAppend(rows1, rows2, high);
    FrequencyBetween(|rows1|, Count(rows1, low), Count(rows1, high), |rows2|, Count(rows2, low), Count(rows2, high));
  }

  lemma ReasonsAppend(rows1: seq<Row>, rows2: seq<Row>)
    ensures Reasons(rows1 + rows2) == Reasons(rows1) + Reasons(rows2)
  {
    var all := rows1 + rows2;
    assert seq(|all|, i requires 0 <= i < |all| => all[i].routeReason)
        == seq(|rows1|, i requires 0 <= i < |rows1| => rows1[i].routeReason)
         + seq(|rows2|, i requires 0 <= i < |rows2| => rows2[i].routeReason);
  }

  lemma CountWithin(rows: seq<Row>, lo: nat, hi: nat, p: Row -> bool)
    requires lo <= hi <= |rows|
    ensures Count(rows[lo..hi], p) <= Count(rows, p)
  {
    SplitTwice(rows, lo, hi);
    CountAppend(rows[..lo], rows[lo..hi] + rows[hi..], p);
    CountAppend(rows[lo..hi], rows[hi..], p);
  }

  lemma HistogramsWithin(rows: seq<Row>, lo: nat, hi: nat)
    requires lo <= hi <= |rows|
    ensures forall p :: p in SMA_POSTURES ==> SmaHistogram(rows[lo..hi])[p] <= SmaHistogram(rows)[p]
    ensures forall p :: p in RSI_POSTURES ==> RsiHistogram(rows[lo..hi])[p] <= RsiHistogram(rows)[p]
  {
    forall p | p in SMA_POSTURES
      ensures SmaHistogram(rows[lo..hi])[p] <= SmaHistogram(rows)[p]
    {
      CountWithin(rows, lo, hi, SmaIs(p));
    }
    forall p | p in RSI_POSTURES
      ensures RsiHistogram(rows[lo..hi])[p] <= RsiHistogram(rows)[p]
    {
      CountWithin(rows, lo, hi, RsiIs(p));
    }
  }

  /** No count of `s1` exceeds that of `s2`, and `s2` asks for a backtest if `s1` does. */
  predicate AtMost(s1: Summary, s2: Summary)
    requires Tallied(s1) && Tallied(s2)
  {
    && s1.rowCount <= s2.rowCount
    && (forall p :: p in SMA_POSTURES ==> s1.smaCounts[p] <= s2.smaCounts[p])
    && (forall p :: p in RSI_POSTURES ==> s1.rsiCounts[p] <= s2.rsiCounts[p])
    && s1.conflictCount <= s2.conflictCount && s1.shadowBlockedCount <= s2.shadowBlockedCount
    && s1.disagreementCount <= s2.disagreementCount
    && s1.finalMutationEligibleCount <= s2.finalMutationEligibleCount
    && (s1.bucket == NeedsOosBacktest ==> s2.bucket == NeedsOosBacktest)
  }

  lemma PartAtMost(rows: seq<Row>, lo: nat, hi: nat, s1: Summary, s2: Summary)
    requires lo < hi <= |rows|
    requires Summarizes(s1, rows[lo..hi]) && Summarizes(s2, rows)
    ensures Tallied(s1) && Tallied(s2) && AtMost(s1, s2)
  {
    HistogramsWithin(rows, lo, hi);
    CountWithin(rows, lo, hi, CONFLICTS);
    CountWithin(rows, lo, hi, BLOCKED);
    CountWithin(rows, lo, hi, DISAGREES);
    CountWithin(rows, lo, hi, ELIGIBLE);
  }

  /** Counts are monotone along nested windows. */
  lemma NestedWindowsMonotone(rows: seq<Row>, inner: Window, outer: Window, s1: Summary, s2: Summary)
    requires outer.start <= inner.start < inner.end <= outer.end <= |rows|
    requires Summarizes(s1, RowsOf(rows, inner)) && Summarizes(s2, RowsOf(rows, outer))
    ensures Tallied(s1) && Tallied(s2) && AtMost(s1, s2)
  {
    var lo, hi := inner.start - outer.start, inner.end - outer.start;
    SliceOfSlice(rows, outer.start, outer.end, lo, hi);
    PartAtMost(RowsOf(rows, outer), lo, hi, s1, s2);
  }

  // ---------------------------------------------------------------- the whole replay

  function OverallBucket(buckets: seq<Bucket>): Bucket {
    if RejectCandidate in buckets then RejectCandidate
    else if NeedsOosBacktest in buckets then NeedsOosBacktest
    else if NeedsRegimeReview in buckets then NeedsRegimeReview
    else if NeedsThresholdReview in buckets then NeedsThresholdReview
    else KeepShadow
  }

  datatype Replay = Replay(windows: seq<Window>, summaries: seq<Summary>, overall: Bucket)

  function Buckets(summaries: seq<Summary>): (buckets: seq<Bucket>)
    ensures |buckets| == |summaries|
  {
    seq(|summaries|, i requires 0 <= i < |summaries| => summaries[i].bucket)
  }

  /** Some row conflicts with the SMA candidate or is shadow-blocked. */
  ghost predicate Flagged(rows: seq<Row>) {
    exists row :: row in rows && (row.conflict || row.shadowBlocked)
  }

  ghost predicate Promotable(rows: seq<Row>) {
    exists row :: row in rows && RSI_MUTABLE(row)
  }

  /** The recommendation for a window, from what its rows are. */
  ghost function BucketOf(rows: seq<Row>): Bucket
    requires rows != []
  {
    if Flagged(rows) then NeedsOosBacktest
    else if Triggers(rows) != InBand then NeedsThresholdReview
    else KeepShadow
  }

  lemma SummaryBucket(s: Summary, rows: seq<Row>)
    requires rows != [] && Summarizes(s, rows)
    ensures s.bucket == BucketOf(rows)
  {
    CountBounds(rows, CONFLICTS);
    CountBounds(rows, BLOCKED);
  }

  ghost predicate WindowsFit(windows: seq<Window>, n: nat) {
    forall i :: 0 <= i < |windows| ==> windows[i].start < windows[i].end <= n
  }

  ghost predicate CoversAll(windows: seq<Window>, n: nat) {
    exists i :: 0 <= i < |windows| && windows[i].start == 0 && windows[i].end == n
  }

  lemma SlicesFitAndCover(n: nat)
    requires n >= RECENT_ROW_COUNT
    ensures WindowsFit(WindowSlices(n), n) && CoversAll(WindowSlices(n), n)
  {
    var windows := WindowSlices(n);
    forall i | 0 <= i < |windows|
      ensures windows[i].start < windows[i].end <= n
    {
      WindowsAreSlices(n, windows[i], windows[i]);
    }
    assert Window(FullAvailable, 0, n) in windows;
  }

  /** The loop over the windows. */
  method SummarizeWindows(rows: seq<Row>, windows: seq<Window>) returns (r: Result<seq<Summary>, SummaryError>)
    requires WindowsFit(windows, |rows|)
    ensures r.Ok? <==> forall i :: 0 <= i < |windows| ==> !Promotable(RowsOf(rows, windows[i]))
    ensures r.Ok? ==> |r.value| == |windows|
    ensures r.Ok? ==> forall i :: 0 <= i < |windows| ==> Summarizes(r.value[i], RowsOf(rows, windows[i]))
  {
    var summaries := [];
    for k := 0 to |windows|
      invariant |summaries| == k
      invariant forall i :: 0 <= i < k ==> Summarizes(summaries[i], RowsOf(rows, windows[i]))
      invariant forall i :: 0 <= i < k ==> !Promotable(RowsOf(rows, windows[i]))
    {
      var s := BuildWindowSummary(RowsOf(rows, windows[k]));
      if s.Err? {
        return Err(s.error);
      }
      summaries := summaries + [s.value];
    }
    r := Ok(summaries);
  }

  lemma WindowRowsAreRows(rows: seq<Row>, w: Window)
    requires w.start < w.end <= |rows|
    ensures Flagged(RowsOf(rows, w)) ==> Flagged(rows)
    ensures Promotable(RowsOf(rows, w)) ==> Promotable(rows)
    ensures w.start == 0 && w.end == |rows| ==> RowsOf(rows, w) == rows
  {
    assert forall row :: row in RowsOf(rows, w) ==> row in rows;
  }

  ghost predicate SomeWindowOutOfBand(rows: seq<Row>, windows: seq<Window>)
    requires WindowsFit(windows, |rows|)
  {
    exists i :: 0 <= i < |windows| && Triggers(RowsOf(rows, windows[i])) != InBand
  }

  lemma OverallIsWorstRow(rows: seq<Row>, windows: seq<Window>, buckets: seq<Bucket>)
    requires WindowsFit(windows, |rows|) && CoversAll(windows, |rows|) && |buckets| == |windows|
    requires forall i :: 0 <= i < |windows| ==> buckets[i] == BucketOf(RowsOf(rows, windows[i]))
    ensures OverallBucket(buckets) ==
            if Flagged(rows) then NeedsOosBacktest
            else if SomeWindowOutOfBand(rows, windows) then NeedsThresholdReview
            else KeepShadow
  {
    forall i | 0 <= i < |windows|
      ensures Flagged(RowsOf(rows, windows[i])) ==> Flagged(rows)
    {
      WindowRowsAreRows(rows, windows[i]);
    }
    var full :| 0 <= full < |windows| && windows[full].start == 0 && windows[full].end == |rows|;
    WindowRowsAreRows(rows, windows[full]);
    assert buckets[full] in buckets;
    if SomeWindowOutOfBand(rows, windows) {
      var k :| 0 <= k < |windows| && Triggers(RowsOf(rows, windows[k])) != InBand;
      assert buckets[k] in buckets;
    }
  }

  /** The replay has the windows of the source, each with the summary of its rows. */
  ghost predicate Replays(r: Replay, rows: seq<Row>) {
    && |rows| >= RECENT_ROW_COUNT
    && r.windows == WindowSlices(|rows|) && |r.summaries| == |r.windows|
    && WindowsFit(r.windows, |rows|)
    && forall i :: 0 <= i < |r.windows| ==> Summarizes(r.summaries[i], RowsOf(rows, r.windows[i]))
  }

  /** In a replay, the counts of the two halves add up to those of the full window, and its frequency
      class lies between theirs. */
  lemma HalvesMakeTheWhole(r: Replay, rows: seq<Row>, earlier: nat, later: nat, full: nat)
    requires Replays(r, rows) && earlier < |r.windows| && later < |r.windows| && full < |r.windows|
    requires r.windows[earlier].id.EarlierHalf? && r.windows[later].id.LaterHalf? && r.windows[full].id.FullAvailable?
    ensures var s1, s2, s := r.summaries[earlier], r.summaries[later], r.summaries[full];
            && Tallied(s1) && Tallied(s2) && Tallied(s) && AddsUp(s1, s2, s)
            && var low, high, whole := Rank(s1.frequencyClass), Rank(s2.frequencyClass), Rank(s.frequencyClass);
               (low <= whole <= high) || (high <= whole <= low)
  {
    var w1, w2, w := r.windows[earlier], r.windows[later], r.windows[full];
    WindowsAreSlices(|rows|, w1, w2);
    WindowsAreSlices(|rows|, w, Window(FullAvailable, 0, |rows|));
    var rows1, rows2 := RowsOf(rows, w1), RowsOf(rows, w2);
    assert RowsOf(rows, w) == rows == rows1 + rows2;
    SplitWindowsConserve(r.summaries[earlier], rows1, r.summaries[later], rows2, r.summaries[full]);
    SplitWindowsBracketFrequency(r.summaries[earlier], rows1, r.summaries[later], rows2, r.summaries[full]);
  }

  /** In a replay, the counts grow along the recent window, the trailing ones and the full one. */
  lemma TrailingWindowsAscend(r: Replay, rows: seq<Row>, i: nat, j: nat)
    requires Replays(r, rows) && i <= j < |r.windows|
    requires forall k :: k in [i, j] ==> !r.windows[k].id.EarlierHalf? && !r.windows[k].id.LaterHalf?
    ensures Tallied(r.summaries[i]) && Tallied(r.summaries[j]) && AtMost(r.summaries[i], r.summaries[j])
  {
    assert i in [i, j] && j in [i, j];
    NestedWindowsMonotone(rows, r.windows[i], r.windows[j], r.summaries[i], r.summaries[j]);
  }

  /** Summarizes every window of the replay. The overall recommendation asks for a backtest exactly
      when some row anywhere conflicts or is shadow-blocked, and otherwise for a threshold review
      exactly when some window's trigger frequency is out of band. */
  method BuildReplay(rows: seq<Row>) returns (r: Result<Replay, SummaryError>)
    ensures r.Ok? <==> |rows| >= RECENT_ROW_COUNT && !Promotable(rows)
    ensures r.Ok? ==> Replays(r.value, rows)
    ensures r.Ok? ==>
              r.value.overall ==
              if Flagged(rows) then NeedsOosBacktest
              else if SomeWindowOutOfBand(rows, r.value.windows) then NeedsThresholdReview
              else KeepShadow
  {
    if |rows| < RECENT_ROW_COUNT {
      return Err(TooFewBars);
    }
    var windows := WindowSlices(|rows|);
    SlicesFitAndCover(|rows|);
    var summarized := SummarizeWindows(rows, windows);
    PromotableSomewhere(rows, windows);
    if summarized.Err? {
      return Err(summarized.error);
    }
    var summaries := summarized.value;
    forall i | 0 <= i < |windows|
      ensures Buckets(summaries)[i] == BucketOf(RowsOf(rows, windows[i]))
    {
      SummaryBucket(summaries[i], RowsOf(rows, windows[i]));
    }
    OverallIsWorstRow(rows, windows, Buckets(summaries));
    r := Ok(Replay(windows, summaries, OverallBucket(Buckets(summaries))));
  }

  lemma PromotableSomewhere(rows: seq<Row>, windows: seq<Window>)
    requires WindowsFit(windows, |rows|) && CoversAll(windows, |rows|)
    ensures Promotable(rows) <==> exists i :: 0 <= i < |windows| && Promotable(RowsOf(rows, windows[i]))
  {
    forall i | 0 <= i < |windows|
      ensures Promotable(RowsOf(rows, windows[i])) ==> Promotable(rows)
    {
      WindowRowsAreRows(rows, windows[i]);
    }
    var full :| 0 <= full < |windows| && windows[full].start == 0 && windows[full].end == |rows|;
    WindowRowsAreRows(rows, windows[full]);
  }
}
