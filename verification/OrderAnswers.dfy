/**
 What the constructor of order requests answers to every raw request: the first requirement the request
 fails, in terms of its words and ids, or the request itself, field by field.
 */
module OrderAnswers {
  import opened Wrappers
  import opened Gates
  import opened Text
  import opened OrderGate

  /** The words of a raw request as the constructor reads them: in lower case, the symbol in upper case. */
  datatype Words = Words(side: string, assetClass: string, orderType: string, timeInForce: string, symbol: string)

  function WordsOf(raw: Raw): Words {
    Words(Lower(Strip(raw.side)), Lower(Strip(raw.assetClass)), Lower(Strip(raw.orderType)),
          Lower(Strip(raw.timeInForce)), Upper(Strip(raw.symbol)))
  }

  predicate ByQuantity(raw: Raw) {
    raw.qty != None && raw.notional == None
  }

  /** The SPY limit order of the certification and of the drill, either way. */
  predicate CertifiesSpy(raw: Raw) {
    && WordsOf(raw) in {Words("buy", "equity", "limit", "day", "SPY"), Words("sell", "equity", "limit", "day", "SPY")}
    && (raw.clientOrderId == "paper-certification-v189-spy-sell-limit" || "v31-spy-drill-" <= raw.clientOrderId)
    && ByQuantity(raw) && raw.limitPrice != None
  }

  /** The BTCUSD limit purchase of the drill and of the certification. */
  predicate DrillsBtc(raw: Raw) {
    && WordsOf(raw) == Words("buy", "crypto", "limit", "gtc", "BTCUSD")
    && ("v412c-crypto-paper-mutation-drill-" <= raw.clientOrderId || "v58-btcusd-paper-cert-" <= raw.clientOrderId)
    && ByQuantity(raw) && raw.limitPrice != None
  }

  /** An explicit or automatic close of SPY. */
  predicate ClosesSpy(raw: Raw) {
    && WordsOf(raw).assetClass == "equity" && WordsOf(raw).symbol == "SPY"
    && (raw.clientOrderId == "paper-order-close-m355_spy_paper_close_submit"
        || "pa-v207-spy-close-" <= raw.clientOrderId)
    && ByQuantity(raw)
  }

  /** The ten-dollar entry, or the exit by quantity, of a bounded probe, under the id of its symbol and side. */
  predicate Probes(raw: Raw) {
    var words := WordsOf(raw);
    && words in {Words("buy", "crypto", "market", "gtc", words.symbol),
                 Words("sell", "crypto", "market", "gtc", words.symbol)}
    && words.symbol in {"BTCUSD", "ETHUSD", "SOLUSD"} && raw.limitPrice == None
    && (if words.side == "buy" then raw.qty == None && raw.notional == Some(Finite(10.0)) else ByQuantity(raw))
    && IsProbeId(raw.clientOrderId, words.symbol, Some(if words.side == "buy" then Buy else Sell))
  }

  /** An amount, if there is one, is a number above zero; a NaN cannot even be compared. */
  ghost function AmountFault(amount: Option<Decimal>): Option<GateError> {
    Require(amount != Some(NaN), NotComparable,
    Require(amount.Some? && amount.value.Finite? ==> amount.value.value > 0.0, NotPositive,
    Require(amount != Some(Infinite(false)), NotPositive, None)))
  }

  ghost function AmountsFault(raw: Raw): Option<GateError> {
    Require((raw.qty == None) != (raw.notional == None), NotExactlyOneAmount,
            Then(AmountFault(raw.qty), Then(AmountFault(raw.notional), AmountFault(raw.limitPrice))))
  }

  ghost function PriceFault(raw: Raw): Option<GateError> {
    var words := WordsOf(raw);
    Require(words.timeInForce in (if words.assetClass == "crypto" then {"gtc", "ioc"} else {"day"}),
            UnsupportedTimeInForce,
    Require(words.orderType == "market" ==> raw.limitPrice == None, MarketWithLimitPrice,
    Require(words.orderType == "limit" ==> raw.limitPrice != None, LimitWithoutPrice, None)))
  }

  /** Selling is restricted to BTCUSD, the probes, and SPY by its three special ids. */
  predicate MaySellIt(raw: Raw) {
    || (WordsOf(raw).assetClass == "crypto" && WordsOf(raw).symbol == "BTCUSD")
    || Probes(raw) || ClosesSpy(raw) || CertifiesSpy(raw)
  }

  ghost function WordsFault(raw: Raw): Option<GateError> {
    var words := WordsOf(raw);
    Require(words.assetClass in {"equity", "crypto", "option"}, UnsupportedAssetClass,
    Require("v530-bounded-probe-" <= raw.clientOrderId ==> Probes(raw), ProbeShapeDrifted,
    Require(words.side in {"buy", "sell"}, UnsupportedSide,
    Require(words.side == "sell" ==> MaySellIt(raw), SellRestricted,
    Require(words.orderType in {"market", "limit"}, UnsupportedOrderType,
    Require(words.orderType == "limit" ==> CertifiesSpy(raw) || DrillsBtc(raw), LimitRestricted, None))))))
  }

  /** The first requirement a raw request fails. */
  ghost function GateFault(raw: Raw): Option<GateError> {
    Require(!Blank(raw.clientOrderId), MissingClientOrderId,
    Require(!Blank(raw.symbol), MissingSymbol,
            Then(WordsFault(raw), Then(PriceFault(raw), AmountsFault(raw)))))
  }

  /** The request says what the raw request says. */
  predicate Fulfils(q: Request, raw: Raw) {
    && q.clientOrderId == raw.clientOrderId
    && WordsOf(raw) == Words(SideWord(q.side), AssetClassWord(q.assetClass), OrderTypeWord(q.orderType),
                             TimeInForceWord(q.timeInForce), q.symbol)
    && q.qty == raw.qty && q.notional == raw.notional && q.limitPrice == raw.limitPrice
  }

  // ---------------------------------------------------------------- the constructor meets the list

  lemma AmountMeans(amount: Option<Decimal>)
    ensures AmountError(amount) == AmountFault(amount)
  {
  }

  lemma SideWords(word: string)
    ensures SideOf(word).Some? <==> word in {"buy", "sell"}
    ensures SideOf(word).Some? ==> word == SideWord(SideOf(word).value)
  {
  }

  lemma ClassWords(word: string)
    ensures AssetClassOf(word).Some? <==> word in {"equity", "crypto", "option"}
    ensures AssetClassOf(word).Some? ==> word == AssetClassWord(AssetClassOf(word).value)
  {
  }

  lemma TypeWords(word: string)
    ensures OrderTypeOf(word).Some? <==> word in {"market", "limit"}
    ensures OrderTypeOf(word).Some? ==> word == OrderTypeWord(OrderTypeOf(word).value)
  {
  }

  lemma TimeWords(word: string)
    ensures TimeInForceOf(word).Some? <==> word in {"day", "gtc", "ioc"}
    ensures TimeInForceOf(word).Some? ==> word == TimeInForceWord(TimeInForceOf(word).value)
  {
  }

  lemma ReadWords(raw: Raw)
    ensures var r, words := Read(raw), WordsOf(raw);
            && r.id == raw.clientOrderId && r.symbol == words.symbol
            && (r.side.Some? ==> words.side == SideWord(r.side.value))
            && (r.side.Some? <==> words.side in {"buy", "sell"})
            && (r.assetClass.Some? ==> words.assetClass == AssetClassWord(r.assetClass.value))
            && (r.assetClass.Some? <==> words.assetClass in {"equity", "crypto", "option"})
            && (r.orderType.Some? ==> words.orderType == OrderTypeWord(r.orderType.value))
            && (r.orderType.Some? <==> words.orderType in {"market", "limit"})
            && (r.timeInForce.Some? ==> words.timeInForce == TimeInForceWord(r.timeInForce.value))
            && (r.timeInForce.Some? <==> words.timeInForce in {"day", "gtc", "ioc"})
            && r.qty == raw.qty && r.notional == raw.notional && r.limitPrice == raw.limitPrice
  {
    SideWords(Lower(Strip(raw.side)));
    ClassWords(Lower(Strip(raw.assetClass)));
    TypeWords(Lower(Strip(raw.orderType)));
    TimeWords(Lower(Strip(raw.timeInForce)));
  }

  lemma CertificationMeans(raw: Raw)
    ensures SpyCertification(Read(raw)) <==> CertifiesSpy(raw)
  {
    ReadWords(raw);
  }

  lemma DrillMeans(raw: Raw)
    ensures (CryptoDrill(Read(raw), V412C_DRILL_PREFIX) || CryptoDrill(Read(raw), V58_CERTIFICATION_PREFIX))
       <==> DrillsBtc(raw)
  {
    ReadWords(raw);
  }

  lemma CloseMeans(raw: Raw)
    ensures SpyClose(Read(raw)) <==> ClosesSpy(raw)
  {
    ReadWords(raw);
  }

  lemma ProbeMeans(raw: Raw)
    ensures BoundedProbe(Read(raw)) <==> Probes(raw)
  {
    ReadWords(raw);
  }

  lemma ShapeFault(raw: Raw)
    ensures ShapeError(Read(raw)) == Then(WordsFault(raw), Then(PriceFault(raw), AmountsFault(raw)))
  {
    CertificationMeans(raw);
    DrillMeans(raw);
    CloseMeans(raw);
    ProbeMeans(raw);
    ReadWords(raw);
    AmountMeans(raw.qty);
    AmountMeans(raw.notional);
    AmountMeans(raw.limitPrice);
  }

  /** Every answer of the constructor. */
  lemma ConstructMeans(raw: Raw)
    ensures match GateFault(raw)
            case Some(error) => Construct(raw) == Err(error)
            case None => Construct(raw).Ok? && Fulfils(Construct(raw).value, raw)
  {
    StripBlank(raw.clientOrderId);
    StripBlank(raw.symbol);
    ShapeFault(raw);
    ReadWords(raw);
  }
}
