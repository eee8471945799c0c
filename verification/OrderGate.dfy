/**
 The constructor of a paper order request: which orders it lets through, under which client order
 ids, and how it treats the ids a lifecycle plan derives.
 */
module OrderGate {
  import opened Wrappers
  import opened Text

  /** A `Decimal`. Signalling NaNs are not modelled. */
  datatype Decimal = Finite(value: real) | Infinite(positive: bool) | NaN

  datatype Side = Buy | Sell
  datatype AssetClass = Equity | Crypto | Opt
  datatype OrderType = Market | Limit
  datatype TimeInForce = Day | Gtc | Ioc

  datatype Raw = Raw(
    clientOrderId: string,
    symbol: string,
    side: string,
    assetClass: string,
    qty: Option<Decimal>,
    notional: Option<Decimal>,
    orderType: string,
    timeInForce: string,
    limitPrice: Option<Decimal>)

  datatype Request = Request(
    clientOrderId: string,
    symbol: string,
    side: Side,
    assetClass: AssetClass,
    qty: Option<Decimal>,
    notional: Option<Decimal>,
    orderType: OrderType,
    timeInForce: TimeInForce,
    limitPrice: Option<Decimal>)

  datatype GateError =
    | MissingClientOrderId | MissingSymbol | UnsupportedAssetClass | ProbeShapeDrifted
    | UnsupportedSide | SellRestricted | UnsupportedOrderType | LimitRestricted | UnsupportedTimeInForce
    | MarketWithLimitPrice | LimitWithoutPrice | NotExactlyOneAmount
    | NotComparable | NotPositive

  // ---------------------------------------------------------------- words

  function SideOf(word: string): Option<Side> {
    if word == "buy" then Some(Buy) else if word == "sell" then Some(Sell) else None
  }

  function AssetClassOf(word: string): Option<AssetClass> {
    if word == "equity" then Some(Equity) else if word == "crypto" then Some(Crypto)
    else if word == "option" then Some(Opt) else None
  }

  function OrderTypeOf(word: string): Option<OrderType> {
    if word == "market" then Some(Market) else if word == "limit" then Some(Limit) else None
  }

  function TimeInForceOf(word: string): Option<TimeInForce> {
    if word == "day" then Some(Day) else if word == "gtc" then Some(Gtc) else if word == "ioc" then Some(Ioc) else None
  }

  function SideWord(side: Side): string {
    match side case Buy => "buy" case Sell => "sell"
  }

  function AssetClassWord(assetClass: AssetClass): string {
    match assetClass case Equity => "equity" case Crypto => "crypto" case Opt => "option"
  }

  function OrderTypeWord(orderType: OrderType): string {
    match orderType case Market => "market" case Limit => "limit"
  }

  function TimeInForceWord(timeInForce: TimeInForce): string {
    match timeInForce case Day => "day" case Gtc => "gtc" case Ioc => "ioc"
  }

  /** `s.strip().lower()` */
  function Folded(s: string): string {
    Lower(Strip(s))
  }

  /** The request with its words read; None is a word outside the vocabulary. */
  datatype Reading = Reading(
    id: string,
    symbol: string,
    side: Option<Side>,
    assetClass: Option<AssetClass>,
    qty: Option<Decimal>,
    notional: Option<Decimal>,
    orderType: Option<OrderType>,
    timeInForce: Option<TimeInForce>,
    limitPrice: Option<Decimal>)

  function Read(raw: Raw): Reading {
    Reading(raw.clientOrderId, Upper(Strip(raw.symbol)), SideOf(Folded(raw.side)), AssetClassOf(Folded(raw.assetClass)),
            raw.qty, raw.notional, OrderTypeOf(Folded(raw.orderType)), TimeInForceOf(Folded(raw.timeInForce)),
            raw.limitPrice)
  }

  // ---------------------------------------------------------------- the id namespaces

  const M355_SPY_CLOSE_ID := "paper-order-close-m355_spy_paper_close_submit"
  const AUTOPILOT_SPY_CLOSE_PREFIX := "pa-v207-spy-close-"
  const V189_CERTIFICATION_ID := "paper-certification-v189-spy-sell-limit"
  const V31_DRILL_PREFIX := "v31-spy-drill-"
  const V412C_DRILL_PREFIX := "v412c-crypto-paper-mutation-drill-"
  const V58_CERTIFICATION_PREFIX := "v58-btcusd-paper-cert-"
  const PROBE_PREFIX := "v530-bounded-probe-"

  datatype ProbeSymbol = BTC | ETH | SOL

  function Name(symbol: ProbeSymbol): string {
    match symbol case BTC => "BTCUSD" case ETH => "ETHUSD" case SOL => "SOLUSD"
  }

  /** The symbol in lower case. */
  function Stem(symbol: ProbeSymbol): string {
    match symbol case BTC => "btcusd" case ETH => "ethusd" case SOL => "solusd"
  }

  predicate IsProbeSymbol(symbol: string) {
    symbol == Name(BTC) || symbol == Name(ETH) || symbol == Name(SOL)
  }

  predicate IsHexDigit(c: char) {
    '0' <= c <= '9' || 'a' <= c <= 'f'
  }

  predicate IsToken(t: string) {
    |t| == 16 && forall i :: 0 <= i < |t| ==> IsHexDigit(t[i])
  }

  function RoleOf(side: Side): string {
    match side case Buy => "entry" case Sell => "exit"
  }

  /** `f"{PREFIX}{stem}-{role}-{token}"` */
  function ProbeId(stem: string, role: string, token: string): string {
    PROBE_PREFIX + (stem + ("-" + (role + ("-" + token))))
  }

  predicate IsProbeId(id: string, symbol: string, side: Option<Side>) {
    && side.Some?
    && var prefix := ProbeId(Lower(symbol), RoleOf(side.value), "");
       StartsWith(id, prefix) && IsToken(id[|prefix|..])
  }

  // ---------------------------------------------------------------- the exceptional shapes

  predicate OnlyQty(r: Reading) {
    r.qty.Some? && r.notional.None?
  }

  predicate SpyCertification(r: Reading) {
    && r.assetClass == Some(Equity) && r.symbol == "SPY"
    && (r.id == V189_CERTIFICATION_ID || StartsWith(r.id, V31_DRILL_PREFIX))
    && r.side.Some? && r.orderType == Some(Limit) && r.timeInForce == Some(Day)
    && OnlyQty(r) && r.limitPrice.Some?
  }

  predicate CryptoDrill(r: Reading, prefix: string) {
    && r.assetClass == Some(Crypto) && r.symbol == "BTCUSD"
    && StartsWith(r.id, prefix)
    && r.side == Some(Buy) && r.orderType == Some(Limit) && r.timeInForce == Some(Gtc)
    && OnlyQty(r) && r.limitPrice.Some?
  }

  predicate BoundedProbe(r: Reading) {
    && r.assetClass == Some(Crypto) && IsProbeSymbol(r.symbol)
    && IsProbeId(r.id, r.symbol, r.side)
    && r.orderType == Some(Market) && r.timeInForce == Some(Gtc) && r.limitPrice.None?
    && ((r.side == Some(Buy) && r.qty.None? && r.notional == Some(Finite(10.0)))
        || (r.side == Some(Sell) && OnlyQty(r)))
  }

  predicate SpyClose(r: Reading) {
    && r.assetClass == Some(Equity) && r.symbol == "SPY"
    && (r.id == M355_SPY_CLOSE_ID || StartsWith(r.id, AUTOPILOT_SPY_CLOSE_PREFIX))
    && OnlyQty(r)
  }

  predicate MaySell(r: Reading) {
    || (r.assetClass == Some(Crypto) && r.symbol == "BTCUSD")
    || BoundedProbe(r) || SpyClose(r) || SpyCertification(r)
  }

  predicate MayLimit(r: Reading) {
    SpyCertification(r) || CryptoDrill(r, V412C_DRILL_PREFIX) || CryptoDrill(r, V58_CERTIFICATION_PREFIX)
  }

  predicate Permits(assetClass: AssetClass, timeInForce: TimeInForce) {
    if assetClass.Crypto? then timeInForce.Gtc? || timeInForce.Ioc? else timeInForce.Day?
  }

  // ---------------------------------------------------------------- the constructor

  /** `_positive_decimal`. Ordering a NaN raises, and so does not pass. */
  function AmountError(amount: Option<Decimal>): Option<GateError> {
    match amount
    case None => None
    case Some(NaN) => Some(NotComparable)
    case Some(Infinite(positive)) => if positive then None else Some(NotPositive)
    case Some(Finite(value)) => if value <= 0.0 then Some(NotPositive) else None
  }

  function FirstOf(a: Option<GateError>, b: Option<GateError>, c: Option<GateError>): Option<GateError> {
    if a.Some? then a else if b.Some? then b else c
  }

  /** The checks after the words are read, in their order. */
  function ShapeError(r: Reading): Option<GateError> {
    if r.assetClass.None? then Some(UnsupportedAssetClass)
    else if StartsWith(r.id, PROBE_PREFIX) && !BoundedProbe(r) then Some(ProbeShapeDrifted)
    else if r.side.None? then Some(UnsupportedSide)
    else if r.side == Some(Sell) && !MaySell(r) then Some(SellRestricted)
    else if r.orderType.None? then Some(UnsupportedOrderType)
    else if r.orderType == Some(Limit) && !MayLimit(r) then Some(LimitRestricted)
    else if r.timeInForce.None? || !Permits(r.assetClass.value, r.timeInForce.value) then Some(UnsupportedTimeInForce)
    else if r.orderType == Some(Market) && r.limitPrice.Some? then Some(MarketWithLimitPrice)
    else if r.orderType == Some(Limit) && r.limitPrice.None? then Some(LimitWithoutPrice)
    else if r.qty.Some? == r.notional.Some? then Some(NotExactlyOneAmount)
    else FirstOf(AmountError(r.qty), AmountError(r.notional), AmountError(r.limitPrice))
  }

  function Construct(raw: Raw): Result<Request, GateError> {
    if Strip(raw.clientOrderId) == "" then Err(MissingClientOrderId)
    else if Strip(raw.symbol) == "" then Err(MissingSymbol)
    else
      Check(Read(raw))
  }

  function Check(r: Reading): Result<Request, GateError> {
    var error := ShapeError(r);
    if error.Some? then Err(error.value)
    else Ok(RequestOf(r, r.side.value, r.assetClass.value, r.orderType.value, r.timeInForce.value))
  }

  function RequestOf(r: Reading, side: Side, assetClass: AssetClass, orderType: OrderType,
                     timeInForce: TimeInForce): Request
  {
    Request(r.id, r.symbol, side, assetClass, r.qty, r.notional, orderType, timeInForce, r.limitPrice)
  }

  // ---------------------------------------------------------------- what an accepted request is

  predicate Positive(amount: Decimal) {
    (amount.Finite? && amount.value > 0.0) || amount == Infinite(true)
  }

  /** The shape of every request the constructor accepts. */
  predicate Sound(q: Request) {
    && Permits(q.assetClass, q.timeInForce)
    && q.qty.Some? != q.notional.Some?
    && (q.qty.Some? ==> Positive(q.qty.value)) && (q.notional.Some? ==> Positive(q.notional.value))
    && (q.orderType.Limit? <==> q.limitPrice.Some?) && (q.limitPrice.Some? ==> Positive(q.limitPrice.value))
    && (q.orderType.Limit? ==> q.qty.Some? && q.symbol in {"SPY", "BTCUSD"})
    && (q.side.Sell? ==>
          || (q.assetClass.Crypto? && IsProbeSymbol(q.symbol))
          || (q.assetClass.Equity? && q.symbol == "SPY" && q.qty.Some?))
  }

  lemma CheckedIsSound(r: Reading)
    requires Check(r).Ok?
    ensures Sound(Check(r).value)
  {
  }

  lemma AcceptedIsSound(raw: Raw)
    requires Construct(raw).Ok?
    ensures Sound(Construct(raw).value)
  {
    CheckedIsSound(Read(raw));
  }

  lemma KeepsId(raw: Raw)
    ensures Construct(raw).Ok? ==> Construct(raw).value.clientOrderId == raw.clientOrderId
  {
  }

  // ---------------------------------------------------------------- the probe namespace

  lemma PrefixCancels(a: string, b: string, c: string)
    ensures StartsWith(a + b, a + c) <==> StartsWith(b, c)
  {
    if c <= b {
      assert b == c + b[|c|..];
      assert a + b == (a + c) + b[|c|..];
    }
    if a + c <= a + b {
      assert c == (a + c)[|a|..] && b == (a + b)[|a|..];
      forall i | 0 <= i < |c|
        ensures c[i] == b[i]
      {
        assert (a + c)[|a| + i] == (a + b)[|a| + i];
      }
    }
  }

  lemma HeadsAgree(a: string, b: string, x: string, y: string)
    requires |a| == |b| && StartsWith(a + x, b + y)
    ensures a == b
  {
    forall i | 0 <= i < |a|
      ensures a[i] == b[i]
    {
      assert (b + y)[i] == (a + x)[i];
    }
  }

  lemma StemsAreLower(symbol: ProbeSymbol)
    ensures Lower(Name(symbol)) == Stem(symbol)
  {
    match symbol {
      case BTC => assert Lower("BTCUSD") == "btcusd";
      case ETH => assert Lower("ETHUSD") == "ethusd";
      case SOL => assert Lower("SOLUSD") == "solusd";
    }
  }

  lemma StemsDiffer(a: ProbeSymbol, b: ProbeSymbol)
    ensures |Stem(a)| == 6 && (Stem(a) == Stem(b) <==> a == b)
  {
    assert Stem(BTC)[0] == 'b' && Stem(ETH)[0] == 'e' && Stem(SOL)[0] == 's';
  }

  /** Of the roles in use, none is a prefix of another once its hyphen is counted. */
  lemma RolesDiffer(token: string)
    ensures !StartsWith("entry" + ("-" + token), "exit" + ("-" + ""))
    ensures !StartsWith("exit" + ("-" + token), "entry" + ("-" + ""))
    ensures !StartsWith("cancel" + ("-" + token), "entry" + ("-" + ""))
    ensures !StartsWith("cancel" + ("-" + token), "exit" + ("-" + ""))
  {
    assert ("exit" + ("-" + ""))[1] == 'x' && ("entry" + ("-" + token))[1] == 'n';
    assert ("entry" + ("-" + ""))[1] == 'n' && ("exit" + ("-" + token))[1] == 'x';
    assert ("cancel" + ("-" + token))[0] == 'c';
    assert ("entry" + ("-" + ""))[0] == 'e' && ("exit" + ("-" + ""))[0] == 'e';
  }

  /** The role part decides: an id made for one role starts like another only if the roles agree. */
  lemma SameStemPrefix(stem: string, role: string, token: string, otherRole: string)
    ensures StartsWith(ProbeId(stem, role, token), ProbeId(stem, otherRole, ""))
            <==> StartsWith(role + ("-" + token), otherRole + ("-" + ""))
  {
    PrefixCancels("-", role + ("-" + token), otherRole + ("-" + ""));
    PrefixCancels(stem, "-" + (role + ("-" + token)), "-" + (otherRole + ("-" + "")));
    PrefixCancels(PROBE_PREFIX, stem + ("-" + (role + ("-" + token))), stem + ("-" + (otherRole + ("-" + ""))));
  }

  lemma OtherStemPrefix(a: ProbeSymbol, b: ProbeSymbol, role: string, token: string, otherRole: string)
    requires a != b
    ensures !StartsWith(ProbeId(Stem(a), role, token), ProbeId(Stem(b), otherRole, ""))
  {
    var x, y := "-" + (role + ("-" + token)), "-" + (otherRole + ("-" + ""));
    PrefixCancels(PROBE_PREFIX, Stem(a) + x, Stem(b) + y);
    StemsDiffer(a, b);
    StemsDiffer(b, a);
    if StartsWith(Stem(a) + x, Stem(b) + y) {
      HeadsAgree(Stem(a), Stem(b), x, y);
    }
  }

  lemma TokenIsTail(stem: string, role: string, token: string)
    ensures StartsWith(ProbeId(stem, role, token), ProbeId(stem, role, ""))
    ensures ProbeId(stem, role, token)[|ProbeId(stem, role, "")|..] == token
  {
    assert ProbeId(stem, role, token) == ProbeId(stem, role, "") + token;
  }

  /** A derived id names its own symbol and side, and no other. */
  lemma DerivedIdNamesItself(symbol: ProbeSymbol, side: Side, token: string, other: ProbeSymbol,
                             otherSide: Option<Side>)
    requires IsToken(token)
    ensures IsProbeId(ProbeId(Stem(symbol), RoleOf(side), token), Name(other), otherSide)
            <==> other == symbol && otherSide == Some(side)
  {
    StemsAreLower(other);
    if otherSide.Some? {
      if other == symbol {
        SameStemPrefix(Stem(symbol), RoleOf(side), token, RoleOf(otherSide.value));
        RolesDiffer(token);
        TokenIsTail(Stem(symbol), RoleOf(side), token);
      } else {
        OtherStemPrefix(symbol, other, RoleOf(side), token, RoleOf(otherSide.value));
      }
    }
  }

  lemma CancelIdNamesNothing(symbol: ProbeSymbol, token: string, other: ProbeSymbol, side: Option<Side>)
    ensures !IsProbeId(ProbeId(Stem(symbol), "cancel", token), Name(other), side)
  {
    StemsAreLower(other);
    if side.Some? {
      if other == symbol {
        SameStemPrefix(Stem(symbol), "cancel", token, RoleOf(side.value));
        RolesDiffer(token);
      } else {
        OtherStemPrefix(symbol, other, "cancel", token, RoleOf(side.value));
      }
    }
  }

  lemma PrefixedIsNamed(id: string)
    requires StartsWith(id, PROBE_PREFIX)
    ensures Strip(id) != ""
  {
    assert id[0] == PROBE_PREFIX[0] == 'v';
    StripLeftEnds(id);
    assert StripLeft(id) == id;
    KeepsVisible(id);
  }

  lemma {:induction false} KeepsVisible(s: string)
    requires s != "" && !IsSpace(s[0])
    ensures StripRight(s) != ""
  {
    if IsSpace(s[|s| - 1]) {
      KeepsVisible(s[..|s| - 1]);
    }
  }

  /** Under the probe prefix the gate accepts the probe shape with positive amounts, and nothing else. */
  lemma PrefixedAcceptance(raw: Raw)
    requires StartsWith(raw.clientOrderId, PROBE_PREFIX)
    ensures Construct(raw).Ok? <==>
              && BoundedProbe(Read(raw))
              && (Read(raw).side == Some(Sell) ==> Positive(raw.qty.value))
  {
    PrefixedIsNamed(raw.clientOrderId);
    EmptySymbol(raw.symbol);
    PrefixedCheck(Read(raw));
  }

  lemma PrefixedCheck(r: Reading)
    requires StartsWith(r.id, PROBE_PREFIX)
    ensures Check(r).Ok? <==> BoundedProbe(r) && (r.side == Some(Sell) ==> Positive(r.qty.value))
  {
  }

  lemma EmptySymbol(symbol: string)
    ensures IsProbeSymbol(Upper(Strip(symbol))) ==> Strip(symbol) != ""
  {
  }

  /** What the entry and the exit order of a plan look like once their words are read. */
  predicate EntryShape(r: Reading, symbol: ProbeSymbol) {
    && r.assetClass == Some(Crypto) && r.symbol == Name(symbol)
    && r.side == Some(Buy) && r.orderType == Some(Market) && r.timeInForce == Some(Gtc)
    && r.qty == None && r.notional == Some(Finite(10.0)) && r.limitPrice == None
  }

  predicate ExitShape(r: Reading, symbol: ProbeSymbol) {
    && r.assetClass == Some(Crypto) && r.symbol == Name(symbol)
    && r.side == Some(Sell) && r.orderType == Some(Market) && r.timeInForce == Some(Gtc)
    && r.qty.Some? && Positive(r.qty.value) && r.notional == None && r.limitPrice == None
  }

  lemma ProbeIdPrefixed(stem: string, role: string, token: string)
    ensures StartsWith(ProbeId(stem, role, token), PROBE_PREFIX)
  {
  }

  lemma NamesDiffer(a: ProbeSymbol, b: ProbeSymbol)
    ensures Name(a) == Name(b) <==> a == b
  {
    assert Name(BTC)[0] == 'B' && Name(ETH)[0] == 'E' && Name(SOL)[0] == 'S';
  }

  /** The symbol a probe request names, as one of the three. */
  lemma NamedSymbol(symbol: string) returns (p: ProbeSymbol)
    requires IsProbeSymbol(symbol)
    ensures Name(p) == symbol
  {
    p := if symbol == Name(BTC) then BTC else if symbol == Name(ETH) then ETH else SOL;
  }

  /** The derived entry id is accepted exactly for its symbol's ten-dollar market gtc buy. */
  lemma EntryIdAccepted(symbol: ProbeSymbol, token: string, raw: Raw)
    requires IsToken(token) && raw.clientOrderId == ProbeId(Stem(symbol), "entry", token)
    ensures Construct(raw).Ok? <==> EntryShape(Read(raw), symbol)
  {
    var r := Read(raw);
    ProbeIdPrefixed(Stem(symbol), "entry", token);
    PrefixedAcceptance(raw);
    if IsProbeSymbol(r.symbol) {
      var other := NamedSymbol(r.symbol);
      DerivedIdNamesItself(symbol, Buy, token, other, r.side);
      NamesDiffer(symbol, other);
    }
  }

  /** The derived exit id is accepted exactly for its symbol's market gtc sale of a positive quantity. */
  lemma ExitIdAccepted(symbol: ProbeSymbol, token: string, raw: Raw)
    requires IsToken(token) && raw.clientOrderId == ProbeId(Stem(symbol), "exit", token)
    ensures Construct(raw).Ok? <==> ExitShape(Read(raw), symbol)
  {
    var r := Read(raw);
    ProbeIdPrefixed(Stem(symbol), "exit", token);
    PrefixedAcceptance(raw);
    if IsProbeSymbol(r.symbol) {
      var other := NamedSymbol(r.symbol);
      DerivedIdNamesItself(symbol, Sell, token, other, r.side);
      NamesDiffer(symbol, other);
    }
  }

  /** The derived cancel id is never an order. */
  lemma CancelIdRefused(symbol: ProbeSymbol, token: string, raw: Raw)
    requires raw.clientOrderId == ProbeId(Stem(symbol), "cancel", token)
    ensures Construct(raw).Err?
  {
    var r := Read(raw);
    ProbeIdPrefixed(Stem(symbol), "cancel", token);
    PrefixedAcceptance(raw);
    if IsProbeSymbol(r.symbol) {
      var other := NamedSymbol(r.symbol);
      CancelIdNamesNothing(symbol, token, other, r.side);
    }
  }

  ghost predicate IsEntryOf(raw: Raw, symbol: ProbeSymbol, token: string) {
    IsToken(token) && raw.clientOrderId == ProbeId(Stem(symbol), "entry", token) && EntryShape(Read(raw), symbol)
  }

  ghost predicate IsExitOf(raw: Raw, symbol: ProbeSymbol, token: string) {
    IsToken(token) && raw.clientOrderId == ProbeId(Stem(symbol), "exit", token) && ExitShape(Read(raw), symbol)
  }

  lemma ProbeIdSplits(id: string, symbol: ProbeSymbol, side: Side) returns (token: string)
    requires IsProbeId(id, Name(symbol), Some(side))
    ensures IsToken(token) && id == ProbeId(Stem(symbol), RoleOf(side), token)
  {
    StemsAreLower(symbol);
    var prefix := ProbeId(Stem(symbol), RoleOf(side), "");
    token := id[|prefix|..];
    assert id == prefix + token;
    assert prefix + token == ProbeId(Stem(symbol), RoleOf(side), token);
  }

  /** Every accepted request under the prefix is the entry or the exit of one symbol, under an id the
      plan's derivation could have made. */
  lemma OnlyTwoProbeShapes(raw: Raw)
    requires StartsWith(raw.clientOrderId, PROBE_PREFIX) && Construct(raw).Ok?
    ensures exists symbol, token :: IsEntryOf(raw, symbol, token) || IsExitOf(raw, symbol, token)
  {
    PrefixedAcceptance(raw);
    ProbeIsEntryOrExit(raw);
  }

  lemma ProbeIsEntryOrExit(raw: Raw)
    requires BoundedProbe(Read(raw))
    requires Read(raw).side == Some(Sell) ==> Positive(raw.qty.value)
    ensures exists symbol, token :: IsEntryOf(raw, symbol, token) || IsExitOf(raw, symbol, token)
  {
    var r := Read(raw);
    var symbol := NamedSymbol(r.symbol);
    var token := ProbeIdSplits(r.id, symbol, r.side.value);
    if r.side == Some(Buy) {
      assert IsEntryOf(raw, symbol, token);
    } else {
      assert IsExitOf(raw, symbol, token);
    }
  }

  // ---------------------------------------------------------------- normal form

  /** An accepted request written out again. */
  function AsRaw(q: Request): Raw {
    Raw(q.clientOrderId, q.symbol, SideWord(q.side), AssetClassWord(q.assetClass), q.qty, q.notional,
        OrderTypeWord(q.orderType), TimeInForceWord(q.timeInForce), q.limitPrice)
  }

  lemma FoldedWord(word: string)
    requires word != "" && forall i :: 0 <= i < |word| ==> 'a' <= word[i] <= 'z'
    ensures Folded(word) == word
  {
    assert Trimmed(word);
    StripTrims(word);
  }

  lemma SideReadsBack(side: Side)
    ensures SideOf(Folded(SideWord(side))) == Some(side)
  {
    FoldedWord(SideWord(side));
  }

  lemma AssetClassReadsBack(assetClass: AssetClass)
    ensures AssetClassOf(Folded(AssetClassWord(assetClass))) == Some(assetClass)
  {
    FoldedWord(AssetClassWord(assetClass));
  }

  lemma OrderTypeReadsBack(orderType: OrderType)
    ensures OrderTypeOf(Folded(OrderTypeWord(orderType))) == Some(orderType)
  {
    FoldedWord(OrderTypeWord(orderType));
  }

  lemma TimeInForceReadsBack(timeInForce: TimeInForce)
    ensures TimeInForceOf(Folded(TimeInForceWord(timeInForce))) == Some(timeInForce)
  {
    FoldedWord(TimeInForceWord(timeInForce));
  }

  lemma UpperKeepsTrimmed(t: string)
    requires Trimmed(t)
    ensures Trimmed(Upper(t)) && Upper(Upper(t)) == Upper(t)
  {
  }

  /** Reading an accepted request again changes nothing. */
  lemma ConstructIdempotent(raw: Raw)
    requires Construct(raw).Ok?
    ensures Construct(AsRaw(Construct(raw).value)) == Construct(raw)
  {
    ReadsBack(raw, Construct(raw).value);
  }

  lemma ReadsBack(raw: Raw, q: Request)
    requires Strip(raw.symbol) != "" && q == RequestOf(Read(raw), q.side, q.assetClass, q.orderType, q.timeInForce)
    requires Read(raw).side == Some(q.side) && Read(raw).assetClass == Some(q.assetClass)
    requires Read(raw).orderType == Some(q.orderType) && Read(raw).timeInForce == Some(q.timeInForce)
    ensures Read(AsRaw(q)) == Read(raw) && Strip(q.symbol) != ""
  {
    SideReadsBack(q.side);
    AssetClassReadsBack(q.assetClass);
    OrderTypeReadsBack(q.orderType);
    TimeInForceReadsBack(q.timeInForce);
    StripTrims(raw.symbol);
    UpperKeepsTrimmed(Strip(raw.symbol));
    StripTrims(Upper(Strip(raw.symbol)));
  }
}
