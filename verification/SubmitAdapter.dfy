/**
 The adapter in front of the paper broker client: risk verdicts, generated order ids, and at most
 one submission per client order id.
 */
module SubmitAdapter {
  import opened Wrappers
  import opened Text
  import opened Gates
  import OrderGate
  import OrderAnswers

  datatype Verdict = Verdict(allowed: bool, reason: string)

  /** What the injected client does with a submission. A client without `submit_order` is never called;
      one that is called may raise. */
  datatype Answer = NoSuchMethod | Fails | Replies(accepted: bool)

  datatype Outcome =
    | ApprovalRequired
    | RiskRejected(reason: string)
    | DuplicateOrderId
    | RequestRefused(error: OrderGate.GateError)
    | AdapterRaised
    | BrokerResult(accepted: bool)

  datatype Sent = Sent(request: OrderGate.Request, verdict: Option<Verdict>)

  /** The adapter's two fields and, for the record, what it has sent. */
  datatype State = State(next: nat, seen: set<string>, sent: seq<Sent>)

  const INITIAL := State(1, {}, [])

  type Gate = OrderGate.Raw -> Result<OrderGate.Request, OrderGate.GateError>

  /** The adapter's settings. `gate` is the constructor of requests: `OrderGate.Construct` in the
      source, and a parameter here so that each result says what it needs of it. */
  datatype Config = Config(requireApproval: bool, prefix: string, gate: Gate)

  ghost predicate KeepsIds(gate: Gate) {
    forall raw :: gate(raw).Ok? ==> gate(raw).value.clientOrderId == raw.clientOrderId
  }

  ghost predicate IsOrderGate(gate: Gate) {
    forall raw :: gate(raw) == OrderGate.Construct(raw)
  }

  lemma OrderGateKeepsIds(gate: Gate)
    requires IsOrderGate(gate)
    ensures KeepsIds(gate)
  {
    forall raw
      ensures gate(raw).Ok? ==> gate(raw).value.clientOrderId == raw.clientOrderId
    {
      OrderGate.KeepsId(raw);
    }
  }

  datatype Order = Order(symbol: string, side: OrderGate.Side, orderType: OrderGate.OrderType,
                         quantity: OrderGate.Decimal, limitPrice: Option<OrderGate.Decimal>)

  // ---------------------------------------------------------------- one call

  function VerdictBlock(config: Config, verdict: Option<Verdict>): Option<Outcome> {
    match verdict
    case None => if config.requireApproval then Some(ApprovalRequired) else None
    case Some(v) =>
      if v.allowed then None else Some(RiskRejected(if v.reason != "" then v.reason else "risk_rejected"))
  }

  /** `submit_order_request` */
  function SubmitRequest(config: Config, s: State, request: OrderGate.Request, verdict: Option<Verdict>,
                         answer: Answer): (State, Outcome)
  {
    var block := VerdictBlock(config, verdict);
    if block.Some? then (s, block.value)
    else if request.clientOrderId in s.seen then (s, DuplicateOrderId)
    else
      var marked := s.(seen := s.seen + {request.clientOrderId});
      match answer
      case NoSuchMethod => (marked, AdapterRaised)
      case Fails => (marked.(sent := s.sent + [Sent(request, verdict)]), AdapterRaised)
      case Replies(accepted) => (marked.(sent := s.sent + [Sent(request, verdict)]), BrokerResult(accepted))
  }

  function GeneratedId(config: Config, n: nat): string {
    config.prefix + "-" + Numeral(n)
  }

  /** An absent and an empty order id both ask for a generated one. */
  predicate WantsGenerated(orderId: Option<string>) {
    orderId == None || orderId == Some("")
  }

  function RawOf(order: Order, id: string): OrderGate.Raw {
    OrderGate.Raw(id, order.symbol, OrderGate.SideWord(order.side), "equity", Some(order.quantity), None,
                  OrderGate.OrderTypeWord(order.orderType), "day", order.limitPrice)
  }

  /** `submit_order`. A generated number is used up even when the request is then refused. */
  function SubmitOrder(config: Config, s: State, order: Order, orderId: Option<string>, verdict: Option<Verdict>,
                       answer: Answer): (State, Outcome)
  {
    var block := VerdictBlock(config, verdict);
    if block.Some? then (s, block.value)
    else
      var generated := WantsGenerated(orderId);
      var id := if generated then GeneratedId(config, s.next) else orderId.value;
      var numbered := if generated then s.(next := s.next + 1) else s;
      SubmitBuilt(config, numbered, config.gate(RawOf(order, id)), verdict, answer)
  }

  function SubmitBuilt(config: Config, s: State, built: Result<OrderGate.Request, OrderGate.GateError>,
                       verdict: Option<Verdict>, answer: Answer): (State, Outcome) {
    match built
    case Err(error) => (s, RequestRefused(error))
    case Ok(request) => SubmitRequest(config, s, request, verdict, answer)
  }

  // ---------------------------------------------------------------- what a proposal comes to

  /** The request an order asks for: its own symbol, side, quantity, type and limit price, as an equity order
      for the day. */
  function RequestFor(order: Order, id: string): OrderGate.Request {
    OrderGate.Request(id, Upper(Strip(order.symbol)), order.side, OrderGate.Equity, Some(order.quantity), None,
                      order.orderType, OrderGate.Day, order.limitPrice)
  }

  predicate IsSpyClose(symbol: string, id: string) {
    symbol == "SPY"
    && (id == "paper-order-close-m355_spy_paper_close_submit" || "pa-v207-spy-close-" <= id)
  }

  predicate IsSpyLimit(symbol: string, order: Order, id: string) {
    && symbol == "SPY" && order.orderType.Limit? && order.limitPrice != None
    && (id == "paper-certification-v189-spy-sell-limit" || "v31-spy-drill-" <= id)
  }

  /** Why an order is refused: the only sales are of SPY under a special id, and so are the only limits. */
  ghost function OrderFault(order: Order, id: string): Option<OrderGate.GateError> {
    var symbol := Upper(Strip(order.symbol));
    Require(!Blank(id), OrderGate.MissingClientOrderId,
    Require(!Blank(order.symbol), OrderGate.MissingSymbol,
    Require(!("v530-bounded-probe-" <= id), OrderGate.ProbeShapeDrifted,
    Require(order.side.Buy? || IsSpyClose(symbol, id) || IsSpyLimit(symbol, order, id), OrderGate.SellRestricted,
    Require(order.orderType.Market? || IsSpyLimit(symbol, order, id), OrderGate.LimitRestricted,
    Require(order.orderType.Limit? || order.limitPrice == None, OrderGate.MarketWithLimitPrice,
            Then(OrderAnswers.AmountFault(Some(order.quantity)), OrderAnswers.AmountFault(order.limitPrice))))))))
  }

  lemma RawWords(order: Order, id: string)
    ensures OrderAnswers.WordsOf(RawOf(order, id))
         == OrderAnswers.Words(OrderGate.SideWord(order.side), "equity", OrderGate.OrderTypeWord(order.orderType),
                               "day", Upper(Strip(order.symbol)))
  {
    OrderGate.FoldedWord(OrderGate.SideWord(order.side));
    OrderGate.FoldedWord("equity");
    OrderGate.FoldedWord(OrderGate.OrderTypeWord(order.orderType));
    OrderGate.FoldedWord("day");
  }

  lemma RawShapes(order: Order, id: string)
    ensures var raw, symbol := RawOf(order, id), Upper(Strip(order.symbol));
            && (OrderAnswers.CertifiesSpy(raw) <==> IsSpyLimit(symbol, order, id))
            && (OrderAnswers.ClosesSpy(raw) <==> IsSpyClose(symbol, id))
            && !OrderAnswers.DrillsBtc(raw) && !OrderAnswers.Probes(raw)
  {
    RawWords(order, id);
  }

  lemma RawFault(order: Order, id: string)
    ensures OrderAnswers.GateFault(RawOf(order, id)) == OrderFault(order, id)
  {
    RawShapes(order, id);
    RawWords(order, id);
  }

  lemma FulfilsOrder(request: OrderGate.Request, order: Order, id: string)
    requires OrderAnswers.Fulfils(request, RawOf(order, id))
    ensures request == RequestFor(order, id)
  {
    RawWords(order, id);
  }

  /** What the gate makes of an order. */
  lemma BuiltMeans(gate: Gate, order: Order, id: string)
    requires IsOrderGate(gate)
    ensures gate(RawOf(order, id)) == match OrderFault(order, id)
                                      case Some(error) => Err(error)
                                      case None => Ok(RequestFor(order, id))
  {
    OrderAnswers.ConstructMeans(RawOf(order, id));
    RawFault(order, id);
    BuiltAs(gate(RawOf(order, id)), OrderFault(order, id), order, id);
  }

  lemma BuiltAs(built: Result<OrderGate.Request, OrderGate.GateError>, fault: Option<OrderGate.GateError>,
                order: Order, id: string)
    requires match fault
             case Some(error) => built == Err(error)
             case None => built.Ok? && OrderAnswers.Fulfils(built.value, RawOf(order, id))
    ensures built == match fault
                     case Some(error) => Err(error)
                     case None => Ok(RequestFor(order, id))
  {
    if fault == None {
      FulfilsOrder(built.value, order, id);
    }
  }

  /** The id an order goes out under. */
  function IdFor(config: Config, next: nat, orderId: Option<string>): string {
    if orderId.Some? && orderId.value != "" then orderId.value else config.prefix + "-" + Numeral(next)
  }

  /** What a proposal does: nothing without approval; else it takes an id, and is refused, a duplicate, or
      sent as the request the order asks for. */
  ghost predicate Proposes(config: Config, s: State, order: Order, orderId: Option<string>, verdict: Option<Verdict>,
                           answer: Answer, after: State, outcome: Outcome)
  {
    var id := IdFor(config, s.next, orderId);
    var numbered := s.(next := if orderId.Some? && orderId.value != "" then s.next else s.next + 1);
    if verdict == None && config.requireApproval then after == s && outcome == ApprovalRequired
    else if verdict.Some? && !verdict.value.allowed then
      && after == s
      && outcome == RiskRejected(if verdict.value.reason == "" then "risk_rejected" else verdict.value.reason)
    else if OrderFault(order, id).Some? then
      after == numbered && outcome == RequestRefused(OrderFault(order, id).value)
    else if id in s.seen then after == numbered && outcome == DuplicateOrderId
    else
      && after.next == numbered.next && after.seen == s.seen + {id}
      && after.sent == s.sent + (if answer.NoSuchMethod? then [] else [Sent(RequestFor(order, id), verdict)])
      && outcome == if answer.Replies? then BrokerResult(answer.accepted) else AdapterRaised
  }

  lemma SubmitOrderMeans(config: Config, s: State, order: Order, orderId: Option<string>, verdict: Option<Verdict>,
                         answer: Answer)
    requires IsOrderGate(config.gate)
    ensures var r := SubmitOrder(config, s, order, orderId, verdict, answer);
            Proposes(config, s, order, orderId, verdict, answer, r.0, r.1)
  {
    BuiltMeans(config.gate, order, IdFor(config, s.next, orderId));
  }

  class Adapter {
    const config: Config
    var nextOrderNumber: nat
    var seenOrderIds: set<string>
    ghost var sent: seq<Sent>

    ghost function Contents(): State
      reads this
    {
      State(nextOrderNumber, seenOrderIds, sent)
    }

    constructor (config: Config)
      ensures this.config == config && Contents() == INITIAL
    {
      this.config := config;
      nextOrderNumber, seenOrderIds, sent := 1, {}, [];
    }

    method NextOrderId() returns (id: string)
      modifies `nextOrderNumber
      ensures id == GeneratedId(config, old(nextOrderNumber)) && nextOrderNumber == old(nextOrderNumber) + 1
    {
      id := config.prefix + "-" + Numeral(nextOrderNumber);
      nextOrderNumber := nextOrderNumber + 1;
    }

    method Submit(request: OrderGate.Request, verdict: Option<Verdict>, answer: Answer) returns (outcome: Outcome)
      modifies this
      ensures (Contents(), outcome) == SubmitRequest(config, old(Contents()), request, verdict, answer)
    {
      if config.requireApproval && verdict == None {
        return ApprovalRequired;
      }
      if verdict.Some? && !verdict.value.allowed {
        return RiskRejected(if verdict.value.reason != "" then verdict.value.reason else "risk_rejected");
      }
      if request.clientOrderId in seenOrderIds {
        return DuplicateOrderId;
      }
      seenOrderIds := seenOrderIds + {request.clientOrderId};
      if answer == NoSuchMethod {
        return AdapterRaised;
      }
      sent := sent + [Sent(request, verdict)];
      outcome := if answer.Fails? then AdapterRaised else BrokerResult(answer.accepted);
    }

    method Propose(order: Order, orderId: Option<string>, verdict: Option<Verdict>, answer: Answer)
      returns (outcome: Outcome)
      modifies this
      ensures (Contents(), outcome) == SubmitOrder(config, old(Contents()), order, orderId, verdict, answer)
    {
      if config.requireApproval && verdict == None {
        return ApprovalRequired;
      }
      if verdict.Some? && !verdict.value.allowed {
        return RiskRejected(if verdict.value.reason != "" then verdict.value.reason else "risk_rejected");
      }
      var id;
      if orderId.Some? && orderId.value != "" {
        id := orderId.value;
      } else {
        id := NextOrderId();
      }
      outcome := SubmitOrRefuse(config.gate(RawOf(order, id)), verdict, answer);
    }

    method SubmitOrRefuse(built: Result<OrderGate.Request, OrderGate.GateError>, verdict: Option<Verdict>,
                          answer: Answer)
      returns (outcome: Outcome)
      modifies this
      ensures (Contents(), outcome) == SubmitBuilt(config, old(Contents()), built, verdict, answer)
    {
      if built.Err? {
        return RequestRefused(built.error);
      }
      outcome := Submit(built.value, verdict, answer);
    }
  }

  // ---------------------------------------------------------------- runs

  datatype Call =
    | CallRequest(request: OrderGate.Request, verdict: Option<Verdict>, answer: Answer)
    | CallOrder(order: Order, orderId: Option<string>, verdict: Option<Verdict>, answer: Answer)

  function Step(config: Config, s: State, call: Call): (State, Outcome) {
    match call
    case CallRequest(request, verdict, answer) => SubmitRequest(config, s, request, verdict, answer)
    case CallOrder(order, orderId, verdict, answer) => SubmitOrder(config, s, order, orderId, verdict, answer)
  }

  function Run(config: Config, calls: seq<Call>): State {
    if calls == [] then INITIAL else Step(config, Run(config, calls[..|calls| - 1]), calls[|calls| - 1]).0
  }

  function SentId(s: Sent): string {
    s.request.clientOrderId
  }

  predicate Approved(config: Config, verdict: Option<Verdict>) {
    match verdict
    case None => !config.requireApproval
    case Some(v) => v.allowed
  }

  /** What holds of the adapter at every moment. */
  ghost predicate Safe(config: Config, s: State) {
    && (forall i, j :: 0 <= i < j < |s.sent| ==> SentId(s.sent[i]) != SentId(s.sent[j]))
    && (forall i :: 0 <= i < |s.sent| ==> SentId(s.sent[i]) in s.seen)
    && (forall i :: 0 <= i < |s.sent| ==> Approved(config, s.sent[i].verdict))
  }

  lemma SubmitRequestIsSafe(config: Config, s: State, request: OrderGate.Request, verdict: Option<Verdict>,
                            answer: Answer)
    requires Safe(config, s)
    ensures Safe(config, SubmitRequest(config, s, request, verdict, answer).0)
    ensures s.sent <= SubmitRequest(config, s, request, verdict, answer).0.sent
    ensures s.seen <= SubmitRequest(config, s, request, verdict, answer).0.seen
  {
  }

  /** Over any sequence of calls, with any client: no client order id is sent twice, and everything
      sent had an approving verdict, or none where none is required. */
  lemma {:induction false} RunIsSafe(config: Config, calls: seq<Call>)
    ensures Safe(config, Run(config, calls))
  {
    if calls != [] {
      var n := |calls| - 1;
      RunIsSafe(config, calls[..n]);
      var s := Run(config, calls[..n]);
      match calls[n] {
        case CallRequest(request, verdict, answer) => SubmitRequestIsSafe(config, s, request, verdict, answer);
        case CallOrder(order, orderId, verdict, answer) =>
          SubmitOrderIsSafe(config, s, order, orderId, verdict, answer);
      }
    }
  }

  lemma SubmitBuiltIsSafe(config: Config, s: State, built: Result<OrderGate.Request, OrderGate.GateError>,
                          verdict: Option<Verdict>, answer: Answer)
    requires Safe(config, s)
    ensures Safe(config, SubmitBuilt(config, s, built, verdict, answer).0)
  {
    if built.Ok? {
      SubmitRequestIsSafe(config, s, built.value, verdict, answer);
    }
  }

  lemma SubmitOrderIsSafe(config: Config, s: State, order: Order, orderId: Option<string>, verdict: Option<Verdict>,
                          answer: Answer)
    requires Safe(config, s)
    ensures Safe(config, SubmitOrder(config, s, order, orderId, verdict, answer).0)
  {
    var generated := WantsGenerated(orderId);
    var id := if generated then GeneratedId(config, s.next) else orderId.value;
    var numbered := if generated then s.(next := s.next + 1) else s;
    SubmitBuiltIsSafe(config, numbered, config.gate(RawOf(order, id)), verdict, answer);
  }

  // ---------------------------------------------------------------- generated ids

  /** The id a caller chose itself. */
  function ChosenId(call: Call): Option<string> {
    match call
    case CallRequest(request, _, _) => Some(request.clientOrderId)
    case CallOrder(_, orderId, _, _) => if WantsGenerated(orderId) then None else orderId
  }

  ghost predicate WasChosen(calls: seq<Call>, id: string) {
    exists i :: 0 <= i < |calls| && ChosenId(calls[i]) == Some(id)
  }

  ghost predicate WasGenerated(config: Config, s: State, id: string) {
    exists n: nat :: n < s.next && id == GeneratedId(config, n)
  }

  lemma GeneratedIdsDiffer(config: Config, m: nat, n: nat)
    requires GeneratedId(config, m) == GeneratedId(config, n)
    ensures m == n
  {
    HyphenNumeralInjective(config.prefix, m, config.prefix, n);
  }

  lemma SubmitBuiltSees(config: Config, s: State, built: Result<OrderGate.Request, OrderGate.GateError>,
                        verdict: Option<Verdict>, answer: Answer, id: string)
    ensures var after := SubmitBuilt(config, s, built, verdict, answer).0;
            && after.next == s.next
            && (id in after.seen ==> id in s.seen || (built.Ok? && built.value.clientOrderId == id))
  {
  }

  lemma SubmitOrderSees(config: Config, s: State, order: Order, orderId: Option<string>, verdict: Option<Verdict>,
                        answer: Answer, id: string)
    requires KeepsIds(config.gate)
    ensures var after := SubmitOrder(config, s, order, orderId, verdict, answer).0;
            && s.next <= after.next
            && (id in after.seen ==>
                  || id in s.seen
                  || (!WantsGenerated(orderId) && orderId == Some(id))
                  || (id == GeneratedId(config, s.next) && after.next == s.next + 1))
  {
    var generated := WantsGenerated(orderId);
    var used := if generated then GeneratedId(config, s.next) else orderId.value;
    var numbered := if generated then s.(next := s.next + 1) else s;
    SubmitBuiltSees(config, numbered, config.gate(RawOf(order, used)), verdict, answer, id);
  }

  lemma StepSees(config: Config, s: State, call: Call, id: string)
    requires KeepsIds(config.gate)
    ensures var after := Step(config, s, call).0;
            && s.next <= after.next
            && (id in after.seen ==>
                  || id in s.seen || ChosenId(call) == Some(id)
                  || (id == GeneratedId(config, s.next) && after.next == s.next + 1))
  {
    match call {
      case CallRequest(request, verdict, answer) =>
      case CallOrder(order, orderId, verdict, answer) =>
        SubmitOrderSees(config, s, order, orderId, verdict, answer, id);
    }
  }

  lemma {:induction false} SeenComesFrom(config: Config, calls: seq<Call>, id: string)
    requires KeepsIds(config.gate) && id in Run(config, calls).seen
    ensures WasChosen(calls, id) || WasGenerated(config, Run(config, calls), id)
  {
    if calls != [] {
      var n := |calls| - 1;
      var s := Run(config, calls[..n]);
      StepSees(config, s, calls[n], id);
      if id in s.seen {
        SeenComesFrom(config, calls[..n], id);
        if WasChosen(calls[..n], id) {
          var i :| 0 <= i < n && ChosenId(calls[..n][i]) == Some(id);
          assert calls[i] == calls[..n][i];
        }
      } else if ChosenId(calls[n]) == Some(id) {
        assert WasChosen(calls, id);
      }
    }
  }

  /** A generated id is refused as a duplicate only when some earlier call chose exactly that id. */
  lemma GeneratedIdIsFresh(config: Config, calls: seq<Call>)
    requires KeepsIds(config.gate)
    ensures var s := Run(config, calls);
            GeneratedId(config, s.next) in s.seen ==> WasChosen(calls, GeneratedId(config, s.next))
  {
    var s := Run(config, calls);
    var id := GeneratedId(config, s.next);
    if id in s.seen && !WasChosen(calls, id) {
      SeenComesFrom(config, calls, id);
      var n: nat :| n < s.next && id == GeneratedId(config, n);
      GeneratedIdsDiffer(config, n, s.next);
    }
  }

  // ---------------------------------------------------------------- the order gate in between

  predicate AvoidsProbeIds(request: OrderGate.Request) {
    OrderGate.Sound(request) && !StartsWith(request.clientOrderId, OrderGate.PROBE_PREFIX)
  }

  lemma SubmitBuiltSends(config: Config, s: State, built: Result<OrderGate.Request, OrderGate.GateError>,
                         verdict: Option<Verdict>, answer: Answer)
    ensures var after := SubmitBuilt(config, s, built, verdict, answer).0;
            after.sent == s.sent || (built.Ok? && after.sent == s.sent + [Sent(built.value, verdict)])
  {
  }

  /** `submit_order` builds equity day orders, so no order it passes on carries a bounded-probe id. */
  lemma ProposedOrdersAvoidProbeIds(config: Config, s: State, order: Order, orderId: Option<string>,
                                    verdict: Option<Verdict>, answer: Answer)
    requires IsOrderGate(config.gate)
    ensures var after := SubmitOrder(config, s, order, orderId, verdict, answer).0;
            after.sent == s.sent
            || exists request :: after.sent == s.sent + [Sent(request, verdict)] && AvoidsProbeIds(request)
  {
    var generated := WantsGenerated(orderId);
    var id := if generated then GeneratedId(config, s.next) else orderId.value;
    var numbered := if generated then s.(next := s.next + 1) else s;
    var built := config.gate(RawOf(order, id));
    SubmitBuiltSends(config, numbered, built, verdict, answer);
    if built.Ok? {
      GatedEquity(config.gate, order, id);
    }
  }

  lemma GatedEquity(gate: Gate, order: Order, id: string)
    requires IsOrderGate(gate) && gate(RawOf(order, id)).Ok?
    ensures AvoidsProbeIds(gate(RawOf(order, id)).value)
  {
    OrderGate.AcceptedIsSound(RawOf(order, id));
    OrderGate.KeepsId(RawOf(order, id));
    EquityIsNoProbe(order, id);
  }

  lemma EquityIsNoProbe(order: Order, id: string)
    requires OrderGate.Construct(RawOf(order, id)).Ok?
    ensures !StartsWith(id, OrderGate.PROBE_PREFIX)
  {
    if StartsWith(id, OrderGate.PROBE_PREFIX) {
      OrderGate.PrefixedAcceptance(RawOf(order, id));
      OrderGate.AssetClassReadsBack(OrderGate.Equity);
    }
  }
}
