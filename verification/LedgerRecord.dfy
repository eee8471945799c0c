/**
 One record of the attempt ledger of the read-only network executor: the checks the validator makes
 on a line by itself, and the lines the writer produces.
 */
module LedgerRecord {
  import opened Wrappers
  import opened JsonValue
  import opened Text

  const RECORD_TYPE := "autonomy_network_execution_ledger_event"
  const SCHEMA_VERSION := 1
  const ACTION_TOKEN := "run_authorized_read_only_market_data_refresh_to_seed_soak"

  /** An interlock verdict: any JSON object. */
  type Verdict = map<string, Value>

  /** Python's comparison of two verdicts. */
  predicate SameVerdict(v: Verdict, w: Verdict) {
    JsonEquals(Dict(v), Dict(w))
  }

  /** A JSON object with exactly the expected ledger keys. */
  datatype Record = Record(
    recordType: Value,
    schemaVersion: Value,
    actionToken: Value,
    apply: Value,
    sessionAlreadyQualified: Value,
    sessionId: Value,
    asOf: Value,
    attemptNumber: Value,
    runId: Value,
    reservationId: Value,
    ledgerStatus: Value,
    exitCode: Value,
    adapterRefreshState: Value,
    networkAccessAttempted: Value,
    interlockVerdict: Value,
    credentialPresent: Value,
    refusalCategory: Value,
    attemptBudgetExhausted: Value,
    brokerAccessAttempted: Value,
    brokerMutationPerformed: Value,
    paperSubmitPerformed: Value,
    liveTradingPerformed: Value,
    liveAuthorized: Value,
    profitClaim: Value)

  /** One line of the ledger file. `Unreadable` stands for a blank or padded line, text that is not
      JSON, a value that is not an object, and an object with other keys. */
  datatype Line = Unreadable | Entry(record: Record)

  datatype Refusal =
    | BudgetExhausted
    | InterlockBlocked(blockedVerdict: Verdict)
    | TokenNotAvailable(tokenVerdict: Verdict)

  /** What a well-formed record says. */
  datatype Event =
    | Pending(session: string, asOf: string, attempt: nat, verdict: Verdict)
    | Completed(session: string, asOf: string, attempt: nat, verdict: Verdict, succeeded: bool, refreshState: string)
    | Refused(session: string, asOf: string, attempt: nat, refusal: Refusal)

  /** `network-<session_id>-<attempt_number>` */
  function RunId(session: string, attempt: nat): string {
    "network-" + session + "-" + Numeral(attempt)
  }

  function Id(e: Event): string {
    RunId(e.session, e.attempt)
  }

  lemma RunIdInjective(s1: string, n1: nat, s2: string, n2: nat)
    requires RunId(s1, n1) == RunId(s2, n2)
    ensures s1 == s2 && n1 == n2
  {
    assert RunId(s1, n1) == ("network-" + s1) + "-" + Numeral(n1);
    assert RunId(s2, n2) == ("network-" + s2) + "-" + Numeral(n2);
    HyphenNumeralInjective("network-" + s1, n1, "network-" + s2, n2);
    assert s1 == ("network-" + s1)[8..];
    assert s2 == ("network-" + s2)[8..];
  }

  // ---------------------------------------------------------------- one record

  predicate HeaderHolds(r: Record) {
    && r.recordType == Str(RECORD_TYPE)
    && EqualsInt(r.schemaVersion, SCHEMA_VERSION)
    && r.actionToken == Str(ACTION_TOKEN)
    && r.apply == Bool(true)
    && r.sessionAlreadyQualified == Bool(false)
    && r.brokerAccessAttempted == Bool(false)
    && r.brokerMutationPerformed == Bool(false)
    && r.paperSubmitPerformed == Bool(false)
    && r.liveTradingPerformed == Bool(false)
    && r.liveAuthorized == Bool(false)
    && r.profitClaim == Str("none")
  }

  predicate IdentityHolds(r: Record) {
    && r.sessionId.Str? && r.sessionId.text != ""
    && r.asOf.Str? && r.asOf.text != ""
    && r.attemptNumber.Int? && r.attemptNumber.n >= 1
    && r.runId == Str(RunId(r.sessionId.text, r.attemptNumber.n))
    && r.attemptBudgetExhausted.Bool?
  }

  predicate PendingFieldsHold(r: Record) {
    && r.reservationId == r.runId
    && r.exitCode == Null
    && r.adapterRefreshState == Null
    && r.networkAccessAttempted == Bool(false)
    && r.interlockVerdict.Dict?
    && r.credentialPresent == Bool(true)
    && r.refusalCategory == Null
    && r.attemptBudgetExhausted == Bool(false)
  }

  predicate CompletedFieldsHold(r: Record) {
    && r.reservationId == r.runId
    && (EqualsInt(r.exitCode, 0) || EqualsInt(r.exitCode, 1)) && !r.exitCode.Bool?
    && r.adapterRefreshState.Str? && r.adapterRefreshState.text != ""
    && r.networkAccessAttempted == Bool(true)
    && r.interlockVerdict.Dict?
    && r.credentialPresent == Bool(true)
    && r.refusalCategory == Null
    && r.attemptBudgetExhausted == Bool(false)
  }

  function RefusalOf(r: Record): Option<Refusal> {
    if || r.reservationId != Null
       || !EqualsInt(r.exitCode, 2) || r.exitCode.Bool?
       || r.adapterRefreshState != Null
       || r.networkAccessAttempted != Bool(false) then None
    else if r.refusalCategory == Str("session_attempt_budget_exhausted") then
      if r.interlockVerdict == Null && r.credentialPresent == Null && r.attemptBudgetExhausted == Bool(true)
      then Some(BudgetExhausted) else None
    else if r.refusalCategory == Str("live_capital_interlock_blocked") then
      if r.interlockVerdict.Dict? && r.credentialPresent == Null && r.attemptBudgetExhausted == Bool(false)
      then Some(InterlockBlocked(r.interlockVerdict.entries)) else None
    else if r.refusalCategory == Str("token_not_available") then
      if r.interlockVerdict.Dict? && r.credentialPresent == Bool(false) && r.attemptBudgetExhausted == Bool(false)
      then Some(TokenNotAvailable(r.interlockVerdict.entries)) else None
    else None
  }

  /** The per-record checks of the validator: the event a line states, or None when the line is corrupt. */
  function Decode(line: Line): Option<Event> {
    if line.Unreadable? then None
    else
      var r := line.record;
      if !HeaderHolds(r) || !IdentityHolds(r) then None
      else
        var session, asOf, attempt := r.sessionId.text, r.asOf.text, r.attemptNumber.n;
        if r.ledgerStatus == Str("pending") then
          if PendingFieldsHold(r) then Some(Pending(session, asOf, attempt, r.interlockVerdict.entries)) else None
        else if r.ledgerStatus == Str("completed") then
          if CompletedFieldsHold(r)
          then Some(Completed(session, asOf, attempt, r.interlockVerdict.entries,
                              EqualsInt(r.exitCode, 0), r.adapterRefreshState.text))
          else None
        else if r.ledgerStatus == Str("refused") then
          match RefusalOf(r)
          case None => None
          case Some(refusal) => Some(Refused(session, asOf, attempt, refusal))
        else None
  }

  // ---------------------------------------------------------------- the writer's records

  function OptionalStr(o: Option<string>): Value {
    match o
    case None => Null
    case Some(t) => Str(t)
  }

  function BaseEvent(session: string, asOf: string, attempt: nat, reservation: Option<string>, status: string,
                     exitCode: Value, refreshState: Option<string>, network: bool, verdict: Value,
                     credential: Value, refusal: Option<string>, exhausted: bool): Line
  {
    Entry(Record(
      Str(RECORD_TYPE), Int(SCHEMA_VERSION), Str(ACTION_TOKEN), Bool(true), Bool(false),
      Str(session), Str(asOf), Int(attempt), Str(RunId(session, attempt)), OptionalStr(reservation),
      Str(status), exitCode, OptionalStr(refreshState), Bool(network), verdict, credential,
      OptionalStr(refusal), Bool(exhausted),
      Bool(false), Bool(false), Bool(false), Bool(false), Bool(false), Str("none")))
  }

  /** The line the executor appends for each kind of event. */
  function Encode(e: Event): Line {
    match e
    case Pending(session, asOf, attempt, verdict) =>
      BaseEvent(session, asOf, attempt, Some(Id(e)), "pending", Null, None, false, Dict(verdict), Bool(true), None,
                false)
    case Completed(session, asOf, attempt, verdict, succeeded, refreshState) =>
      BaseEvent(session, asOf, attempt, Some(Id(e)), "completed", Int(if succeeded then 0 else 1), Some(refreshState),
                true, Dict(verdict), Bool(true), None, false)
    case Refused(session, asOf, attempt, BudgetExhausted) =>
      BaseEvent(session, asOf, attempt, None, "refused", Int(2), None, false, Null, Null,
                Some("session_attempt_budget_exhausted"), true)
    case Refused(session, asOf, attempt, InterlockBlocked(verdict)) =>
      BaseEvent(session, asOf, attempt, None, "refused", Int(2), None, false, Dict(verdict), Null,
                Some("live_capital_interlock_blocked"), false)
    case Refused(session, asOf, attempt, TokenNotAvailable(verdict)) =>
      BaseEvent(session, asOf, attempt, None, "refused", Int(2), None, false, Dict(verdict), Bool(false),
                Some("token_not_available"), false)
  }

  /** What the writer must guarantee about an event for its line to be readable back. */
  predicate Writable(e: Event) {
    e.session != "" && e.asOf != "" && e.attempt >= 1 && (e.Completed? ==> e.refreshState != "")
  }

  /** What the validator reads of an appended event: the event, or a corrupt line. */
  function Written(e: Event): Option<Event> {
    if Writable(e) then Some(e) else None
  }

  lemma WrittenIdentity(e: Event)
    ensures HeaderHolds(Encode(e).record)
    ensures IdentityHolds(Encode(e).record) <==> e.session != "" && e.asOf != "" && e.attempt >= 1
  {
  }

  lemma WrittenFields(e: Event)
    ensures var r := Encode(e).record;
            match e
            case Pending(_, _, _, _) => PendingFieldsHold(r)
            case Completed(_, _, _, _, _, refreshState) => CompletedFieldsHold(r) <==> refreshState != ""
            case Refused(_, _, _, refusal) => RefusalOf(r) == Some(refusal)
  {
  }

  /** Writing then validating one line loses nothing, and only writable events have valid lines. */
  lemma WriterRoundTrip(e: Event)
    ensures Decode(Encode(e)) == Written(e)
  {
    WrittenIdentity(e);
    WrittenFields(e);
  }

  // ---------------------------------------------------------------- which lines are read

  /** The record is the written one, except that its two numbers may be spelled otherwise; an exit code is
      no boolean, though. */
  predicate Respells(r: Record, written: Record) {
    && r == written.(schemaVersion := r.schemaVersion, exitCode := r.exitCode)
    && JsonEquals(r.schemaVersion, written.schemaVersion)
    && JsonEquals(r.exitCode, written.exitCode) && !r.exitCode.Bool?
  }

  lemma DecodedRespells(r: Record, e: Event)
    requires Decode(Entry(r)) == Some(e)
    ensures Writable(e) && Respells(r, Encode(e).record)
  {
    match e {
      case Pending(_, _, _, _) =>
      case Completed(_, _, _, _, _, _) =>
      case Refused(_, _, _, BudgetExhausted) =>
      case Refused(_, _, _, InterlockBlocked(_)) =>
      case Refused(_, _, _, TokenNotAvailable(_)) =>
    }
  }

  lemma RespelledDecodes(r: Record, e: Event)
    requires Writable(e) && Respells(r, Encode(e).record)
    ensures Decode(Entry(r)) == Some(e)
  {
    WrittenIdentity(e);
    WrittenFields(e);
  }

  /** The line check lets through nothing but what the writer writes: a line states an event exactly when
      the writer may write that event, and the line is the writer's own up to the spelling of its numbers. */
  lemma DecodesIff(line: Line, e: Event)
    ensures Decode(line) == Some(e) <==>
              line.Entry? && Writable(e) && Respells(line.record, Encode(e).record)
  {
    if line.Entry? && Decode(line) == Some(e) {
      DecodedRespells(line.record, e);
    }
    if line.Entry? && Writable(e) && Respells(line.record, Encode(e).record) {
      RespelledDecodes(line.record, e);
    }
  }

  /** No accepted line claims anything but a read: no broker, no order, no live trading and no profit. */
  lemma AcceptedLinesClaimNothing(line: Line)
    requires Decode(line).Some?
    ensures var r := line.record;
            && r.recordType == Str("autonomy_network_execution_ledger_event") && EqualsInt(r.schemaVersion, 1)
            && r.actionToken == Str("run_authorized_read_only_market_data_refresh_to_seed_soak")
            && r.apply == Bool(true) && r.sessionAlreadyQualified == Bool(false)
            && r.brokerAccessAttempted == r.brokerMutationPerformed == r.paperSubmitPerformed == Bool(false)
            && r.liveTradingPerformed == r.liveAuthorized == Bool(false) && r.profitClaim == Str("none")
            && (r.networkAccessAttempted == Bool(true) <==> Decode(line).value.Completed?)
  {
    DecodesIff(line, Decode(line).value);
  }

  /** A reservation id on a valid line is the run id of that line's session and attempt. */
  lemma ReservationIdOf(line: Line, e: Event)
    requires Decode(line) == Some(e)
    ensures line.record.reservationId == if e.Refused? then Null else Str(Id(e))
  {
  }
}
