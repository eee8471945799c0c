/**
 The documents a bounded-probe lifecycle plan binds, and the checks they must pass.
 */
module LifecycleBindings {
  import opened Wrappers
  import opened JsonValue
  import opened Text
  import opened OrderGate

  // ---------------------------------------------------------------- documents

  /** A JSON object: empty, with exactly the expected keys, or with other keys. */
  datatype Doc<T> = Empty | Exactly(value: T) | OtherKeys(json: string)

  /** A decimal in a document: its JSON text, and its value if `Decimal(str(...))` is finite. */
  datatype Quantity = Quantity(json: string, value: Option<real>)

  /** `parameters` stands for the three parameter objects. */
  datatype Candidate = Candidate(
    id: string, symbol: string, strategyId: Field, family: Field, parameters: string, parametersAreObjects: bool,
    direction: string, signalExecution: string, transitionPolicy: string, factoryVersion: Field, fingerprint: Field)

  /** `digests` are the six digest fields, in the order they are checked. */
  datatype Terminal = Terminal(
    selectedSymbol: string, candidate: Doc<Candidate>, classification: string, digests: seq<Field>, closedAt: string)

  /** `other` stands for the fields nothing checks. */
  datatype Orderability = Orderability(
    symbol: string, assetClass: string, sourceMode: string, brokerStateMode: string, tradable: bool, status: string,
    metadataStatus: string, metadataBlockers: seq<string>, orderabilityStatus: string,
    orderabilityBlockers: seq<string>,
    basis: string, minNotional: Quantity, minOrderSize: Quantity, minTradeIncrement: Quantity, other: string)

  /** `sourceDigests` are the digests of the eight source roles. */
  datatype Venue = Venue(
    targetSymbol: string, observedAt: string, bundleFingerprint: Field, sourceDigests: seq<Field>,
    record: Doc<Orderability>)

  datatype Safety = Safety(policyFingerprint: string, digests: seq<Field>, certifiedAt: string)

  datatype Account = Account(
    schema: string, broker: string, environment: string, namespace: string, algorithm: string, fingerprint: Field,
    configured: bool, matched: bool)

  // ---------------------------------------------------------------- the environment

  /** The fixed words of the contract. No result depends on what they are. */
  datatype Contract = Contract(
    planSchema: string, planRecordType: string, safetyPolicy: string, notional: string, timeInForce: string,
    profitClaim: string, dormantBlockers: seq<string>, assetClass: string, environment: string,
    candidatePrefix: string, direction: string, signalExecution: string, transitionPolicy: string,
    terminalClassification: string, sourceMode: string, brokerStateMode: string, status: string, metadataStatus: string,
    orderabilityStatus: string, orderabilityBasis: string,
    accountSchema: string, broker: string, namespaces: set<string>, algorithm: string)

  const V530 := Contract(
    "v5_30_crypto_tournament_v2_bounded_paper_probe_lifecycle_plan_v2",
    "crypto_tournament_v2_bounded_paper_probe_lifecycle_plan",
    "c0abbc047f7bdf01f19d46e06d3824acd980016b4bd992d78dd4994db6d2c407",
    "10", "gtc", "none", ["v5_25_terminal_winner_not_available"], "crypto", "alpaca_paper",
    "crypto:tournament_v2:", "long_or_cash", "one_bar_lag", "hold_prior_target_no_transition",
    "evidence_complete_for_bounded_paper_probe_review", "paper_read_only", "alpaca_paper_observed", "active",
    "metadata_observed", "notional_orderable", "broker_notional_and_qty_metadata",
    "v5_27_alpaca_paper_account_binding_v1", "alpaca", {"alpaca_account_id", "alpaca_account_number"}, "sha256")

  /** Timestamps: `utc_datetime` on a text, and `isoformat` of a UTC instant, in microseconds since the
      first one a `datetime` can hold. */
  datatype Clock = Clock(read: string -> Option<int>, iso: int -> string)

  /** 9999-12-31T23:59:59.999999 */
  const LAST_INSTANT := 315_537_897_599_999_999

  predicate IsInstant(t: int) {
    0 <= t <= LAST_INSTANT
  }

  /** Texts read as instants, and every instant prints as a text that reads as it. */
  ghost predicate ClockReads(clock: Clock) {
    && (forall text :: clock.read(text).Some? ==> IsInstant(clock.read(text).value))
    && (forall t :: 0 <= t <= LAST_INSTANT ==> clock.read(clock.iso(t)) == Some(t))
  }

  const HOUR := 3_600_000_000

  predicate IsDigest(d: string) {
    |d| == 64 && forall i :: 0 <= i < |d| ==> IsHexDigit(d[i])
  }

  /** `_sha256`: a digest in any case and with any outer whitespace, or a number that reads as one. */
  function Digest(f: Field): Option<string> {
    if IsDigest(Folded(Shown(f))) then Some(Folded(Shown(f))) else None
  }

  predicate AllDigests(fields: seq<Field>) {
    forall i :: 0 <= i < |fields| ==> Digest(fields[i]).Some?
  }

  lemma DigestIsItself(d: string)
    requires IsDigest(d)
    ensures Folded(d) == d && Digest(Quoted(d)) == Some(d)
  {
    assert !IsSpace(d[0]) && !IsSpace(d[63]);
    StripTrims(d);
    assert Lower(d) == d;
  }

  /** `_canonical_time`: the text is what its own instant prints as. */
  function CanonicalTime(clock: Clock, text: string): Option<int> {
    match clock.read(text)
    case None => None
    case Some(t) => if clock.iso(t) == text then Some(t) else None
  }

  // ---------------------------------------------------------------- checks

  datatype BindingError =
    | AccountInvalid | TerminalKeys | CandidateDrift | TerminalIdentity | TerminalDigest | TerminalTime
    | VenueKeys | VenueTime | VenueSymbol | VenueDigest | OrderabilityDrift
    | SafetyKeys | SafetyPolicy | SafetyDigest | SafetyTime

  function AccountError(k: Contract, account: Doc<Account>): Option<BindingError> {
    match account
    case Exactly(a) =>
      if && a.schema == k.accountSchema && a.broker == k.broker && a.environment == k.environment
         && a.namespace in k.namespaces && a.algorithm == k.algorithm && IsDigest(Shown(a.fingerprint)) && a.configured
         && a.matched
      then None else Some(AccountInvalid)
    case _ => Some(AccountInvalid)
  }

  predicate CandidateFits(k: Contract, hash: Candidate -> string, symbol: string, candidate: Doc<Candidate>) {
    && candidate.Exactly?
    && var c := candidate.value;
       var strategy := Strip(Shown(c.strategyId));
       && Digest(c.fingerprint).Some?
       && c.symbol == symbol && strategy != "" && c.id == k.candidatePrefix + symbol + ":" + strategy
       && Strip(Shown(c.family)) != "" && c.direction == k.direction && c.signalExecution == k.signalExecution
       && c.transitionPolicy == k.transitionPolicy && Strip(Shown(c.factoryVersion)) != "" && c.parametersAreObjects
       && Digest(c.fingerprint).value == hash(c.(fingerprint := Quoted("")))
  }

  function TerminalError(k: Contract, hash: Candidate -> string, clock: Clock, symbol: string, terminal: Doc<Terminal>,
                         asOf: int): Option<BindingError>
  {
    match terminal
    case Exactly(t) =>
      if |t.digests| != 6 then Some(TerminalKeys)
      else if !CandidateFits(k, hash, symbol, t.candidate) then Some(CandidateDrift)
      else if t.selectedSymbol != symbol || t.classification != k.terminalClassification then Some(TerminalIdentity)
      else if !AllDigests(t.digests) then Some(TerminalDigest)
      else
        (match CanonicalTime(clock, t.closedAt)
         case None => Some(TerminalTime)
         case Some(at) => if at > asOf then Some(TerminalTime) else None)
    case _ => Some(TerminalKeys)
  }

  predicate Above(q: Quantity, bound: real) {
    q.value.Some? && q.value.value > bound
  }

  predicate OrderabilityFits(k: Contract, symbol: string, record: Doc<Orderability>) {
    && record.Exactly?
    && var r := record.value;
       && r.symbol == symbol && r.assetClass == k.assetClass && r.sourceMode == k.sourceMode
       && r.brokerStateMode == k.brokerStateMode && r.tradable && r.status == k.status
       && r.metadataStatus == k.metadataStatus && r.metadataBlockers == []
       && r.orderabilityStatus == k.orderabilityStatus && r.orderabilityBlockers == [] && r.basis == k.orderabilityBasis
       && Above(r.minNotional, 0.0) && r.minNotional.value.value <= 10.0
       && Above(r.minOrderSize, 0.0) && Above(r.minTradeIncrement, 0.0)
  }

  /** No later than the plan, and at most `hours` before it. */
  predicate Within(at: int, asOf: int, hours: int) {
    at <= asOf && asOf - at <= hours * HOUR
  }

  function VenueError(k: Contract, clock: Clock, symbol: string, venue: Doc<Venue>, asOf: int): Option<BindingError> {
    match venue
    case Exactly(v) =>
      if CanonicalTime(clock, v.observedAt).None? || !Within(CanonicalTime(clock, v.observedAt).value, asOf, 24)
      then Some(VenueTime)
      else if v.targetSymbol != symbol then Some(VenueSymbol)
      else if Digest(v.bundleFingerprint).None? || |v.sourceDigests| != 8 || !AllDigests(v.sourceDigests)
      then Some(VenueDigest)
      else if !OrderabilityFits(k, symbol, v.record) then Some(OrderabilityDrift)
      else None
    case _ => Some(VenueKeys)
  }

  function SafetyError(k: Contract, clock: Clock, safety: Doc<Safety>, asOf: int): Option<BindingError> {
    match safety
    case Exactly(s) =>
      if |s.digests| != 6 then Some(SafetyKeys)
      else if s.policyFingerprint != k.safetyPolicy then Some(SafetyPolicy)
      else if !AllDigests(s.digests) then Some(SafetyDigest)
      else if CanonicalTime(clock, s.certifiedAt).None? || !Within(CanonicalTime(clock, s.certifiedAt).value, asOf, 168)
      then Some(SafetyTime)
      else None
    case _ => Some(SafetyKeys)
  }

  function OrElse(a: Option<BindingError>, b: Option<BindingError>): Option<BindingError> {
    if a.Some? then a else b
  }

  datatype Bindings = Bindings(terminal: Doc<Terminal>, venue: Doc<Venue>, safety: Doc<Safety>, account: Doc<Account>)

  /** Every check on the bound documents, in the validator's order. */
  function BindingsError(k: Contract, hash: Candidate -> string, clock: Clock, symbol: string, b: Bindings,
                         asOf: int): Option<BindingError>
  {
    OrElse(AccountError(k, b.account),
           OrElse(TerminalError(k, hash, clock, symbol, b.terminal, asOf),
                  OrElse(VenueError(k, clock, symbol, b.venue, asOf), SafetyError(k, clock, b.safety, asOf))))
  }

  /** What the validator asks once more after the documents passed. */
  predicate NamesAgree(k: Contract, symbol: string, b: Bindings) {
    && b.terminal.Exactly? && b.terminal.value.selectedSymbol == symbol
    && b.venue.Exactly? && b.venue.value.targetSymbol == symbol
    && b.safety.Exactly? && b.safety.value.policyFingerprint == k.safetyPolicy
    && b.account.Exactly?
  }

  /** Documents that pass name one symbol and one policy, so asking again never fails. */
  lemma BoundNamesAgree(k: Contract, hash: Candidate -> string, clock: Clock, symbol: string, b: Bindings, asOf: int)
    requires BindingsError(k, hash, clock, symbol, b, asOf) == None
    ensures NamesAgree(k, symbol, b)
  {
    TerminalNames(k, hash, clock, symbol, b.terminal, asOf);
    VenueNames(k, clock, symbol, b.venue, asOf);
    SafetyNames(k, clock, b.safety, asOf);
  }

  lemma TerminalNames(k: Contract, hash: Candidate -> string, clock: Clock, symbol: string, terminal: Doc<Terminal>,
                      asOf: int)
    ensures TerminalError(k, hash, clock, symbol, terminal, asOf).None? ==>
              terminal.Exactly? && terminal.value.selectedSymbol == symbol
  {
  }

  lemma VenueNames(k: Contract, clock: Clock, symbol: string, venue: Doc<Venue>, asOf: int)
    ensures VenueError(k, clock, symbol, venue, asOf).None? ==> venue.Exactly? && venue.value.targetSymbol == symbol
  {
  }

  lemma SafetyNames(k: Contract, clock: Clock, safety: Doc<Safety>, asOf: int)
    ensures SafetyError(k, clock, safety, asOf).None? ==>
              safety.Exactly? && safety.value.policyFingerprint == k.safetyPolicy
  {
  }
}
