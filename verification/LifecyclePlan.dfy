/**
 The bounded-probe lifecycle plan: the builder, the separate validator, and the one canonical form
 they agree on.
 */
module LifecyclePlan {
  import opened Wrappers
  import opened JsonValue
  import opened Text
  import opened OrderGate
  import opened LifecycleBindings

  datatype Classification = Dormant | Ready | OtherClassification(text: string)

  datatype Subject = Subject(assetClass: string, symbol: string, environment: string)

  /** Entry, exit and cancel attempts, replacements, close and liquidate actions. */
  const BUDGETS := [1, 1, 1, 0, 0, 0]

  /** The eight authority flags: broker read and mutation; paper submit, cancel, exit and mutation;
      capital allocation; live. Python compares a flag with false as it compares a number with 0. */
  const NO_AUTHORITY := [0, 0, 0, 0, 0, 0, 0, 0]

  const MAXIMUM_HOURS := 168

  /** The three parts of a plan that the validator compares as numbers. */
  datatype Numbers = Numbers(maximumHours: Value, budgets: Doc<seq<Value>>, authority: Doc<seq<Value>>)

  /** Python's comparisons: 168.0 equals 168, true equals 1 and 0 equals false. */
  predicate NumbersEqual(n: Numbers) {
    && EqualsInt(n.maximumHours, MAXIMUM_HOURS)
    && n.budgets.Exactly? && EqualInts(n.budgets.value, BUDGETS)
    && n.authority.Exactly? && EqualInts(n.authority.value, NO_AUTHORITY)
  }

  /** The builder's own: whole numbers, and false flags. */
  const NUMBERS := Numbers(
    Int(MAXIMUM_HOURS), Exactly([Int(1), Int(1), Int(1), Int(0), Int(0), Int(0)]),
    Exactly([Bool(false), Bool(false), Bool(false), Bool(false), Bool(false), Bool(false), Bool(false), Bool(false)]))

  /** Numbers are spelled as integers and flags as booleans. */
  predicate CanonicalNumbers(n: Numbers) {
    && n.maximumHours.Int?
    && n.budgets.Exactly? && (forall i :: 0 <= i < |n.budgets.value| ==> n.budgets.value[i].Int?)
    && n.authority.Exactly? && (forall i :: 0 <= i < |n.authority.value| ==> n.authority.value[i].Bool?)
  }

  /** Of the numbers the validator lets through, the canonical ones are the builder's. */
  lemma CanonicalNumbersAreTheBuilders(n: Numbers)
    ensures NumbersEqual(n) && CanonicalNumbers(n) <==> n == NUMBERS
  {
    if NumbersEqual(n) && CanonicalNumbers(n) {
      assert n.budgets.value == NUMBERS.budgets.value;
      assert n.authority.value == NUMBERS.authority.value;
    }
  }

  datatype Ids = Ids(planId: string, entry: string, exit: string, cancel: string)

  datatype Plan = Plan(
    schema: string, recordType: string, asOf: string, classification: Classification, subject: Doc<Subject>,
    bindings: Bindings, notional: string, timeInForce: string, validUntil: string, numbers: Numbers, ids: Doc<Ids>,
    identityFingerprint: Field, authorizationSha: Field, blockers: seq<string>, profitClaim: string, fingerprint: Field)

  /** The part of a plan its identity fingerprint covers; the authority flags are not in it. */
  datatype Identity = Identity(
    schema: string, recordType: string, subject: Doc<Subject>, bindings: Bindings, notional: string,
    timeInForce: string, validUntil: string, maximumHours: Value, budgets: Doc<seq<Value>>)

  function IdentityOf(p: Plan): Identity {
    Identity(p.schema, p.recordType, p.subject, p.bindings, p.notional, p.timeInForce, p.validUntil,
             p.numbers.maximumHours, p.numbers.budgets)
  }

  /** SHA-256 of the canonical JSON of each kind of document, and of a text. */
  datatype Hashes = Hashes(plan: Plan -> string, identity: Identity -> string, candidate: Candidate -> string,
                           text: string -> string)

  ghost predicate Hex(h: Hashes) {
    && (forall p :: IsDigest(h.plan(p)))
    && (forall i :: IsDigest(h.identity(i)))
    && (forall c :: IsDigest(h.candidate(c)))
    && (forall t :: IsDigest(h.text(t)))
  }

  /** The two identities are not a collision of the hash. */
  predicate NoCollision(h: Hashes, a: Identity, b: Identity) {
    h.identity(a) == h.identity(b) ==> a == b
  }

  type Authorization = (string, string, string, string, string, string) -> string

  datatype Env = Env(contract: Contract, hashes: Hashes, clock: Clock, authorization: Authorization)

  ghost predicate Sane(e: Env) {
    Hex(e.hashes) && ClockReads(e.clock)
  }

  /** The exact sentence of V5.30. */
  function AuthorizationText(planFingerprint: string, account: string, symbol: string, entry: string, exit: string,
                             validUntil: string): string
  {
    "AUTHORIZE V5.30 ALPACA PAPER BOUNDED LIFECYCLE plan=" + planFingerprint + " account=" + account
    + " symbol=" + symbol + " entry_usd=10 entry_id=" + entry + " exit_id=" + exit
    + " entry_attempts=1 cancel_attempts_total=1 exit_attempts=1 replacements=0 close_actions=0"
    + " liquidate_actions=0 live=0"
    + " entry_valid_until=" + validUntil
  }

  const WINDOW := 900_000_000

  /** The entry window of a plan at this instant closes at an instant too. In the last quarter of an
      hour of the calendar adding it raises. */
  predicate HasWindow(asOf: int) {
    IsInstant(asOf) && IsInstant(asOf + WINDOW)
  }

  function SymbolOf(text: string): Option<ProbeSymbol> {
    var s := Upper(Strip(text));
    if s == Name(BTC) then Some(BTC) else if s == Name(ETH) then Some(ETH) else if s == Name(SOL) then Some(SOL)
    else None
  }

  lemma SymbolReads(symbol: ProbeSymbol)
    ensures SymbolOf(Name(symbol)) == Some(symbol)
  {
    assert Trimmed(Name(symbol));
    StripTrims(Name(symbol));
    assert Upper(Name(symbol)) == Name(symbol);
    NamesDiffer(BTC, ETH);
    NamesDiffer(BTC, SOL);
    NamesDiffer(ETH, SOL);
  }

  function DeterministicIds(symbol: ProbeSymbol, fingerprint: string): Ids
    requires IsDigest(fingerprint)
  {
    var token := fingerprint[..16];
    Ids(fingerprint, ProbeId(Stem(symbol), "entry", token), ProbeId(Stem(symbol), "exit", token),
        ProbeId(Stem(symbol), "cancel", token))
  }

  /** The authorization sentence of a plan whose documents have their keys. */
  function SentenceOf(e: Env, p: Plan): string
    requires p.subject.Exactly? && p.ids.Exactly? && p.bindings.account.Exactly?
  {
    e.authorization(Shown(p.identityFingerprint), Shown(p.bindings.account.value.fingerprint), p.subject.value.symbol,
                    p.ids.value.entry, p.ids.value.exit, p.validUntil)
  }

  // ---------------------------------------------------------------- the validator

  datatype PlanError =
    | IdentityDrift | BadTime | BadDigest | FingerprintMismatch | DormantNotInert | BadClassification
    | UnsupportedSymbol | SubjectDrift | BadBinding(error: BindingError) | BindingDrift | WindowDrift
    | IdentityMismatch | IdsDrift | AuthorizationDrift | TimeOverflow

  function SubjectFor(k: Contract, symbol: ProbeSymbol): Subject {
    Subject(k.assetClass, Name(symbol), k.environment)
  }

  const NO_BINDINGS := Bindings(Empty, Empty, Empty, Empty)

  predicate Inert(k: Contract, p: Plan) {
    && p.subject.Empty? && p.bindings == NO_BINDINGS && p.notional == k.notional && p.timeInForce == k.timeInForce
    && p.validUntil == "" && NumbersEqual(p.numbers) && p.ids.Empty?
    && p.identityFingerprint == Quoted("") && p.authorizationSha == Quoted("") && p.blockers == k.dormantBlockers
  }

  /** The fixed parts of a ready plan. */
  predicate FixedParts(k: Contract, p: Plan) {
    p.notional == k.notional && p.timeInForce == k.timeInForce && NumbersEqual(p.numbers) && p.blockers == []
  }

  /** The last checks of a ready plan: window, identity fingerprint, ids and authorization. */
  function DerivedError(e: Env, p: Plan, symbol: ProbeSymbol, asOf: int): Option<PlanError>
    requires p.subject.Exactly? && p.bindings.account.Exactly?
  {
    var until := e.clock.read(p.validUntil);
    if until.None? then Some(BadTime)
    else if !HasWindow(asOf) then Some(TimeOverflow)
    else if until.value != asOf + WINDOW then Some(WindowDrift)
    else
      var identity := Digest(p.identityFingerprint);
      if identity.None? then Some(BadDigest)
      else if identity.value != e.hashes.identity(IdentityOf(p)) then Some(IdentityMismatch)
      else if p.ids != Exactly(DeterministicIds(symbol, identity.value)) then Some(IdsDrift)
      else
        var sha := Digest(p.authorizationSha);
        if sha.None? then Some(BadDigest)
        else if sha.value != e.hashes.text(SentenceOf(e, p)) then Some(AuthorizationDrift)
        else None
  }

  function ReadyError(e: Env, p: Plan, asOf: int): Option<PlanError> {
    if !p.subject.Exactly? then Some(SubjectDrift)
    else
      match SymbolOf(p.subject.value.symbol)
      case None => Some(UnsupportedSymbol)
      case Some(symbol) =>
        if p.subject.value != SubjectFor(e.contract, symbol) then Some(SubjectDrift)
        else
          var error := BindingsError(e.contract, e.hashes.candidate, e.clock, Name(symbol), p.bindings, asOf);
          if error.Some? then Some(BadBinding(error.value))
          else if !NamesAgree(e.contract, Name(symbol), p.bindings) || !FixedParts(e.contract, p)
          then Some(BindingDrift)
          else DerivedError(e, p, symbol, asOf)
  }

  /** `validate_lifecycle_plan`, its checks in their order; None accepts. */
  function PlanErrorOf(e: Env, p: Plan): Option<PlanError> {
    var k := e.contract;
    if || p.schema != k.planSchema || p.recordType != k.planRecordType || p.profitClaim != k.profitClaim
       || !p.numbers.authority.Exactly? || !EqualInts(p.numbers.authority.value, NO_AUTHORITY)
    then Some(IdentityDrift)
    else
      match e.clock.read(p.asOf)
      case None => Some(BadTime)
      case Some(asOf) =>
        if Digest(p.fingerprint).None? then Some(BadDigest)
        else if Digest(p.fingerprint).value != e.hashes.plan(p.(fingerprint := Quoted("")))
        then Some(FingerprintMismatch)
        else
          match p.classification
          case Dormant => if Inert(k, p) then None else Some(DormantNotInert)
          case Ready => ReadyError(e, p, asOf)
          case OtherClassification(_) => Some(BadClassification)
  }

  predicate Accepts(e: Env, p: Plan) {
    PlanErrorOf(e, p) == None
  }

  // ---------------------------------------------------------------- the builder

  function ReadyIdentity(e: Env, symbol: ProbeSymbol, b: Bindings, asOf: int, n: Numbers): Identity {
    var k := e.contract;
    Identity(k.planSchema, k.planRecordType, Exactly(SubjectFor(k, symbol)), b, k.notional, k.timeInForce,
             e.clock.iso(asOf + WINDOW), n.maximumHours, n.budgets)
  }

  /** A plan with the given numbers, before its authorization and its own fingerprint are filled in. */
  function Draft(e: Env, symbol: ProbeSymbol, b: Bindings, asOf: int, n: Numbers): Plan
    requires IsDigest(e.hashes.identity(ReadyIdentity(e, symbol, b, asOf, n)))
  {
    var k := e.contract;
    var identity := ReadyIdentity(e, symbol, b, asOf, n);
    var fingerprint := e.hashes.identity(identity);
    Plan(identity.schema, identity.recordType, e.clock.iso(asOf), Ready, identity.subject, b, identity.notional,
         identity.timeInForce, identity.validUntil, n, Exactly(DeterministicIds(symbol, fingerprint)),
         Quoted(fingerprint), Quoted(""), [], k.profitClaim, Quoted(""))
  }

  function Sign(e: Env, draft: Plan): Plan
    requires draft.subject.Exactly? && draft.ids.Exactly? && draft.bindings.account.Exactly?
  {
    var unsigned := draft.(authorizationSha := Quoted(e.hashes.text(SentenceOf(e, draft))));
    unsigned.(fingerprint := Quoted(e.hashes.plan(unsigned)))
  }

  /** `build_ready_lifecycle_plan`. An account binding without its keys is refused by the validator
      before its missing fingerprint could matter, so it is refused here at once. */
  function Build(e: Env, symbolText: string, b: Bindings, asOfText: string): Result<Plan, PlanError>
    requires Hex(e.hashes)
  {
    match SymbolOf(symbolText)
    case None => Err(UnsupportedSymbol)
    case Some(symbol) =>
      match e.clock.read(asOfText)
      case None => Err(BadTime)
      case Some(asOf) =>
        if !HasWindow(asOf) then Err(TimeOverflow)
        else if !b.account.Exactly? then Err(BadBinding(AccountInvalid))
        else
          var plan := Sign(e, Draft(e, symbol, b, asOf, NUMBERS));
          match PlanErrorOf(e, plan)
          case None => Ok(plan)
          case Some(error) => Err(error)
  }

  /** The dormant plan with the given numbers; the builder's has `NUMBERS`. */
  function DormantWith(e: Env, asOf: int, n: Numbers): Plan {
    var k := e.contract;
    var unsigned := Plan(k.planSchema, k.planRecordType, e.clock.iso(asOf), Dormant, Empty, NO_BINDINGS, k.notional,
                         k.timeInForce, "", n, Empty, Quoted(""), Quoted(""), k.dormantBlockers, k.profitClaim,
                         Quoted(""));
    unsigned.(fingerprint := Quoted(e.hashes.plan(unsigned)))
  }

  function BuildDormant(e: Env, asOf: int): Plan {
    DormantWith(e, asOf, NUMBERS)
  }

  // ---------------------------------------------------------------- the builder meets the validator

  /** What the validator finds in a plan made as the builder makes it, with any numbers Python calls
      equal to the builder's: the first fault of its documents, and nothing else. The builder never
      fails on its own fingerprint, window, ids or authorization. */
  lemma BuiltPlanError(e: Env, symbol: ProbeSymbol, b: Bindings, asOf: int, n: Numbers)
    requires Sane(e) && HasWindow(asOf) && b.account.Exactly? && NumbersEqual(n)
    ensures var error := BindingsError(e.contract, e.hashes.candidate, e.clock, Name(symbol), b, asOf);
            PlanErrorOf(e, Sign(e, Draft(e, symbol, b, asOf, n)))
            == if error.Some? then Some(BadBinding(error.value)) else None
  {
    var draft := Draft(e, symbol, b, asOf, n);
    var plan := Sign(e, draft);
    DigestIsItself(plan.fingerprint.text);
    SymbolReads(symbol);
    BuiltDerives(e, symbol, b, asOf, n);
    if BindingsError(e.contract, e.hashes.candidate, e.clock, Name(symbol), b, asOf).None? {
      BoundNamesAgree(e.contract, e.hashes.candidate, e.clock, Name(symbol), b, asOf);
    }
    BuiltReadyError(e, symbol, plan, asOf);
    assert plan.(fingerprint := Quoted("")) == draft.(authorizationSha := plan.authorizationSha);
  }

  lemma BuiltReadyError(e: Env, symbol: ProbeSymbol, plan: Plan, asOf: int)
    requires plan.subject == Exactly(SubjectFor(e.contract, symbol)) && plan.bindings.account.Exactly?
    requires SymbolOf(Name(symbol)) == Some(symbol) && FixedParts(e.contract, plan)
    requires DerivedError(e, plan, symbol, asOf) == None
    requires BindingsError(e.contract, e.hashes.candidate, e.clock, Name(symbol), plan.bindings, asOf).None? ==>
               NamesAgree(e.contract, Name(symbol), plan.bindings)
    ensures var error := BindingsError(e.contract, e.hashes.candidate, e.clock, Name(symbol), plan.bindings, asOf);
            ReadyError(e, plan, asOf) == if error.Some? then Some(BadBinding(error.value)) else None
  {
  }

  lemma BuiltDerives(e: Env, symbol: ProbeSymbol, b: Bindings, asOf: int, n: Numbers)
    requires Sane(e) && HasWindow(asOf) && b.account.Exactly?
    ensures DerivedError(e, Sign(e, Draft(e, symbol, b, asOf, n)), symbol, asOf) == None
  {
    var plan := Sign(e, Draft(e, symbol, b, asOf, n));
    assert IdentityOf(plan) == ReadyIdentity(e, symbol, b, asOf, n);
    DigestIsItself(plan.identityFingerprint.text);
    DigestIsItself(plan.authorizationSha.text);
  }

  /** The builder fails exactly when its symbol, its time or its documents do; the time fails in the last
      quarter of an hour too. */
  lemma BuildFailsOnInputsOnly(e: Env, symbolText: string, b: Bindings, asOfText: string)
    requires Sane(e)
    ensures Build(e, symbolText, b, asOfText).Ok? <==>
              && SymbolOf(symbolText).Some? && e.clock.read(asOfText).Some? && HasWindow(e.clock.read(asOfText).value)
              && BindingsError(e.contract, e.hashes.candidate, e.clock, Name(SymbolOf(symbolText).value), b,
                               e.clock.read(asOfText).value) == None
  {
    var symbol, asOf := SymbolOf(symbolText), e.clock.read(asOfText);
    if symbol.Some? && asOf.Some? && HasWindow(asOf.value) && b.account.Exactly? {
      CanonicalNumbersAreTheBuilders(NUMBERS);
      BuiltPlanError(e, symbol.value, b, asOf.value, NUMBERS);
    }
  }

  // ---------------------------------------------------------------- one canonical form

  predicate CanonicalStamp(e: Env, text: string) {
    e.clock.read(text).Some? && e.clock.iso(e.clock.read(text).value) == text
  }

  predicate CanonicalDigest(f: Field) {
    f.Quoted? && Folded(f.text) == f.text
  }

  /** Timestamps as `isoformat` prints them; digests as strings in lower case without outer whitespace. */
  predicate CanonicalTexts(e: Env, p: Plan) {
    && CanonicalStamp(e, p.asOf) && CanonicalStamp(e, p.validUntil)
    && CanonicalDigest(p.identityFingerprint) && CanonicalDigest(p.authorizationSha) && CanonicalDigest(p.fingerprint)
  }

  predicate CanonicalSpelling(e: Env, p: Plan) {
    CanonicalTexts(e, p) && CanonicalNumbers(p.numbers)
  }

  /** What acceptance of a ready plan establishes. */
  predicate AcceptedReady(e: Env, p: Plan, symbol: ProbeSymbol, asOf: int) {
    && p.schema == e.contract.planSchema && p.recordType == e.contract.planRecordType
    && p.profitClaim == e.contract.profitClaim
    && e.clock.read(p.asOf) == Some(asOf)
    && Digest(p.fingerprint) == Some(e.hashes.plan(p.(fingerprint := Quoted(""))))
    && p.subject == Exactly(SubjectFor(e.contract, symbol)) && SymbolOf(p.subject.value.symbol) == Some(symbol)
    && BindingsError(e.contract, e.hashes.candidate, e.clock, Name(symbol), p.bindings, asOf) == None
    && p.bindings.account.Exactly? && FixedParts(e.contract, p)
    && DerivedError(e, p, symbol, asOf) == None
  }

  lemma ReadyAcceptance(e: Env, p: Plan)
    requires p.classification.Ready?
    ensures Accepts(e, p) <==>
              && p.subject.Exactly? && SymbolOf(p.subject.value.symbol).Some? && e.clock.read(p.asOf).Some?
              && AcceptedReady(e, p, SymbolOf(p.subject.value.symbol).value, e.clock.read(p.asOf).value)
  {
    if p.subject.Exactly? && SymbolOf(p.subject.value.symbol).Some? && e.clock.read(p.asOf).Some? {
      var symbol, asOf := SymbolOf(p.subject.value.symbol).value, e.clock.read(p.asOf).value;
      if BindingsError(e.contract, e.hashes.candidate, e.clock, Name(symbol), p.bindings, asOf).None? {
        BoundNamesAgree(e.contract, e.hashes.candidate, e.clock, Name(symbol), p.bindings, asOf);
      }
    }
  }

  /** The fields of a ready plan are what the builder puts there, given the plan's documents and numbers. */
  ghost predicate BuilderFields(e: Env, p: Plan, symbol: ProbeSymbol, asOf: int)
    requires Hex(e.hashes) && p.subject.Exactly? && p.bindings.account.Exactly?
  {
    var identity := e.hashes.identity(IdentityOf(p));
    && p.schema == e.contract.planSchema && p.recordType == e.contract.planRecordType
    && p.profitClaim == e.contract.profitClaim && p.classification.Ready?
    && p.subject == Exactly(SubjectFor(e.contract, symbol))
    && p.notional == e.contract.notional && p.timeInForce == e.contract.timeInForce && p.blockers == []
    && p.asOf == e.clock.iso(asOf) && p.validUntil == e.clock.iso(asOf + WINDOW)
    && p.identityFingerprint == Quoted(identity) && p.ids == Exactly(DeterministicIds(symbol, identity))
    && p.authorizationSha == Quoted(e.hashes.text(SentenceOf(e, p)))
    && p.fingerprint == Quoted(e.hashes.plan(p.(fingerprint := Quoted(""))))
  }

  lemma CanonicalFields(e: Env, p: Plan, symbol: ProbeSymbol, asOf: int)
    requires Sane(e) && p.classification.Ready? && CanonicalTexts(e, p) && AcceptedReady(e, p, symbol, asOf)
    ensures BuilderFields(e, p, symbol, asOf)
  {
    assert e.clock.read(p.validUntil) == Some(asOf + WINDOW);
  }

  lemma BuilderFieldsMakePlan(e: Env, p: Plan, symbol: ProbeSymbol, asOf: int)
    requires Hex(e.hashes) && p.subject.Exactly? && p.bindings.account.Exactly?
    requires BuilderFields(e, p, symbol, asOf)
    ensures p == Sign(e, Draft(e, symbol, p.bindings, asOf, p.numbers))
  {
    var draft := Draft(e, symbol, p.bindings, asOf, p.numbers);
    assert IdentityOf(p) == ReadyIdentity(e, symbol, p.bindings, asOf, p.numbers);
    assert p.(authorizationSha := Quoted(""), fingerprint := Quoted("")) == draft;
    assert SentenceOf(e, p) == SentenceOf(e, draft);
  }

  /** An accepted plan with canonical texts is made as the builder makes its own, with the plan's numbers. */
  lemma CanonicalIsBuilt(e: Env, p: Plan, symbol: ProbeSymbol, asOf: int)
    requires Sane(e) && p.classification.Ready? && CanonicalTexts(e, p) && AcceptedReady(e, p, symbol, asOf)
    ensures p == Sign(e, Draft(e, symbol, p.bindings, asOf, p.numbers))
  {
    CanonicalFields(e, p, symbol, asOf);
    BuilderFieldsMakePlan(e, p, symbol, asOf);
  }

  lemma BuiltIsCanonical(e: Env, symbol: ProbeSymbol, b: Bindings, asOf: int, n: Numbers)
    requires Sane(e) && HasWindow(asOf) && b.account.Exactly?
    ensures CanonicalTexts(e, Sign(e, Draft(e, symbol, b, asOf, n)))
  {
    var plan := Sign(e, Draft(e, symbol, b, asOf, n));
    DigestIsItself(plan.fingerprint.text);
    DigestIsItself(plan.identityFingerprint.text);
    DigestIsItself(plan.authorizationSha.text);
  }

  /** Every ready plan with canonical texts, exactly: it is accepted if and only if it is what the
      builder's own construction makes of its symbol, documents and time with its numbers, its
      documents pass, and Python calls its numbers equal to the builder's. */
  lemma AcceptedTextsExactly(e: Env, p: Plan)
    requires Sane(e) && p.classification.Ready?
    ensures Accepts(e, p) && CanonicalTexts(e, p) <==>
              && p.subject.Exactly? && SymbolOf(p.subject.value.symbol).Some? && e.clock.read(p.asOf).Some?
              && p.bindings.account.Exactly? && NumbersEqual(p.numbers)
              && var symbol, asOf := SymbolOf(p.subject.value.symbol).value, e.clock.read(p.asOf).value;
                 && HasWindow(asOf)
                 && BindingsError(e.contract, e.hashes.candidate, e.clock, Name(symbol), p.bindings, asOf) == None
                 && p == Sign(e, Draft(e, symbol, p.bindings, asOf, p.numbers))
  {
    ReadyAcceptance(e, p);
    if p.subject.Exactly? && SymbolOf(p.subject.value.symbol).Some? && e.clock.read(p.asOf).Some? {
      var symbol, asOf := SymbolOf(p.subject.value.symbol).value, e.clock.read(p.asOf).value;
      if Accepts(e, p) && CanonicalTexts(e, p) {
        CanonicalIsBuilt(e, p, symbol, asOf);
      }
      if p.bindings.account.Exactly? && NumbersEqual(p.numbers) && HasWindow(asOf) {
        BuiltPlanError(e, symbol, p.bindings, asOf, p.numbers);
        BuiltIsCanonical(e, symbol, p.bindings, asOf, p.numbers);
      }
    }
  }

  /** Ready plans have one canonical form: the validator accepts a canonically spelled plan exactly
      when it is what the builder makes of the plan's own symbol, documents and time. */
  lemma OneCanonicalForm(e: Env, p: Plan)
    requires Sane(e) && p.classification.Ready?
    ensures Accepts(e, p) && CanonicalSpelling(e, p)
            <==> p.subject.Exactly? && Build(e, p.subject.value.symbol, p.bindings, p.asOf) == Ok(p)
  {
    AcceptedTextsExactly(e, p);
    CanonicalNumbersAreTheBuilders(p.numbers);
    CanonicalNumbersAreTheBuilders(NUMBERS);
    if p.subject.Exactly? {
      BuildFailsOnInputsOnly(e, p.subject.value.symbol, p.bindings, p.asOf);
      if Build(e, p.subject.value.symbol, p.bindings, p.asOf).Ok? {
        BuildMakes(e, p.subject.value.symbol, p.bindings, p.asOf);
      }
    }
  }

  lemma BuildMakes(e: Env, symbolText: string, b: Bindings, asOfText: string)
    requires Sane(e) && Build(e, symbolText, b, asOfText).Ok?
    ensures SymbolOf(symbolText).Some? && e.clock.read(asOfText).Some? && b.account.Exactly?
    ensures HasWindow(e.clock.read(asOfText).value)
    ensures Build(e, symbolText, b, asOfText).value
         == Sign(e, Draft(e, SymbolOf(symbolText).value, b, e.clock.read(asOfText).value, NUMBERS))
  {
  }

  /** The two plans say the same: they agree on everything but the spelling of times, numbers and
      flags, and the digests and ids that cover it. */
  predicate SameUpToSpelling(e: Env, p: Plan, q: Plan) {
    && p == q.(asOf := p.asOf, validUntil := p.validUntil, numbers := p.numbers, ids := p.ids,
               identityFingerprint := p.identityFingerprint, authorizationSha := p.authorizationSha,
               fingerprint := p.fingerprint)
    && e.clock.read(p.asOf) == e.clock.read(q.asOf)
    && e.clock.read(p.validUntil) == e.clock.read(q.validUntil)
    && NumbersEqual(p.numbers) && NumbersEqual(q.numbers)
  }

  /** However an accepted ready plan is spelled, the builder makes a plan that says the same. */
  lemma AcceptedHasCanonicalForm(e: Env, p: Plan)
    requires Sane(e) && p.classification.Ready? && Accepts(e, p)
    ensures p.subject.Exactly?
    ensures var built := Build(e, p.subject.value.symbol, p.bindings, p.asOf);
            built.Ok? && SameUpToSpelling(e, built.value, p) && CanonicalSpelling(e, built.value)
  {
    ReadyAcceptance(e, p);
    var symbol, asOf := SymbolOf(p.subject.value.symbol).value, e.clock.read(p.asOf).value;
    CanonicalNumbersAreTheBuilders(NUMBERS);
    BuiltPlanError(e, symbol, p.bindings, asOf, NUMBERS);
    BuiltIsCanonical(e, symbol, p.bindings, asOf, NUMBERS);
  }

  /** As long as the hash does not collide on them, two accepted ready plans with the same identity
      fingerprint say the same, and are the same plan when canonically spelled. */
  lemma IdentityNamesOnePlan(e: Env, p: Plan, q: Plan)
    requires Sane(e) && NoCollision(e.hashes, IdentityOf(p), IdentityOf(q))
    requires p.classification.Ready? && q.classification.Ready? && Accepts(e, p) && Accepts(e, q)
    requires Digest(p.identityFingerprint) == Digest(q.identityFingerprint)
    ensures IdentityOf(p) == IdentityOf(q) && p.ids == q.ids && SameUpToSpelling(e, p, q)
    ensures CanonicalSpelling(e, p) && CanonicalSpelling(e, q) ==> p == q
  {
    ReadyAcceptance(e, p);
    ReadyAcceptance(e, q);
    SameIdentity(e, p, q, SymbolOf(p.subject.value.symbol).value, e.clock.read(p.asOf).value,
                 SymbolOf(q.subject.value.symbol).value, e.clock.read(q.asOf).value);
  }

  lemma SameIdentity(e: Env, p: Plan, q: Plan, symbol: ProbeSymbol, asOf: int, symbol': ProbeSymbol, asOf': int)
    requires Sane(e) && NoCollision(e.hashes, IdentityOf(p), IdentityOf(q))
    requires p.classification.Ready? && q.classification.Ready?
    requires AcceptedReady(e, p, symbol, asOf) && AcceptedReady(e, q, symbol', asOf')
    requires Digest(p.identityFingerprint) == Digest(q.identityFingerprint)
    ensures IdentityOf(p) == IdentityOf(q) && p.ids == q.ids && symbol == symbol' && asOf == asOf'
    ensures CanonicalSpelling(e, p) && CanonicalSpelling(e, q) ==> p == q
  {
    assert e.hashes.identity(IdentityOf(p)) == e.hashes.identity(IdentityOf(q));
    if CanonicalSpelling(e, p) && CanonicalSpelling(e, q) {
      CanonicalIsBuilt(e, p, symbol, asOf);
      CanonicalIsBuilt(e, q, symbol', asOf');
      CanonicalNumbersAreTheBuilders(p.numbers);
      CanonicalNumbersAreTheBuilders(q.numbers);
    }
  }

  // ---------------------------------------------------------------- other spellings

  lemma PaddedDigest(s: string)
    requires Digest(Quoted(s)).Some?
    ensures Digest(Quoted(s + " ")) == Digest(Quoted(s))
    ensures Folded(s + " ") != s + " "
  {
    var before, after := StripMeans(s);
    assert IsSpace(' ');
    assert before + Strip(s) + (after + " ") == s + " ";
    StripUnique(before, Strip(s), after + " ");
    var d := Folded(s);
    assert !IsSpace(d[63]);
    assert (s + " ")[|s + " "| - 1] == ' ';
  }

  /** The validator also accepts spellings the builder never makes: a trailing space in the plan's
      fingerprint changes nothing it checks. */
  lemma PaddedFingerprintAccepted(e: Env, p: Plan)
    requires Accepts(e, p) && p.fingerprint.Quoted?
    ensures var padded := p.(fingerprint := Quoted(p.fingerprint.text + " "));
            Accepts(e, padded) && !CanonicalSpelling(e, padded) && padded != p
  {
    PaddedDigest(p.fingerprint.text);
    var padded := p.(fingerprint := Quoted(p.fingerprint.text + " "));
    assert padded.(fingerprint := Quoted("")) == p.(fingerprint := Quoted(""));
    assert |padded.fingerprint.text| == |p.fingerprint.text| + 1;
    SameButFingerprint(e, p, padded.fingerprint);
  }

  /** Any plan the builder makes has accepted twins with canonical texts: one for every way to spell
      its numbers that Python calls equal. */
  lemma LooseNumbersAccepted(e: Env, symbolText: string, b: Bindings, asOfText: string, n: Numbers)
    requires Sane(e) && Build(e, symbolText, b, asOfText).Ok? && NumbersEqual(n) && n != NUMBERS
    ensures SymbolOf(symbolText).Some? && e.clock.read(asOfText).Some? && b.account.Exactly?
    ensures var built := Build(e, symbolText, b, asOfText).value;
            var twin := Sign(e, Draft(e, SymbolOf(symbolText).value, b, e.clock.read(asOfText).value, n));
            && Accepts(e, twin) && CanonicalTexts(e, twin) && twin != built && twin.numbers == n
            && SameUpToSpelling(e, twin, built)
            && (n.maximumHours == NUMBERS.maximumHours && n.budgets == NUMBERS.budgets ==>
                  twin.identityFingerprint == built.identityFingerprint)
  {
    BuildMakes(e, symbolText, b, asOfText);
    BuildFailsOnInputsOnly(e, symbolText, b, asOfText);
    var symbol, asOf := SymbolOf(symbolText).value, e.clock.read(asOfText).value;
    CanonicalNumbersAreTheBuilders(NUMBERS);
    BuiltPlanError(e, symbol, b, asOf, n);
    BuiltIsCanonical(e, symbol, b, asOf, n);
  }

  /** The plain inputs: 168.0 hours, and authority flags spelled 0. */
  lemma LooseNumbersExist()
    ensures var n := NUMBERS.(maximumHours := Float(168.0)); NumbersEqual(n) && n != NUMBERS
    ensures var n := NUMBERS.(authority := Exactly(seq(8, _ => Int(0)))); NumbersEqual(n) && n != NUMBERS
  {
    CanonicalNumbersAreTheBuilders(NUMBERS);
    var zeros := seq(8, _ => Int(0));
    assert zeros[0] == Int(0);
    assert NUMBERS.authority.value[0] == Bool(false);
  }

  /** Spelling 168 hours as 168.0 gives an accepted plan, with canonical times and digests, that is not
      the builder's: the fingerprints, ids and authorization follow the spelling. */
  lemma FloatHoursAccepted(e: Env, symbolText: string, b: Bindings, asOfText: string) returns (twin: Plan)
    requires Sane(e) && Build(e, symbolText, b, asOfText).Ok?
    ensures Accepts(e, twin) && CanonicalTexts(e, twin) && twin.numbers.maximumHours == Float(168.0)
    ensures twin != Build(e, symbolText, b, asOfText).value
  {
    var n := NUMBERS.(maximumHours := Float(168.0));
    LooseNumbersExist();
    LooseNumbersAccepted(e, symbolText, b, asOfText, n);
    twin := Sign(e, Draft(e, SymbolOf(symbolText).value, b, e.clock.read(asOfText).value, n));
  }

  /** Spelling the authority flags as 0 leaves the identity fingerprint alone, so without canonical
      numbers the fingerprint does not name one plan. */
  lemma ZeroAuthoritySharesIdentity(e: Env, symbolText: string, b: Bindings, asOfText: string) returns (twin: Plan)
    requires Sane(e) && Build(e, symbolText, b, asOfText).Ok?
    ensures Accepts(e, twin) && CanonicalTexts(e, twin) && twin != Build(e, symbolText, b, asOfText).value
    ensures twin.identityFingerprint == Build(e, symbolText, b, asOfText).value.identityFingerprint
  {
    var n := NUMBERS.(authority := Exactly(seq(8, _ => Int(0))));
    LooseNumbersExist();
    LooseNumbersAccepted(e, symbolText, b, asOfText, n);
    twin := Sign(e, Draft(e, SymbolOf(symbolText).value, b, e.clock.read(asOfText).value, n));
  }

  lemma SameButFingerprint(e: Env, p: Plan, fingerprint: Field)
    requires Digest(fingerprint) == Digest(p.fingerprint)
    ensures PlanErrorOf(e, p.(fingerprint := fingerprint)) == PlanErrorOf(e, p)
  {
    var q := p.(fingerprint := fingerprint);
    assert q.(fingerprint := Quoted("")) == p.(fingerprint := Quoted(""));
    assert IdentityOf(q) == IdentityOf(p);
    match e.clock.read(p.asOf) {
      case None =>
      case Some(asOf) => SameReadyError(e, p, q, asOf);
    }
  }

  lemma SameReadyError(e: Env, p: Plan, q: Plan, asOf: int)
    requires q == p.(fingerprint := q.fingerprint)
    ensures ReadyError(e, p, asOf) == ReadyError(e, q, asOf)
  {
    if p.subject.Exactly? && p.bindings.account.Exactly? && SymbolOf(p.subject.value.symbol).Some? {
      assert IdentityOf(p) == IdentityOf(q);
      assert DerivedError(e, p, SymbolOf(p.subject.value.symbol).value, asOf)
          == DerivedError(e, q, SymbolOf(p.subject.value.symbol).value, asOf);
    }
  }

  /** In the last quarter of an hour of the calendar no ready plan is built, whatever its documents, and
      none is accepted. */
  lemma LastQuarterHourHasNoPlan(e: Env, symbolText: string, b: Bindings, asOfText: string, p: Plan)
    requires Sane(e) && SymbolOf(symbolText).Some?
    requires e.clock.read(asOfText).Some? && e.clock.read(asOfText).value + WINDOW > LAST_INSTANT
    ensures Build(e, symbolText, b, asOfText) == Err(TimeOverflow)
    ensures p.classification.Ready? && p.asOf == asOfText ==> !Accepts(e, p)
  {
    if p.classification.Ready? {
      ReadyAcceptance(e, p);
    }
  }

  // ---------------------------------------------------------------- dormant plans

  /** Dormant plans, exactly: one with a canonical time and fingerprint is accepted if and only if it is
      the dormant plan of its time with its own numbers, and Python calls those equal to the builder's. */
  lemma AcceptedDormantExactly(e: Env, p: Plan)
    requires Sane(e) && p.classification.Dormant?
    ensures Accepts(e, p) && CanonicalStamp(e, p.asOf) && CanonicalDigest(p.fingerprint) <==>
              && e.clock.read(p.asOf).Some? && NumbersEqual(p.numbers)
              && p == DormantWith(e, e.clock.read(p.asOf).value, p.numbers)
  {
    if e.clock.read(p.asOf).Some? {
      var built := DormantWith(e, e.clock.read(p.asOf).value, p.numbers);
      DigestIsItself(built.fingerprint.text);
      if Accepts(e, p) && CanonicalStamp(e, p.asOf) && CanonicalDigest(p.fingerprint) {
        assert p.(fingerprint := Quoted("")) == built.(fingerprint := Quoted(""));
      }
      if p == built {
        assert p.(fingerprint := Quoted("")) == built.(fingerprint := Quoted(""));
      }
    }
  }

  /** Dormant plans have one canonical form too: the builder's. */
  lemma DormantForm(e: Env, p: Plan)
    requires Sane(e) && p.classification.Dormant?
    ensures && Accepts(e, p) && CanonicalStamp(e, p.asOf) && CanonicalDigest(p.fingerprint)
              && CanonicalNumbers(p.numbers)
            <==> e.clock.read(p.asOf).Some? && p == BuildDormant(e, e.clock.read(p.asOf).value)
  {
    AcceptedDormantExactly(e, p);
    CanonicalNumbersAreTheBuilders(p.numbers);
    CanonicalNumbersAreTheBuilders(NUMBERS);
  }

  // ---------------------------------------------------------------- the ids at the order gate

  lemma TokenOfDigest(d: string)
    requires IsDigest(d)
    ensures IsToken(d[..16])
  {
  }

  /** The ids of an accepted plan at the order gate: its entry id passes only as its ten-dollar buy,
      its exit id only as its sale of a quantity, and its cancel id never. */
  lemma PlanIdsAtTheGate(e: Env, p: Plan, symbol: ProbeSymbol, raw: Raw)
    requires p.classification.Ready? && Accepts(e, p) && p.subject == Exactly(SubjectFor(e.contract, symbol))
    ensures p.ids.Exactly?
    ensures raw.clientOrderId == p.ids.value.entry ==> (Construct(raw).Ok? <==> EntryShape(Read(raw), symbol))
    ensures raw.clientOrderId == p.ids.value.exit ==> (Construct(raw).Ok? <==> ExitShape(Read(raw), symbol))
    ensures raw.clientOrderId == p.ids.value.cancel ==> Construct(raw).Err?
  {
    SymbolReads(symbol);
    ReadyAcceptance(e, p);
    var fingerprint := Digest(p.identityFingerprint).value;
    var token := fingerprint[..16];
    assert p.ids == Exactly(DeterministicIds(symbol, fingerprint));
    TokenOfDigest(fingerprint);
    IdsAtTheGate(symbol, token, p.ids.value, raw);
  }

  lemma IdsAtTheGate(symbol: ProbeSymbol, token: string, ids: Ids, raw: Raw)
    requires IsToken(token) && ids.entry == ProbeId(Stem(symbol), "entry", token)
    requires ids.exit == ProbeId(Stem(symbol), "exit", token) && ids.cancel == ProbeId(Stem(symbol), "cancel", token)
    ensures raw.clientOrderId == ids.entry ==> (Construct(raw).Ok? <==> EntryShape(Read(raw), symbol))
    ensures raw.clientOrderId == ids.exit ==> (Construct(raw).Ok? <==> ExitShape(Read(raw), symbol))
    ensures raw.clientOrderId == ids.cancel ==> Construct(raw).Err?
  {
    if raw.clientOrderId == ids.entry {
      EntryIdAccepted(symbol, token, raw);
    }
    if raw.clientOrderId == ids.exit {
      ExitIdAccepted(symbol, token, raw);
    }
    if raw.clientOrderId == ids.cancel {
      CancelIdRefused(symbol, token, raw);
    }
  }

  // ---------------------------------------------------------------- the assumptions can be met

  /** Documents that pass for the given symbol and time. */
  lemma PassingBindings(e: Env, symbol: ProbeSymbol, asOf: int) returns (b: Bindings)
    requires Sane(e) && HasWindow(asOf) && e.contract.namespaces != {}
    ensures b.account.Exactly?
    ensures BindingsError(e.contract, e.hashes.candidate, e.clock, Name(symbol), b, asOf) == None
  {
    var k, name, at, digest := e.contract, Name(symbol), e.clock.iso(asOf), e.hashes.text("");
    var namespace :| namespace in k.namespaces;
    var digests := [Quoted(digest), Quoted(digest), Quoted(digest), Quoted(digest), Quoted(digest), Quoted(digest)];
    DigestIsItself(digest);
    StripTrims("s");
    var unsigned := Candidate(k.candidatePrefix + name + ":s", name, Quoted("s"), Quoted("s"), "", true, k.direction,
                              k.signalExecution, k.transitionPolicy, Quoted("s"), Quoted(""));
    var candidate := unsigned.(fingerprint := Quoted(e.hashes.candidate(unsigned)));
    DigestIsItself(e.hashes.candidate(unsigned));
    assert candidate.(fingerprint := Quoted("")) == unsigned;
    assert CandidateFits(k, e.hashes.candidate, name, Exactly(candidate));
    var terminal := Terminal(name, Exactly(candidate), k.terminalClassification, digests, at);
    assert TerminalError(k, e.hashes.candidate, e.clock, name, Exactly(terminal), asOf) == None;
    var one := Quantity("1", Some(1.0));
    var record := Orderability(name, k.assetClass, k.sourceMode, k.brokerStateMode, true, k.status, k.metadataStatus,
                               [], k.orderabilityStatus, [], k.orderabilityBasis, one, one, one, "");
    var venue := Venue(name, at, Quoted(digest), digests + [Quoted(digest), Quoted(digest)], Exactly(record));
    assert VenueError(k, e.clock, name, Exactly(venue), asOf) == None;
    var account := Account(k.accountSchema, k.broker, k.environment, namespace, k.algorithm, Quoted(digest), true,
                           true);
    b := Bindings(Exactly(terminal), Exactly(venue), Exactly(Safety(k.safetyPolicy, digests, at)), Exactly(account));
  }

  /** For every symbol and every instant with a window there is a ready plan that is accepted and
      canonically spelled, so the results about accepted plans have instances. */
  lemma ReadyPlanExists(e: Env, symbol: ProbeSymbol, asOf: int) returns (p: Plan)
    requires Sane(e) && HasWindow(asOf) && e.contract.namespaces != {}
    ensures p.classification.Ready? && Accepts(e, p) && CanonicalSpelling(e, p)
    ensures p.subject == Exactly(SubjectFor(e.contract, symbol)) && e.clock.read(p.asOf) == Some(asOf)
  {
    var b := PassingBindings(e, symbol, asOf);
    p := Sign(e, Draft(e, symbol, b, asOf, NUMBERS));
    CanonicalNumbersAreTheBuilders(NUMBERS);
    BuiltPlanError(e, symbol, b, asOf, NUMBERS);
    BuiltIsCanonical(e, symbol, b, asOf, NUMBERS);
  }

  /** A clock and hashes as the results assume them exist. */
  lemma SaneIsPossible() returns (e: Env)
    ensures Sane(e) && e.contract == V530
  {
    var digest := seq(64, _ => 'a');
    assert IsDigest(digest);
    var clock := NumeralClock();
    e := Env(V530, Hashes(_ => digest, _ => digest, _ => digest, _ => digest), clock,
             (a, b, c, d, f, g) => AuthorizationText(a, b, c, d, f, g));
  }

  lemma NumeralClock() returns (clock: Clock)
    ensures ClockReads(clock)
  {
    var read: string -> Option<int> :=
      s => if AllDigits(s) && IsInstant(NumeralValue(s)) then Some(NumeralValue(s)) else None;
    clock := Clock(read, t => if t >= 0 then Numeral(t) else "");
    forall t | IsInstant(t)
      ensures clock.read(clock.iso(t)) == Some(t)
    {
      NumeralRoundTrip(t);
    }
  }
}
