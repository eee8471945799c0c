/**
 What the validator of lifecycle plans finds and what their builder answers, as lists of requirements on
 the plan and its documents.
 */
module LifecycleAcceptance {
  import opened Wrappers
  import opened Gates
  import opened JsonValue
  import opened Text
  import opened OrderGate
  import opened LifecycleBindings
  import opened LifecycleDocuments
  import opened LifecyclePlan

  predicate Supported(name: string) {
    name == "BTCUSD" || name == "ETHUSD" || name == "SOLUSD"
  }

  lemma SymbolMeans(text: string)
    ensures var name := Upper(Strip(text));
            match SymbolOf(text)
            case None => !Supported(name)
            case Some(symbol) => name == Name(symbol) && Supported(name)
  {
  }

  /** The ids are derived from the symbol and the first 16 characters of the identity fingerprint. */
  predicate IdsFollow(ids: Ids, symbol: ProbeSymbol, fingerprint: string) {
    && |fingerprint| >= 16 && ids.planId == fingerprint
    && var token := fingerprint[..16];
       && ids.entry == "v530-bounded-probe-" + Stem(symbol) + "-entry-" + token
       && ids.exit == "v530-bounded-probe-" + Stem(symbol) + "-exit-" + token
       && ids.cancel == "v530-bounded-probe-" + Stem(symbol) + "-cancel-" + token
  }

  lemma ProbeIdMeans(stem: string, role: string, token: string)
    ensures ProbeId(stem, role, token) == "v530-bounded-probe-" + stem + "-" + role + "-" + token
  {
    var prefix := "v530-bounded-probe-";
    assert prefix + (stem + ("-" + (role + ("-" + token)))) == prefix + stem + "-" + role + "-" + token;
  }

  lemma IdsMean(ids: Ids, symbol: ProbeSymbol, fingerprint: string)
    requires IsDigest(fingerprint)
    ensures ids == DeterministicIds(symbol, fingerprint) <==> IdsFollow(ids, symbol, fingerprint)
  {
    var prefix, stem, token := "v530-bounded-probe-", Stem(symbol), fingerprint[..16];
    ProbeIdMeans(stem, "entry", token);
    ProbeIdMeans(stem, "exit", token);
    ProbeIdMeans(stem, "cancel", token);
    assert prefix + stem + "-" + "entry" + "-" + token == prefix + stem + "-entry-" + token;
    assert prefix + stem + "-" + "exit" + "-" + token == prefix + stem + "-exit-" + token;
    assert prefix + stem + "-" + "cancel" + "-" + token == prefix + stem + "-cancel-" + token;
  }

  /** Window, identity fingerprint, ids and authorization: the window is a quarter of an hour long, and each
      digest covers what it should. */
  ghost function DerivedFault(e: Env, p: Plan, symbol: ProbeSymbol, asOf: int): Option<PlanError>
    requires p.subject.Exactly? && p.bindings.account.Exactly?
  {
    var identity := e.hashes.identity(IdentityOf(p));
    Require(e.clock.read(p.validUntil).Some?, BadTime,
    Require(asOf + 900_000_000 <= 315_537_897_599_999_999, TimeOverflow,
    Require(e.clock.read(p.validUntil) == Some(asOf + 900_000_000), WindowDrift,
    Require(SpellsSome(p.identityFingerprint), BadDigest,
    Require(Spells(p.identityFingerprint, identity), IdentityMismatch,
    if !(p.ids.Exactly? && IdsFollow(p.ids.value, symbol, identity)) then Some(IdsDrift)
    else
      Require(SpellsSome(p.authorizationSha), BadDigest,
      Require(Spells(p.authorizationSha, e.hashes.text(SentenceOf(e, p))), AuthorizationDrift, None)))))))
  }

  lemma DerivedMeans(e: Env, p: Plan, symbol: ProbeSymbol, asOf: int)
    requires Sane(e) && IsInstant(asOf) && p.subject.Exactly? && p.bindings.account.Exactly?
    ensures DerivedError(e, p, symbol, asOf) == DerivedFault(e, p, symbol, asOf)
  {
    var identity := e.hashes.identity(IdentityOf(p));
    SomeDigest(p.identityFingerprint);
    DigestMeans(p.identityFingerprint, identity);
    if Digest(p.identityFingerprint) == Some(identity) && p.ids.Exactly? {
      IdsMean(p.ids.value, symbol, identity);
      if IdsFollow(p.ids.value, symbol, identity) {
        SomeDigest(p.authorizationSha);
        DigestMeans(p.authorizationSha, e.hashes.text(SentenceOf(e, p)));
      }
    }
  }

  ghost function ReadyFault(e: Env, p: Plan, asOf: int): Option<PlanError> {
    if !p.subject.Exactly? then Some(SubjectDrift)
    else
      match SymbolOf(p.subject.value.symbol)
      case None => Some(UnsupportedSymbol)
      case Some(symbol) =>
        var k := e.contract;
        var fault := DocumentsFault(k, e.hashes.candidate, e.clock, Name(symbol), p.bindings, asOf);
        if p.subject.value != Subject(k.assetClass, Name(symbol), k.environment) then Some(SubjectDrift)
        else if fault.Some? then Some(BadBinding(fault.value))
        else
          Require(&& p.notional == k.notional && p.timeInForce == k.timeInForce && p.blockers == []
                  && NumbersEqual(p.numbers), BindingDrift,
                  if p.bindings.account.Exactly? then DerivedFault(e, p, symbol, asOf) else None)
  }

  lemma ReadyMeans(e: Env, p: Plan, asOf: int)
    requires Sane(e) && IsInstant(asOf)
    ensures ReadyError(e, p, asOf) == ReadyFault(e, p, asOf)
  {
    if p.subject.Exactly? && SymbolOf(p.subject.value.symbol).Some? {
      var symbol := SymbolOf(p.subject.value.symbol).value;
      BindingsMeans(e.contract, e.hashes.candidate, e.clock, Name(symbol), p.bindings, asOf);
      if BindingsError(e.contract, e.hashes.candidate, e.clock, Name(symbol), p.bindings, asOf) == None {
        BoundNamesAgree(e.contract, e.hashes.candidate, e.clock, Name(symbol), p.bindings, asOf);
        DerivedMeans(e, p, symbol, asOf);
      }
    }
  }

  /** Every answer of the validator: the first of these requirements that does not hold. */
  ghost function PlanFault(e: Env, p: Plan): Option<PlanError> {
    var k := e.contract;
    Require(&& p.schema == k.planSchema && p.recordType == k.planRecordType && p.profitClaim == k.profitClaim
            && p.numbers.authority.Exactly? && EqualInts(p.numbers.authority.value, [0, 0, 0, 0, 0, 0, 0, 0]),
            IdentityDrift,
    Require(e.clock.read(p.asOf).Some?, BadTime,
    Require(SpellsSome(p.fingerprint), BadDigest,
    Require(Spells(p.fingerprint, e.hashes.plan(p.(fingerprint := Quoted("")))), FingerprintMismatch,
    if e.clock.read(p.asOf) == None then None
    else
      match p.classification
      case Dormant => Require(Inert(k, p), DormantNotInert, None)
      case Ready => ReadyFault(e, p, e.clock.read(p.asOf).value)
      case OtherClassification(_) => Some(BadClassification)))))
  }

  lemma PlanMeans(e: Env, p: Plan)
    requires Sane(e)
    ensures PlanErrorOf(e, p) == PlanFault(e, p)
  {
    SomeDigest(p.fingerprint);
    DigestMeans(p.fingerprint, e.hashes.plan(p.(fingerprint := Quoted(""))));
    if e.clock.read(p.asOf).Some? {
      ReadyMeans(e, p, e.clock.read(p.asOf).value);
    }
  }

  /** A ready plan is accepted only on documents that stand: an account configured and matched, a terminal
      closed by the time of the plan, a venue observed within the day before it, and a safety certified
      within the week before it. */
  lemma AcceptedDocuments(e: Env, p: Plan)
    requires Sane(e) && p.classification.Ready? && Accepts(e, p)
    ensures p.subject.Exactly? && Supported(p.subject.value.symbol) && e.clock.read(p.asOf).Some?
    ensures var k, name, asOf := e.contract, p.subject.value.symbol, e.clock.read(p.asOf).value;
            && AccountStands(k, p.bindings.account)
            && p.bindings.terminal.Exactly? && p.bindings.venue.Exactly? && p.bindings.safety.Exactly?
            && CandidateStands(k, e.hashes.candidate, name, p.bindings.terminal.value.candidate)
            && StampedIn(e.clock, p.bindings.terminal.value.closedAt, 0, asOf)
            && StampedIn(e.clock, p.bindings.venue.value.observedAt, asOf - 86_400_000_000, asOf)
            && OrderabilityStands(k, name, p.bindings.venue.value.record)
            && StampedIn(e.clock, p.bindings.safety.value.certifiedAt, asOf - 604_800_000_000, asOf)
            && e.clock.read(p.validUntil) == Some(asOf + 900_000_000)
  {
    ReadyAcceptance(e, p);
    var symbol, asOf := SymbolOf(p.subject.value.symbol).value, e.clock.read(p.asOf).value;
    SymbolMeans(p.subject.value.symbol);
    BindingsMeans(e.contract, e.hashes.candidate, e.clock, Name(symbol), p.bindings, asOf);
    DerivedMeans(e, p, symbol, asOf);
    assert TerminalFault(e.contract, e.hashes.candidate, e.clock, Name(symbol), p.bindings.terminal, asOf) == None;
  }

  /** What the builder answers, exactly: a plan whose fields are the builder's when the symbol and the time
      can be read and the documents stand, and else the first of these faults. */
  lemma BuildAnswers(e: Env, symbolText: string, b: Bindings, asOfText: string)
    requires Sane(e)
    ensures var r := Build(e, symbolText, b, asOfText);
            var name := Upper(Strip(symbolText));
            if !Supported(name) then r == Err(UnsupportedSymbol)
            else if e.clock.read(asOfText) == None then r == Err(BadTime)
            else
              var asOf := e.clock.read(asOfText).value;
              var fault := DocumentsFault(e.contract, e.hashes.candidate, e.clock, name, b, asOf);
              if asOf + 900_000_000 > 315_537_897_599_999_999 then r == Err(TimeOverflow)
              else if fault.Some? then r == Err(BadBinding(fault.value))
              else
                && r.Ok? && r.value.bindings == b && r.value.numbers == NUMBERS
                && r.value.subject == Exactly(SubjectFor(e.contract, SymbolOf(symbolText).value))
                && BuilderFields(e, r.value, SymbolOf(symbolText).value, asOf)
  {
    SymbolMeans(symbolText);
    var symbol, asOf := SymbolOf(symbolText), e.clock.read(asOfText);
    if symbol.Some? && asOf.Some? && HasWindow(asOf.value) {
      BindingsMeans(e.contract, e.hashes.candidate, e.clock, Name(symbol.value), b, asOf.value);
      if b.account.Exactly? {
        CanonicalNumbersAreTheBuilders(NUMBERS);
        BuiltPlanError(e, symbol.value, b, asOf.value, NUMBERS);
        BuiltFields(e, symbol.value, b, asOf.value);
      }
    }
  }

  lemma BuiltFields(e: Env, symbol: ProbeSymbol, b: Bindings, asOf: int)
    requires Sane(e) && b.account.Exactly?
    ensures var plan := Sign(e, Draft(e, symbol, b, asOf, NUMBERS));
            && plan.bindings == b && plan.numbers == NUMBERS
            && plan.subject == Exactly(SubjectFor(e.contract, symbol)) && BuilderFields(e, plan, symbol, asOf)
  {
    var draft := Draft(e, symbol, b, asOf, NUMBERS);
    var plan := Sign(e, draft);
    assert IdentityOf(plan) == ReadyIdentity(e, symbol, b, asOf, NUMBERS);
    assert SentenceOf(e, plan) == SentenceOf(e, draft);
    assert plan.(fingerprint := Quoted("")) == draft.(authorizationSha := plan.authorizationSha);
  }
}
