/**
 What the documents of a lifecycle plan must say to pass, field by field, and which fault is reported
 first when they do not.
 */
module LifecycleDocuments {
  import opened Wrappers
  import opened Gates
  import opened JsonValue
  import opened Text
  import opened OrderGate
  import opened LifecycleBindings

  // ---------------------------------------------------------------- digests and timestamps

  /** A field spells a digest as 64 hexadecimal characters, in either case and with any space around them. */
  ghost predicate Spells(f: Field, d: string) {
    exists before, core, after ::
      && Shown(f) == before + core + after && Blank(before) && Blank(after)
      && |core| == 64 && Lower(core) == d && forall i :: 0 <= i < 64 ==> d[i] in "0123456789abcdef"
  }

  lemma HexDigits(c: char)
    ensures IsHexDigit(c) <==> c in "0123456789abcdef"
  {
    var digits := "0123456789abcdef";
    if '0' <= c <= '9' {
      assert digits[c as int - '0' as int] == c;
    }
    if 'a' <= c <= 'f' {
      assert digits[c as int - 'a' as int + 10] == c;
    }
  }

  lemma DigestDigits(d: string)
    ensures IsDigest(d) <==> |d| == 64 && forall i :: 0 <= i < |d| ==> d[i] in "0123456789abcdef"
  {
    forall i | 0 <= i < |d|
      ensures IsHexDigit(d[i]) <==> d[i] in "0123456789abcdef"
    {
      HexDigits(d[i]);
    }
  }

  lemma PaddedIsDigest(before: string, core: string, after: string)
    requires Blank(before) && Blank(after) && IsDigest(Lower(core))
    ensures Folded(before + core + after) == Lower(core)
  {
    var d := Lower(core);
    assert IsHexDigit(d[0]) && d[0] == LowerChar(core[0]);
    assert IsHexDigit(d[63]) && d[63] == LowerChar(core[63]);
    StripUnique(before, core, after);
  }

  lemma DigestMeans(f: Field, d: string)
    ensures Digest(f) == Some(d) <==> Spells(f, d)
  {
    DigestDigits(d);
    if Digest(f) == Some(d) {
      var before, after := StripMeans(Shown(f));
      assert Shown(f) == before + Strip(Shown(f)) + after && |Strip(Shown(f))| == 64;
    }
    if Spells(f, d) {
      var before, core, after :| && Shown(f) == before + core + after && Blank(before) && Blank(after)
        && |core| == 64 && Lower(core) == d && forall i :: 0 <= i < 64 ==> d[i] in "0123456789abcdef";
      PaddedIsDigest(before, core, after);
    }
  }

  ghost predicate SpellsSome(f: Field) {
    exists d :: Spells(f, d)
  }

  lemma SomeDigest(f: Field)
    ensures Digest(f).Some? <==> SpellsSome(f)
  {
    if Digest(f).Some? {
      DigestMeans(f, Digest(f).value);
    }
    if SpellsSome(f) {
      var d :| Spells(f, d);
      DigestMeans(f, d);
    }
  }

  ghost predicate AllSpelled(fields: seq<Field>) {
    forall i :: 0 <= i < |fields| ==> SpellsSome(fields[i])
  }

  lemma AllDigestsMeans(fields: seq<Field>)
    ensures AllDigests(fields) <==> AllSpelled(fields)
  {
    forall i | 0 <= i < |fields|
      ensures Digest(fields[i]).Some? <==> SpellsSome(fields[i])
    {
      SomeDigest(fields[i]);
    }
  }

  /** The text is what an instant of this period prints as. */
  ghost predicate StampedIn(clock: Clock, text: string, from: int, to: int) {
    exists t :: clock.read(text) == Some(t) && clock.iso(t) == text && from <= t <= to
  }

  // ---------------------------------------------------------------- the four documents

  /** The account is a configured and matched paper account of this broker, under a digest in lower case. */
  ghost predicate AccountStands(k: Contract, account: Doc<Account>) {
    && account.Exactly?
    && var a := account.value;
       && a.configured && a.matched
       && a.schema == k.accountSchema && a.broker == k.broker && a.environment == k.environment
       && a.algorithm == k.algorithm && a.namespace in k.namespaces
       && |Shown(a.fingerprint)| == 64 && forall i :: 0 <= i < 64 ==> Shown(a.fingerprint)[i] in "0123456789abcdef"
  }

  /** The candidate is a strategy for this symbol under an id made of both, with its provenance filled in,
      and its fingerprint is the hash of everything else in it. */
  ghost predicate CandidateStands(k: Contract, hash: Candidate -> string, symbol: string, candidate: Doc<Candidate>) {
    && candidate.Exactly?
    && var c := candidate.value;
       && c.symbol == symbol && c.id == k.candidatePrefix + symbol + ":" + Strip(Shown(c.strategyId))
       && !Blank(Shown(c.strategyId)) && !Blank(Shown(c.family)) && !Blank(Shown(c.factoryVersion))
       && c.direction == k.direction && c.signalExecution == k.signalExecution
       && c.transitionPolicy == k.transitionPolicy && c.parametersAreObjects
       && Spells(c.fingerprint, hash(c.(fingerprint := Quoted(""))))
  }

  /** The venue lets the symbol be ordered in lots and steps above zero, from at most ten dollars on. */
  ghost predicate OrderabilityStands(k: Contract, symbol: string, record: Doc<Orderability>) {
    && record.Exactly?
    && var r := record.value;
       && r.symbol == symbol && r.tradable && r.metadataBlockers == [] && r.orderabilityBlockers == []
       && r.assetClass == k.assetClass && r.sourceMode == k.sourceMode && r.brokerStateMode == k.brokerStateMode
       && r.status == k.status && r.metadataStatus == k.metadataStatus
       && r.orderabilityStatus == k.orderabilityStatus && r.basis == k.orderabilityBasis
       && r.minNotional.value.Some? && 0.0 < r.minNotional.value.value <= 10.0
       && r.minOrderSize.value.Some? && r.minOrderSize.value.value > 0.0
       && r.minTradeIncrement.value.Some? && r.minTradeIncrement.value.value > 0.0
  }

  ghost function TerminalFault(k: Contract, hash: Candidate -> string, clock: Clock, symbol: string,
                               terminal: Doc<Terminal>, asOf: int): Option<BindingError>
  {
    if !terminal.Exactly? then Some(TerminalKeys)
    else
      var t := terminal.value;
      Require(|t.digests| == 6, TerminalKeys,
      Require(CandidateStands(k, hash, symbol, t.candidate), CandidateDrift,
      Require(t.selectedSymbol == symbol && t.classification == k.terminalClassification, TerminalIdentity,
      Require(AllSpelled(t.digests), TerminalDigest,
      Require(exists at :: at <= asOf && StampedIn(clock, t.closedAt, at, at), TerminalTime, None)))))
  }

  /** The venue was observed in the day before the plan, and the safety certified in the week before it. */
  ghost function VenueFault(k: Contract, clock: Clock, symbol: string, venue: Doc<Venue>, asOf: int)
    : Option<BindingError>
  {
    if !venue.Exactly? then Some(VenueKeys)
    else
      var v := venue.value;
      Require(StampedIn(clock, v.observedAt, asOf - 86_400_000_000, asOf), VenueTime,
      Require(v.targetSymbol == symbol, VenueSymbol,
      Require(SpellsSome(v.bundleFingerprint) && |v.sourceDigests| == 8 && AllSpelled(v.sourceDigests), VenueDigest,
      Require(OrderabilityStands(k, symbol, v.record), OrderabilityDrift, None))))
  }

  ghost function SafetyFault(k: Contract, clock: Clock, safety: Doc<Safety>, asOf: int): Option<BindingError> {
    if !safety.Exactly? then Some(SafetyKeys)
    else
      var s := safety.value;
      Require(|s.digests| == 6, SafetyKeys,
      Require(s.policyFingerprint == k.safetyPolicy, SafetyPolicy,
      Require(AllSpelled(s.digests), SafetyDigest,
      Require(StampedIn(clock, s.certifiedAt, asOf - 604_800_000_000, asOf), SafetyTime, None))))
  }

  /** The first fault of the four documents; None when they all stand. */
  ghost function DocumentsFault(k: Contract, hash: Candidate -> string, clock: Clock, symbol: string, b: Bindings,
                                asOf: int): Option<BindingError>
  {
    Require(AccountStands(k, b.account), AccountInvalid,
            Then(TerminalFault(k, hash, clock, symbol, b.terminal, asOf),
                 Then(VenueFault(k, clock, symbol, b.venue, asOf), SafetyFault(k, clock, b.safety, asOf))))
  }

  // ---------------------------------------------------------------- the checks meet the documents

  lemma AccountMeans(k: Contract, account: Doc<Account>)
    ensures AccountError(k, account) == if AccountStands(k, account) then None else Some(AccountInvalid)
  {
    if account.Exactly? {
      DigestDigits(Shown(account.value.fingerprint));
    }
  }

  lemma CandidateMeans(k: Contract, hash: Candidate -> string, symbol: string, candidate: Doc<Candidate>)
    ensures CandidateFits(k, hash, symbol, candidate) <==> CandidateStands(k, hash, symbol, candidate)
  {
    if candidate.Exactly? {
      var c := candidate.value;
      StripBlank(Shown(c.strategyId));
      StripBlank(Shown(c.family));
      StripBlank(Shown(c.factoryVersion));
      DigestMeans(c.fingerprint, hash(c.(fingerprint := Quoted(""))));
    }
  }

  lemma TerminalMeans(k: Contract, hash: Candidate -> string, clock: Clock, symbol: string, terminal: Doc<Terminal>,
                      asOf: int)
    ensures TerminalError(k, hash, clock, symbol, terminal, asOf)
         == TerminalFault(k, hash, clock, symbol, terminal, asOf)
  {
    if terminal.Exactly? {
      var t := terminal.value;
      CandidateMeans(k, hash, symbol, t.candidate);
      AllDigestsMeans(t.digests);
      if clock.read(t.closedAt).Some? {
        var at := clock.read(t.closedAt).value;
        assert clock.iso(at) == t.closedAt ==> StampedIn(clock, t.closedAt, at, at);
      }
    }
  }

  lemma OrderabilityMeans(k: Contract, symbol: string, record: Doc<Orderability>)
    ensures OrderabilityFits(k, symbol, record) <==> OrderabilityStands(k, symbol, record)
  {
  }

  lemma VenueMeans(k: Contract, clock: Clock, symbol: string, venue: Doc<Venue>, asOf: int)
    ensures VenueError(k, clock, symbol, venue, asOf) == VenueFault(k, clock, symbol, venue, asOf)
  {
    if venue.Exactly? {
      SomeDigest(venue.value.bundleFingerprint);
      AllDigestsMeans(venue.value.sourceDigests);
      OrderabilityMeans(k, symbol, venue.value.record);
    }
  }

  lemma SafetyMeans(k: Contract, clock: Clock, safety: Doc<Safety>, asOf: int)
    ensures SafetyError(k, clock, safety, asOf) == SafetyFault(k, clock, safety, asOf)
  {
    if safety.Exactly? {
      AllDigestsMeans(safety.value.digests);
    }
  }

  /** The checks on the bound documents find exactly the first fault of what the documents say. */
  lemma BindingsMeans(k: Contract, hash: Candidate -> string, clock: Clock, symbol: string, b: Bindings, asOf: int)
    ensures BindingsError(k, hash, clock, symbol, b, asOf) == DocumentsFault(k, hash, clock, symbol, b, asOf)
  {
    AccountMeans(k, b.account);
    TerminalMeans(k, hash, clock, symbol, b.terminal, asOf);
    VenueMeans(k, clock, symbol, b.venue, asOf);
    SafetyMeans(k, clock, b.safety, asOf);
  }
}
