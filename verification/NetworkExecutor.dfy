/**
 The apply mode of the read-only network executor: its step system, in which a process may stop
 anywhere after its reservation, and the method that takes those steps against the ledger.
 */
module NetworkExecutor {
  import opened Wrappers
  import opened Seqs
  import opened Text
  import opened JsonValue
  import opened LedgerRecord
  import opened NetworkLedger

  const ATTEMPT_BUDGET := 4

  type NonEmpty = s: string | s != "" witness "-"

  /** What one apply call reads from its surroundings: the interlock verdict and the credential. */
  datatype Env = Env(verdict: Verdict, paperBoundaryOk: bool, tokenAvailable: bool)

  /** A network call, with the length of the ledger at the moment it was made. */
  datatype Call = Call(reservation: Event, ledgerLength: nat)

  /** The process that holds the lock after reserving an attempt. */
  datatype Flight = Flight(reservation: Event, called: bool)

  /** The ledger is kept as what its lines say; `Executor` below keeps the lines themselves. */
  datatype State = State(ledger: seq<Option<Event>>, flight: Option<Flight>, calls: seq<Call>)

  datatype Step =
    | Begin(session: NonEmpty, asOf: NonEmpty, env: Env)
    | CallNetwork
    | Complete(refreshState: string)
    | Stop

  const INITIAL := State([], None, [])

  /** The event appended for a call that found `prior` reservations: a refusal or a reservation. */
  function Decision(prior: nat, session: string, asOf: string, env: Env): Event {
    if prior >= ATTEMPT_BUDGET then Refused(session, asOf, prior + 1, BudgetExhausted)
    else if !env.paperBoundaryOk then Refused(session, asOf, prior + 1, InterlockBlocked(env.verdict))
    else if !env.tokenAvailable then Refused(session, asOf, prior + 1, TokenNotAvailable(env.verdict))
    else Pending(session, asOf, prior + 1, env.verdict)
  }

  function Completion(reservation: Event, refreshState: string): Event
    requires reservation.Pending?
  {
    Completed(reservation.session, reservation.asOf, reservation.attempt, reservation.verdict,
              StartsWith(refreshState, "accepted"), refreshState)
  }

  /** An attempt is reserved exactly when fewer than four were, the interlock lets it through and the credential
      is there; else the first of the three that fails is the refusal. */
  lemma DecisionMeans(prior: nat, session: string, asOf: string, env: Env)
    ensures var e := Decision(prior, session, asOf, env);
            && e.session == session && e.asOf == asOf && e.attempt == prior + 1 && !e.Completed?
            && (e.Pending? <==> prior < 4 && env.paperBoundaryOk && env.tokenAvailable)
            && (e.Pending? ==> e.verdict == env.verdict)
            && (e.Refused? ==>
                  && (e.refusal == BudgetExhausted <==> prior >= 4)
                  && (e.refusal == InterlockBlocked(env.verdict) <==> prior < 4 && !env.paperBoundaryOk)
                  && (e.refusal == TokenNotAvailable(env.verdict) <==>
                        prior < 4 && env.paperBoundaryOk && !env.tokenAvailable))
  {
  }

  /** The completion of a reservation repeats it, and its line tells with exit code 0 of a refresh state that
      begins with `accepted` and with 1 of any other. */
  lemma CompletionMeans(reservation: Event, refreshState: string)
    requires reservation.Pending?
    ensures var e := Completion(reservation, refreshState);
            && Completes(e, reservation) && e.verdict == reservation.verdict
            && e.succeeded == ("accepted" <= refreshState) && e.refreshState == refreshState
            && Encode(e).record.exitCode == Int(if "accepted" <= refreshState then 0 else 1)
            && Encode(e).record.adapterRefreshState == Str(refreshState)
  {
    JsonEqualsItself(JsonValue.Dict(reservation.verdict));
  }

  /** One step. A step that is not enabled, such as beginning while another process holds the lock
      or over a ledger that is refused as corrupt, changes nothing. */
  ghost function Next(st: State, step: Step): State {
    match step
    case Begin(session, asOf, env) =>
      if st.flight.Some? || !Accepted(st.ledger) then st
      else
        var e := Decision(|Attempts(Events(st.ledger), session)|, session, asOf, env);
        st.(ledger := st.ledger + [Written(e)],
            flight := if e.Pending? then Some(Flight(e, false)) else None)
    case CallNetwork =>
      if st.flight.None? || st.flight.value.called then st
      else
        var e := st.flight.value.reservation;
        st.(flight := Some(Flight(e, true)), calls := st.calls + [Call(e, |st.ledger|)])
    case Complete(refreshState) =>
      if st.flight.None? || !st.flight.value.called || !st.flight.value.reservation.Pending? then st
      else
        st.(ledger := st.ledger + [Written(Completion(st.flight.value.reservation, refreshState))], flight := None)
    case Stop => st.(flight := None)
  }

  ghost function RunFrom(st: State, steps: seq<Step>): State {
    if steps == [] then st else Next(RunFrom(st, steps[..|steps| - 1]), steps[|steps| - 1])
  }

  ghost function Run(steps: seq<Step>): State {
    RunFrom(INITIAL, steps)
  }

  // ---------------------------------------------------------------- the invariant

  /** Calls use distinct reservations, numbered within the budget, each already in the ledger. */
  ghost predicate CallsReserved(st: State) {
    && (forall i, j :: 0 <= i < j < |st.calls| ==>
          !SameAttempt(st.calls[i].reservation, st.calls[j].reservation))
    && (forall c :: c in st.calls ==>
          && c.reservation.Pending?
          && 1 <= c.reservation.attempt <= ATTEMPT_BUDGET
          && c.ledgerLength <= |st.ledger|
          && Some(c.reservation) in st.ledger[..c.ledgerLength])
  }

  ghost predicate FlightTracked(st: State, es: seq<Event>) {
    && (forall c :: c in st.calls ==> c.reservation in es)
    && (st.flight.Some? ==>
          var f := st.flight.value;
          && f.reservation in es && f.reservation.Pending? && Some(f.reservation) in st.ledger
          && (forall c :: c in es && c.Completed? ==> !SameAttempt(c, f.reservation))
          && (!f.called ==> forall c :: c in st.calls ==> !SameAttempt(c.reservation, f.reservation)))
  }

  ghost predicate WithinBudget(es: seq<Event>) {
    forall e :: e in es ==> Writable(e) && (e.Pending? ==> e.attempt <= ATTEMPT_BUDGET)
  }

  ghost predicate Healthy(st: State) {
    && Accepted(st.ledger)
    && FlightTracked(st, Events(st.ledger))
    && WithinBudget(Events(st.ledger))
    && CallsReserved(st)
  }

  /** No process is in flight and the ledger is refused, so no step does anything any more. */
  ghost predicate LockedOut(st: State) {
    st.flight.None? && !Accepted(st.ledger) && CallsReserved(st)
  }

  lemma AcceptedAppend(ledger: seq<Option<Event>>, e: Event)
    requires Accepted(ledger) && Writable(e) && Lawful(Events(ledger) + [e])
    ensures Accepted(ledger + [Written(e)])
    ensures Events(ledger + [Written(e)]) == Events(ledger) + [e]
  {
    var l := ledger + [Written(e)];
    assert forall i :: 0 <= i < |l| ==> l[i] == Some((Events(ledger) + [e])[i]);
    assert Readable(l);
    assert Events(l) == Events(ledger) + [e];
  }

  lemma UnwritableCorrupts(ledger: seq<Option<Event>>, e: Event)
    requires !Writable(e)
    ensures !Accepted(ledger + [Written(e)])
  {
    var l := ledger + [Written(e)];
    assert l[|ledger|] == None;
  }

  /** The ledger only grows, so what preceded a call still precedes it. */
  lemma CallsStayReserved(st: State, st': State)
    requires CallsReserved(st) && st'.calls == st.calls && st.ledger <= st'.ledger
    ensures CallsReserved(st')
  {
    forall c | c in st.calls
      ensures Some(c.reservation) in st'.ledger[..c.ledgerLength]
    {
      assert st'.ledger[..c.ledgerLength] == st.ledger[..c.ledgerLength];
    }
  }

  lemma BeginKeepsHealthy(st: State, session: NonEmpty, asOf: NonEmpty, env: Env)
    requires Healthy(st)
    ensures Healthy(Next(st, Begin(session, asOf, env)))
  {
    if st.flight.None? {
      var es := Events(st.ledger);
      var prior := |Attempts(es, session)|;
      var e := Decision(prior, session, asOf, env);
      LawfulExtend(es, e);
      AcceptedAppend(st.ledger, e);
      var st' := Next(st, Begin(session, asOf, env));
      assert Events(st'.ledger) == es + [e];
      assert forall x :: x in es + [e] <==> x in es || x == e;
      CallsStayReserved(st, st');
      if e.Pending? {
        FreshAttempt(es, session, e);
        assert st'.ledger[|st.ledger|] == Some(e);
      }
    }
  }

  /** The next attempt number of a session occurs in no earlier event. */
  lemma FreshAttempt(es: seq<Event>, session: string, e: Event)
    requires Lawful(es) && e.session == session && e.attempt == |Attempts(es, session)| + 1
    ensures forall x :: x in es && !x.Refused? ==> !SameAttempt(x, e)
  {
    forall x | x in es && !x.Refused?
      ensures !SameAttempt(x, e)
    {
      var i :| 0 <= i < |es| && es[i] == x;
      IdIsReserved(es, i);
    }
  }

  lemma CallKeepsHealthy(st: State)
    requires Healthy(st)
    ensures Healthy(Next(st, CallNetwork))
  {
    if st.flight.Some? && !st.flight.value.called {
      assert st.ledger[..|st.ledger|] == st.ledger;
    }
  }

  lemma CompleteKeepsHealthy(st: State, refreshState: string)
    requires Healthy(st) && refreshState != ""
    ensures Healthy(Next(st, Complete(refreshState)))
  {
    if st.flight.Some? && st.flight.value.called {
      var es := Events(st.ledger);
      var r := st.flight.value.reservation;
      var e := Completion(r, refreshState);
      var i :| 0 <= i < |es| && es[i] == r;
      JsonEqualsItself(JsonValue.Dict(r.verdict));
      assert Completes(e, r);
      assert Writable(r);
      LawfulExtend(es, e);
      AcceptedAppend(st.ledger, e);
      var st' := Next(st, Complete(refreshState));
      assert Events(st'.ledger) == es + [e];
      CallsStayReserved(st, st');
    }
  }

  /** The one step that damages the ledger: completing with an empty refresh state. */
  ghost predicate Damages(st: State, step: Step) {
    step == Complete("") && st.flight.Some? && st.flight.value.called
  }

  lemma StepKeepsHealthy(st: State, step: Step)
    requires Healthy(st)
    ensures if Damages(st, step) then LockedOut(Next(st, step)) else Healthy(Next(st, step))
  {
    match step {
      case Begin(session, asOf, env) => BeginKeepsHealthy(st, session, asOf, env);
      case CallNetwork => CallKeepsHealthy(st);
      case Complete(refreshState) =>
        if refreshState != "" {
          CompleteKeepsHealthy(st, refreshState);
        } else if Damages(st, step) {
          var e := Completion(st.flight.value.reservation, "");
          UnwritableCorrupts(st.ledger, e);
          CallsStayReserved(st, Next(st, step));
        }
      case Stop =>
    }
  }

  /** Some completion in the run reported an empty refresh state. */
  ghost predicate ReportsEmptyState(steps: seq<Step>) {
    && steps != []
    && var init := steps[..|steps| - 1];
       ReportsEmptyState(init) || Damages(Run(init), steps[|steps| - 1])
  }

  lemma InitialHealthy()
    ensures Healthy(INITIAL)
  {
    assert Events([]) == [];
    forall s: string
      ensures Attempts([], s) == FirstNumbers(|Attempts([], s)|)
    {
      assert Attempts([], s) == {};
    }
  }

  lemma {:induction false} RunInvariant(steps: seq<Step>)
    ensures if ReportsEmptyState(steps) then LockedOut(Run(steps)) else Healthy(Run(steps))
  {
    if steps == [] {
      InitialHealthy();
    } else {
      var init := steps[..|steps| - 1];
      RunInvariant(init);
      if !ReportsEmptyState(init) {
        StepKeepsHealthy(Run(init), steps[|steps| - 1]);
      }
    }
  }

  // ---------------------------------------------------------------- results over all runs

  /** The pending events of one session. */
  function Reservations(es: seq<Event>, session: string): seq<Event> {
    Filter(es, (e: Event) => e.Pending? && e.session == session)
  }

  lemma CountExtend(es: seq<Event>, e: Event, session: string)
    requires Admissible(es, e) && |Attempts(es, session)| == |Reservations(es, session)|
    ensures |Attempts(es + [e], session)| == |Reservations(es + [e], session)|
  {
    AttemptsExtend(es, e, session);
    assert (es + [e])[..|es|] == es;
    if e.Pending? && e.session == session {
      assert e.attempt !in Attempts(es, session);
    }
  }

  /** On an ordered ledger the validator's count is the number of pending records of the session. */
  lemma {:induction false} CountIsReservations(es: seq<Event>, session: string)
    requires Ordered(es)
    ensures |Attempts(es, session)| == |Reservations(es, session)|
  {
    if es == [] {
      assert Attempts(es, session) == {};
    } else {
      var init, last := es[..|es| - 1], es[|es| - 1];
      assert es == init + [last];
      OrderedExtend(init, last);
      CountIsReservations(init, session);
      CountExtend(init, last, session);
    }
  }

  /** Over every run from the empty ledger, crashes included, the validator accepts what the writer
      left, and counts exactly each session's reservations, unless some completion reported an
      empty refresh state. */
  lemma WriterNeverLocksItselfOut(steps: seq<Step>, session: string)
    ensures Accepted(Run(steps).ledger) <==> !ReportsEmptyState(steps)
    ensures Accepted(Run(steps).ledger) ==>
              var es := Events(Run(steps).ledger);
              |Attempts(es, session)| == |Reservations(es, session)| <= ATTEMPT_BUDGET
  {
    RunInvariant(steps);
    if !ReportsEmptyState(steps) {
      var es := Events(Run(steps).ledger);
      CountIsReservations(es, session);
      forall n | n in Attempts(es, session)
        ensures n in FirstNumbers(ATTEMPT_BUDGET)
      {
      }
      SubsetCardinality(Attempts(es, session), FirstNumbers(ATTEMPT_BUDGET));
      FirstNumbersCardinality(ATTEMPT_BUDGET);
    }
  }

  /** After an empty refresh state is reported, no later step reaches the ledger or the network. */
  lemma {:induction false} EmptyStateLocksOutForGood(steps: seq<Step>, more: seq<Step>)
    requires ReportsEmptyState(steps)
    ensures Run(steps + more) == Run(steps)
  {
    if more == [] {
      assert steps + more == steps;
    } else {
      var n := |more| - 1;
      EmptyStateLocksOutForGood(steps, more[..n]);
      RunInvariant(steps);
      assert (steps + more)[..|steps + more| - 1] == steps + more[..n];
    }
  }

  /** The shortest run that damages the ledger: one call whose adapter returns an empty state. */
  lemma EmptyStateDamages(session: NonEmpty, asOf: NonEmpty, verdict: Verdict)
    ensures ReportsEmptyState([Begin(session, asOf, Env(verdict, true, true)), CallNetwork, Complete("")])
  {
    var steps := [Begin(session, asOf, Env(verdict, true, true)), CallNetwork, Complete("")];
    InitialHealthy();
    assert Events(INITIAL.ledger) == [];
    assert Attempts([], session) == {};
    assert steps[..2][..1] == steps[..1] && steps[..1][..0] == [];
    assert Run(steps[..1][..0]) == INITIAL;
    assert Run(steps[..1]) == Next(INITIAL, steps[0]);
    assert Run(steps[..2]) == Next(Run(steps[..1]), steps[1]);
  }

  /** Every refresh state reported in the run is one of `states`. */
  ghost predicate ReportsOnly(steps: seq<Step>, states: iset<string>) {
    forall s :: s in steps && s.Complete? ==> s.refreshState in states
  }

  lemma {:induction false} NonEmptyStatesAreHarmless(steps: seq<Step>)
    requires forall s :: s in steps && s.Complete? ==> s.refreshState != ""
    ensures !ReportsEmptyState(steps)
  {
    if steps != [] {
      NonEmptyStatesAreHarmless(steps[..|steps| - 1]);
    }
  }

  /** What the ledger asks of the adapter: whatever else happens, every run over its refresh states
      leaves a ledger the validator accepts if and only if none of those states is empty. */
  lemma AdapterKeepsLedgerIff(states: iset<string>)
    ensures (forall steps :: ReportsOnly(steps, states) ==> Accepted(Run(steps).ledger)) <==> "" !in states
  {
    if "" !in states {
      forall steps | ReportsOnly(steps, states)
        ensures Accepted(Run(steps).ledger)
      {
        NonEmptyStatesAreHarmless(steps);
        RunInvariant(steps);
      }
    } else {
      var steps := [Begin("-", "-", Env(map[], true, true)), CallNetwork, Complete("")];
      EmptyStateDamages("-", "-", map[]);
      RunInvariant(steps);
      assert ReportsOnly(steps, states);
    }
  }

  /** The numbers of the calls made for one session, in order. */
  function SessionCalls(calls: seq<Call>, session: string): seq<nat> {
    if calls == [] then []
    else
      var c := calls[|calls| - 1].reservation;
      SessionCalls(calls[..|calls| - 1], session) + if c.session == session then [c.attempt] else []
  }

  lemma {:induction false} SessionCallOrigin(calls: seq<Call>, session: string, n: nat)
    requires n in SessionCalls(calls, session)
    ensures exists i :: 0 <= i < |calls| && calls[i].reservation.session == session && calls[i].reservation.attempt == n
  {
    var last := |calls| - 1;
    if n in SessionCalls(calls[..last], session) {
      SessionCallOrigin(calls[..last], session, n);
      var i :| 0 <= i < last && calls[..last][i].reservation.session == session
               && calls[..last][i].reservation.attempt == n;
      assert calls[i].reservation.session == session;
    }
  }

  lemma {:induction false} SessionCallsDistinct(calls: seq<Call>, session: string)
    requires forall i, j :: 0 <= i < j < |calls| ==> !SameAttempt(calls[i].reservation, calls[j].reservation)
    ensures NoDup(SessionCalls(calls, session))
  {
    if calls != [] {
      var last := |calls| - 1;
      SessionCallsDistinct(calls[..last], session);
      if calls[last].reservation.attempt in SessionCalls(calls[..last], session) {
        SessionCallOrigin(calls[..last], session, calls[last].reservation.attempt);
      }
    }
  }

  /** In every run, at most four network calls are made for a session. */
  lemma AtMostFourCallsPerSession(steps: seq<Step>, session: string)
    ensures |SessionCalls(Run(steps).calls, session)| <= 4
  {
    RunInvariant(steps);
    var calls := Run(steps).calls;
    var numbers := SessionCalls(calls, session);
    SessionCallsDistinct(calls, session);
    forall n | n in numbers
      ensures n in FirstNumbers(ATTEMPT_BUDGET)
    {
      SessionCallOrigin(calls, session, n);
      var i :| 0 <= i < |calls| && calls[i].reservation.session == session && calls[i].reservation.attempt == n;
      assert calls[i] in calls;
    }
    NoDupCardinality(numbers);
    SubsetCardinality(Elements(numbers), FirstNumbers(ATTEMPT_BUDGET));
    FirstNumbersCardinality(ATTEMPT_BUDGET);
  }

  /** In every run, each network call was preceded in the ledger by its own pending record, and no
      two calls share a reservation. */
  lemma CallsFollowTheirReservations(steps: seq<Step>, i: nat)
    requires i < |Run(steps).calls|
    ensures var c := Run(steps).calls[i];
            && c.reservation.Pending?
            && c.ledgerLength <= |Run(steps).ledger|
            && Some(c.reservation) in Run(steps).ledger[..c.ledgerLength]
            && forall j :: 0 <= j < |Run(steps).calls| && j != i ==>
                 Id(Run(steps).calls[j].reservation) != Id(c.reservation)
  {
    RunInvariant(steps);
    var calls := Run(steps).calls;
    assert calls[i] in calls;
    forall j | 0 <= j < |calls| && j != i
      ensures Id(calls[j].reservation) != Id(calls[i].reservation)
    {
      assert !SameAttempt(calls[i].reservation, calls[j].reservation);
      if Id(calls[j].reservation) == Id(calls[i].reservation) {
        RunIdInjective(calls[j].reservation.session, calls[j].reservation.attempt,
                       calls[i].reservation.session, calls[i].reservation.attempt);
      }
    }
  }

  // ---------------------------------------------------------------- the executor

  /** How the adapter call ends: the process dies before it, it raises or the process dies during or
      after it, or it returns a refresh state. */
  datatype Adapter = NeverCalled | Interrupted | Returned(refreshState: string)

  datatype ApplyResult =
    | LockUnavailable
    | LedgerIsCorrupt
    | RefusedAttempt(event: Event)
    | Abandoned(reservation: Event)
    | Executed(reservation: Event, exitCode: int)

  ghost function ApplySteps(session: NonEmpty, asOf: NonEmpty, env: Env, adapter: Adapter): seq<Step> {
    [Begin(session, asOf, env)] +
    match adapter
    case NeverCalled => [Stop]
    case Interrupted => [CallNetwork, Stop]
    case Returned(refreshState) => [CallNetwork, Complete(refreshState)]
  }

  ghost function ResultOf(ledger: seq<Option<Event>>, session: NonEmpty, asOf: NonEmpty, env: Env,
                          adapter: Adapter): ApplyResult
  {
    if !Accepted(ledger) then LedgerIsCorrupt
    else
      var e := Decision(|Attempts(Events(ledger), session)|, session, asOf, env);
      if e.Refused? then RefusedAttempt(e)
      else if !adapter.Returned? then Abandoned(e)
      else Executed(e, if StartsWith(adapter.refreshState, "accepted") then 0 else 1)
  }

  /** What a call returns: no more than a refusal unless an attempt is reserved, and an exit code only when the
      adapter returned. */
  lemma ResultMeans(ledger: seq<Option<Event>>, session: NonEmpty, asOf: NonEmpty, env: Env, adapter: Adapter)
    ensures var r := ResultOf(ledger, session, asOf, env, adapter);
            && (r.LedgerIsCorrupt? <==> !Accepted(ledger)) && !r.LockUnavailable?
            && (Accepted(ledger) ==>
                  var prior := |Attempts(Events(ledger), session)|;
                  var reserved := prior < 4 && env.paperBoundaryOk && env.tokenAvailable;
                  var reservation := Pending(session, asOf, prior + 1, env.verdict);
                  && (r.RefusedAttempt? <==> !reserved)
                  && (r == Abandoned(reservation) <==> reserved && !adapter.Returned?)
                  && (r == Executed(reservation, 0) <==>
                        reserved && adapter.Returned? && "accepted" <= adapter.refreshState)
                  && (r == Executed(reservation, 1) <==>
                        reserved && adapter.Returned? && !("accepted" <= adapter.refreshState)))
  {
    if Accepted(ledger) {
      DecisionMeans(|Attempts(Events(ledger), session)|, session, asOf, env);
    }
  }

  lemma ApplyStepsUnfold(st: State, session: NonEmpty, asOf: NonEmpty, env: Env, adapter: Adapter)
    ensures var begun := Next(st, Begin(session, asOf, env));
            RunFrom(st, ApplySteps(session, asOf, env, adapter)) ==
            match adapter
            case NeverCalled => Next(begun, Stop)
            case Interrupted => Next(Next(begun, CallNetwork), Stop)
            case Returned(refreshState) => Next(Next(begun, CallNetwork), Complete(refreshState))
  {
    var steps := ApplySteps(session, asOf, env, adapter);
    assert RunFrom(st, steps[..0]) == st;
    assert steps[..1][..0] == steps[..0] && steps[..2][..1] == steps[..1];
    assert RunFrom(st, steps[..1]) == Next(st, steps[0]);
    assert RunFrom(st, steps[..2]) == Next(RunFrom(st, steps[..1]), steps[1]);
    assert |steps| == 2 ==> steps[..2] == steps;
  }

  /** One apply call on a sound ledger leaves it refused exactly when the network is called, which
      takes a free attempt, a passing interlock and a credential, and the adapter returns "". */
  lemma ApplyDamagesIff(st: State, session: NonEmpty, asOf: NonEmpty, env: Env, adapter: Adapter)
    requires Healthy(st) && st.flight.None?
    ensures !Accepted(RunFrom(st, ApplySteps(session, asOf, env, adapter)).ledger) <==>
              && |Attempts(Events(st.ledger), session)| < ATTEMPT_BUDGET && env.paperBoundaryOk && env.tokenAvailable
              && adapter == Returned("")
  {
    ApplyStepsUnfold(st, session, asOf, env, adapter);
    var begun := Next(st, Begin(session, asOf, env));
    StepKeepsHealthy(st, Begin(session, asOf, env));
    match adapter {
      case NeverCalled => StepKeepsHealthy(begun, Stop);
      case Interrupted =>
        StepKeepsHealthy(begun, CallNetwork);
        StepKeepsHealthy(Next(begun, CallNetwork), Stop);
      case Returned(refreshState) =>
        StepKeepsHealthy(begun, CallNetwork);
        CalledInFlight(st, session, asOf, env);
        StepKeepsHealthy(Next(begun, CallNetwork), Complete(refreshState));
    }
  }

  lemma CalledInFlight(st: State, session: NonEmpty, asOf: NonEmpty, env: Env)
    requires Healthy(st) && st.flight.None?
    ensures var flight := Next(Next(st, Begin(session, asOf, env)), CallNetwork).flight;
            flight.Some? && flight.value.called <==>
              |Attempts(Events(st.ledger), session)| < ATTEMPT_BUDGET && env.paperBoundaryOk && env.tokenAvailable
  {
  }

  class Executor {
    var ledger: seq<Line>
    var calls: seq<Call>
    var locked: bool

    ghost function Abstract(): State
      reads this
    {
      State(DecodeAll(ledger), None, calls)
    }

    constructor ()
      ensures Abstract() == INITIAL && !locked
    {
      ledger, calls, locked := [], [], false;
    }

    method AppendLedgerEvent(e: Event)
      modifies this`ledger
      ensures ledger == old(ledger) + [Encode(e)]
      ensures DecodeAll(ledger) == old(DecodeAll(ledger)) + [Written(e)]
    {
      WriterRoundTrip(e);
      ledger := ledger + [Encode(e)];
    }

    /** One apply call: lock, validate, reserve or refuse, call the network, complete, unlock.
        Its effect is exactly that of the corresponding steps. */
    method Apply(session: NonEmpty, asOf: NonEmpty, env: Env, adapter: Adapter) returns (result: ApplyResult)
      modifies this
      ensures locked == old(locked)
      ensures old(locked) ==> result.LockUnavailable? && Abstract() == old(Abstract())
      ensures !old(locked) ==> Abstract() == RunFrom(old(Abstract()), ApplySteps(session, asOf, env, adapter))
      ensures !old(locked) ==> result == ResultOf(DecodeAll(old(ledger)), session, asOf, env, adapter)
    {
      if locked {
        return LockUnavailable;
      }
      locked := true;
      ghost var start := Abstract();
      ApplyStepsUnfold(start, session, asOf, env, adapter);
      var prior := ReadAndValidateLedger(ledger, session);
      if prior.Err? {
        locked := false;
        return LedgerIsCorrupt;
      }
      var e := Decision(prior.value.0, session, asOf, env);
      AppendLedgerEvent(e);
      if e.Refused? {
        locked := false;
        return RefusedAttempt(e);
      }
      if adapter.NeverCalled? {
        locked := false;
        return Abandoned(e);
      }
      calls := calls + [Call(e, |ledger|)];
      if adapter.Interrupted? {
        locked := false;
        return Abandoned(e);
      }
      var completion := Completion(e, adapter.refreshState);
      AppendLedgerEvent(completion);
      locked := false;
      return Executed(e, if completion.succeeded then 0 else 1);
    }
  }
}
