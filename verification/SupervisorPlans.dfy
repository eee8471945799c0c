/**
 What the planner makes of the supervisor's own reports: what each lane's state asks for, and what the plan
 says of the lanes.
 */
module SupervisorPlans {
  import opened Wrappers
  import opened Gates
  import opened Seqs
  import opened Text
  import opened NextPlan

  // ---------------------------------------------------------------- the registry

  /** The token stands for the lane in the state; tokens outside the registry stand for none. */
  predicate StandsFor(token: Token, lane: Lane, state: LaneState) {
    match token
    case SoakProvenContinue => lane.MarketDataSoak? && state.NominalState?
    case DailyContinue => lane.DailyCycle? && state.NominalState?
    case ReadinessContinue => lane.Readiness? && state.NominalState?
    case ShadowContinue => lane.ForwardShadow? && state.NominalState?
    case ProbeContinue => lane.ProbeReview? && state.NominalState?
    case CapabilityContinue => lane.Capability? && state.NominalState?
    case SoakContinueRefresh => lane.MarketDataSoak? && state.WaitingState?
    case DailyAwaitInput => lane.DailyCycle? && state.WaitingState?
    case ReadinessAwait => lane.Readiness? && state.WaitingState?
    case ShadowAwait => lane.ForwardShadow? && state.WaitingState?
    case ProbeAwait => lane.ProbeReview? && state.WaitingState?
    case CapabilityAwait => lane.Capability? && state.WaitingState?
    case SoakCheckTask => lane.MarketDataSoak? && state.StaleState?
    case DailyRefreshInputs => lane.DailyCycle? && state.StaleState?
    case ReadinessRerun => lane.Readiness? && state.StaleState?
    case ShadowRerun => lane.ForwardShadow? && state.StaleState?
    case ProbeRerun => lane.ProbeReview? && state.StaleState?
    case CapabilityRerun => lane.Capability? && state.StaleState?
    case SoakReviewFailed => lane.MarketDataSoak? && state.BlockedState?
    case DailyReviewBlocked => lane.DailyCycle? && state.BlockedState?
    case ReadinessReviewBlocked => lane.Readiness? && state.BlockedState?
    case ShadowReviewBlocked => lane.ForwardShadow? && state.BlockedState?
    case ProbeReviewBlockers => lane.ProbeReview? && state.BlockedState?
    case CapabilityReviewBlocked => lane.Capability? && state.BlockedState?
    case SoakReview => lane.MarketDataSoak? && (state.AttentionState? || state.UnknownState?)
    case DailyReview => lane.DailyCycle? && (state.AttentionState? || state.UnknownState?)
    case ReadinessReview => lane.Readiness? && (state.AttentionState? || state.UnknownState?)
    case CapabilityReview => lane.Capability? && (state.AttentionState? || state.UnknownState?)
    case ShadowFetch => lane.ForwardShadow? && state.AttentionState?
    case ShadowReview => lane.ForwardShadow? && state.UnknownState?
    case ProbeReviewOnly => lane.ProbeReview? && state.AttentionState?
    case ProbeReviewLane => lane.ProbeReview? && state.UnknownState?
    case SoakRunRefreshCycle => lane.MarketDataSoak? && state.AbsentState?
    case DailySeed => lane.DailyCycle? && state.AbsentState?
    case ReadinessSeed => lane.Readiness? && state.AbsentState?
    case ShadowSeed => lane.ForwardShadow? && state.AbsentState?
    case ProbeSeed => lane.ProbeReview? && state.AbsentState?
    case CapabilitySeed => lane.Capability? && state.AbsentState?
    case AllLanesAbsent => false
    case Other(_) => false
  }

  lemma ActionStandsFor(lane: Lane, state: LaneState)
    ensures StandsFor(NextAction(lane, state), lane, state)
  {
  }

  lemma StandsForAction(lane: Lane, state: LaneState, token: Token)
    requires StandsFor(token, lane, state)
    ensures NextAction(lane, state) == token
  {
    match state {
      case BlockedState =>
      case UnknownState =>
      case AttentionState =>
      case StaleState =>
      case WaitingState =>
      case NominalState =>
      case AbsentState =>
    }
  }

  /** From a registered token the lane can be told, and the state, up to lanes that ask the same of a state
      that needs attention and one that is unknown. */
  lemma TokensTellApart(lane: Lane, state: LaneState, token: Token)
    ensures NextAction(lane, state) == token <==> StandsFor(token, lane, state)
  {
    ActionStandsFor(lane, state);
    if StandsFor(token, lane, state) {
      StandsForAction(lane, state, token);
    }
  }

  predicate Calm(state: LaneState) {
    state.NominalState? || state.WaitingState?
  }

  predicate Unseeded(state: LaneState) {
    state.AbsentState? || state.StaleState?
  }

  predicate NeedsReview(lane: Lane, state: LaneState) {
    state.BlockedState? || state.UnknownState? || (state.AttentionState? && !lane.ForwardShadow?)
  }

  /** What a lane's state comes to. Nothing is done for a calm lane; what is absent or stale can be seeded
      offline for readiness alone, with the operator's inputs for the daily cycle; the network may be used
      only to seed the soak; everything else waits for the operator. */
  lemma StatesAskFor(lane: Lane, state: LaneState)
    ensures var execution := Classify(NextAction(lane, state)).execution;
            && (execution.Noop? <==> Calm(state))
            && (execution.AutoOffline? <==> lane.Readiness? && Unseeded(state))
            && (execution.OfflineOperatorInput? <==> lane.DailyCycle? && Unseeded(state))
            && (execution.AuthorizedNetwork? <==> lane.MarketDataSoak? && state.AbsentState?)
  {
  }

  /** The gate says why a lane waits for the operator: a review, or one of three things that are not to be
      had offline. */
  lemma GatesTellWhy(lane: Lane, state: LaneState)
    ensures var gate := Classify(NextAction(lane, state)).gate;
            && (gate.OperatorReview? <==> NeedsReview(lane, state))
            && (gate.NoOfflineCommand? <==>
                  Unseeded(state) && (lane.ForwardShadow? || lane.ProbeReview? || lane.Capability?))
  {
  }

  lemma OtherGatesTellWhy(lane: Lane, state: LaneState)
    ensures var gate := Classify(NextAction(lane, state)).gate;
            && (gate.NetworkMarketData? <==>
                  (lane.MarketDataSoak? && state.AbsentState?) || (lane.ForwardShadow? && state.AttentionState?))
            && (gate.TaskScheduler? <==> lane.MarketDataSoak? && state.StaleState?)
            && !gate.BrokerObservation? && !gate.Unclassified?
  {
  }

  /** Each class of action has its one command, and only the daily cycle needs inputs. */
  lemma CommandsFollow(token: Token)
    ensures var c := Classify(token);
            && (c.command.ReadinessReplay? <==> c.execution.AutoOffline?)
            && (c.command.DailyCycleSeed? <==> c.execution.OfflineOperatorInput?)
            && (c.command.SpyRefreshCycle? <==> c.execution.AuthorizedNetwork?)
            && c.requiredInputs == (if c.execution.OfflineOperatorInput? then ["--validated-at", "--daily-bars-csv"]
                                    else [])
  {
  }

  /** Outside the registry, a token is for the operator: one for the case that every lane is absent, which has
      no offline command, and any other because it is not known. */
  lemma OutsideTheRegistry(token: Token)
    requires token.AllLanesAbsent? || token.Other?
    ensures Classify(token).execution.OperatorGated?
    ensures Classify(token).gate == if token.AllLanesAbsent? then NoOfflineCommand else Unclassified
  {
  }

  /** Which classes the constructor lets exist, and the first thing wrong with any other: it must be runnable
      exactly if it runs offline, have a gate unless it runs by itself or not at all, have a command if it is
      runnable, and none if it is gated or nothing is done, and need inputs exactly behind the operator's gate. */
  lemma ClassErrorMeans(c: ActionClass)
    ensures var kind := c.execution;
            ActionClassError(c) ==
            Require(c.offlineRunnable <==> kind in {AutoOffline, OfflineOperatorInput}, RunnableMismatch,
            Require(kind in {AutoOffline, Noop} ==> c.gate == NoGate, GateNotAllowed,
            Require(c.gate == NoGate ==> kind in {AutoOffline, Noop}, GateRequired,
            Require(c.offlineRunnable ==> c.command != NoCommand, CommandRequired,
            Require(kind in {OperatorGated, Noop} ==> c.command == NoCommand, CommandNotAllowed,
            Require(kind == AutoOffline ==> c.requiredInputs == [], InputsNotAllowed,
            Require(kind == OfflineOperatorInput ==> c.gate == OperatorInputs, WrongInputGate,
            Require(kind == OfflineOperatorInput ==> c.requiredInputs != [], InputsRequired, None))))))))
  {
  }

  // ---------------------------------------------------------------- reports

  /** A token can be used when it is in the table, or is a text without outer whitespace. */
  predicate Usable(token: Token) {
    match token
    case Other(text) => text != "" && Trimmed(text)
    case _ => true
  }

  lemma UsableMeans(token: Token)
    ensures UsableToken(token) <==> Usable(token)
  {
    if token.Other? {
      StripTrims(token.text);
    }
  }

  /** The lane stands here, and nowhere else. */
  predicate LaneAt(lanes: seq<LaneSummary>, lane: Lane, k: nat) {
    k < |lanes| && forall i :: 0 <= i < |lanes| ==> (lanes[i].lane == lane <==> i == k)
  }

  /** What is wrong with a report: not one readiness lane, that lane's token, another token than the registry's
      for it, or any lane's token. */
  ghost function ReportFault(lanes: seq<LaneSummary>): Option<PlanError> {
    if !exists k: nat :: LaneAt(lanes, Readiness, k) then Some(NotOneReadinessLane)
    else
      var k: nat :| LaneAt(lanes, Readiness, k);
      Require(Usable(lanes[k].action), UnusableToken,
      Require(StandsFor(lanes[k].action, Readiness, lanes[k].state), ReadinessActionMismatch,
      Require(forall s :: s in lanes ==> Usable(s.action), UnusableToken, None)))
  }

  lemma {:induction false} SingleAt<T>(s: seq<T>, p: T -> bool) returns (k: nat)
    requires |Filter(s, p)| == 1
    ensures k < |s| && forall i :: 0 <= i < |s| ==> (p(s[i]) <==> i == k)
  {
    var n := |s| - 1;
    if p(s[n]) {
      k := n;
      forall i | 0 <= i < n
        ensures !p(s[i])
      {
        KeptAt(s[..n], p, i);
      }
    } else {
      k := SingleAt(s[..n], p);
      assert forall i :: 0 <= i < n ==> s[..n][i] == s[i];
    }
  }

  lemma {:induction false} KeptAt<T>(s: seq<T>, p: T -> bool, i: nat)
    requires Filter(s, p) == [] && i < |s|
    ensures !p(s[i])
  {
    if i < |s| - 1 {
      KeptAt(s[..|s| - 1], p, i);
    }
  }

  lemma ReportMeans(lanes: seq<LaneSummary>)
    ensures ReportError(lanes) == ReportFault(lanes)
  {
    forall s | s in lanes
      ensures UsableToken(s.action) <==> Usable(s.action)
    {
      UsableMeans(s.action);
    }
    if |Filter(lanes, IS_READINESS)| == 1 {
      var k := SingleAt(lanes, IS_READINESS);
      assert LaneAt(lanes, Readiness, k);
      OneReadiness(lanes, k);
    } else if k: nat :| LaneAt(lanes, Readiness, k) {
      FilterSingle(lanes, IS_READINESS, k);
    }
  }

  lemma OneReadiness(lanes: seq<LaneSummary>, k: nat)
    requires LaneAt(lanes, Readiness, k)
    ensures Filter(lanes, IS_READINESS) == [lanes[k]]
    ensures lanes[k].action == NextAction(Readiness, lanes[k].state) <==>
              StandsFor(lanes[k].action, Readiness, lanes[k].state)
    ensures forall j: nat :: LaneAt(lanes, Readiness, j) ==> j == k
  {
    FilterSingle(lanes, IS_READINESS, k);
    TokensTellApart(Readiness, lanes[k].state, lanes[k].action);
  }

  /** The supervisor's own reports, which have each lane once and the registry's tokens, are never refused. */
  lemma SupervisorIsPlanned(lanes: seq<LaneSummary>)
    requires FromSupervisor(lanes)
    ensures ReportError(lanes) == None
  {
    assert LaneAt(lanes, Readiness, 2);
    OneReadiness(lanes, 2);
    forall s | s in lanes
      ensures UsableToken(s.action)
    {
      RegistryTokens(s.lane, s.state);
    }
  }

  /** What a lane asks for, in its planned action. */
  predicate Asked(s: LaneSummary, a: Action) {
    && (a.class_.execution.Noop? <==> Calm(s.state))
    && (IS_AUTO_OFFLINE(a) <==> s.lane.Readiness? && Unseeded(s.state))
    && (IS_RUNNABLE(a) <==> (s.lane.Readiness? || s.lane.DailyCycle?) && Unseeded(s.state))
    && (IS_NETWORK(a) <==> s.lane.MarketDataSoak? && s.state.AbsentState?)
  }

  lemma LaneAsks(s: LaneSummary)
    requires s.action == NextAction(s.lane, s.state)
    ensures Asked(s, PlanLane(s))
  {
    StatesAskFor(s.lane, s.state);
    ClassifyIsExact(s.action);
  }

  predicate AllAsked(lanes: seq<LaneSummary>, actions: seq<Action>) {
    |lanes| == |actions| && forall i :: 0 <= i < |lanes| ==> Asked(lanes[i], actions[i])
  }

  lemma LanesAsk(lanes: seq<LaneSummary>)
    requires FromSupervisor(lanes)
    ensures AllAsked(lanes, PlannedActions(lanes))
  {
    forall i | 0 <= i < |lanes|
      ensures Asked(lanes[i], PlannedActions(lanes)[i])
    {
      LaneAsks(lanes[i]);
    }
  }

  lemma NextOfflineAsked(lanes: seq<LaneSummary>, actions: seq<Action>, next: Option<nat>)
    requires OneOfEach(lanes) && AllAsked(lanes, actions) && IsNextOffline(actions, next)
    ensures next == if Unseeded(lanes[2].state) then Some(2) else if Unseeded(lanes[1].state) then Some(1) else None
  {
    assert actions[2] in actions && actions[1] in actions;
    assert Asked(lanes[2], actions[2]) && Asked(lanes[1], actions[1]);
  }

  lemma NextNetworkAsked(lanes: seq<LaneSummary>, actions: seq<Action>, next: Option<nat>)
    requires OneOfEach(lanes) && AllAsked(lanes, actions)
    requires match next
             case Some(k) => IsHighest(actions, IS_NETWORK, k)
             case None => forall a :: a in actions ==> !IS_NETWORK(a)
    ensures next == if lanes[0].state.AbsentState? then Some(0) else None
  {
    assert actions[0] in actions && Asked(lanes[0], actions[0]);
  }

  /** What the plan for a supervisor's report says of the lanes. It is all nominal or waiting exactly when every
      lane is; an offline action is available exactly when readiness or the daily cycle is absent or stale, and
      then the next one is readiness if it is one of them; the network comes next, if the soak is absent. */
  lemma SupervisorPlanMeans(report: Report, plan: Plan)
    requires FromSupervisor(report.lanes) && PlanOf(report, plan)
    ensures var lanes := report.lanes;
            var offline := Unseeded(lanes[1].state) || Unseeded(lanes[2].state);
            var network := lanes[0].state.AbsentState?;
            && (plan.planClass.AllNominalOrWaiting? <==> forall s :: s in lanes ==> Calm(s.state))
            && (plan.planClass.OfflineActionAvailable? <==> offline)
            && (plan.planClass.NetworkActionAvailable? <==> !offline && network)
            && plan.nextOffline == (if Unseeded(lanes[2].state) then Some(2) else if offline then Some(1) else None)
            && plan.nextNetwork == if network then Some(0) else None
  {
    LanesAsk(report.lanes);
    NextOfflineAsked(report.lanes, plan.actions, plan.nextOffline);
    NextNetworkAsked(report.lanes, plan.actions, plan.nextNetwork);
    CalmMeans(report.lanes, plan.actions);
  }

  lemma CalmMeans(lanes: seq<LaneSummary>, actions: seq<Action>)
    requires AllAsked(lanes, actions)
    ensures (forall a :: a in actions ==> a.class_.execution.Noop?) <==> forall s :: s in lanes ==> Calm(s.state)
  {
    if forall a :: a in actions ==> a.class_.execution.Noop? {
      forall i | 0 <= i < |lanes|
        ensures Calm(lanes[i].state)
      {
        assert actions[i] in actions && Asked(lanes[i], actions[i]);
      }
    }
    if forall s :: s in lanes ==> Calm(s.state) {
      forall i | 0 <= i < |actions|
        ensures actions[i].class_.execution.Noop?
      {
        assert lanes[i] in lanes && Asked(lanes[i], actions[i]);
      }
    }
  }
}
