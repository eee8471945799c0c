/**
 The offline next-action planner: what each recommended action may do, which bucket its lane falls
 into, and which action comes next.
 */
module NextPlan {
  import opened Wrappers
  import opened Seqs
  import opened Text

  // ---------------------------------------------------------------- the supervisor's vocabulary

  datatype LaneState = BlockedState | UnknownState | AttentionState | StaleState | WaitingState | NominalState
    | AbsentState

  /** Most to least severe. */
  const SEVERITY := [BlockedState, UnknownState, AttentionState, StaleState, WaitingState, NominalState, AbsentState]

  datatype Lane = MarketDataSoak | DailyCycle | Readiness | ForwardShadow | ProbeReview | Capability

  /** The `recommended_next_action` tokens. `Other` is any text outside the table. */
  datatype Token =
    | SoakProvenContinue | SoakContinueRefresh | SoakCheckTask | SoakReviewFailed | SoakReview | SoakRunRefreshCycle
    | DailyContinue | DailyAwaitInput | DailyRefreshInputs | DailyReviewBlocked | DailyReview | DailySeed
    | ReadinessContinue | ReadinessAwait | ReadinessRerun | ReadinessReviewBlocked | ReadinessReview | ReadinessSeed
    | ShadowContinue | ShadowAwait | ShadowRerun | ShadowReviewBlocked | ShadowFetch | ShadowReview | ShadowSeed
    | ProbeContinue | ProbeAwait | ProbeRerun | ProbeReviewBlockers | ProbeReviewOnly | ProbeReviewLane | ProbeSeed
    | CapabilityContinue | CapabilityAwait | CapabilityRerun | CapabilityReviewBlocked | CapabilityReview
    | CapabilitySeed
    | AllLanesAbsent
    | Other(text: string)

  /** The registry's `next_actions` of each lane. */
  function NextAction(lane: Lane, state: LaneState): Token {
    match (lane, state)
    case (MarketDataSoak, NominalState) => SoakProvenContinue
    case (MarketDataSoak, WaitingState) => SoakContinueRefresh
    case (MarketDataSoak, StaleState) => SoakCheckTask
    case (MarketDataSoak, BlockedState) => SoakReviewFailed
    case (MarketDataSoak, AttentionState) => SoakReview
    case (MarketDataSoak, UnknownState) => SoakReview
    case (MarketDataSoak, AbsentState) => SoakRunRefreshCycle
    case (DailyCycle, NominalState) => DailyContinue
    case (DailyCycle, WaitingState) => DailyAwaitInput
    case (DailyCycle, StaleState) => DailyRefreshInputs
    case (DailyCycle, BlockedState) => DailyReviewBlocked
    case (DailyCycle, AttentionState) => DailyReview
    case (DailyCycle, UnknownState) => DailyReview
    case (DailyCycle, AbsentState) => DailySeed
    case (Readiness, NominalState) => ReadinessContinue
    case (Readiness, WaitingState) => ReadinessAwait
    case (Readiness, StaleState) => ReadinessRerun
    case (Readiness, BlockedState) => ReadinessReviewBlocked
    case (Readiness, AttentionState) => ReadinessReview
    case (Readiness, UnknownState) => ReadinessReview
    case (Readiness, AbsentState) => ReadinessSeed
    case (ForwardShadow, NominalState) => ShadowContinue
    case (ForwardShadow, WaitingState) => ShadowAwait
    case (ForwardShadow, StaleState) => ShadowRerun
    case (ForwardShadow, BlockedState) => ShadowReviewBlocked
    case (ForwardShadow, AttentionState) => ShadowFetch
    case (ForwardShadow, UnknownState) => ShadowReview
    case (ForwardShadow, AbsentState) => ShadowSeed
    case (ProbeReview, NominalState) => ProbeContinue
    case (ProbeReview, WaitingState) => ProbeAwait
    case (ProbeReview, StaleState) => ProbeRerun
    case (ProbeReview, BlockedState) => ProbeReviewBlockers
    case (ProbeReview, AttentionState) => ProbeReviewOnly
    case (ProbeReview, UnknownState) => ProbeReviewLane
    case (ProbeReview, AbsentState) => ProbeSeed
    case (Capability, NominalState) => CapabilityContinue
    case (Capability, WaitingState) => CapabilityAwait
    case (Capability, StaleState) => CapabilityRerun
    case (Capability, BlockedState) => CapabilityReviewBlocked
    case (Capability, AttentionState) => CapabilityReview
    case (Capability, UnknownState) => CapabilityReview
    case (Capability, AbsentState) => CapabilitySeed
  }

  // ---------------------------------------------------------------- classification

  datatype ExecutionClass = AutoOffline | OfflineOperatorInput | OperatorGated | Noop | AuthorizedNetwork

  datatype GateName =
    | NoGate | OperatorInputs | NetworkMarketData | BrokerObservation | OperatorReview | TaskScheduler
    | NoOfflineCommand | Unclassified

  datatype CommandLine = NoCommand | ReadinessReplay | DailyCycleSeed | SpyRefreshCycle

  datatype ActionClass = ActionClass(
    execution: ExecutionClass, offlineRunnable: bool, gate: GateName, command: CommandLine, requiredInputs: seq<string>)

  predicate RunsOffline(execution: ExecutionClass) {
    execution.AutoOffline? || execution.OfflineOperatorInput?
  }

  datatype ClassError =
    | RunnableMismatch | GateNotAllowed | GateRequired | CommandRequired | CommandNotAllowed
    | InputsNotAllowed | WrongInputGate | InputsRequired

  /** The checks of `ActionClass.__post_init__`, in their order. */
  function ActionClassError(c: ActionClass): Option<ClassError> {
    if c.offlineRunnable != RunsOffline(c.execution) then Some(RunnableMismatch)
    else if (c.execution.AutoOffline? || c.execution.Noop?) && c.gate != NoGate then Some(GateNotAllowed)
    else if !(c.execution.AutoOffline? || c.execution.Noop?) && c.gate == NoGate then Some(GateRequired)
    else if c.offlineRunnable && c.command == NoCommand then Some(CommandRequired)
    else if !c.offlineRunnable && c.command != NoCommand && !c.execution.AuthorizedNetwork? then Some(CommandNotAllowed)
    else if c.execution.AutoOffline? && c.requiredInputs != [] then Some(InputsNotAllowed)
    else if c.execution.OfflineOperatorInput? && c.gate != OperatorInputs then Some(WrongInputGate)
    else if c.execution.OfflineOperatorInput? && c.requiredInputs == [] then Some(InputsRequired)
    else None
  }

  function Quiet(): ActionClass {
    ActionClass(Noop, false, NoGate, NoCommand, [])
  }

  function Gated(gate: GateName): ActionClass {
    ActionClass(OperatorGated, false, gate, NoCommand, [])
  }

  const DAILY_INPUTS := ["--validated-at", "--daily-bars-csv"]

  /** The frozen table; a token outside it is left to the operator. */
  function Classify(token: Token): ActionClass {
    match token
    case SoakProvenContinue | SoakContinueRefresh | DailyContinue | DailyAwaitInput | ReadinessContinue | ReadinessAwait
       | ShadowContinue | ShadowAwait | ProbeContinue | ProbeAwait | CapabilityContinue | CapabilityAwait => Quiet()
    case DailySeed | DailyRefreshInputs =>
      ActionClass(OfflineOperatorInput, true, OperatorInputs, DailyCycleSeed, DAILY_INPUTS)
    case ReadinessSeed | ReadinessRerun => ActionClass(AutoOffline, true, NoGate, ReadinessReplay, [])
    case SoakRunRefreshCycle => ActionClass(AuthorizedNetwork, false, NetworkMarketData, SpyRefreshCycle, [])
    case ShadowFetch => Gated(NetworkMarketData)
    case SoakCheckTask => Gated(TaskScheduler)
    case SoakReviewFailed | SoakReview | DailyReviewBlocked | DailyReview | ReadinessReviewBlocked | ReadinessReview
       | ShadowReviewBlocked | ShadowReview | ProbeReviewBlockers | ProbeReviewOnly | ProbeReviewLane
       | CapabilityReviewBlocked | CapabilityReview => Gated(OperatorReview)
    case ShadowRerun | ShadowSeed | ProbeRerun | ProbeSeed | CapabilityRerun | CapabilitySeed | AllLanesAbsent =>
      Gated(NoOfflineCommand)
    case Other(_) => Gated(Unclassified)
  }

  /** Classification never raises: every entry of the table, and the fallback, satisfies the checks. */
  lemma ClassifyIsSound(token: Token)
    ensures ActionClassError(Classify(token)) == None
  {
    assert DAILY_INPUTS != [];
  }

  /** A token goes offline, or to the network, only as the table says. */
  lemma ClassifyIsExact(token: Token)
    ensures Classify(token).offlineRunnable == RunsOffline(Classify(token).execution)
    ensures Classify(token).execution.AutoOffline? <==> token.ReadinessSeed? || token.ReadinessRerun?
    ensures Classify(token).execution.OfflineOperatorInput? <==> token.DailySeed? || token.DailyRefreshInputs?
    ensures Classify(token).execution.AuthorizedNetwork? <==> token.SoakRunRefreshCycle?
  {
  }

  // ---------------------------------------------------------------- planned actions

  /** What a plan only copies of a lane: its title, category, artifact path and blockers. */
  datatype Details = Details(title: string, category: string, artifactPath: string, blockers: seq<string>)

  datatype LaneSummary = LaneSummary(lane: Lane, state: LaneState, action: Token, details: Details)

  /** What a plan only copies of a report: run id, as-of, lanes root, status, and the supervisor's own
      recommendation with its lane. */
  datatype Header = Header(
    runId: string, asOf: string, lanesRoot: string, status: string, recommended: string, recommendedLane: string)

  datatype Report = Report(header: Header, lanes: seq<LaneSummary>)

  datatype Action = Action(lane: Lane, state: LaneState, token: Token, class_: ActionClass, details: Details)

  /** `_required_string`: non-empty and without outer whitespace. */
  predicate UsableToken(token: Token) {
    token.Other? ==> token.text != "" && token.text == Strip(token.text)
  }

  function PlanLane(summary: LaneSummary): Action {
    Action(summary.lane, summary.state, summary.action, Classify(summary.action), summary.details)
  }

  predicate Planned(a: Action) {
    a.class_ == Classify(a.token)
  }

  // ---------------------------------------------------------------- buckets

  datatype Bucket = OfflineRunnable | AuthorizedNetworkBucket | OperatorGatedBucket | NoopBucket

  function BucketOf(execution: ExecutionClass): Bucket {
    match execution
    case AutoOffline => OfflineRunnable
    case OfflineOperatorInput => OfflineRunnable
    case AuthorizedNetwork => AuthorizedNetworkBucket
    case OperatorGated => OperatorGatedBucket
    case Noop => NoopBucket
  }

  datatype Buckets = Buckets(offline: seq<Lane>, network: seq<Lane>, gated: seq<Lane>, noop: seq<Lane>)

  /** The lanes of the actions in one bucket, in plan order. */
  function LanesIn(actions: seq<Action>, bucket: Bucket): seq<Lane> {
    if actions == [] then []
    else
      var a := actions[|actions| - 1];
      LanesIn(actions[..|actions| - 1], bucket) + if BucketOf(a.class_.execution) == bucket then [a.lane] else []
  }

  function BucketsOf(actions: seq<Action>): Buckets {
    Buckets(LanesIn(actions, OfflineRunnable), LanesIn(actions, AuthorizedNetworkBucket),
            LanesIn(actions, OperatorGatedBucket), LanesIn(actions, NoopBucket))
  }

  function LanesOf(actions: seq<Action>): seq<Lane> {
    seq(|actions|, i requires 0 <= i < |actions| => actions[i].lane)
  }

  method BucketLanes(actions: seq<Action>) returns (b: Buckets)
    ensures b == BucketsOf(actions)
  {
    b := Buckets([], [], [], []);
    for i := 0 to |actions|
      invariant b == BucketsOf(actions[..i])
    {
      assert actions[..i + 1][..i] == actions[..i];
      var lane := actions[i].lane;
      match BucketOf(actions[i].class_.execution) {
        case OfflineRunnable => b := b.(offline := b.offline + [lane]);
        case AuthorizedNetworkBucket => b := b.(network := b.network + [lane]);
        case OperatorGatedBucket => b := b.(gated := b.gated + [lane]);
        case NoopBucket => b := b.(noop := b.noop + [lane]);
      }
    }
    assert actions[..|actions|] == actions;
  }

  /** How often the action adds the lane to the bucket. */
  function Adds(a: Action, bucket: Bucket, lane: Lane): nat {
    if BucketOf(a.class_.execution) == bucket && a.lane == lane then 1 else 0
  }

  function CountIn(actions: seq<Action>, bucket: Bucket, lane: Lane): nat {
    if actions == [] then 0
    else CountIn(actions[..|actions| - 1], bucket, lane) + Adds(actions[|actions| - 1], bucket, lane)
  }

  lemma {:induction false} LanesInCount(actions: seq<Action>, bucket: Bucket, lane: Lane)
    ensures multiset(LanesIn(actions, bucket))[lane] == CountIn(actions, bucket, lane)
  {
    if actions != [] {
      LanesInCount(actions[..|actions| - 1], bucket, lane);
    }
  }

  lemma {:induction false} LanesOfCount(actions: seq<Action>, lane: Lane)
    ensures multiset(LanesOf(actions))[lane]
            == CountIn(actions, OfflineRunnable, lane) + CountIn(actions, AuthorizedNetworkBucket, lane)
             + CountIn(actions, OperatorGatedBucket, lane) + CountIn(actions, NoopBucket, lane)
  {
    if actions != [] {
      var n := |actions| - 1;
      LanesOfCount(actions[..n], lane);
      assert LanesOf(actions) == LanesOf(actions[..n]) + [actions[n].lane];
    }
  }

  /** The four buckets partition the planned lanes: every lane is in them as often as in the plan. */
  lemma BucketsPartition(actions: seq<Action>)
    ensures multiset(LanesIn(actions, OfflineRunnable)) + multiset(LanesIn(actions, AuthorizedNetworkBucket))
            + multiset(LanesIn(actions, OperatorGatedBucket)) + multiset(LanesIn(actions, NoopBucket))
            == multiset(LanesOf(actions))
  {
    forall lane
      ensures (multiset(LanesIn(actions, OfflineRunnable)) + multiset(LanesIn(actions, AuthorizedNetworkBucket))
               + multiset(LanesIn(actions, OperatorGatedBucket)) + multiset(LanesIn(actions, NoopBucket)))[lane]
              == multiset(LanesOf(actions))[lane]
    {
      LanesInCount(actions, OfflineRunnable, lane);
      LanesInCount(actions, AuthorizedNetworkBucket, lane);
      LanesInCount(actions, OperatorGatedBucket, lane);
      LanesInCount(actions, NoopBucket, lane);
      LanesOfCount(actions, lane);
    }
  }

  lemma {:induction false} BucketEmpty(actions: seq<Action>, bucket: Bucket)
    ensures LanesIn(actions, bucket) == [] <==> forall a :: a in actions ==> BucketOf(a.class_.execution) != bucket
  {
    if actions != [] {
      var n := |actions| - 1;
      BucketEmpty(actions[..n], bucket);
      assert actions == actions[..n] + [actions[n]];
      if BucketOf(actions[n].class_.execution) == bucket {
        assert actions[n] in actions;
      }
    }
  }

  // ---------------------------------------------------------------- the highest priority

  /** Where a state first occurs in an order of severity; the end when it does not. */
  function Position(severity: seq<LaneState>, state: LaneState): (n: nat)
    ensures n <= |severity| && (n < |severity| ==> severity[n] == state)
    ensures forall i :: 0 <= i < n ==> severity[i] != state
  {
    if severity == [] || severity[0] == state then 0 else 1 + Position(severity[1..], state)
  }

  /** Position `k` holds the most severe action that satisfies `p`, and the first among equals: the
      lexicographic minimum of (severity, position) among the actions whose states are listed. */
  ghost predicate IsHighestBy(severity: seq<LaneState>, actions: seq<Action>, p: Action -> bool, k: nat) {
    && k < |actions| && p(actions[k]) && Position(severity, actions[k].state) < |severity|
    && forall j :: 0 <= j < |actions| && p(actions[j]) ==>
         || Position(severity, actions[k].state) < Position(severity, actions[j].state)
         || (Position(severity, actions[k].state) == Position(severity, actions[j].state) && k <= j)
  }

  /** The nested search, for any order of severity: it goes through the states, and for each through
      the actions, and finds nothing exactly when no matching action has a listed state. */
  method MostSevereAction(severity: seq<LaneState>, actions: seq<Action>, p: Action -> bool)
    returns (found: Option<nat>)
    ensures found.Some? ==> IsHighestBy(severity, actions, p, found.value)
    ensures found.None? <==> forall a :: a in actions && p(a) ==> a.state !in severity
  {
    for s := 0 to |severity|
      invariant forall j :: 0 <= j < |actions| && p(actions[j]) ==> s <= Position(severity, actions[j].state)
    {
      for k := 0 to |actions|
        invariant forall j :: 0 <= j < k && p(actions[j]) ==> s < Position(severity, actions[j].state)
      {
        if actions[k].state == severity[s] && p(actions[k]) {
          return Some(k);
        }
      }
    }
    found := None;
  }

  lemma EveryStateIsListed(state: LaneState)
    ensures state in SEVERITY && Position(SEVERITY, state) < |SEVERITY|
  {
    var i := match state
      case BlockedState => 0
      case UnknownState => 1
      case AttentionState => 2
      case StaleState => 3
      case WaitingState => 4
      case NominalState => 5
      case AbsentState => 6;
    assert SEVERITY[i] == state;
  }

  /** The source's order lists every state. */
  ghost predicate IsHighest(actions: seq<Action>, p: Action -> bool, k: nat) {
    IsHighestBy(SEVERITY, actions, p, k)
  }

  method HighestPriorityAction(actions: seq<Action>, p: Action -> bool) returns (found: Option<nat>)
    ensures found.Some? ==> IsHighest(actions, p, found.value)
    ensures found.None? <==> forall a :: a in actions ==> !p(a)
  {
    found := MostSevereAction(SEVERITY, actions, p);
    forall a | a in actions
      ensures a.state in SEVERITY
    {
      EveryStateIsListed(a.state);
    }
  }

  // ---------------------------------------------------------------- the plan

  datatype PlanClass = OfflineActionAvailable | NetworkActionAvailable | OperatorAuthorityRequired | AllNominalOrWaiting

  function PlanClassOf(b: Buckets): PlanClass {
    if b.offline != [] then OfflineActionAvailable
    else if b.network != [] then NetworkActionAvailable
    else if b.gated != [] then OperatorAuthorityRequired
    else AllNominalOrWaiting
  }

  /** The other fields of a plan: labels, flags and texts that are the same in all plans or follow from
      the fields below. They are what the planner writes, or some differ. */
  datatype Others = AsWritten | Drifted(json: string)

  datatype Plan = Plan(
    header: Header, actions: seq<Action>, buckets: Buckets, nextOffline: Option<nat>, nextNetwork: Option<nat>,
    planClass: PlanClass, others: Others)

  datatype PlanError = UnusableToken | NotOneReadinessLane | ReadinessActionMismatch

  const IS_AUTO_OFFLINE := (a: Action) => a.class_.execution.AutoOffline?
  const IS_RUNNABLE := (a: Action) => a.class_.offlineRunnable
  const IS_NETWORK := (a: Action) => a.class_.execution.AuthorizedNetwork?
  const IS_READINESS := (s: LaneSummary) => s.lane.Readiness?

  /** The highest auto-offline action if there is one, else the highest runnable one, else none. */
  ghost predicate IsNextOffline(actions: seq<Action>, next: Option<nat>) {
    match next
    case None => forall a :: a in actions ==> !IS_AUTO_OFFLINE(a) && !IS_RUNNABLE(a)
    case Some(k) =>
      if exists a :: a in actions && IS_AUTO_OFFLINE(a) then IsHighest(actions, IS_AUTO_OFFLINE, k)
      else IsHighest(actions, IS_RUNNABLE, k)
  }

  /** What the plan says next is really next, and a plan class that promises an action has one. */
  ghost predicate SoundPlan(plan: Plan) {
    && (forall a :: a in plan.actions ==> Planned(a))
    && IsNextOffline(plan.actions, plan.nextOffline)
    && (match plan.nextNetwork
        case Some(k) => IsHighest(plan.actions, IS_NETWORK, k)
        case None => forall a :: a in plan.actions ==> !IS_NETWORK(a))
    && (plan.planClass.OfflineActionAvailable? <==> plan.nextOffline.Some?)
    && (plan.planClass.NetworkActionAvailable? <==> plan.nextOffline.None? && plan.nextNetwork.Some?)
    && (plan.planClass.OperatorAuthorityRequired? ==> plan.buckets.gated != [])
    && (plan.planClass.AllNominalOrWaiting? <==> forall a :: a in plan.actions ==> a.class_.execution.Noop?)
  }

  function PlannedActions(lanes: seq<LaneSummary>): seq<Action> {
    seq(|lanes|, i requires 0 <= i < |lanes| => PlanLane(lanes[i]))
  }

  /** The plan for a report. */
  ghost predicate PlanOf(report: Report, plan: Plan) {
    && plan.header == report.header && plan.others.AsWritten?
    && plan.actions == PlannedActions(report.lanes) && plan.buckets == BucketsOf(plan.actions)
    && plan.planClass == PlanClassOf(plan.buckets) && SoundPlan(plan)
  }

  lemma HighestIsUnique(actions: seq<Action>, p: Action -> bool, j: nat, k: nat)
    requires IsHighest(actions, p, j) && IsHighest(actions, p, k)
    ensures j == k
  {
  }

  lemma NextIsUnique(actions: seq<Action>, a: Option<nat>, b: Option<nat>)
    requires IsNextOffline(actions, a) && IsNextOffline(actions, b)
    ensures a == b
  {
    if a.Some? && b.Some? {
      var p := if exists x :: x in actions && IS_AUTO_OFFLINE(x) then IS_AUTO_OFFLINE else IS_RUNNABLE;
      HighestIsUnique(actions, p, a.value, b.value);
    }
  }

  /** A plan determines its report and a report its plan. */
  lemma PlanDeterminesReport(report: Report, plan: Plan, report': Report, plan': Plan)
    requires PlanOf(report, plan) && PlanOf(report', plan')
    ensures plan == plan' <==> report == report'
  {
    var lanes, lanes' := report.lanes, report'.lanes;
    if plan == plan' {
      forall i | 0 <= i < |lanes|
        ensures lanes[i] == lanes'[i]
      {
        assert PlanLane(lanes[i]) == PlannedActions(lanes)[i] == PlanLane(lanes'[i]);
      }
    }
    if report == report' {
      NextIsUnique(plan.actions, plan.nextOffline, plan'.nextOffline);
      if plan.nextNetwork.Some? && plan'.nextNetwork.Some? {
        HighestIsUnique(plan.actions, IS_NETWORK, plan.nextNetwork.value, plan'.nextNetwork.value);
      }
    }
  }

  /** The checks of `_validate_canonical_report` that are not about paths. */
  function ReportError(lanes: seq<LaneSummary>): Option<PlanError> {
    var readiness := Filter(lanes, IS_READINESS);
    if |readiness| != 1 then Some(NotOneReadinessLane)
    else if !UsableToken(readiness[0].action) then Some(UnusableToken)
    else if readiness[0].action != NextAction(Readiness, readiness[0].state) then Some(ReadinessActionMismatch)
    else if exists s :: s in lanes && !UsableToken(s.action) then Some(UnusableToken)
    else None
  }

  method BuildNextPlan(report: Report) returns (result: Result<Plan, PlanError>)
    ensures result.Err? ==> ReportError(report.lanes) == Some(result.error)
    ensures result.Ok? ==> ReportError(report.lanes) == None
    ensures result.Ok? ==>
              && PlanOf(report, result.value)
              && multiset(result.value.buckets.offline) + multiset(result.value.buckets.network)
                 + multiset(result.value.buckets.gated) + multiset(result.value.buckets.noop)
                 == multiset(LanesOf(result.value.actions))
  {
    var error := ReportError(report.lanes);
    if error.Some? {
      return Err(error.value);
    }
    var actions := PlannedActions(report.lanes);
    var plan := PlanActions(report.header, actions);
    BucketsPartition(actions);
    result := Ok(plan);
  }

  method PlanActions(header: Header, actions: seq<Action>) returns (plan: Plan)
    requires forall a :: a in actions ==> Planned(a)
    ensures plan.header == header && plan.others.AsWritten?
    ensures plan.actions == actions && SoundPlan(plan)
    ensures plan.buckets == BucketsOf(actions) && plan.planClass == PlanClassOf(plan.buckets)
  {
    var buckets := BucketLanes(actions);
    var auto := HighestPriorityAction(actions, IS_AUTO_OFFLINE);
    var nextOffline := auto;
    if nextOffline == None {
      nextOffline := HighestPriorityAction(actions, IS_RUNNABLE);
    }
    var nextNetwork := HighestPriorityAction(actions, IS_NETWORK);
    plan := Plan(header, actions, buckets, nextOffline, nextNetwork, PlanClassOf(buckets), AsWritten);
    BucketEmpty(actions, OfflineRunnable);
    BucketEmpty(actions, AuthorizedNetworkBucket);
    BucketEmpty(actions, OperatorGatedBucket);
    forall a | a in actions
      ensures a.class_.offlineRunnable <==> RunsOffline(a.class_.execution)
    {
      ClassifyIsExact(a.token);
    }
    assert auto.Some? <==> exists a :: a in actions && IS_AUTO_OFFLINE(a);
  }

  // ---------------------------------------------------------------- the supervisor's own reports

  /** A report the supervisor itself makes: every registered lane once, with the registry's action. */
  predicate FromSupervisor(lanes: seq<LaneSummary>) {
    && OneOfEach(lanes)
    && forall i :: 0 <= i < |lanes| ==> lanes[i].action == NextAction(lanes[i].lane, lanes[i].state)
  }

  predicate OneOfEach(lanes: seq<LaneSummary>) {
    && |lanes| == 6
    && lanes[0].lane == MarketDataSoak && lanes[1].lane == DailyCycle && lanes[2].lane == Readiness
    && lanes[3].lane == ForwardShadow && lanes[4].lane == ProbeReview && lanes[5].lane == Capability
  }

  lemma RegistryTokens(lane: Lane, state: LaneState)
    ensures UsableToken(NextAction(lane, state))
    ensures Classify(NextAction(lane, state)).execution.AutoOffline? ==> lane.Readiness?
    ensures Classify(NextAction(lane, state)).execution.OfflineOperatorInput? ==> lane.DailyCycle?
  {
  }
}
