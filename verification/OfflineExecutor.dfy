/**
 The gated offline executor: which planned actions it may run, the argv each is bound to, and the
 ledger of one invocation.
 */
module OfflineExecutor {
  import opened Wrappers
  import opened Gates
  import opened Seqs
  import opened NextPlan
  import opened SupervisorPlans

  /** Operator inputs after path resolution. */
  datatype OperatorInputs = OperatorInputs(validatedAt: string, dailyBarsCsv: string)

  type Argv = seq<string>

  const REPLAY_ARGV: Argv := ["crypto-readiness-replay"]

  function Allowlisted(token: Token): Option<Argv> {
    if token.ReadinessSeed? || token.ReadinessRerun? then Some(REPLAY_ARGV) else None
  }

  predicate TakesOperatorInputs(token: Token) {
    token.DailySeed? || token.DailyRefreshInputs?
  }

  function DailyCycleArgv(inputs: OperatorInputs): Argv {
    ["etf-sma-offline-daily-cycle-run",
     "--validated-at", inputs.validatedAt,
     "--daily-bars-csv", inputs.dailyBarsCsv,
     "--readiness-output-jsonl", "runs/paper_lab/m441_unified_cycle_readiness_packet.jsonl",
     "--validation-output-jsonl", "runs/paper_lab/m442_offline_daily_cycle_validation.jsonl",
     "--summary-output-jsonl", "runs/paper_lab/m443_offline_daily_cycle_summary.jsonl",
     "--manifest-output-jsonl", "runs/paper_lab/m444_offline_daily_cycle_run.jsonl"]
  }

  /** The flag stands before the value: flags are at the odd places, after the name of the command. */
  ghost predicate Passes(argv: Argv, flag: string, value: string) {
    exists i :: 0 <= i < (|argv| - 1) / 2 && argv[2 * i + 1] == flag && argv[2 * i + 2] == value
  }

  /** The daily cycle gets the operator's clock and bars and the four canonical output paths, each under its own
      flag, and nothing else. */
  lemma DailyCycleMeans(inputs: OperatorInputs, flag: string, value: string)
    ensures var argv := DailyCycleArgv(inputs);
            && |argv| == 13 && argv[0] == "etf-sma-offline-daily-cycle-run"
            && (Passes(argv, flag, value) <==>
                  match flag
                  case "--validated-at" => value == inputs.validatedAt
                  case "--daily-bars-csv" => value == inputs.dailyBarsCsv
                  case "--readiness-output-jsonl" =>
                    value == "runs/paper_lab/m441_unified_cycle_readiness_packet.jsonl"
                  case "--validation-output-jsonl" =>
                    value == "runs/paper_lab/m442_offline_daily_cycle_validation.jsonl"
                  case "--summary-output-jsonl" => value == "runs/paper_lab/m443_offline_daily_cycle_summary.jsonl"
                  case "--manifest-output-jsonl" => value == "runs/paper_lab/m444_offline_daily_cycle_run.jsonl"
                  case _ => false)
  {
    var argv := DailyCycleArgv(inputs);
    assert argv[2 * 0 + 1] == "--validated-at" && argv[2 * 1 + 1] == "--daily-bars-csv";
    assert argv[2 * 2 + 1] == "--readiness-output-jsonl" && argv[2 * 3 + 1] == "--validation-output-jsonl";
    assert argv[2 * 4 + 1] == "--summary-output-jsonl" && argv[2 * 5 + 1] == "--manifest-output-jsonl";
  }

  // ---------------------------------------------------------------- partition

  datatype SkipReason = NotOfflineRunnable | RequiresOperatorInput | NotAllowlisted

  datatype Eligible = Eligible(lane: Lane, token: Token, argv: Argv)

  datatype Skipped = Skipped(lane: Lane, token: Token, execution: ExecutionClass, reason: SkipReason)

  /** The branches of the partition loop, for one action: run it with this argv, or skip it. */
  function Decision(a: Action, inputs: Option<OperatorInputs>): Result<Argv, SkipReason> {
    var execution := a.class_.execution;
    if !a.class_.offlineRunnable then Err(NotOfflineRunnable)
    else if execution.OfflineOperatorInput? then
      if TakesOperatorInputs(a.token) && inputs != None then Ok(DailyCycleArgv(inputs.value))
      else Err(if inputs == None then RequiresOperatorInput else NotAllowlisted)
    else if Allowlisted(a.token) == None || !execution.AutoOffline? then
      Err(if !execution.AutoOffline? then RequiresOperatorInput else NotAllowlisted)
    else Ok(Allowlisted(a.token).value)
  }

  /** Every decision, for any action: an auto-offline one runs when it is on the allowlist, and one for the
      operator when its inputs are there and it takes them. */
  lemma DecisionMeans(a: Action, inputs: Option<OperatorInputs>)
    ensures var d, execution := Decision(a, inputs), a.class_.execution;
            var readiness := a.token.ReadinessSeed? || a.token.ReadinessRerun?;
            var daily := a.token.DailySeed? || a.token.DailyRefreshInputs?;
            && (d == Err(NotOfflineRunnable) <==> !a.class_.offlineRunnable)
            && (d == Err(RequiresOperatorInput) <==>
                  && a.class_.offlineRunnable && !execution.AutoOffline?
                  && (execution.OfflineOperatorInput? ==> inputs == None))
            && (d == Err(NotAllowlisted) <==>
                  && a.class_.offlineRunnable
                  && ((execution.AutoOffline? && !readiness)
                      || (execution.OfflineOperatorInput? && inputs.Some? && !daily)))
            && (d.Ok? ==> if execution.AutoOffline? then readiness && d.value == ["crypto-readiness-replay"]
                          else daily && inputs.Some? && d.value == DailyCycleArgv(inputs.value))
  {
  }

  type Decider = Action -> Result<Argv, SkipReason>

  function Decide(inputs: Option<OperatorInputs>): Decider {
    (a: Action) => Decision(a, inputs)
  }

  function Bound(actions: seq<Action>, decide: Decider): seq<Eligible> {
    if actions == [] then []
    else
      var a := actions[|actions| - 1];
      Bound(actions[..|actions| - 1], decide)
      + match decide(a) case Ok(argv) => [Eligible(a.lane, a.token, argv)] case Err(_) => []
  }

  function PassedOver(actions: seq<Action>, decide: Decider): seq<Skipped> {
    if actions == [] then []
    else
      var a := actions[|actions| - 1];
      PassedOver(actions[..|actions| - 1], decide)
      + match decide(a) case Ok(_) => [] case Err(reason) => [Skipped(a.lane, a.token, a.class_.execution, reason)]
  }

  /** `_partition_actions`, with its branches as `decide`. */
  method PartitionActions(actions: seq<Action>, decide: Decider)
    returns (eligible: seq<Eligible>, skipped: seq<Skipped>)
    ensures eligible == Bound(actions, decide) && skipped == PassedOver(actions, decide)
    ensures |eligible| + |skipped| == |actions|
  {
    eligible, skipped := [], [];
    for i := 0 to |actions|
      invariant eligible == Bound(actions[..i], decide) && skipped == PassedOver(actions[..i], decide)
      invariant |eligible| + |skipped| == i
    {
      assert actions[..i + 1][..i] == actions[..i];
      var a := actions[i];
      match decide(a) {
        case Ok(argv) => eligible := eligible + [Eligible(a.lane, a.token, argv)];
        case Err(reason) => skipped := skipped + [Skipped(a.lane, a.token, a.class_.execution, reason)];
      }
    }
    assert actions[..|actions|] == actions;
  }

  /** What the operator has unlocked: the auto-offline actions, and with inputs every runnable one. */
  predicate Unlocked(a: Action, inputs: Option<OperatorInputs>) {
    a.class_.execution.AutoOffline? || (a.class_.offlineRunnable && inputs.Some?)
  }

  /** The argv a token stands for. */
  function ArgvFor(token: Token, inputs: Option<OperatorInputs>): Option<Argv> {
    if Allowlisted(token).Some? then Allowlisted(token)
    else if TakesOperatorInputs(token) && inputs.Some? then Some(DailyCycleArgv(inputs.value))
    else None
  }

  /** On a classified action the decision is to run exactly when it is unlocked, with the argv of its
      token; otherwise the reason is never `not_allowlisted`. */
  lemma PlannedDecision(a: Action, inputs: Option<OperatorInputs>)
    requires Planned(a)
    ensures Decision(a, inputs).Ok? <==> Unlocked(a, inputs)
    ensures Decision(a, inputs).Ok? ==> ArgvFor(a.token, inputs) == Some(Decision(a, inputs).value)
    ensures Decision(a, inputs).Err? ==>
              Decision(a, inputs).error ==
              if a.class_.offlineRunnable then RequiresOperatorInput else NotOfflineRunnable
  {
    ClassifyIsExact(a.token);
  }

  /** The eligible and the skipped list are the two halves of the plan, in plan order. */
  lemma {:induction false} PartitionSplits(actions: seq<Action>, decide: Decider)
    ensures |Bound(actions, decide)| == |Filter(actions, a => decide(a).Ok?)|
    ensures forall i :: 0 <= i < |Bound(actions, decide)| ==>
              var a := Filter(actions, a => decide(a).Ok?)[i];
              Bound(actions, decide)[i] == Eligible(a.lane, a.token, if decide(a).Ok? then decide(a).value else [])
    ensures |PassedOver(actions, decide)| == |Filter(actions, a => decide(a).Err?)|
  {
    if actions != [] {
      PartitionSplits(actions[..|actions| - 1], decide);
    }
  }

  lemma {:induction false} BoundComesFrom(actions: seq<Action>, decide: Decider, e: Eligible)
    requires e in Bound(actions, decide)
    ensures exists a :: a in actions && decide(a) == Ok(e.argv) && e.token == a.token && e.lane == a.lane
  {
    var n := |actions| - 1;
    if e in Bound(actions[..n], decide) {
      BoundComesFrom(actions[..n], decide, e);
    } else {
      assert actions[n] in actions;
    }
  }

  lemma {:induction false} PassedOverComesFrom(actions: seq<Action>, decide: Decider, s: Skipped)
    requires s in PassedOver(actions, decide)
    ensures exists a :: a in actions && decide(a) == Err(s.reason) && s.token == a.token && s.lane == a.lane
  {
    var n := |actions| - 1;
    if s in PassedOver(actions[..n], decide) {
      PassedOverComesFrom(actions[..n], decide, s);
    } else {
      assert actions[n] in actions;
    }
  }

  /** Everything eligible is an unlocked action of the plan bound to its token's argv. */
  lemma EligibleIsUnlocked(actions: seq<Action>, inputs: Option<OperatorInputs>, e: Eligible)
    requires (forall a :: a in actions ==> Planned(a)) && e in Bound(actions, Decide(inputs))
    ensures ArgvFor(e.token, inputs) == Some(e.argv)
    ensures exists a :: a in actions && Unlocked(a, inputs) && e.token == a.token && e.lane == a.lane
  {
    BoundComesFrom(actions, Decide(inputs), e);
    var a :| a in actions && Decide(inputs)(a) == Ok(e.argv) && e.token == a.token && e.lane == a.lane;
    PlannedDecision(a, inputs);
  }

  /** The eligible list is the unlocked actions of the plan: all of them, once each, in plan order. */
  lemma EligibleAreTheUnlocked(actions: seq<Action>, inputs: Option<OperatorInputs>)
    requires forall a :: a in actions ==> Planned(a)
    ensures var unlocked := Filter(actions, a => Unlocked(a, inputs));
            var eligible := Bound(actions, Decide(inputs));
            && |eligible| == |unlocked|
            && forall i :: 0 <= i < |eligible| ==>
                eligible[i].lane == unlocked[i].lane && eligible[i].token == unlocked[i].token
  {
    var decide := Decide(inputs);
    forall a | a in actions
      ensures decide(a).Ok? == Unlocked(a, inputs)
    {
      PlannedDecision(a, inputs);
    }
    FilterAgrees(actions, a => decide(a).Ok?, a => Unlocked(a, inputs));
    PartitionSplits(actions, decide);
  }

  lemma SkippedIsLocked(actions: seq<Action>, inputs: Option<OperatorInputs>, s: Skipped)
    requires (forall a :: a in actions ==> Planned(a)) && s in PassedOver(actions, Decide(inputs))
    ensures !s.reason.NotAllowlisted?
    ensures exists a :: a in actions && !Unlocked(a, inputs) && s.token == a.token && s.lane == a.lane
  {
    PassedOverComesFrom(actions, Decide(inputs), s);
    var a :| a in actions && Decide(inputs)(a) == Err(s.reason) && s.token == a.token && s.lane == a.lane;
    PlannedDecision(a, inputs);
  }

  // ---------------------------------------------------------------- execution

  datatype Ran = Ran(exitCode: int, timedOut: bool)

  datatype Executed = Executed(lane: Lane, token: Token, argv: Argv, ran: Ran)

  datatype ExecuteError = MissingInputs | NotOnAllowlist | ArgvMismatch

  /** `_execute`: derives the argv from the token again and hands it over only if it agrees. */
  function Execute(action: Eligible, inputs: Option<OperatorInputs>, runner: Argv -> Ran)
    : Result<Executed, ExecuteError>
  {
    if Allowlisted(action.token).None? && !TakesOperatorInputs(action.token) then Err(NotOnAllowlist)
    else if Allowlisted(action.token).None? && inputs == None then Err(MissingInputs)
    else
      var expected := if Allowlisted(action.token).Some? then Allowlisted(action.token).value
                      else DailyCycleArgv(inputs.value);
      if expected != action.argv then Err(ArgvMismatch)
      else Ok(Executed(action.lane, action.token, action.argv, runner(action.argv)))
  }

  lemma ArgvExecutes(e: Eligible, inputs: Option<OperatorInputs>, runner: Argv -> Ran)
    requires ArgvFor(e.token, inputs) == Some(e.argv)
    ensures Execute(e, inputs, runner) == Ok(Executed(e.lane, e.token, e.argv, runner(e.argv)))
  {
  }

  /** An execution raises for a token that is neither allowed nor takes inputs, for one whose inputs are not
      there, and for another argv than its token's. */
  lemma ExecuteMeans(e: Eligible, inputs: Option<OperatorInputs>, runner: Argv -> Ran)
    ensures var r := Execute(e, inputs, runner);
            && (r == Err(NotOnAllowlist) <==> forall some :: ArgvFor(e.token, Some(some)) == None)
            && (r == Err(MissingInputs) <==>
                  inputs == None && ArgvFor(e.token, None) == None && exists some :: ArgvFor(e.token, Some(some)).Some?)
            && (r == Err(ArgvMismatch) <==> ArgvFor(e.token, inputs).Some? && ArgvFor(e.token, inputs).value != e.argv)
            && (r.Ok? <==> ArgvFor(e.token, inputs) == Some(e.argv))
  {
    var some := OperatorInputs.OperatorInputs("", "");
    assert ArgvFor(e.token, Some(some)).Some? <==> Allowlisted(e.token).Some? || TakesOperatorInputs(e.token);
  }

  /** What running an eligible action records. */
  function RunOf(e: Eligible, runner: Argv -> Ran): Executed {
    Executed(e.lane, e.token, e.argv, runner(e.argv))
  }

  datatype Ledger = Ledger(
    preflightOk: bool,
    eligible: seq<Eligible>,
    skipped: seq<Skipped>,
    executed: seq<Executed>,
    refused: bool,
    allSucceeded: Option<bool>)

  datatype LedgerError = BadPlan(error: PlanError) | BadTarget | PlanMismatch

  /** The checks of `_validate_executor_target` that are not about paths: one readiness and one
      daily-cycle action, each with its registry action and its canonical binding, and a runnable
      readiness action selected next. */
  predicate TargetAccepted(plan: Plan) {
    && (exists r :: r in plan.actions && ReadinessAccepted(plan, r))
    && (exists d :: d in plan.actions && DailyAccepted(plan.actions, d))
  }

  predicate ReadinessAccepted(plan: Plan, r: Action) {
    && r.lane.Readiness? && OnlyOne(plan.actions, Readiness)
    && r.token == NextAction(Readiness, r.state)
    && (Allowlisted(r.token).Some? ==>
          && r.class_.execution.AutoOffline? && r.class_.offlineRunnable && r.class_.gate == NoGate
          && r.class_.command == ReadinessReplay
          && plan.nextOffline.Some? && plan.nextOffline.value < |plan.actions|
          && plan.actions[plan.nextOffline.value] == r)
  }

  predicate DailyAccepted(actions: seq<Action>, d: Action) {
    && d.lane.DailyCycle? && OnlyOne(actions, DailyCycle)
    && d.token == NextAction(DailyCycle, d.state)
    && (TakesOperatorInputs(d.token) ==> DailyBinding(d))
  }

  predicate OnlyOne(actions: seq<Action>, lane: Lane) {
    forall i, j :: 0 <= i < j < |actions| ==> !(actions[i].lane == lane && actions[j].lane == lane)
  }

  predicate AsksReplay(token: Token) {
    token.ReadinessSeed? || token.ReadinessRerun?
  }

  /** If the readiness lane asks for the replay, no other lane that does is more severe, or as severe and before it. */
  predicate ReadinessFirst(lanes: seq<LaneSummary>, r: nat) {
    r < |lanes| && AsksReplay(lanes[r].action) ==>
      forall j :: 0 <= j < |lanes| && AsksReplay(lanes[j].action) ==>
        || Position(SEVERITY, lanes[r].state) < Position(SEVERITY, lanes[j].state)
        || (lanes[r].state == lanes[j].state && r <= j)
  }

  /** Which reports the executor may act on: those with one daily-cycle lane that asks what the registry says, and
      in which the readiness lane, if it asks for the replay, comes first. */
  lemma TargetMeans(report: Report, plan: Plan, r: nat)
    requires PlanOf(report, plan) && ReportError(report.lanes) == None && LaneAt(report.lanes, Readiness, r)
    ensures TargetAccepted(plan) <==>
              && ReadinessFirst(report.lanes, r)
              && exists d: nat :: LaneAt(report.lanes, DailyCycle, d)
                   && report.lanes[d].action == NextAction(DailyCycle, report.lanes[d].state)
  {
    ReadinessTarget(report, plan, r);
    DailyTarget(report.lanes, plan.actions);
  }

  lemma OnlyAt(lanes: seq<LaneSummary>, lane: Lane, k: nat)
    requires k < |lanes| && lanes[k].lane == lane
    ensures OnlyOne(PlannedActions(lanes), lane) <==> LaneAt(lanes, lane, k)
  {
    var actions := PlannedActions(lanes);
    assert forall i :: 0 <= i < |lanes| ==> actions[i].lane == lanes[i].lane;
    if OnlyOne(actions, lane) {
      forall i | 0 <= i < |lanes| && lanes[i].lane == lane
        ensures i == k
      {
        assert actions[i].lane == actions[k].lane == lane;
      }
    }
  }

  lemma DailyTarget(lanes: seq<LaneSummary>, actions: seq<Action>)
    requires actions == PlannedActions(lanes)
    ensures (exists d :: d in actions && DailyAccepted(actions, d)) <==>
              exists d: nat :: LaneAt(lanes, DailyCycle, d) && lanes[d].action == NextAction(DailyCycle, lanes[d].state)
  {
    if d :| d in actions && DailyAccepted(actions, d) {
      var k :| 0 <= k < |actions| && actions[k] == d;
      assert d == PlanLane(lanes[k]);
      OnlyAt(lanes, DailyCycle, k);
    }
    if d: nat :| LaneAt(lanes, DailyCycle, d) && lanes[d].action == NextAction(DailyCycle, lanes[d].state) {
      OnlyAt(lanes, DailyCycle, d);
      DailyIsBound(lanes[d].state, lanes[d].details);
      assert actions[d] == PlanLane(lanes[d]);
      assert actions[d] in actions && DailyAccepted(actions, actions[d]);
    }
  }

  lemma AutoAsksReplay(token: Token)
    ensures Classify(token).execution.AutoOffline? <==> AsksReplay(token)
    ensures Allowlisted(token).Some? <==> AsksReplay(token)
  {
    ClassifyIsExact(token);
  }

  lemma ReadinessTarget(report: Report, plan: Plan, r: nat)
    requires PlanOf(report, plan) && ReportError(report.lanes) == None && LaneAt(report.lanes, Readiness, r)
    ensures (exists a :: a in plan.actions && ReadinessAccepted(plan, a)) <==> ReadinessFirst(report.lanes, r)
  {
    var lanes, actions := report.lanes, plan.actions;
    OnlyAt(lanes, Readiness, r);
    OneReadiness(lanes, r);
    assert actions[r] == PlanLane(lanes[r]) && actions[r] in actions;
    AutoAsksReplay(lanes[r].action);
    ReplayIsBound(lanes[r].action);
    if AsksReplay(lanes[r].action) {
      NextIsReadiness(lanes, actions, plan.nextOffline, r);
    }
    forall a | a in actions && ReadinessAccepted(plan, a)
      ensures a == actions[r]
    {
      var k :| 0 <= k < |actions| && actions[k] == a;
      assert lanes[k].lane == Readiness;
    }
  }

  /** The next offline action is the readiness lane's exactly when that lane comes first. */
  lemma NextIsReadiness(lanes: seq<LaneSummary>, actions: seq<Action>, next: Option<nat>, r: nat)
    requires actions == PlannedActions(lanes) && IsNextOffline(actions, next)
    requires LaneAt(lanes, Readiness, r) && AsksReplay(lanes[r].action)
    ensures next.Some? && next.value < |actions|
    ensures actions[next.value] == actions[r] <==> ReadinessFirst(lanes, r)
  {
    forall j | 0 <= j < |lanes|
      ensures actions[j] == PlanLane(lanes[j]) && (IS_AUTO_OFFLINE(actions[j]) <==> AsksReplay(lanes[j].action))
    {
      AutoAsksReplay(lanes[j].action);
    }
    assert actions[r] in actions;
    var k := next.value;
    assert IsHighest(actions, IS_AUTO_OFFLINE, k);
    assert lanes[k].lane == Readiness <==> k == r;
    FirstIsHighest(lanes, actions, r);
    if ReadinessFirst(lanes, r) {
      HighestIsUnique(actions, IS_AUTO_OFFLINE, k, r);
    }
  }

  lemma FirstIsHighest(lanes: seq<LaneSummary>, actions: seq<Action>, r: nat)
    requires actions == PlannedActions(lanes) && r < |lanes| && AsksReplay(lanes[r].action)
    requires forall j :: 0 <= j < |lanes| ==> (IS_AUTO_OFFLINE(actions[j]) <==> AsksReplay(lanes[j].action))
    ensures ReadinessFirst(lanes, r) <==> IsHighest(actions, IS_AUTO_OFFLINE, r)
  {
    forall j | 0 <= j < |lanes|
      ensures Position(SEVERITY, lanes[j].state) < |SEVERITY|
      ensures Position(SEVERITY, lanes[r].state) == Position(SEVERITY, lanes[j].state)
         <==> lanes[r].state == lanes[j].state
    {
      EveryStateIsListed(lanes[j].state);
      EveryStateIsListed(lanes[r].state);
    }
  }

  /** A plan made from the supervisor's own report passes the target checks: no other lane can be
      auto-offline, so a runnable readiness action is always the one selected. */
  lemma SupervisorPlanIsAccepted(report: Report, plan: Plan)
    requires FromSupervisor(report.lanes) && PlanOf(report, plan)
    ensures TargetAccepted(plan)
  {
    var lanes := report.lanes;
    forall a | a in plan.actions
      ensures IS_AUTO_OFFLINE(a) ==> a.lane.Readiness?
    {
      RegistryTokens(a.lane, a.state);
    }
    ReplayIsBound(plan.actions[2].token);
    DailyIsBound(lanes[1].state, lanes[1].details);
    ReadinessIsAccepted(plan, plan.actions[2]);
    DailyIsAccepted(plan.actions, plan.actions[1]);
    assert plan.actions[2] in plan.actions && plan.actions[1] in plan.actions;
  }

  predicate SixLanes(actions: seq<Action>) {
    && |actions| == 6
    && actions[0].lane == MarketDataSoak && actions[1].lane == DailyCycle && actions[2].lane == Readiness
    && actions[3].lane == ForwardShadow && actions[4].lane == ProbeReview && actions[5].lane == Capability
  }

  /** What the checks ask of a daily-cycle action that takes inputs. */
  predicate DailyBinding(d: Action) {
    && d.class_.execution.OfflineOperatorInput? && d.class_.offlineRunnable && d.class_.gate == GateName.OperatorInputs
    && d.class_.command == DailyCycleSeed && d.class_.requiredInputs != []
  }

  lemma DailyIsBound(state: LaneState, details: Details)
    ensures var d := PlanLane(LaneSummary(DailyCycle, state, NextAction(DailyCycle, state), details));
            TakesOperatorInputs(d.token) ==> DailyBinding(d)
  {
    assert DAILY_INPUTS != [];
  }

  lemma DailyIsAccepted(actions: seq<Action>, d: Action)
    requires SixLanes(actions) && d == actions[1] && d.token == NextAction(DailyCycle, d.state)
    requires TakesOperatorInputs(d.token) ==> DailyBinding(d)
    ensures DailyAccepted(actions, d)
  {
  }

  lemma ReplayIsBound(token: Token)
    ensures Allowlisted(token).Some? ==> Classify(token) == ActionClass(AutoOffline, true, NoGate, ReadinessReplay, [])
  {
  }

  lemma LanesOnce(actions: seq<Action>)
    requires SixLanes(actions)
    ensures OnlyOne(actions, Readiness) && OnlyOne(actions, DailyCycle)
    ensures forall i :: 0 <= i < |actions| && actions[i].lane.Readiness? ==> i == 2
  {
  }

  lemma ReadinessIsAccepted(plan: Plan, r: Action)
    requires SixLanes(plan.actions) && r == plan.actions[2] && r.token == NextAction(Readiness, r.state)
    requires Allowlisted(r.token).Some? ==> r.class_ == ActionClass(AutoOffline, true, NoGate, ReadinessReplay, [])
    requires forall a :: a in plan.actions && IS_AUTO_OFFLINE(a) ==> a.lane.Readiness?
    requires IsNextOffline(plan.actions, plan.nextOffline)
    ensures ReadinessAccepted(plan, r)
  {
    LanesOnce(plan.actions);
    if Allowlisted(r.token).Some? {
      SelectedIsReadiness(plan.actions, plan.nextOffline);
    }
  }

  lemma SelectedIsReadiness(actions: seq<Action>, next: Option<nat>)
    requires IsNextOffline(actions, next) && |actions| > 2 && IS_AUTO_OFFLINE(actions[2])
    requires forall i :: 0 <= i < |actions| && IS_AUTO_OFFLINE(actions[i]) ==> i == 2
    ensures next == Some(2)
  {
    assert actions[2] in actions;
    assert IsHighest(actions, IS_AUTO_OFFLINE, next.value);
  }

  function RunAll(eligible: seq<Eligible>, runner: Argv -> Ran): seq<Executed> {
    seq(|eligible|, i requires 0 <= i < |eligible| => RunOf(eligible[i], runner))
  }

  /** The apply loop. Its executions cannot raise, because every argv is the one its token stands for. */
  method RunEligible(eligible: seq<Eligible>, inputs: Option<OperatorInputs>, runner: Argv -> Ran)
    returns (executed: seq<Executed>)
    requires forall e :: e in eligible ==> ArgvFor(e.token, inputs) == Some(e.argv)
    ensures executed == RunAll(eligible, runner)
  {
    executed := [];
    for i := 0 to |eligible|
      invariant |executed| == i
      invariant forall k :: 0 <= k < i ==> executed[k] == RunOf(eligible[k], runner)
    {
      ArgvExecutes(eligible[i], inputs, runner);
      executed := executed + [Execute(eligible[i], inputs, runner).value];
    }
  }

  /** What a ledger records of a plan. */
  ghost predicate SoundLedger(ledger: Ledger, actions: seq<Action>, apply: bool, inputs: Option<OperatorInputs>,
                              preflightOk: bool, runner: Argv -> Ran) {
    && ledger.preflightOk == preflightOk
    && ledger.eligible == Bound(actions, Decide(inputs))
    && ledger.skipped == PassedOver(actions, Decide(inputs))
    && |ledger.eligible| + |ledger.skipped| == |actions|
    && (forall e :: e in ledger.eligible ==> ArgvFor(e.token, inputs) == Some(e.argv))
    && (forall s :: s in ledger.skipped ==> !s.reason.NotAllowlisted?)
    && (ledger.refused <==> apply && !preflightOk)
    && ledger.executed == (if apply && preflightOk then RunAll(ledger.eligible, runner) else [])
    && (ledger.allSucceeded.None? <==> ledger.executed == [])
    && (ledger.allSucceeded.Some? ==>
        (ledger.allSucceeded.value <==> forall e :: e in ledger.executed ==> e.ran.exitCode == 0))
  }

  method LedgerOf(actions: seq<Action>, apply: bool, inputs: Option<OperatorInputs>, preflightOk: bool,
                  runner: Argv -> Ran)
    returns (ledger: Ledger)
    requires forall a :: a in actions ==> Planned(a)
    ensures SoundLedger(ledger, actions, apply, inputs, preflightOk, runner)
  {
    var eligible, skipped := PartitionActions(actions, Decide(inputs));
    forall s | s in skipped
      ensures !s.reason.NotAllowlisted?
    {
      SkippedIsLocked(actions, inputs, s);
    }
    forall e | e in eligible
      ensures ArgvFor(e.token, inputs) == Some(e.argv)
    {
      EligibleIsUnlocked(actions, inputs, e);
    }
    var executed := [];
    if apply && preflightOk {
      executed := RunEligible(eligible, inputs, runner);
    }
    var allSucceeded := if executed == [] then None else Some(forall e :: e in executed ==> e.ran.exitCode == 0);
    ledger := Ledger(preflightOk, eligible, skipped, executed, apply && !preflightOk, allSucceeded);
  }

  /** What the caller may hand over: a plan, or a report to plan again. */
  datatype Supplied = SuppliedPlan(plan: Plan) | SuppliedReport(report: Report)

  /** Nothing is supplied, or what is supplied says what the supervisor's current report says. */
  ghost predicate Matches(supplied: Option<Supplied>, report: Report) {
    match supplied
    case None => true
    case Some(SuppliedPlan(plan)) => PlanOf(report, plan)
    case Some(SuppliedReport(reported)) => reported == report
  }

  /** The report has a plan, and the plan is one the executor may act on. */
  ghost predicate Actionable(report: Report) {
    ReportError(report.lanes) == None && Targets(report)
  }

  /** Every plan of the report is one the executor may act on. */
  ghost predicate Targets(report: Report) {
    forall plan :: PlanOf(report, plan) ==> TargetAccepted(plan)
  }

  /** What is wrong with what is supplied: a report without a plan, a plan the executor may not act on, or one
      that is not the current report's. */
  ghost function SuppliedFault(supplied: Supplied, report: Report): Option<LedgerError> {
    match supplied
    case SuppliedPlan(plan) =>
      Require(TargetAccepted(plan), BadTarget, Require(PlanOf(report, plan), PlanMismatch, None))
    case SuppliedReport(reported) =>
      var error := ReportError(reported.lanes);
      if error.Some? then Some(BadPlan(error.value))
      else Require(Targets(reported), BadTarget, Require(reported == report, PlanMismatch, None))
  }

  /** Why a call fails. */
  ghost function LedgerFault(report: Report, supplied: Option<Supplied>): Option<LedgerError> {
    var error := ReportError(report.lanes);
    if error.Some? then Some(BadPlan(error.value))
    else Then(if supplied.Some? then SuppliedFault(supplied.value, report) else None,
              Require(Targets(report), BadTarget, None))
  }

  /** The checks on a supplied plan or report: its target, then that it equals the canonical plan. */
  method CheckSupplied(supplied: Supplied, report: Report, canonical: Plan)
    returns (error: Option<LedgerError>)
    requires PlanOf(report, canonical) && ReportError(report.lanes) == None
    ensures error == SuppliedFault(supplied, report)
    ensures error.None? <==> Matches(Some(supplied), report) && TargetAccepted(canonical)
  {
    var plan;
    match supplied {
      case SuppliedPlan(p) =>
        plan := p;
        if PlanOf(report, p) {
          PlanDeterminesReport(report, p, report, canonical);
        }
      case SuppliedReport(reported) =>
        var planned := BuildNextPlan(reported);
        if planned.Err? {
          return Some(BadPlan(planned.error));
        }
        plan := planned.value;
        TargetsByOne(reported, plan);
        PlanDeterminesReport(reported, plan, report, canonical);
    }
    if !TargetAccepted(plan) {
      return Some(BadTarget);
    }
    error := if plan != canonical then Some(PlanMismatch) else None;
  }

  lemma TargetsByOne(report: Report, plan: Plan)
    requires PlanOf(report, plan)
    ensures Targets(report) <==> TargetAccepted(plan)
  {
    forall other | PlanOf(report, other)
      ensures other == plan
    {
      PlanDeterminesReport(report, plan, report, other);
    }
  }

  /** `build_offline_execution_ledger` over the supervisor's current report, which is planned here
      again. A plan or report that is supplied is only compared: unless it says what the current report
      says, the call fails. Whatever the reports, executing an eligible action never raises, and every
      command run is the one its token stands for; on the supervisor's own reports nothing else raises. */
  method BuildLedger(report: Report, supplied: Option<Supplied>, apply: bool, inputs: Option<OperatorInputs>,
                     preflightOk: bool, runner: Argv -> Ran)
    returns (result: Result<Ledger, LedgerError>)
    ensures result.Ok? <==> Actionable(report) && Matches(supplied, report)
    ensures LedgerFault(report, supplied) == if result.Ok? then None else Some(result.error)
    ensures FromSupervisor(report.lanes) ==> Actionable(report)
    ensures result.Ok? ==> SoundLedger(result.value, PlannedActions(report.lanes), apply, inputs, preflightOk, runner)
  {
    SupervisorReportIsActionable(report);
    var planned := BuildNextPlan(report);
    if planned.Err? {
      return Err(BadPlan(planned.error));
    }
    var plan := planned.value;
    TargetsByOne(report, plan);
    if supplied.Some? {
      var error := CheckSupplied(supplied.value, report, plan);
      if error.Some? {
        return Err(error.value);
      }
    }
    if !TargetAccepted(plan) {
      return Err(BadTarget);
    }
    var ledger := LedgerOf(plan.actions, apply, inputs, preflightOk, runner);
    result := Ok(ledger);
  }

  lemma SupervisorReportIsActionable(report: Report)
    ensures FromSupervisor(report.lanes) ==> Actionable(report)
  {
    if FromSupervisor(report.lanes) {
      SupervisorIsPlanned(report.lanes);
      forall plan | PlanOf(report, plan)
        ensures TargetAccepted(plan)
      {
        SupervisorPlanIsAccepted(report, plan);
      }
    }
  }
}
