/**
 One cycle of the development autopilot: repository checks, agent, verification stages, file policy,
 and then a report, a git-mutation plan or the mutation itself. The agent, git and the verification
 commands are oracles, fixed by a `World`; every result holds for every world.
 */
module DevelopmentAutopilot {
  import opened Wrappers
  import opened Gates
  import opened Text
  import opened PathPolicy
  import opened AutopilotRecords
  import opened AutopilotWorld
  import opened AutopilotGates

  datatype RunResult = Raised | Finished(record: Record, review: Review, finalization: Finalization)

  /** Where a phase leaves the run: an exception, an early finish, or on to the next phase. */
  datatype Progress = Raises | Stops(record: Record, outcome: Outcome, reason: Reason) | Goes(record: Record)

  /** A phase leaves the run as its list of checks says. */
  predicate Follows(p: Progress, end: Option<End>) {
    match end
    case None => p.Goes?
    case Some(Exception) => p.Raises?
    case Some(Early(outcome, reason)) => p.Stops? && p.outcome == outcome && p.reason == reason
  }

  /** A last phase ends as its list of checks says, and succeeds with this reason. */
  predicate Ends(p: Progress, end: Option<End>, success: Reason) {
    match end
    case None => p.Stops? && p.outcome.Accepted? && p.reason == success
    case Some(Exception) => p.Raises?
    case Some(Early(outcome, reason)) => p.Stops? && p.outcome == outcome && p.reason == reason
  }

  /** The mode is the one that options and work order ask for. */
  predicate ModeFits(mode: EffectiveMode, options: Options, order: WorkOrder) {
    && (mode.RunCommitAndPush? <==> Pushes(options, order)) && (mode.RunCommitOnly? <==> CommitsOnly(options, order))
    && (mode.RunPlanOnly? <==> PlansOnly(order)) && (mode.RunVerifyOnly? <==> Reports(options, order))
  }

  /** `_finish`: inspects the repository once more and derives the two packets. */
  function Finish(record: Record, outcome: Outcome, reason: Reason, world: World): RunResult {
    match world.atFinish
    case None => Raised
    case Some(repo) =>
      var closed := record.(changedFiles := repo.ChangedFiles(), outcome := outcome, reason := reason);
      var review := BuildReview(closed, reason);
      Finished(closed, review, BuildFinalization(closed, review))
  }

  // ---------------------------------------------------------------- running one stage

  ghost predicate StagePassed(stage: Stage, commands: seq<Command>, run: (Stage, nat) -> Ran) {
    forall i: nat :: i < |commands| ==> run(stage, i) == Exited(0)
  }

  /** Runs the commands of one stage in order and stops only after a timeout. The stage passed exactly
      when neither scan finds a result to complain about. */
  method RunVerificationCommands(stage: Stage, commands: seq<Command>, run: (Stage, nat) -> Ran)
    returns (results: seq<CommandResult>, timedOut: bool, failed: bool)
    ensures results == StageResults(stage, commands, run)
    ensures timedOut <==> exists i: nat :: i < |commands| && run(stage, i).TimedOut?
    ensures !timedOut && !failed <==> StagePassed(stage, commands, run)
  {
    ghost var all := ResultsOf(stage, commands, run);
    results, timedOut, failed := [], false, false;
    for i := 0 to |commands|
      invariant results == all[..i] && !timedOut
      invariant forall k: nat :: k < i ==> !all[k].ran.TimedOut? && all[k].ran == run(stage, k)
      invariant failed <==> exists k: nat :: k < i && run(stage, k) != Exited(0)
    {
      var ran := run(stage, i);
      results := results + [CommandResult(stage, commands[i], ran)];
      if ran.TimedOut? {
        timedOut := true;
        TimeoutAt(all, i);
        assert run(stage, i).TimedOut?;
        return;
      }
      if ran.code != 0 {
        failed := true;
      }
    }
    TimeoutAt(all, |commands|);
  }

  // ---------------------------------------------------------------- what the phases promise

  /** No plan has been promised, no remote been asked for, and git has not been touched. */
  predicate Untouched(record: Record) {
    && !Promising(record.plan) && record.push == NO_PUSH
    && !record.git.stagingOccurred && !record.git.commitOccurred && !record.git.pushOccurred
  }

  /** An early finish never accepts a plan, and its record says why there is none. */
  predicate StopsUnaccepted(p: Progress) {
    p.Stops? ==>
      && Untouched(p.record) && SoundPlan(p.record.plan)
      && !p.outcome.Accepted? && PlanTells(p.record, p.reason)
  }

  /** No plan has been made in this mode yet. */
  predicate Fresh(record: Record, mode: EffectiveMode) {
    record.plan == NO_PLAN && record.mutationMode == MutationModeOf(mode)
  }

  /** Ends a run early. The plan of a run that plans is told why. */
  method StopBlocked(record: Record, mode: EffectiveMode, outcome: Outcome, reason: Reason, status: PlanStatus)
    returns (p: Progress)
    requires Untouched(record) && Fresh(record, mode) && !outcome.Accepted? && !reason.GitMutationPlanReady?
    requires status == BlockedStatus(PlanOnlyMutation, reason)
    ensures p.Stops? && p.outcome == outcome && p.reason == reason && StopsUnaccepted(p)
    ensures p.record == record.(plan := p.record.plan)
  {
    var plan := if mode.RunPlanOnly? then record.plan.(status := status, stageFiles := [], wouldPush := false)
                else record.plan;
    p := Stops(record.(plan := plan), outcome, reason);
  }

  /** The changed files of the state pass the work order's file policy. */
  predicate PolicyPasses(repo: RepoState, order: WorkOrder) {
    ChangedFilePolicyReason(repo.ChangedFiles(), order.allowedFiles, order.forbiddenPaths) == ChangesAllowed
  }

  // ---------------------------------------------------------------- phase 1: checks before dispatch

  /** A work order with a hard gate is rejected; any other that cannot be used blocks the run. */
  function LoadOutcome(reason: Reason): Outcome {
    if reason == WorkOrderRejected(true) then Rejected else Blocked
  }

  /** A work order is accepted exactly when there is one, and it is valid. Every other is rejected with
      a reason, unless no path is blank and the first faulty one is one on which the path check raises. */
  method LoadWorkOrder(world: World) returns (order: Result<WorkOrder, Option<Reason>>)
    ensures order.Ok? <==> world.load.Parsed? && ValidOrder(world.load.order)
    ensures order.Ok? ==> order.value == world.load.order
    ensures order == Err(None) <==> world.load.Parsed? && PathCheckRaises(world.load.order)
    ensures order == Err(Some(MissingWorkOrder)) <==> world.load.NoWorkOrder?
    ensures order == Err(Some(MultipleWorkOrders)) <==> world.load.SeveralWorkOrders?
    ensures order == Err(Some(WorkOrderRejected(true))) <==> world.load == Invalid(true)
    ensures LoadEnd(world) == match order
                              case Ok(_) => None
                              case Err(None) => Some(Exception)
                              case Err(Some(reason)) => Some(Early(LoadOutcome(reason), reason))
  {
    match world.load {
      case NoWorkOrder => return Err(Some(MissingWorkOrder));
      case SeveralWorkOrders => return Err(Some(MultipleWorkOrders));
      case Invalid(hardGate) => return Err(Some(WorkOrderRejected(hardGate)));
      case Parsed(parsed) =>
        if ValidOrder(parsed) {
          ValidatedHasNoBlanks(parsed.allowedFiles, parsed.forbiddenPaths);
        }
        if parsed.allowedFiles == [] || !NoBlanks(parsed.allowedFiles) || !NoBlanks(parsed.forbiddenPaths) {
          return Err(Some(WorkOrderRejected(false)));
        }
        var pathError := PathPolicyError(parsed.allowedFiles, parsed.forbiddenPaths);
        if pathError == Some(PathHasNoParts) {
          return Err(None);
        }
        if pathError != None || !CommandsUsable(parsed.requiredVerification) || VerifyOnly !in parsed.gitModesAllowed
           || Strip(parsed.commitMessage) == "" || Strip(parsed.expectedHead) == ""
        {
          return Err(Some(WorkOrderRejected(false)));
        }
        return Ok(parsed);
    }
  }

  /** The record of a run that has passed its first checks: what was asked for and what was found. */
  function OpenedRecord(options: Options, order: WorkOrder, mode: EffectiveMode, before: RepoState): Record {
    InitialRecord(options.expectedHead).(
      opening := Opening(ExpectedHead(options, order), before.head, before.originMain, before.branch,
                         order.allowedFiles, order.forbiddenPaths, order.commitMessage),
      mutationMode := MutationModeOf(mode))
  }

  /** What is known of a run that has passed its first checks. */
  ghost predicate Dispatched(record: Record, mode: EffectiveMode, options: Options, world: World) {
    && world.load.Parsed? && ValidOrder(world.load.order)
    && options.gitMode.Some? && options.fullPytestPolicy.Some?
    && mode == EffectiveModeOf(options.gitMode.value, world.load.order) && ModeFits(mode, options, world.load.order)
    && PermissionError(mode, world.load.order) == None
    && world.environment.CleanEnvironment?
    && world.before.Some? && world.before.value.branch == "main"
    && world.before.value.BaselineMatches(ExpectedHead(options, world.load.order))
    && record == OpenedRecord(options, world.load.order, mode, world.before.value)
  }

  /** The checks made before anything runs. They let a run go on only from a repository on `main`
      whose HEAD and origin/main equal the expected head, in a clean environment, in a mode the
      work order permits. */
  method CheckBeforeDispatch(options: Options, world: World) returns (p: Progress, mode: EffectiveMode)
    ensures Follows(p, DispatchEnd(options, world))
    ensures StopsUnaccepted(p) && (!p.Raises? ==> EvidenceOf(p.record) == DispatchEvidence(options, world))
    ensures p.Goes? ==> Dispatched(p.record, mode, options, world)
  {
    mode := RunVerifyOnly;
    var record := InitialRecord(options.expectedHead);
    if !(MIN_COMMAND_TIMEOUT_SECONDS <= options.commandTimeoutSeconds <= MAX_COMMAND_TIMEOUT_SECONDS) {
      return Stops(record, Blocked, InvalidTimeout), mode;
    }
    if options.fullPytestPolicy == None {
      return Stops(record, Blocked, InvalidFullPytestPolicy), mode;
    }
    if options.gitMode == None {
      return Stops(record, Blocked, InvalidGitMode), mode;
    }
    if world.before == None {
      return Raises, mode;
    }
    var before := world.before.value;
    record := record.(opening := record.opening.(branch := before.branch, startingHead := before.head,
                                                 originMainBefore := before.originMain));
    if options.expectedHead != "" && !before.BaselineMatches(options.expectedHead) {
      return Stops(record, Blocked, BaselineMismatch), mode;
    }
    var loaded := LoadWorkOrder(world);
    if loaded.Err? {
      if loaded.error == None {
        return Raises, mode;
      }
      var reason := loaded.error.value;
      return Stops(record, LoadOutcome(reason), reason), mode;
    }
    p, mode := CheckWorkOrder(record, options, loaded.value, before, world);
  }

  /** The checks that need the work order, as one decision. */
  function OrderBlock(options: Options, order: WorkOrder, mode: EffectiveMode, before: RepoState, world: World)
    : Option<(Outcome, Reason)>
  {
    var expectedHead := ExpectedHead(options, order);
    var dispatchBlock := DispatchBlock(before);
    var block := if dispatchBlock != None && mode.RunPlanOnly? then PlanOnlyDispatchBlock(before) else dispatchBlock;
    if expectedHead != "" && !before.BaselineMatches(expectedHead) then Some((Blocked, ExpectedHeadMismatch))
    else if block != None then Some((Blocked, block.value))
    else if PermissionError(mode, order) != None then Some((Rejected, PermissionError(mode, order).value))
    else if EnvironmentBlock(world.environment) != None then Some((Blocked, EnvironmentBlock(world.environment).value))
    else None
  }

  lemma OrderBlockMeans(options: Options, order: WorkOrder, before: RepoState, world: World)
    requires options.gitMode.Some? && ValidOrder(order)
    ensures var mode := EffectiveModeOf(options.gitMode.value, order);
            (match OrderBlock(options, order, mode, before, world)
             case None => None
             case Some((outcome, reason)) => Some(Early(outcome, reason)))
            == Require(BothAt(before, ExpectedHead(options, order)), Early(Blocked, ExpectedHeadMismatch),
                       Then(RepositoryEnd(before, order), Then(PermissionEnd(options, order), EnvironmentEnd(world))))
  {
    ModeMeans(options, order);
    DispatchBlockMeans(before, order);
    PermissionMeans(options, order);
    EnvironmentMeans(world);
  }

  lemma OrderBlockReasons(options: Options, order: WorkOrder, mode: EffectiveMode, before: RepoState, world: World)
    ensures var block := OrderBlock(options, order, mode, before, world);
            block.Some? ==>
              && !block.value.0.Accepted? && !block.value.1.GitMutationPlanReady?
              && BlockedStatus(MutationModeOf(mode), block.value.1).PlanNotApplicable?
    ensures OrderBlock(options, order, mode, before, world) == None ==>
              PermissionError(mode, order) == None && world.environment.CleanEnvironment? && before.branch == "main"
  {
  }

  method CheckWorkOrder(started: Record, options: Options, order: WorkOrder, before: RepoState, world: World)
    returns (p: Progress, mode: EffectiveMode)
    requires options.gitMode.Some? && ValidOrder(order)
    requires started == InitialRecord(options.expectedHead).(opening := started.opening)
    requires && started.opening.branch == before.branch && started.opening.startingHead == before.head
             && started.opening.originMainBefore == before.originMain
    ensures Follows(p, Require(BothAt(before, ExpectedHead(options, order)), Early(Blocked, ExpectedHeadMismatch),
                               Then(RepositoryEnd(before, order),
                                    Then(PermissionEnd(options, order), EnvironmentEnd(world)))))
    ensures StopsUnaccepted(p) && !p.Raises?
    ensures EvidenceOf(p.record) == NoEvidence(OpeningFor(options, order, before), AskedMode(options, order))
    ensures p.Goes? ==>
              && mode == EffectiveModeOf(options.gitMode.value, order) && ModeFits(mode, options, order)
              && PermissionError(mode, order) == None && world.environment.CleanEnvironment?
              && before.branch == "main" && p.record == OpenedRecord(options, order, mode, before)
  {
    mode := EffectiveModeOf(options.gitMode.value, order);
    ModeMeans(options, order);
    OrderBlockMeans(options, order, before, world);
    OrderBlockReasons(options, order, mode, before, world);
    var opening := started.opening.(expectedHead := ExpectedHead(options, order), allowedFiles := order.allowedFiles,
                                    forbiddenPaths := order.forbiddenPaths, commitMessage := order.commitMessage);
    var record := started.(mutationMode := MutationModeOf(mode), opening := opening);
    match OrderBlock(options, order, mode, before, world) {
      case Some((outcome, reason)) => p := Stops(record, outcome, reason);
      case None => p := Goes(record);
    }
  }

  // ---------------------------------------------------------------- phase 2: the agent

  method RunAgent(record: Record, order: WorkOrder, mode: EffectiveMode, world: World) returns (p: Progress)
    requires Untouched(record) && Fresh(record, mode) && world.before.Some? && (mode.RunPlanOnly? <==> PlansOnly(order))
    requires EvidenceOf(record) == NoEvidence(record.opening, record.mutationMode)
    ensures Follows(p, AgentEnd(world, order))
    ensures StopsUnaccepted(p)
    ensures p.Stops? ==>
              EvidenceOf(p.record) == EvidenceOf(record).(policy := PolicyAfter(AgentEnd(world, order), NotChecked))
    ensures p.Goes? <==>
              || mode.RunPlanOnly?
              || (world.routeAvailable && world.agent == Exited(0) && world.afterAgent.Some?
                  && PolicyPasses(world.afterAgent.value, order))
    ensures p.Goes? ==>
              p.record == if mode.RunPlanOnly? then record.(changedFiles := world.before.value.ChangedFiles())
                          else record.(changedFiles := world.afterAgent.value.ChangedFiles(),
                                       policyResult := PolicyPassed)
  {
    if mode.RunPlanOnly? {
      return Goes(record.(changedFiles := world.before.value.ChangedFiles()));
    }
    if !world.routeAvailable {
      return Stops(record, Blocked, BuilderRouteUnavailable);
    }
    if world.afterAgent == None {
      return Raises;
    }
    var changed := world.afterAgent.value.ChangedFiles();
    var after := record.(changedFiles := changed);
    if world.agent.TimedOut? {
      return Stops(after, Failed, AgentTimeout);
    }
    if world.agent.code != 0 {
      return Stops(after, Failed, AgentExecutionFailed);
    }
    var reason := JudgePolicy(world.afterAgent.value, order);
    if reason.Some? {
      return Stops(after.(policyResult := PolicyFailed), Rejected, reason.value);
    }
    p := Goes(after.(policyResult := PolicyPassed));
  }

  // ---------------------------------------------------------------- phase 3: verification

  /** Where a stage leaves the run: `added` is what it has recorded, and `end` how it ended. */
  predicate StageLeft(p: Progress, base: Record, end: Option<End>, added: seq<CommandResult>) {
    && Follows(p, end) && StopsUnaccepted(p) && !p.Raises?
    && (p.Stops? ==>
          && IsVerificationReason(p.reason)
          && EvidenceOf(p.record) == EvidenceOf(base).(commands := base.commands + added, timeout := EndsLate(end)))
    && (p.Goes? ==> p.record == base.(commands := base.commands + added))
  }

  /** Two stages in a row. */
  lemma StagesChain(p: Progress, q: Progress, base: Record, end: Option<End>, next: Option<End>,
                    added: seq<CommandResult>, more: seq<CommandResult>)
    requires StageLeft(p, base, end, added) && (p.Goes? ==> StageLeft(q, p.record, next, more))
    ensures StageLeft(if p.Goes? then q else p, base, Then(end, next), added + if end.Some? then [] else more)
  {
    assert base.commands + (added + more) == base.commands + added + more;
    assert added + [] == added;
  }

  lemma StageEndMeans(stage: Stage, commands: seq<Command>, late: Reason, run: (Stage, nat) -> Ran, timedOut: bool,
                      failed: bool)
    requires timedOut <==> exists i: nat :: i < |commands| && run(stage, i).TimedOut?
    requires !timedOut && !failed <==> StagePassed(stage, commands, run)
    ensures StageEnd(stage, commands, late, run) == StageVerdict(timedOut, failed, late)
  {
  }

  /** One configured stage: run it, record its results, and stop on a timeout or a failure. */
  method VerifyStage(record: Record, stage: Stage, commands: seq<Command>, timeoutReason: Reason,
                     mode: EffectiveMode, world: World) returns (p: Progress)
    requires Untouched(record) && Fresh(record, mode) && IsTimeout(timeoutReason) && !record.verificationTimeout
    ensures StageLeft(p, record, StageEnd(stage, commands, timeoutReason, world.run),
                      StageResults(stage, commands, world.run))
  {
    var results, timedOut, failed := RunVerificationCommands(stage, commands, world.run);
    StageEndMeans(stage, commands, timeoutReason, world.run, timedOut, failed);
    p := LeaveStage(record, results, timedOut, failed, timeoutReason, mode);
  }

  /** How a stage ends, from what its two scans found. */
  function StageVerdict(timedOut: bool, failed: bool, late: Reason): Option<End> {
    if timedOut then Some(Early(RepairRequired, late))
    else if failed then Some(Early(RepairRequired, VerificationFailed)) else None
  }

  /** Records the results of a stage, and stops on a timeout or a failure. */
  method LeaveStage(record: Record, results: seq<CommandResult>, timedOut: bool, failed: bool, timeoutReason: Reason,
                    mode: EffectiveMode) returns (p: Progress)
    requires Untouched(record) && Fresh(record, mode) && IsTimeout(timeoutReason) && !record.verificationTimeout
    ensures StageLeft(p, record, StageVerdict(timedOut, failed, timeoutReason), results)
  {
    var after := record.(commands := record.commands + results,
                         verificationTimeout := record.verificationTimeout || timedOut);
    if timedOut {
      p := StopBlocked(after, mode, RepairRequired, timeoutReason, PlanBlockedVerificationFailed);
      return;
    }
    if failed {
      p := StopBlocked(after, mode, RepairRequired, VerificationFailed, PlanBlockedVerificationFailed);
      return;
    }
    p := Goes(after);
  }

  /** The commands a run has recorded, stage by stage. */
  function VerificationResults(order: WorkOrder, plan: VerificationPlan, run: (Stage, nat) -> Ran): seq<CommandResult> {
    ResultsOf(WorkOrderVerification, order.requiredVerification, run)
    + ResultsOf(SafetyGuard, plan.safetyGuards, run)
    + ResultsOf(VerifyOffline, OptionalCommand(plan.offline), run)
  }

  ghost predicate StagesPassed(order: WorkOrder, plan: VerificationPlan, run: (Stage, nat) -> Ran) {
    && StagePassed(WorkOrderVerification, order.requiredVerification, run)
    && StagePassed(SafetyGuard, plan.safetyGuards, run)
    && StagePassed(VerifyOffline, OptionalCommand(plan.offline), run)
  }

  /** When all stages passed, every command has its result. */
  lemma StagesAreWhole(order: WorkOrder, plan: VerificationPlan, run: (Stage, nat) -> Ran)
    ensures StagesEnd(order, plan, run) == None <==> StagesPassed(order, plan, run)
    ensures StagesEnd(order, plan, run) == None ==>
              StagesResults(order, plan, run) == VerificationResults(order, plan, run)
    ensures var end := StagesEnd(order, plan, run);
            end.Some? ==> end.value.Early? && IsVerificationReason(end.value.reason)
  {
    if StagesPassed(order, plan, run) {
      PassedIsWhole(WorkOrderVerification, order.requiredVerification, run);
      PassedIsWhole(SafetyGuard, plan.safetyGuards, run);
      PassedIsWhole(VerifyOffline, OptionalCommand(plan.offline), run);
    }
  }

  /** The safety guards and the offline check. */
  method RunRepositoryStages(record: Record, plan: VerificationPlan, mode: EffectiveMode, world: World)
    returns (p: Progress)
    requires Untouched(record) && Fresh(record, mode) && !record.verificationTimeout
    ensures StageLeft(p, record, RepositoryStagesEnd(plan, world.run), RepositoryResults(plan, world.run))
  {
    p := VerifyStage(record, SafetyGuard, plan.safetyGuards, SafetyGuardTimeout, mode, world);
    ghost var guards := p;
    if p.Goes? {
      p := VerifyStage(p.record, VerifyOffline, OptionalCommand(plan.offline), VerifyOfflineTimeout, mode, world);
    }
    StagesChain(guards, p, record, StageEnd(SafetyGuard, plan.safetyGuards, SafetyGuardTimeout, world.run),
                StageEnd(VerifyOffline, OptionalCommand(plan.offline), VerifyOfflineTimeout, world.run),
                StageResults(SafetyGuard, plan.safetyGuards, world.run),
                StageResults(VerifyOffline, OptionalCommand(plan.offline), world.run));
  }

  /** The three stages before the full suite. */
  method RunStages(record: Record, order: WorkOrder, plan: VerificationPlan, mode: EffectiveMode, world: World)
    returns (p: Progress)
    requires Untouched(record) && Fresh(record, mode) && !record.verificationTimeout
    ensures StageLeft(p, record, StagesEnd(order, plan, world.run), StagesResults(order, plan, world.run))
  {
    p := VerifyStage(record, WorkOrderVerification, order.requiredVerification, VerificationCommandTimeout, mode,
                     world);
    ghost var ordered := p;
    if p.Goes? {
      p := RunRepositoryStages(p.record, plan, mode, world);
    }
    StagesChain(ordered, p, record,
                StageEnd(WorkOrderVerification, order.requiredVerification, VerificationCommandTimeout, world.run),
                RepositoryStagesEnd(plan, world.run),
                StageResults(WorkOrderVerification, order.requiredVerification, world.run),
                RepositoryResults(plan, world.run));
  }

  method RunVerification(record: Record, options: Options, order: WorkOrder, plan: VerificationPlan,
                         mode: EffectiveMode, world: World)
    returns (p: Progress)
    requires Untouched(record) && Fresh(record, mode) && record.commands == [] && !record.verificationTimeout
    requires plan == VerificationPlanOf(options.verificationOverride)
    ensures Follows(p, VerificationEnd(options, world, order))
    ensures StopsUnaccepted(p)
    ensures var end := VerificationEnd(options, world, order);
            p.Stops? ==>
              EvidenceOf(p.record) == EvidenceOf(record).(
                commands := StagesResults(order, plan, world.run), timeout := EndsLate(end),
                policy := PolicyAfter(end, record.policyResult))
    ensures p.Goes? ==>
              && world.afterVerification.Some? && PolicyPasses(world.afterVerification.value, order)
              && p.record == record.(commands := StagesResults(order, plan, world.run),
                                     changedFiles := world.afterVerification.value.ChangedFiles(),
                                     policyResult := PolicyPassed)
  {
    StagesAreWhole(order, plan, world.run);
    p := RunStages(record, order, plan, mode, world);
    p := CloseStages(p, record, StagesEnd(order, plan, world.run), StagesResults(order, plan, world.run), order, mode,
                     world.afterVerification);
  }

  /** What becomes of the run after its stages, which ended this way: the file policy, if they passed. */
  method CloseStages(stages: Progress, base: Record, end: Option<End>, results: seq<CommandResult>,
                     order: WorkOrder, mode: EffectiveMode, repo: Option<RepoState>)
    returns (p: Progress)
    requires StageLeft(stages, base, end, results) && Untouched(base) && Fresh(base, mode) && !base.verificationTimeout
    requires end.Some? ==> end.value.Early? && IsVerificationReason(end.value.reason)
    ensures Follows(p, Then(end, JudgeEnd(repo, order))) && StopsUnaccepted(p)
    ensures var all := Then(end, JudgeEnd(repo, order));
            p.Stops? ==>
              EvidenceOf(p.record) == EvidenceOf(base).(
                commands := base.commands + results, timeout := EndsLate(all),
                policy := PolicyAfter(all, base.policyResult))
    ensures p.Goes? ==>
              && end == None && repo.Some? && PolicyPasses(repo.value, order)
              && p.record == base.(changedFiles := repo.value.ChangedFiles(), commands := base.commands + results,
                                   policyResult := PolicyPassed)
  {
    p := stages;
    if p.Goes? {
      p := JudgeChanges(p.record, order, mode, repo);
    }
  }

  /** The file policy on a repository state: None, or why the run is rejected. */
  method JudgePolicy(repo: RepoState, order: WorkOrder) returns (reason: Option<Reason>)
    ensures EndOf(Rejected, reason) == PolicyEnd(repo, order)
    ensures reason == None <==> PolicyPasses(repo, order)
    ensures reason.Some? ==> reason.value.ForbiddenPathChanged? || reason.value.PathNotAllowedChanged?
  {
    PolicyMeans(repo, order);
    var verdict := ChangedFilePolicyReason(repo.ChangedFiles(), order.allowedFiles, order.forbiddenPaths);
    reason := if verdict.ChangesAllowed? then None else Some(PolicyStop(verdict));
  }

  /** Inspects the repository and applies the file policy. */
  method JudgeChanges(record: Record, order: WorkOrder, mode: EffectiveMode, repo: Option<RepoState>)
    returns (p: Progress)
    requires Untouched(record) && Fresh(record, mode)
    ensures Follows(p, JudgeEnd(repo, order))
    ensures StopsUnaccepted(p)
    ensures p.Stops? ==> EvidenceOf(p.record) == EvidenceOf(record).(policy := PolicyFailed) && IsPolicyReason(p.reason)
    ensures p.Goes? <==>
              repo.Some? && PolicyPasses(repo.value, order)
    ensures p.Goes? ==> p.record == record.(changedFiles := repo.value.ChangedFiles(), policyResult := PolicyPassed)
  {
    if repo == None {
      return Raises;
    }
    var reason := JudgePolicy(repo.value, order);
    p := ApplyVerdict(record.(changedFiles := repo.value.ChangedFiles()), mode, reason);
  }

  /** Goes on, or ends the run over its changed files. */
  method ApplyVerdict(record: Record, mode: EffectiveMode, reason: Option<Reason>) returns (p: Progress)
    requires Untouched(record) && Fresh(record, mode)
    requires reason.Some? ==> reason.value.ForbiddenPathChanged? || reason.value.PathNotAllowedChanged?
    ensures Follows(p, EndOf(Rejected, reason)) && StopsUnaccepted(p)
    ensures p.Stops? ==> EvidenceOf(p.record) == EvidenceOf(record).(policy := PolicyFailed)
    ensures p.Goes? ==> p.record == record.(policyResult := PolicyPassed)
  {
    if reason.Some? {
      p := StopBlocked(record.(policyResult := PolicyFailed), mode, Rejected, reason.value, PlanBlockedNotAllowlisted);
      return;
    }
    p := Goes(record.(policyResult := PolicyPassed));
  }

  // ---------------------------------------------------------------- phase 4: the full suite

  /** The repository state the run judged last, before it reports, plans or mutates. */
  function JudgedState(fast: bool, full: Option<Command>, world: World): Option<RepoState> {
    if fast || full == None then world.afterVerification else world.afterFullPytest
  }

  /** What the last stage adds to the recorded commands: nothing on the fast path. */
  function FullPytestResults(fast: bool, full: Option<Command>, run: (Stage, nat) -> Ran): seq<CommandResult> {
    if fast then [] else ResultsOf(FullPytestStage, OptionalCommand(full), run)
  }

  /** What the full suite leaves behind when the run ends there. */
  ghost function SuiteRecord(record: Record, full: Command, order: WorkOrder, world: World): Evidence {
    var end := Then(StageEnd(FullPytestStage, [full], FullPytestTimeout, world.run),
                    JudgeEnd(world.afterFullPytest, order));
    EvidenceOf(record).(commands := record.commands + StageResults(FullPytestStage, [full], world.run),
                        timeout := EndsLate(end), full := SuiteStatus(world.run),
                        policy := PolicyAfter(end, PolicyPassed))
  }

  /** The full suite, unless the fast path (`fast`) skips it or none is configured. */
  method RunFullPytest(record: Record, order: WorkOrder, full: Option<Command>, fast: bool, mode: EffectiveMode,
                       world: World)
    returns (p: Progress)
    requires Untouched(record) && !record.fastPathUsed && !record.verificationTimeout && world.afterVerification.Some?
    requires Fresh(record, mode) && record.policyResult == PolicyPassed
    requires record.changedFiles == world.afterVerification.value.ChangedFiles()
    requires PolicyPasses(world.afterVerification.value, order)
    requires fast ==> full.Some?
    ensures Follows(p, if fast || full == None then None
                       else Then(StageEnd(FullPytestStage, [full.value], FullPytestTimeout, world.run),
                                 JudgeEnd(world.afterFullPytest, order)))
    ensures StopsUnaccepted(p)
    ensures !p.Raises? ==>
              EvidenceOf(p.record) == if fast then EvidenceOf(record).(full := Skipped, fast := true)
                                      else if full == None then EvidenceOf(record).(full := NotConfigured)
                                      else SuiteRecord(record, full.value, order, world)
    ensures p.Goes? ==>
              var judged := JudgedState(fast, full, world);
              && judged.Some? && PolicyPasses(judged.value, order)
              && (fast || StagePassed(FullPytestStage, OptionalCommand(full), world.run))
              && p.record == record.(changedFiles := judged.value.ChangedFiles(),
                                     commands := record.commands + FullPytestResults(fast, full, world.run),
                                     fullPytest := if fast then Skipped
                                                   else if full == None then NotConfigured
                                                   else PytestPassed,
                                     fastPathUsed := fast, policyResult := PolicyPassed)
  {
    if fast {
      return Goes(record.(fullPytest := Skipped, fastPathUsed := true));
    }
    if full == None {
      return Goes(record.(fullPytest := NotConfigured));
    }
    p := RunSuite(record, order, full.value, mode, world);
  }

  /** The full suite itself, and the policy check after it. */
  method RunSuite(record: Record, order: WorkOrder, full: Command, mode: EffectiveMode, world: World)
    returns (p: Progress)
    requires Untouched(record) && Fresh(record, mode) && !record.verificationTimeout && !record.fastPathUsed
    requires record.policyResult == PolicyPassed
    ensures Follows(p, Then(StageEnd(FullPytestStage, [full], FullPytestTimeout, world.run),
                            JudgeEnd(world.afterFullPytest, order)))
    ensures StopsUnaccepted(p)
    ensures !p.Raises? ==> EvidenceOf(p.record) == SuiteRecord(record, full, order, world)
    ensures p.Goes? ==>
              && StagePassed(FullPytestStage, [full], world.run)
              && world.afterFullPytest.Some? && PolicyPasses(world.afterFullPytest.value, order)
              && p.record == record.(changedFiles := world.afterFullPytest.value.ChangedFiles(),
                                     commands := record.commands + ResultsOf(FullPytestStage, [full], world.run),
                                     fullPytest := PytestPassed, policyResult := PolicyPassed)
  {
    SuiteStatusMeans(full, world.run);
    PassedSuite(full, world.run);
    p := VerifyStage(record, FullPytestStage, [full], FullPytestTimeout, mode, world);
    p := CloseSuite(p, record, StageEnd(FullPytestStage, [full], FullPytestTimeout, world.run),
                    StageResults(FullPytestStage, [full], world.run), order, mode, world.afterFullPytest);
  }

  lemma SuiteStatusMeans(full: Command, run: (Stage, nat) -> Ran)
    ensures StageEnd(FullPytestStage, [full], FullPytestTimeout, run) ==
            match SuiteStatus(run)
            case PytestTimeout => Some(Early(RepairRequired, FullPytestTimeout))
            case PytestFailed => Some(Early(RepairRequired, VerificationFailed))
            case _ => None
  {
  }

  lemma PassedSuite(full: Command, run: (Stage, nat) -> Ran)
    ensures StageEnd(FullPytestStage, [full], FullPytestTimeout, run) == None ==>
              && StagePassed(FullPytestStage, [full], run)
              && StageResults(FullPytestStage, [full], run) == ResultsOf(FullPytestStage, [full], run)
  {
    if StageEnd(FullPytestStage, [full], FullPytestTimeout, run) == None {
      PassedIsWhole(FullPytestStage, [full], run);
    }
  }

  /** What becomes of the run after the suite, which ended this way. */
  method CloseSuite(suite: Progress, base: Record, end: Option<End>, results: seq<CommandResult>,
                    order: WorkOrder, mode: EffectiveMode, repo: Option<RepoState>)
    returns (p: Progress)
    requires StageLeft(suite, base, end, results) && Untouched(base) && Fresh(base, mode)
    requires !base.verificationTimeout && !base.fastPathUsed && base.policyResult == PolicyPassed
    requires end.Some? ==> end == Some(Early(RepairRequired, FullPytestTimeout))
                           || end == Some(Early(RepairRequired, VerificationFailed))
    ensures Follows(p, Then(end, JudgeEnd(repo, order))) && StopsUnaccepted(p)
    ensures !p.Raises? ==>
              EvidenceOf(p.record) == EvidenceOf(base).(
                commands := base.commands + results, timeout := EndsLate(Then(end, JudgeEnd(repo, order))),
                full := if end == None then PytestPassed else if EndsLate(end) then PytestTimeout else PytestFailed,
                policy := PolicyAfter(Then(end, JudgeEnd(repo, order)), PolicyPassed))
    ensures p.Goes? ==>
              && end == None && repo.Some? && PolicyPasses(repo.value, order)
              && p.record == base.(changedFiles := repo.value.ChangedFiles(), commands := base.commands + results,
                                   fullPytest := PytestPassed, policyResult := PolicyPassed)
  {
    var status, marked;
    match suite {
      case Stops(after, outcome, reason) =>
        status := if reason.FullPytestTimeout? then PytestTimeout else PytestFailed;
        marked := Stops(after.(fullPytest := status), outcome, reason);
      case Goes(after) =>
        status := PytestPassed;
        marked := Goes(after.(fullPytest := status));
    }
    p := CloseStages(marked, base.(fullPytest := status), end, results, order, mode, repo);
  }

  // ---------------------------------------------------------------- phase 5: plan or mutate

  /** Why a plan is refused: something is staged already, or the remote may not be pushed to. */
  function PlanBlock(order: WorkOrder, changed: seq<string>, repo: RepoState, kind: RemoteKind): Option<Reason> {
    if changed == [] then None
    else if repo.StagedFiles() != [] then Some(ChangedFilesNotAllowlisted)
    else match Authorize(order, kind).blocker
         case None => None
         case Some(NetworkPushBlocked) => Some(NetworkPushNotAuthorized)
         case Some(RemoteUnknownBlocked) => Some(PushRemoteUnknown)
  }

  lemma PlanBlockMeans(order: WorkOrder, repo: RepoState, world: World)
    ensures EndOf(Blocked, PlanBlock(order, repo.ChangedFiles(), repo, world.remoteKind)) == PlanEnd(repo, world, order)
  {
    PushBlockerMeans(world, order);
    NothingChangedMeans(repo);
    NothingStagedMeans(repo);
  }

  /** The plan of `_plan_git_mutation`, and why it is blocked. */
  method DrawPlan(order: WorkOrder, changed: seq<string>, repo: RepoState, kind: RemoteKind)
    returns (plan: Plan, blocked: Option<Reason>)
    ensures SoundPlan(plan) && plan.push == Authorize(order, kind)
    ensures Promising(plan) <==> changed != [] && repo.StagedFiles() == [] && plan.push.blocker == None
    ensures plan.stageFiles == if Promising(plan) then changed else []
    ensures blocked == PlanBlock(order, changed, repo, kind)
    ensures plan.status == if blocked.Some? then BlockedStatus(PlanOnlyMutation, blocked.value)
                           else if changed == [] then PlannedNoChanges
                           else if kind == LocalPath then PlannedLocalPush
                           else PlannedNetworkPushAuthorized
  {
    var push := Authorize(order, kind);
    if changed == [] {
      return Plan(PlannedNoChanges, [], false, push), None;
    }
    if repo.StagedFiles() != [] {
      return Plan(PlanBlockedNotAllowlisted, [], false, push), Some(ChangedFilesNotAllowlisted);
    }
    if push.blocker == Some(NetworkPushBlocked) {
      return Plan(PlanBlockedNetworkPush, [], false, push), Some(NetworkPushNotAuthorized);
    }
    if push.blocker == Some(RemoteUnknownBlocked) {
      return Plan(PlanBlockedUnknownRemote, [], false, push), Some(PushRemoteUnknown);
    }
    var status := if push.kind.LocalPath? then PlannedLocalPush else PlannedNetworkPushAuthorized;
    return Plan(status, changed, true, push), None;
  }

  /** `_plan_git_mutation`: nothing is run; the plan says what would be. */
  method PlanGitMutation(record: Record, order: WorkOrder, changed: seq<string>, repo: RepoState, world: World)
    returns (after: Record, blocked: Option<Reason>)
    ensures SoundPlan(after.plan)
    ensures after == record.(mutationMode := PlanOnlyMutation, push := after.push, plan := after.plan,
                             git := NOTHING_DONE)
    ensures after.push == Authorize(order, world.remoteKind) == after.plan.push
    ensures Promising(after.plan) <==>
              changed != [] && repo.StagedFiles() == [] && after.push.blocker == None
    ensures after.plan.stageFiles == if Promising(after.plan) then changed else []
    ensures blocked == None <==> Promising(after.plan) || changed == []
    ensures blocked == PlanBlock(order, changed, repo, world.remoteKind)
    ensures after.plan.status == if blocked.Some? then BlockedStatus(PlanOnlyMutation, blocked.value)
                                 else if changed == [] then PlannedNoChanges
                                 else if world.remoteKind == LocalPath then PlannedLocalPush
                                 else PlannedNetworkPushAuthorized
  {
    var plan;
    plan, blocked := DrawPlan(order, changed, repo, world.remoteKind);
    after := record.(mutationMode := PlanOnlyMutation, push := plan.push, plan := plan, git := NOTHING_DONE);
  }

  /** Each command is issued only after the one before it succeeded. */
  predicate InOrder(ops: seq<GitOp>) {
    && |ops| <= 3
    && (|ops| >= 1 ==> ops[0].Add?)
    && (|ops| >= 2 ==> ops[0].exit == 0 && ops[1].Commit?)
    && (|ops| >= 3 ==> ops[1].exit == 0 && ops[2].Push?)
  }

  /** What must hold of the repository and the remote before git is asked to change anything. */
  predicate MayMutate(order: WorkOrder, mode: EffectiveMode, changed: seq<string>, expectedHead: string,
                      repo: RepoState, kind: RemoteKind)
  {
    && changed != []
    && repo.StagedFiles() == []
    && (expectedHead == "" || repo.BaselineMatches(expectedHead))
    && (mode.RunCommitAndPush? ==> Authorize(order, kind).blocker == None)
  }

  /** The two records hold the same evidence: what the run was opened with, and how it was verified. */
  predicate SameEvidence(a: Record, b: Record) {
    && a.opening == b.opening && a.commands == b.commands && a.fastPathUsed == b.fastPathUsed
    && a.fullPytest == b.fullPytest && a.policyResult == b.policyResult
    && a.verificationTimeout == b.verificationTimeout
  }

  /** The checks `_perform_git_mutation` makes before its first command. */
  method CheckBeforeMutation(record: Record, order: WorkOrder, mode: EffectiveMode, changed: seq<string>,
                             expectedHead: string, repo: RepoState, kind: RemoteKind)
    returns (after: Record, blocked: Option<Reason>)
    ensures blocked == None <==> MayMutate(order, mode, changed, expectedHead, repo, kind)
    ensures after == record.(mutationMode := MutationModeOf(mode), push := after.push, plan := NO_PLAN,
                             git := NOTHING_DONE)
    ensures after.push == if && mode.RunCommitAndPush? && changed != [] && repo.StagedFiles() == []
                             && (expectedHead == "" || repo.BaselineMatches(expectedHead))
                          then Authorize(order, kind) else NO_PUSH
    ensures blocked.Some? ==> !blocked.value.GitMutationPlanReady?
    ensures changed == [] ==> blocked == Some(NoChangedFilesToCommit)
    ensures changed != [] && repo.StagedFiles() != [] ==> blocked == Some(StagedBeforeMutation)
    ensures changed != [] && repo.StagedFiles() == [] && expectedHead != "" && !repo.BaselineMatches(expectedHead) ==>
              blocked == Some(BaselineMismatchBeforeMutation)
    ensures changed != [] && repo.StagedFiles() == [] && repo.BaselineMatches(expectedHead) && blocked.Some? ==>
              blocked == Some(if Authorize(order, kind).blocker == Some(NetworkPushBlocked)
                              then NetworkPushNotAuthorized else PushRemoteUnknown)
  {
    after := record.(mutationMode := MutationModeOf(mode), push := NO_PUSH, plan := NO_PLAN,
                     git := NOTHING_DONE);
    if changed == [] {
      return after, Some(NoChangedFilesToCommit);
    }
    if repo.StagedFiles() != [] {
      return after, Some(StagedBeforeMutation);
    }
    if expectedHead != "" && !repo.BaselineMatches(expectedHead) {
      return after, Some(BaselineMismatchBeforeMutation);
    }
    if mode.RunCommitAndPush? {
      after := after.(push := Authorize(order, kind));
      if after.push.blocker == Some(NetworkPushBlocked) {
        return after, Some(NetworkPushNotAuthorized);
      }
      if after.push.blocker == Some(RemoteUnknownBlocked) {
        return after, Some(PushRemoteUnknown);
      }
    }
    blocked := None;
  }

  /** The mutation is asked for as options and work order say, over the changes of the repository. */
  predicate AsAsked(mode: EffectiveMode, changed: seq<string>, head: string, repo: RepoState, options: Options,
                    order: WorkOrder)
  {
    && ModeFits(mode, options, order) && changed == repo.ChangedFiles()
    && head == ExpectedHead(options, order) && head != ""
  }

  lemma BeforeAddMeans(mode: EffectiveMode, changed: seq<string>, head: string, repo: RepoState, options: Options,
                       order: WorkOrder, world: World)
    ensures AsAsked(mode, changed, head, repo, options, order) ==>
              BeforeAdd(repo, options, world, order) ==
              if changed == [] then Some(Early(Blocked, NoChangedFilesToCommit))
              else if repo.StagedFiles() != [] then Some(Early(Blocked, StagedBeforeMutation))
              else if !repo.BaselineMatches(head) then Some(Early(Blocked, BaselineMismatchBeforeMutation))
              else if !mode.RunCommitAndPush? then None
              else match Authorize(order, world.remoteKind).blocker
                   case None => None
                   case Some(NetworkPushBlocked) => Some(Early(Blocked, NetworkPushNotAuthorized))
                   case Some(RemoteUnknownBlocked) => Some(Early(Blocked, PushRemoteUnknown))
    ensures AsAsked(mode, changed, head, repo, options, order) && !PlansOnly(order) ==>
              LastPush(repo, options, world, order) ==
              if mode.RunCommitAndPush? && changed != [] && repo.StagedFiles() == [] && repo.BaselineMatches(head)
              then Authorize(order, world.remoteKind) else NO_PUSH
  {
    NothingChangedMeans(repo);
    NothingStagedMeans(repo);
    PushBlockerMeans(world, order);
  }

  /** `_perform_git_mutation`. */
  method PerformGitMutation(record: Record, options: Options, order: WorkOrder, mode: EffectiveMode,
                            changed: seq<string>, expectedHead: string, repo: RepoState, world: World)
    returns (p: Progress, ops: seq<GitOp>)
    requires mode.RunCommitOnly? || mode.RunCommitAndPush?
    requires Untouched(record)
    ensures AsAsked(mode, changed, expectedHead, repo, options, order) ==>
              && Follows(p, MutationEnd(repo, options, world, order)) && ops == MutationOps(repo, options, world, order)
              && (!p.Raises? ==> p.record.push == LastPush(repo, options, world, order))
    ensures !p.Raises? ==> ListsTell(p.record, world)
    ensures InOrder(ops)
    ensures ops != [] <==> MayMutate(order, mode, changed, expectedHead, repo, world.remoteKind)
    ensures ops != [] ==> ops[0].files == changed
    ensures |ops| >= 2 ==> ops[1].message == order.commitMessage
    ensures |ops| == 3 ==>
              && mode.RunCommitAndPush?
              && ops[2].remote == "origin" && world.branchBeforePush == Some(ops[2].branch)
              && (expectedHead == "" || world.originBeforePush == Some(expectedHead))
    ensures p.Stops? ==> !p.outcome.Accepted? && !p.reason.GitMutationPlanReady?
    ensures !p.Raises? ==> !Promising(p.record.plan) && SameEvidence(p.record, record)
    ensures !p.Raises? ==> p.record.plan == NO_PLAN && p.record.mutationMode == MutationModeOf(mode)
    ensures p.Goes? ==>
              if mode.RunCommitOnly? then |ops| == 2 && ops[1].exit == 0 else |ops| == 3 && ops[2].exit == 0
    ensures !p.Raises? ==>
              && (p.record.git.stagingOccurred <==> |ops| >= 1 && ops[0].exit == 0)
              && (p.record.git.commitOccurred <==> |ops| >= 2 && ops[1].exit == 0)
              && (p.record.git.pushOccurred <==> |ops| == 3 && ops[2].exit == 0)
  {
    ops := [];
    BeforeAddMeans(mode, changed, expectedHead, repo, options, order, world);
    var after, blocked := CheckBeforeMutation(record, order, mode, changed, expectedHead, repo, world.remoteKind);
    if blocked != None {
      return Stops(after, Blocked, blocked.value), ops;
    }
    p, ops := RunGit(after, order.commitMessage, mode, changed, expectedHead, world);
  }

  /** Stage, commit and, in the pushing mode, push. */
  method RunGit(record: Record, message: string, mode: EffectiveMode, changed: seq<string>, expectedHead: string,
                world: World)
    returns (p: Progress, ops: seq<GitOp>)
    requires record.git == NOTHING_DONE && (mode.RunCommitOnly? || mode.RunCommitAndPush?)
    ensures InOrder(ops) && ops != [] && ops[0] == Add(changed, world.addExit)
    ensures expectedHead != "" ==>
              && Follows(p, GitEnd(mode.RunCommitAndPush?, expectedHead, world))
              && ops == GitOps(mode.RunCommitAndPush?, changed, message, expectedHead, world)
    ensures |ops| >= 2 ==> ops[1].message == message
    ensures |ops| == 3 ==>
              && mode.RunCommitAndPush?
              && ops[2].remote == "origin" && world.branchBeforePush == Some(ops[2].branch)
              && (expectedHead == "" || world.originBeforePush == Some(expectedHead))
    ensures p.Stops? ==> !p.outcome.Accepted? && !p.reason.GitMutationPlanReady?
    ensures p.Goes? ==> Mutated(mode, ops)
    ensures !p.Raises? ==>
              && p.record == record.(git := p.record.git)
              && FlagsTell(p.record, ops) && ListsTell(p.record, world)
  {
    ops := [Add(changed, world.addExit)];
    if world.addExit != 0 {
      return Stops(record, Blocked, GitAddFailed), ops;
    }
    if world.stagedList == None {
      return Raises, ops;
    }
    var after := record.(git := record.git.(stagingOccurred := true, stagedFiles := world.stagedList.value));
    ops := ops + [Commit(message, world.commitExit)];
    if world.commitExit != 0 {
      return Stops(after, Blocked, GitCommitFailed), ops;
    }
    if world.committedList == None {
      return Raises, ops;
    }
    after := after.(git := after.git.(commitOccurred := true, committedFiles := world.committedList.value));
    p := Goes(after);
    if mode.RunCommitAndPush? {
      var push;
      p, push := PushCommit(after, expectedHead, world);
      ops := ops + push;
    }
  }

  /** The lists in the record are git's own, of what was staged and committed. */
  predicate ListsTell(record: Record, world: World) {
    && Some(record.git.stagedFiles) == (if record.git.stagingOccurred then world.stagedList else Some([]))
    && Some(record.git.committedFiles) == (if record.git.commitOccurred then world.committedList else Some([]))
  }

  /** The checks before the push, and the push. */
  method PushCommit(record: Record, expectedHead: string, world: World) returns (p: Progress, push: seq<GitOp>)
    requires !record.git.pushOccurred
    ensures expectedHead != "" ==> Follows(p, PushEnd(expectedHead, world))
    ensures push == if && world.originBeforePush.Some?
                       && (expectedHead == "" || world.originBeforePush.value == expectedHead)
                       && world.branchBeforePush.Some?
                    then [Push("origin", world.branchBeforePush.value, world.pushExit)] else []
    ensures p.Goes? ==> push != [] && push[0].exit == 0
    ensures p.Stops? ==> !p.outcome.Accepted? && !p.reason.GitMutationPlanReady?
    ensures !p.Raises? ==> p.record == record.(git := record.git.(pushOccurred := push != [] && push[0].exit == 0))
  {
    push := [];
    if world.originBeforePush == None {
      return Raises, push;
    }
    if expectedHead != "" && world.originBeforePush.value != expectedHead {
      return Stops(record, Blocked, OriginMainChangedBeforePush), push;
    }
    if world.branchBeforePush == None {
      return Raises, push;
    }
    push := [Push("origin", world.branchBeforePush.value, world.pushExit)];
    if world.pushExit != 0 {
      return Stops(record, Blocked, GitPushFailed), push;
    }
    p := Goes(record.(git := record.git.(pushOccurred := true)));
  }

  // ---------------------------------------------------------------- the whole run

  predicate TakesFastPath(options: Options, mode: EffectiveMode, order: WorkOrder, world: World) {
    && options.fullPytestPolicy.Some? && world.afterVerification.Some?
    && UsesFastPath(options.fullPytestPolicy.value, mode, order, VerificationPlanOf(options.verificationOverride),
                    world.afterVerification.value)
  }

  /** Every gate between the start of a run and its plan or mutation: the order is valid and permits
      the mode, the environment is clean, the repository was on `main` at the expected head, the
      agent was found and succeeded within the policy, every command of every configured stage exited 0,
      and the changed files of the state judged last passed the policy. */
  ghost predicate GatesPassed(options: Options, world: World) {
    && options.gitMode.Some? && options.fullPytestPolicy.Some? && world.load.Parsed?
    && var order := world.load.order;
       var mode := EffectiveModeOf(options.gitMode.value, order);
       var plan := VerificationPlanOf(options.verificationOverride);
       var fast := TakesFastPath(options, mode, order, world);
       var judged := JudgedState(fast, plan.full, world);
       && ValidOrder(order)
       && PermissionError(mode, order) == None
       && world.environment.CleanEnvironment?
       && world.before.Some? && world.before.value.branch == "main"
       && world.before.value.BaselineMatches(ExpectedHead(options, order))
       && (mode.RunPlanOnly?
           || (world.routeAvailable && world.agent == Exited(0)
               && world.afterAgent.Some? && PolicyPasses(world.afterAgent.value, order)))
       && StagesPassed(order, plan, world.run) && world.afterVerification.Some?
       && (fast || StagePassed(FullPytestStage, OptionalCommand(plan.full), world.run))
       && judged.Some? && PolicyPasses(judged.value, order)
  }

  /** The mode of a run whose gates passed, and the state it judged last. */
  ghost function GatedMode(options: Options, world: World): EffectiveMode
    requires GatesPassed(options, world)
  {
    EffectiveModeOf(options.gitMode.value, world.load.order)
  }

  ghost function GatedState(options: Options, world: World): RepoState
    requires GatesPassed(options, world)
  {
    JudgedState(TakesFastPath(options, GatedMode(options, world), world.load.order, world),
                VerificationPlanOf(options.verificationOverride).full, world).value
  }

  /** The results of every command the gates ran, in order. */
  ghost function GatedCommands(options: Options, world: World): seq<CommandResult>
    requires GatesPassed(options, world)
  {
    var plan := VerificationPlanOf(options.verificationOverride);
    VerificationResults(world.load.order, plan, world.run)
    + FullPytestResults(TakesFastPath(options, GatedMode(options, world), world.load.order, world), plan.full,
                        world.run)
  }

  /** What becomes of the full suite: skipped, not configured, or passed. */
  ghost function GatedSuite(options: Options, world: World): FullPytest
    requires GatesPassed(options, world)
  {
    if SkipsFullSuite(options, world.load.order, world.afterVerification.value) then Skipped
    else if VerificationPlanOf(options.verificationOverride).full == None then NotConfigured
    else PytestPassed
  }

  /** The record of a run whose gates passed: what it was opened with, and what the gates found. */
  ghost function GatedRecord(options: Options, world: World): Record
    requires GatesPassed(options, world)
  {
    OpenedRecord(options, world.load.order, GatedMode(options, world), world.before.value).(
      commands := GatedCommands(options, world), changedFiles := GatedState(options, world).ChangedFiles(),
      policyResult := PolicyPassed, fullPytest := GatedSuite(options, world),
      fastPathUsed := SkipsFullSuite(options, world.load.order, world.afterVerification.value))
  }

  /** Phases 3 and 4. */
  method VerifyRun(record: Record, options: Options, order: WorkOrder, mode: EffectiveMode, world: World)
    returns (p: Progress)
    requires Untouched(record) && Fresh(record, mode) && options.gitMode.Some? && options.fullPytestPolicy.Some?
    requires mode == EffectiveModeOf(options.gitMode.value, order)
    requires EvidenceOf(record) == NoEvidence(record.opening, record.mutationMode).(
               policy := if PlansOnly(order) then NotChecked else PolicyPassed)
    ensures Follows(p, Then(VerificationEnd(options, world, order),
                            if world.afterVerification == None then None else FullSuiteEnd(options, world, order)))
    ensures StopsUnaccepted(p)
    ensures !p.Raises? ==>
              EvidenceOf(p.record)
              == VerificationEvidence(NoEvidence(record.opening, record.mutationMode), options, world, order)
    ensures p.Goes? ==>
              var plan := VerificationPlanOf(options.verificationOverride);
              var fast := TakesFastPath(options, mode, order, world);
              var judged := JudgedState(fast, plan.full, world);
              && StagesPassed(order, plan, world.run) && world.afterVerification.Some?
              && (fast <==> SkipsFullSuite(options, order, world.afterVerification.value))
              && (fast || StagePassed(FullPytestStage, OptionalCommand(plan.full), world.run))
              && judged.Some? && PolicyPasses(judged.value, order)
              && p.record == record.(commands := VerificationResults(order, plan, world.run)
                                                 + FullPytestResults(fast, plan.full, world.run),
                                     changedFiles := judged.value.ChangedFiles(), policyResult := PolicyPassed,
                                     fullPytest := if fast then Skipped
                                                   else if plan.full == None then NotConfigured else PytestPassed,
                                     fastPathUsed := fast)
  {
    var plan := VerificationPlanOf(options.verificationOverride);
    p := RunVerification(record, options, order, plan, mode, world);
    if !p.Goes? {
      return;
    }
    StagesAreWhole(order, plan, world.run);
    FastPathMeans(options, order, world.afterVerification.value);
    p := RunFullPytest(p.record, order, plan.full, TakesFastPath(options, mode, order, world), mode, world);
  }

  /** Phases 1 to 4. */
  method PassGates(options: Options, world: World) returns (p: Progress, mode: EffectiveMode)
    ensures Follows(p, GatesEnd(options, world))
    ensures StopsUnaccepted(p)
    ensures !p.Raises? ==> EvidenceOf(p.record) == RunEvidence(options, world)
    ensures p.Goes? ==>
              && GatesPassed(options, world) && mode == GatedMode(options, world)
              && ModeFits(mode, options, world.load.order)
              && LastState(options, world, world.load.order) == Some(GatedState(options, world))
              && Untouched(p.record)
              && p.record == GatedRecord(options, world)
              && (p.record.fastPathUsed ==> mode.RunVerifyOnly? || mode.RunPlanOnly?)
  {
    p, mode := CheckBeforeDispatch(options, world);
    if !p.Goes? {
      return;
    }
    var order := world.load.order;
    p := RunAgent(p.record, order, mode, world);
    if !p.Goes? {
      return;
    }
    // The source asks the environment again here; it has not changed since phase 1.
    p := VerifyRun(p.record, options, order, mode, world);
  }

  /** What a run whose gates passed may have asked of git. */
  ghost predicate GuardedOps(ops: seq<GitOp>, order: WorkOrder, mode: EffectiveMode, changed: seq<string>, head: string,
                             repo: RepoState, world: World) {
    && (mode.RunCommitOnly? || mode.RunCommitAndPush?)
    && ops != [] && ops[0].Add? && ops[0].files == changed != []
    && repo.StagedFiles() == []
    && repo.head == repo.originMain == head
    && (|ops| >= 2 ==> ops[1].Commit? && ops[1].message == order.commitMessage)
    && (|ops| == 3 ==>
          && mode.RunCommitAndPush?
          && ops[2].Push? && ops[2].remote == "origin"
          && world.originBeforePush == Some(head)
          && (world.remoteKind.LocalPath? || (world.remoteKind.Network? && order.nonlocalPushAuthorized)))
  }

  ghost predicate Guarded(ops: seq<GitOp>, options: Options, world: World) {
    && InOrder(ops)
    && (ops != [] ==>
          && GatesPassed(options, world)
          && GuardedOps(ops, world.load.order, GatedMode(options, world), GatedState(options, world).ChangedFiles(),
                        ExpectedHead(options, world.load.order), GatedState(options, world), world))
  }

  /** The three flags of the record tell exactly which commands succeeded. */
  predicate FlagsTell(record: Record, ops: seq<GitOp>) {
    && (record.git.stagingOccurred <==> |ops| >= 1 && ops[0].exit == 0)
    && (record.git.commitOccurred <==> |ops| >= 2 && ops[1].exit == 0)
    && (record.git.pushOccurred <==> |ops| == 3 && ops[2].exit == 0)
  }

  /** Everything the mode asked of git succeeded. */
  predicate Mutated(mode: EffectiveMode, ops: seq<GitOp>) {
    if mode.RunCommitOnly? then |ops| == 2 && ops[1].exit == 0 else |ops| == 3 && ops[2].exit == 0
  }

  /** What a promising plan in a record rests on. */
  predicate PromiseKept(record: Record, order: WorkOrder, changed: seq<string>, repo: RepoState, kind: RemoteKind) {
    && record.plan.stageFiles == changed != []
    && record.plan.wouldPush
    && record.mutationMode == PlanOnlyMutation
    && record.opening.commitMessage == order.commitMessage
    && record.push == Authorize(order, kind) && record.push.blocker == None
    && repo.StagedFiles() == []
  }

  /** Phase 5 without a mutation: report, or plan. */
  method ReportOrPlan(record: Record, order: WorkOrder, mode: EffectiveMode, changed: seq<string>, repo: RepoState,
                      world: World)
    returns (p: Progress)
    requires mode.RunVerifyOnly? || mode.RunPlanOnly?
    requires Untouched(record) && Fresh(record, mode) && record.opening.commitMessage == order.commitMessage
    requires record.git == NOTHING_DONE
    ensures p.Stops? ==> PlanTells(p.record, p.reason) && p.record.git == NOTHING_DONE
                         && p.record.mutationMode == record.mutationMode
    ensures p.Stops? ==> p.record.push == if mode.RunPlanOnly? then RemoteAsked(world, order) else NO_PUSH
    ensures mode.RunVerifyOnly? ==> Ends(p, None, VerifyOnlySuccess)
    ensures mode.RunPlanOnly? && changed == repo.ChangedFiles() ==>
              Ends(p, PlanEnd(repo, world, order), GitMutationPlanReady)
    ensures p.Stops? && SoundPlan(p.record.plan)
    ensures Promising(p.record.plan) <==> p.outcome.Accepted? && mode.RunPlanOnly? && changed != []
    ensures Promising(p.record.plan) ==> PromiseKept(p.record, order, changed, repo, world.remoteKind)
    ensures p.outcome.Accepted? ==> p.reason == if mode.RunPlanOnly? then GitMutationPlanReady else VerifyOnlySuccess
    ensures FlagsTell(p.record, []) && SameEvidence(p.record, record)
  {
    if mode.RunVerifyOnly? {
      return Stops(record, Accepted, VerifyOnlySuccess);
    }
    PlanBlockMeans(order, repo, world);
    PushBlockerMeans(world, order);
    var after, blocked := PlanGitMutation(record, order, changed, repo, world);
    if blocked != None {
      return Stops(after, Blocked, blocked.value);
    }
    p := Stops(after, Accepted, GitMutationPlanReady);
  }

  /** Phase 5 with a mutation. */
  method Mutate(record: Record, options: Options, order: WorkOrder, mode: EffectiveMode, changed: seq<string>,
                head: string, repo: RepoState, world: World)
    returns (p: Progress, ops: seq<GitOp>)
    requires mode.RunCommitOnly? || mode.RunCommitAndPush?
    requires Untouched(record) && head != ""
    ensures AsAsked(mode, changed, head, repo, options, order) ==>
              && Follows(p, MutationEnd(repo, options, world, order)) && ops == MutationOps(repo, options, world, order)
              && (!p.Raises? ==> p.record.push == LastPush(repo, options, world, order))
    ensures InOrder(ops) && (ops != [] ==> GuardedOps(ops, order, mode, changed, head, repo, world))
    ensures p.Stops? ==> !p.outcome.Accepted?
    ensures p.Goes? ==> Mutated(mode, ops)
    ensures !p.Raises? ==> !Promising(p.record.plan) && FlagsTell(p.record, ops)
    ensures !p.Raises? ==> SameEvidence(p.record, record) && ListsTell(p.record, world)
    ensures !p.Raises? ==> p.record.plan == NO_PLAN && p.record.mutationMode == MutationModeOf(mode)
    ensures p.Stops? ==> !p.reason.GitMutationPlanReady?
  {
    p, ops := PerformGitMutation(record, options, order, mode, changed, head, repo, world);
  }

  lemma ExpectedHeadIsSet(options: Options, order: WorkOrder)
    requires ValidOrder(order)
    ensures ExpectedHead(options, order) != ""
  {
  }

  lemma GatedOrder(options: Options, world: World)
    requires GatesPassed(options, world)
    ensures ExpectedHead(options, world.load.order) != ""
    ensures world.load.order.commitMessage != ""
  {
    ExpectedHeadIsSet(options, world.load.order);
  }

  /** A run's last record, whatever phase it came from: it accepts only what the gates and git allow. */
  ghost predicate Concluded(record: Record, outcome: Outcome, reason: Reason, ops: seq<GitOp>, options: Options,
                            world: World)
  {
    && SoundPlan(record.plan) && PlanTells(record, reason) && FlagsTell(record, ops)
    && (record.fastPathUsed ==> ops == [])
    && (outcome.Accepted? ==>
          && GatesPassed(options, world) && SameEvidence(record, GatedRecord(options, world))
          && record.mutationMode == MutationModeOf(GatedMode(options, world)) && ListsTell(record, world)
          && AcceptedReason(reason, GatedMode(options, world), ops)
          && record.commands == GatedCommands(options, world))
    && (Promising(record.plan) <==>
          && outcome.Accepted? && reason.GitMutationPlanReady?
          && GatesPassed(options, world) && GatedState(options, world).ChangedFiles() != [])
    && (Promising(record.plan) ==>
          PromiseKept(record, world.load.order, GatedState(options, world).ChangedFiles(), GatedState(options, world),
                      world.remoteKind))
  }

  predicate AcceptedReason(reason: Reason, mode: EffectiveMode, ops: seq<GitOp>) {
    match mode
    case RunVerifyOnly => reason.VerifyOnlySuccess? && ops == []
    case RunPlanOnly => reason.GitMutationPlanReady? && ops == []
    case RunCommitOnly => reason.CommitOnlySuccess? && Mutated(mode, ops)
    case RunCommitAndPush => reason.CommitAndPushSuccess? && Mutated(mode, ops)
  }

  /** A run up to its finish. */
  method RunPhases(options: Options, world: World) returns (p: Progress, ops: seq<GitOp>)
    ensures ops == RunOps(options, world)
    ensures RunEnd(options, world) == None ==> world.load.Parsed?
    ensures Ends(p, RunEnd(options, world),
                 if world.load.Parsed? then SuccessReason(options, world.load.order) else VerifyOnlySuccess)
    ensures Guarded(ops, options, world)
    ensures !p.Goes?
    ensures p.Stops? ==> Concluded(p.record, p.outcome, p.reason, ops, options, world)
    ensures p.Stops? ==>
              EvidenceOf(p.record) == RunEvidence(options, world) && p.record.push == RunPush(options, world)
  {
    ops := [];
    var mode;
    p, mode := PassGates(options, world);
    if !p.Goes? {
      return;
    }
    GatedOrder(options, world);
    var order := world.load.order;
    var judged := JudgedState(TakesFastPath(options, mode, order, world),
                              VerificationPlanOf(options.verificationOverride).full, world);
    p, ops := Conclude(p.record, order, mode, ExpectedHead(options, order), judged.value, options, world);
  }

  /** Phase 5, for a run that passed its gates. */
  method Conclude(record: Record, order: WorkOrder, mode: EffectiveMode, head: string, repo: RepoState,
                  options: Options, world: World)
    returns (p: Progress, ops: seq<GitOp>)
    requires GatesPassed(options, world)
    requires order == world.load.order && mode == GatedMode(options, world) && ModeFits(mode, options, order)
    requires head == ExpectedHead(options, order) != "" && repo == GatedState(options, world)
    requires record == GatedRecord(options, world)
    requires record.fastPathUsed ==> mode.RunVerifyOnly? || mode.RunPlanOnly?
    ensures Ends(p, LastEnd(repo, options, world, order), SuccessReason(options, order))
    ensures ops == if Pushes(options, order) || CommitsOnly(options, order)
                   then MutationOps(repo, options, world, order) else []
    ensures Guarded(ops, options, world)
    ensures !p.Goes?
    ensures p.Stops? ==> Concluded(p.record, p.outcome, p.reason, ops, options, world)
    ensures p.Stops? ==>
              EvidenceOf(p.record) == EvidenceOf(record) && p.record.push == LastPush(repo, options, world, order)
  {
    ops := [];
    if mode.RunVerifyOnly? || mode.RunPlanOnly? {
      p := ReportOrPlan(record, order, mode, record.changedFiles, repo, world);
      return;
    }
    p, ops := Mutate(record, options, order, mode, record.changedFiles, head, repo, world);
    if p.Goes? {
      p := Stops(p.record, Accepted, if mode.RunCommitOnly? then CommitOnlySuccess else CommitAndPushSuccess);
    }
  }

  /** The record ends with the outcome and reason of the first check that fails, or with success. */
  ghost predicate EndsAs(record: Record, options: Options, world: World) {
    match RunEnd(options, world)
    case None =>
      && world.load.Parsed? && record.outcome == Accepted
      && record.reason == SuccessReason(options, world.load.order)
    case Some(Exception) => false
    case Some(Early(outcome, reason)) => record.outcome == outcome && record.reason == reason
  }

  /** Both packets are derived from the record, whose changed files are those found at the end. */
  predicate PacketsFollow(result: RunResult, world: World)
    requires result.Finished? && world.atFinish.Some?
  {
    && result.record.changedFiles == world.atFinish.value.ChangedFiles()
    && result.review == BuildReview(result.record, result.record.reason)
    && result.finalization == BuildFinalization(result.record, result.review)
    && result.review.status == ReviewStatusFor(result.record, result.record.reason)
  }

  /** What an accepted run rests on: its gates, a record of them, and the git commands of its mode. */
  ghost predicate AcceptedRun(record: Record, ops: seq<GitOp>, options: Options, world: World) {
    && GatesPassed(options, world) && AcceptedReason(record.reason, GatedMode(options, world), ops)
    && record.commands == GatedCommands(options, world)
    && OpenedAtHead(record.opening, ExpectedHead(options, world.load.order), world.load.order)
    && record.policyResult == PolicyPassed && record.fullPytest == GatedSuite(options, world)
    && record.mutationMode == MutationModeOf(GatedMode(options, world)) && ListsTell(record, world)
  }

  predicate OpenedAtHead(opening: Opening, head: string, order: WorkOrder) {
    opening == Opening(head, head, head, "main", order.allowedFiles, order.forbiddenPaths, order.commitMessage)
  }

  /** The run was accepted as a plan with files to stage. */
  ghost predicate PlanStands(record: Record, options: Options, world: World) {
    && record.outcome.Accepted? && record.reason.GitMutationPlanReady?
    && GatesPassed(options, world) && GatedState(options, world).ChangedFiles() != []
  }

  /** What a ready packet carries: the judged files, the order's message, and where the run started. */
  ghost predicate ReadyRun(packet: Finalization, options: Options, world: World) {
    && GatesPassed(options, world)
    && packet.stageFiles == GatedState(options, world).ChangedFiles()
    && GatedState(options, world).StagedFiles() == []
    && packet.commitMessage == world.load.order.commitMessage
    && packet.wouldPush
    && (world.remoteKind.LocalPath? || (world.remoteKind.Network? && world.load.order.nonlocalPushAuthorized))
    && packet.baseline == ExpectedHead(options, world.load.order) && packet.branch == "main"
    && packet.originMain == ExpectedHead(options, world.load.order)
  }

  /** One run. Over every world:
      - it ends where the first of its checks fails, with that check's outcome and reason, and succeeds
        when all of them hold; git is asked for exactly the commands whose checks hold;
      - a push implies a successful commit before it, and a commit a successful staging;
      - git is asked to change anything only in a mutating mode, after every gate passed, with
        nothing pre-staged and HEAD and origin/main at the expected head;
      - the no-change fast path never reaches git;
      - an accepted run did exactly what its mode and reason say;
      - the finalization packet is ready exactly when the run was accepted as a git-mutation plan
        with files to stage, and then it carries exactly the judged files;
      - the packet's own later checks never fire. */
  method RunDevelopmentAutopilot(options: Options, world: World) returns (result: RunResult, ops: seq<GitOp>)
    ensures ops == RunOps(options, world) && Guarded(ops, options, world)
    ensures result.Finished? <==> RunEnd(options, world) != Some(Exception) && world.atFinish.Some?
    ensures result.Finished? ==>
              && EndsAs(result.record, options, world) && PacketsFollow(result, world)
              && EvidenceOf(result.record) == RunEvidence(options, world)
              && result.record.push == RunPush(options, world)
              && FlagsTell(result.record, ops) && (result.record.fastPathUsed ==> ops == [])
    ensures result.Finished? && result.record.outcome.Accepted? ==> AcceptedRun(result.record, ops, options, world)
    ensures result.Finished? ==> (result.finalization.Ready() <==> PlanStands(result.record, options, world))
    ensures result.Finished? && result.finalization.Ready() ==> ReadyRun(result.finalization, options, world)
    ensures result.Finished? ==> NoLateBlock(result.finalization.status)
  {
    var p;
    p, ops := RunPhases(options, world);
    match p {
      case Raises =>
        result := Raised;
      case Stops(record, outcome, reason) =>
        ConcludedFinish(record, outcome, reason, ops, options, world);
        FinishPackets(record, outcome, reason, world);
        result := Finish(record, outcome, reason, world);
    }
  }

  /** The checks the finalization packet makes after the review. */
  predicate NoLateBlock(status: FinalizationStatus) {
    && !status.FinalizationNoStageFiles? && !status.FinalizationEmptyMessage?
    && !status.FinalizationUnknownRemote? && !status.FinalizationNetworkPush?
  }

  lemma ConcludedFinish(record: Record, outcome: Outcome, reason: Reason, ops: seq<GitOp>, options: Options,
                        world: World)
    requires Concluded(record, outcome, reason, ops, options, world)
    ensures var result := Finish(record, outcome, reason, world);
            result.Finished? ==>
              && FlagsTell(result.record, ops) && SameEvidence(result.record, record)
              && result.record.git == record.git && result.record.mutationMode == record.mutationMode
              && result.record.push == record.push
              && result.record.outcome == outcome && result.record.reason == reason
              && (result.finalization.Ready() <==> Promising(record.plan))
              && (result.finalization.Ready() ==>
                    && result.finalization.stageFiles == record.plan.stageFiles
                    && result.finalization.commitMessage == record.opening.commitMessage
                    && result.finalization.wouldPush)
              && NoLateBlock(result.finalization.status)
  {
    if Promising(record.plan) {
      GatedOrder(options, world);
    }
    FinishReady(record, outcome, reason, world);
  }

  /** The packets of a finished run: both are derived from its last record, and name where it started. */
  lemma FinishPackets(record: Record, outcome: Outcome, reason: Reason, world: World)
    requires PlanTells(record, reason)
    ensures var result := Finish(record, outcome, reason, world);
            result.Finished? ==>
              && PacketsFollow(result, world)
              && (record.opening.expectedHead != "" ==>
                    && result.finalization.baseline == record.opening.expectedHead
                    && result.finalization.originMain
                       == FirstNonEmpty(record.opening.originMainBefore, record.opening.expectedHead)
                    && result.finalization.branch == FirstNonEmpty(record.opening.branch, "main"))
  {
    if world.atFinish.Some? {
      ReviewTells(record.(changedFiles := world.atFinish.value.ChangedFiles(), outcome := outcome, reason := reason),
                  reason);
    }
  }

  /** How finishing turns the record of a run into a ready packet, or not. */
  lemma FinishReady(record: Record, outcome: Outcome, reason: Reason, world: World)
    requires SoundPlan(record.plan)
    requires Promising(record.plan) ==>
               && record.opening.commitMessage != "" && record.mutationMode == PlanOnlyMutation
               && record.push.blocker == None && reason.GitMutationPlanReady?
    ensures var result := Finish(record, outcome, reason, world);
            result.Finished? ==>
              var packet := result.finalization;
              && result.record == record.(changedFiles := result.record.changedFiles, outcome := outcome,
                                          reason := reason)
              && (packet.Ready() <==> Promising(record.plan))
              && NoLateBlock(packet.status)
              && (packet.Ready() ==>
                    && packet.stageFiles == record.plan.stageFiles
                    && packet.commitMessage == record.opening.commitMessage
                    && packet.wouldPush && packet.push == record.plan.push)
  {
    match world.atFinish {
      case None =>
      case Some(repo) =>
        FinalizationFollowsPlan(record.(changedFiles := repo.ChangedFiles(), outcome := outcome, reason := reason),
                                reason);
    }
  }
}
