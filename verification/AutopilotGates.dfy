/**
 What a development-autopilot run must do, as lists of checks over its options and its world: where it
 ends, why, and what it asks of git.
 */
module AutopilotGates {
  import opened Wrappers
  import opened Gates
  import opened Sorting
  import opened PathPolicy
  import opened AutopilotRecords
  import opened AutopilotWorld

  /** How a run ends before its phases are through: by an exception, or early with a reason. */
  datatype End = Exception | Early(outcome: Outcome, reason: Reason)

  // ---------------------------------------------------------------- which mode a run is in

  /** The work order's word decides; without one, the command line's. */
  predicate Pushes(options: Options, order: WorkOrder) {
    order.gitMutationMode == Some(RequestCommitAndPush)
    || (order.gitMutationMode == None && options.gitMode == Some(CommitAndPush))
  }

  predicate CommitsOnly(options: Options, order: WorkOrder) {
    order.gitMutationMode == None && options.gitMode == Some(CommitOnly)
  }

  predicate PlansOnly(order: WorkOrder) {
    order.gitMutationMode == Some(RequestPlanOnly)
  }

  predicate Reports(options: Options, order: WorkOrder) {
    order.gitMutationMode == Some(RequestNone)
    || (order.gitMutationMode == None && options.gitMode == Some(VerifyOnly))
  }

  function AskedMode(options: Options, order: WorkOrder): MutationMode {
    if Pushes(options, order) then CommitAndPushMutation
    else if CommitsOnly(options, order) then CommitOnlyMutation
    else if PlansOnly(order) then PlanOnlyMutation else NoMutation
  }

  /** The effective mode is the one asked for. */
  lemma ModeMeans(options: Options, order: WorkOrder)
    requires options.gitMode.Some?
    ensures var mode := EffectiveModeOf(options.gitMode.value, order);
            && (mode.RunCommitAndPush? <==> Pushes(options, order))
            && (mode.RunCommitOnly? <==> CommitsOnly(options, order))
            && (mode.RunPlanOnly? <==> PlansOnly(order))
            && (mode.RunVerifyOnly? <==> Reports(options, order))
            && MutationModeOf(mode) == AskedMode(options, order)
  {
  }

  // ---------------------------------------------------------------- repository states

  /** An untracked review note. */
  predicate IsNote(e: StatusEntry) {
    e.code == "??" && "docs/reviews/" <= e.path
  }

  /** No entry has anything in the index: each is untracked, or starts with a space. */
  predicate NothingStaged(repo: RepoState) {
    forall e :: e in repo.entries ==> e.code == "??" || e.code == "" || e.code[0] == ' '
  }

  predicate OnlyNotes(repo: RepoState) {
    forall e :: e in repo.entries ==> IsNote(e)
  }

  predicate BothAt(repo: RepoState, head: string) {
    repo.head == head && repo.originMain == head
  }

  /** Paths are listed once for each entry kept, so a path is listed exactly when some kept entry has it. */
  lemma {:induction false} PathsOfMeans(entries: seq<StatusEntry>, keep: StatusEntry -> bool, path: string)
    ensures path in PathsOf(entries, keep) <==> exists e :: e in entries && keep(e) && e.path == path
  {
    if entries != [] {
      PathsOfMeans(entries[1..], keep, path);
      assert entries == [entries[0]] + entries[1..];
      if path in PathsOf(entries[1..], keep) {
        var e :| e in entries[1..] && keep(e) && e.path == path;
        assert e in entries;
      }
      if keep(entries[0]) && entries[0].path == path {
        assert entries[0] in entries;
      }
    }
  }

  /** The changed files are the paths of the entries that are no notes. */
  lemma ChangedMeans(repo: RepoState, path: string)
    ensures path in repo.ChangedFiles() <==> exists e :: e in repo.entries && !IsNote(e) && e.path == path
  {
    var keep := (e: StatusEntry) => !IsReviewResidue(e);
    PathsOfMeans(repo.entries, keep, path);
    SortStringsIsSort(PathsOf(repo.entries, keep));
    SameMultisetSameMembers(repo.ChangedFiles(), PathsOf(repo.entries, keep));
  }

  lemma NothingChangedMeans(repo: RepoState)
    ensures repo.ChangedFiles() == [] <==> OnlyNotes(repo)
  {
    if repo.ChangedFiles() != [] {
      ChangedMeans(repo, repo.ChangedFiles()[0]);
    }
    if !OnlyNotes(repo) {
      var e :| e in repo.entries && !IsNote(e);
      ChangedMeans(repo, e.path);
    }
  }

  lemma NothingStagedMeans(repo: RepoState)
    ensures repo.StagedFiles() == [] <==> NothingStaged(repo)
  {
    var keep := (e: StatusEntry) => IsStaged(e);
    if repo.StagedFiles() != [] {
      PathsOfMeans(repo.entries, keep, repo.StagedFiles()[0]);
    }
    if !NothingStaged(repo) {
      var e :| e in repo.entries && e.code != "??" && e.code != "" && e.code[0] != ' ';
      PathsOfMeans(repo.entries, keep, e.path);
    }
  }

  // ---------------------------------------------------------------- before dispatch

  ghost function OptionsEnd(options: Options): Option<End> {
    Require(1 <= options.commandTimeoutSeconds <= 7200, Early(Blocked, InvalidTimeout),
    Require(options.fullPytestPolicy.Some?, Early(Blocked, InvalidFullPytestPolicy),
    Require(options.gitMode.Some?, Early(Blocked, InvalidGitMode), None)))
  }

  ghost function LoadEnd(world: World): Option<End> {
    match world.load
    case NoWorkOrder => Some(Early(Blocked, MissingWorkOrder))
    case SeveralWorkOrders => Some(Early(Blocked, MultipleWorkOrders))
    case Invalid(hardGate) => Some(Early(if hardGate then Rejected else Blocked, WorkOrderRejected(hardGate)))
    case Parsed(order) =>
      Require(!PathCheckRaises(order), Exception,
      Require(ValidOrder(order), Early(Blocked, WorkOrderRejected(false)), None))
  }

  /** What the repository must look like: on `main`, with nothing staged, and with nothing but notes lying
      around unless the run only plans. */
  ghost function RepositoryEnd(repo: RepoState, order: WorkOrder): Option<End> {
    Require(repo.branch == "main", Early(Blocked, UnexpectedBranch),
    Require(NothingStaged(repo), Early(Blocked, StagedBeforeDispatch),
    Require(PlansOnly(order) || forall e :: e in repo.entries ==> e.code == "??",
            Early(Blocked, TrackedChangesBeforeDispatch),
    Require(PlansOnly(order) || OnlyNotes(repo), Early(Blocked, UntrackedFilesBeforeDispatch), None))))
  }

  /** The permissions of the work order. To push it must permit commits as well; to plan, both. */
  ghost function PermissionEnd(options: Options, order: WorkOrder): Option<End> {
    var allowed := order.gitModesAllowed;
    Require(CommitsOnly(options, order) ==> CommitOnly in allowed, Early(Rejected, GitModeNotAllowed),
    Require(PlansOnly(order) ==> CommitOnly in allowed && CommitAndPush in allowed, Early(Rejected, GitModeNotAllowed),
    Require(Pushes(options, order) ==> CommitAndPush in allowed, Early(Rejected, GitModeNotAllowed),
    Require(Pushes(options, order) ==> CommitOnly in allowed, Early(Rejected, CommitOnlyPermissionRequired), None))))
  }

  ghost function EnvironmentEnd(world: World): Option<End> {
    Require(world.environment != PaperProfile, Early(Blocked, ProfileIsPaper),
    Require(world.environment != CredentialsLoaded, Early(Blocked, CredentialEnvironmentLoaded), None))
  }

  ghost function DispatchEnd(options: Options, world: World): Option<End> {
    Then(OptionsEnd(options),
         match world.before
         case None => Some(Exception)
         case Some(repo) =>
           Then(Require(options.expectedHead == "" || BothAt(repo, options.expectedHead),
                         Early(Blocked, BaselineMismatch), LoadEnd(world)),
                if !world.load.Parsed? then None
                else
                  var order := world.load.order;
                  Require(BothAt(repo, ExpectedHead(options, order)), Early(Blocked, ExpectedHeadMismatch),
                          Then(RepositoryEnd(repo, order),
                               Then(PermissionEnd(options, order), EnvironmentEnd(world))))))
  }

  // ---------------------------------------------------------------- agent, verification and policy

  /** Where the file policy ends a run that left these changes behind: a forbidden path is worse than one
      outside the allowlist. */
  ghost function PolicyEnd(repo: RepoState, order: WorkOrder): Option<End> {
    var changed := repo.ChangedFiles();
    Require(forall path :: path in changed ==> !Forbidden(path, order.forbiddenPaths),
            Early(Rejected, ForbiddenPathChanged),
    Require(forall path :: path in changed ==> Allowlisted(path, order.allowedFiles),
            Early(Rejected, PathNotAllowedChanged), None))
  }

  /** The agent, which a run that only plans does without. */
  ghost function AgentEnd(world: World, order: WorkOrder): Option<End> {
    if PlansOnly(order) then None
    else
      Require(world.routeAvailable, Early(Blocked, BuilderRouteUnavailable),
              match world.afterAgent
              case None => Some(Exception)
              case Some(repo) =>
                Require(!world.agent.TimedOut?, Early(Failed, AgentTimeout),
                Require(world.agent == Exited(0), Early(Failed, AgentExecutionFailed), PolicyEnd(repo, order))))
  }

  /** One stage: a command that times out is reported before one that fails, in whatever order they come. */
  function StageEnd(stage: Stage, commands: seq<Command>, late: Reason, run: (Stage, nat) -> Ran): Option<End> {
    Require(forall i: nat :: i < |commands| ==> !run(stage, i).TimedOut?, Early(RepairRequired, late),
    Require(forall i: nat :: i < |commands| ==> run(stage, i) == Exited(0), Early(RepairRequired, VerificationFailed),
            None))
  }

  ghost function JudgeEnd(repo: Option<RepoState>, order: WorkOrder): Option<End> {
    match repo
    case None => Some(Exception)
    case Some(state) => PolicyEnd(state, order)
  }

  /** The two stages every order shares. */
  function RepositoryStagesEnd(plan: VerificationPlan, run: (Stage, nat) -> Ran): Option<End> {
    Then(StageEnd(SafetyGuard, plan.safetyGuards, SafetyGuardTimeout, run),
         StageEnd(VerifyOffline, OptionalCommand(plan.offline), VerifyOfflineTimeout, run))
  }

  function StagesEnd(order: WorkOrder, plan: VerificationPlan, run: (Stage, nat) -> Ran): Option<End> {
    Then(StageEnd(WorkOrderVerification, order.requiredVerification, VerificationCommandTimeout, run),
         RepositoryStagesEnd(plan, run))
  }

  ghost function VerificationEnd(options: Options, world: World, order: WorkOrder): Option<End> {
    Then(StagesEnd(order, VerificationPlanOf(options.verificationOverride), world.run),
         JudgeEnd(world.afterVerification, order))
  }

  /** The full suite is skipped when the run changes nothing in git, was asked to skip, had something to
      run in every other stage, and left nothing but notes behind. */
  ghost predicate SkipsFullSuite(options: Options, order: WorkOrder, repo: RepoState) {
    var plan := VerificationPlanOf(options.verificationOverride);
    && options.fullPytestPolicy == Some(ChangedFilesOnly) && (Reports(options, order) || PlansOnly(order))
    && order.allowNoChangeFastPath
    && order.requiredVerification != [] && plan.safetyGuards != [] && plan.offline.Some? && plan.full.Some?
    && OnlyNotes(repo)
  }

  ghost function FullSuiteEnd(options: Options, world: World, order: WorkOrder): Option<End>
    requires world.afterVerification.Some?
  {
    var full := VerificationPlanOf(options.verificationOverride).full;
    if full == None || SkipsFullSuite(options, order, world.afterVerification.value) then None
    else
      Then(StageEnd(FullPytestStage, [full.value], FullPytestTimeout, world.run),
           JudgeEnd(world.afterFullPytest, order))
  }

  // ---------------------------------------------------------------- what a run records of its verification

  function ResultsOf(stage: Stage, commands: seq<Command>, run: (Stage, nat) -> Ran): (r: seq<CommandResult>)
    ensures |r| == |commands|
  {
    seq(|commands|, i requires 0 <= i < |commands| => CommandResult(stage, commands[i], run(stage, i)))
  }

  /** The results up to the first timeout, after which a stage runs nothing more. */
  function UpToTimeout(results: seq<CommandResult>): seq<CommandResult> {
    if results == [] then []
    else [results[0]] + if results[0].ran.TimedOut? then [] else UpToTimeout(results[1..])
  }

  lemma {:induction false} TimeoutAt(results: seq<CommandResult>, k: nat)
    requires k <= |results| && forall i :: 0 <= i < k ==> !results[i].ran.TimedOut?
    ensures k == |results| ==> UpToTimeout(results) == results
    ensures k < |results| && results[k].ran.TimedOut? ==> UpToTimeout(results) == results[..k + 1]
  {
    if k > 0 {
      TimeoutAt(results[1..], k - 1);
      if k < |results| {
        assert results[..k + 1] == [results[0]] + results[1..][..k];
      }
    } else if results != [] {
      assert results[..1] == [results[0]];
    }
  }

  function StageResults(stage: Stage, commands: seq<Command>, run: (Stage, nat) -> Ran): seq<CommandResult> {
    UpToTimeout(ResultsOf(stage, commands, run))
  }

  lemma PassedIsWhole(stage: Stage, commands: seq<Command>, run: (Stage, nat) -> Ran)
    requires forall i: nat :: i < |commands| ==> run(stage, i) == Exited(0)
    ensures StageResults(stage, commands, run) == ResultsOf(stage, commands, run)
  {
    TimeoutAt(ResultsOf(stage, commands, run), |commands|);
  }

  /** A stage records the results of its commands in order, all of them unless the last one recorded timed out,
      and no other one did. */
  lemma {:induction false} UpToTimeoutMeans(results: seq<CommandResult>)
    ensures var r := UpToTimeout(results);
            && r <= results && (|r| < |results| ==> r != [] && r[|r| - 1].ran.TimedOut?)
            && forall i :: 0 <= i < |r| - 1 ==> !r[i].ran.TimedOut?
  {
    if results != [] && !results[0].ran.TimedOut? {
      UpToTimeoutMeans(results[1..]);
    }
  }

  /** What the stages before the full suite record: each only when the one before it passed. */
  function RepositoryResults(plan: VerificationPlan, run: (Stage, nat) -> Ran): seq<CommandResult> {
    StageResults(SafetyGuard, plan.safetyGuards, run)
    + if StageEnd(SafetyGuard, plan.safetyGuards, SafetyGuardTimeout, run).Some? then []
      else StageResults(VerifyOffline, OptionalCommand(plan.offline), run)
  }

  function StagesResults(order: WorkOrder, plan: VerificationPlan, run: (Stage, nat) -> Ran): seq<CommandResult> {
    StageResults(WorkOrderVerification, order.requiredVerification, run)
    + if StageEnd(WorkOrderVerification, order.requiredVerification, VerificationCommandTimeout, run).Some? then []
      else RepositoryResults(plan, run)
  }

  predicate EndsLate(end: Option<End>) {
    end.Some? && end.value.Early? && IsTimeout(end.value.reason)
  }

  /** What the record says of the file policy. */
  function PolicyAfter(end: Option<End>, before: PolicyResult): PolicyResult {
    if end.Some? && end.value.Early? && IsPolicyReason(end.value.reason) then PolicyFailed else before
  }

  function SuiteStatus(run: (Stage, nat) -> Ran): FullPytest {
    match run(FullPytestStage, 0)
    case TimedOut => PytestTimeout
    case Exited(code) => if code == 0 then PytestPassed else PytestFailed
  }

  ghost function SuiteEvidence(base: Evidence, options: Options, world: World, order: WorkOrder): Evidence
    requires world.afterVerification.Some?
  {
    var full := VerificationPlanOf(options.verificationOverride).full;
    var end := FullSuiteEnd(options, world, order);
    if full == None then base.(full := NotConfigured, policy := PolicyPassed)
    else if SkipsFullSuite(options, order, world.afterVerification.value) then
      base.(full := Skipped, policy := PolicyPassed, fast := true)
    else
      base.(commands := base.commands + StageResults(FullPytestStage, [full.value], world.run),
            timeout := EndsLate(end), full := SuiteStatus(world.run), policy := PolicyAfter(end, PolicyPassed))
  }

  ghost function VerificationEvidence(base: Evidence, options: Options, world: World, order: WorkOrder): Evidence {
    var before := if PlansOnly(order) then NotChecked else PolicyPassed;
    var staged := base.(commands := StagesResults(order, VerificationPlanOf(options.verificationOverride), world.run));
    var end := VerificationEnd(options, world, order);
    if end.Some? || world.afterVerification == None then
      staged.(timeout := EndsLate(end), policy := PolicyAfter(end, before))
    else SuiteEvidence(staged, options, world, order)
  }

  function OpeningFor(options: Options, order: WorkOrder, repo: RepoState): Opening {
    Opening(ExpectedHead(options, order), repo.head, repo.originMain, repo.branch, order.allowedFiles,
            order.forbiddenPaths, order.commitMessage)
  }

  /** What a run has found out by the time it may dispatch: nothing without options, the repository alone without
      a work order, and else what the order asks. */
  ghost function DispatchEvidence(options: Options, world: World): Evidence {
    if OptionsEnd(options).Some? || world.before == None then
      NoEvidence(Opening(options.expectedHead, "", "", "", [], [], ""), NoMutation)
    else
      var repo := world.before.value;
      if || (options.expectedHead != "" && !BothAt(repo, options.expectedHead))
         || LoadEnd(world).Some? || !world.load.Parsed? then
        NoEvidence(Opening(options.expectedHead, repo.head, repo.originMain, repo.branch, [], [], ""), NoMutation)
      else NoEvidence(OpeningFor(options, world.load.order, repo), AskedMode(options, world.load.order))
  }

  /** What a run leaves behind of its opening and its verification, whatever becomes of it. */
  ghost function RunEvidence(options: Options, world: World): Evidence {
    var start := DispatchEvidence(options, world);
    if DispatchEnd(options, world).Some? || !world.load.Parsed? then start
    else if AgentEnd(world, world.load.order).Some? then
      start.(policy := PolicyAfter(AgentEnd(world, world.load.order), NotChecked))
    else VerificationEvidence(start, options, world, world.load.order)
  }

  /** Every check between the start of a run and its report, plan or mutation. */
  ghost function GatesEnd(options: Options, world: World): Option<End> {
    Then(DispatchEnd(options, world),
         if !world.load.Parsed? then None
         else
           var order := world.load.order;
           Then(AgentEnd(world, order),
                Then(VerificationEnd(options, world, order),
                     if world.afterVerification == None then None else FullSuiteEnd(options, world, order))))
  }

  // ---------------------------------------------------------------- report, plan or mutation

  /** The state the last policy check looked at. */
  ghost function LastState(options: Options, world: World, order: WorkOrder): Option<RepoState> {
    if || world.afterVerification == None || VerificationPlanOf(options.verificationOverride).full == None
       || SkipsFullSuite(options, order, world.afterVerification.value)
    then world.afterVerification else world.afterFullPytest
  }

  /** A push needs a remote that is known, and a permission unless it is local. */
  ghost function RemoteEnd(world: World, order: WorkOrder): Option<End> {
    Require(world.remoteKind != Network || order.nonlocalPushAuthorized, Early(Blocked, NetworkPushNotAuthorized),
    Require(world.remoteKind != Unknown, Early(Blocked, PushRemoteUnknown), None))
  }

  ghost function PlanEnd(repo: RepoState, world: World, order: WorkOrder): Option<End> {
    if OnlyNotes(repo) then None
    else Require(NothingStaged(repo), Early(Blocked, ChangedFilesNotAllowlisted), RemoteEnd(world, order))
  }

  /** The checks before git is asked for anything. */
  ghost function BeforeAdd(repo: RepoState, options: Options, world: World, order: WorkOrder): Option<End> {
    Require(!OnlyNotes(repo), Early(Blocked, NoChangedFilesToCommit),
    Require(NothingStaged(repo), Early(Blocked, StagedBeforeMutation),
    Require(BothAt(repo, ExpectedHead(options, order)), Early(Blocked, BaselineMismatchBeforeMutation),
            if Pushes(options, order) then RemoteEnd(world, order) else None)))
  }

  /** `git add` and `git commit`, each followed by a look at what it did. */
  ghost function AddEnd(world: World): Option<End> {
    Require(world.addExit == 0, Early(Blocked, GitAddFailed), Require(world.stagedList.Some?, Exception, None))
  }

  ghost function CommitEnd(world: World): Option<End> {
    Require(world.commitExit == 0, Early(Blocked, GitCommitFailed), Require(world.committedList.Some?, Exception, None))
  }

  /** Before the push origin/main is asked for once more. */
  ghost function OriginEnd(head: string, world: World): Option<End> {
    Require(world.originBeforePush.Some?, Exception,
    Require(world.originBeforePush == Some(head), Early(Blocked, OriginMainChangedBeforePush),
    Require(world.branchBeforePush.Some?, Exception, None)))
  }

  ghost function PushEnd(head: string, world: World): Option<End> {
    Then(OriginEnd(head, world), Require(world.pushExit == 0, Early(Blocked, GitPushFailed), None))
  }

  ghost function GitEnd(pushes: bool, head: string, world: World): Option<End> {
    Then(AddEnd(world), Then(CommitEnd(world), if pushes then PushEnd(head, world) else None))
  }

  /** What git is asked for: each command exactly when everything before it went well. */
  ghost function GitOps(pushes: bool, changed: seq<string>, message: string, head: string, world: World): seq<GitOp> {
    [Add(changed, world.addExit)]
    + (if AddEnd(world) == None then [Commit(message, world.commitExit)] else [])
    + (if && AddEnd(world) == None && CommitEnd(world) == None
          && pushes && OriginEnd(head, world) == None
       then [Push("origin", world.branchBeforePush.value, world.pushExit)] else [])
  }

  ghost function MutationEnd(repo: RepoState, options: Options, world: World, order: WorkOrder): Option<End> {
    Then(BeforeAdd(repo, options, world, order),
         GitEnd(Pushes(options, order), ExpectedHead(options, order), world))
  }

  ghost function MutationOps(repo: RepoState, options: Options, world: World, order: WorkOrder): seq<GitOp> {
    if BeforeAdd(repo, options, world, order).Some? then []
    else GitOps(Pushes(options, order), repo.ChangedFiles(), order.commitMessage, ExpectedHead(options, order), world)
  }

  /** How the last phase ends; None is success. */
  ghost function LastEnd(repo: RepoState, options: Options, world: World, order: WorkOrder): Option<End> {
    if Reports(options, order) then None
    else if PlansOnly(order) then PlanEnd(repo, world, order)
    else MutationEnd(repo, options, world, order)
  }

  /** How a whole run ends, before it writes its packets; None is success. */
  ghost function RunEnd(options: Options, world: World): Option<End> {
    Then(GatesEnd(options, world),
         if !world.load.Parsed? then None
         else
           var order := world.load.order;
           match LastState(options, world, order)
           case None => None
           case Some(repo) => LastEnd(repo, options, world, order))
  }

  ghost function RunOps(options: Options, world: World): seq<GitOp> {
    if GatesEnd(options, world).Some? || !world.load.Parsed? then []
    else
      var order := world.load.order;
      match LastState(options, world, order)
      case None => []
      case Some(repo) =>
        if Pushes(options, order) || CommitsOnly(options, order) then MutationOps(repo, options, world, order) else []
  }

  /** What is recorded of the remote: a push to it is asked about when one is planned, or about to be made. */
  ghost function RemoteAsked(world: World, order: WorkOrder): PushAuthorization {
    PushAuthorization("origin", world.remoteKind, order.nonlocalPushAuthorized, world.remoteKind != LocalPath,
                      if world.remoteKind == Unknown then Some(RemoteUnknownBlocked)
                      else if world.remoteKind == Network && !order.nonlocalPushAuthorized then Some(NetworkPushBlocked)
                      else None)
  }

  ghost function LastPush(repo: RepoState, options: Options, world: World, order: WorkOrder): PushAuthorization {
    if || PlansOnly(order)
       || (Pushes(options, order) && !OnlyNotes(repo) && NothingStaged(repo)
           && BothAt(repo, ExpectedHead(options, order)))
    then RemoteAsked(world, order) else NO_PUSH
  }

  ghost function RunPush(options: Options, world: World): PushAuthorization {
    if GatesEnd(options, world).Some? || !world.load.Parsed? then NO_PUSH
    else
      match LastState(options, world, world.load.order)
      case None => NO_PUSH
      case Some(repo) => LastPush(repo, options, world, world.load.order)
  }

  /** The reason a successful run gives. */
  ghost function SuccessReason(options: Options, order: WorkOrder): Reason {
    if Reports(options, order) then VerifyOnlySuccess
    else if PlansOnly(order) then GitMutationPlanReady
    else if CommitsOnly(options, order) then CommitOnlySuccess
    else CommitAndPushSuccess
  }

  // ---------------------------------------------------------------- the decisions meet the lists

  /** A decision between going on and ending a run blocked, or rejected. */
  function EndOf(outcome: Outcome, reason: Option<Reason>): Option<End> {
    match reason
    case None => None
    case Some(r) => Some(Early(outcome, r))
  }

  lemma DispatchBlockMeans(repo: RepoState, order: WorkOrder)
    ensures EndOf(Blocked, if DispatchBlock(repo) != None && PlansOnly(order) then PlanOnlyDispatchBlock(repo)
                           else DispatchBlock(repo))
         == RepositoryEnd(repo, order)
  {
    NothingStagedMeans(repo);
  }

  lemma PermissionMeans(options: Options, order: WorkOrder)
    requires options.gitMode.Some?
    ensures EndOf(Rejected, PermissionError(EffectiveModeOf(options.gitMode.value, order), order))
         == PermissionEnd(options, order)
  {
  }

  lemma EnvironmentMeans(world: World)
    ensures EndOf(Blocked, EnvironmentBlock(world.environment)) == EnvironmentEnd(world)
  {
  }

  lemma PolicyMeans(repo: RepoState, order: WorkOrder)
    ensures var reason := ChangedFilePolicyReason(repo.ChangedFiles(), order.allowedFiles, order.forbiddenPaths);
            EndOf(Rejected, if reason.ChangesAllowed? then None else Some(PolicyStop(reason))) == PolicyEnd(repo, order)
  {
    PolicyReasonMeans(repo.ChangedFiles(), order.allowedFiles, order.forbiddenPaths);
  }

  lemma FastPathMeans(options: Options, order: WorkOrder, repo: RepoState)
    requires options.gitMode.Some? && options.fullPytestPolicy.Some?
    ensures UsesFastPath(options.fullPytestPolicy.value, EffectiveModeOf(options.gitMode.value, order), order,
                         VerificationPlanOf(options.verificationOverride), repo)
         <==> SkipsFullSuite(options, order, repo)
  {
    NothingChangedMeans(repo);
    NothingStagedMeans(repo);
  }

  /** What blocks a push. */
  lemma PushBlockerMeans(world: World, order: WorkOrder)
    ensures var push := Authorize(order, world.remoteKind);
            && (push.blocker == Some(NetworkPushBlocked) <==>
                  RemoteEnd(world, order) == Some(Early(Blocked, NetworkPushNotAuthorized)))
            && (push.blocker == Some(RemoteUnknownBlocked) <==>
                  RemoteEnd(world, order) == Some(Early(Blocked, PushRemoteUnknown)))
            && (push.blocker == None <==> RemoteEnd(world, order) == None)
            && push == RemoteAsked(world, order)
  {
  }

  /** An overriding list gives its last command to the full suite, the one before it to the offline check,
      and the rest to the safety guards; without one, every stage has a command. */
  lemma VerificationPlanMeans(override: Option<seq<Command>>)
    ensures var plan := VerificationPlanOf(override);
            match override
            case None =>
              && |plan.safetyGuards| == 1
              && "tests/unit/test_broker_mutation_surface_invariant.py" in plan.safetyGuards[0]
              && plan.offline.Some? && "scripts\\verify_offline.ps1" in plan.offline.value
              && plan.full == Some(["<python>", "-m", "pytest"])
            case Some(commands) =>
              && plan.safetyGuards + OptionalCommand(plan.offline) + OptionalCommand(plan.full) == commands
              && (plan.full.Some? <==> commands != []) && (plan.offline.Some? <==> |commands| >= 2)
  {
    if override.Some? {
      PlanCoversOverride(override.value);
    }
  }
}
