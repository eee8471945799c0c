/**
 What a development-autopilot run meets: its options, its work order, and the world of oracles (agent,
 git and verification commands) around it; and the decisions that are functions of these alone.
 */
module AutopilotWorld {
  import opened Wrappers
  import opened Text
  import opened PathPolicy
  import opened AutopilotRecords

  const MIN_COMMAND_TIMEOUT_SECONDS := 1
  const MAX_COMMAND_TIMEOUT_SECONDS := 7200

  datatype GitMode = VerifyOnly | CommitOnly | CommitAndPush

  datatype MutationRequest = RequestNone | RequestPlanOnly | RequestCommitAndPush

  datatype EffectiveMode = RunVerifyOnly | RunPlanOnly | RunCommitOnly | RunCommitAndPush

  datatype FullPytestPolicy = Always | ChangedFilesOnly

  /** None stands for a mode or policy outside the supported words. */
  datatype Options = Options(
    expectedHead: string,
    gitMode: Option<GitMode>,
    fullPytestPolicy: Option<FullPytestPolicy>,
    commandTimeoutSeconds: int,
    verificationOverride: Option<seq<Command>>)

  datatype WorkOrder = WorkOrder(
    expectedHead: string,
    allowedFiles: seq<string>,
    forbiddenPaths: seq<string>,
    requiredVerification: seq<Command>,
    gitModesAllowed: set<GitMode>,
    commitMessage: string,
    allowNoChangeFastPath: bool,
    nonlocalPushAuthorized: bool,
    gitMutationMode: Option<MutationRequest>)

  /** Finding and parsing the work order; `Invalid` covers the schema checks on what is not in a
      `WorkOrder`. */
  datatype Load = NoWorkOrder | SeveralWorkOrders | Invalid(hardGate: bool) | Parsed(order: WorkOrder)

  /** What the environment variables give away, if anything. */
  datatype Environment = CleanEnvironment | PaperProfile | CredentialsLoaded

  /** Everything outside the run, in the order the run meets it. A repository state of None, and a
      file list of None, stand for a git command that fails and raises. */
  datatype World = World(
    environment: Environment,
    before: Option<RepoState>,
    load: Load,
    routeAvailable: bool,
    agent: Ran,
    afterAgent: Option<RepoState>,
    run: (Stage, nat) -> Ran,
    afterVerification: Option<RepoState>,
    afterFullPytest: Option<RepoState>,
    remoteKind: RemoteKind,
    addExit: int,
    stagedList: Option<seq<string>>,
    commitExit: int,
    committedList: Option<seq<string>>,
    originBeforePush: Option<string>,
    branchBeforePush: Option<string>,
    pushExit: int,
    atFinish: Option<RepoState>)

  /** The mutating git commands the run issues, with their exit codes. */
  datatype GitOp =
    | Add(files: seq<string>, exit: int)
    | Commit(message: string, exit: int)
    | Push(remote: string, branch: string, exit: int)

  // ---------------------------------------------------------------- pure parts

  function EffectiveModeOf(cli: GitMode, order: WorkOrder): EffectiveMode {
    match order.gitMutationMode
    case None => (match cli case VerifyOnly => RunVerifyOnly case CommitOnly => RunCommitOnly
                  case CommitAndPush => RunCommitAndPush)
    case Some(RequestNone) => RunVerifyOnly
    case Some(RequestPlanOnly) => RunPlanOnly
    case Some(RequestCommitAndPush) => RunCommitAndPush
  }

  function MutationModeOf(mode: EffectiveMode): MutationMode {
    match mode
    case RunVerifyOnly => NoMutation
    case RunPlanOnly => PlanOnlyMutation
    case RunCommitOnly => CommitOnlyMutation
    case RunCommitAndPush => CommitAndPushMutation
  }

  function PermissionError(mode: EffectiveMode, order: WorkOrder): Option<Reason> {
    var allowed := order.gitModesAllowed;
    match mode
    case RunVerifyOnly => None
    case RunPlanOnly => if {CommitOnly, CommitAndPush} <= allowed then None else Some(GitModeNotAllowed)
    case RunCommitOnly => if CommitOnly in allowed then None else Some(GitModeNotAllowed)
    case RunCommitAndPush =>
      if CommitAndPush !in allowed then Some(GitModeNotAllowed)
      else if CommitOnly !in allowed then Some(CommitOnlyPermissionRequired)
      else None
  }

  function DispatchBlock(repo: RepoState): Option<Reason> {
    var unexpected := (e: StatusEntry) => !IsReviewResidue(e);
    if repo.branch != "main" then Some(UnexpectedBranch)
    else if exists e :: e in repo.entries && unexpected(e) && IsStaged(e) then Some(StagedBeforeDispatch)
    else if exists e :: e in repo.entries && unexpected(e) && e.code != "??" then Some(TrackedChangesBeforeDispatch)
    else if exists e :: e in repo.entries && unexpected(e) then Some(UntrackedFilesBeforeDispatch)
    else None
  }

  function PlanOnlyDispatchBlock(repo: RepoState): Option<Reason> {
    if repo.branch != "main" then Some(UnexpectedBranch)
    else if repo.StagedFiles() != [] then Some(StagedBeforeDispatch)
    else None
  }

  function EnvironmentBlock(environment: Environment): Option<Reason> {
    match environment
    case CleanEnvironment => None
    case PaperProfile => Some(ProfileIsPaper)
    case CredentialsLoaded => Some(CredentialEnvironmentLoaded)
  }

  datatype VerificationPlan = VerificationPlan(safetyGuards: seq<Command>, offline: Option<Command>,
                                               full: Option<Command>)

  const DEFAULT_SAFETY_GUARD: Command :=
    ["<python>", "-m", "pytest", "tests/unit/test_dependency_direction.py",
     "tests/unit/test_broker_mutation_surface_invariant.py", "tests/unit/test_default_pytest_network_guard.py", "-q"]
  const DEFAULT_OFFLINE: Command :=
    ["powershell", "-NoProfile", "-ExecutionPolicy", "Bypass", "-File", "scripts\\verify_offline.ps1"]
  const DEFAULT_FULL_PYTEST: Command := ["<python>", "-m", "pytest"]

  function VerificationPlanOf(override: Option<seq<Command>>): VerificationPlan {
    match override
    case None => VerificationPlan([DEFAULT_SAFETY_GUARD], Some(DEFAULT_OFFLINE), Some(DEFAULT_FULL_PYTEST))
    case Some(commands) =>
      var n := |commands|;
      if n == 0 then VerificationPlan([], None, None)
      else if n == 1 then VerificationPlan([], None, Some(commands[0]))
      else VerificationPlan(commands[..n - 2], Some(commands[n - 2]), Some(commands[n - 1]))
  }

  /** However the commands are overridden, the plan runs each of them once, in order. */
  lemma PlanCoversOverride(commands: seq<Command>)
    ensures var plan := VerificationPlanOf(Some(commands));
            plan.safetyGuards + OptionalCommand(plan.offline) + OptionalCommand(plan.full) == commands
  {
  }

  function OptionalCommand(c: Option<Command>): seq<Command> {
    match c
    case None => []
    case Some(command) => [command]
  }

  function Authorize(order: WorkOrder, kind: RemoteKind): PushAuthorization {
    var authorized := order.nonlocalPushAuthorized;
    match kind
    case LocalPath => PushAuthorization("origin", kind, authorized, false, None)
    case Network => PushAuthorization("origin", kind, authorized, true,
                                      if authorized then None else Some(NetworkPushBlocked))
    case Unknown => PushAuthorization("origin", kind, authorized, true, Some(RemoteUnknownBlocked))
  }

  function ExpectedHead(options: Options, order: WorkOrder): string {
    if options.expectedHead != "" then options.expectedHead else order.expectedHead
  }

  /** `_is_string_sequence`: no item is blank. */
  predicate NoBlanks(items: seq<string>) {
    forall item :: item in items ==> Strip(item) != ""
  }

  /** No command is empty or has a blank part. */
  predicate CommandsUsable(commands: seq<Command>) {
    forall c :: c in commands ==> c != [] && NoBlanks(c)
  }

  ghost predicate ValidOrder(order: WorkOrder) {
    && order.allowedFiles != [] && Validated(order.allowedFiles, order.forbiddenPaths)
    && CommandsUsable(order.requiredVerification)
    && Strip(order.commitMessage) != ""
    && Strip(order.expectedHead) != ""
    && VerifyOnly in order.gitModesAllowed
  }

  /** The path check of a work order is reached, and raises instead of returning. */
  ghost predicate PathCheckRaises(order: WorkOrder) {
    && order.allowedFiles != [] && NoBlanks(order.allowedFiles) && NoBlanks(order.forbiddenPaths)
    && FaultyWith(order.allowedFiles, order.forbiddenPaths, PathHasNoParts)
  }

  lemma ValidatedHasNoBlanks(allowedFiles: seq<string>, forbiddenPaths: seq<string>)
    requires Validated(allowedFiles, forbiddenPaths)
    ensures NoBlanks(allowedFiles) && NoBlanks(forbiddenPaths)
  {
    forall i | 0 <= i < |allowedFiles|
      ensures Strip(allowedFiles[i]) != ""
    {
      assert AllowedFileError(allowedFiles[i], NormalizeDirectories(forbiddenPaths)) == None;
    }
    forall i | 0 <= i < |forbiddenPaths|
      ensures Strip(forbiddenPaths[i]) != ""
    {
      assert RelativePathError(forbiddenPaths[i]) == None;
    }
  }

  function PolicyStop(reason: ChangedFileReason): Reason
    requires !reason.ChangesAllowed?
  {
    if reason.ChangedFileForbiddenPath? then ForbiddenPathChanged else PathNotAllowedChanged
  }

  predicate FastPathAllowed(policy: FullPytestPolicy, mode: EffectiveMode, order: WorkOrder) {
    policy.ChangedFilesOnly? && (mode.RunVerifyOnly? || mode.RunPlanOnly?) && order.allowNoChangeFastPath
  }

  /** The no-change fast path. Earlier phases already passed every configured stage, so only the
      stages that must not be empty are left to ask. */
  predicate UsesFastPath(policy: FullPytestPolicy, mode: EffectiveMode, order: WorkOrder, plan: VerificationPlan,
                         repo: RepoState)
  {
    && FastPathAllowed(policy, mode, order)
    && plan.full.Some?
    && order.requiredVerification != [] && plan.safetyGuards != [] && plan.offline.Some?
    && repo.ChangedFiles() == [] && repo.StagedFiles() == []
    && !exists e :: e in repo.entries && !IsReviewResidue(e) && IsForbidden(e.path, [])
  }
}
