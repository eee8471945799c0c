/**
 The record a development-autopilot run fills in, and the two packets derived from it when the run
 finishes: the review packet and the finalization packet.
 */
module AutopilotRecords {
  import opened Wrappers
  import opened Text
  import opened Sorting
  import opened PathPolicy
  import PowerShellQuoting

  type Command = seq<string>

  // ---------------------------------------------------------------- repository state

  datatype StatusEntry = StatusEntry(code: string, path: string)

  /** Untracked files under docs/reviews are expected and ignored. */
  predicate IsReviewResidue(e: StatusEntry) {
    e.code == "??" && StartsWith(e.path, "docs/reviews/")
  }

  predicate IsStaged(e: StatusEntry) {
    e.code != "??" && e.code != "" && e.code[0] != ' '
  }

  function PathsOf(entries: seq<StatusEntry>, keep: StatusEntry -> bool): seq<string> {
    if entries == [] then []
    else (if keep(entries[0]) then [entries[0].path] else []) + PathsOf(entries[1..], keep)
  }

  datatype RepoState = RepoState(branch: string, head: string, originMain: string, entries: seq<StatusEntry>)
  {
    function StagedFiles(): seq<string> {
      PathsOf(entries, (e: StatusEntry) => IsStaged(e))
    }

    function ChangedFiles(): seq<string> {
      SortStrings(PathsOf(entries, (e: StatusEntry) => !IsReviewResidue(e)))
    }

    predicate BaselineMatches(expectedHead: string) {
      head == expectedHead && originMain == expectedHead
    }
  }

  // ---------------------------------------------------------------- vocabulary

  datatype Stage = WorkOrderVerification | SafetyGuard | VerifyOffline | FullPytestStage

  datatype Ran = Exited(code: int) | TimedOut

  datatype CommandResult = CommandResult(stage: Stage, command: Command, ran: Ran)

  datatype Outcome = Accepted | Blocked | Rejected | Failed | RepairRequired

  datatype Reason =
    | InvalidTimeout | InvalidFullPytestPolicy | InvalidGitMode
    | BaselineMismatch | MissingWorkOrder | MultipleWorkOrders | WorkOrderRejected(hardGate: bool)
    | ExpectedHeadMismatch | UnexpectedBranch | StagedBeforeDispatch | TrackedChangesBeforeDispatch
    | UntrackedFilesBeforeDispatch | GitModeNotAllowed | CommitOnlyPermissionRequired
    | ProfileIsPaper | CredentialEnvironmentLoaded | BuilderRouteUnavailable
    | AgentTimeout | AgentExecutionFailed | ForbiddenPathChanged | PathNotAllowedChanged
    | VerificationCommandTimeout | SafetyGuardTimeout | VerifyOfflineTimeout | FullPytestTimeout | VerificationFailed
    | VerifyOnlySuccess | GitMutationPlanReady
    | ChangedFilesNotAllowlisted | NetworkPushNotAuthorized | PushRemoteUnknown
    | NoChangedFilesToCommit | StagedBeforeMutation | BaselineMismatchBeforeMutation
    | GitAddFailed | GitCommitFailed | OriginMainChangedBeforePush | GitPushFailed
    | CommitOnlySuccess | CommitAndPushSuccess

  datatype MutationMode = NoMutation | PlanOnlyMutation | CommitOnlyMutation | CommitAndPushMutation

  datatype RemoteKind = LocalPath | Network | Unknown

  datatype PushBlocker = NetworkPushBlocked | RemoteUnknownBlocked

  datatype PushAuthorization = PushAuthorization(
    remoteName: string, kind: RemoteKind, authorized: bool, required: bool, blocker: Option<PushBlocker>)

  datatype PlanStatus =
    | PlanNotApplicable | PlannedNoChanges | PlannedLocalPush | PlannedNetworkPushAuthorized
    | PlanBlockedVerificationFailed | PlanBlockedNotAllowlisted | PlanBlockedNetworkPush | PlanBlockedUnknownRemote

  datatype Plan = Plan(status: PlanStatus, stageFiles: seq<string>, wouldPush: bool, push: PushAuthorization)

  datatype PolicyResult = NotChecked | PolicyPassed | PolicyFailed

  datatype FullPytest = NotStarted | Skipped | NotConfigured | PytestTimeout | PytestFailed | PytestPassed

  /** What a run was opened with: what it was asked for, and the repository it found. */
  datatype Opening = Opening(
    expectedHead: string, startingHead: string, originMainBefore: string, branch: string,
    allowedFiles: seq<string>, forbiddenPaths: seq<string>, commitMessage: string)

  /** What a run was opened with, and how it was verified. */
  datatype Evidence = Evidence(
    opening: Opening, mode: MutationMode, commands: seq<CommandResult>, timeout: bool, full: FullPytest,
    policy: PolicyResult, fast: bool)

  /** What git has done for a run. */
  datatype GitRecord = GitRecord(
    stagingOccurred: bool, commitOccurred: bool, pushOccurred: bool, stagedFiles: seq<string>,
    committedFiles: seq<string>)

  datatype Record = Record(
    opening: Opening,
    changedFiles: seq<string>,
    policyResult: PolicyResult,
    commands: seq<CommandResult>,
    verificationTimeout: bool,
    fullPytest: FullPytest,
    fastPathUsed: bool,
    mutationMode: MutationMode,
    push: PushAuthorization,
    plan: Plan,
    git: GitRecord,
    outcome: Outcome,
    reason: Reason)

  function EvidenceOf(record: Record): Evidence {
    Evidence(record.opening, record.mutationMode, record.commands, record.verificationTimeout, record.fullPytest,
             record.policyResult, record.fastPathUsed)
  }

  function NoEvidence(opening: Opening, mode: MutationMode): Evidence {
    Evidence(opening, mode, [], false, NotStarted, NotChecked, false)
  }

  const NO_PUSH := PushAuthorization("", Unknown, false, false, None)
  const NO_PLAN := Plan(PlanNotApplicable, [], false, NO_PUSH)

  const NOTHING_DONE := GitRecord(false, false, false, [], [])

  function InitialRecord(expectedHead: string): Record {
    Record(Opening(expectedHead, "", "", "", [], [], ""), [], NotChecked, [], false, NotStarted, false, NoMutation,
           NO_PUSH, NO_PLAN, NOTHING_DONE, Blocked, MissingWorkOrder)
  }

  // ---------------------------------------------------------------- the review packet

  datatype ReviewStatus =
    | ReviewNotApplicable | ReadyForReview | ReviewNoChanges
    | ReviewBlockedVerification | ReviewBlockedNotAllowlisted | ReviewBlockedNetworkPush
    | ReviewBlockedUnknownRemote | ReviewBlockedSafety

  datatype HardGate = GateNetworkPush | GateRemoteUnknown | GateSafetyInvariant

  datatype Classification = RecommendAccepted | RecommendMinorNote | RecommendRepair | RecommendReject

  datatype VerificationStatus = StatusTimeout | StatusFailed | StatusOf(full: FullPytest)

  datatype Review = Review(
    status: ReviewStatus,
    required: bool,
    ready: bool,
    classification: Option<Classification>,
    verification: VerificationStatus,
    unexpectedFiles: seq<string>,
    stageFiles: seq<string>,
    commitMessage: string,
    push: PushAuthorization,
    wouldPush: bool,
    hardGate: Option<HardGate>)

  predicate IsVerificationReason(reason: Reason) {
    || reason.VerificationFailed? || reason.VerificationCommandTimeout? || reason.SafetyGuardTimeout?
    || reason.VerifyOfflineTimeout? || reason.FullPytestTimeout?
  }

  predicate IsTimeout(reason: Reason) {
    IsVerificationReason(reason) && !reason.VerificationFailed?
  }

  predicate IsPolicyReason(reason: Reason) {
    reason.ForbiddenPathChanged? || reason.PathNotAllowedChanged?
  }

  /** The safety flags of a record are never set, so they are not part of this model. */
  function HardGateReason(record: Record, reason: Reason): Option<HardGate> {
    match record.push.blocker
    case Some(NetworkPushBlocked) => Some(GateNetworkPush)
    case Some(RemoteUnknownBlocked) => Some(GateRemoteUnknown)
    case None =>
      if (reason.WorkOrderRejected? && reason.hardGate) || reason.ProfileIsPaper? || reason.CredentialEnvironmentLoaded?
      then Some(GateSafetyInvariant) else None
  }

  function ReviewStatusForPlan(plan: Plan, reason: Reason, hardGate: Option<HardGate>): ReviewStatus {
    if hardGate == Some(GateSafetyInvariant) then ReviewBlockedSafety
    else if plan.status.PlannedNoChanges? then ReviewNoChanges
    else if plan.status.PlannedLocalPush? || plan.status.PlannedNetworkPushAuthorized? then ReadyForReview
    else if plan.status.PlanBlockedVerificationFailed? || IsVerificationReason(reason) then ReviewBlockedVerification
    else if plan.status.PlanBlockedNotAllowlisted? || reason.PathNotAllowedChanged? || reason.ForbiddenPathChanged?
    then ReviewBlockedNotAllowlisted
    else if plan.status.PlanBlockedNetworkPush? then ReviewBlockedNetworkPush
    else if plan.status.PlanBlockedUnknownRemote? then ReviewBlockedUnknownRemote
    else ReviewBlockedSafety
  }

  function Recommended(status: ReviewStatus): Option<Classification> {
    match status
    case ReadyForReview => Some(RecommendAccepted)
    case ReviewNoChanges => Some(RecommendMinorNote)
    case ReviewBlockedVerification => Some(RecommendRepair)
    case ReviewBlockedNetworkPush => Some(RecommendRepair)
    case ReviewBlockedUnknownRemote => Some(RecommendRepair)
    case ReviewBlockedNotAllowlisted => Some(RecommendReject)
    case ReviewBlockedSafety => Some(RecommendReject)
    case ReviewNotApplicable => None
  }

  function ReviewVerification(record: Record, reason: Reason): VerificationStatus {
    if record.verificationTimeout then StatusTimeout
    else if IsVerificationReason(reason) then
      if reason.VerificationFailed? then StatusFailed else StatusTimeout
    else StatusOf(record.fullPytest)
  }

  function GateForStatus(status: ReviewStatus, fallback: Option<HardGate>): Option<HardGate> {
    match status
    case ReviewBlockedNetworkPush => Some(GateNetworkPush)
    case ReviewBlockedUnknownRemote => Some(GateRemoteUnknown)
    case ReviewBlockedSafety => Some(GateSafetyInvariant)
    case ReviewNotApplicable => fallback
    case _ => None
  }

  function BuildReview(record: Record, reason: Reason): Review {
    var unexpected := UnexpectedChangedFiles(record.changedFiles, record.opening.allowedFiles,
                                             record.opening.forbiddenPaths);
    var verification := ReviewVerification(record, reason);
    var hardGate := HardGateReason(record, reason);
    if record.mutationMode != PlanOnlyMutation then
      Review(ReviewNotApplicable, false, false, None, verification, unexpected, [], "", record.push, false, hardGate)
    else
      var status := ReviewStatusForPlan(record.plan, reason, hardGate);
      var ready := status.ReadyForReview?;
      Review(status, true, ready || status.ReviewNoChanges?, Recommended(status), verification, unexpected,
             if ready then record.plan.stageFiles else [],
             if ready then record.opening.commitMessage else "",
             record.plan.push,
             ready && record.plan.wouldPush,
             GateForStatus(status, hardGate))
  }

  /** What the plan of a run that ended with this reason is called; runs that do not plan have none. */
  function BlockedStatus(mode: MutationMode, reason: Reason): PlanStatus {
    if !mode.PlanOnlyMutation? then PlanNotApplicable
    else
      match reason
      case VerificationCommandTimeout | SafetyGuardTimeout | VerifyOfflineTimeout | FullPytestTimeout
         | VerificationFailed => PlanBlockedVerificationFailed
      case ForbiddenPathChanged | PathNotAllowedChanged | ChangedFilesNotAllowlisted => PlanBlockedNotAllowlisted
      case NetworkPushNotAuthorized => PlanBlockedNetworkPush
      case PushRemoteUnknown => PlanBlockedUnknownRemote
      case _ => PlanNotApplicable
  }

  /** The plan says why it came to nothing. */
  predicate PlanTells(record: Record, reason: Reason) {
    if reason.GitMutationPlanReady? then
      record.mutationMode.PlanOnlyMutation? && (Promising(record.plan) || record.plan.status.PlannedNoChanges?)
    else record.plan.status == BlockedStatus(record.mutationMode, reason)
  }

  /** The review of a run that plans, from the reason the run gave. */
  function ReviewStatusFor(record: Record, reason: Reason): ReviewStatus {
    if !record.mutationMode.PlanOnlyMutation? then ReviewNotApplicable
    else
      match reason
      case GitMutationPlanReady => if Promising(record.plan) then ReadyForReview else ReviewNoChanges
      case VerificationCommandTimeout | SafetyGuardTimeout | VerifyOfflineTimeout | FullPytestTimeout
         | VerificationFailed => ReviewBlockedVerification
      case ForbiddenPathChanged | PathNotAllowedChanged | ChangedFilesNotAllowlisted => ReviewBlockedNotAllowlisted
      case NetworkPushNotAuthorized => ReviewBlockedNetworkPush
      case PushRemoteUnknown => ReviewBlockedUnknownRemote
      case _ => ReviewBlockedSafety
  }

  lemma StatusTells(plan: Plan, reason: Reason, gate: Option<HardGate>)
    requires if reason.GitMutationPlanReady? then Promising(plan) || plan.status.PlannedNoChanges?
             else plan.status == BlockedStatus(PlanOnlyMutation, reason)
    requires gate == Some(GateSafetyInvariant) ==>
               reason.WorkOrderRejected? || reason.ProfileIsPaper? || reason.CredentialEnvironmentLoaded?
    ensures ReviewStatusForPlan(plan, reason, gate) ==
            match reason
            case GitMutationPlanReady => if Promising(plan) then ReadyForReview else ReviewNoChanges
            case VerificationCommandTimeout | SafetyGuardTimeout | VerifyOfflineTimeout | FullPytestTimeout
               | VerificationFailed => ReviewBlockedVerification
            case ForbiddenPathChanged | PathNotAllowedChanged | ChangedFilesNotAllowlisted =>
              ReviewBlockedNotAllowlisted
            case NetworkPushNotAuthorized => ReviewBlockedNetworkPush
            case PushRemoteUnknown => ReviewBlockedUnknownRemote
            case _ => ReviewBlockedSafety
  {
  }

  /** Where the plan has nothing to say, the reason alone decides. */
  lemma ReasonTells(plan: Plan, reason: Reason)
    requires plan.status.PlanNotApplicable?
    ensures var status := ReviewStatusForPlan(plan, reason, None);
            && (status.ReviewBlockedVerification? <==> reason.VerificationFailed? || IsTimeout(reason))
            && (status.ReviewBlockedNotAllowlisted? <==> IsPolicyReason(reason))
            && (status.ReviewBlockedSafety? <==> !IsVerificationReason(reason) && !IsPolicyReason(reason))
  {
  }

  /** The review follows the reason. */
  lemma ReviewTells(record: Record, reason: Reason)
    requires PlanTells(record, reason)
    ensures BuildReview(record, reason).status == ReviewStatusFor(record, reason)
  {
    if record.mutationMode.PlanOnlyMutation? {
      StatusTells(record.plan, reason, HardGateReason(record, reason));
    }
  }

  /** What the review recommends follows its status: acceptance only for changes that are ready, a note for
      none, a repair where the work can be mended, and rejection else; and so does the gate it raises. */
  lemma RecommendationTells(status: ReviewStatus, fallback: Option<HardGate>)
    ensures Recommended(status) == Some(RecommendAccepted) <==> status.ReadyForReview?
    ensures Recommended(status) == Some(RecommendMinorNote) <==> status.ReviewNoChanges?
    ensures Recommended(status) == Some(RecommendRepair) <==>
              || status.ReviewBlockedVerification? || status.ReviewBlockedNetworkPush?
              || status.ReviewBlockedUnknownRemote?
    ensures Recommended(status) == Some(RecommendReject) <==>
              status.ReviewBlockedNotAllowlisted? || status.ReviewBlockedSafety?
    ensures !status.ReviewNotApplicable? ==>
              && (GateForStatus(status, fallback) == Some(GateNetworkPush) <==> status.ReviewBlockedNetworkPush?)
              && (GateForStatus(status, fallback) == Some(GateRemoteUnknown) <==> status.ReviewBlockedUnknownRemote?)
              && (GateForStatus(status, fallback) == Some(GateSafetyInvariant) <==> status.ReviewBlockedSafety?)
  {
  }

  /** A review carries something to stage only when it is ready, and then what the plan says. */
  lemma ReviewCarries(record: Record, reason: Reason)
    requires record.mutationMode.PlanOnlyMutation?
    ensures var review := BuildReview(record, reason);
            && review.required && review.classification == Recommended(review.status)
            && (review.ready <==> review.status.ReadyForReview? || review.status.ReviewNoChanges?)
            && (review.status.ReadyForReview? ==>
                  && review.stageFiles == record.plan.stageFiles && review.commitMessage == record.opening.commitMessage
                  && review.wouldPush == record.plan.wouldPush && review.hardGate == None)
            && (!review.status.ReadyForReview? ==>
                  review.stageFiles == [] && review.commitMessage == "" && !review.wouldPush)
            && review.push == record.plan.push
  {
  }

  /** A run that does not plan has no review: nothing is asked for, recommended or carried, and the gate is the
      blocked push's, or that of a run stopped for safety. */
  lemma NoReview(record: Record, reason: Reason)
    requires !record.mutationMode.PlanOnlyMutation?
    ensures var review := BuildReview(record, reason);
            && review.status == ReviewNotApplicable && !review.required && !review.ready
            && review.classification == None && review.stageFiles == [] && review.commitMessage == ""
            && !review.wouldPush && review.push == record.push
            && (review.hardGate == Some(GateNetworkPush) <==> record.push.blocker == Some(NetworkPushBlocked))
            && (review.hardGate == Some(GateRemoteUnknown) <==> record.push.blocker == Some(RemoteUnknownBlocked))
            && (review.hardGate == Some(GateSafetyInvariant) <==>
                  && record.push.blocker == None
                  && (reason == WorkOrderRejected(true) || reason.ProfileIsPaper?
                      || reason.CredentialEnvironmentLoaded?))
  {
  }

  /** What the review says of verification: the first of a timeout, a failure, and what became of the suite. */
  lemma VerificationTells(record: Record, reason: Reason)
    ensures var verification := BuildReview(record, reason).verification;
            && (verification == StatusTimeout <==>
                  || record.verificationTimeout || reason.VerificationCommandTimeout? || reason.SafetyGuardTimeout?
                  || reason.VerifyOfflineTimeout? || reason.FullPytestTimeout?)
            && (verification == StatusFailed <==> !record.verificationTimeout && reason.VerificationFailed?)
            && (verification.StatusOf? ==> verification.full == record.fullPytest)
  {
  }

  /** The files the review calls unexpected: those forbidden or outside the allowlist, in normal form. */
  lemma UnexpectedTells(record: Record, reason: Reason, n: string)
    ensures n in BuildReview(record, reason).unexpectedFiles <==>
              exists path :: path in record.changedFiles && Normalize(path) == n
                && (Forbidden(path, record.opening.forbiddenPaths) || !Allowlisted(path, record.opening.allowedFiles))
  {
    var opening := record.opening;
    UnexpectedMembers(record.changedFiles, opening.allowedFiles, opening.forbiddenPaths, n);
    forall path | path in record.changedFiles
      ensures Unexpected(path, opening.allowedFiles, opening.forbiddenPaths) <==>
                Forbidden(path, opening.forbiddenPaths) || !Allowlisted(path, opening.allowedFiles)
    {
      UnexpectedMeans(path, opening.allowedFiles, opening.forbiddenPaths);
    }
  }

  // ---------------------------------------------------------------- the finalization packet

  datatype FinalizationStatus =
    | FinalizationNotApplicable | FinalizationReady | FinalizationNoChanges
    | FinalizationReviewNotReady
    | FinalizationNoStageFiles | FinalizationEmptyMessage
    | FinalizationBlockedSafety
    | FinalizationReviewNetworkPush | FinalizationReviewUnknownRemote
    | FinalizationNetworkPush | FinalizationUnknownRemote

  /** The parts of the generated script that carry data: its file array, `git add` arguments and
      commit message, as text. */
  datatype Script = Script(expectedFiles: string, addArguments: string, commitMessage: string)

  datatype Finalization = Finalization(
    status: FinalizationStatus,
    baseline: string,
    originMain: string,
    branch: string,
    stageFiles: seq<string>,
    commitMessage: string,
    wouldPush: bool,
    push: PushAuthorization,
    script: Option<Script>)
  {
    predicate Ready() { status.FinalizationReady? }
  }

  function FirstNonEmpty(a: string, b: string): string {
    if a != "" then a else b
  }

  /** The packet's checks in their order. The two statuses named after the network and the unknown
      remote occur twice in the source: once from the review, once from the checks after it; the
      second pair is kept apart here. */
  function FinalizationStatusOf(record: Record, review: Review): FinalizationStatus {
    if record.mutationMode != PlanOnlyMutation then FinalizationNotApplicable
    else if review.status.ReviewNoChanges? then FinalizationNoChanges
    else if review.status.ReviewBlockedNetworkPush? then FinalizationReviewNetworkPush
    else if review.status.ReviewBlockedUnknownRemote? then FinalizationReviewUnknownRemote
    else if review.status.ReviewBlockedSafety? then FinalizationBlockedSafety
    else if !review.status.ReadyForReview? then FinalizationReviewNotReady
    else if review.stageFiles == [] then FinalizationNoStageFiles
    else if review.commitMessage == "" then FinalizationEmptyMessage
    else if review.wouldPush && review.push.kind.Unknown? then FinalizationUnknownRemote
    else if review.wouldPush && review.push.kind.Network? && !review.push.authorized then FinalizationNetworkPush
    else FinalizationReady
  }

  function BuildFinalization(record: Record, review: Review): Finalization {
    var status := FinalizationStatusOf(record, review);
    var ready := status.FinalizationReady?;
    Finalization(
      status,
      FirstNonEmpty(record.opening.expectedHead, record.opening.startingHead),
      FirstNonEmpty(record.opening.originMainBefore, record.opening.expectedHead),
      FirstNonEmpty(record.opening.branch, "main"),
      if ready then review.stageFiles else [],
      if ready then review.commitMessage else "",
      ready && review.wouldPush,
      review.push,
      if ready
      then Some(Script(PowerShellQuoting.ArrayLiteral(review.stageFiles),
                       PowerShellQuoting.CommandArgs(review.stageFiles),
                       PowerShellQuoting.DoubleQuoted(review.commitMessage)))
      else None)
  }

  /** What the packet is called: of a review that is ready, by the first thing it lacks; of any other, by why it
      is not. */
  lemma FinalizationTells(record: Record, review: Review)
    requires record.mutationMode.PlanOnlyMutation?
    ensures FinalizationStatusOf(record, review) ==
            match review.status
            case ReadyForReview =>
              if review.stageFiles == [] then FinalizationNoStageFiles
              else if review.commitMessage == "" then FinalizationEmptyMessage
              else if !review.wouldPush || review.push.kind.LocalPath? then FinalizationReady
              else if review.push.kind.Unknown? then FinalizationUnknownRemote
              else if review.push.authorized then FinalizationReady
              else FinalizationNetworkPush
            case ReviewNoChanges => FinalizationNoChanges
            case ReviewBlockedNetworkPush => FinalizationReviewNetworkPush
            case ReviewBlockedUnknownRemote => FinalizationReviewUnknownRemote
            case ReviewBlockedSafety => FinalizationBlockedSafety
            case ReviewBlockedVerification | ReviewBlockedNotAllowlisted | ReviewNotApplicable =>
              FinalizationReviewNotReady
  {
  }

  /** A packet that is not ready carries nothing, and one of a run that does not plan is not applicable. */
  lemma FinalizationCarries(record: Record, review: Review)
    ensures var packet := BuildFinalization(record, review);
            && (packet.Ready() ==>
                  && packet.stageFiles == review.stageFiles && packet.commitMessage == review.commitMessage
                  && packet.wouldPush == review.wouldPush)
            && (!packet.Ready() ==>
                  packet.stageFiles == [] && packet.commitMessage == "" && !packet.wouldPush && packet.script == None)
            && (packet.status.FinalizationNotApplicable? <==> !record.mutationMode.PlanOnlyMutation?)
            && packet.push == review.push
  {
  }

  /** A plan that promises to stage and push files. */
  predicate Promising(plan: Plan) {
    plan.status.PlannedLocalPush? || plan.status.PlannedNetworkPushAuthorized?
  }

  /** What the planner guarantees: a promising plan stages something and may be pushed, and any other promises
      nothing. */
  predicate SoundPlan(plan: Plan) {
    if Promising(plan) then
      && plan.stageFiles != []
      && plan.wouldPush
      && plan.push.blocker == None
      && (plan.push.kind.LocalPath? || (plan.push.kind.Network? && plan.push.authorized))
    else plan.stageFiles == [] && !plan.wouldPush
  }

  /** On the record of a run, the packet is ready exactly when the plan is promising, and the packet's
      own checks after the review never fire. */
  lemma FinalizationFollowsPlan(record: Record, reason: Reason)
    requires SoundPlan(record.plan)
    requires Promising(record.plan) ==>
               && record.opening.commitMessage != "" && record.mutationMode == PlanOnlyMutation
               && HardGateReason(record, reason) != Some(GateSafetyInvariant)
    ensures var packet := BuildFinalization(record, BuildReview(record, reason));
            && (packet.Ready() <==> Promising(record.plan))
            && !packet.status.FinalizationNoStageFiles? && !packet.status.FinalizationEmptyMessage?
            && !packet.status.FinalizationUnknownRemote? && !packet.status.FinalizationNetworkPush?
            && (packet.Ready() ==>
                  && packet.stageFiles == record.plan.stageFiles
                  && packet.commitMessage == record.opening.commitMessage
                  && packet.wouldPush && packet.push == record.plan.push)
  {
  }

  /** The script of a ready packet carries the packet's files and message: the shell reads its file
      array, its `git add` arguments and its message back exactly when they hold no typographic quotes. */
  lemma ReadyScriptReadsBack(record: Record, reason: Reason)
    requires BuildFinalization(record, BuildReview(record, reason)).Ready()
    ensures var packet := BuildFinalization(record, BuildReview(record, reason));
            && packet.script.Some?
            && packet.stageFiles != []
            && (PowerShellQuoting.ReadArray(packet.script.value.expectedFiles) == Some(packet.stageFiles)
                <==> PowerShellQuoting.AllPlainDouble(packet.stageFiles))
            && (PowerShellQuoting.ReadArgs(packet.script.value.addArguments) == Some(packet.stageFiles)
                <==> PowerShellQuoting.AllPlainSingle(packet.stageFiles))
            && (PowerShellQuoting.ReadLiteral(packet.script.value.commitMessage) == Some(packet.commitMessage)
                <==> PowerShellQuoting.PlainDouble(packet.commitMessage))
  {
    var review := BuildReview(record, reason);
    PowerShellQuoting.ArrayReadsBackIff(review.stageFiles);
    PowerShellQuoting.ArgsReadBackIff(review.stageFiles);
    PowerShellQuoting.DoubleQuotedReadsBackIff(review.commitMessage);
  }
}
