/** The rules of the six workflow calls as a table: what is checked, in which order, and under which names what passes is
    recorded (core/durable_recovery_workflow.py). The service decides by these rules and by nothing else. */
module WorkflowRules {
  import opened Sequences
  import opened Text
  import opened DurableStore
  import opened Workflow

  predicate SameCandidate(s: Recovery, c: Candidate) {
    s.selected.Some? && s.selected.value.candidateId == c.candidateId && s.selected.value.contentSha256 == c.contentSha256
  }

  /** The checks of a call on a recovery that was found at the expected version, first to last. */
  ghost function ChecksOf(cmd: Command): seq<Code> {
    match cmd
    case Create(_, _, _, _) => []
    case Select(_, _) => [ForeignCandidate, StaleCandidate, CandidateExpired, IllegalCandidate, InvalidTransition]
    case RecordValidation(_, _, _, _) =>
      [CandidateVersionMismatch, CandidateExpired, InvalidTransition, IndependentValidationFailed,
       CertificateBindingInvalid, CertificateAssuranceInsufficient, CertificateSignatureInvalid]
    case RecordFeasibility(_, _, _, _, _) =>
      [CandidateVersionMismatch, CandidateExpired, InvalidTransition, JointFeasibilityFailed, ResourceHoldInvalid]
    case Approve(_, _, _) =>
      [CandidateVersionMismatch, CandidateExpired, InvalidTransition, ApprovalRoleRequired, SegregationOfDuties,
       ReasonRequired]
    case Authorize(_, _, _) =>
      [CandidateVersionMismatch, CandidateExpired, DeploymentPrerequisitesMissing, DeploymentRoleRequired,
       SegregationOfDuties, ResourceHoldInvalid]
  }

  /** The status a call finds a recovery in. */
  ghost predicate InTurn(cmd: Command, status: Status) {
    match cmd
    case Select(_, _) => status in {Solving, AwaitingReview}
    case RecordValidation(_, _, _, _) => status == AwaitingValidation
    case RecordFeasibility(_, _, _, _, _) => status == AwaitingJointFeasibility
    case Approve(_, _, _) => status == AwaitingApproval
    case Authorize(_, _, _) => status == Approved
    case Create(_, _, _, _) => true
  }

  /** A certificate of this very candidate, solved and judged under the same rules, for the state the caller has seen. */
  ghost predicate Binds(ctx: Context, recoveryId: string, c: Candidate, cert: Certificate) {
    && cert.tenantId == ctx.tenantId && cert.recoveryId == recoveryId && cert.candidateId == c.candidateId
    && cert.stateVersion == ctx.expectedVersion && cert.rulesetVersion == c.rulesetVersion
  }

  ghost predicate IsClean(v: Validation) { v.valid && !v.hasFindings && v.certificate.Some? }

  ghost predicate Fails(s: Recovery, ctx: Context, cmd: Command, code: Code)
    requires !cmd.Create?
  {
    var c := cmd.candidate;
    match code
    case ForeignCandidate => c.tenantId != ctx.tenantId || c.recoveryId != cmd.recoveryId
    case StaleCandidate => c.stateVersion != ctx.expectedVersion
    case CandidateVersionMismatch => !SameCandidate(s, c)
    case CandidateExpired => c.expiresAt <= ctx.now
    case IllegalCandidate => !c.legal
    case InvalidTransition => !InTurn(cmd, s.status)
    case IndependentValidationFailed => cmd.RecordValidation? && !IsClean(cmd.validation)
    case CertificateBindingInvalid =>
      cmd.RecordValidation? && IsClean(cmd.validation) && !Binds(ctx, cmd.recoveryId, c, cmd.validation.certificate.value)
    case CertificateAssuranceInsufficient =>
      cmd.RecordValidation? && IsClean(cmd.validation)
      && cmd.validation.certificate.value.assuranceLevel != "operator_approved_certified"
    case CertificateSignatureInvalid => cmd.RecordValidation? && !cmd.signatureValid
    case JointFeasibilityFailed => cmd.RecordFeasibility? && !(cmd.feasibility.deployable && !cmd.feasibility.hasFindings)
    case ResourceHoldInvalid => (cmd.RecordFeasibility? || cmd.Authorize?) && !cmd.holdValid
    case ApprovalRoleRequired => ctx.role != "duty-manager"
    case ReasonRequired => cmd.Approve? && |Strip(cmd.reason)| < 3
    case DeploymentPrerequisitesMissing =>
      !InTurn(cmd, s.status) || s.certificate.None? || s.feasibility.None? || s.approval.None?
    case DeploymentRoleRequired => ctx.role != "deployment-controller"
    case SegregationOfDuties =>
      ctx.actor == s.proposedBy || (cmd.Authorize? && s.approval.Some? && ctx.actor == s.approval.value.actor)
    case _ => false
  }

  ghost predicate FirstFailure(s: Recovery, ctx: Context, cmd: Command, k: nat)
    requires !cmd.Create?
  {
    && k < |ChecksOf(cmd)| && Fails(s, ctx, cmd, ChecksOf(cmd)[k])
    && (forall j :: 0 <= j < k ==> !Fails(s, ctx, cmd, ChecksOf(cmd)[j]))
  }

  ghost predicate PassesAll(s: Recovery, ctx: Context, cmd: Command)
    requires !cmd.Create?
  {
    forall j :: 0 <= j < |ChecksOf(cmd)| ==> !Fails(s, ctx, cmd, ChecksOf(cmd)[j])
  }

  /** The decision goes through if all checks pass, and otherwise names the first that fails. */
  ghost predicate FollowsChecks(s: Recovery, ctx: Context, cmd: Command, d: Decision)
    requires !cmd.Create?
  {
    if d.Persist? then PassesAll(s, ctx, cmd) else exists k: nat :: FirstFailure(s, ctx, cmd, k) && d.code == ChecksOf(cmd)[k]
  }

  lemma RefusedAt(s: Recovery, ctx: Context, cmd: Command, d: Decision, k: nat)
    requires !cmd.Create? && FirstFailure(s, ctx, cmd, k) && d == Reject(ChecksOf(cmd)[k])
    ensures FollowsChecks(s, ctx, cmd, d)
  {
  }

  lemma SelectFollows(s: Recovery, ctx: Context, cmd: Command)
    requires cmd.Select?
    ensures FollowsChecks(s, ctx, cmd, DecideSelect(s, ctx, cmd.recoveryId, cmd.candidate))
  {
    var d := DecideSelect(s, ctx, cmd.recoveryId, cmd.candidate);
    if d.Reject? {
      RefusedAt(s, ctx, cmd, d, match d.code
        case ForeignCandidate => 0 case StaleCandidate => 1 case CandidateExpired => 2 case IllegalCandidate => 3
        case _ => 4);
    }
  }

  lemma ValidationPasses(s: Recovery, ctx: Context, cmd: Command)
    requires cmd.RecordValidation?
    requires DecideValidation(s, ctx, cmd.recoveryId, cmd.candidate, cmd.validation, cmd.signatureValid).Persist?
    ensures PassesAll(s, ctx, cmd)
  {
  }

  lemma ValidationFollows(s: Recovery, ctx: Context, cmd: Command)
    requires cmd.RecordValidation?
    ensures FollowsChecks(s, ctx, cmd, DecideValidation(s, ctx, cmd.recoveryId, cmd.candidate, cmd.validation, cmd.signatureValid))
  {
    var d := DecideValidation(s, ctx, cmd.recoveryId, cmd.candidate, cmd.validation, cmd.signatureValid);
    if d.Persist? {
      ValidationPasses(s, ctx, cmd);
    } else {
      RefusedAt(s, ctx, cmd, d, match d.code
        case CandidateVersionMismatch => 0 case CandidateExpired => 1 case InvalidTransition => 2
        case IndependentValidationFailed => 3 case CertificateBindingInvalid => 4
        case CertificateAssuranceInsufficient => 5 case _ => 6);
    }
  }

  lemma FeasibilityFollows(s: Recovery, ctx: Context, cmd: Command)
    requires cmd.RecordFeasibility?
    ensures FollowsChecks(s, ctx, cmd, DecideFeasibility(s, ctx, cmd.candidate, cmd.feasibility, cmd.holdId, cmd.holdValid))
  {
    var d := DecideFeasibility(s, ctx, cmd.candidate, cmd.feasibility, cmd.holdId, cmd.holdValid);
    if d.Reject? {
      RefusedAt(s, ctx, cmd, d, match d.code
        case CandidateVersionMismatch => 0 case CandidateExpired => 1 case InvalidTransition => 2
        case JointFeasibilityFailed => 3 case _ => 4);
    }
  }

  lemma ApprovalFollows(s: Recovery, ctx: Context, cmd: Command)
    requires cmd.Approve?
    ensures FollowsChecks(s, ctx, cmd, DecideApprove(s, ctx, cmd.candidate, cmd.reason))
  {
    var d := DecideApprove(s, ctx, cmd.candidate, cmd.reason);
    if d.Reject? {
      RefusedAt(s, ctx, cmd, d, match d.code
        case CandidateVersionMismatch => 0 case CandidateExpired => 1 case InvalidTransition => 2
        case ApprovalRoleRequired => 3 case SegregationOfDuties => 4 case _ => 5);
    }
  }

  lemma AuthorizationFollows(s: Recovery, ctx: Context, cmd: Command)
    requires cmd.Authorize?
    ensures FollowsChecks(s, ctx, cmd, DecideAuthorize(s, ctx, cmd.candidate, cmd.holdValid))
  {
    var d := DecideAuthorize(s, ctx, cmd.candidate, cmd.holdValid);
    if d.Reject? {
      RefusedAt(s, ctx, cmd, d, match d.code
        case CandidateVersionMismatch => 0 case CandidateExpired => 1 case DeploymentPrerequisitesMissing => 2
        case DeploymentRoleRequired => 3 case SegregationOfDuties => 4 case _ => 5);
    }
  }

  lemma LoadedFollowsChecks(s: Recovery, ctx: Context, cmd: Command)
    requires !cmd.Create?
    ensures FollowsChecks(s, ctx, cmd, DecideLoaded(s, ctx, cmd))
  {
    match cmd
    case Select(_, _) => SelectFollows(s, ctx, cmd);
    case RecordValidation(_, _, _, _) => ValidationFollows(s, ctx, cmd);
    case RecordFeasibility(_, _, _, _, _) => FeasibilityFollows(s, ctx, cmd);
    case Approve(_, _, _) => ApprovalFollows(s, ctx, cmd);
    case Authorize(_, _, _) => AuthorizationFollows(s, ctx, cmd);
  }

  // ----- a call as a whole -----

  /** A creation expects no version; any other call needs its recovery at the version the caller has seen, and all checks
      of its kind. */
  ghost predicate MayPass(t: WorkflowTables, ctx: Context, cmd: Command) {
    var key := (ctx.tenantId, cmd.recoveryId);
    if cmd.Create? then ctx.expectedVersion == 0
    else
      key in t.snapshots && t.snapshots[key].stateVersion == ctx.expectedVersion
      && PassesAll(t.snapshots[key].snapshot, ctx, cmd)
  }

  /** Why a call is refused. */
  ghost predicate RefusedFor(t: WorkflowTables, ctx: Context, cmd: Command, code: Code) {
    var key := (ctx.tenantId, cmd.recoveryId);
    if cmd.Create? then ctx.expectedVersion != 0 && code == InvalidInitialVersion
    else if key !in t.snapshots then code == RecoveryNotFound
    else if t.snapshots[key].stateVersion != ctx.expectedVersion then code == StaleState
    else exists k: nat :: FirstFailure(t.snapshots[key].snapshot, ctx, cmd, k) && code == ChecksOf(cmd)[k]
  }

  /** A call is decided by the rules: it passes exactly if they let it, and is refused for the first that does not. */
  lemma DecidedByRules(t: WorkflowTables, ctx: Context, cmd: Command)
    ensures DecisionOn(t, ctx, cmd).Persist? <==> MayPass(t, ctx, cmd)
    ensures DecisionOn(t, ctx, cmd).Reject? ==> RefusedFor(t, ctx, cmd, DecisionOn(t, ctx, cmd).code)
  {
    var key := (ctx.tenantId, cmd.recoveryId);
    if !cmd.Create? && key in t.snapshots {
      LoadedFollowsChecks(t.snapshots[key].snapshot, ctx, cmd);
    }
  }

  // ----- what is recorded -----

  /** The name a command is recorded under. */
  function NameOf(cmd: Command): string {
    match cmd
    case Create(_, _, _, _) => "create_recovery"
    case Select(_, _) => "select_candidate"
    case RecordValidation(_, _, _, _) => "record_validation"
    case RecordFeasibility(_, _, _, _, _) => "record_feasibility"
    case Approve(_, _, _) => "approve_recovery"
    case Authorize(_, _, _) => "authorize_deployment"
  }

  /** The type of the event it becomes. */
  function EventTypeOf(cmd: Command): string {
    match cmd
    case Create(_, _, _, _) => "RecoveryCreated"
    case Select(_, _) => "CandidateSelected"
    case RecordValidation(_, _, _, _) => "CandidateValidated"
    case RecordFeasibility(_, _, _, _, _) => "JointFeasibilityPassed"
    case Approve(_, _, _) => "RecoveryApproved"
    case Authorize(_, _, _) => "DeploymentAuthorized"
  }

  /** What the caller is told. */
  function ActionOf(cmd: Command): string {
    match cmd
    case Create(_, _, _, _) => "accepted"
    case Select(_, _) => "selected"
    case RecordValidation(_, _, _, _) => "validated"
    case RecordFeasibility(_, _, _, _, _) => "feasible"
    case Approve(_, _, _) => "approved"
    case Authorize(_, _, _) => "authorized"
  }

  ghost predicate Presents(s: Recovery, c: Candidate, now: int) { SameCandidate(s, c) && now < c.expiresAt }

  /** No evidence for the candidate is on file yet. */
  ghost predicate NothingShown(s: Recovery) {
    s.certificate.None? && s.feasibility.None? && s.holdId.None? && s.approval.None? && !s.deploymentAuthorized
  }

  /** What the accepted command put on file, who may have done it, and on what evidence. */
  ghost predicate OnFile(ctx: Context, cmd: Command, s: Recovery) {
    && s.updatedAt == ctx.wall
    && match cmd
       case Create(_, disruption, partition, objective) =>
         s.proposedBy == ctx.actor && s.disruptionId == disruption && s.partitionId == partition
         && s.objectiveVersion == objective && s.status == Solving && s.createdAt == ctx.now
       case Select(_, c) =>
         && s.selected == Some(c) && c.legal && ctx.now < c.expiresAt && s.status == AwaitingValidation
         && NothingShown(s)
       case RecordValidation(r, c, v, signatureValid) =>
         Presents(s, c, ctx.now) && IsClean(v) && Binds(ctx, r, c, v.certificate.value) && signatureValid
         && s.certificate == v.certificate && s.status == AwaitingJointFeasibility
       case RecordFeasibility(_, c, f, h, holdValid) =>
         Presents(s, c, ctx.now) && f.deployable && !f.hasFindings && holdValid
         && s.feasibility == Some(f) && s.holdId == Some(h) && s.status == AwaitingApproval
       case Approve(_, c, reason) =>
         Presents(s, c, ctx.now) && ctx.role == "duty-manager" && ctx.actor != s.proposedBy && |Strip(reason)| >= 3
         && s.approval == Some(Approval(ctx.actor, "duty-manager", Strip(reason), ctx.now, c.candidateId, c.candidateVersion))
         && s.status == Approved
       case Authorize(_, c, holdValid) =>
         Presents(s, c, ctx.now) && ctx.role == "deployment-controller" && holdValid
         && s.authorizedBy == Some(ctx.actor) && s.authorizedAt == Some(ctx.now)
         && s.approval.Some? && ctx.actor != s.proposedBy && ctx.actor != s.approval.value.actor
         && s.status == DeploymentAuthorized
  }

  lemma LoadedIsOnFile(s: Recovery, ctx: Context, cmd: Command)
    requires !cmd.Create? && DecideLoaded(s, ctx, cmd).Persist?
    ensures OnFile(ctx, cmd, ToMutation(ctx, cmd.recoveryId, DecideLoaded(s, ctx, cmd)).snapshot)
  {
  }

  /** The decision is recorded under the names of its command. */
  ghost predicate NamedFor(cmd: Command, d: Decision) {
    d.Persist? && d.commandType == NameOf(cmd) && d.eventType == EventTypeOf(cmd) && d.action == ActionOf(cmd)
  }
}
