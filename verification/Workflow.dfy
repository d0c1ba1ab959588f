/** The six approval transitions over the durable tables (core/durable_recovery_workflow.py). */
module Workflow {
  import opened Sequences
  import opened Text
  import opened DurableStore

  datatype Status =
    | Solving | AwaitingReview | AwaitingValidation | AwaitingJointFeasibility | AwaitingApproval | Approved
    | DeploymentAuthorized

  datatype Candidate = Candidate(
    candidateId: string, candidateVersion: int, contentSha256: string, tenantId: string, recoveryId: string,
    stateVersion: int, rulesetVersion: string, expiresAt: int, legal: bool)

  datatype Certificate = Certificate(
    tenantId: string, recoveryId: string, candidateId: string, stateVersion: int, rulesetVersion: string,
    assuranceLevel: string, validatedAt: int)

  datatype Validation = Validation(valid: bool, hasFindings: bool, certificate: Option<Certificate>)

  datatype Feasibility = Feasibility(deployable: bool, hasFindings: bool)

  datatype Approval = Approval(
    actor: string, role: string, reason: string, approvedAt: int, candidateId: string, candidateVersion: int)

  datatype Recovery = Recovery(
    id: string, tenantId: string, disruptionId: string, partitionId: string, objectiveVersion: string, status: Status,
    proposedBy: string, selected: Option<Candidate>, certificate: Option<Certificate>, feasibility: Option<Feasibility>,
    holdId: Option<string>, approval: Option<Approval>, deploymentAuthorized: bool, authorizedBy: Option<string>,
    authorizedAt: Option<int>, createdAt: int, updatedAt: int, stateVersion: int)

  /** Who calls, under which idempotency key, having seen which version; and the two clock readings. */
  datatype Context = Context(
    tenantId: string, actor: string, role: string, idempotencyKey: string, correlationId: string,
    causationId: Option<string>, expectedVersion: int, now: int, wall: int)

  /** The calls; the recovery id of Create and the verifiers' answers come from outside. */
  datatype Command =
    | Create(recoveryId: string, disruptionId: string, partitionId: string, objectiveVersion: string)
    | Select(recoveryId: string, candidate: Candidate)
    | RecordValidation(recoveryId: string, candidate: Candidate, validation: Validation, signatureValid: bool)
    | RecordFeasibility(recoveryId: string, candidate: Candidate, feasibility: Feasibility, holdId: string, holdValid: bool)
    | Approve(recoveryId: string, candidate: Candidate, reason: string)
    | Authorize(recoveryId: string, candidate: Candidate, holdValid: bool)

  datatype Code =
    | RecoveryNotFound | StaleState | InvalidInitialVersion | ForeignCandidate | StaleCandidate | CandidateExpired
    | IllegalCandidate | InvalidTransition | CandidateVersionMismatch | IndependentValidationFailed
    | CertificateBindingInvalid | CertificateAssuranceInsufficient | CertificateSignatureInvalid
    | JointFeasibilityFailed | ResourceHoldInvalid | ApprovalRoleRequired | SegregationOfDuties | ReasonRequired
    | DeploymentPrerequisitesMissing | DeploymentRoleRequired

  /** A rejected transition, or the next state with the names it is recorded under. */
  datatype Decision = Reject(code: Code) | Persist(next: Recovery, commandType: string, eventType: string, action: string)

  datatype Response = Response(action: string, recovery: Recovery)

  type WorkflowTables = Tables<string, Recovery, Response>

  // ----- the transitions -----

  function Created(ctx: Context, cmd: Command): Recovery
    requires cmd.Create?
  {
    Recovery(cmd.recoveryId, ctx.tenantId, cmd.disruptionId, cmd.partitionId, cmd.objectiveVersion, Solving, ctx.actor,
             None, None, None, None, None, false, None, None, ctx.now, ctx.now, 0)
  }

  function SelectedMismatch(state: Recovery, c: Candidate, now: int): Option<Code> {
    if state.selected.None? || state.selected.value.candidateId != c.candidateId
       || state.selected.value.contentSha256 != c.contentSha256 then Some(CandidateVersionMismatch)
    else if c.expiresAt <= now then Some(CandidateExpired)
    else None
  }

  function DecideSelect(state: Recovery, ctx: Context, recoveryId: string, c: Candidate): Decision {
    if c.tenantId != ctx.tenantId || c.recoveryId != recoveryId then Reject(ForeignCandidate)
    else if c.stateVersion != ctx.expectedVersion then Reject(StaleCandidate)
    else if c.expiresAt <= ctx.now then Reject(CandidateExpired)
    else if !c.legal then Reject(IllegalCandidate)
    else if state.status != Solving && state.status != AwaitingReview then Reject(InvalidTransition)
    else
      Persist(state.(status := AwaitingValidation, selected := Some(c), certificate := None, feasibility := None,
                     holdId := None, approval := None, deploymentAuthorized := false),
              "select_candidate", "CandidateSelected", "selected")
  }

  function CertificateProblem(ctx: Context, recoveryId: string, c: Candidate, v: Validation, signatureValid: bool): Option<Code> {
    if !v.valid || v.hasFindings || v.certificate.None? then Some(IndependentValidationFailed)
    else
      var cert := v.certificate.value;
      if cert.tenantId != ctx.tenantId || cert.recoveryId != recoveryId || cert.candidateId != c.candidateId then
        Some(CertificateBindingInvalid)
      else if cert.stateVersion != ctx.expectedVersion || cert.rulesetVersion != c.rulesetVersion then
        Some(CertificateBindingInvalid)
      else if cert.assuranceLevel != "operator_approved_certified" then Some(CertificateAssuranceInsufficient)
      else if !signatureValid then Some(CertificateSignatureInvalid)
      else None
  }

  function DecideValidation(state: Recovery, ctx: Context, recoveryId: string, c: Candidate, v: Validation, signatureValid: bool): Decision {
    if SelectedMismatch(state, c, ctx.now).Some? then Reject(SelectedMismatch(state, c, ctx.now).value)
    else if state.status != AwaitingValidation then Reject(InvalidTransition)
    else if CertificateProblem(ctx, recoveryId, c, v, signatureValid).Some? then
      Reject(CertificateProblem(ctx, recoveryId, c, v, signatureValid).value)
    else
      Persist(state.(status := AwaitingJointFeasibility, certificate := v.certificate),
              "record_validation", "CandidateValidated", "validated")
  }

  function DecideFeasibility(state: Recovery, ctx: Context, c: Candidate, f: Feasibility, holdId: string, holdValid: bool): Decision {
    if SelectedMismatch(state, c, ctx.now).Some? then Reject(SelectedMismatch(state, c, ctx.now).value)
    else if state.status != AwaitingJointFeasibility then Reject(InvalidTransition)
    else if !f.deployable || f.hasFindings then Reject(JointFeasibilityFailed)
    else if !holdValid then Reject(ResourceHoldInvalid)
    else
      Persist(state.(status := AwaitingApproval, feasibility := Some(f), holdId := Some(holdId)),
              "record_feasibility", "JointFeasibilityPassed", "feasible")
  }

  function DecideApprove(state: Recovery, ctx: Context, c: Candidate, reason: string): Decision {
    if SelectedMismatch(state, c, ctx.now).Some? then Reject(SelectedMismatch(state, c, ctx.now).value)
    else if state.status != AwaitingApproval then Reject(InvalidTransition)
    else if ctx.role != "duty-manager" then Reject(ApprovalRoleRequired)
    else if ctx.actor == state.proposedBy then Reject(SegregationOfDuties)
    else if |Strip(reason)| < 3 then Reject(ReasonRequired)
    else
      var approval := Approval(ctx.actor, ctx.role, Strip(reason), ctx.now, c.candidateId, c.candidateVersion);
      Persist(state.(status := Approved, approval := Some(approval)), "approve_recovery", "RecoveryApproved", "approved")
  }

  /** An approved state always has its approval on file (ApprovalLadder), so the code reads it without a check. */
  function DecideAuthorize(state: Recovery, ctx: Context, c: Candidate, holdValid: bool): Decision {
    if SelectedMismatch(state, c, ctx.now).Some? then Reject(SelectedMismatch(state, c, ctx.now).value)
    else if state.status != Approved || state.certificate.None? || state.feasibility.None? || state.approval.None? then
      Reject(DeploymentPrerequisitesMissing)
    else if ctx.role != "deployment-controller" then Reject(DeploymentRoleRequired)
    else if ctx.actor == state.proposedBy || ctx.actor == state.approval.value.actor then Reject(SegregationOfDuties)
    else if !holdValid then Reject(ResourceHoldInvalid)
    else
      Persist(state.(status := DeploymentAuthorized, deploymentAuthorized := true,
                     authorizedBy := Some(ctx.actor), authorizedAt := Some(ctx.now)),
              "authorize_deployment", "DeploymentAuthorized", "authorized")
  }

  function DecideLoaded(state: Recovery, ctx: Context, cmd: Command): Decision
    requires !cmd.Create?
  {
    match cmd
    case Select(r, c) => DecideSelect(state, ctx, r, c)
    case RecordValidation(r, c, v, ok) => DecideValidation(state, ctx, r, c, v, ok)
    case RecordFeasibility(_, c, f, h, ok) => DecideFeasibility(state, ctx, c, f, h, ok)
    case Approve(_, c, reason) => DecideApprove(state, ctx, c, reason)
    case Authorize(_, c, ok) => DecideAuthorize(state, ctx, c, ok)
  }

  function Decide(stored: Option<SnapshotRow<Recovery>>, ctx: Context, cmd: Command): Decision {
    if cmd.Create? then
      if ctx.expectedVersion != 0 then Reject(InvalidInitialVersion)
      else Persist(Created(ctx, cmd), "create_recovery", "RecoveryCreated", "accepted")
    else if stored.None? then Reject(RecoveryNotFound)
    else if stored.value.stateVersion != ctx.expectedVersion then Reject(StaleState)
    else DecideLoaded(stored.value.snapshot, ctx, cmd)
  }

  function ToMutation(ctx: Context, recoveryId: string, d: Decision): Mutation<string, Recovery, Response>
    requires d.Persist?
  {
    var snapshot := d.next.(stateVersion := ctx.expectedVersion + 1, updatedAt := ctx.wall);
    Mutation(ctx.tenantId, recoveryId, ctx.expectedVersion, ctx.idempotencyKey, d.commandType, d.eventType, ctx.actor,
             ctx.correlationId, ctx.causationId, d.next.partitionId, ctx.role, snapshot, Response(d.action, snapshot),
             "recovery.events.v1", "recovery.v1", None)
  }

  datatype Answer = Rejected(code: Code) | Stored(outcome: Outcome<Response>)

  function DecisionOn(t: WorkflowTables, ctx: Context, cmd: Command): Decision {
    Decide(StoredSnapshot(t, (ctx.tenantId, cmd.recoveryId)), ctx, cmd)
  }

  /** A service call loads in one transaction and persists in another: the decision is taken on the tables it loaded,
      and written, if it is to be written, to the tables as they are by then. */
  function AnswerAcross(t: WorkflowTables, u: WorkflowTables, ctx: Context, cmd: Command, eventId: string): Answer {
    var d := DecisionOn(t, ctx, cmd);
    if d.Reject? then Rejected(d.code)
    else Stored(MutateOutcome(u, ToMutation(ctx, cmd.recoveryId, d), eventId))
  }

  function AfterAcross(t: WorkflowTables, u: WorkflowTables, ctx: Context, cmd: Command, eventId: string): WorkflowTables {
    var d := DecisionOn(t, ctx, cmd);
    if d.Reject? then t else AfterMutate(u, ToMutation(ctx, cmd.recoveryId, d), eventId, ctx.wall)
  }
}
