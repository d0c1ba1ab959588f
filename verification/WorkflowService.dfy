/** The workflow service: each call climbs one rung, repeats an answer, or changes nothing
    (core/durable_recovery_workflow.py). */
module WorkflowService {
  import opened Sequences
  import opened Text
  import opened DurableStore
  import opened Workflow
  import opened WorkflowRules
  import opened ApprovalLadder

  predicate Accepted(answer: Answer) { answer.Stored? && answer.outcome.Done? }

  predicate Replayed(answer: Answer) { Accepted(answer) && answer.outcome.receipt.replayed }

  /** Nobody else's recovery is touched. */
  ghost predicate OthersUntouched(t: WorkflowTables, after: WorkflowTables, key: (string, string)) {
    && t.events <= after.events
    && (forall k :: k != key ==> StreamEvents(after, k) == StreamEvents(t, k) && StreamVersion(after, k) == StreamVersion(t, k))
    && (forall k :: k != key && k in t.snapshots ==> k in after.snapshots && after.snapshots[k] == t.snapshots[k])
  }

  /** An accepted call is new, takes the recovery from the rung the caller saw to the next one, keeps the evidence
      below it, and leaves the others alone. */
  ghost predicate OneRungUp(t: WorkflowTables, after: WorkflowTables, ctx: Context, cmd: Command, r: Receipt<Response>) {
    var key := (ctx.tenantId, cmd.recoveryId);
    && !r.replayed && r.stateVersion == ctx.expectedVersion + 1
    && StreamVersion(t, key) == ctx.expectedVersion && StreamVersion(after, key) == ctx.expectedVersion + 1
    && key in after.snapshots && r.response == Versioned(Response(ActionOf(cmd), after.snapshots[key].snapshot), r.stateVersion)
    && Rung(key.0, key.1, ctx.expectedVersion + 1, after.snapshots[key].snapshot)
    && (key in t.snapshots ==> Grew(t.snapshots[key].snapshot, after.snapshots[key].snapshot))
    && OnFile(ctx, cmd, after.snapshots[key].snapshot)
    && OthersUntouched(t, after, key)
  }

  /** The receipt repeats what the same command of an earlier call was told. */
  ghost predicate RepeatsReceipt(u: WorkflowTables, ctx: Context, cmd: Command, r: Receipt<Response>) {
    r.replayed && exists e :: e in u.events && WrittenFor(e, ctx, cmd) && r == Receipt(e.eventId, e.version, Versioned(e.response, e.version), true)
  }

  ghost predicate WrittenFor(e: Event, ctx: Context, cmd: Command) {
    && e.tenantId == ctx.tenantId && e.recoveryId == cmd.recoveryId && e.version == ctx.expectedVersion + 1
    && e.commandType == NameOf(cmd) && e.request == ctx.role
  }

  /** What a call comes to on the tables as they are when it persists. */
  ghost predicate Climbed(u: WorkflowTables, after: WorkflowTables, ctx: Context, cmd: Command, answer: Answer) {
    && OnLadder(after)
    && (if !Accepted(answer) then after == u
        else if Replayed(answer) then after == u && RepeatsReceipt(u, ctx, cmd, answer.outcome.receipt)
        else OneRungUp(u, after, ctx, cmd, answer.outcome.receipt))
    && (answer.Stored? ==> (Replayed(answer) <==> OnRecord(u, ctx, cmd)))
  }

  lemma WriteLeavesOthers(t: WorkflowTables, m: Mutation<string, Recovery, Response>, eventId: string, now: int)
    requires Admitted(t, m)
    ensures OthersUntouched(t, Written(t, m, eventId, now), StreamKey(m))
  {
    forall k | k != StreamKey(m)
      ensures StreamEvents(Written(t, m, eventId, now), k) == StreamEvents(t, k)
    {
      WrittenStream(t, m, eventId, now, k);
    }
  }

  /** The decision that is admitted, checked against what is stored. */
  lemma DecisionClimbs(t: WorkflowTables, ctx: Context, cmd: Command, d: Decision)
    requires OnLadder(t) && d.Persist? && Sound(t, ctx, cmd, d) && Admitted(t, ToMutation(ctx, cmd.recoveryId, d))
    ensures
      var key := (ctx.tenantId, cmd.recoveryId);
      var next := ToMutation(ctx, cmd.recoveryId, d).snapshot;
      && Rung(key.0, key.1, ctx.expectedVersion + 1, next)
      && (key in t.snapshots ==> Grew(t.snapshots[key].snapshot, next))
  {
    var key := (ctx.tenantId, cmd.recoveryId);
    NewEventFits(t, ctx, cmd, d, "");
    if key in t.snapshots {
      StoredIsOnRung(t, key);
    }
  }

  lemma AdmittedClimbs(t: WorkflowTables, ctx: Context, cmd: Command, d: Decision, eventId: string)
    requires OnLadder(t) && d.Persist? && Sound(t, ctx, cmd, d) && Admitted(t, ToMutation(ctx, cmd.recoveryId, d))
    ensures
      var m := ToMutation(ctx, cmd.recoveryId, d);
      OneRungUp(t, Written(t, m, eventId, ctx.wall), ctx, cmd, NewReceipt(m, eventId))
  {
    DecisionClimbs(t, ctx, cmd, d);
    WriteLeavesOthers(t, ToMutation(ctx, cmd.recoveryId, d), eventId, ctx.wall);
  }

  /** What the caller gets for a new command. */
  function NewReceipt(m: Mutation<string, Recovery, Response>, eventId: string): Receipt<Response>
    requires m.expectedVersion >= 0
  {
    Receipt(eventId, m.expectedVersion + 1, Versioned(m.response, m.expectedVersion + 1), false)
  }

  lemma RecordHasEvent(t: WorkflowTables, ctx: Context, cmd: Command) returns (e: Event)
    requires Consistent(t) && OnRecord(t, ctx, cmd)
    ensures e in t.events && WrittenFor(e, ctx, cmd)
    ensures var row := t.commands[(ctx.tenantId, ctx.idempotencyKey)];
      row == CommandRow(row.digest, true, e.eventId, e.version, Some(Versioned(e.response, e.version)))
  {
    var key := (ctx.tenantId, ctx.idempotencyKey);
    assert OwnsSome(t, key);
    var i :| 0 <= i < |t.events| && Owns(t, key, i);
    e := t.events[i];
  }

  lemma MutationOnRecord(t: WorkflowTables, ctx: Context, cmd: Command, d: Decision)
    requires d.Persist? && d.commandType == NameOf(cmd)
    ensures
      var m := ToMutation(ctx, cmd.recoveryId, d);
      OnRecord(t, ctx, cmd) <==> CommandKey(m) in t.commands && t.commands[CommandKey(m)].digest == Digest(m)
  {
  }

  lemma RecordedIsValid(t: WorkflowTables, ctx: Context, cmd: Command, d: Decision)
    requires OnLadder(t) && d.Persist? && OnRecord(t, ctx, cmd)
    ensures ValidMutation(ToMutation(ctx, cmd.recoveryId, d))
  {
    RecordedIsOld(t, ctx, cmd);
  }

  /** A command on record is answered with the receipt on file, and only such a command is. */
  lemma RecordIsRepeated(t: WorkflowTables, ctx: Context, cmd: Command, d: Decision, eventId: string)
    requires OnLadder(t) && d.Persist? && d.commandType == NameOf(cmd)
    ensures
      var outcome := MutateOutcome(t, ToMutation(ctx, cmd.recoveryId, d), eventId);
      && (outcome.Done? && outcome.receipt.replayed <==> OnRecord(t, ctx, cmd))
      && (outcome.Done? && outcome.receipt.replayed ==> RepeatsReceipt(t, ctx, cmd, outcome.receipt))
  {
    MutationOnRecord(t, ctx, cmd, d);
    if OnRecord(t, ctx, cmd) {
      RecordedIsValid(t, ctx, cmd, d);
      var e := RecordHasEvent(t, ctx, cmd);
      assert e in t.events && WrittenFor(e, ctx, cmd);
    }
  }

  lemma ClimbedByRung(t: WorkflowTables, after: WorkflowTables, ctx: Context, cmd: Command, r: Receipt<Response>)
    requires OnLadder(after) && OneRungUp(t, after, ctx, cmd, r) && !OnRecord(t, ctx, cmd)
    ensures Climbed(t, after, ctx, cmd, Stored(Done(r)))
  {
  }

  lemma ClimbedByNothing(t: WorkflowTables, ctx: Context, cmd: Command, outcome: Outcome<Response>)
    requires OnLadder(t) && (outcome.Done? ==> RepeatsReceipt(t, ctx, cmd, outcome.receipt))
    requires outcome.Done? <==> OnRecord(t, ctx, cmd)
    ensures Climbed(t, t, ctx, cmd, Stored(outcome))
  {
  }

  /** A call that is not admitted repeats a receipt or fails, and writes nothing. */
  lemma NotAdmittedRepeats(t: WorkflowTables, ctx: Context, cmd: Command, d: Decision, eventId: string)
    requires OnLadder(t) && d.Persist? && Sound(t, ctx, cmd, d) && !Admitted(t, ToMutation(ctx, cmd.recoveryId, d))
    ensures Climbed(t, t, ctx, cmd, Stored(MutateOutcome(t, ToMutation(ctx, cmd.recoveryId, d), eventId)))
  {
    var m := ToMutation(ctx, cmd.recoveryId, d);
    RecordIsRepeated(t, ctx, cmd, d, eventId);
    OutcomesAreDefinite(t, m, eventId, ctx.wall);
    ClimbedByNothing(t, ctx, cmd, MutateOutcome(t, m, eventId));
  }

  lemma AdmittedIsClimbed(t: WorkflowTables, ctx: Context, cmd: Command, d: Decision, eventId: string)
    requires OnLadder(t) && FreshEventId(t, eventId) && d.Persist? && Sound(t, ctx, cmd, d)
    requires Admitted(t, ToMutation(ctx, cmd.recoveryId, d))
    ensures
      var m := ToMutation(ctx, cmd.recoveryId, d);
      Climbed(t, Written(t, m, eventId, ctx.wall), ctx, cmd, Stored(Done(NewReceipt(m, eventId))))
  {
    var m := ToMutation(ctx, cmd.recoveryId, d);
    AdmittedKeepsLadder(t, ctx, cmd, d, eventId);
    MutationOnRecord(t, ctx, cmd, d);
    AdmittedClimbs(t, ctx, cmd, d, eventId);
    ClimbedByRung(t, Written(t, m, eventId, ctx.wall), ctx, cmd, NewReceipt(m, eventId));
  }

  /** Whatever was committed since the decision was taken, the recovery climbs exactly one rung, or the receipt on file
      is repeated, or nothing comes of the call. */
  lemma PersistClimbs(t: WorkflowTables, ctx: Context, cmd: Command, d: Decision, eventId: string)
    requires OnLadder(t) && FreshEventId(t, eventId) && d.Persist? && Sound(t, ctx, cmd, d)
    ensures
      var m := ToMutation(ctx, cmd.recoveryId, d);
      Climbed(t, AfterMutate(t, m, eventId, ctx.wall), ctx, cmd, Stored(MutateOutcome(t, m, eventId)))
  {
    if Admitted(t, ToMutation(ctx, cmd.recoveryId, d)) {
      AdmittedIsClimbed(t, ctx, cmd, d, eventId);
    } else {
      NotAdmittedRepeats(t, ctx, cmd, d, eventId);
    }
  }

  // ----- one call, with what others commit while it is under way -----

  type Calls = seq<Call<string, Recovery, Response>>

  /** Other calls may commit between this call's load and its persist; they too leave the recoveries on the ladder. */
  ghost predicate MayOverlap(t: WorkflowTables, others: Calls, eventId: string) {
    FreshIds(t, others) && OnLadder(Run(t, others)) && FreshEventId(Run(t, others), eventId)
  }

  /** The tables a call persists to, or those it loaded if it is rejected then. */
  ghost function PersistedOn(t: WorkflowTables, others: Calls, ctx: Context, cmd: Command): WorkflowTables {
    if DecisionOn(t, ctx, cmd).Reject? then t else Run(t, others)
  }

  lemma AcrossPersists(t: WorkflowTables, u: WorkflowTables, ctx: Context, cmd: Command, eventId: string)
    requires DecisionOn(t, ctx, cmd).Persist?
    ensures
      var m := ToMutation(ctx, cmd.recoveryId, DecisionOn(t, ctx, cmd));
      && AfterAcross(t, u, ctx, cmd, eventId) == AfterMutate(u, m, eventId, ctx.wall)
      && AnswerAcross(t, u, ctx, cmd, eventId) == Stored(MutateOutcome(u, m, eventId))
  {
  }

  lemma RejectedComesToNothing(t: WorkflowTables, u: WorkflowTables, ctx: Context, cmd: Command, eventId: string)
    requires OnLadder(t) && DecisionOn(t, ctx, cmd).Reject?
    ensures Climbed(t, AfterAcross(t, u, ctx, cmd, eventId), ctx, cmd, AnswerAcross(t, u, ctx, cmd, eventId))
  {
  }

  lemma PersistedClimbs(t: WorkflowTables, u: WorkflowTables, ctx: Context, cmd: Command, eventId: string)
    requires OnLadder(t) && OnLadder(u) && t.events <= u.events && FreshEventId(u, eventId)
    requires DecisionOn(t, ctx, cmd).Persist?
    ensures Climbed(u, AfterAcross(t, u, ctx, cmd, eventId), ctx, cmd, AnswerAcross(t, u, ctx, cmd, eventId))
  {
    DecisionIsSound(t, ctx, cmd);
    SoundStays(t, u, ctx, cmd, DecisionOn(t, ctx, cmd));
    PersistClimbs(u, ctx, cmd, DecisionOn(t, ctx, cmd), eventId);
    AcrossPersists(t, u, ctx, cmd, eventId);
  }

  /** A call as a whole. */
  lemma CallClimbs(t: WorkflowTables, others: Calls, ctx: Context, cmd: Command, eventId: string)
    requires OnLadder(t) && MayOverlap(t, others, eventId)
    ensures Climbed(PersistedOn(t, others, ctx, cmd), AfterAcross(t, Run(t, others), ctx, cmd, eventId), ctx, cmd,
                    AnswerAcross(t, Run(t, others), ctx, cmd, eventId))
  {
    if DecisionOn(t, ctx, cmd).Reject? {
      RejectedComesToNothing(t, Run(t, others), ctx, cmd, eventId);
    } else {
      EventsArePermanent(t, others);
      PersistedClimbs(t, Run(t, others), ctx, cmd, eventId);
    }
  }

  /** A creation loads nothing and invents its recovery id, so it is never answered with an earlier receipt. */
  lemma CreationIsNew(t: WorkflowTables, ctx: Context, cmd: Command, eventId: string)
    requires OnLadder(t) && FreshEventId(t, eventId) && cmd.Create?
    requires StreamVersion(t, (ctx.tenantId, cmd.recoveryId)) == 0
    ensures !OnRecord(t, ctx, cmd)
    ensures Climbed(t, AfterAcross(t, t, ctx, cmd, eventId), ctx, cmd, AnswerAcross(t, t, ctx, cmd, eventId))
  {
    if OnRecord(t, ctx, cmd) {
      RecordedIsOld(t, ctx, cmd);
    }
    if DecisionOn(t, ctx, cmd).Reject? {
      RejectedComesToNothing(t, t, ctx, cmd, eventId);
    } else {
      PersistedClimbs(t, t, ctx, cmd, eventId);
    }
  }

  class DurableRecoveryWorkflow {
    const repository: Repository<string, Recovery, Response>

    constructor (repository: Repository<string, Recovery, Response>)
      ensures this.repository == repository
    {
      this.repository := repository;
    }

    method Load(ctx: Context, recoveryId: string) returns (state: Recovery, problem: Option<Code>)
      ensures
        var row := StoredSnapshot(repository.View(), (ctx.tenantId, recoveryId));
        if row.None? then problem == Some(RecoveryNotFound)
        else if row.value.stateVersion != ctx.expectedVersion then problem == Some(StaleState)
        else problem == None && state == row.value.snapshot
    {
      var stored := repository.GetSnapshot(ctx.tenantId, recoveryId);
      if stored.None? {
        problem := Some(RecoveryNotFound);
        state := *;
        return;
      }
      state := stored.value.snapshot;
      problem := if stored.value.stateVersion != ctx.expectedVersion then Some(StaleState) else None;
    }

    /** What other callers commit in the meantime. */
    method Meanwhile(others: Calls)
      requires Consistent(repository.View()) && FreshIds(repository.View(), others)
      modifies repository
      ensures Consistent(repository.View()) && repository.View() == Run(old(repository.View()), others)
    {
      ghost var t := repository.View();
      for i := 0 to |others|
        invariant Consistent(repository.View()) && repository.View() == Run(t, others[..i])
      {
        assert others[..i + 1][..i] == others[..i];
        RunAvoidsId(t, others[..i], others[i].eventId);
        var outcome := repository.Mutate(others[i].mutation, others[i].eventId, others[i].now);
      }
      assert others[..|others|] == others;
    }

    /** The second transaction of a call, after whatever others committed since the first. */
    method PersistNext(ctx: Context, recoveryId: string, d: Decision, eventId: string, others: Calls) returns (answer: Answer)
      requires Consistent(repository.View()) && MayOverlap(repository.View(), others, eventId) && d.Persist?
      modifies repository
      ensures answer == old(Stored(MutateOutcome(Run(repository.View(), others), ToMutation(ctx, recoveryId, d), eventId)))
      ensures repository.View() == old(AfterMutate(Run(repository.View(), others), ToMutation(ctx, recoveryId, d), eventId, ctx.wall))
    {
      Meanwhile(others);
      var outcome := repository.Mutate(ToMutation(ctx, recoveryId, d), eventId, ctx.wall);
      answer := Stored(outcome);
    }

    method CreateRecovery(ctx: Context, cmd: Command, eventId: string) returns (answer: Answer)
      requires cmd.Create? && OnLadder(repository.View()) && FreshEventId(repository.View(), eventId)
      requires StreamVersion(repository.View(), (ctx.tenantId, cmd.recoveryId)) == 0
      modifies repository
      ensures answer == old(AnswerAcross(repository.View(), repository.View(), ctx, cmd, eventId))
      ensures repository.View() == old(AfterAcross(repository.View(), repository.View(), ctx, cmd, eventId))
      ensures Climbed(old(repository.View()), repository.View(), ctx, cmd, answer) && !Replayed(answer)
    {
      CreationIsNew(repository.View(), ctx, cmd, eventId);
      if ctx.expectedVersion != 0 {
        return Rejected(InvalidInitialVersion);
      }
      answer := PersistNext(ctx, cmd.recoveryId,
                            Persist(Created(ctx, cmd), "create_recovery", "RecoveryCreated", "accepted"), eventId, []);
    }

    method SelectCandidate(ctx: Context, cmd: Command, eventId: string, others: Calls) returns (answer: Answer)
      requires cmd.Select? && OnLadder(repository.View()) && MayOverlap(repository.View(), others, eventId)
      modifies repository
      ensures answer == old(AnswerAcross(repository.View(), Run(repository.View(), others), ctx, cmd, eventId))
      ensures repository.View() == old(AfterAcross(repository.View(), Run(repository.View(), others), ctx, cmd, eventId))
      ensures Climbed(old(PersistedOn(repository.View(), others, ctx, cmd)), repository.View(), ctx, cmd, answer)
    {
      CallClimbs(repository.View(), others, ctx, cmd, eventId);
      var state, problem := Load(ctx, cmd.recoveryId);
      if problem.Some? { return Rejected(problem.value); }
      var c := cmd.candidate;
      if c.tenantId != ctx.tenantId || c.recoveryId != cmd.recoveryId { return Rejected(ForeignCandidate); }
      if c.stateVersion != ctx.expectedVersion { return Rejected(StaleCandidate); }
      if c.expiresAt <= ctx.now { return Rejected(CandidateExpired); }
      if !c.legal { return Rejected(IllegalCandidate); }
      if state.status != Solving && state.status != AwaitingReview { return Rejected(InvalidTransition); }
      state := state.(status := AwaitingValidation, selected := Some(c), certificate := None, feasibility := None,
                      holdId := None, approval := None, deploymentAuthorized := false);
      answer := PersistNext(ctx, cmd.recoveryId, Persist(state, "select_candidate", "CandidateSelected", "selected"), eventId, others);
    }

    method AssertSelected(state: Recovery, c: Candidate, now: int) returns (problem: Option<Code>)
      ensures problem == SelectedMismatch(state, c, now)
    {
      if state.selected.None? { return Some(CandidateVersionMismatch); }
      var selected := state.selected.value;
      if selected.candidateId != c.candidateId || selected.contentSha256 != c.contentSha256 {
        return Some(CandidateVersionMismatch);
      }
      problem := if c.expiresAt <= now then Some(CandidateExpired) else None;
    }

    method RecordIndependentValidation(ctx: Context, cmd: Command, eventId: string, others: Calls) returns (answer: Answer)
      requires cmd.RecordValidation? && OnLadder(repository.View()) && MayOverlap(repository.View(), others, eventId)
      modifies repository
      ensures answer == old(AnswerAcross(repository.View(), Run(repository.View(), others), ctx, cmd, eventId))
      ensures repository.View() == old(AfterAcross(repository.View(), Run(repository.View(), others), ctx, cmd, eventId))
      ensures Climbed(old(PersistedOn(repository.View(), others, ctx, cmd)), repository.View(), ctx, cmd, answer)
    {
      CallClimbs(repository.View(), others, ctx, cmd, eventId);
      var state, problem := Load(ctx, cmd.recoveryId);
      if problem.Some? { return Rejected(problem.value); }
      problem := AssertSelected(state, cmd.candidate, ctx.now);
      if problem.Some? { return Rejected(problem.value); }
      if state.status != AwaitingValidation { return Rejected(InvalidTransition); }
      problem := CertificateProblem(ctx, cmd.recoveryId, cmd.candidate, cmd.validation, cmd.signatureValid);
      if problem.Some? { return Rejected(problem.value); }
      state := state.(status := AwaitingJointFeasibility, certificate := cmd.validation.certificate);
      answer := PersistNext(ctx, cmd.recoveryId, Persist(state, "record_validation", "CandidateValidated", "validated"), eventId, others);
    }

    method RecordJointFeasibility(ctx: Context, cmd: Command, eventId: string, others: Calls) returns (answer: Answer)
      requires cmd.RecordFeasibility? && OnLadder(repository.View()) && MayOverlap(repository.View(), others, eventId)
      modifies repository
      ensures answer == old(AnswerAcross(repository.View(), Run(repository.View(), others), ctx, cmd, eventId))
      ensures repository.View() == old(AfterAcross(repository.View(), Run(repository.View(), others), ctx, cmd, eventId))
      ensures Climbed(old(PersistedOn(repository.View(), others, ctx, cmd)), repository.View(), ctx, cmd, answer)
    {
      CallClimbs(repository.View(), others, ctx, cmd, eventId);
      var state, problem := Load(ctx, cmd.recoveryId);
      if problem.Some? { return Rejected(problem.value); }
      problem := AssertSelected(state, cmd.candidate, ctx.now);
      if problem.Some? { return Rejected(problem.value); }
      if state.status != AwaitingJointFeasibility { return Rejected(InvalidTransition); }
      if !cmd.feasibility.deployable || cmd.feasibility.hasFindings { return Rejected(JointFeasibilityFailed); }
      if !cmd.holdValid { return Rejected(ResourceHoldInvalid); }
      state := state.(status := AwaitingApproval, feasibility := Some(cmd.feasibility), holdId := Some(cmd.holdId));
      answer := PersistNext(ctx, cmd.recoveryId, Persist(state, "record_feasibility", "JointFeasibilityPassed", "feasible"), eventId, others);
    }

    method ApproveRecovery(ctx: Context, cmd: Command, eventId: string, others: Calls) returns (answer: Answer)
      requires cmd.Approve? && OnLadder(repository.View()) && MayOverlap(repository.View(), others, eventId)
      modifies repository
      ensures answer == old(AnswerAcross(repository.View(), Run(repository.View(), others), ctx, cmd, eventId))
      ensures repository.View() == old(AfterAcross(repository.View(), Run(repository.View(), others), ctx, cmd, eventId))
      ensures Climbed(old(PersistedOn(repository.View(), others, ctx, cmd)), repository.View(), ctx, cmd, answer)
    {
      CallClimbs(repository.View(), others, ctx, cmd, eventId);
      var state, problem := Load(ctx, cmd.recoveryId);
      if problem.Some? { return Rejected(problem.value); }
      problem := AssertSelected(state, cmd.candidate, ctx.now);
      if problem.Some? { return Rejected(problem.value); }
      if state.status != AwaitingApproval { return Rejected(InvalidTransition); }
      if ctx.role != "duty-manager" { return Rejected(ApprovalRoleRequired); }
      if ctx.actor == state.proposedBy { return Rejected(SegregationOfDuties); }
      if |Strip(cmd.reason)| < 3 { return Rejected(ReasonRequired); }
      var c := cmd.candidate;
      state := state.(status := Approved, approval := Some(Approval(
        ctx.actor, ctx.role, Strip(cmd.reason), ctx.now, c.candidateId, c.candidateVersion)));
      answer := PersistNext(ctx, cmd.recoveryId, Persist(state, "approve_recovery", "RecoveryApproved", "approved"), eventId, others);
    }

    method AuthorizeDeployment(ctx: Context, cmd: Command, eventId: string, others: Calls) returns (answer: Answer)
      requires cmd.Authorize? && OnLadder(repository.View()) && MayOverlap(repository.View(), others, eventId)
      modifies repository
      ensures answer == old(AnswerAcross(repository.View(), Run(repository.View(), others), ctx, cmd, eventId))
      ensures repository.View() == old(AfterAcross(repository.View(), Run(repository.View(), others), ctx, cmd, eventId))
      ensures Climbed(old(PersistedOn(repository.View(), others, ctx, cmd)), repository.View(), ctx, cmd, answer)
    {
      CallClimbs(repository.View(), others, ctx, cmd, eventId);
      var state, problem := Load(ctx, cmd.recoveryId);
      if problem.Some? { return Rejected(problem.value); }
      problem := AssertSelected(state, cmd.candidate, ctx.now);
      if problem.Some? { return Rejected(problem.value); }
      if state.status != Approved || state.certificate.None? || state.feasibility.None? || state.approval.None? {
        return Rejected(DeploymentPrerequisitesMissing);
      }
      if ctx.role != "deployment-controller" { return Rejected(DeploymentRoleRequired); }
      var actors := {state.proposedBy, state.approval.value.actor};
      if ctx.actor in actors { return Rejected(SegregationOfDuties); }
      if !cmd.holdValid { return Rejected(ResourceHoldInvalid); }
      state := state.(status := DeploymentAuthorized, deploymentAuthorized := true,
                      authorizedBy := Some(ctx.actor), authorizedAt := Some(ctx.now));
      answer := PersistNext(ctx, cmd.recoveryId,
                            Persist(state, "authorize_deployment", "DeploymentAuthorized", "authorized"), eventId, others);
    }
  }
}
