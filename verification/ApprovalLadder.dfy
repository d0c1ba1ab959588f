/** What the workflow's six transitions guarantee over every run (core/durable_recovery_workflow.py). */
module ApprovalLadder {
  import opened Sequences
  import opened DurableStore
  import opened Workflow
  import opened WorkflowRules

  function StatusAt(version: int): Status {
    if version == 1 then Solving
    else if version == 2 then AwaitingValidation
    else if version == 3 then AwaitingJointFeasibility
    else if version == 4 then AwaitingApproval
    else if version == 5 then Approved
    else DeploymentAuthorized
  }

  function CommandAt(version: int): string {
    if version == 1 then "create_recovery"
    else if version == 2 then "select_candidate"
    else if version == 3 then "record_validation"
    else if version == 4 then "record_feasibility"
    else if version == 5 then "approve_recovery"
    else "authorize_deployment"
  }

  ghost predicate SelectionFits(s: Recovery) {
    s.selected.Some? ==>
      var c := s.selected.value;
      c.legal && c.tenantId == s.tenantId && c.recoveryId == s.id && c.stateVersion == 1
  }

  ghost predicate CertificateFits(s: Recovery) {
    s.certificate.Some? ==>
      var cert := s.certificate.value;
      && cert.tenantId == s.tenantId && cert.recoveryId == s.id && cert.stateVersion == 2
      && cert.assuranceLevel == "operator_approved_certified"
      && s.selected.Some? && cert.candidateId == s.selected.value.candidateId
  }

  ghost predicate ApprovalFits(s: Recovery) {
    s.approval.Some? ==>
      var a := s.approval.value;
      a.role == "duty-manager" && a.actor != s.proposedBy
      && s.selected.Some? && a.candidateId == s.selected.value.candidateId
  }

  ghost predicate FeasibilityFits(s: Recovery) {
    s.feasibility.Some? ==> s.feasibility.value.deployable && !s.feasibility.value.hasFindings
  }

  ghost predicate AuthorizationFits(s: Recovery) {
    s.authorizedBy.Some? ==>
      s.approval.Some? && s.authorizedBy.value != s.proposedBy && s.authorizedBy.value != s.approval.value.actor
  }

  /** The version alone decides the status and which evidence is on file. */
  ghost predicate Rung(tenantId: string, recoveryId: string, version: int, s: Recovery) {
    && 1 <= version <= 6
    && s.stateVersion == version && s.tenantId == tenantId && s.id == recoveryId
    && s.status == StatusAt(version)
    && (s.selected.Some? <==> version >= 2)
    && (s.certificate.Some? <==> version >= 3)
    && (s.feasibility.Some? <==> version >= 4) && (s.holdId.Some? <==> version >= 4)
    && (s.approval.Some? <==> version >= 5)
    && (s.authorizedBy.Some? <==> version == 6) && (s.deploymentAuthorized <==> version == 6)
    && SelectionFits(s) && CertificateFits(s) && FeasibilityFits(s) && ApprovalFits(s) && AuthorizationFits(s)
  }

  ghost predicate Kept<T(!new)>(before: Option<T>, after: Option<T>) {
    before.Some? ==> after == before
  }

  /** Evidence on file is never replaced. */
  ghost predicate Grew(before: Recovery, after: Recovery) {
    && after.proposedBy == before.proposedBy && after.disruptionId == before.disruptionId
    && after.partitionId == before.partitionId && after.objectiveVersion == before.objectiveVersion
    && after.createdAt == before.createdAt
    && Kept(before.selected, after.selected) && Kept(before.certificate, after.certificate)
    && Kept(before.feasibility, after.feasibility) && Kept(before.holdId, after.holdId)
    && Kept(before.approval, after.approval)
  }

  type Event = EventRow<string, Recovery, Response>

  /** An event records its rung, the command of that rung, and the actor who took it in which role. */
  ghost predicate EventFits(e: Event) {
    && Rung(e.tenantId, e.recoveryId, e.version, e.snapshot)
    && e.commandType == CommandAt(e.version)
    && (e.version == 1 ==> e.actorSubject == e.snapshot.proposedBy)
    && (e.version == 5 ==> e.actorSubject == e.snapshot.approval.value.actor && e.request == "duty-manager")
    && (e.version == 6 ==> e.actorSubject == e.snapshot.authorizedBy.value && e.request == "deployment-controller")
  }

  ghost predicate HistoryFits(events: seq<Event>) {
    && (forall k :: 0 <= k < |events| ==> EventFits(events[k]))
    && (forall k :: 0 < k < |events| ==> Grew(events[k - 1].snapshot, events[k].snapshot))
  }

  /** Only commands that passed validation are on file. */
  ghost predicate KeysAreValid(t: WorkflowTables) {
    forall key :: key in t.commands ==> key.0 != "" && |key.1| >= 8 && t.commands[key].digest.recoveryId != ""
  }

  ghost predicate OnLadder(t: WorkflowTables) {
    && Consistent(t) && KeysAreValid(t)
    && (forall key :: HistoryFits(StreamEvents(t, key)))
  }

  // ----- one transition climbs one rung -----

  ghost predicate Climbs(ctx: Context, recoveryId: string, s: Recovery, d: Decision)
    requires d.Persist?
  {
    var next := ToMutation(ctx, recoveryId, d).snapshot;
    && Rung(ctx.tenantId, recoveryId, ctx.expectedVersion + 1, next)
    && Grew(s, next)
    && d.commandType == CommandAt(ctx.expectedVersion + 1)
    && ctx.expectedVersion != 0
    && (ctx.expectedVersion == 4 ==> ctx.role == "duty-manager" && next.approval.value.actor == ctx.actor)
    && (ctx.expectedVersion == 5 ==> ctx.role == "deployment-controller" && next.authorizedBy == Some(ctx.actor))
  }

  lemma SelectClimbs(s: Recovery, ctx: Context, r: string, c: Candidate)
    requires Rung(ctx.tenantId, r, ctx.expectedVersion, s)
    ensures DecideSelect(s, ctx, r, c).Persist? ==> Climbs(ctx, r, s, DecideSelect(s, ctx, r, c))
  {
  }

  lemma ValidationClimbs(s: Recovery, ctx: Context, r: string, c: Candidate, v: Validation, ok: bool)
    requires Rung(ctx.tenantId, r, ctx.expectedVersion, s)
    ensures DecideValidation(s, ctx, r, c, v, ok).Persist? ==> Climbs(ctx, r, s, DecideValidation(s, ctx, r, c, v, ok))
  {
  }

  lemma FeasibilityClimbs(s: Recovery, ctx: Context, r: string, c: Candidate, f: Feasibility, h: string, ok: bool)
    requires Rung(ctx.tenantId, r, ctx.expectedVersion, s)
    ensures DecideFeasibility(s, ctx, c, f, h, ok).Persist? ==> Climbs(ctx, r, s, DecideFeasibility(s, ctx, c, f, h, ok))
  {
  }

  lemma ApproveClimbs(s: Recovery, ctx: Context, r: string, c: Candidate, reason: string)
    requires Rung(ctx.tenantId, r, ctx.expectedVersion, s)
    ensures DecideApprove(s, ctx, c, reason).Persist? ==> Climbs(ctx, r, s, DecideApprove(s, ctx, c, reason))
  {
  }

  lemma AuthorizeClimbs(s: Recovery, ctx: Context, r: string, c: Candidate, ok: bool)
    requires Rung(ctx.tenantId, r, ctx.expectedVersion, s)
    ensures DecideAuthorize(s, ctx, c, ok).Persist? ==> Climbs(ctx, r, s, DecideAuthorize(s, ctx, c, ok))
  {
  }

  /** A loaded recovery moves up exactly one rung; at the top nothing is accepted. */
  lemma AcceptedClimbs(s: Recovery, ctx: Context, cmd: Command)
    requires !cmd.Create? && Rung(ctx.tenantId, cmd.recoveryId, ctx.expectedVersion, s)
    ensures DecideLoaded(s, ctx, cmd).Persist? ==> Climbs(ctx, cmd.recoveryId, s, DecideLoaded(s, ctx, cmd))
  {
    match cmd
    case Select(r, c) => SelectClimbs(s, ctx, r, c);
    case RecordValidation(r, c, v, ok) => ValidationClimbs(s, ctx, r, c, v, ok);
    case RecordFeasibility(r, c, f, h, ok) => FeasibilityClimbs(s, ctx, r, c, f, h, ok);
    case Approve(r, c, reason) => ApproveClimbs(s, ctx, r, c, reason);
    case Authorize(r, c, ok) => AuthorizeClimbs(s, ctx, r, c, ok);
  }

  // ----- over the tables -----

  /** The stored snapshot is on the rung its version names. */
  lemma StoredIsOnRung(t: WorkflowTables, key: (string, string))
    requires OnLadder(t) && key in t.snapshots
    ensures Rung(key.0, key.1, t.snapshots[key].stateVersion, t.snapshots[key].snapshot)
    ensures StreamEvents(t, key) != []
    ensures t.snapshots[key].snapshot == StreamEvents(t, key)[|StreamEvents(t, key)| - 1].snapshot
  {
    assert StreamAgrees(t, key);
    var events := StreamEvents(t, key);
    assert HistoryFits(events);
    FilterMembers(InStream(key), t.events, events[|events| - 1]);
  }

  lemma WrittenStream(t: WorkflowTables, m: Mutation<string, Recovery, Response>, eventId: string, now: int, key: (string, string))
    requires Admitted(t, m)
    ensures StreamEvents(Written(t, m, eventId, now), key) ==
      StreamEvents(t, key) + (if key == StreamKey(m) then [NewEvent(m, eventId, now)] else [])
  {
    assert Written(t, m, eventId, now).events[..|t.events|] == t.events;
  }

  lemma SnocFits(events: seq<Event>, e: Event)
    requires HistoryFits(events) && EventFits(e)
    requires events != [] ==> Grew(events[|events| - 1].snapshot, e.snapshot)
    ensures HistoryFits(events + [e])
  {
  }

  /** A creation starts at the first rung. */
  ghost predicate Starts(ctx: Context, cmd: Command, d: Decision)
    requires d.Persist?
  {
    var next := ToMutation(ctx, cmd.recoveryId, d).snapshot;
    && ctx.expectedVersion == 0 && Rung(ctx.tenantId, cmd.recoveryId, 1, next)
    && d.commandType == CommandAt(1) && next.proposedBy == ctx.actor
  }

  /** A decision to write records its command under its name and with its evidence, and climbs one rung from the
      snapshot that the recovery's history has at the expected version. */
  ghost predicate Sound(t: WorkflowTables, ctx: Context, cmd: Command, d: Decision) {
    d.Persist? ==>
      && NamedFor(cmd, d) && OnFile(ctx, cmd, ToMutation(ctx, cmd.recoveryId, d).snapshot)
      && if cmd.Create? then Starts(ctx, cmd, d) else ClimbsFromHistory(StreamEvents(t, (ctx.tenantId, cmd.recoveryId)), ctx, cmd, d)
  }

  ghost predicate ClimbsFromHistory(events: seq<Event>, ctx: Context, cmd: Command, d: Decision)
    requires d.Persist?
  {
    1 <= ctx.expectedVersion <= |events| && Climbs(ctx, cmd.recoveryId, events[ctx.expectedVersion - 1].snapshot, d)
  }

  lemma CreationIsSound(t: WorkflowTables, ctx: Context, cmd: Command)
    requires cmd.Create?
    ensures Sound(t, ctx, cmd, DecisionOn(t, ctx, cmd))
  {
  }

  lemma LoadedIsSound(t: WorkflowTables, ctx: Context, cmd: Command, s: Recovery)
    requires !cmd.Create? && Rung(ctx.tenantId, cmd.recoveryId, ctx.expectedVersion, s)
    requires var events := StreamEvents(t, (ctx.tenantId, cmd.recoveryId));
      1 <= ctx.expectedVersion <= |events| && events[ctx.expectedVersion - 1].snapshot == s
    ensures Sound(t, ctx, cmd, DecideLoaded(s, ctx, cmd))
  {
    if DecideLoaded(s, ctx, cmd).Persist? {
      AcceptedClimbs(s, ctx, cmd);
      LoadedIsOnFile(s, ctx, cmd);
    }
  }

  /** The stored snapshot is the one the history has at its version. */
  lemma StoredIsInHistory(t: WorkflowTables, key: (string, string))
    requires OnLadder(t) && key in t.snapshots
    ensures
      var row, events := t.snapshots[key], StreamEvents(t, key);
      && 1 <= row.stateVersion <= |events| && events[row.stateVersion - 1].snapshot == row.snapshot
      && Rung(key.0, key.1, row.stateVersion, row.snapshot)
  {
    StoredIsOnRung(t, key);
    assert StreamAgrees(t, key);
  }

  lemma DecisionIsOnStored(t: WorkflowTables, ctx: Context, cmd: Command)
    requires !cmd.Create? && DecisionOn(t, ctx, cmd).Persist?
    ensures var key := (ctx.tenantId, cmd.recoveryId);
      && key in t.snapshots && t.snapshots[key].stateVersion == ctx.expectedVersion
      && DecisionOn(t, ctx, cmd) == DecideLoaded(t.snapshots[key].snapshot, ctx, cmd)
  {
  }

  /** What a call loads it decides soundly. */
  lemma DecisionIsSound(t: WorkflowTables, ctx: Context, cmd: Command)
    requires OnLadder(t)
    ensures Sound(t, ctx, cmd, DecisionOn(t, ctx, cmd))
  {
    if cmd.Create? {
      CreationIsSound(t, ctx, cmd);
    } else if DecisionOn(t, ctx, cmd).Persist? {
      DecisionIsOnStored(t, ctx, cmd);
      StoredIsInHistory(t, (ctx.tenantId, cmd.recoveryId));
      LoadedIsSound(t, ctx, cmd, t.snapshots[(ctx.tenantId, cmd.recoveryId)].snapshot);
    }
  }

  /** Histories only grow, so a decision stays sound whatever is committed in between. */
  lemma SoundStays(t: WorkflowTables, u: WorkflowTables, ctx: Context, cmd: Command, d: Decision)
    requires Sound(t, ctx, cmd, d) && t.events <= u.events
    ensures Sound(u, ctx, cmd, d)
  {
    FilterPrefix(InStream((ctx.tenantId, cmd.recoveryId)), t.events, u.events);
  }

  lemma HistoryIsOnRungs(t: WorkflowTables, key: (string, string), k: nat)
    requires OnLadder(t) && k < |StreamEvents(t, key)|
    ensures Rung(key.0, key.1, k + 1, StreamEvents(t, key)[k].snapshot)
  {
    var events := StreamEvents(t, key);
    assert StreamAgrees(t, key);
    assert HistoryFits(events);
    assert events[k] in events;
    FilterMembers(InStream(key), t.events, events[k]);
    assert EventFits(events[k]);
  }

  /** A decision that is admitted was taken on the newest snapshot, if it was taken on one. */
  lemma AdmittedIsNewest(t: WorkflowTables, ctx: Context, cmd: Command, d: Decision)
    requires OnLadder(t) && d.Persist? && Sound(t, ctx, cmd, d) && Admitted(t, ToMutation(ctx, cmd.recoveryId, d))
    ensures |StreamEvents(t, (ctx.tenantId, cmd.recoveryId))| == ctx.expectedVersion
  {
    assert StreamAgrees(t, (ctx.tenantId, cmd.recoveryId));
  }

  lemma NewEventFits(t: WorkflowTables, ctx: Context, cmd: Command, d: Decision, eventId: string)
    requires OnLadder(t) && d.Persist? && Sound(t, ctx, cmd, d) && Admitted(t, ToMutation(ctx, cmd.recoveryId, d))
    ensures
      var m := ToMutation(ctx, cmd.recoveryId, d);
      var events := StreamEvents(t, StreamKey(m));
      EventFits(NewEvent(m, eventId, ctx.wall))
      && (events != [] ==> Grew(events[|events| - 1].snapshot, m.snapshot))
  {
    AdmittedIsNewest(t, ctx, cmd, d);
  }

  lemma WrittenHistoryFits(t: WorkflowTables, m: Mutation<string, Recovery, Response>, eventId: string, now: int, key: (string, string))
    requires Admitted(t, m) && HistoryFits(StreamEvents(t, key))
    requires key == StreamKey(m) ==> EventFits(NewEvent(m, eventId, now))
    requires key == StreamKey(m) && StreamEvents(t, key) != [] ==>
      Grew(StreamEvents(t, key)[|StreamEvents(t, key)| - 1].snapshot, m.snapshot)
    ensures HistoryFits(StreamEvents(Written(t, m, eventId, now), key))
  {
    WrittenStream(t, m, eventId, now, key);
    if key == StreamKey(m) {
      SnocFits(StreamEvents(t, key), NewEvent(m, eventId, now));
    } else {
      assert StreamEvents(t, key) + [] == StreamEvents(t, key);
    }
  }

  lemma AdmittedKeepsHistories(t: WorkflowTables, ctx: Context, cmd: Command, d: Decision, eventId: string)
    requires OnLadder(t) && d.Persist? && Sound(t, ctx, cmd, d) && Admitted(t, ToMutation(ctx, cmd.recoveryId, d))
    ensures
      var m := ToMutation(ctx, cmd.recoveryId, d);
      forall key :: HistoryFits(StreamEvents(Written(t, m, eventId, ctx.wall), key))
  {
    NewEventFits(t, ctx, cmd, d, eventId);
    WrittenHistoriesFit(t, ToMutation(ctx, cmd.recoveryId, d), eventId, ctx.wall);
  }

  lemma WrittenHistoriesFit(t: WorkflowTables, m: Mutation<string, Recovery, Response>, eventId: string, now: int)
    requires OnLadder(t) && Admitted(t, m) && EventFits(NewEvent(m, eventId, now))
    requires var events := StreamEvents(t, StreamKey(m)); events != [] ==> Grew(events[|events| - 1].snapshot, m.snapshot)
    ensures forall key :: HistoryFits(StreamEvents(Written(t, m, eventId, now), key))
  {
    forall key
      ensures HistoryFits(StreamEvents(Written(t, m, eventId, now), key))
    {
      WrittenHistoryFits(t, m, eventId, now, key);
    }
  }

  lemma WrittenKeysAreValid(t: WorkflowTables, m: Mutation<string, Recovery, Response>, eventId: string, now: int)
    requires KeysAreValid(t) && Admitted(t, m)
    ensures KeysAreValid(Written(t, m, eventId, now))
  {
  }

  lemma AdmittedKeepsLadder(t: WorkflowTables, ctx: Context, cmd: Command, d: Decision, eventId: string)
    requires OnLadder(t) && FreshEventId(t, eventId) && d.Persist? && Sound(t, ctx, cmd, d)
    requires Admitted(t, ToMutation(ctx, cmd.recoveryId, d))
    ensures OnLadder(Written(t, ToMutation(ctx, cmd.recoveryId, d), eventId, ctx.wall))
  {
    var m := ToMutation(ctx, cmd.recoveryId, d);
    MutateKeepsConsistency(t, m, eventId, ctx.wall);
    WrittenKeysAreValid(t, m, eventId, ctx.wall);
    AdmittedKeepsHistories(t, ctx, cmd, d, eventId);
  }

  /** Persisting a decision, however long ago it was taken, leaves all recoveries on the ladder. */
  lemma PersistKeepsLadder(t: WorkflowTables, ctx: Context, cmd: Command, d: Decision, eventId: string)
    requires OnLadder(t) && FreshEventId(t, eventId) && d.Persist? && Sound(t, ctx, cmd, d)
    ensures OnLadder(AfterMutate(t, ToMutation(ctx, cmd.recoveryId, d), eventId, ctx.wall))
  {
    if Admitted(t, ToMutation(ctx, cmd.recoveryId, d)) {
      AdmittedKeepsLadder(t, ctx, cmd, d, eventId);
    }
  }

  lemma NoRecoveriesIsOnLadder()
    ensures OnLadder(EmptyTables())
  {
    forall key
      ensures HistoryFits(StreamEvents(EmptyTables(), key))
    {
    }
  }

  // ----- what authorization means -----

  /** The one candidate of a history: every later snapshot keeps the evidence of an earlier one. */
  lemma {:induction false} EvidenceIsKept(events: seq<Event>, i: nat, j: nat)
    requires HistoryFits(events) && i <= j < |events|
    ensures Grew(events[i].snapshot, events[j].snapshot)
    decreases j - i
  {
    if i < j {
      EvidenceIsKept(events, i, j - 1);
      assert Grew(events[j - 1].snapshot, events[j].snapshot);
    }
  }

  /** No recovery takes more than six mutations, and its version names its status. */
  lemma SixMutationsAtMost(t: WorkflowTables, key: (string, string))
    requires OnLadder(t)
    ensures |StreamEvents(t, key)| <= 6
    ensures key in t.snapshots ==>
      t.snapshots[key].stateVersion == |StreamEvents(t, key)|
      && t.snapshots[key].snapshot.status == StatusAt(t.snapshots[key].stateVersion)
  {
    assert StreamAgrees(t, key);
    if key in t.snapshots {
      StoredIsOnRung(t, key);
    }
  }

  /** A recovery is authorized only by three people in three roles, on evidence bound to one candidate. */
  lemma AuthorizedMeansThreePeople(t: WorkflowTables, key: (string, string))
    requires OnLadder(t) && key in t.snapshots
    requires t.snapshots[key].snapshot.deploymentAuthorized || t.snapshots[key].snapshot.status == DeploymentAuthorized
    ensures
      var events := StreamEvents(t, key);
      && |events| == 6
      && events[0].actorSubject != events[4].actorSubject
      && events[0].actorSubject != events[5].actorSubject
      && events[4].actorSubject != events[5].actorSubject
      && events[4].request == "duty-manager" && events[5].request == "deployment-controller"
      && events[1].snapshot.selected.Some?
    ensures
      var chosen := StreamEvents(t, key)[1].snapshot.selected.value;
      var s := t.snapshots[key].snapshot;
      && s.selected == Some(chosen) && chosen.legal
      && s.certificate.Some? && s.certificate.value.candidateId == chosen.candidateId
      && s.feasibility.Some? && s.feasibility.value.deployable && s.holdId.Some?
      && s.approval.Some? && s.approval.value.candidateId == chosen.candidateId
  {
    StoredIsOnRung(t, key);
    assert StreamAgrees(t, key);
    var events := StreamEvents(t, key);
    assert HistoryFits(events);
    assert EventFits(events[0]) && EventFits(events[1]) && EventFits(events[4]) && EventFits(events[5]);
    EvidenceIsKept(events, 0, 5);
    EvidenceIsKept(events, 1, 5);
    EvidenceIsKept(events, 4, 5);
  }

  // ----- retries through the service -----

  lemma EventIsInItsStream(t: WorkflowTables, i: int)
    requires Consistent(t) && 0 <= i < |t.events|
    ensures 1 <= t.events[i].version <= StreamVersion(t, (t.events[i].tenantId, t.events[i].recoveryId))
  {
    var e := t.events[i];
    var key := (e.tenantId, e.recoveryId);
    assert StreamAgrees(t, key);
    FilterMembers(InStream(key), t.events, e);
    var k :| 0 <= k < |StreamEvents(t, key)| && StreamEvents(t, key)[k] == e;
  }

  /** The tenant has a command on file under this key, and it is this very command. */
  predicate OnRecord(t: WorkflowTables, ctx: Context, cmd: Command) {
    var key := (ctx.tenantId, ctx.idempotencyKey);
    key in t.commands
    && t.commands[key].digest == CommandDigest(NameOf(cmd), ctx.expectedVersion, cmd.recoveryId, ctx.role)
  }

  /** A command on record belongs to an event, so its stream has moved past the version the caller expects. */
  lemma RecordedIsOld(t: WorkflowTables, ctx: Context, cmd: Command)
    requires Consistent(t) && OnRecord(t, ctx, cmd)
    ensures 0 <= ctx.expectedVersion < StreamVersion(t, (ctx.tenantId, cmd.recoveryId))
  {
    var key := (ctx.tenantId, ctx.idempotencyKey);
    assert OwnsSome(t, key);
    var i :| 0 <= i < |t.events| && Owns(t, key, i);
    EventIsInItsStream(t, i);
  }

  /** Loading checks the version, so a retry that begins after the first call ended is refused as stale; it never sees
      the stored receipt. */
  lemma LateRetryIsStale(t: WorkflowTables, ctx: Context, cmd: Command)
    requires Consistent(t) && !cmd.Create? && OnRecord(t, ctx, cmd)
    ensures DecisionOn(t, ctx, cmd) == Reject(StaleState)
  {
    RecordedIsOld(t, ctx, cmd);
    assert StreamAgrees(t, (ctx.tenantId, cmd.recoveryId));
  }
}
