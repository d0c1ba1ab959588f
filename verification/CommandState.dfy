/** Deployment commands and their acknowledgements (deployment/command_state.py). */
module CommandState {
  import opened Sequences

  datatype CommandStatus =
    | Queued | Sent | Acknowledged | Rejected | TimedOut | CompensationQueued | Compensated | Irreversible

  datatype DeploymentStatus =
    | DeploymentQueued | Publishing | Partial | Complete | Failed | Compensating | DeploymentCompensated
    | RequiresNewRecovery

  const TERMINAL_FAILURES := {Rejected, TimedOut}
  const SETTLED_BACK := {Compensated, Rejected, TimedOut}

  /** A command's state at one moment. */
  datatype Command = Command(
    commandId: string, required: bool, reversible: bool, status: CommandStatus, attempts: nat,
    adapterReference: Option<string>, failureCode: Option<string>, failureDetail: Option<string>)

  datatype Deployment = Deployment(commands: seq<Command>, stateVersion: int, status: DeploymentStatus)

  datatype Conflict =
    | StaleState | CommandNotFound | InvalidTransition | RetryNotAllowed | CompensationNotRequired
    | CommandsRequired | DeploymentNotFound

  datatype Action =
    | MarkSent(commandId: string, adapterReference: string)
    | Acknowledge(commandId: string, accepted: bool, answerReference: Option<string>, failureCode: Option<string>, failureDetail: Option<string>)
    | Timeout(commandId: string)
    | Retry(commandId: string)
    | Compensate
    | AcknowledgeCompensation(commandId: string, adapterReference: string)

  // ----- the status derived from the required commands -----

  predicate AnyRequired(cs: seq<Command>) { exists c :: c in cs && c.required }

  predicate AllRequiredIn(cs: seq<Command>, statuses: set<CommandStatus>) {
    forall c :: c in cs && c.required ==> c.status in statuses
  }

  predicate SomeRequiredIn(cs: seq<Command>, statuses: set<CommandStatus>) {
    exists c :: c in cs && c.required && c.status in statuses
  }

  function Recomputed(cs: seq<Command>, status: DeploymentStatus): DeploymentStatus {
    if AnyRequired(cs) && AllRequiredIn(cs, {Acknowledged}) then Complete
    else if SomeRequiredIn(cs, TERMINAL_FAILURES) then
      if SomeRequiredIn(cs, {Acknowledged}) then Partial else Failed
    else if SomeRequiredIn(cs, {Sent}) then Publishing
    else if AnyRequired(cs) && AllRequiredIn(cs, {Compensated}) then DeploymentCompensated
    else status
  }

  // ----- the transitions -----

  /** Position of the first command with the id, or the number of commands. */
  function IndexOf(cs: seq<Command>, commandId: string): (k: nat)
    ensures k <= |cs|
    ensures k < |cs| ==> cs[k].commandId == commandId
    ensures forall i :: 0 <= i < k ==> cs[i].commandId != commandId
  {
    FirstWhere((c: Command) => c.commandId == commandId, cs)
  }

  function AsSent(c: Command, reference: string): Command {
    c.(status := Sent, attempts := c.attempts + 1, adapterReference := Some(reference))
  }

  function AsAnswered(c: Command, accepted: bool, reference: Option<string>, code: Option<string>, detail: Option<string>): Command {
    if accepted then
      c.(status := Acknowledged, adapterReference := reference, failureCode := None, failureDetail := None)
    else
      c.(status := Rejected, adapterReference := reference, failureDetail := detail,
         failureCode := Some(OrRejected(code)))
  }

  function AsCompensated(c: Command, reference: string): Command {
    c.(status := Compensated, adapterReference := Some(reference))
  }

  /** The failure code of a rejection that names none. */
  function OrRejected(code: Option<string>): string {
    if code.Some? && code.value != "" then code.value else "SOURCE_SYSTEM_REJECTED"
  }

  function AsTimedOut(c: Command): Command { c.(status := TimedOut, failureCode := Some("ACK_TIMEOUT")) }

  function AsRetried(c: Command): Command {
    c.(status := Queued, failureCode := None, failureDetail := None, adapterReference := None)
  }

  function AsUndone(c: Command): Command {
    if c.status != Acknowledged then c
    else c.(status := if c.reversible then CompensationQueued else Irreversible)
  }

  function AllUndone(cs: seq<Command>): seq<Command> {
    seq(|cs|, i requires 0 <= i < |cs| => AsUndone(cs[i]))
  }

  predicate AnyAcknowledged(cs: seq<Command>) { exists c :: c in cs && c.status == Acknowledged }

  predicate AnyIrrevocable(cs: seq<Command>) { exists c :: c in cs && c.status == Acknowledged && !c.reversible }

  predicate AllSettledBack(cs: seq<Command>) { forall c :: c in cs ==> c.status in SETTLED_BACK }

  /** Why an action is refused; None if it is accepted. */
  function Refusal(d: Deployment, expectedVersion: int, a: Action): Option<Conflict> {
    if d.stateVersion != expectedVersion then Some(StaleState)
    else if a.Compensate? then
      if AnyAcknowledged(d.commands) then None else Some(CompensationNotRequired)
    else
      var k := IndexOf(d.commands, a.commandId);
      if k == |d.commands| then Some(CommandNotFound)
      else
        var status := d.commands[k].status;
        match a
        case MarkSent(_, _) => if status == Queued then None else Some(InvalidTransition)
        case Acknowledge(_, _, _, _, _) => if status == Sent then None else Some(InvalidTransition)
        case Timeout(_) => if status == Sent then None else Some(InvalidTransition)
        case Retry(_) => if status in TERMINAL_FAILURES then None else Some(RetryNotAllowed)
        case AcknowledgeCompensation(_, _) => if status == CompensationQueued then None else Some(InvalidTransition)
  }

  function NewCommands(d: Deployment, a: Action): seq<Command>
    requires a.Compensate? || IndexOf(d.commands, a.commandId) < |d.commands|
  {
    if a.Compensate? then AllUndone(d.commands)
    else
      var k := IndexOf(d.commands, a.commandId);
      var c := d.commands[k];
      d.commands[k := match a
                      case MarkSent(_, reference) => AsSent(c, reference)
                      case Acknowledge(_, accepted, reference, code, detail) => AsAnswered(c, accepted, reference, code, detail)
                      case Timeout(_) => AsTimedOut(c)
                      case Retry(_) => AsRetried(c)
                      case AcknowledgeCompensation(_, reference) => AsCompensated(c, reference)
                      case Compensate => c]
  }

  function NewStatus(d: Deployment, a: Action, cs: seq<Command>): DeploymentStatus {
    match a
    case Retry(_) => DeploymentQueued
    case Compensate =>
      if AnyIrrevocable(d.commands) then RequiresNewRecovery else Compensating
    case AcknowledgeCompensation(_, _) =>
      if AllSettledBack(cs) then DeploymentCompensated else d.status
    case _ => Recomputed(cs, d.status)
  }

  function After(d: Deployment, expectedVersion: int, a: Action): Deployment {
    if Refusal(d, expectedVersion, a).Some? then d
    else
      var cs := NewCommands(d, a);
      Deployment(cs, d.stateVersion + 1, NewStatus(d, a, cs))
  }

  // ----- the mutable objects -----

  class ResourceCommand {
    const commandId: string
    const required: bool
    const reversible: bool
    var status: CommandStatus
    var attempts: nat
    var adapterReference: Option<string>
    var failureCode: Option<string>
    var failureDetail: Option<string>

    constructor (commandId: string, required: bool, reversible: bool)
      ensures View() == Command(commandId, required, reversible, Queued, 0, None, None, None)
    {
      this.commandId, this.required, this.reversible := commandId, required, reversible;
      status, attempts, adapterReference, failureCode, failureDetail := Queued, 0, None, None, None;
    }

    function View(): Command
      reads this
    {
      Command(commandId, required, reversible, status, attempts, adapterReference, failureCode, failureDetail)
    }

    method Send(reference: string)
      modifies this
      ensures View() == AsSent(old(View()), reference)
    {
      status := Sent;
      attempts := attempts + 1;
      adapterReference := Some(reference);
    }

    method Answer(accepted: bool, reference: Option<string>, code: Option<string>, detail: Option<string>)
      modifies this
      ensures View() == AsAnswered(old(View()), accepted, reference, code, detail)
    {
      status := if accepted then Acknowledged else Rejected;
      adapterReference := reference;
      failureCode := if accepted then None else Some(OrRejected(code));
      failureDetail := if accepted then None else detail;
    }

    method Expire()
      modifies this
      ensures View() == AsTimedOut(old(View()))
    {
      status := TimedOut;
      failureCode := Some("ACK_TIMEOUT");
    }

    method Requeue()
      modifies this
      ensures View() == AsRetried(old(View()))
    {
      status := Queued;
      failureCode, failureDetail, adapterReference := None, None, None;
    }

    method ConfirmCompensation(reference: string)
      modifies this
      ensures View() == AsCompensated(old(View()), reference)
    {
      status := Compensated;
      adapterReference := Some(reference);
    }
  }

  class DeploymentAggregate {
    const commands: seq<ResourceCommand>
    var stateVersion: int
    var status: DeploymentStatus

    constructor (commands: seq<ResourceCommand>)
      requires Distinct(commands)
      ensures this.commands == commands && Valid()
      ensures stateVersion == 1 && status == DeploymentQueued
    {
      this.commands := commands;
      stateVersion, status := 1, DeploymentQueued;
    }

    ghost predicate Valid() {
      Distinct(commands)
    }

    function CommandViews(): (cs: seq<Command>)
      reads commands
      ensures |cs| == |commands|
      ensures forall i :: 0 <= i < |cs| ==> cs[i] == commands[i].View()
    {
      seq(|commands|, i requires 0 <= i < |commands| reads commands => commands[i].View())
    }

    function View(): Deployment
      reads this, commands
    {
      Deployment(CommandViews(), stateVersion, status)
    }

    /** The first command with the id. */
    method Find(commandId: string) returns (k: nat)
      ensures k == IndexOf(CommandViews(), commandId)
    {
      k := 0;
      while k < |commands| && commands[k].commandId != commandId
        invariant k <= |commands|
        invariant forall i :: 0 <= i < k ==> commands[i].commandId != commandId
      {
        k := k + 1;
      }
    }

    method Recompute()
      modifies this`status
      ensures status == Recomputed(CommandViews(), old(status))
    {
      var cs := CommandViews();
      if AnyRequired(cs) && AllRequiredIn(cs, {Acknowledged}) {
        status := Complete;
      } else if SomeRequiredIn(cs, TERMINAL_FAILURES) {
        status := if SomeRequiredIn(cs, {Acknowledged}) then Partial else Failed;
      } else if SomeRequiredIn(cs, {Sent}) {
        status := Publishing;
      } else if AnyRequired(cs) && AllRequiredIn(cs, {Compensated}) {
        status := DeploymentCompensated;
      }
    }

    method RecomputeAndAdvance(ghost before: Deployment, ghost a: Action)
      requires stateVersion == before.stateVersion && status == before.status
      requires a.MarkSent? || a.Acknowledge? || a.Timeout?
      requires Refusal(before, before.stateVersion, a).None? && CommandViews() == NewCommands(before, a)
      modifies this`status, this`stateVersion
      ensures View() == After(before, before.stateVersion, a)
    {
      Recompute();
      stateVersion := stateVersion + 1;
    }

    /** The command an action names, once the version and the id are checked. */
    method Target(commandId: string, expectedVersion: int) returns (k: nat, problem: Option<Conflict>)
      ensures
        if stateVersion != expectedVersion then problem == Some(StaleState)
        else if IndexOf(CommandViews(), commandId) == |commands| then problem == Some(CommandNotFound)
        else problem == None && k == IndexOf(CommandViews(), commandId)
      ensures problem.None? ==> k < |commands|
    {
      k, problem := 0, None;
      if stateVersion != expectedVersion {
        problem := Some(StaleState);
        return;
      }
      k := Find(commandId);
      if k == |commands| {
        problem := Some(CommandNotFound);
      }
    }

    method Send(commandId: string, expectedVersion: int, adapterReference: string) returns (problem: Option<Conflict>)
      requires Valid()
      modifies this, commands
      ensures problem == old(Refusal(View(), expectedVersion, MarkSent(commandId, adapterReference)))
      ensures View() == old(After(View(), expectedVersion, MarkSent(commandId, adapterReference)))
    {
      ghost var before := View();
      var k: nat;
      k, problem := Target(commandId, expectedVersion);
      if problem.Some? { return; }
      var command := commands[k];
      if command.status != Queued { return Some(InvalidTransition); }
      command.Send(adapterReference);
      assert CommandViews() == old(CommandViews())[k := command.View()];
      RecomputeAndAdvance(before, MarkSent(commandId, adapterReference));
    }

    method Answer(commandId: string, expectedVersion: int, accepted: bool, adapterReference: Option<string>,
                  failureCode: Option<string>, failureDetail: Option<string>) returns (problem: Option<Conflict>)
      requires Valid()
      modifies this, commands
      ensures problem == old(Refusal(View(), expectedVersion, Acknowledge(commandId, accepted, adapterReference, failureCode, failureDetail)))
      ensures View() == old(After(View(), expectedVersion, Acknowledge(commandId, accepted, adapterReference, failureCode, failureDetail)))
    {
      ghost var before := View();
      var k: nat;
      k, problem := Target(commandId, expectedVersion);
      if problem.Some? { return; }
      var command := commands[k];
      if command.status != Sent { return Some(InvalidTransition); }
      command.Answer(accepted, adapterReference, failureCode, failureDetail);
      assert CommandViews() == old(CommandViews())[k := command.View()];
      RecomputeAndAdvance(before, Acknowledge(commandId, accepted, adapterReference, failureCode, failureDetail));
    }

    method Expire(commandId: string, expectedVersion: int) returns (problem: Option<Conflict>)
      requires Valid()
      modifies this, commands
      ensures problem == old(Refusal(View(), expectedVersion, Timeout(commandId)))
      ensures View() == old(After(View(), expectedVersion, Timeout(commandId)))
    {
      ghost var before := View();
      var k: nat;
      k, problem := Target(commandId, expectedVersion);
      if problem.Some? { return; }
      var command := commands[k];
      if command.status != Sent { return Some(InvalidTransition); }
      command.Expire();
      assert CommandViews() == old(CommandViews())[k := command.View()];
      RecomputeAndAdvance(before, Timeout(commandId));
    }

    method FinishRetry(ghost before: Deployment, ghost a: Action)
      requires stateVersion == before.stateVersion && a.Retry?
      requires Refusal(before, before.stateVersion, a).None? && CommandViews() == NewCommands(before, a)
      modifies this`status, this`stateVersion
      ensures View() == After(before, before.stateVersion, a)
    {
      status := DeploymentQueued;
      stateVersion := stateVersion + 1;
    }

    method RetryCommand(commandId: string, expectedVersion: int) returns (problem: Option<Conflict>)
      requires Valid()
      modifies this, commands
      ensures problem == old(Refusal(View(), expectedVersion, Retry(commandId)))
      ensures View() == old(After(View(), expectedVersion, Retry(commandId)))
    {
      ghost var before := View();
      var k: nat;
      k, problem := Target(commandId, expectedVersion);
      if problem.Some? { return; }
      var command := commands[k];
      if command.status !in TERMINAL_FAILURES { return Some(RetryNotAllowed); }
      command.Requeue();
      assert CommandViews() == old(CommandViews())[k := command.View()];
      FinishRetry(before, Retry(commandId));
    }

    /** Turns every acknowledged command around. */
    method UndoAcknowledged()
      requires Valid()
      modifies commands
      ensures CommandViews() == AllUndone(old(CommandViews()))
    {
      for i := 0 to |commands|
        invariant forall j :: 0 <= j < i ==> commands[j].View() == AsUndone(old(CommandViews())[j])
        invariant forall j :: i <= j < |commands| ==> commands[j].View() == old(CommandViews())[j]
      {
        var command := commands[i];
        if command.status == Acknowledged {
          command.status := if command.reversible then CompensationQueued else Irreversible;
        }
      }
    }

    method FinishCompensate(ghost before: Deployment, irrevocable: bool)
      requires stateVersion == before.stateVersion && CommandViews() == AllUndone(before.commands)
      requires Refusal(before, before.stateVersion, Compensate).None? && irrevocable == AnyIrrevocable(before.commands)
      modifies this`status, this`stateVersion
      ensures View() == After(before, before.stateVersion, Compensate)
    {
      status := if irrevocable then RequiresNewRecovery else Compensating;
      stateVersion := stateVersion + 1;
    }

    method CompensateAll(expectedVersion: int) returns (problem: Option<Conflict>)
      requires Valid()
      modifies this, commands
      ensures problem == old(Refusal(View(), expectedVersion, Compensate))
      ensures View() == old(After(View(), expectedVersion, Compensate))
    {
      ghost var before := View();
      if stateVersion != expectedVersion { return Some(StaleState); }
      if !AnyAcknowledged(CommandViews()) { return Some(CompensationNotRequired); }
      var irrevocable := AnyIrrevocable(CommandViews());
      UndoAcknowledged();
      FinishCompensate(before, irrevocable);
      problem := None;
    }

    method FinishConfirmation(ghost before: Deployment, ghost a: Action)
      requires stateVersion == before.stateVersion && status == before.status && a.AcknowledgeCompensation?
      requires Refusal(before, before.stateVersion, a).None? && CommandViews() == NewCommands(before, a)
      modifies this`status, this`stateVersion
      ensures View() == After(before, before.stateVersion, a)
    {
      if AllSettledBack(CommandViews()) {
        status := DeploymentCompensated;
      }
      stateVersion := stateVersion + 1;
    }

    method ConfirmCompensation(commandId: string, expectedVersion: int, adapterReference: string) returns (problem: Option<Conflict>)
      requires Valid()
      modifies this, commands
      ensures problem == old(Refusal(View(), expectedVersion, AcknowledgeCompensation(commandId, adapterReference)))
      ensures View() == old(After(View(), expectedVersion, AcknowledgeCompensation(commandId, adapterReference)))
    {
      ghost var before := View();
      var k: nat;
      k, problem := Target(commandId, expectedVersion);
      if problem.Some? { return; }
      var command := commands[k];
      if command.status != CompensationQueued { return Some(InvalidTransition); }
      command.ConfirmCompensation(adapterReference);
      assert CommandViews() == old(CommandViews())[k := command.View()];
      FinishConfirmation(before, AcknowledgeCompensation(commandId, adapterReference));
    }
  }

  /** One resource of a deployment request; the two flags default to true. */
  datatype Resource = Resource(commandId: string, required: bool, reversible: bool)

  function Fresh(resources: seq<Resource>): seq<Command> {
    seq(|resources|, i requires 0 <= i < |resources| =>
      Command(resources[i].commandId, resources[i].required, resources[i].reversible, Queued, 0, None, None, None))
  }

  class DeploymentRegistry {
    var deployments: map<string, DeploymentAggregate>
    var idempotency: map<(string, string), string>

    constructor ()
      ensures deployments == map[] && idempotency == map[] && Valid()
    {
      deployments, idempotency := map[], map[];
    }

    ghost predicate Valid()
      reads this
    {
      && (forall id :: id in deployments ==> deployments[id].Valid())
      && (forall key :: key in idempotency ==> idempotency[key] in deployments)
    }

    method NewCommandObjects(resources: seq<Resource>) returns (commands: seq<ResourceCommand>)
      ensures |commands| == |resources| && Distinct(commands)
      ensures forall i :: 0 <= i < |commands| ==> fresh(commands[i]) && commands[i].View() == Fresh(resources)[i]
    {
      commands := [];
      for i := 0 to |resources|
        invariant |commands| == i && Distinct(commands)
        invariant forall j :: 0 <= j < i ==> fresh(commands[j]) && commands[j].View() == Fresh(resources)[j]
      {
        var command := new ResourceCommand(resources[i].commandId, resources[i].required, resources[i].reversible);
        commands := commands + [command];
      }
    }

    /** A key already used gives back the deployment it created, whatever the new request says. */
    method Create(tenantId: string, idempotencyKey: string, deploymentId: string, resources: seq<Resource>)
      returns (deployment: DeploymentAggregate?, problem: Option<Conflict>)
      requires Valid() && deploymentId !in deployments
      modifies this
      ensures Valid()
      ensures
        var key := (tenantId, idempotencyKey);
        if key in old(idempotency) then
          deployment == old(deployments[idempotency[key]]) && problem == None
          && deployments == old(deployments) && idempotency == old(idempotency)
        else if resources == [] then
          problem == Some(CommandsRequired) && deployments == old(deployments) && idempotency == old(idempotency)
        else
          && problem == None && deployment != null && fresh(deployment)
          && deployment.View() == Deployment(Fresh(resources), 1, DeploymentQueued)
          && deployments == old(deployments)[deploymentId := deployment]
          && idempotency == old(idempotency)[key := deploymentId]
    {
      var key := (tenantId, idempotencyKey);
      if key in idempotency {
        return deployments[idempotency[key]], None;
      }
      if resources == [] {
        return null, Some(CommandsRequired);
      }
      var commands := NewCommandObjects(resources);
      var created := new DeploymentAggregate(commands);
      assert created.CommandViews() == Fresh(resources);
      deployments := deployments[deploymentId := created];
      idempotency := idempotency[key := deploymentId];
      return created, None;
    }

    method Get(deploymentId: string) returns (deployment: DeploymentAggregate?, problem: Option<Conflict>)
      ensures problem == if deploymentId in deployments then None else Some(DeploymentNotFound)
      ensures problem.None? ==> deployment == deployments[deploymentId]
    {
      if deploymentId !in deployments {
        return null, Some(DeploymentNotFound);
      }
      return deployments[deploymentId], None;
    }
  }

  // ----- the shadow deployment of deployment/recovery_api.py -----

  ghost predicate DistinctIds(cs: seq<Command>) {
    forall i, j :: 0 <= i < j < |cs| ==> cs[i].commandId != cs[j].commandId
  }

  /** A command that differs from a fresh one only in how far it got. */
  ghost predicate Progressed(c: Command, start: Command, status: CommandStatus) {
    c.commandId == start.commandId && c.required == start.required && c.reversible == start.reversible && c.status == status
  }

  /** The first n commands are at `ahead`, the rest at `behind`. */
  ghost predicate Wave(cs: seq<Command>, start: seq<Command>, n: int, ahead: CommandStatus, behind: CommandStatus) {
    && |cs| == |start|
    && (forall j :: 0 <= j < |cs| ==> Progressed(cs[j], start[j], if j < n then ahead else behind))
  }

  lemma WaveAdvances(d: Deployment, start: seq<Command>, n: nat, a: Action, ahead: CommandStatus, behind: CommandStatus)
    requires DistinctIds(start) && n < |start| && Wave(d.commands, start, n, ahead, behind)
    requires a.MarkSent? || (a.Acknowledge? && a.accepted)
    requires a.commandId == start[n].commandId
    requires if a.MarkSent? then behind == Queued && ahead == Sent else behind == Sent && ahead == Acknowledged
    ensures Refusal(d, d.stateVersion, a) == None
    ensures Wave(After(d, d.stateVersion, a).commands, start, n + 1, ahead, behind)
    ensures After(d, d.stateVersion, a).stateVersion == d.stateVersion + 1
    ensures After(d, d.stateVersion, a).status == Recomputed(After(d, d.stateVersion, a).commands, d.status)
  {
    assert d.commands[n].commandId == start[n].commandId;
    assert forall k :: 0 <= k < n ==> d.commands[k].commandId == start[k].commandId;
  }

  lemma WaveRequired(cs: seq<Command>, start: seq<Command>, n: nat, ahead: CommandStatus, behind: CommandStatus)
    requires Wave(cs, start, n, ahead, behind)
    ensures AnyRequired(cs) <==> AnyRequired(start)
  {
    if AnyRequired(start) {
      var i :| 0 <= i < |start| && start[i].required;
      assert cs[i] in cs && cs[i].required;
    }
    if AnyRequired(cs) {
      var i :| 0 <= i < |cs| && cs[i].required;
      assert start[i] in start && start[i].required;
    }
  }

  /** Without required commands nothing but compensation and retry moves the status. */
  lemma OptionalOnlyKeepsStatus(cs: seq<Command>, status: DeploymentStatus)
    requires !AnyRequired(cs)
    ensures Recomputed(cs, status) == status
  {
  }

  /** How far a wave of sends or acknowledgements has got. */
  ghost predicate Driven(d: Deployment, start: seq<Command>, n: int, version: int, ahead: CommandStatus, behind: CommandStatus) {
    && Wave(d.commands, start, n, ahead, behind)
    && d.stateVersion == version
    && (!AnyRequired(start) ==> d.status == DeploymentQueued)
    && (AnyRequired(start) && n == |start| && ahead == Acknowledged ==> d.status == Complete)
  }

  lemma DrivenAdvances(d: Deployment, start: seq<Command>, n: nat, a: Action, ahead: CommandStatus, behind: CommandStatus)
    requires DistinctIds(start) && n < |start| && Driven(d, start, n, d.stateVersion, ahead, behind)
    requires a.MarkSent? || (a.Acknowledge? && a.accepted)
    requires a.commandId == start[n].commandId
    requires if a.MarkSent? then behind == Queued && ahead == Sent else behind == Sent && ahead == Acknowledged
    ensures Driven(After(d, d.stateVersion, a), start, n + 1, d.stateVersion + 1, ahead, behind)
  {
    WaveAdvances(d, start, n, a, ahead, behind);
    var after := After(d, d.stateVersion, a);
    WaveRequired(after.commands, start, n + 1, ahead, behind);
    if !AnyRequired(start) {
      OptionalOnlyKeepsStatus(after.commands, d.status);
    }
  }

  method SendAll(d: DeploymentAggregate, reference: int -> string, ghost start: seq<Command>)
    requires d.Valid() && DistinctIds(start) && Driven(d.View(), start, 0, 1, Sent, Queued)
    modifies d, d.commands
    ensures Driven(d.View(), start, |start|, 1 + |start|, Sent, Queued)
  {
    for i := 0 to |d.commands|
      invariant Driven(d.View(), start, i, 1 + i, Sent, Queued)
    {
      DrivenAdvances(d.View(), start, i, MarkSent(start[i].commandId, reference(i)), Sent, Queued);
      assert d.commands[i].View() == d.CommandViews()[i];
      var problem := d.Send(d.commands[i].commandId, d.stateVersion, reference(i));
    }
  }

  method AcknowledgeAll(d: DeploymentAggregate, reference: int -> string, ghost start: seq<Command>)
    requires d.Valid() && DistinctIds(start) && start != [] && Driven(d.View(), start, 0, 1 + |start|, Acknowledged, Sent)
    modifies d, d.commands
    ensures Driven(d.View(), start, |start|, 1 + 2 * |start|, Acknowledged, Sent)
  {
    for i := 0 to |d.commands|
      invariant Driven(d.View(), start, i, 1 + |start| + i, Acknowledged, Sent)
    {
      DrivenAdvances(d.View(), start, i, Acknowledge(start[i].commandId, true, Some(reference(i)), None, None), Acknowledged, Sent);
      assert d.commands[i].View() == d.CommandViews()[i];
      var problem := d.Answer(d.commands[i].commandId, d.stateVersion, true, Some(reference(i)), None, None);
    }
  }

  /** Send everything, then acknowledge everything: complete at version 1 + 2n, if anything was required. */
  method SimulateDeployment(d: DeploymentAggregate, reference: int -> string, ghost start: seq<Command>)
    requires d.Valid() && d.View() == Deployment(start, 1, DeploymentQueued)
    requires start != [] && DistinctIds(start) && forall c :: c in start ==> c.status == Queued
    modifies d, d.commands
    ensures d.stateVersion == 1 + 2 * |start|
    ensures d.status == if AnyRequired(start) then Complete else DeploymentQueued
    ensures forall i :: 0 <= i < |start| ==> Progressed(d.CommandViews()[i], start[i], Acknowledged)
  {
    SendAll(d, reference, start);
    AcknowledgeAll(d, reference, start);
  }
}
