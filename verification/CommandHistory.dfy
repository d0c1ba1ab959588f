/** A deployment in terms of its history: which accepted actions each part of a command comes from, when an action is
    accepted, and what compensation makes of the deployment (deployment/command_state.py). */
module CommandHistory {
  import opened Sequences
  import opened CommandState
  import opened DeploymentProperties

  // ----- the accepted actions -----

  ghost function Passed(d: Deployment, steps: seq<Step>): seq<Action> {
    if steps == [] then []
    else
      var n := |steps| - 1;
      Passed(d, steps[..n])
      + (if Refusal(Run(d, steps[..n]), steps[n].expectedVersion, steps[n].action).None? then [steps[n].action] else [])
  }

  /** The action names the k-th command: the first that bears the id. */
  ghost predicate Names(ids: seq<string>, a: Action, k: nat) {
    && !a.Compensate? && k < |ids| && ids[k] == a.commandId
    && (forall i :: 0 <= i < k ==> ids[i] != a.commandId)
  }

  // ----- what the last action of a kind left -----

  predicate SetsReference(a: Action) { a.MarkSent? || a.Acknowledge? || a.Retry? || a.AcknowledgeCompensation? }

  predicate SetsCode(a: Action) { a.Acknowledge? || a.Timeout? || a.Retry? }

  predicate SetsDetail(a: Action) { a.Acknowledge? || a.Retry? }

  ghost function LastNaming(ids: seq<string>, past: seq<Action>, k: nat, kind: Action -> bool): Option<Action> {
    if past == [] then None
    else
      var n := |past| - 1;
      if Names(ids, past[n], k) && kind(past[n]) then Some(past[n]) else LastNaming(ids, past[..n], k, kind)
  }

  ghost function ReferenceLeft(last: Option<Action>): Option<string> {
    match last
    case Some(MarkSent(_, reference)) => Some(reference)
    case Some(Acknowledge(_, _, reference, _, _)) => reference
    case Some(AcknowledgeCompensation(_, reference)) => Some(reference)
    case _ => None
  }

  ghost function CodeLeft(last: Option<Action>): Option<string> {
    match last
    case Some(Acknowledge(_, accepted, _, code, _)) =>
      if accepted then None
      else if code == None || code == Some("") then Some("SOURCE_SYSTEM_REJECTED")
      else code
    case Some(Timeout(_)) => Some("ACK_TIMEOUT")
    case _ => None
  }

  ghost function DetailLeft(last: Option<Action>): Option<string> {
    match last
    case Some(Acknowledge(_, accepted, _, _, detail)) => if accepted then None else detail
    case _ => None
  }

  /** The last action that moved the command: one that names it, or a compensation that found it acknowledged. */
  ghost function LastMove(ids: seq<string>, past: seq<Action>, k: nat): Option<Action> {
    if past == [] then None
    else
      var n := |past| - 1;
      var before := LastMove(ids, past[..n], k);
      if Names(ids, past[n], k) || (past[n].Compensate? && StatusLeft(before, true) == Acknowledged) then Some(past[n])
      else before
  }

  ghost function StatusLeft(last: Option<Action>, reversible: bool): CommandStatus {
    match last
    case None => Queued
    case Some(MarkSent(_, _)) => Sent
    case Some(Acknowledge(_, accepted, _, _, _)) => if accepted then Acknowledged else Rejected
    case Some(Timeout(_)) => TimedOut
    case Some(Retry(_)) => Queued
    case Some(Compensate) => if reversible then CompensationQueued else Irreversible
    case Some(AcknowledgeCompensation(_, _)) => Compensated
  }

  ghost function SendsTo(ids: seq<string>, k: nat): Action -> bool { (a: Action) => a.MarkSent? && Names(ids, a, k) }

  /** The command is what the accepted actions made of the resource. */
  ghost predicate RecallsCommand(ids: seq<string>, past: seq<Action>, k: nat, r: Resource, c: Command) {
    && c.commandId == r.commandId && c.required == r.required && c.reversible == r.reversible
    && c.status == StatusLeft(LastMove(ids, past, k), r.reversible)
    && c.attempts == |Filter(SendsTo(ids, k), past)|
    && c.adapterReference == ReferenceLeft(LastNaming(ids, past, k, SetsReference))
    && c.failureCode == CodeLeft(LastNaming(ids, past, k, SetsCode))
    && c.failureDetail == DetailLeft(LastNaming(ids, past, k, SetsDetail))
  }

  // ----- one more action -----

  lemma LastSnoc(ids: seq<string>, past: seq<Action>, a: Action, k: nat)
    ensures forall kind ::
      LastNaming(ids, past + [a], k, kind) == (if Names(ids, a, k) && kind(a) then Some(a) else LastNaming(ids, past, k, kind))
    ensures LastMove(ids, past + [a], k) ==
      if Names(ids, a, k) || (a.Compensate? && StatusLeft(LastMove(ids, past, k), true) == Acknowledged) then Some(a)
      else LastMove(ids, past, k)
    ensures |Filter(SendsTo(ids, k), past + [a])| == |Filter(SendsTo(ids, k), past)| + (if SendsTo(ids, k)(a) then 1 else 0)
  {
    assert (past + [a])[..|past|] == past;
    FilterSnoc(SendsTo(ids, k), past, a);
  }

  /** Nothing is reversible or not by its own status, unless a compensation left it. */
  lemma AcknowledgedEitherWay(last: Option<Action>, reversible: bool)
    ensures StatusLeft(last, reversible) == Acknowledged <==> StatusLeft(last, true) == Acknowledged
  {
  }

  /** An action that names another command, and is no compensation, leaves this one as it was. */
  lemma OthersStay(ids: seq<string>, past: seq<Action>, a: Action, k: nat, r: Resource, c: Command)
    requires RecallsCommand(ids, past, k, r, c) && !Names(ids, a, k) && !a.Compensate?
    ensures RecallsCommand(ids, past + [a], k, r, c)
  {
    LastSnoc(ids, past, a, k);
  }

  lemma UndoneRecalls(ids: seq<string>, past: seq<Action>, k: nat, r: Resource, c: Command)
    requires RecallsCommand(ids, past, k, r, c)
    ensures RecallsCommand(ids, past + [Compensate], k, r, AsUndone(c))
  {
    LastSnoc(ids, past, Compensate, k);
    AcknowledgedEitherWay(LastMove(ids, past, k), r.reversible);
  }

  ghost function NamedAfter(c: Command, a: Action): Command {
    match a
    case MarkSent(_, reference) => AsSent(c, reference)
    case Acknowledge(_, accepted, reference, code, detail) => AsAnswered(c, accepted, reference, code, detail)
    case Timeout(_) => AsTimedOut(c)
    case Retry(_) => AsRetried(c)
    case AcknowledgeCompensation(_, reference) => AsCompensated(c, reference)
    case Compensate => c
  }

  lemma NamedRecalls(ids: seq<string>, past: seq<Action>, a: Action, k: nat, r: Resource, c: Command)
    requires RecallsCommand(ids, past, k, r, c) && Names(ids, a, k)
    ensures RecallsCommand(ids, past + [a], k, r, NamedAfter(c, a))
  {
    LastSnoc(ids, past, a, k);
  }

  // ----- a whole deployment -----

  ghost function IdsOf(resources: seq<Resource>): seq<string> { seq(|resources|, i requires 0 <= i < |resources| => resources[i].commandId) }

  ghost predicate Recalls(resources: seq<Resource>, past: seq<Action>, d: Deployment) {
    && |d.commands| == |resources|
    && d.stateVersion == 1 + |past|
    && (forall k :: 0 <= k < |resources| ==> RecallsCommand(IdsOf(resources), past, k, resources[k], d.commands[k]))
  }

  lemma IndexIsNamed(resources: seq<Resource>, past: seq<Action>, d: Deployment, a: Action)
    requires Recalls(resources, past, d) && !a.Compensate?
    ensures forall k: nat :: Names(IdsOf(resources), a, k) <==> k < |d.commands| && k == IndexOf(d.commands, a.commandId)
  {
    assert forall i :: 0 <= i < |resources| ==> d.commands[i].commandId == IdsOf(resources)[i];
  }

  lemma AcceptedRecalls(resources: seq<Resource>, past: seq<Action>, d: Deployment, expectedVersion: int, a: Action)
    requires Recalls(resources, past, d) && Refusal(d, expectedVersion, a).None?
    ensures Recalls(resources, past + [a], After(d, expectedVersion, a))
  {
    var ids, next := IdsOf(resources), After(d, expectedVersion, a);
    if !a.Compensate? {
      IndexIsNamed(resources, past, d, a);
    }
    forall k | 0 <= k < |resources|
      ensures RecallsCommand(ids, past + [a], k, resources[k], next.commands[k])
    {
      if a.Compensate? {
        UndoneRecalls(ids, past, k, resources[k], d.commands[k]);
      } else if Names(ids, a, k) {
        NamedRecalls(ids, past, a, k, resources[k], d.commands[k]);
      } else {
        OthersStay(ids, past, a, k, resources[k], d.commands[k]);
      }
    }
  }

  /** In every run from creation each command is what the accepted actions made of it. */
  lemma {:induction false} RunRecalls(resources: seq<Resource>, steps: seq<Step>)
    ensures
      var start := Deployment(Fresh(resources), 1, DeploymentQueued);
      Recalls(resources, Passed(start, steps), Run(start, steps))
  {
    var start := Deployment(Fresh(resources), 1, DeploymentQueued);
    if steps != [] {
      var n := |steps| - 1;
      RunRecalls(resources, steps[..n]);
      var before, past := Run(start, steps[..n]), Passed(start, steps[..n]);
      if Refusal(before, steps[n].expectedVersion, steps[n].action).None? {
        AcceptedRecalls(resources, past, before, steps[n].expectedVersion, steps[n].action);
      } else {
        assert past + [] == past;
      }
    }
  }

  // ----- when an action is accepted -----

  /** The statuses from which a command can be sent, answered, timed out, retried, or confirmed as compensated. */
  ghost function StatusesFor(a: Action): set<CommandStatus> {
    match a
    case MarkSent(_, _) => {Queued}
    case Acknowledge(_, _, _, _, _) => {Sent}
    case Timeout(_) => {Sent}
    case Retry(_) => {Rejected, TimedOut}
    case AcknowledgeCompensation(_, _) => {CompensationQueued}
    case Compensate => {Acknowledged}
  }

  ghost predicate IsFirst(cs: seq<Command>, commandId: string, k: int) {
    && 0 <= k < |cs| && cs[k].commandId == commandId
    && (forall i :: 0 <= i < k ==> cs[i].commandId != commandId)
  }

  /** The caller has seen the current version, and a command is in the right status: some command for a compensation, the
      first with the id for anything else. */
  ghost predicate MayPass(d: Deployment, expectedVersion: int, a: Action) {
    && expectedVersion == d.stateVersion
    && exists k :: 0 <= k < |d.commands| && d.commands[k].status in StatusesFor(a)
         && (a.Compensate? || IsFirst(d.commands, a.commandId, k))
  }

  ghost function WrongStatus(a: Action): Conflict {
    match a
    case Compensate => CompensationNotRequired
    case Retry(_) => RetryNotAllowed
    case _ => InvalidTransition
  }

  lemma AcceptedIff(d: Deployment, expectedVersion: int, a: Action)
    ensures Refusal(d, expectedVersion, a).None? <==> MayPass(d, expectedVersion, a)
    ensures Refusal(d, expectedVersion, a) == Some(StaleState) <==> expectedVersion != d.stateVersion
    ensures Refusal(d, expectedVersion, a) == Some(CommandNotFound) <==>
      expectedVersion == d.stateVersion && !a.Compensate? && forall k :: !IsFirst(d.commands, a.commandId, k)
    ensures Refusal(d, expectedVersion, a).Some? ==>
      Refusal(d, expectedVersion, a).value in {StaleState, CommandNotFound, WrongStatus(a)}
  {
    if a.Compensate? {
      if AnyAcknowledged(d.commands) {
        var c :| c in d.commands && c.status == Acknowledged;
        var k :| 0 <= k < |d.commands| && d.commands[k] == c;
        assert d.commands[k].status in StatusesFor(a);
      }
    } else {
      var k := IndexOf(d.commands, a.commandId);
      if k < |d.commands| {
        assert IsFirst(d.commands, a.commandId, k);
      }
    }
  }

  // ----- what compensation makes of the deployment -----

  ghost predicate CannotBeUndone(c: Command) { c.status == Acknowledged && !c.reversible }

  /** Compensation asks for a new recovery exactly if something acknowledged cannot be undone; the last confirmation ends
      it, exactly when every command is compensated or failed; a retry queues the deployment again. */
  lemma CompensationMeans(d: Deployment, expectedVersion: int, a: Action)
    requires Refusal(d, expectedVersion, a).None?
    ensures
      var after := After(d, expectedVersion, a);
      && (a.Compensate? ==>
            after.status == if exists c :: c in d.commands && CannotBeUndone(c) then RequiresNewRecovery else Compensating)
      && (a.AcknowledgeCompensation? ==>
            after.status ==
              if forall c :: c in after.commands ==> c.status in {Compensated, Rejected, TimedOut} then DeploymentCompensated
              else d.status)
      && (a.Retry? ==> after.status == DeploymentQueued)
  {
    if AnyIrrevocable(d.commands) {
      var c :| c in d.commands && c.status == Acknowledged && !c.reversible;
      assert CannotBeUndone(c);
    }
  }

  ghost predicate CallsForNothing(cs: seq<Command>) {
    !SomeRequiredIn(cs, {Sent, Rejected, TimedOut})
    && (AnyRequired(cs) ==> !AllRequiredIn(cs, {Acknowledged}) && !AllRequiredIn(cs, {Compensated}))
  }

  /** A report leaves the status the required commands call for: publishing while nothing failed and something is out;
      otherwise, if they call for nothing, as it was. */
  lemma ReportMeans(d: Deployment, expectedVersion: int, a: Action)
    requires DeploymentInv(d) && IsReport(a) && Refusal(d, expectedVersion, a).None?
    ensures
      var cs, status := After(d, expectedVersion, a).commands, After(d, expectedVersion, a).status;
      && (SomeRequiredIn(cs, {Sent}) && !SomeRequiredIn(cs, {Rejected, TimedOut}) ==> status == Publishing)
      && (CallsForNothing(cs) ==> status == d.status)
  {
    var cs := After(d, expectedVersion, a).commands;
    if SomeRequiredIn(cs, {Sent}) {
      var c :| c in cs && c.required && c.status in {Sent};
    } else if SomeRequiredIn(cs, {Rejected, TimedOut}) {
      var c :| c in cs && c.required && c.status in {Rejected, TimedOut};
      assert c.status in {Sent, Rejected, TimedOut};
    }
    if !SomeRequiredIn(cs, {Sent, Rejected, TimedOut}) {
      assert forall c :: c in cs && c.required ==> c.status !in {Sent, Rejected, TimedOut};
    }
  }
}
