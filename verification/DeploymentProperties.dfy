/** What a deployment's status means in every reachable state (deployment/command_state.py). */
module DeploymentProperties {
  import opened Sequences
  import opened CommandState

  datatype Step = Step(expectedVersion: int, action: Action)

  function Run(d: Deployment, steps: seq<Step>): Deployment {
    if steps == [] then d
    else
      var s := steps[|steps| - 1];
      After(Run(d, steps[..|steps| - 1]), s.expectedVersion, s.action)
  }

  /** The steps of a run that were accepted. */
  function Accepted(d: Deployment, steps: seq<Step>): nat {
    if steps == [] then 0
    else
      var s := steps[|steps| - 1];
      var before := Run(d, steps[..|steps| - 1]);
      Accepted(d, steps[..|steps| - 1]) + (if Refusal(before, s.expectedVersion, s.action).None? then 1 else 0)
  }

  /** A failure code is on file exactly while the command is rejected or timed out. */
  ghost predicate CodesFit(cs: seq<Command>) {
    forall c :: c in cs ==> (c.failureCode.Some? <==> c.status in TERMINAL_FAILURES)
  }

  ghost predicate StatusMeans(cs: seq<Command>, status: DeploymentStatus) {
    && (status == Complete ==> AnyRequired(cs) && AllRequiredIn(cs, {Acknowledged}))
    && (status == Partial ==> SomeRequiredIn(cs, TERMINAL_FAILURES) && SomeRequiredIn(cs, {Acknowledged}))
    && (status == Failed ==> SomeRequiredIn(cs, TERMINAL_FAILURES) && !SomeRequiredIn(cs, {Acknowledged}))
    && (status == DeploymentCompensated ==> AllRequiredIn(cs, SETTLED_BACK))
  }

  ghost predicate DeploymentInv(d: Deployment) {
    CodesFit(d.commands) && StatusMeans(d.commands, d.status)
  }

  // ----- one step -----

  /** Replacing one command by a version of itself moves only that command's status. */
  ghost predicate OneMoved(cs: seq<Command>, next: seq<Command>, k: int) {
    && |next| == |cs| && 0 <= k < |cs|
    && next == cs[k := next[k]]
    && next[k].required == cs[k].required
  }

  lemma MovedMembers(cs: seq<Command>, next: seq<Command>, k: int)
    requires OneMoved(cs, next, k)
    ensures forall c :: c in next ==> c in cs || c == next[k]
    ensures forall c :: c in cs ==> c in next || c == cs[k]
  {
    forall c | c in next
      ensures c in cs || c == next[k]
    {
      var i :| 0 <= i < |next| && next[i] == c;
      if i != k {
        assert cs[i] == c;
      }
    }
    forall c | c in cs
      ensures c in next || c == cs[k]
    {
      var i :| 0 <= i < |cs| && cs[i] == c;
      if i != k {
        assert next[i] == c;
      }
    }
  }

  /** A command leaves a status set for the better only if it was in it, so the other commands decide. */
  lemma SomeSurvives(cs: seq<Command>, next: seq<Command>, k: int, statuses: set<CommandStatus>)
    requires OneMoved(cs, next, k) && SomeRequiredIn(cs, statuses) && cs[k].status !in statuses
    ensures SomeRequiredIn(next, statuses)
  {
    MovedMembers(cs, next, k);
    var c :| c in cs && c.required && c.status in statuses;
    assert c in next;
  }

  /** The status a send, an answer or a timeout leaves is exact. */
  ghost predicate StatusIsExact(cs: seq<Command>, status: DeploymentStatus) {
    && (status == Complete <==> AnyRequired(cs) && AllRequiredIn(cs, {Acknowledged}))
    && (status == Partial <==> SomeRequiredIn(cs, TERMINAL_FAILURES) && SomeRequiredIn(cs, {Acknowledged}))
    && (status == Failed <==> SomeRequiredIn(cs, TERMINAL_FAILURES) && !SomeRequiredIn(cs, {Acknowledged}))
    && (status == DeploymentCompensated ==> AllRequiredIn(cs, SETTLED_BACK))
  }

  lemma AcknowledgedExcludesFailure(cs: seq<Command>)
    ensures AllRequiredIn(cs, {Acknowledged}) ==> !SomeRequiredIn(cs, TERMINAL_FAILURES)
    ensures AnyRequired(cs) && AllRequiredIn(cs, {Acknowledged}) ==> SomeRequiredIn(cs, {Acknowledged})
    ensures AllRequiredIn(cs, {Compensated}) ==> AllRequiredIn(cs, SETTLED_BACK)
  {
    if AnyRequired(cs) && AllRequiredIn(cs, {Acknowledged}) {
      var c :| c in cs && c.required;
      assert c.status == Acknowledged;
    }
  }

  /** Recomputing after one command in a set outside the failures moved is exact: stale statuses cannot survive. */
  lemma RecomputeIsExact(cs: seq<Command>, next: seq<Command>, k: int, status: DeploymentStatus)
    requires StatusMeans(cs, status) && OneMoved(cs, next, k)
    requires cs[k].status in {Queued, Sent}
    ensures StatusIsExact(next, Recomputed(next, status))
  {
    AcknowledgedExcludesFailure(next);
    MovedMembers(cs, next, k);
    if status == Complete {
      CompleteStaysAcknowledged(cs, next, k);
    } else if status == Partial || status == Failed {
      SomeSurvives(cs, next, k, TERMINAL_FAILURES);
    } else if status == DeploymentCompensated {
      CompensatedStays(cs, next, k);
    }
  }

  lemma CompleteStaysAcknowledged(cs: seq<Command>, next: seq<Command>, k: int)
    requires OneMoved(cs, next, k) && cs[k].status in {Queued, Sent}
    requires AnyRequired(cs) && AllRequiredIn(cs, {Acknowledged})
    ensures AnyRequired(next) && AllRequiredIn(next, {Acknowledged})
  {
    MovedMembers(cs, next, k);
    assert cs[k] in cs;
    var c :| c in cs && c.required;
    assert c in next;
  }

  lemma CompensatedStays(cs: seq<Command>, next: seq<Command>, k: int)
    requires OneMoved(cs, next, k) && cs[k].status in {Queued, Sent}
    requires AllRequiredIn(cs, SETTLED_BACK)
    ensures AllRequiredIn(next, SETTLED_BACK)
  {
    MovedMembers(cs, next, k);
    assert cs[k] in cs;
  }

  predicate IsReport(a: Action) { a.MarkSent? || a.Acknowledge? || a.Timeout? }

  lemma ActionMovesOne(d: Deployment, expectedVersion: int, a: Action)
    requires Refusal(d, expectedVersion, a).None? && !a.Compensate?
    ensures OneMoved(d.commands, NewCommands(d, a), IndexOf(d.commands, a.commandId))
    ensures
      var status := d.commands[IndexOf(d.commands, a.commandId)].status;
      if IsReport(a) then status in {Queued, Sent}
      else if a.Retry? then status in TERMINAL_FAILURES
      else status == CompensationQueued
  {
  }

  /** After an accepted send, answer or timeout, complete, partial and failed hold exactly when they should. */
  lemma ReportsAreExact(d: Deployment, expectedVersion: int, a: Action)
    requires DeploymentInv(d) && IsReport(a) && Refusal(d, expectedVersion, a).None?
    ensures StatusIsExact(After(d, expectedVersion, a).commands, After(d, expectedVersion, a).status)
  {
    ActionMovesOne(d, expectedVersion, a);
    RecomputeIsExact(d.commands, NewCommands(d, a), IndexOf(d.commands, a.commandId), d.status);
  }

  /** A retry of a complete deployment leaves it queued with all required commands still acknowledged. */
  lemma RetryHidesCompletion(d: Deployment, expectedVersion: int, commandId: string)
    requires DeploymentInv(d) && d.status == Complete && Refusal(d, expectedVersion, Retry(commandId)).None?
    ensures
      var after := After(d, expectedVersion, Retry(commandId));
      after.status == DeploymentQueued && AnyRequired(after.commands) && AllRequiredIn(after.commands, {Acknowledged})
  {
    var a := Retry(commandId);
    var k := IndexOf(d.commands, commandId);
    ActionMovesOne(d, expectedVersion, a);
    MovedMembers(d.commands, NewCommands(d, a), k);
    assert d.commands[k] in d.commands;
    var c :| c in d.commands && c.required;
    assert c in NewCommands(d, a);
  }

  /** The status says complete exactly when some command is required and all required ones are acknowledged. */
  ghost predicate CompleteIsExact(d: Deployment) {
    d.status == Complete <==> AnyRequired(d.commands) && AllRequiredIn(d.commands, {Acknowledged})
  }

  lemma RetryKeepsExactIff(d: Deployment, expectedVersion: int, commandId: string)
    requires DeploymentInv(d) && CompleteIsExact(d) && Refusal(d, expectedVersion, Retry(commandId)).None?
    ensures CompleteIsExact(After(d, expectedVersion, Retry(commandId))) <==> d.status != Complete
  {
    var a := Retry(commandId);
    var k := IndexOf(d.commands, commandId);
    ActionMovesOne(d, expectedVersion, a);
    MovedMembers(d.commands, NewCommands(d, a), k);
    if d.status == Complete {
      RetryHidesCompletion(d, expectedVersion, commandId);
    } else {
      RetriedIsIncomplete(d, NewCommands(d, a), k);
    }
  }

  lemma RetriedIsIncomplete(d: Deployment, next: seq<Command>, k: int)
    requires OneMoved(d.commands, next, k) && next[k].status == Queued
    requires !(AnyRequired(d.commands) && AllRequiredIn(d.commands, {Acknowledged}))
    ensures !(AnyRequired(next) && AllRequiredIn(next, {Acknowledged})) || !d.commands[k].required
    ensures !d.commands[k].required ==> !(AnyRequired(next) && AllRequiredIn(next, {Acknowledged}))
  {
    MovedMembers(d.commands, next, k);
    assert next[k] in next;
  }

  lemma CompensationKeepsExact(d: Deployment, expectedVersion: int, a: Action)
    requires DeploymentInv(d) && CompleteIsExact(d) && Refusal(d, expectedVersion, a).None?
    requires a.AcknowledgeCompensation?
    ensures CompleteIsExact(After(d, expectedVersion, a))
  {
    var k := IndexOf(d.commands, a.commandId);
    ActionMovesOne(d, expectedVersion, a);
    MovedMembers(d.commands, NewCommands(d, a), k);
    assert d.commands[k] in d.commands && NewCommands(d, a)[k] in NewCommands(d, a);
    if AnyRequired(d.commands) && !d.commands[k].required {
      var c :| c in d.commands && c.required;
      assert c in NewCommands(d, a);
    }
    AllSettledIsNotAcknowledged(NewCommands(d, a));
  }

  lemma AllSettledIsNotAcknowledged(cs: seq<Command>)
    ensures AllSettledBack(cs) ==> !(AnyRequired(cs) && AllRequiredIn(cs, {Acknowledged}))
  {
  }

  lemma CompensateKeepsExact(d: Deployment, expectedVersion: int)
    requires Refusal(d, expectedVersion, Compensate).None?
    ensures CompleteIsExact(After(d, expectedVersion, Compensate))
  {
    var next := AllUndone(d.commands);
    forall c | c in next
      ensures c.status != Acknowledged
    {
      var i :| 0 <= i < |next| && next[i] == c;
    }
  }

  /** Of all accepted actions only the retry of a complete deployment makes the status and the commands disagree. */
  lemma CompleteStaysExactIff(d: Deployment, expectedVersion: int, a: Action)
    requires DeploymentInv(d) && CompleteIsExact(d) && Refusal(d, expectedVersion, a).None?
    ensures CompleteIsExact(After(d, expectedVersion, a)) <==> !(a.Retry? && d.status == Complete)
  {
    if IsReport(a) {
      ReportsAreExact(d, expectedVersion, a);
    } else if a.Retry? {
      RetryKeepsExactIff(d, expectedVersion, a.commandId);
    } else if a.Compensate? {
      CompensateKeepsExact(d, expectedVersion);
    } else {
      CompensationKeepsExact(d, expectedVersion, a);
    }
  }

  lemma StepKeepsCodes(d: Deployment, expectedVersion: int, a: Action)
    requires CodesFit(d.commands)
    ensures CodesFit(After(d, expectedVersion, a).commands)
  {
    if Refusal(d, expectedVersion, a).None? {
      var next := NewCommands(d, a);
      if a.Compensate? {
        forall c | c in next
          ensures c.failureCode.Some? <==> c.status in TERMINAL_FAILURES
        {
          var i :| 0 <= i < |next| && next[i] == c;
          assert d.commands[i] in d.commands;
        }
      } else {
        var k := IndexOf(d.commands, a.commandId);
        ActionMovesOne(d, expectedVersion, a);
        MovedMembers(d.commands, next, k);
        assert d.commands[k] in d.commands;
      }
    }
  }

  lemma CompensationKeepsMeaning(d: Deployment, expectedVersion: int, a: Action)
    requires StatusMeans(d.commands, d.status) && a.AcknowledgeCompensation? && Refusal(d, expectedVersion, a).None?
    ensures StatusMeans(After(d, expectedVersion, a).commands, After(d, expectedVersion, a).status)
  {
    var cs, next, k := d.commands, NewCommands(d, a), IndexOf(d.commands, a.commandId);
    ActionMovesOne(d, expectedVersion, a);
    MovedMembers(cs, next, k);
    assert cs[k] in cs;
    if d.status == Complete {
      assert AnyRequired(next) by {
        var c :| c in cs && c.required;
        assert c in next;
      }
    } else if d.status == Partial {
      SomeSurvives(cs, next, k, TERMINAL_FAILURES);
      SomeSurvives(cs, next, k, {Acknowledged});
    } else if d.status == Failed {
      SomeSurvives(cs, next, k, TERMINAL_FAILURES);
    }
  }

  lemma StepKeepsInv(d: Deployment, expectedVersion: int, a: Action)
    requires DeploymentInv(d)
    ensures DeploymentInv(After(d, expectedVersion, a))
  {
    StepKeepsCodes(d, expectedVersion, a);
    if Refusal(d, expectedVersion, a).None? {
      if IsReport(a) {
        ReportsAreExact(d, expectedVersion, a);
      } else if a.AcknowledgeCompensation? {
        CompensationKeepsMeaning(d, expectedVersion, a);
      }
    }
  }

  // ----- whole runs -----

  lemma FreshInv(resources: seq<Resource>)
    ensures DeploymentInv(Deployment(Fresh(resources), 1, DeploymentQueued))
  {
  }

  /** In every reachable state the status means what it says, and the version counts the accepted steps. */
  lemma {:induction false} RunKeepsInv(d: Deployment, steps: seq<Step>)
    requires DeploymentInv(d)
    ensures DeploymentInv(Run(d, steps))
    ensures Run(d, steps).stateVersion == d.stateVersion + Accepted(d, steps)
  {
    if steps != [] {
      var s := steps[|steps| - 1];
      RunKeepsInv(d, steps[..|steps| - 1]);
      StepKeepsInv(Run(d, steps[..|steps| - 1]), s.expectedVersion, s.action);
    }
  }

  lemma StepKeepsIrreversible(d: Deployment, expectedVersion: int, a: Action, i: nat)
    requires i < |d.commands| && d.commands[i].status == Irreversible
    ensures |After(d, expectedVersion, a).commands| == |d.commands|
    ensures After(d, expectedVersion, a).commands[i].status == Irreversible
    ensures After(d, expectedVersion, a).commands[i].required == d.commands[i].required
  {
    if Refusal(d, expectedVersion, a).None? && !a.Compensate? {
      ActionMovesOne(d, expectedVersion, a);
    }
  }

  /** Once a required command is irreversible the deployment is never again complete or compensated. */
  lemma {:induction false} IrreversibleIsForever(d: Deployment, steps: seq<Step>, i: nat)
    requires DeploymentInv(d) && i < |d.commands| && d.commands[i].required && d.commands[i].status == Irreversible
    ensures |Run(d, steps).commands| == |d.commands|
    ensures Run(d, steps).commands[i].status == Irreversible && Run(d, steps).commands[i].required
    ensures Run(d, steps).status != Complete && Run(d, steps).status != DeploymentCompensated
  {
    RunKeepsInv(d, steps);
    if steps != [] {
      var s := steps[|steps| - 1];
      IrreversibleIsForever(d, steps[..|steps| - 1], i);
      StepKeepsIrreversible(Run(d, steps[..|steps| - 1]), s.expectedVersion, s.action, i);
    }
    assert Run(d, steps).commands[i] in Run(d, steps).commands;
  }

  lemma {:induction false} RequiredNeverChanges(d: Deployment, steps: seq<Step>)
    ensures |Run(d, steps).commands| == |d.commands|
    ensures forall i :: 0 <= i < |d.commands| ==> Run(d, steps).commands[i].required == d.commands[i].required
  {
    if steps != [] {
      var before := Run(d, steps[..|steps| - 1]);
      var s := steps[|steps| - 1];
      RequiredNeverChanges(d, steps[..|steps| - 1]);
      if Refusal(before, s.expectedVersion, s.action).None? && !s.action.Compensate? {
        ActionMovesOne(before, s.expectedVersion, s.action);
      }
    }
  }

  /** A deployment of optional commands only is never complete, partial or failed. */
  lemma OptionalOnlyNeverCompletes(d: Deployment, steps: seq<Step>)
    requires DeploymentInv(d) && !AnyRequired(d.commands)
    ensures Run(d, steps).status !in {Complete, Partial, Failed}
  {
    RunKeepsInv(d, steps);
    RequiredNeverChanges(d, steps);
    var cs := Run(d, steps).commands;
    forall c | c in cs
      ensures !c.required
    {
      var i :| 0 <= i < |cs| && cs[i] == c;
      assert d.commands[i] in d.commands;
    }
  }

  // ----- a run that hides a completion -----

  /** One required command is acknowledged, an optional one rejected, and then the optional one is retried. */
  function HidingRun(): seq<Step> {
    [Step(1, MarkSent("A", "r")), Step(2, MarkSent("B", "r")), Step(3, Acknowledge("A", true, Some("r"), None, None)),
     Step(4, Acknowledge("B", false, Some("r"), None, None)), Step(5, Retry("B"))]
  }

  function Example(id: string, required: bool, status: CommandStatus): Command {
    Command(id, required, true, status, if status == Queued then 0 else 1, if status == Queued then None else Some("r"),
            if status == Rejected then Some("SOURCE_SYSTEM_REJECTED") else None, None)
  }

  /** A required command A and an optional command B. */
  function Pair(a: CommandStatus, b: CommandStatus): seq<Command> { [Example("A", true, a), Example("B", false, b)] }

  lemma PairIndex(a: CommandStatus, b: CommandStatus)
    ensures IndexOf(Pair(a, b), "A") == 0 && IndexOf(Pair(a, b), "B") == 1
  {
  }

  /** Only the required command counts. */
  lemma PairIn(a: CommandStatus, b: CommandStatus, statuses: set<CommandStatus>)
    ensures AnyRequired(Pair(a, b))
    ensures AllRequiredIn(Pair(a, b), statuses) <==> a in statuses
    ensures SomeRequiredIn(Pair(a, b), statuses) <==> a in statuses
  {
    var cs := Pair(a, b);
    assert cs[0] in cs && cs[0].required;
  }

  /** The status recomputed from such a pair. */
  function PairStatus(a: CommandStatus, status: DeploymentStatus): DeploymentStatus {
    match a
    case Acknowledged => Complete
    case Rejected => Failed
    case TimedOut => Failed
    case Sent => Publishing
    case Compensated => DeploymentCompensated
    case _ => status
  }

  /** What recomputing makes of six facts about the required commands. */
  lemma RecomputedFromFacts(cs: seq<Command>, a: CommandStatus, status: DeploymentStatus)
    requires AnyRequired(cs)
    requires AllRequiredIn(cs, {Acknowledged}) <==> a == Acknowledged
    requires SomeRequiredIn(cs, TERMINAL_FAILURES) <==> a == Rejected || a == TimedOut
    requires SomeRequiredIn(cs, {Acknowledged}) <==> a == Acknowledged
    requires SomeRequiredIn(cs, {Sent}) <==> a == Sent
    requires AllRequiredIn(cs, {Compensated}) <==> a == Compensated
    ensures Recomputed(cs, status) == PairStatus(a, status)
  {
  }

  lemma PairRecomputed(a: CommandStatus, b: CommandStatus, status: DeploymentStatus)
    ensures Recomputed(Pair(a, b), status) == PairStatus(a, status)
  {
    PairIn(a, b, {Acknowledged});
    PairIn(a, b, TERMINAL_FAILURES);
    PairIn(a, b, {Sent});
    PairIn(a, b, {Compensated});
    RecomputedFromFacts(Pair(a, b), a, status);
  }

  lemma ReportStep(d: Deployment, a: Action, next: seq<Command>)
    requires IsReport(a) && Refusal(d, d.stateVersion, a).None? && NewCommands(d, a) == next
    ensures After(d, d.stateVersion, a) == Deployment(next, d.stateVersion + 1, Recomputed(next, d.status))
  {
  }

  lemma SendPair(a: CommandStatus, b: CommandStatus, version: int, status: DeploymentStatus, id: string)
    requires (id == "A" && a == Queued) || (id == "B" && b == Queued)
    ensures
      var d := Deployment(Pair(a, b), version, status);
      && Refusal(d, version, MarkSent(id, "r")) == None
      && IndexOf(d.commands, id) < 2
      && NewCommands(d, MarkSent(id, "r")) == if id == "A" then Pair(Sent, b) else Pair(a, Sent)
  {
    PairIndex(a, b);
  }

  lemma AnswerPair(a: CommandStatus, b: CommandStatus, version: int, status: DeploymentStatus, id: string, accepted: bool)
    requires (id == "A" && a == Sent) || (id == "B" && b == Sent)
    ensures
      var d := Deployment(Pair(a, b), version, status);
      var action := Acknowledge(id, accepted, Some("r"), None, None);
      var answered := if accepted then Acknowledged else Rejected;
      && Refusal(d, version, action) == None
      && IndexOf(d.commands, id) < 2
      && NewCommands(d, action) == if id == "A" then Pair(answered, b) else Pair(a, answered)
  {
    PairIndex(a, b);
  }

  lemma SendStep(a: CommandStatus, b: CommandStatus, version: int, status: DeploymentStatus, id: string, x: CommandStatus, y: CommandStatus)
    requires (id == "A" && a == Queued && x == Sent && y == b) || (id == "B" && b == Queued && x == a && y == Sent)
    ensures After(Deployment(Pair(a, b), version, status), version, MarkSent(id, "r"))
      == Deployment(Pair(x, y), version + 1, PairStatus(x, status))
  {
    SendPair(a, b, version, status, id);
    ReportStep(Deployment(Pair(a, b), version, status), MarkSent(id, "r"), Pair(x, y));
    PairRecomputed(x, y, status);
  }

  lemma AnswerStep(a: CommandStatus, b: CommandStatus, version: int, status: DeploymentStatus, id: string, accepted: bool,
                   x: CommandStatus, y: CommandStatus)
    requires
      var answered := if accepted then Acknowledged else Rejected;
      (id == "A" && a == Sent && x == answered && y == b) || (id == "B" && b == Sent && x == a && y == answered)
    ensures After(Deployment(Pair(a, b), version, status), version, Acknowledge(id, accepted, Some("r"), None, None))
      == Deployment(Pair(x, y), version + 1, PairStatus(x, status))
  {
    AnswerPair(a, b, version, status, id, accepted);
    ReportStep(Deployment(Pair(a, b), version, status), Acknowledge(id, accepted, Some("r"), None, None), Pair(x, y));
    PairRecomputed(x, y, status);
  }

  lemma RunNext(start: Deployment, steps: seq<Step>, n: nat, before: Deployment, after: Deployment)
    requires n < |steps| && Run(start, steps[..n]) == before
    requires After(before, steps[n].expectedVersion, steps[n].action) == after
    ensures Run(start, steps[..n + 1]) == after
  {
    assert steps[..n + 1][..n] == steps[..n];
  }

  lemma RunTwoMore(start: Deployment, steps: seq<Step>, n: nat, before: Deployment, between: Deployment, after: Deployment)
    requires n + 1 < |steps| && Run(start, steps[..n]) == before
    requires After(before, steps[n].expectedVersion, steps[n].action) == between
    requires After(between, steps[n + 1].expectedVersion, steps[n + 1].action) == after
    ensures Run(start, steps[..n + 2]) == after
  {
    RunNext(start, steps, n, before, between);
    RunNext(start, steps, n + 1, between, after);
  }

  lemma FreshPairOfTwo()
    ensures Fresh([Resource("A", true, true), Resource("B", false, true)]) == Pair(Queued, Queued)
  {
  }

  lemma BothAreSent(start: Deployment, steps: seq<Step>, n: nat)
    requires |steps| >= n + 2 && Run(start, steps[..n]) == Deployment(Pair(Queued, Queued), 1, DeploymentQueued)
    requires steps[n] == Step(1, MarkSent("A", "r")) && steps[n + 1] == Step(2, MarkSent("B", "r"))
    ensures Run(start, steps[..n + 2]) == Deployment(Pair(Sent, Sent), 3, Publishing)
  {
    var d0 := Deployment(Pair(Queued, Queued), 1, DeploymentQueued);
    var d1 := Deployment(Pair(Sent, Queued), 2, Publishing);
    SendStep(Queued, Queued, 1, DeploymentQueued, "A", Sent, Queued);
    SendStep(Sent, Queued, 2, Publishing, "B", Sent, Sent);
    RunTwoMore(start, steps, n, d0, d1, Deployment(Pair(Sent, Sent), 3, Publishing));
  }

  lemma BothAreAnswered(start: Deployment, steps: seq<Step>)
    requires |steps| >= 4 && Run(start, steps[..2]) == Deployment(Pair(Sent, Sent), 3, Publishing)
    requires steps[2] == Step(3, Acknowledge("A", true, Some("r"), None, None))
    requires steps[3] == Step(4, Acknowledge("B", false, Some("r"), None, None))
    ensures Run(start, steps[..4]) == Deployment(Pair(Acknowledged, Rejected), 5, Complete)
  {
    var d2 := Deployment(Pair(Sent, Sent), 3, Publishing);
    var d3 := Deployment(Pair(Acknowledged, Sent), 4, Complete);
    AnswerStep(Sent, Sent, 3, Publishing, "A", true, Acknowledged, Sent);
    AnswerStep(Acknowledged, Sent, 4, Complete, "B", false, Acknowledged, Rejected);
    RunTwoMore(start, steps, 2, d2, d3, Deployment(Pair(Acknowledged, Rejected), 5, Complete));
  }

  /** The run up to the retry, state by state. */
  lemma CompletionIsReached()
    ensures Run(Deployment(Pair(Queued, Queued), 1, DeploymentQueued), HidingRun()[..4])
      == Deployment(Pair(Acknowledged, Rejected), 5, Complete)
  {
    var start := Deployment(Pair(Queued, Queued), 1, DeploymentQueued);
    assert HidingRun()[..0] == [];
    BothAreSent(start, HidingRun(), 0);
    BothAreAnswered(start, HidingRun());
  }

  /** From a fresh deployment a completion is reached and then hidden. */
  lemma CompletionCanBeHidden()
    ensures
      var start := Deployment(Fresh([Resource("A", true, true), Resource("B", false, true)]), 1, DeploymentQueued);
      && Run(start, HidingRun()[..4]).status == Complete
      && !CompleteIsExact(Run(start, HidingRun()))
  {
    FreshPairOfTwo();
    var start := Deployment(Pair(Queued, Queued), 1, DeploymentQueued);
    FreshInv([Resource("A", true, true), Resource("B", false, true)]);
    CompletionIsReached();
    RunKeepsInv(start, HidingRun()[..4]);
    var d := Deployment(Pair(Acknowledged, Rejected), 5, Complete);
    PairIndex(Acknowledged, Rejected);
    PairIn(Acknowledged, Rejected, {Acknowledged});
    assert Pair(Acknowledged, Rejected)[1].status == Rejected;
    CompleteStaysExactIff(d, 5, Retry("B"));
    assert HidingRun()[..|HidingRun()| - 1] == HidingRun()[..4];
  }
}
