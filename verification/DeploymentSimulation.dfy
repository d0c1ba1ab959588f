/** The in-memory and the durable deployment machine, step by step beside each other. */
module DeploymentSimulation {
  import opened Sequences
  import opened CommandState
  import opened DeploymentProperties
  import opened DeploymentRepository

  function Matching(s: RowStatus): CommandStatus {
    match s
    case RowQueued => Queued
    case RowPublished => Sent
    case RowAcknowledged => Acknowledged
    case RowRejected => Rejected
    case RowTimedOut => TimedOut
  }

  /** What the durable machine's argument checks let through. An acknowledgement may carry a failure code. */
  predicate WellFormed(r: Report) {
    match r.target
    case RowQueued => false
    case RowPublished => r.reference.Some? && r.reference.value != "" && r.worker.Some? && r.failureCode == None
    case RowAcknowledged => r.reference.Some? && r.reference.value != ""
    case RowRejected => r.failureCode.Some? && r.failureCode.value != ""
    case RowTimedOut => r == TimeoutReport(r.commandId)
  }

  /** The same report, made to the in-memory machine. */
  function ActionOf(r: Report): Action
    requires WellFormed(r)
  {
    var reference := if r.reference.Some? then r.reference.value else "";
    if r.target == RowPublished then MarkSent(r.commandId, reference)
    else if r.target == RowTimedOut then CommandState.Timeout(r.commandId)
    else CommandState.Acknowledge(r.commandId, r.target == RowAcknowledged, r.reference, r.failureCode, r.failureDetail)
  }

  ghost predicate SameCommand(c: Command, row: Row) {
    && c.commandId == row.commandId && c.required == row.required
    && c.status == Matching(row.status) && c.attempts == row.attempts
    && (row.status != RowAcknowledged ==> c.failureCode == row.failureCode)
    && ReferencesFit(c.adapterReference, row.reference, row.status)
  }

  /** The references are the same, except that a timeout leaves the one in memory and clears the row's. */
  predicate ReferencesFit(inMemory: Option<string>, stored: Option<string>, status: RowStatus) {
    match status
    case RowQueued => inMemory == None && stored == None
    case RowPublished => inMemory == stored && stored.Some?
    case RowTimedOut => inMemory.Some? && stored.None?
    case _ => inMemory == stored
  }

  /** Same commands, statuses, attempts and version, failure codes and references that fit. */
  ghost predicate SameState(d: Deployment, p: Projection) {
    && |d.commands| == |p.rows|
    && (forall i :: 0 <= i < |p.rows| ==> SameCommand(d.commands[i], p.rows[i]))
    && d.stateVersion == p.stateVersion
    && CodesFit(d.commands)
  }

  // ----- the counts and the predicates -----

  /** The status the required commands call for, leaving out how it was reached. */
  function CalledFor(cs: seq<Command>): DeploymentStatus {
    if AnyRequired(cs) && AllRequiredIn(cs, {Acknowledged}) then Complete
    else if SomeRequiredIn(cs, TERMINAL_FAILURES) then
      if SomeRequiredIn(cs, {Acknowledged}) then Partial else Failed
    else Publishing
  }

  lemma EmptyFilter<T>(p: T -> bool, xs: seq<T>)
    ensures |Filter(p, xs)| > 0 <==> exists x :: x in xs && p(x)
  {
    if |Filter(p, xs)| > 0 {
      FilterMembers(p, xs, Filter(p, xs)[0]);
    }
    if x :| x in xs && p(x) {
      FilterMembers(p, xs, x);
    }
  }

  ghost predicate SameRows(cs: seq<Command>, rows: seq<Row>) {
    |cs| == |rows| && forall i :: 0 <= i < |rows| ==> SameCommand(cs[i], rows[i])
  }

  lemma RowsShowRequired(cs: seq<Command>, rows: seq<Row>)
    requires SameRows(cs, rows)
    ensures AnyRequired(cs) <==> exists r :: r in rows && IsRequired(r)
  {
    if AnyRequired(cs) {
      var i :| 0 <= i < |cs| && cs[i].required;
      assert rows[i] in rows && IsRequired(rows[i]);
    }
    if exists r :: r in rows && IsRequired(r) {
      var i :| 0 <= i < |rows| && IsRequired(rows[i]);
      assert cs[i] in cs;
    }
  }

  lemma RowsShowFailure(cs: seq<Command>, rows: seq<Row>)
    requires SameRows(cs, rows)
    ensures SomeRequiredIn(cs, TERMINAL_FAILURES) <==> exists r :: r in rows && HasFailed(r)
  {
    if SomeRequiredIn(cs, TERMINAL_FAILURES) {
      var i :| 0 <= i < |cs| && cs[i].required && cs[i].status in TERMINAL_FAILURES;
      assert rows[i] in rows && HasFailed(rows[i]);
    }
    if exists r :: r in rows && HasFailed(r) {
      var i :| 0 <= i < |rows| && HasFailed(rows[i]);
      assert cs[i] in cs;
    }
  }

  lemma RowsShowDone(cs: seq<Command>, rows: seq<Row>)
    requires SameRows(cs, rows)
    ensures SomeRequiredIn(cs, {Acknowledged}) <==> exists r :: r in rows && IsDone(r)
  {
    if SomeRequiredIn(cs, {Acknowledged}) {
      var i :| 0 <= i < |cs| && cs[i].required && cs[i].status == Acknowledged;
      assert rows[i] in rows && IsDone(rows[i]);
    }
    if exists r :: r in rows && IsDone(r) {
      var i :| 0 <= i < |rows| && IsDone(rows[i]);
      assert cs[i] in cs;
    }
  }

  lemma RowsShowAllDone(cs: seq<Command>, rows: seq<Row>)
    requires SameRows(cs, rows)
    ensures AllRequiredIn(cs, {Acknowledged}) <==> forall r :: r in rows && IsRequired(r) ==> IsDone(r)
  {
    if AllRequiredIn(cs, {Acknowledged}) {
      forall i | 0 <= i < |rows| && IsRequired(rows[i])
        ensures IsDone(rows[i])
      {
        assert cs[i] in cs;
      }
    }
    if forall r :: r in rows && IsRequired(r) ==> IsDone(r) {
      forall i | 0 <= i < |cs| && cs[i].required
        ensures cs[i].status == Acknowledged
      {
        assert rows[i] in rows && IsRequired(rows[i]);
      }
    }
  }

  lemma CountsSayAll(rows: seq<Row>)
    ensures |Filter(IsDone, rows)| == |Filter(IsRequired, rows)| <==> forall r :: r in rows && IsRequired(r) ==> IsDone(r)
  {
    NarrowerFilter(IsRequired, IsDone, rows);
    if forall r :: r in rows && IsRequired(r) ==> IsDone(r) {
      NarrowerFilter(IsDone, IsRequired, rows);
    }
  }

  /** The three counts give the status the required commands call for. */
  lemma CountsAreRight(cs: seq<Command>, rows: seq<Row>)
    requires SameRows(cs, rows)
    ensures CountStatus(rows) == CalledFor(cs)
    ensures ReadsComplete(rows) <==> CalledFor(cs) == Complete
  {
    RowsShowRequired(cs, rows);
    RowsShowFailure(cs, rows);
    RowsShowDone(cs, rows);
    RowsShowAllDone(cs, rows);
    CountsSayAll(rows);
    EmptyFilter(IsRequired, rows);
    EmptyFilter(IsDone, rows);
    EmptyFilter(HasFailed, rows);
  }

  // ----- one report -----

  lemma SameIndex(d: Deployment, p: Projection, commandId: string)
    requires SameState(d, p)
    ensures IndexOf(d.commands, commandId) == RowIndex(p.rows, commandId)
  {
    forall i | 0 <= i < |p.rows|
      ensures d.commands[i].commandId == p.rows[i].commandId
    {
      assert SameCommand(d.commands[i], p.rows[i]);
    }
  }

  /** The durable machine moves exactly when the in-memory one accepts and the publisher owns the claim;
      a replayed report is one the in-memory machine refuses, and changes neither. */
  lemma AnswersAgree(d: Deployment, p: Projection, expectedVersion: int, r: Report)
    requires SameState(d, p) && WellFormed(r)
    ensures AnswerTo(p, expectedVersion, r).Moved? <==>
      && Refusal(d, expectedVersion, ActionOf(r)).None?
      && (r.target == RowPublished ==> p.rows[RowIndex(p.rows, r.commandId)].claimedBy == r.worker)
    ensures AnswerTo(p, expectedVersion, r).Replayed? ==>
      Refusal(d, expectedVersion, ActionOf(r)) == Some(InvalidTransition) && AfterReport(p, expectedVersion, r) == p
  {
    SameIndex(d, p, r.commandId);
    var k := RowIndex(p.rows, r.commandId);
    if k < |p.rows| {
      assert SameCommand(d.commands[k], p.rows[k]);
    }
  }

  /** The command the report moves is matched by its row. */
  lemma MovedStaysTheSame(c: Command, row: Row, r: Report, version: int, a: Action)
    requires SameCommand(c, row) && WellFormed(r) && a == ActionOf(r) && row.status == Source(r.target)
    requires c.failureCode.Some? <==> c.status in TERMINAL_FAILURES
    ensures SameCommand(Acted(c, a), MovedRow(row, r, version))
  {
  }

  /** What a report makes of its command. */
  function Acted(c: Command, a: Action): Command {
    match a
    case MarkSent(_, reference) => AsSent(c, reference)
    case Acknowledge(_, accepted, reference, code, detail) => AsAnswered(c, accepted, reference, code, detail)
    case _ => AsTimedOut(c)
  }

  lemma ReportActs(d: Deployment, expectedVersion: int, a: Action)
    requires IsReport(a) && Refusal(d, expectedVersion, a).None?
    ensures var k := IndexOf(d.commands, a.commandId);
      NewCommands(d, a) == d.commands[k := Acted(d.commands[k], a)]
  {
  }

  lemma CommandsStayTheSame(d: Deployment, p: Projection, expectedVersion: int, r: Report)
    requires SameState(d, p) && WellFormed(r) && AnswerTo(p, expectedVersion, r).Moved?
    requires Refusal(d, expectedVersion, ActionOf(r)).None?
    ensures SameRows(NewCommands(d, ActionOf(r)), MovedRows(p, r))
  {
    SameIndex(d, p, r.commandId);
    var k := RowIndex(p.rows, r.commandId);
    assert d.commands[k] in d.commands;
    ReportActs(d, expectedVersion, ActionOf(r));
    MovedStaysTheSame(d.commands[k], p.rows[k], r, p.stateVersion + 1, ActionOf(r));
  }

  /** A move of the durable machine is matched by the in-memory one. */
  lemma MoveIsMatched(d: Deployment, p: Projection, expectedVersion: int, r: Report)
    requires SameState(d, p) && WellFormed(r) && AnswerTo(p, expectedVersion, r).Moved?
    ensures Refusal(d, expectedVersion, ActionOf(r)).None?
    ensures SameState(After(d, expectedVersion, ActionOf(r)), AfterReport(p, expectedVersion, r))
  {
    AnswersAgree(d, p, expectedVersion, r);
    CommandsStayTheSame(d, p, expectedVersion, r);
    StepKeepsCodes(d, expectedVersion, ActionOf(r));
  }

  // ----- the status of the in-memory machine -----

  ghost predicate SomeRequiredMoved(cs: seq<Command>) {
    exists c :: c in cs && c.required && c.status != Queued
  }

  /** Only statuses that runs without retry and compensation reach. */
  ghost predicate ReportsOnly(cs: seq<Command>) {
    forall c :: c in cs ==> c.status in {Queued, Sent, Acknowledged, Rejected, TimedOut}
  }

  /** The status follows the required commands once one of them has moved, and stays queued until then. */
  ghost predicate Tracks(d: Deployment) {
    && ReportsOnly(d.commands)
    && d.status == if SomeRequiredMoved(d.commands) then CalledFor(d.commands) else DeploymentQueued
  }

  /** Moving an optional command changes nothing the status depends on. */
  lemma OptionalMove(cs: seq<Command>, next: seq<Command>, k: int)
    requires OneMoved(cs, next, k) && !cs[k].required
    ensures AnyRequired(next) <==> AnyRequired(cs)
    ensures forall s :: AllRequiredIn(next, s) <==> AllRequiredIn(cs, s)
    ensures forall s :: SomeRequiredIn(next, s) <==> SomeRequiredIn(cs, s)
    ensures SomeRequiredMoved(next) <==> SomeRequiredMoved(cs)
  {
    MovedMembers(cs, next, k);
  }

  lemma ReportKeepsReportsOnly(d: Deployment, expectedVersion: int, a: Action)
    requires ReportsOnly(d.commands) && IsReport(a) && Refusal(d, expectedVersion, a).None?
    ensures ReportsOnly(NewCommands(d, a))
  {
    ActionMovesOne(d, expectedVersion, a);
    MovedMembers(d.commands, NewCommands(d, a), IndexOf(d.commands, a.commandId));
  }

  lemma RequiredMoveTracks(cs: seq<Command>, next: seq<Command>, k: int, status: DeploymentStatus)
    requires OneMoved(cs, next, k) && cs[k].required && ReportsOnly(next)
    requires next[k].status == Sent
      || (cs[k].status == Sent && next[k].status in {Acknowledged, Rejected, TimedOut})
    requires status == if SomeRequiredMoved(cs) then CalledFor(cs) else DeploymentQueued
    requires cs[k].status in {Queued, Sent}
    ensures SomeRequiredMoved(next) && Recomputed(next, status) == CalledFor(next)
  {
    assert next[k] in next && cs[k] in cs;
    if next[k].status != Sent && CalledFor(next) == Publishing {
      assert SomeRequiredMoved(cs);
      if SomeRequiredIn(cs, TERMINAL_FAILURES) {
        SomeSurvives(cs, next, k, TERMINAL_FAILURES);
      }
      assert CalledFor(cs) == Publishing;
    }
  }

  lemma ReportMove(d: Deployment, expectedVersion: int, a: Action)
    requires IsReport(a) && Refusal(d, expectedVersion, a).None?
    ensures
      var k := IndexOf(d.commands, a.commandId);
      var next := NewCommands(d, a);
      && OneMoved(d.commands, next, k)
      && d.commands[k].status in {Queued, Sent}
      && (next[k].status == Sent || (d.commands[k].status == Sent && next[k].status in {Acknowledged, Rejected, TimedOut}))
  {
  }

  /** Every accepted send, answer or timeout keeps the status tracking the required commands. */
  lemma ReportKeepsTracking(d: Deployment, expectedVersion: int, a: Action)
    requires Tracks(d) && IsReport(a) && Refusal(d, expectedVersion, a).None?
    ensures Tracks(After(d, expectedVersion, a))
  {
    ReportMove(d, expectedVersion, a);
    ReportKeepsReportsOnly(d, expectedVersion, a);
    var k := IndexOf(d.commands, a.commandId);
    var next := NewCommands(d, a);
    if d.commands[k].required {
      RequiredMoveTracks(d.commands, next, k, d.status);
    } else {
      OptionalMoveTracks(d.commands, next, k, d.status);
    }
  }

  lemma OptionalMoveTracks(cs: seq<Command>, next: seq<Command>, k: int, status: DeploymentStatus)
    requires OneMoved(cs, next, k) && !cs[k].required && ReportsOnly(cs)
    requires status == if SomeRequiredMoved(cs) then CalledFor(cs) else DeploymentQueued
    ensures Recomputed(next, status) == if SomeRequiredMoved(next) then CalledFor(next) else DeploymentQueued
  {
    OptionalMove(cs, next, k);
    TrackedIsFixed(cs, status);
    assert Recomputed(next, status) == Recomputed(cs, status);
  }

  lemma TrackedIsFixed(cs: seq<Command>, status: DeploymentStatus)
    requires ReportsOnly(cs)
    requires status == if SomeRequiredMoved(cs) then CalledFor(cs) else DeploymentQueued
    ensures Recomputed(cs, status) == status
  {
  }

  // ----- whole runs, side by side -----

  datatype Event =
    | Claim(commandId: string, worker: string)
    | Release(commandId: string, worker: string, error: string)
    | Make(expectedVersion: int, report: Report)

  datatype Pair = Pair(memory: Deployment, durable: Projection)

  /** Claims concern the durable machine alone; the in-memory one hears of every move. */
  function Beside(s: Pair, e: Event): Pair {
    match e
    case Claim(c, w) =>
      if CanClaim(s.durable, c) then s.(durable := ClaimRow(s.durable, c, w)) else s
    case Release(c, w, error) =>
      if CanRelease(s.durable, c, w) then s.(durable := WithClaim(s.durable, c, None, Some(error))) else s
    case Make(v, r) =>
      if WellFormed(r) && AnswerTo(s.durable, v, r).Moved? then
        Pair(After(s.memory, v, ActionOf(r)), AfterReport(s.durable, v, r))
      else s
  }

  function RunBeside(s: Pair, events: seq<Event>): Pair {
    if events == [] then s else Beside(RunBeside(s, events[..|events| - 1]), events[|events| - 1])
  }

  /** The durable status is the count status once anything has moved; the version tells whether it has. */
  ghost predicate Together(s: Pair, startVersion: int) {
    && SameState(s.memory, s.durable) && Tracks(s.memory)
    && s.durable.stateVersion >= startVersion
    && (s.durable.stateVersion > startVersion ==> s.durable.status == CountStatus(s.durable.rows))
    && (s.durable.stateVersion > startVersion ==> exists c :: c in s.memory.commands && c.status != Queued)
  }

  lemma ClaimKeepsTogether(s: Pair, startVersion: int, commandId: string, claimedBy: Option<string>, lastError: Option<string>)
    requires Together(s, startVersion) && RowIndex(s.durable.rows, commandId) < |s.durable.rows|
    ensures Together(s.(durable := WithClaim(s.durable, commandId, claimedBy, lastError)), startVersion)
  {
    var after := WithClaim(s.durable, commandId, claimedBy, lastError);
    assert SameState(s.memory, after);
    CountsAreRight(s.memory.commands, s.durable.rows);
    CountsAreRight(s.memory.commands, after.rows);
  }

  lemma ReportLeavesTheQueue(d: Deployment, expectedVersion: int, a: Action)
    requires IsReport(a) && Refusal(d, expectedVersion, a).None?
    ensures exists c :: c in After(d, expectedVersion, a).commands && c.status != Queued
  {
    ReportMove(d, expectedVersion, a);
    var next := NewCommands(d, a);
    assert next[IndexOf(d.commands, a.commandId)] in next;
  }

  lemma MemoryFollows(d: Deployment, expectedVersion: int, a: Action)
    requires Tracks(d) && IsReport(a) && Refusal(d, expectedVersion, a).None?
    ensures var after := After(d, expectedVersion, a);
      Tracks(after) && exists c :: c in after.commands && c.status != Queued
  {
    ReportKeepsTracking(d, expectedVersion, a);
    ReportLeavesTheQueue(d, expectedVersion, a);
  }

  lemma TablesFollow(p: Projection, expectedVersion: int, r: Report)
    requires AnswerTo(p, expectedVersion, r).Moved?
    ensures var after := AfterReport(p, expectedVersion, r);
      after.stateVersion == p.stateVersion + 1 && after.status == CountStatus(after.rows)
  {
  }

  lemma MakeKeepsTogether(s: Pair, startVersion: int, expectedVersion: int, r: Report)
    requires Together(s, startVersion) && WellFormed(r) && AnswerTo(s.durable, expectedVersion, r).Moved?
    ensures Together(Beside(s, Make(expectedVersion, r)), startVersion)
  {
    MoveIsMatched(s.memory, s.durable, expectedVersion, r);
    MemoryFollows(s.memory, expectedVersion, ActionOf(r));
    TablesFollow(s.durable, expectedVersion, r);
  }

  /** In every run both machines keep the same commands, attempts and version, and codes and references that fit. */
  lemma {:induction false} RunKeepsTogether(s: Pair, startVersion: int, events: seq<Event>)
    requires Together(s, startVersion)
    ensures Together(RunBeside(s, events), startVersion)
  {
    if events != [] {
      var before := RunBeside(s, events[..|events| - 1]);
      var e := events[|events| - 1];
      RunKeepsTogether(s, startVersion, events[..|events| - 1]);
      match e
      case Claim(c, w) =>
        if CanClaim(before.durable, c) {
          ClaimKeepsTogether(before, startVersion, c, Some(w), before.durable.rows[RowIndex(before.durable.rows, c)].lastError);
        }
      case Release(c, w, error) =>
        if CanRelease(before.durable, c, w) {
          ClaimKeepsTogether(before, startVersion, c, None, Some(error));
        }
      case Make(v, r) =>
        if WellFormed(r) && AnswerTo(before.durable, v, r).Moved? {
          MakeKeepsTogether(before, startVersion, v, r);
        }
    }
  }

  /** A fresh deployment in memory beside its freshly inserted rows. */
  ghost predicate FreshPair(s: Pair, resources: seq<Resource>) {
    && s.memory == Deployment(Fresh(resources), 1, DeploymentQueued)
    && s.durable.stateVersion == 1 && |s.durable.rows| == |resources|
    && s.durable.status != Complete
    && (forall i :: 0 <= i < |resources| ==>
          s.durable.rows[i] == Row(resources[i].commandId, resources[i].required, RowQueued, None, None, None, 0, None, 1))
  }

  lemma FreshPairIsTogether(s: Pair, resources: seq<Resource>)
    requires FreshPair(s, resources)
    ensures Together(s, 1)
  {
    assert !SomeRequiredMoved(s.memory.commands);
  }

  /** After the first move the two statuses agree exactly when some required command has left the queue;
      otherwise memory still says queued while the tables say publishing. */
  lemma StatusesAgreeIff(s: Pair, resources: seq<Resource>, events: seq<Event>)
    requires FreshPair(s, resources)
    ensures
      var now := RunBeside(s, events);
      now.durable.stateVersion > 1 ==>
        (now.memory.status == now.durable.status <==> SomeRequiredMoved(now.memory.commands))
  {
    FreshPairIsTogether(s, resources);
    RunKeepsTogether(s, 1, events);
    var now := RunBeside(s, events);
    CountsAreRight(now.memory.commands, now.durable.rows);
  }

  /** When every command is required the statuses agree after every move. */
  lemma AllRequiredAgrees(s: Pair, resources: seq<Resource>, events: seq<Event>)
    requires FreshPair(s, resources) && forall r :: r in resources ==> r.required
    ensures
      var now := RunBeside(s, events);
      now.durable.stateVersion > 1 ==> now.memory.status == now.durable.status
    ensures RunBeside(s, events).memory.stateVersion == RunBeside(s, events).durable.stateVersion
  {
    FreshPairIsTogether(s, resources);
    RunKeepsTogether(s, 1, events);
    StatusesAgreeIff(s, resources, events);
    RequiredIsKept(s, resources, events);
    var now := RunBeside(s, events);
    if now.durable.stateVersion > 1 {
      SomeMovedIsRequired(now.memory.commands, resources);
    }
  }

  lemma SomeMovedIsRequired(cs: seq<Command>, resources: seq<Resource>)
    requires |cs| == |resources| && forall i :: 0 <= i < |resources| ==> cs[i].required == resources[i].required
    requires (forall r :: r in resources ==> r.required) && exists c :: c in cs && c.status != Queued
    ensures SomeRequiredMoved(cs)
  {
    var c :| c in cs && c.status != Queued;
    var i :| 0 <= i < |cs| && cs[i] == c;
    assert resources[i] in resources;
  }

  /** In every run the two references of a command agree exactly when it has not timed out: memory keeps the reference
      of the send, the row loses it. */
  lemma ReferencesAgreeIff(s: Pair, resources: seq<Resource>, events: seq<Event>, k: nat)
    requires FreshPair(s, resources) && k < |RunBeside(s, events).durable.rows|
    ensures k < |RunBeside(s, events).memory.commands|
    ensures
      var c, row := RunBeside(s, events).memory.commands[k], RunBeside(s, events).durable.rows[k];
      && (c.adapterReference == row.reference <==> row.status != RowTimedOut)
      && (row.status == RowTimedOut ==> c.adapterReference.Some? && row.reference.None?)
  {
    FreshPairIsTogether(s, resources);
    RunKeepsTogether(s, 1, events);
    assert SameCommand(RunBeside(s, events).memory.commands[k], RunBeside(s, events).durable.rows[k]);
  }

  /** In every run the two failure codes of a command agree exactly unless it was acknowledged under a code: memory
      drops it, the row stores it. */
  lemma CodesAgreeIff(s: Pair, resources: seq<Resource>, events: seq<Event>, k: nat)
    requires FreshPair(s, resources) && k < |RunBeside(s, events).durable.rows|
    ensures k < |RunBeside(s, events).memory.commands|
    ensures
      var c, row := RunBeside(s, events).memory.commands[k], RunBeside(s, events).durable.rows[k];
      c.failureCode == row.failureCode <==> !(row.status == RowAcknowledged && row.failureCode.Some?)
  {
    FreshPairIsTogether(s, resources);
    RunKeepsTogether(s, 1, events);
    var now := RunBeside(s, events);
    assert SameCommand(now.memory.commands[k], now.durable.rows[k]);
    assert now.memory.commands[k] in now.memory.commands;
  }

  lemma AcknowledgementParts(s: Pair)
    requires |s.memory.commands| == 1 && |s.durable.rows| == 1 && s.memory.stateVersion == 2 && s.durable.stateVersion == 2
    requires s.memory.commands[0].commandId == "C1" && s.memory.commands[0].status == Sent
    requires s.durable.rows[0].commandId == "C1" && s.durable.rows[0].status == RowPublished
    ensures
      var now := Beside(s, Make(2, Report("C1", None, RowAcknowledged, Some("A-1"), Some("X"), None)));
      && |now.memory.commands| == 1 && |now.durable.rows| == 1
      && now.memory.commands[0].status == Acknowledged && now.memory.commands[0].failureCode == None
      && now.durable.rows[0].status == RowAcknowledged && now.durable.rows[0].failureCode == Some("X")
  {
  }

  /** Claimed, published, acknowledged under a code: the row keeps the code, memory does not. */
  lemma AcknowledgedUnderACode(s: Pair, resource: Resource)
    requires resource.commandId == "C1" && FreshPair(s, [resource])
    ensures
      var now := RunBeside(s, [TimedOutRun()[0], TimedOutRun()[1],
                               Make(2, Report("C1", None, RowAcknowledged, Some("A-1"), Some("X"), None))]);
      && |now.memory.commands| == 1 && |now.durable.rows| == 1
      && now.memory.commands[0].status == Acknowledged && now.memory.commands[0].failureCode == None
      && now.durable.rows[0].status == RowAcknowledged && now.durable.rows[0].failureCode == Some("X")
  {
    var run := TimedOutRun();
    RunBesideThree(s, run[0], run[1], Make(2, Report("C1", None, RowAcknowledged, Some("A-1"), Some("X"), None)));
    SendIsMatched(s, resource);
    AcknowledgementParts(Beside(Beside(s, run[0]), run[1]));
  }

  /** Claimed and published under the adapter's reference. */
  lemma SendIsMatched(s: Pair, resource: Resource)
    requires resource.commandId == "C1" && FreshPair(s, [resource])
    ensures
      var claimed := Beside(s, Claim("C1", "W"));
      var sent := Beside(claimed, Make(1, Report("C1", Some("W"), RowPublished, Some("A-1"), None, None)));
      && |sent.memory.commands| == 1 && |sent.durable.rows| == 1
      && sent.memory.commands[0] == AsSent(Fresh([resource])[0], "A-1") && sent.memory.stateVersion == 2
      && sent.durable.rows[0].commandId == "C1" && sent.durable.rows[0].status == RowPublished
      && sent.durable.rows[0].failureCode == None && sent.durable.stateVersion == 2
  {
  }

  lemma TimeoutParts(s: Pair)
    requires |s.memory.commands| == 1 && |s.durable.rows| == 1 && s.memory.stateVersion == 2 && s.durable.stateVersion == 2
    requires s.memory.commands[0].commandId == "C1" && s.memory.commands[0].status == Sent
    requires s.durable.rows[0].commandId == "C1" && s.durable.rows[0].status == RowPublished
    ensures
      var now := Beside(s, Make(2, TimeoutReport("C1")));
      && |now.memory.commands| == 1 && |now.durable.rows| == 1
      && now.memory.commands[0].status == TimedOut
      && now.memory.commands[0].adapterReference == s.memory.commands[0].adapterReference
      && now.durable.rows[0].status == RowTimedOut && now.durable.rows[0].reference == None
  {
  }

  function TimedOutRun(): seq<Event> {
    [Claim("C1", "W"), Make(1, Report("C1", Some("W"), RowPublished, Some("A-1"), None, None)),
     Make(2, TimeoutReport("C1"))]
  }

  lemma RunBesideSnoc(s: Pair, events: seq<Event>, e: Event)
    ensures RunBeside(s, events + [e]) == Beside(RunBeside(s, events), e)
  {
    assert (events + [e])[..|events|] == events;
  }

  lemma RunBesideThree(s: Pair, a: Event, b: Event, c: Event)
    ensures RunBeside(s, [a, b, c]) == Beside(Beside(Beside(s, a), b), c)
  {
    RunBesideSnoc(s, [], a);
    RunBesideSnoc(s, [a], b);
    RunBesideSnoc(s, [a, b], c);
    assert [] + [a] == [a] && [a] + [b] == [a, b] && [a, b] + [c] == [a, b, c];
  }

  /** Claimed, published, timed out: memory still names the adapter's reference, the row does not. */
  lemma TimeoutDropsTheReference(s: Pair, resource: Resource)
    requires resource.commandId == "C1" && FreshPair(s, [resource])
    ensures
      var now := RunBeside(s, TimedOutRun());
      && |now.memory.commands| == 1 && |now.durable.rows| == 1
      && now.memory.commands[0].status == TimedOut && now.memory.commands[0].adapterReference == Some("A-1")
      && now.durable.rows[0].status == RowTimedOut && now.durable.rows[0].reference == None
  {
    var run := TimedOutRun();
    RunBesideThree(s, run[0], run[1], run[2]);
    SendIsMatched(s, resource);
    TimeoutParts(Beside(Beside(s, run[0]), run[1]));
  }

  ghost predicate SameRequired(cs: seq<Command>, next: seq<Command>) {
    |next| == |cs| && forall i :: 0 <= i < |cs| ==> next[i].required == cs[i].required
  }

  lemma ReportKeepsRequired(d: Deployment, expectedVersion: int, a: Action)
    requires IsReport(a) && Refusal(d, expectedVersion, a).None?
    ensures SameRequired(d.commands, After(d, expectedVersion, a).commands)
  {
    ReportMove(d, expectedVersion, a);
  }

  lemma MoveKeepsRequired(s: Pair, e: Event)
    requires e.Make? && Together(s, 1)
    ensures SameRequired(s.memory.commands, Beside(s, e).memory.commands)
  {
    if WellFormed(e.report) && AnswerTo(s.durable, e.expectedVersion, e.report).Moved? {
      MoveIsMatched(s.memory, s.durable, e.expectedVersion, e.report);
      ReportKeepsRequired(s.memory, e.expectedVersion, ActionOf(e.report));
    }
  }

  lemma {:induction false} RequiredIsKept(s: Pair, resources: seq<Resource>, events: seq<Event>)
    requires FreshPair(s, resources)
    ensures |RunBeside(s, events).memory.commands| == |resources|
    ensures forall i :: 0 <= i < |resources| ==> RunBeside(s, events).memory.commands[i].required == resources[i].required
  {
    if events != [] {
      var before := RunBeside(s, events[..|events| - 1]);
      var e := events[|events| - 1];
      RequiredIsKept(s, resources, events[..|events| - 1]);
      if e.Make? {
        FreshPairIsTogether(s, resources);
        RunKeepsTogether(s, 1, events[..|events| - 1]);
        MoveKeepsRequired(before, e);
      }
    }
  }

  /** The read model's recomputed flag is the stored status, in every reachable state. */
  lemma ReadModelIsRight(s: Pair, resources: seq<Resource>, events: seq<Event>)
    requires FreshPair(s, resources)
    ensures
      var now := RunBeside(s, events).durable;
      ReadsComplete(now.rows) <==> now.status == Complete
  {
    FreshPairIsTogether(s, resources);
    RunKeepsTogether(s, 1, events);
    var now := RunBeside(s, events);
    CountsAreRight(now.memory.commands, now.durable.rows);
    StillFreshUntilMoved(s, resources, events);
    if ReadsComplete(now.durable.rows) {
      var c :| c in now.memory.commands && c.required;
      assert SomeRequiredMoved(now.memory.commands);
    }
  }

  lemma {:induction false} StillFreshUntilMoved(s: Pair, resources: seq<Resource>, events: seq<Event>)
    requires FreshPair(s, resources)
    ensures RunBeside(s, events).durable.stateVersion >= 1
    ensures RunBeside(s, events).durable.stateVersion == 1 ==>
      RunBeside(s, events).memory == s.memory && RunBeside(s, events).durable.status == s.durable.status
  {
    if events != [] {
      StillFreshUntilMoved(s, resources, events[..|events| - 1]);
    }
  }
}
