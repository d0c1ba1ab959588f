/** Service calls that overlap. Each call is two transactions, a load that takes the decision and a persist that writes
    it, and those of different calls interleave freely; a call may also stop between the two
    (core/durable_recovery_workflow.py). */
module OverlappingCalls {
  import opened Sequences
  import opened Text
  import opened DurableStore
  import opened Workflow
  import opened WorkflowRules
  import opened ApprovalLadder
  import opened WorkflowService

  /** A call with the event id it will generate. */
  datatype Request = Request(ctx: Context, cmd: Command, eventId: string)

  datatype Step = LoadStep(i: nat) | PersistStep(i: nat)

  /** The tables, the decisions taken so far, and the answers given. */
  datatype Service = Service(tables: WorkflowTables, loaded: map<nat, Decision>, answers: map<nat, Answer>)

  function Start(): Service { Service(EmptyTables(), map[], map[]) }

  /** The call has decided to write and has not written yet. */
  predicate Waiting(calls: seq<Request>, s: Service, i: nat) {
    i < |calls| && i in s.loaded && s.loaded[i].Persist? && i !in s.answers
  }

  function DoLoad(calls: seq<Request>, s: Service, i: nat): Service {
    if i >= |calls| || i in s.loaded then s
    else
      var d := DecisionOn(s.tables, calls[i].ctx, calls[i].cmd);
      s.(loaded := s.loaded[i := d], answers := if d.Reject? then s.answers[i := Rejected(d.code)] else s.answers)
  }

  function DoPersist(calls: seq<Request>, s: Service, i: nat): Service {
    if !Waiting(calls, s, i) then s
    else
      var r := calls[i];
      var m := ToMutation(r.ctx, r.cmd.recoveryId, s.loaded[i]);
      s.(tables := AfterMutate(s.tables, m, r.eventId, r.ctx.wall),
         answers := s.answers[i := Stored(MutateOutcome(s.tables, m, r.eventId))])
  }

  function Do(calls: seq<Request>, s: Service, step: Step): Service {
    match step
    case LoadStep(i) => DoLoad(calls, s, i)
    case PersistStep(i) => DoPersist(calls, s, i)
  }

  /** The service after a run, in any interleaving of the calls' transactions. */
  function After(calls: seq<Request>, steps: seq<Step>): Service {
    if steps == [] then Start() else Do(calls, After(calls, steps[..|steps| - 1]), steps[|steps| - 1])
  }

  /** Event ids and the ids of created recoveries are generated, and never repeat. */
  ghost predicate IdsDiffer(calls: seq<Request>) {
    && (forall i, j :: 0 <= i < j < |calls| ==> calls[i].eventId != calls[j].eventId)
    && (forall i, j :: 0 <= i < j < |calls| && calls[i].cmd.Create? && calls[j].cmd.Create? ==>
          calls[i].cmd.recoveryId != calls[j].cmd.recoveryId)
  }

  // ----- the invariant -----

  /** The event is what the call wrote: by its actor, in its role, for its command, with its evidence. */
  ghost predicate Wrote(r: Request, e: Event) {
    && e.eventId == r.eventId && WrittenFor(e, r.ctx, r.cmd)
    && e.actorSubject == r.ctx.actor && OnFile(r.ctx, r.cmd, e.snapshot)
    && e.eventType == EventTypeOf(r.cmd) && e.response == Response(ActionOf(r.cmd), e.snapshot)
    && e.correlationId == r.ctx.correlationId && e.causationId == r.ctx.causationId
    && e.partitionKey == r.ctx.tenantId + ":" + e.snapshot.partitionId + ":" + r.cmd.recoveryId
    && e.schemaVersion == "recovery.v1" && e.occurredAt == Aware(r.ctx.wall)
  }

  ghost predicate FromSome(calls: seq<Request>, s: Service, e: Event) {
    exists i :: i in s.answers && i < |calls| && Wrote(calls[i], e)
  }

  /** Every event was written by a call that has been answered. */
  ghost predicate Traced(calls: seq<Request>, s: Service) {
    forall k :: 0 <= k < |s.tables.events| ==> FromSome(calls, s, s.tables.events[k])
  }

  ghost predicate DecisionsAreSound(calls: seq<Request>, s: Service) {
    forall i :: i in s.loaded ==> i < |calls| && Sound(s.tables, calls[i].ctx, calls[i].cmd, s.loaded[i])
  }

  /** Every event goes out on the workflow's topic. */
  ghost predicate OnTopic(t: WorkflowTables) {
    forall k :: 0 <= k < |t.outbox| ==> t.outbox[k].topic == "recovery.events.v1"
  }

  ghost predicate Inv(calls: seq<Request>, s: Service) {
    && OnLadder(s.tables) && OnTopic(s.tables) && DecisionsAreSound(calls, s) && Traced(calls, s)
    && (forall i :: i in s.answers ==> i in s.loaded)
  }

  lemma StartInv(calls: seq<Request>)
    ensures Inv(calls, Start())
  {
    NoRecoveriesIsOnLadder();
  }

  lemma LoadKeepsInv(calls: seq<Request>, s: Service, i: nat)
    requires Inv(calls, s)
    ensures Inv(calls, DoLoad(calls, s, i))
  {
    var t := DoLoad(calls, s, i);
    if t != s {
      DecisionIsSound(s.tables, calls[i].ctx, calls[i].cmd);
      forall k | 0 <= k < |t.tables.events|
        ensures FromSome(calls, t, t.tables.events[k])
      {
        assert FromSome(calls, s, s.tables.events[k]);
      }
    }
  }

  /** A waiting call's event id is on no event. */
  lemma WaitingIdIsFresh(calls: seq<Request>, s: Service, i: nat)
    requires Traced(calls, s) && IdsDiffer(calls) && i < |calls| && i !in s.answers
    ensures FreshEventId(s.tables, calls[i].eventId)
  {
    forall k | 0 <= k < |s.tables.events|
      ensures s.tables.events[k].eventId != calls[i].eventId
    {
      assert FromSome(calls, s, s.tables.events[k]);
    }
  }

  lemma NewEventIsTraced(calls: seq<Request>, s: Service, i: nat)
    requires Inv(calls, s) && Waiting(calls, s, i)
    ensures
      var m := ToMutation(calls[i].ctx, calls[i].cmd.recoveryId, s.loaded[i]);
      Admitted(s.tables, m) ==> Wrote(calls[i], NewEvent(m, calls[i].eventId, calls[i].ctx.wall))
  {
    assert Sound(s.tables, calls[i].ctx, calls[i].cmd, s.loaded[i]);
  }

  lemma StillFromSome(calls: seq<Request>, s: Service, t: Service, e: Event)
    requires FromSome(calls, s, e) && forall i :: i in s.answers ==> i in t.answers
    ensures FromSome(calls, t, e)
  {
    var i :| i in s.answers && i < |calls| && Wrote(calls[i], e);
    assert i in t.answers;
  }

  lemma PersistTraces(calls: seq<Request>, s: Service, i: nat)
    requires Inv(calls, s) && Waiting(calls, s, i)
    ensures Traced(calls, DoPersist(calls, s, i)) && s.tables.events <= DoPersist(calls, s, i).tables.events
  {
    var t := DoPersist(calls, s, i);
    NewEventIsTraced(calls, s, i);
    forall k | 0 <= k < |t.tables.events|
      ensures FromSome(calls, t, t.tables.events[k])
    {
      if k < |s.tables.events| {
        StillFromSome(calls, s, t, s.tables.events[k]);
      }
    }
  }

  lemma PersistKeepsTopic(t: WorkflowTables, ctx: Context, recoveryId: string, d: Decision, eventId: string)
    requires OnTopic(t) && d.Persist?
    ensures OnTopic(AfterMutate(t, ToMutation(ctx, recoveryId, d), eventId, ctx.wall))
  {
  }

  lemma DecisionsStaySound(calls: seq<Request>, s: Service, t: Service)
    requires DecisionsAreSound(calls, s) && t.loaded == s.loaded && s.tables.events <= t.tables.events
    ensures DecisionsAreSound(calls, t)
  {
    forall j | j in t.loaded
      ensures j < |calls| && Sound(t.tables, calls[j].ctx, calls[j].cmd, t.loaded[j])
    {
      SoundStays(s.tables, t.tables, calls[j].ctx, calls[j].cmd, s.loaded[j]);
    }
  }

  lemma PersistKeepsInv(calls: seq<Request>, s: Service, i: nat)
    requires Inv(calls, s) && IdsDiffer(calls)
    ensures Inv(calls, DoPersist(calls, s, i))
  {
    if Waiting(calls, s, i) {
      WaitingIdIsFresh(calls, s, i);
      PersistKeepsLadder(s.tables, calls[i].ctx, calls[i].cmd, s.loaded[i], calls[i].eventId);
      PersistKeepsTopic(s.tables, calls[i].ctx, calls[i].cmd.recoveryId, s.loaded[i], calls[i].eventId);
      PersistTraces(calls, s, i);
      DecisionsStaySound(calls, s, DoPersist(calls, s, i));
    }
  }

  lemma {:induction false} RunKeepsInv(calls: seq<Request>, steps: seq<Step>)
    requires IdsDiffer(calls)
    ensures Inv(calls, After(calls, steps))
  {
    if steps == [] {
      StartInv(calls);
    } else {
      var n := |steps| - 1;
      RunKeepsInv(calls, steps[..n]);
      match steps[n]
      case LoadStep(i) => LoadKeepsInv(calls, After(calls, steps[..n]), i);
      case PersistStep(i) => PersistKeepsInv(calls, After(calls, steps[..n]), i);
    }
  }

  /** Whatever is requested, by whomever, and however the calls overlap, every recovery stays on the ladder, and every
      event tells what its call did. */
  lemma RunStaysOnLadder(calls: seq<Request>, steps: seq<Step>)
    requires IdsDiffer(calls)
    ensures OnLadder(After(calls, steps).tables) && OnTopic(After(calls, steps).tables)
    ensures Traced(calls, After(calls, steps))
  {
    RunKeepsInv(calls, steps);
  }

  /** Each persist climbs one rung, repeats a receipt, or comes to nothing. */
  lemma PersistStepClimbs(calls: seq<Request>, steps: seq<Step>, i: nat)
    requires IdsDiffer(calls) && Waiting(calls, After(calls, steps), i)
    ensures
      var s, t := After(calls, steps), DoPersist(calls, After(calls, steps), i);
      i in t.answers && Climbed(s.tables, t.tables, calls[i].ctx, calls[i].cmd, t.answers[i])
  {
    RunKeepsInv(calls, steps);
    var s := After(calls, steps);
    WaitingIdIsFresh(calls, s, i);
    PersistClimbs(s.tables, calls[i].ctx, calls[i].cmd, s.loaded[i], calls[i].eventId);
  }

  // ----- when a receipt is repeated -----

  lemma StepKeepsLoaded(calls: seq<Request>, s: Service, step: Step, i: nat)
    requires i in s.loaded
    ensures i in Do(calls, s, step).loaded && Do(calls, s, step).loaded[i] == s.loaded[i]
  {
  }

  /** A decision once taken is not taken again. */
  lemma {:induction false} LoadedIsKept(calls: seq<Request>, steps: seq<Step>, n: nat, i: nat)
    requires n <= |steps| && i in After(calls, steps[..n]).loaded
    ensures i in After(calls, steps).loaded && After(calls, steps).loaded[i] == After(calls, steps[..n]).loaded[i]
    decreases |steps|
  {
    if n == |steps| {
      assert steps[..n] == steps;
    } else {
      var front := steps[..|steps| - 1];
      assert front[..n] == steps[..n];
      LoadedIsKept(calls, front, n, i);
      StepKeepsLoaded(calls, After(calls, front), steps[|steps| - 1], i);
    }
  }

  /** The first event of a recovery was written by the call that created it. */
  lemma FirstIsCreated(calls: seq<Request>, s: Service, e: Event) returns (j: nat)
    requires Inv(calls, s) && e in s.tables.events && e.version == 1
    ensures j in s.answers && j < |calls| && calls[j].cmd.Create? && calls[j].cmd.recoveryId == e.recoveryId
  {
    var k :| 0 <= k < |s.tables.events| && s.tables.events[k] == e;
    assert FromSome(calls, s, e);
    j :| j in s.answers && j < |calls| && Wrote(calls[j], e);
    EventIsOnRung(s.tables, e);
  }

  lemma EventIsOnRung(t: WorkflowTables, e: Event)
    requires OnLadder(t) && e in t.events
    ensures EventFits(e)
  {
    var key := (e.tenantId, e.recoveryId);
    FilterMembers(InStream(key), t.events, e);
    assert HistoryFits(StreamEvents(t, key));
    var k :| 0 <= k < |StreamEvents(t, key)| && StreamEvents(t, key)[k] == e;
  }

  /** Nobody else's command is a creation of this recovery. */
  lemma CreationIsNotOnRecord(calls: seq<Request>, s: Service, i: nat)
    requires Inv(calls, s) && IdsDiffer(calls) && i < |calls| && i !in s.answers && calls[i].cmd.Create?
    ensures !(OnRecord(s.tables, calls[i].ctx, calls[i].cmd) && calls[i].ctx.expectedVersion == 0)
  {
    var r := calls[i];
    if OnRecord(s.tables, r.ctx, r.cmd) && r.ctx.expectedVersion == 0 {
      var key := (r.ctx.tenantId, r.ctx.idempotencyKey);
      assert OwnsSome(s.tables, key);
      var k :| 0 <= k < |s.tables.events| && Owns(s.tables, key, k);
      var j := FirstIsCreated(calls, s, s.tables.events[k]);
    }
  }

  /** What a call that decides to write has loaded holds no record of it. */
  lemma NotYetOnRecord(calls: seq<Request>, s: Service, i: nat)
    requires Inv(calls, s) && IdsDiffer(calls) && i < |calls| && i !in s.answers
    requires DecisionOn(s.tables, calls[i].ctx, calls[i].cmd).Persist?
    ensures !OnRecord(s.tables, calls[i].ctx, calls[i].cmd)
  {
    if calls[i].cmd.Create? {
      CreationIsNotOnRecord(calls, s, i);
    } else if OnRecord(s.tables, calls[i].ctx, calls[i].cmd) {
      LateRetryIsStale(s.tables, calls[i].ctx, calls[i].cmd);
    }
  }

  lemma CreationStaysOffRecord(calls: seq<Request>, s: Service, i: nat)
    requires Inv(calls, s) && IdsDiffer(calls) && Waiting(calls, s, i) && calls[i].cmd.Create?
    ensures !OnRecord(s.tables, calls[i].ctx, calls[i].cmd)
  {
    assert Sound(s.tables, calls[i].ctx, calls[i].cmd, s.loaded[i]);
    CreationIsNotOnRecord(calls, s, i);
  }

  /** A persist hands back a stored receipt exactly when its command is on record by then. */
  lemma PersistReplaysIff(calls: seq<Request>, steps: seq<Step>, i: nat)
    requires IdsDiffer(calls) && Waiting(calls, After(calls, steps), i)
    ensures
      var s, t := After(calls, steps), After(calls, steps + [PersistStep(i)]);
      && i in t.answers && (Replayed(t.answers[i]) <==> OnRecord(s.tables, calls[i].ctx, calls[i].cmd))
      && (Replayed(t.answers[i]) ==> t.tables == s.tables)
  {
    PersistStepClimbs(calls, steps, i);
    assert (steps + [PersistStep(i)])[..|steps|] == steps;
  }

  /** A persist hands back a stored receipt exactly when the same command, under the same key, was committed between
      this call's load and its persist; and then it writes nothing. A creation never does. */
  lemma ReplayedIff(calls: seq<Request>, steps: seq<Step>, a: nat, i: nat)
    requires IdsDiffer(calls) && a < |steps|
    requires steps[a] == LoadStep(i) && i !in After(calls, steps[..a]).loaded
    requires Waiting(calls, After(calls, steps), i)
    ensures
      var r := calls[i];
      var loading, persisting := After(calls, steps[..a]), After(calls, steps);
      var done := After(calls, steps + [PersistStep(i)]);
      && i in done.answers
      && (Replayed(done.answers[i]) <==>
            OnRecord(persisting.tables, r.ctx, r.cmd) && !OnRecord(loading.tables, r.ctx, r.cmd))
      && (Replayed(done.answers[i]) ==> done.tables == persisting.tables && !r.cmd.Create?)
  {
    RunKeepsInv(calls, steps[..a]);
    RunKeepsInv(calls, steps);
    DecisionIsKept(calls, steps, a, i);
    NotYetOnRecord(calls, After(calls, steps[..a]), i);
    PersistReplaysIff(calls, steps, i);
    if calls[i].cmd.Create? {
      CreationStaysOffRecord(calls, After(calls, steps), i);
    }
  }

  lemma DecisionIsKept(calls: seq<Request>, steps: seq<Step>, a: nat, i: nat)
    requires a < |steps| && steps[a] == LoadStep(i) && i < |calls| && i !in After(calls, steps[..a]).loaded
    ensures i in After(calls, steps).loaded
    ensures After(calls, steps).loaded[i] == DecisionOn(After(calls, steps[..a]).tables, calls[i].ctx, calls[i].cmd)
  {
    assert steps[..a + 1][..a] == steps[..a];
    LoadedIsKept(calls, steps, a + 1, i);
  }

  // ----- a run in which two selections overlap -----

  function Chosen(): Candidate { Candidate("C", 1, "D", "T", "R", 1, "1", 10, true) }

  function Asked(key: string, version: int): Context { Context("T", "P", "planner", key, "X", None, version, 0, 0) }

  /** A creation, and the same selection sent twice. */
  function TwiceSelected(): seq<Request> {
    [Request(Asked("key-0001", 0), Create("R", "DIS", "PAR", "1"), "e0"),
     Request(Asked("key-0002", 1), Select("R", Chosen()), "e1"),
     Request(Asked("key-0002", 1), Select("R", Chosen()), "e2")]
  }

  lemma LoadDoesIt(calls: seq<Request>, steps: seq<Step>, i: nat)
    requires i < |calls| && i !in After(calls, steps).loaded
    ensures
      var s, t := After(calls, steps), After(calls, steps + [LoadStep(i)]);
      var d := DecisionOn(s.tables, calls[i].ctx, calls[i].cmd);
      && t.tables == s.tables && t.loaded == s.loaded[i := d]
      && (d.Persist? ==> t.answers == s.answers)
  {
    assert (steps + [LoadStep(i)])[..|steps|] == steps;
  }

  lemma PersistDoesIt(calls: seq<Request>, steps: seq<Step>, i: nat)
    requires Waiting(calls, After(calls, steps), i)
    ensures
      var s, t := After(calls, steps), After(calls, steps + [PersistStep(i)]);
      var m := ToMutation(calls[i].ctx, calls[i].cmd.recoveryId, s.loaded[i]);
      && t.tables == AfterMutate(s.tables, m, calls[i].eventId, calls[i].ctx.wall) && t.loaded == s.loaded
      && t.answers == s.answers[i := Stored(MutateOutcome(s.tables, m, calls[i].eventId))]
  {
    assert (steps + [PersistStep(i)])[..|steps|] == steps;
  }

  /** Two calls with the same context and command that both load before either persists: the first is accepted, the
      second is handed its receipt. */
  lemma OverlapReplays(calls: seq<Request>, steps: seq<Step>, i: nat, j: nat)
    requires i < |calls| && j < |calls| && i != j && calls[i].ctx == calls[j].ctx && calls[i].cmd == calls[j].cmd
    requires var s := After(calls, steps);
      && i !in s.loaded && j !in s.loaded && i !in s.answers && j !in s.answers
      && var d := DecisionOn(s.tables, calls[i].ctx, calls[i].cmd);
         d.Persist? && Admitted(s.tables, ToMutation(calls[i].ctx, calls[i].cmd.recoveryId, d))
    ensures
      var end := After(calls, steps + [LoadStep(i)] + [LoadStep(j)] + [PersistStep(i)] + [PersistStep(j)]);
      && i in end.answers && Accepted(end.answers[i]) && !Replayed(end.answers[i])
      && j in end.answers && Replayed(end.answers[j])
  {
    LoadDoesIt(calls, steps, i);
    LoadDoesIt(calls, steps + [LoadStep(i)], j);
    PersistDoesIt(calls, steps + [LoadStep(i)] + [LoadStep(j)], i);
    PersistDoesIt(calls, steps + [LoadStep(i)] + [LoadStep(j)] + [PersistStep(i)], j);
  }

  function Creation(): seq<Step> { [] + [LoadStep(0)] + [PersistStep(0)] }

  lemma CreatedFirst()
    ensures
      var s := After(TwiceSelected(), Creation());
      && 1 !in s.loaded && 2 !in s.loaded && 1 !in s.answers && 2 !in s.answers
      && var r := TwiceSelected()[1];
         var d := DecisionOn(s.tables, r.ctx, r.cmd);
         d.Persist? && Admitted(s.tables, ToMutation(r.ctx, r.cmd.recoveryId, d))
  {
    var calls := TwiceSelected();
    LoadDoesIt(calls, [], 0);
    PersistDoesIt(calls, [] + [LoadStep(0)], 0);
  }

  /** From empty tables: a recovery is created, and then the same selection arrives twice, the second time before the
      first has persisted. */
  lemma OverlappingSelections()
    ensures IdsDiffer(TwiceSelected())
    ensures
      var end := After(TwiceSelected(), Creation() + [LoadStep(1)] + [LoadStep(2)] + [PersistStep(1)] + [PersistStep(2)]);
      && 1 in end.answers && Accepted(end.answers[1]) && !Replayed(end.answers[1])
      && 2 in end.answers && Replayed(end.answers[2])
  {
    assert "e0"[1] != "e1"[1] && "e1"[1] != "e2"[1] && "e0"[1] != "e2"[1];
    CreatedFirst();
    OverlapReplays(TwiceSelected(), Creation(), 1, 2);
  }

  // ----- who is behind an authorized recovery -----

  /** The call presented the selected candidate before it expired, and what it rested on had been verified. */
  ghost predicate StandsBehind(r: Request, chosen: Candidate) {
    match r.cmd
    case Create(_, _, _, _) => true
    case Select(_, c) => c == chosen && chosen.legal && r.ctx.now < c.expiresAt
    case RecordValidation(id, c, v, signatureValid) =>
      IsCandidate(c, chosen) && r.ctx.now < c.expiresAt
      && IsClean(v) && Binds(r.ctx, id, c, v.certificate.value) && signatureValid
    case RecordFeasibility(_, c, f, _, holdValid) =>
      IsCandidate(c, chosen) && r.ctx.now < c.expiresAt && f.deployable && !f.hasFindings && holdValid
    case Approve(_, c, reason) =>
      IsCandidate(c, chosen) && r.ctx.now < c.expiresAt && r.ctx.role == "duty-manager" && |Strip(reason)| >= 3
    case Authorize(_, c, holdValid) =>
      IsCandidate(c, chosen) && r.ctx.now < c.expiresAt && r.ctx.role == "deployment-controller" && holdValid
  }

  predicate IsCandidate(c: Candidate, chosen: Candidate) {
    c.candidateId == chosen.candidateId && c.contentSha256 == chosen.contentSha256
  }

  /** The kind of command that takes a recovery to the k-th version. */
  predicate KindAt(cmd: Command, k: int) {
    match cmd
    case Create(_, _, _, _) => k == 1
    case Select(_, _) => k == 2
    case RecordValidation(_, _, _, _) => k == 3
    case RecordFeasibility(_, _, _, _, _) => k == 4
    case Approve(_, _, _) => k == 5
    case Authorize(_, _, _) => k == 6
  }

  /** The j-th call is the one behind the k-th version: of its kind, answered, and on the chosen candidate. */
  ghost predicate IsBehind(calls: seq<Request>, s: Service, j: nat, k: int, chosen: Candidate) {
    j < |calls| && j in s.answers && KindAt(calls[j].cmd, k) && StandsBehind(calls[j], chosen)
  }

  /** The call behind the k-th event of an authorized recovery's history. */
  lemma CallBehind(calls: seq<Request>, s: Service, key: (string, string), k: nat) returns (j: nat)
    requires Inv(calls, s) && |StreamEvents(s.tables, key)| == 6 && k < 6
    requires StreamEvents(s.tables, key)[1].snapshot.selected.Some?
    ensures IsBehind(calls, s, j, k + 1, StreamEvents(s.tables, key)[1].snapshot.selected.value)
    ensures calls[j].ctx.actor == StreamEvents(s.tables, key)[k].actorSubject
  {
    var events := StreamEvents(s.tables, key);
    var e := events[k];
    assert e in events;
    FilterMembers(InStream(key), s.tables.events, e);
    var n :| 0 <= n < |s.tables.events| && s.tables.events[n] == e;
    assert FromSome(calls, s, e);
    j :| j in s.answers && j < |calls| && Wrote(calls[j], e);
    HistoryIsOnRungs(s.tables, key, k);
    if k >= 1 {
      assert HistoryFits(events);
      EvidenceIsKept(events, 1, k);
    }
    HistoryIsOnRungs(s.tables, key, 1);
  }

  ghost predicate AllBehind(calls: seq<Request>, s: Service, who: seq<nat>, chosen: Candidate) {
    |who| == 6 && forall k :: 0 <= k < 6 ==> IsBehind(calls, s, who[k], k + 1, chosen)
  }

  /** The creator, the approver and the controller are three people. */
  ghost predicate ThreePeople(calls: seq<Request>, who: seq<nat>) {
    && |who| == 6 && who[0] < |calls| && who[4] < |calls| && who[5] < |calls|
    && Distinct([calls[who[0]].ctx.actor, calls[who[4]].ctx.actor, calls[who[5]].ctx.actor])
  }

  /** The calls behind the first events, in order. */
  ghost predicate BehindFirst(calls: seq<Request>, s: Service, events: seq<Event>, who: seq<nat>, chosen: Candidate) {
    && |who| <= |events|
    && (forall k :: 0 <= k < |who| ==> IsBehind(calls, s, who[k], k + 1, chosen))
    && (forall k :: 0 <= k < |who| ==> who[k] < |calls| && calls[who[k]].ctx.actor == events[k].actorSubject)
  }

  lemma OneMoreBehind(calls: seq<Request>, s: Service, events: seq<Event>, who: seq<nat>, chosen: Candidate, j: nat)
    requires BehindFirst(calls, s, events, who, chosen) && |who| < |events|
    requires IsBehind(calls, s, j, |who| + 1, chosen) && calls[j].ctx.actor == events[|who|].actorSubject
    ensures BehindFirst(calls, s, events, who + [j], chosen)
  {
  }

  lemma CallsBehindHistory(calls: seq<Request>, s: Service, key: (string, string), n: nat) returns (who: seq<nat>)
    requires Inv(calls, s) && |StreamEvents(s.tables, key)| == 6 && n <= 6
    requires StreamEvents(s.tables, key)[1].snapshot.selected.Some?
    ensures |who| == n
    ensures BehindFirst(calls, s, StreamEvents(s.tables, key), who, StreamEvents(s.tables, key)[1].snapshot.selected.value)
  {
    if n == 0 {
      who := [];
    } else {
      var events := StreamEvents(s.tables, key);
      who := CallsBehindHistory(calls, s, key, n - 1);
      var j := CallBehind(calls, s, key, n - 1);
      OneMoreBehind(calls, s, events, who, events[1].snapshot.selected.value, j);
      who := who + [j];
    }
  }

  lemma DifferentPeople(events: seq<Event>, calls: seq<Request>, who: seq<nat>)
    requires |events| == 6 && |who| == 6 && forall k :: 0 <= k < 6 ==> who[k] < |calls|
    requires forall k :: 0 <= k < 6 ==> calls[who[k]].ctx.actor == events[k].actorSubject
    requires events[0].actorSubject != events[4].actorSubject && events[0].actorSubject != events[5].actorSubject
    requires events[4].actorSubject != events[5].actorSubject
    ensures ThreePeople(calls, who)
  {
  }

  /** However the calls overlapped: an authorized recovery was created, selected, validated, found feasible, approved
      and authorized by six calls, in this order, the later four presenting the one candidate that was selected; each of
      the five found it unexpired, its certificate was clean and bound to it, its signature and its hold verified, the
      last two acted in their roles, and the creator, the approver and the controller are three people. */
  lemma SixCallsBehindIt(calls: seq<Request>, steps: seq<Step>, key: (string, string))
    returns (who: seq<nat>, chosen: Candidate)
    requires IdsDiffer(calls)
    requires var t := After(calls, steps).tables; key in t.snapshots && t.snapshots[key].snapshot.deploymentAuthorized
    ensures AllBehind(calls, After(calls, steps), who, chosen) && ThreePeople(calls, who)
  {
    RunKeepsInv(calls, steps);
    var s := After(calls, steps);
    AuthorizedMeansThreePeople(s.tables, key);
    chosen := StreamEvents(s.tables, key)[1].snapshot.selected.value;
    who := CallsBehindHistory(calls, s, key, 6);
    DifferentPeople(StreamEvents(s.tables, key), calls, who);
  }
}
