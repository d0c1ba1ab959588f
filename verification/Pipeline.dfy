/** The three procedures of the pipeline as the programs that run them: append, publish_batch and process_one.
    Each is a sequence of the protocol's steps, so everything proved about runs holds of them. */
module Pipeline {
  import opened Sequences
  import opened Envelopes
  import opened Delivery

  datatype AppendResult = Appended(event: OperationalEvent) | VersionConflict(found: nat) | Refused

  datatype RowOutcome = RowPublished | RowReleased | RowAbandoned

  /** The counts publish_batch returns, or the error it raises. */
  datatype BatchResult = Counted(claimed: nat, published: nat, failed: nat) | BatchRaised

  datatype ProcessResult = NothingToDo | DeadLettered | AppliedNow | Duplicate | Raised

  /** Rows of a batch that are finished: published, or released with one more attempt counted. */
  ghost predicate RowFinished(before: State, after: State, id: string) {
    && id in before.outbox && id in after.outbox
    && after.outbox[id].event == before.outbox[id].event && after.outbox[id].claimedBy.None?
    && (after.outbox[id].published || after.outbox[id].attempts == before.outbox[id].attempts + 1)
  }

  function PublishedFlag(s: State): string -> int { (id: string) => if id in s.outbox && s.outbox[id].published then 1 else 0 }

  ghost predicate MovedOn(before: State, after: State, id: LaneId) {
    LaneOf(after, id) == Lane(LaneOf(before, id).position + 1, LaneOf(before, id).position + 1, Idle)
  }

  ghost predicate SameEffects(before: State, after: State) {
    after.applied == before.applied && after.dlq == before.dlq
  }

  ghost predicate AppliedOneMore(before: State, after: State, a: Application) {
    after.applied == before.applied + [a] && after.dlq == before.dlq
  }

  ghost predicate DeadLetteredOneMore(before: State, after: State, d: DeadLetter) {
    after.dlq == before.dlq + [d] && after.applied == before.applied
  }

  /** The message had its effect, had it before, or was dead-lettered. */
  ghost predicate TookEffect(before: State, after: State, id: LaneId, v: Verdict) {
    || (v.Process? && (SameEffects(before, after) || AppliedOneMore(before, after, Application(id.group, v.envelope))))
    || (v.Poison? && DeadLetteredOneMore(before, after, DeadLetter(id, LaneOf(before, id).position)))
  }

  /** What each result says about the tables and the committed offset. An error before the effect leaves the tables
      alone; one raised by the commit comes after it. Then the offset stays for redelivery, unless the commit went
      through and only its answer was lost. */
  ghost predicate ProcessedAs(before: State, after: State, id: LaneId, r: ProcessResult) {
    var log, lane := LogOf(before, id.partition), LaneOf(before, id);
    if lane.position >= |log| then r == NothingToDo && after == before
    else
      var v := Classify(log[lane.position]);
      match r
      case NothingToDo => false
      case Raised =>
        || (LaneOf(after, id).committed == lane.committed
            && (SameEffects(before, after) || TookEffect(before, after, id, v)))
        || (MovedOn(before, after, id) && TookEffect(before, after, id, v))
      case DeadLettered =>
        v.Poison? && DeadLetteredOneMore(before, after, DeadLetter(id, lane.position)) && MovedOn(before, after, id)
      case AppliedNow =>
        v.Process? && AppliedOneMore(before, after, Application(id.group, v.envelope)) && MovedOn(before, after, id)
      case Duplicate =>
        v.Process? && SameEffects(before, after) && MovedOn(before, after, id)
  }

  class Database {
    var state: State

    constructor ()
      ensures state == INITIAL
    {
      state := INITIAL;
    }

    /** Appends the next version of a stream, or reports the version it found instead, or that a column refuses it. */
    method AppendEvent(event: OperationalEvent, expectedVersion: nat) returns (r: AppendResult)
      requires FreshId(state, event.eventId)
      modifies this
      ensures state == Do(old(state), Append(event, expectedVersion))
      ensures r.Appended? <==> VersionOf(old(state), StreamOf(event)) == expectedVersion && Insertable(event)
      ensures r.Appended? ==> r.event == event.(aggregateVersion := expectedVersion + 1) && state == Inserted(old(state), r.event)
      ensures r.VersionConflict? ==> state == old(state) && r.found == VersionOf(old(state), StreamOf(event)) != expectedVersion
      ensures r.Refused? ==> state == old(state) && !Insertable(event)
    {
      AppendDoesIt(state, event, expectedVersion);
      var current := VersionOf(state, StreamOf(event));
      if current != expectedVersion {
        return VersionConflict(current);
      }
      if !Insertable(event) {
        return Refused;
      }
      var appended := event.(aggregateVersion := current + 1);
      state := Inserted(state, appended);
      return Appended(appended);
    }

    /** Hands the first row of the batch to the broker, which may store it, acknowledge it, both or neither. */
    method SendRow(worker: string) returns (acknowledged: bool, ghost step: Step)
      requires ProducerInv(state) && WorkerOf(state, worker).queue != [] && WorkerOf(state, worker).phase == Ready
      modifies this
      ensures state == Do(old(state), step)
      ensures RowSent(old(state), state, worker, if acknowledged then Sent else Errored)
    {
      var number: nat, delivered, answered := *, *, *;
      acknowledged := answered && delivered;
      AfterSend(state, worker, number, delivered, acknowledged);
      step := Send(worker, number, delivered, acknowledged);
      state := DoSend(state, worker, number, delivered, acknowledged);
    }

    method MarkRow(worker: string, ghost start: State) returns (ghost step: Step)
      requires WorkerOf(start, worker).queue != [] && RowSent(start, state, worker, Sent)
      modifies this
      ensures state == Do(old(state), step)
      ensures ProducerInv(state) && RowDone(start, state, worker, true)
    {
      AfterMark(start, state, worker);
      step := MarkPublished(worker);
      state := DoMarkPublished(state, worker);
    }

    /** The database raises instead of marking the row. */
    method MarkRaises(worker: string, ghost start: State) returns (ghost step: Step)
      requires WorkerOf(start, worker).queue != [] && RowSent(start, state, worker, Sent)
      modifies this
      ensures state == Do(old(state), step)
      ensures RowSent(start, state, worker, Errored)
    {
      AfterRaise(state, worker);
      step := MarkRaised(worker);
      state := DoMarkRaised(state, worker);
    }

    method ReleaseRow(worker: string, ghost start: State) returns (ghost step: Step)
      requires WorkerOf(start, worker).queue != [] && RowSent(start, state, worker, Errored)
      modifies this
      ensures state == Do(old(state), step)
      ensures ProducerInv(state) && RowDone(start, state, worker, false)
    {
      AfterRelease(start, state, worker);
      step := MarkFailed(worker);
      state := DoMarkFailed(state, worker);
    }

    /** Releasing the row raises in its turn: the call ends, and nobody works on the rest of the batch. */
    method AbandonBatch(worker: string, ghost start: State) returns (ghost step: Step)
      requires WorkerOf(start, worker).queue != [] && RowSent(start, state, worker, Errored)
      modifies this
      ensures state == Do(old(state), step)
      ensures ProducerInv(state) && BatchForgotten(start, state, worker)
    {
      WorkerMoveKeeps(state, worker, Worker([], Ready));
      step := WorkerCrash(worker);
      state := DoWorkerCrash(state, worker);
    }

    /** Publishes and marks the first row of the worker's batch, or releases it, or fails at that too. */
    method PublishRow(worker: string) returns (outcome: RowOutcome, ghost steps: seq<Step>)
      requires ProducerInv(state) && WorkerOf(state, worker).queue != [] && WorkerOf(state, worker).phase == Ready
      modifies this
      ensures state == Run(old(state), steps) && ProducerInv(state)
      ensures if outcome.RowAbandoned? then BatchForgotten(old(state), state, worker)
              else RowDone(old(state), state, worker, outcome.RowPublished?)
    {
      ghost var s0 := state;
      ghost var step: Step;
      var acknowledged;
      acknowledged, step := SendRow(worker);
      steps := [step];
      RunSingle(s0, steps);
      if acknowledged {
        var raised := *;
        if !raised {
          step := MarkRow(worker, s0);
          RunLonger(s0, steps, step);
          return RowPublished, steps + [step];
        }
        step := MarkRaises(worker, s0);
        RunLonger(s0, steps, step);
        steps := steps + [step];
      }
      var releaseRaises := *;
      if releaseRaises {
        step := AbandonBatch(worker, s0);
        RunLonger(s0, steps, step);
        return RowAbandoned, steps + [step];
      }
      step := ReleaseRow(worker, s0);
      RunLonger(s0, steps, step);
      return RowReleased, steps + [step];
    }

    method ClaimBatch(worker: string, ids: seq<string>) returns (ghost steps: seq<Step>)
      requires ProducerInv(state) && WorkerOf(state, worker) == Worker([], Ready) && MayClaim(state, ids)
      modifies this
      ensures state == Run(old(state), steps) && ProducerInv(state)
      ensures BatchAt(old(state), state, worker, ids, 0, 0)
    {
      ClaimKeeps(state, worker, ids);
      BatchStarts(state, worker, ids);
      steps := [Claim(worker, ids)];
      RunSingle(state, steps);
      state := DoClaim(state, worker, ids);
    }

    /** The answer to a commit that went through is lost. To the worker the call failed: it finds no claim to release,
        and the error ends the batch. */
    method LoseAnswer(worker: string) returns (ghost step: Step)
      requires ProducerInv(state)
      modifies this
      ensures state == Do(old(state), step)
      ensures ProducerInv(state) && BatchForgotten(old(state), state, worker)
    {
      WorkerMoveKeeps(state, worker, Worker([], Ready));
      step := WorkerCrash(worker);
      state := DoWorkerCrash(state, worker);
    }

    /** The batch ends there. */
    method GiveUp(worker: string, ghost s0: State, ghost ids: seq<string>, ghost i: nat, ghost published: nat, ghost before: seq<Step>)
      returns (ghost steps: seq<Step>)
      requires state == Run(s0, before) && ProducerInv(state)
      requires MayClaim(s0, ids) && i <= |ids| && BatchAt(s0, state, worker, ids, i, published)
      modifies this
      ensures state == Run(s0, steps) && ProducerInv(state)
      ensures BatchLost(s0, state, worker, ids, i)
    {
      ghost var s1 := state;
      ghost var step := LoseAnswer(worker);
      RunLonger(s0, before, step);
      steps := before + [step];
      ForgottenIsLost(s0, s1, state, worker, ids, i, published);
    }

    /** The next row of a batch under way. The batch may end there: with the row stranded, or finished but unanswered. */
    method PublishNext(worker: string, ghost s0: State, ghost ids: seq<string>, ghost i: nat, ghost published: nat, ghost before: seq<Step>)
      returns (outcome: RowOutcome, ghost done: nat, ghost steps: seq<Step>)
      requires state == Run(s0, before) && ProducerInv(state)
      requires OutboxMatchesEvents(s0) && MayClaim(s0, ids) && i < |ids| && BatchAt(s0, state, worker, ids, i, published)
      modifies this
      ensures state == Run(s0, steps) && ProducerInv(state) && i <= done <= i + 1
      ensures if outcome.RowAbandoned? then BatchLost(s0, state, worker, ids, done)
              else BatchAt(s0, state, worker, ids, i + 1, if outcome.RowPublished? then published + 1 else published)
    {
      ghost var s1 := state;
      BatchHead(s0, s1, worker, ids, i, published);
      ghost var more;
      outcome, more := PublishRow(worker);
      RunJoin(s0, before, more);
      steps := before + more;
      if outcome.RowAbandoned? {
        done := i;
        ForgottenIsLost(s0, s1, state, worker, ids, i, published);
        return;
      }
      BatchStep(s0, s1, state, worker, ids, i, published, outcome.RowPublished?);
      done := i + 1;
      var answerLost := *;
      if answerLost {
        steps := GiveUp(worker, s0, ids, i + 1, if outcome.RowPublished? then published + 1 else published, steps);
        outcome := RowAbandoned;
      }
    }

    /** Claims a batch and works through it. When the call returns, every claimed row is published or released and counted
        once; when it raises, the first of them are, and all later ones are stranded. The row at which it fails is among
        the first if its own write went through unanswered, and among the later ones otherwise. */
    method PublishBatch(worker: string, ids: seq<string>) returns (r: BatchResult, ghost done: nat, ghost steps: seq<Step>)
      requires ProducerInv(state) && WorkerOf(state, worker) == Worker([], Ready) && MayClaim(state, ids)
      modifies this
      ensures state == Run(old(state), steps) && ProducerInv(state)
      ensures WorkerOf(state, worker) == Worker([], Ready)
      ensures r.Counted? ==>
        && r.claimed == |ids| == r.published + r.failed
        && (forall i :: 0 <= i < |ids| ==> RowFinished(old(state), state, ids[i]))
        && r.published == Total(PublishedFlag(state), ids)
      ensures r.BatchRaised? ==> done <= |ids| && BatchLost(old(state), state, worker, ids, done)
    {
      ghost var s0 := state;
      steps := ClaimBatch(worker, ids);
      var published, failed := 0, 0;
      done := 0;
      var claimLost := *;
      if claimLost {
        steps := GiveUp(worker, s0, ids, 0, 0, steps);
        return BatchRaised, 0, steps;
      }
      for i := 0 to |ids|
        invariant state == Run(s0, steps) && ProducerInv(state)
        invariant published + failed == i
        invariant BatchAt(s0, state, worker, ids, i, published)
      {
        var outcome;
        outcome, done, steps := PublishNext(worker, s0, ids, i, published, steps);
        if outcome.RowAbandoned? {
          return BatchRaised, done, steps;
        }
        if outcome.RowPublished? {
          published := published + 1;
        } else {
          failed := failed + 1;
        }
      }
      BatchEnds(s0, state, worker, ids, published);
      r := Counted(|ids|, published, failed);
    }

    /** Takes one message: the effect, the dead letter or the failure, and the commit that follows. */
    method ProcessOne(id: LaneId) returns (r: ProcessResult, ghost steps: seq<Step>)
      requires LaneOf(state, id).phase == Idle
      modifies this
      ensures state == Run(old(state), steps)
      ensures ProcessedAs(old(state), state, id, r)
    {
      ghost var s0 := state;
      var log, lane := LogOf(state, id.partition), LaneOf(state, id);
      if lane.position >= |log| {
        return NothingToDo, [];
      }
      state := DoPoll(state, id);
      var raised := *;
      var v := Classify(log[lane.position]);
      if v.Blocked? || raised {
        steps := [Poll(id)];
        RunSingle(s0, steps);
        return Raised, steps;
      }
      ghost var step;
      r, step := HandleMessage(id, log[lane.position]);
      var commitRaises := *;
      if commitRaises {
        steps := [Poll(id), step];
        RunTwo(s0, steps);
        return Raised, steps;
      }
      state := DoCommit(state, id);
      steps := [Poll(id), step, Commit(id)];
      RunThree(s0, steps);
      var answerLost := *;
      if answerLost {
        r := Raised;
      }
    }

    /** The effect of a readable message, or the dead letter of a poisoned one. */
    method HandleMessage(id: LaneId, m: Message) returns (r: ProcessResult, ghost step: Step)
      requires LaneOf(state, id).phase == Fetched && LaneOf(state, id).position < |LogOf(state, id.partition)|
      requires LogOf(state, id.partition)[LaneOf(state, id).position] == m && !Classify(m).Blocked?
      modifies this
      ensures state == Do(old(state), step)
      ensures LaneOf(state, id) == LaneOf(old(state), id).(phase := Done)
      ensures r.DeadLettered? || r.AppliedNow? || r.Duplicate?
      ensures r.DeadLettered? <==> Classify(m).Poison?
      ensures r.DeadLettered? ==> DeadLetteredOneMore(old(state), state, DeadLetter(id, LaneOf(old(state), id).position))
      ensures r.AppliedNow? ==> AppliedOneMore(old(state), state, Application(id.group, Classify(m).envelope))
      ensures r.Duplicate? ==> SameEffects(old(state), state)
    {
      if Classify(m).Poison? {
        DeadLetterDoesIt(state, id);
        step := DeadLetterIt(id);
        state := DoDeadLetter(state, id);
        r := DeadLettered;
      } else {
        ProcessedIsRecordable(m);
        ApplyDoesIt(state, id);
        step := Apply(id);
        r := if KeyFor(id.group, Classify(m).envelope) in state.consumed then Duplicate else AppliedNow;
        state := DoApply(state, id);
      }
    }
  }

  lemma DeadLetterDoesIt(s: State, id: LaneId)
    requires LaneOf(s, id).phase == Fetched && LaneOf(s, id).position < |LogOf(s, id.partition)|
    requires Classify(LogOf(s, id.partition)[LaneOf(s, id).position]).Poison?
    ensures var t := DoDeadLetter(s, id);
      t == Do(s, DeadLetterIt(id)) && LaneOf(t, id) == LaneOf(s, id).(phase := Done)
      && DeadLetteredOneMore(s, t, DeadLetter(id, LaneOf(s, id).position))
  {
  }

  lemma ApplyDoesIt(s: State, id: LaneId)
    requires LaneOf(s, id).phase == Fetched && LaneOf(s, id).position < |LogOf(s, id.partition)|
    requires Classify(LogOf(s, id.partition)[LaneOf(s, id).position]).Process?
    requires Recordable(Classify(LogOf(s, id.partition)[LaneOf(s, id).position]).envelope)
    ensures var t := DoApply(s, id);
      var envelope := Classify(LogOf(s, id.partition)[LaneOf(s, id).position]).envelope;
      && t == Do(s, Apply(id)) && LaneOf(t, id) == LaneOf(s, id).(phase := Done)
      && (if KeyFor(id.group, envelope) in s.consumed then SameEffects(s, t)
          else AppliedOneMore(s, t, Application(id.group, envelope)))
  {
  }

  lemma AppendDoesIt(s: State, e: OperationalEvent, expectedVersion: nat)
    requires FreshId(s, e.eventId)
    ensures Do(s, Append(e, expectedVersion)) ==
      if VersionOf(s, StreamOf(e)) != expectedVersion || !Insertable(e) then s
      else Inserted(s, e.(aggregateVersion := expectedVersion + 1))
  {
  }

  // ----- one row -----

  /** The first row of the batch is finished; nothing else in the outbox changed. */
  ghost predicate RowDone(before: State, after: State, worker: string, published: bool)
    requires WorkerOf(before, worker).queue != []
  {
    var queue := WorkerOf(before, worker).queue;
    var id := queue[0].eventId;
    && WorkerOf(after, worker) == Worker(queue[1..], Ready)
    && RowFinished(before, after, id)
    && (published <==> after.outbox[id].published)
    && after.outbox == before.outbox[id := after.outbox[id]]
  }

  ghost predicate RowSent(before: State, after: State, worker: string, phase: WorkerPhase) {
    ProducerInv(after) && after.outbox == before.outbox && WorkerOf(after, worker) == WorkerOf(before, worker).(phase := phase)
  }

  lemma AfterSend(s: State, worker: string, number: nat, delivered: bool, acknowledged: bool)
    requires ProducerInv(s) && WorkerOf(s, worker).queue != [] && WorkerOf(s, worker).phase == Ready
    requires acknowledged ==> delivered
    ensures RowSent(s, DoSend(s, worker, number, delivered, acknowledged), worker, if acknowledged then Sent else Errored)
  {
    SendKeeps(s, worker, number, delivered, acknowledged);
  }

  lemma AfterRaise(s: State, worker: string)
    requires ProducerInv(s) && WorkerOf(s, worker).queue != [] && WorkerOf(s, worker).phase == Sent
    ensures RowSent(s, DoMarkRaised(s, worker), worker, Errored)
  {
    MarkRaisedKeeps(s, worker);
  }

  /** Whether the worker's first row is claimed by it and stored as it has it. */
  ghost predicate HasHead(t: State, worker: string) {
    && WorkerOf(t, worker).queue != []
    && HoldsClaim(t, worker, WorkerOf(t, worker).queue[0])
    && t.outbox[WorkerOf(t, worker).queue[0].eventId].event == WorkerOf(t, worker).queue[0]
  }

  lemma HeadIsHeld(t: State, worker: string)
    requires ProducerInv(t) && WorkerOf(t, worker).queue != []
    ensures HasHead(t, worker)
  {
    ClaimsAreNeverStale(t, worker);
    assert WorkerHoldsClaims(t, worker, t.workers[worker]);
  }

  lemma MarkedIsDone(s: State, t: State, worker: string)
    requires WorkerOf(s, worker).queue != [] && t.outbox == s.outbox && HasHead(t, worker)
    requires WorkerOf(t, worker) == WorkerOf(s, worker).(phase := Sent)
    ensures Do(t, MarkPublished(worker)) == DoMarkPublished(t, worker)
    ensures RowDone(s, DoMarkPublished(t, worker), worker, true)
  {
  }

  lemma ReleasedIsDone(s: State, t: State, worker: string)
    requires WorkerOf(s, worker).queue != [] && t.outbox == s.outbox && HasHead(t, worker)
    requires WorkerOf(t, worker) == WorkerOf(s, worker).(phase := Errored)
    ensures Do(t, MarkFailed(worker)) == DoMarkFailed(t, worker)
    ensures RowDone(s, DoMarkFailed(t, worker), worker, false)
  {
    MarkFailedReleases(t, worker);
  }

  lemma AfterMark(s: State, t: State, worker: string)
    requires WorkerOf(s, worker).queue != [] && RowSent(s, t, worker, Sent)
    ensures
      var u := Do(t, MarkPublished(worker));
      u == DoMarkPublished(t, worker) && ProducerInv(u) && RowDone(s, u, worker, true)
  {
    HeadIsHeld(t, worker);
    MarkedIsDone(s, t, worker);
    MarkPublishedKeeps(t, worker);
  }

  lemma AfterRelease(s: State, t: State, worker: string)
    requires WorkerOf(s, worker).queue != [] && RowSent(s, t, worker, Errored)
    ensures
      var u := Do(t, MarkFailed(worker));
      u == DoMarkFailed(t, worker) && ProducerInv(u) && RowDone(s, u, worker, false)
  {
    HeadIsHeld(t, worker);
    ReleasedIsDone(s, t, worker);
    MarkFailedKeeps(t, worker);
  }

  // ----- one batch -----

  /** After i rows: the rest of the batch is still claimed, the first i rows are finished and counted. */
  ghost predicate BatchAt(s0: State, s: State, worker: string, ids: seq<string>, i: nat, published: nat)
    requires MayClaim(s0, ids) && i <= |ids|
  {
    && WorkerOf(s, worker) == Worker(RowEvents(s0.outbox, ids)[i..], Ready)
    && published == Total(PublishedFlag(s), ids[..i])
    && (forall k :: 0 <= k < i ==> RowFinished(s0, s, ids[k]))
    && (forall k :: i <= k < |ids| ==> ids[k] in s.outbox && s.outbox[ids[k]] == s0.outbox[ids[k]].(claimedBy := Some(worker)))
  }

  lemma BatchStarts(s0: State, worker: string, ids: seq<string>)
    requires WorkerOf(s0, worker) == Worker([], Ready) && MayClaim(s0, ids)
    ensures BatchAt(s0, DoClaim(s0, worker, ids), worker, ids, 0, 0)
  {
    var queue := RowEvents(s0.outbox, ids);
    assert queue[0..] == queue;
    forall k | 0 <= k < |ids|
      ensures ids[k] in ids
    {
    }
  }

  lemma BatchEnds(s0: State, s: State, worker: string, ids: seq<string>, published: nat)
    requires MayClaim(s0, ids) && BatchAt(s0, s, worker, ids, |ids|, published)
    ensures WorkerOf(s, worker) == Worker([], Ready)
    ensures forall i :: 0 <= i < |ids| ==> RowFinished(s0, s, ids[i])
    ensures published == Total(PublishedFlag(s), ids)
  {
    assert ids[..|ids|] == ids;
    assert RowEvents(s0.outbox, ids)[|ids|..] == [];
  }

  ghost predicate BatchForgotten(before: State, after: State, worker: string) {
    after.outbox == before.outbox && WorkerOf(after, worker) == Worker([], Ready)
  }

  /** The first i rows are finished; the rest are claimed by a worker that no longer has them. */
  ghost predicate BatchLost(s0: State, s: State, worker: string, ids: seq<string>, i: nat)
    requires i <= |ids|
  {
    && WorkerOf(s, worker) == Worker([], Ready)
    && (forall k :: 0 <= k < i ==> RowFinished(s0, s, ids[k]))
    && (forall k :: i <= k < |ids| ==> Stranded(s, worker, ids[k]))
  }

  lemma ForgottenIsLost(s0: State, s: State, t: State, worker: string, ids: seq<string>, i: nat, published: nat)
    requires MayClaim(s0, ids) && i <= |ids| && BatchAt(s0, s, worker, ids, i, published)
    requires BatchForgotten(s, t, worker)
    ensures BatchLost(s0, t, worker, ids, i)
  {
    forall k | 0 <= k < i
      ensures RowFinished(s0, t, ids[k])
    {
      assert RowFinished(s0, s, ids[k]);
    }
  }

  lemma BatchHead(s0: State, s: State, worker: string, ids: seq<string>, i: nat, published: nat)
    requires OutboxMatchesEvents(s0) && MayClaim(s0, ids) && i < |ids| && BatchAt(s0, s, worker, ids, i, published)
    ensures var w := WorkerOf(s, worker);
      w.queue != [] && w.phase == Ready && w.queue[0].eventId == ids[i] && w.queue[1..] == RowEvents(s0.outbox, ids)[i + 1..]
  {
  }

  lemma FinishedStay(s0: State, s: State, t: State, ids: seq<string>, i: nat, id: string)
    requires i <= |ids| && id !in ids[..i] && id in t.outbox && t.outbox == s.outbox[id := t.outbox[id]]
    requires forall k :: 0 <= k < i ==> RowFinished(s0, s, ids[k])
    ensures forall k :: 0 <= k < i ==> RowFinished(s0, t, ids[k])
    ensures Total(PublishedFlag(t), ids[..i]) == Total(PublishedFlag(s), ids[..i])
  {
    forall k | 0 <= k < i
      ensures RowFinished(s0, t, ids[k])
    {
      assert ids[k] == ids[..i][k];
    }
    FlagsKept(s, t, ids[..i], id);
  }

  lemma FinishedNow(s0: State, s: State, t: State, worker: string, id: string, done: bool)
    requires id in s0.outbox && id in s.outbox && s.outbox[id] == s0.outbox[id].(claimedBy := Some(worker))
    requires RowFinished(s, t, id) && (done <==> t.outbox[id].published)
    ensures RowFinished(s0, t, id) && PublishedFlag(t)(id) == if done then 1 else 0
  {
  }

  lemma BatchStep(s0: State, s: State, t: State, worker: string, ids: seq<string>, i: nat, published: nat, done: bool)
    requires OutboxMatchesEvents(s0) && MayClaim(s0, ids) && i < |ids| && BatchAt(s0, s, worker, ids, i, published)
    requires WorkerOf(s, worker).queue != [] && RowDone(s, t, worker, done)
    ensures BatchAt(s0, t, worker, ids, i + 1, if done then published + 1 else published)
  {
    BatchHead(s0, s, worker, ids, i, published);
    var id := ids[i];
    FinishedNow(s0, s, t, worker, id, done);
    forall k | i < k < |ids|
      ensures ids[k] in t.outbox && t.outbox[ids[k]] == s0.outbox[ids[k]].(claimedBy := Some(worker))
    {
      assert ids[k] != id;
    }
    assert id !in ids[..i];
    FinishedStay(s0, s, t, ids, i, id);
    BatchCount(t, ids, i, published, done);
  }

  lemma BatchCount(t: State, ids: seq<string>, i: nat, published: nat, done: bool)
    requires i < |ids| && published == Total(PublishedFlag(t), ids[..i])
    requires PublishedFlag(t)(ids[i]) == if done then 1 else 0
    ensures Total(PublishedFlag(t), ids[..i + 1]) == if done then published + 1 else published
  {
    assert ids[..i + 1][..i] == ids[..i];
  }

  /** Writing one row leaves the flags of other rows alone. */
  lemma {:induction false} FlagsKept(s: State, t: State, ids: seq<string>, id: string)
    requires id in t.outbox && t.outbox == s.outbox[id := t.outbox[id]] && id !in ids
    ensures Total(PublishedFlag(t), ids) == Total(PublishedFlag(s), ids)
  {
    if ids != [] {
      FlagsKept(s, t, ids[..|ids| - 1], id);
    }
  }
}
