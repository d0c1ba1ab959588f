/** When a consumer can get past a message, and which messages stop a partition for good (state/msk_consumer.py). */
module BlockedLanes {
  import opened Sequences
  import opened Envelopes
  import opened Delivery

  ghost predicate Passes(s: State, id: LaneId, offset: nat, steps: seq<Step>) {
    LaneOf(Run(s, steps), id).committed > offset
  }

  lemma CommittedIsHandled(s: State, id: LaneId, offset: nat)
    requires ConsumerInv(s)
    ensures offset < LaneOf(s, id).committed ==> Handled(s, id, offset)
  {
    if id in s.lanes {
      assert LaneIsHandled(s, id, s.lanes[id]);
    }
  }

  /** Whoever acts, and however often the message is delivered. */
  lemma BlockedIsNeverPassed(s: State, id: LaneId, offset: nat, steps: seq<Step>)
    requires ProducerInv(s) && ConsumerInv(s) && offset < |LogOf(s, id.partition)|
    requires Classify(LogOf(s, id.partition)[offset]).Blocked?
    ensures !Passes(s, id, offset, steps)
  {
    RunOnKeepsInv(s, steps);
    var t := Run(s, steps);
    assert LogOf(s, id.partition) <= LogOf(t, id.partition);
    CommittedIsHandled(t, id, offset);
  }

  // ----- taking the next message -----

  /** The steps of one consumer that takes the next uncommitted message. */
  function TakeNext(id: LaneId, poison: bool): seq<Step> {
    [ConsumerCrash(id), Poll(id), EffectStep(id, poison), Commit(id)]
  }

  lemma CrashThenPoll(s: State, id: LaneId) returns (t: State)
    requires LaneOf(s, id).committed < |LogOf(s, id.partition)|
    ensures t == Do(Do(s, ConsumerCrash(id)), Poll(id))
    ensures LaneOf(t, id) == Lane(LaneOf(s, id).committed, LaneOf(s, id).committed, Fetched)
    ensures t.logs == s.logs && t.consumed == s.consumed
  {
    var s1 := Do(s, ConsumerCrash(id));
    assert LaneOf(s1, id) == Lane(LaneOf(s, id).committed, LaneOf(s, id).committed, Idle);
    t := Do(s1, Poll(id));
  }

  /** One effect of the message under the lane's position. */
  function Effect(s: State, id: LaneId): State
    requires LaneOf(s, id).position < |LogOf(s, id.partition)|
  {
    if Classify(LogOf(s, id.partition)[LaneOf(s, id).position]).Poison? then DoDeadLetter(s, id) else DoApply(s, id)
  }

  lemma EffectIsDone(s: State, id: LaneId)
    requires LaneOf(s, id).phase == Fetched && LaneOf(s, id).position < |LogOf(s, id.partition)|
    requires !Classify(LogOf(s, id.partition)[LaneOf(s, id).position]).Blocked?
    ensures LaneOf(Effect(s, id), id) == LaneOf(s, id).(phase := Done)
  {
  }

  lemma CommitAdvances(s: State, id: LaneId)
    requires LaneOf(s, id).phase == Done
    ensures LaneOf(DoCommit(s, id), id).committed == LaneOf(s, id).position + 1
  {
  }

  lemma EffectThenCommit(s: State, id: LaneId)
    requires LaneOf(s, id).phase == Fetched && LaneOf(s, id).position < |LogOf(s, id.partition)|
    requires !Classify(LogOf(s, id.partition)[LaneOf(s, id).position]).Blocked?
    ensures LaneOf(DoCommit(Effect(s, id), id), id).committed == LaneOf(s, id).position + 1
  {
    EffectIsDone(s, id);
    CommitAdvances(Effect(s, id), id);
  }

  function EffectStep(id: LaneId, poison: bool): Step { if poison then DeadLetterIt(id) else Apply(id) }

  lemma EffectStepDoesIt(s: State, id: LaneId, poison: bool)
    requires LaneOf(s, id).position < |LogOf(s, id.partition)|
    requires poison == Classify(LogOf(s, id.partition)[LaneOf(s, id).position]).Poison?
    ensures Do(s, EffectStep(id, poison)) == Effect(s, id)
  {
  }

  lemma CommitStepDoesIt(s: State, id: LaneId)
    ensures Do(s, Commit(id)) == DoCommit(s, id)
  {
  }

  lemma RunInTwoHalves(s: State, a: Step, b: Step, c: Step, d: Step, t: State, u: State, v: State)
    requires t == Do(Do(s, a), b) && u == Do(t, c) && v == Do(u, d)
    ensures Run(s, [a, b, c, d]) == v
  {
    RunFour(s, a, b, c, d);
  }

  lemma TakingPasses(s: State, id: LaneId)
    requires LaneOf(s, id).committed < |LogOf(s, id.partition)|
    requires !Classify(LogOf(s, id.partition)[LaneOf(s, id).committed]).Blocked?
    ensures var offset := LaneOf(s, id).committed;
      Passes(s, id, offset, TakeNext(id, Classify(LogOf(s, id.partition)[offset]).Poison?))
  {
    var poison := Classify(LogOf(s, id.partition)[LaneOf(s, id).committed]).Poison?;
    var t := CrashThenPoll(s, id);
    EffectStepDoesIt(t, id, poison);
    var u := Effect(t, id);
    CommitStepDoesIt(u, id);
    var v := DoCommit(u, id);
    RunInTwoHalves(s, ConsumerCrash(id), Poll(id), EffectStep(id, poison), Commit(id), t, u, v);
    EffectThenCommit(t, id);
  }

  /** With a handler that can succeed, a partition can move on exactly when its next message is not one of those that
      fail on every delivery. */
  lemma PartitionMovesOnIff(prefix: seq<Step>, id: LaneId)
    requires var s := Run(INITIAL, prefix); LaneOf(s, id).committed < |LogOf(s, id.partition)|
    ensures var s := Run(INITIAL, prefix);
      var offset := LaneOf(s, id).committed;
      (exists steps :: Passes(s, id, offset, steps)) <==> !StopsItsLane(LogOf(s, id.partition)[offset])
  {
    var s := Run(INITIAL, prefix);
    var offset := LaneOf(s, id).committed;
    RunKeepsInv(prefix);
    BlockedIffStops(LogOf(s, id.partition)[offset]);
    if Classify(LogOf(s, id.partition)[offset]).Blocked? {
      forall steps
        ensures !Passes(s, id, offset, steps)
      {
        BlockedIsNeverPassed(s, id, offset, steps);
      }
    } else {
      TakingPasses(s, id);
    }
  }

  // ----- a handler that always raises on some envelopes -----

  type Handler = map<string, Json> -> bool

  predicate OwnStep(id: LaneId, step: Step) {
    match step
    case Poll(l) => l == id
    case Apply(l) => l == id
    case DeadLetterIt(l) => l == id
    case Commit(l) => l == id
    case ConsumerCrash(l) => l == id
    case Redeliver(l, _) => l == id
    case _ => false
  }

  /** Applying here runs the handler, which happens only for an event not consumed before. */
  predicate CallsHandler(s: State, id: LaneId) {
    var lane, log := LaneOf(s, id), LogOf(s, id.partition);
    && lane.phase == Fetched && lane.position < |log| && Classify(log[lane.position]).Process?
    && Recordable(Classify(log[lane.position]).envelope)
    && KeyFor(id.group, Classify(log[lane.position]).envelope) !in s.consumed
  }

  ghost predicate StepFits(handles: Handler, s: State, id: LaneId, step: Step) {
    && OwnStep(id, step)
    && (step.Apply? && CallsHandler(s, id) ==>
          handles(Classify(LogOf(s, id.partition)[LaneOf(s, id).position]).envelope))
  }

  /** A run of this lane's consumer alone, in which the handler succeeds only where it can. */
  ghost predicate OwnRun(handles: Handler, s: State, id: LaneId, steps: seq<Step>) {
    steps == []
    || (OwnRun(handles, s, id, steps[..|steps| - 1])
        && StepFits(handles, Run(s, steps[..|steps| - 1]), id, steps[|steps| - 1]))
  }

  /** The next message is poison, was consumed before, or is one the handler can deal with. */
  predicate CanMove(handles: Handler, s: State, id: LaneId)
    requires LaneOf(s, id).committed < |LogOf(s, id.partition)|
  {
    match Classify(LogOf(s, id.partition)[LaneOf(s, id).committed])
    case Poison => true
    case Blocked => false
    case Process(envelope) => Recordable(envelope) && (KeyFor(id.group, envelope) in s.consumed || handles(envelope))
  }

  /** The consumer is held at the offset: everything before it is handled, and nothing new is consumed. */
  ghost predicate HeldAt(s: State, t: State, id: LaneId, offset: nat) {
    && t.logs == s.logs && t.consumed == s.consumed
    && LaneOf(t, id).position <= offset && LaneOf(t, id).committed <= offset
    && (LaneOf(t, id).phase == Done ==> LaneOf(t, id).position < offset)
  }

  lemma ApplyStaysHeld(handles: Handler, s: State, t: State, id: LaneId, offset: nat)
    requires ConsumerInv(s) && LaneOf(s, id).committed == offset < |LogOf(s, id.partition)|
    requires !CanMove(handles, s, id) && HeldAt(s, t, id, offset) && StepFits(handles, t, id, Apply(id))
    ensures HeldAt(s, DoApply(t, id), id, offset)
  {
    var p := LaneOf(t, id).position;
    if p < offset {
      CommittedIsHandled(s, id, p);
    } else {
      var log := LogOf(s, id.partition);
      assert log[p] == LogOf(t, id.partition)[p];
      if Classify(log[p]).Process? {
        ProcessedIsRecordable(log[p]);
      }
    }
  }

  lemma StepStaysHeld(handles: Handler, s: State, t: State, id: LaneId, offset: nat, step: Step)
    requires ConsumerInv(s) && LaneOf(s, id).committed == offset < |LogOf(s, id.partition)|
    requires !CanMove(handles, s, id) && HeldAt(s, t, id, offset) && StepFits(handles, t, id, step)
    ensures HeldAt(s, Do(t, step), id, offset)
  {
    if step.Apply? {
      ApplyStaysHeld(handles, s, t, id, offset);
    }
  }

  lemma {:induction false} RunStaysHeld(handles: Handler, s: State, id: LaneId, steps: seq<Step>)
    requires ConsumerInv(s) && LaneOf(s, id).committed < |LogOf(s, id.partition)|
    requires !CanMove(handles, s, id) && OwnRun(handles, s, id, steps)
    ensures HeldAt(s, Run(s, steps), id, LaneOf(s, id).committed)
  {
    if steps == [] {
      HeldAtFirst(handles, s, id);
    } else {
      var n := |steps| - 1;
      RunStaysHeld(handles, s, id, steps[..n]);
      StepStaysHeld(handles, s, Run(s, steps[..n]), id, LaneOf(s, id).committed, steps[n]);
    }
  }

  lemma UnmovableIsUnhandled(handles: Handler, s: State, id: LaneId)
    requires LaneOf(s, id).committed < |LogOf(s, id.partition)| && !CanMove(handles, s, id)
    ensures !Handled(s, id, LaneOf(s, id).committed)
  {
  }

  lemma HeldAtFirst(handles: Handler, s: State, id: LaneId)
    requires ConsumerInv(s) && LaneOf(s, id).committed < |LogOf(s, id.partition)| && !CanMove(handles, s, id)
    ensures HeldAt(s, s, id, LaneOf(s, id).committed)
  {
    UnmovableIsUnhandled(handles, s, id);
    UnhandledHolds(s, id, LaneOf(s, id).committed);
  }

  lemma UnhandledHolds(s: State, id: LaneId, offset: nat)
    requires LanesHandled(s) && !Handled(s, id, offset)
    ensures LaneOf(s, id).position <= offset && (LaneOf(s, id).phase == Done ==> LaneOf(s, id).position != offset)
  {
    if id in s.lanes {
      assert LaneIsHandled(s, id, s.lanes[id]);
    }
  }

  lemma OneMoreOwnStep(handles: Handler, s: State, id: LaneId, steps: seq<Step>, step: Step)
    requires OwnRun(handles, s, id, steps) && StepFits(handles, Run(s, steps), id, step)
    ensures OwnRun(handles, s, id, steps + [step]) && Run(s, steps + [step]) == Do(Run(s, steps), step)
  {
    assert (steps + [step])[..|steps|] == steps;
  }

  /** The effect on the message the consumer just fetched is one the handler can bring about. */
  lemma EffectFits(handles: Handler, s: State, t: State, id: LaneId)
    requires LaneOf(s, id).committed < |LogOf(s, id.partition)| && CanMove(handles, s, id)
    requires LaneOf(t, id) == Lane(LaneOf(s, id).committed, LaneOf(s, id).committed, Fetched)
    requires t.logs == s.logs && t.consumed == s.consumed
    ensures StepFits(handles, t, id, EffectStep(id, Classify(LogOf(s, id.partition)[LaneOf(s, id).committed]).Poison?))
  {
  }

  lemma TakingFits(handles: Handler, s: State, id: LaneId)
    requires LaneOf(s, id).committed < |LogOf(s, id.partition)| && CanMove(handles, s, id)
    ensures OwnRun(handles, s, id, TakeNext(id, Classify(LogOf(s, id.partition)[LaneOf(s, id).committed]).Poison?))
  {
    var effect := EffectStep(id, Classify(LogOf(s, id.partition)[LaneOf(s, id).committed]).Poison?);
    var t := CrashThenPoll(s, id);
    EffectFits(handles, s, t, id);
    OneMoreOwnStep(handles, s, id, [], ConsumerCrash(id));
    OneMoreOwnStep(handles, s, id, [] + [ConsumerCrash(id)], Poll(id));
    OneMoreOwnStep(handles, s, id, [] + [ConsumerCrash(id)] + [Poll(id)], effect);
    OneMoreOwnStep(handles, s, id, [] + [ConsumerCrash(id)] + [Poll(id)] + [effect], Commit(id));
    assert [] + [ConsumerCrash(id)] + [Poll(id)] + [effect] + [Commit(id)] == [ConsumerCrash(id), Poll(id), effect, Commit(id)];
  }

  /** A consumer by itself gets past its next message exactly when that message is poison, was consumed before, or is
      one its handler can deal with. */
  lemma ConsumerMovesOnIff(prefix: seq<Step>, id: LaneId, handles: Handler)
    requires var s := Run(INITIAL, prefix); LaneOf(s, id).committed < |LogOf(s, id.partition)|
    ensures var s := Run(INITIAL, prefix);
      (exists steps :: OwnRun(handles, s, id, steps) && Passes(s, id, LaneOf(s, id).committed, steps))
      <==> CanMove(handles, s, id)
  {
    var s := Run(INITIAL, prefix);
    RunKeepsInv(prefix);
    if CanMove(handles, s, id) {
      TakingFits(handles, s, id);
      TakingPasses(s, id);
    } else {
      forall steps | OwnRun(handles, s, id, steps)
        ensures !Passes(s, id, LaneOf(s, id).committed, steps)
      {
        RunStaysHeld(handles, s, id, steps);
      }
    }
  }

  // ----- such messages exist, and one is enough -----

  function Fields(eventId: Json): map<string, Json> {
    map["event_id" := eventId, "tenant_id" := JStr("T"), "aggregate_type" := JStr("flight"),
        "aggregate_id" := JStr("F"), "aggregate_version" := JInt(1), "partition_key" := JStr("T:F"),
        "event_type" := JStr("Delayed"), "schema_version" := JStr("1"), "occurred_at" := JStr("2026-01-01T00:00:00+00:00"),
        "correlation_id" := JStr("C"), "actor_subject" := JStr("A"), "payload" := JObj(map[])]
  }

  lemma BadIdStops()
    ensures DecodeEvent(Document(JObj(Fields(JStr("not-a-uuid"))))).Some?
    ensures StopsItsLane(Message(NoKey, Document(JObj(Fields(JStr("not-a-uuid"))))))
  {
    var fields := Fields(JStr("not-a-uuid"));
    assert fields["event_id"] == JStr("not-a-uuid") && fields["payload"] == JObj(map[]);
    assert !IsHex("not-a-uuid"[0]);
    assert UuidDigits("not-a-uuid").None?;
  }

  /** A key that is not UTF-8, a value the parser chokes on, and a well-formed envelope whose event id is no UUID. */
  lemma MessagesThatStop() returns (brokenKey: Message, badValue: Message, badId: Message)
    ensures brokenKey.key.BrokenKey? && StopsItsLane(brokenKey)
    ensures badValue.key.NoKey? && badValue.value.ParseRaises? && StopsItsLane(badValue)
    ensures badId.key.NoKey? && DecodeEvent(badId.value).Some? && StopsItsLane(badId)
  {
    brokenKey := Message(BrokenKey, NotJson);
    badValue := Message(NoKey, ParseRaises);
    badId := Message(NoKey, Document(JObj(Fields(JStr("not-a-uuid")))));
    BadIdStops();
  }

  /** One such message from another producer holds its partition at offset zero in every group, whatever follows. */
  lemma OneMessageStopsAPartition(m: Message, id: LaneId, rest: seq<Step>)
    requires StopsItsLane(m)
    ensures var s := Run(INITIAL, [Foreign(id.partition, m)]);
      LogOf(s, id.partition) == [m] && LaneOf(s, id).committed == 0 && !Passes(s, id, 0, rest)
  {
    var steps := [Foreign(id.partition, m)];
    RunSingle(INITIAL, steps);
    RunKeepsInv(steps);
    BlockedIffStops(m);
    BlockedIsNeverPassed(Run(INITIAL, steps), id, 0, rest);
  }
}
