/** End-to-end delivery as a state machine: transactional outbox, publishing workers, broker logs and idempotent
    consumers (state/postgres_event_store.py, state/msk_consumer.py). Each database transaction, broker append and
    offset commit is one step; crashes, lost acknowledgements and redelivery are steps of their own. */
module Delivery {
  import opened Sequences
  import opened Envelopes

  datatype OutboxRow = OutboxRow(event: OperationalEvent, published: bool, claimedBy: Option<string>, attempts: nat)

  datatype WorkerPhase = Ready | Sent | Errored

  /** A publishing worker: the rows of its batch still to do, and how far it is with the first of them. */
  datatype Worker = Worker(queue: seq<OperationalEvent>, phase: WorkerPhase)

  datatype Partition = Partition(topic: string, number: nat)

  /** One consumer group reading one partition. */
  datatype LaneId = LaneId(group: string, partition: Partition)

  datatype LanePhase = Idle | Fetched | Done

  datatype Lane = Lane(position: nat, committed: nat, phase: LanePhase)

  /** The key of the consumed_event table. */
  datatype ConsumedKey = ConsumedKey(tenant: string, group: string, eventDigits: string)

  datatype Application = Application(group: string, envelope: map<string, Json>)

  datatype DeadLetter = DeadLetter(lane: LaneId, offset: nat)

  datatype StreamKey = StreamKey(tenant: string, aggregateType: string, aggregateId: string)

  datatype State = State(
    streams: map<StreamKey, nat>,
    events: seq<OperationalEvent>,
    outbox: map<string, OutboxRow>,
    workers: map<string, Worker>,
    logs: map<Partition, seq<Message>>,
    lanes: map<LaneId, Lane>,
    consumed: set<ConsumedKey>,
    applied: seq<Application>,
    dlq: seq<DeadLetter>)

  const INITIAL := State(map[], [], map[], map[], map[], map[], {}, [], [])

  datatype Step =
    | Append(event: OperationalEvent, expectedVersion: nat)
    | Claim(worker: string, ids: seq<string>)
    | Send(worker: string, number: nat, delivered: bool, acknowledged: bool)
    | MarkPublished(worker: string)
    | MarkRaised(worker: string)
    | MarkFailed(worker: string)
    | WorkerCrash(worker: string)
    | Foreign(partition: Partition, message: Message)
    | Poll(lane: LaneId)
    | Apply(lane: LaneId)
    | DeadLetterIt(lane: LaneId)
    | Commit(lane: LaneId)
    | ConsumerCrash(lane: LaneId)
    | Redeliver(lane: LaneId, position: nat)

  // ----- reading the state -----

  function StreamOf(e: OperationalEvent): StreamKey { StreamKey(e.tenantId, e.aggregateType, e.aggregateId) }

  function VersionOf(s: State, key: StreamKey): nat { if key in s.streams then s.streams[key] else 0 }

  function WorkerOf(s: State, w: string): Worker { if w in s.workers then s.workers[w] else Worker([], Ready) }

  function LogOf(s: State, p: Partition): seq<Message> { if p in s.logs then s.logs[p] else [] }

  function LaneOf(s: State, id: LaneId): Lane { if id in s.lanes then s.lanes[id] else Lane(0, 0, Idle) }

  ghost predicate InLog(s: State, p: Partition, m: Message) { m in LogOf(s, p) }

  /** The event id that a processable message carries. */
  ghost predicate Carries(m: Message, id: string) {
    var v := Classify(m);
    v.Process? && Recordable(v.envelope) && UuidDigits(v.envelope["event_id"].s) == UuidDigits(id)
  }

  /** A generated id that no event has and no message carries. */
  ghost predicate FreshId(s: State, id: string) {
    GeneratedUuid(id) && id !in s.outbox && forall p, m :: InLog(s, p, m) ==> !Carries(m, id)
  }

  predicate Claimable(s: State, id: string) {
    id in s.outbox && !s.outbox[id].published && s.outbox[id].claimedBy.None?
  }

  function KeyFor(group: string, envelope: map<string, Json>): ConsumedKey
    requires Recordable(envelope)
  {
    ConsumedKey(envelope["tenant_id"].s, group, UuidDigits(envelope["event_id"].s).value)
  }

  lemma ProcessedIsRecordable(m: Message)
    requires Classify(m).Process?
    ensures Recordable(Classify(m).envelope)
  {
  }

  // ----- the steps -----

  /** The appended event gets the next version of its stream; a stale expectation or a value that a column refuses rolls
      everything back. */
  ghost function DoAppend(s: State, e: OperationalEvent, expectedVersion: nat): State {
    var key := StreamOf(e);
    var current := VersionOf(s, key);
    if current != expectedVersion || !FreshId(s, e.eventId) || !Insertable(e) then s
    else Inserted(s, e.(aggregateVersion := current + 1))
  }

  /** The event, its stream's version and its outbox row, written together. */
  function Inserted(s: State, event: OperationalEvent): State {
    s.(events := s.events + [event],
       streams := s.streams[StreamOf(event) := event.aggregateVersion],
       outbox := s.outbox[event.eventId := OutboxRow(event, false, None, 0)])
  }

  function ClaimedRows(outbox: map<string, OutboxRow>, w: string, ids: seq<string>): map<string, OutboxRow> {
    map id | id in outbox :: if id in ids then outbox[id].(claimedBy := Some(w)) else outbox[id]
  }

  function RowEvents(outbox: map<string, OutboxRow>, ids: seq<string>): (events: seq<OperationalEvent>)
    requires forall i :: 0 <= i < |ids| ==> ids[i] in outbox
    ensures |events| == |ids| && forall i :: 0 <= i < |ids| ==> events[i] == outbox[ids[i]].event
  {
    if ids == [] then []
    else RowEvents(outbox, ids[..|ids| - 1]) + [outbox[ids[|ids| - 1]].event]
  }

  predicate MayClaim(s: State, ids: seq<string>) {
    && (forall i, j :: 0 <= i < j < |ids| ==> ids[i] != ids[j])
    && (forall i :: 0 <= i < |ids| ==> Claimable(s, ids[i]))
  }

  /** A batch is claimed only when the previous one is finished; any set of claimable rows may be picked. */
  function DoClaim(s: State, w: string, ids: seq<string>): State {
    if WorkerOf(s, w).queue != [] || !MayClaim(s, ids) then s
    else
      s.(outbox := ClaimedRows(s.outbox, w, ids),
         workers := s.workers[w := Worker(RowEvents(s.outbox, ids), Ready)])
  }

  function AppendMessage(s: State, p: Partition, m: Message): map<Partition, seq<Message>> {
    s.logs[p := LogOf(s, p) + [m]]
  }

  /** The broker may store the message without the worker learning of it; the reverse cannot happen. */
  function DoSend(s: State, w: string, number: nat, delivered: bool, acknowledged: bool): State {
    var worker := WorkerOf(s, w);
    if worker.queue == [] || worker.phase != Ready || (acknowledged && !delivered) then s
    else
      var e := worker.queue[0];
      s.(logs := if delivered then AppendMessage(s, Partition(e.topic, number), Render(e)) else s.logs,
         workers := s.workers[w := worker.(phase := if acknowledged then Sent else Errored)])
  }

  predicate HoldsClaim(s: State, w: string, e: OperationalEvent) {
    e.eventId in s.outbox && s.outbox[e.eventId].claimedBy == Some(w) && !s.outbox[e.eventId].published
  }

  /** Write the row back and go on with the rest of the batch. */
  function FinishRow(s: State, w: string, row: OutboxRow): State
    requires WorkerOf(s, w).queue != []
  {
    s.(outbox := s.outbox[row.event.eventId := row],
       workers := s.workers[w := Worker(WorkerOf(s, w).queue[1..], Ready)])
  }

  function DropBatch(s: State, w: string): State { s.(workers := s.workers[w := Worker([], Ready)]) }

  /** A claim found missing raises out of the batch: the worker forgets the rest of it. */
  function DoMarkPublished(s: State, w: string): State {
    var worker := WorkerOf(s, w);
    if worker.queue == [] || worker.phase != Sent then s
    else
      var e := worker.queue[0];
      if HoldsClaim(s, w, e) then FinishRow(s, w, s.outbox[e.eventId].(event := e, published := true, claimedBy := None))
      else DropBatch(s, w)
  }

  /** The database call that marks the row raised: the worker falls into its failure path. */
  function DoMarkRaised(s: State, w: string): State {
    var worker := WorkerOf(s, w);
    if worker.queue == [] || worker.phase != Sent then s
    else s.(workers := s.workers[w := worker.(phase := Errored)])
  }

  function DoMarkFailed(s: State, w: string): State {
    var worker := WorkerOf(s, w);
    if worker.queue == [] || worker.phase != Errored then s
    else
      var e := worker.queue[0];
      if HoldsClaim(s, w, e) then
        var row := s.outbox[e.eventId];
        FinishRow(s, w, row.(event := e, attempts := row.attempts + 1, claimedBy := None))
      else DropBatch(s, w)
  }

  function DoWorkerCrash(s: State, w: string): State { DropBatch(s, w) }

  /** Other producers write what they like. */
  function DoForeign(s: State, p: Partition, m: Message): State { s.(logs := AppendMessage(s, p, m)) }

  function DoPoll(s: State, id: LaneId): State {
    var lane := LaneOf(s, id);
    if lane.phase != Idle || lane.position >= |LogOf(s, id.partition)| then s
    else s.(lanes := s.lanes[id := lane.(phase := Fetched)])
  }

  /** The projection transaction: the effect happens only if the event was not consumed before. */
  function DoApply(s: State, id: LaneId): State {
    var lane := LaneOf(s, id);
    var log := LogOf(s, id.partition);
    if lane.phase != Fetched || lane.position >= |log| || !Classify(log[lane.position]).Process? then s
    else
      var envelope := Classify(log[lane.position]).envelope;
      ProcessedIsRecordable(log[lane.position]);
      var key := KeyFor(id.group, envelope);
      var s' := s.(lanes := s.lanes[id := lane.(phase := Done)]);
      if key in s.consumed then s'
      else s'.(consumed := s.consumed + {key}, applied := s.applied + [Application(id.group, envelope)])
  }

  function DoDeadLetter(s: State, id: LaneId): State {
    var lane := LaneOf(s, id);
    var log := LogOf(s, id.partition);
    if lane.phase != Fetched || lane.position >= |log| || !Classify(log[lane.position]).Poison? then s
    else
      s.(lanes := s.lanes[id := lane.(phase := Done)], dlq := s.dlq + [DeadLetter(id, lane.position)])
  }

  function DoCommit(s: State, id: LaneId): State {
    var lane := LaneOf(s, id);
    if lane.phase != Done then s
    else s.(lanes := s.lanes[id := Lane(lane.position + 1, lane.position + 1, Idle)])
  }

  function DoConsumerCrash(s: State, id: LaneId): State {
    var lane := LaneOf(s, id);
    s.(lanes := s.lanes[id := Lane(lane.committed, lane.committed, Idle)])
  }

  function DoRedeliver(s: State, id: LaneId, position: nat): State {
    var lane := LaneOf(s, id);
    if position > lane.position then s
    else s.(lanes := s.lanes[id := Lane(position, lane.committed, Idle)])
  }

  ghost function Do(s: State, step: Step): State {
    match step
    case Append(e, v) => DoAppend(s, e, v)
    case Claim(w, ids) => DoClaim(s, w, ids)
    case Send(w, n, delivered, acknowledged) => DoSend(s, w, n, delivered, acknowledged)
    case MarkPublished(w) => DoMarkPublished(s, w)
    case MarkRaised(w) => DoMarkRaised(s, w)
    case MarkFailed(w) => DoMarkFailed(s, w)
    case WorkerCrash(w) => DoWorkerCrash(s, w)
    case Foreign(p, m) => DoForeign(s, p, m)
    case Poll(id) => DoPoll(s, id)
    case Apply(id) => DoApply(s, id)
    case DeadLetterIt(id) => DoDeadLetter(s, id)
    case Commit(id) => DoCommit(s, id)
    case ConsumerCrash(id) => DoConsumerCrash(s, id)
    case Redeliver(id, position) => DoRedeliver(s, id, position)
  }

  /** The state after a run, in any interleaving of the steps. */
  ghost function Run(s: State, steps: seq<Step>): State {
    if steps == [] then s else Do(Run(s, steps[..|steps| - 1]), steps[|steps| - 1])
  }

  // ----- the invariant -----

  /** Every event has its outbox row and every row its event; ids are never reused. */
  ghost predicate OutboxMatchesEvents(s: State) {
    && (forall e :: e in s.events ==> e.eventId in s.outbox && s.outbox[e.eventId].event == e && e.aggregateVersion > 0)
    && (forall id :: id in s.outbox ==> s.outbox[id].event in s.events && s.outbox[id].event.eventId == id)
    && (forall i, j :: 0 <= i < j < |s.events| ==> s.events[i].eventId != s.events[j].eventId)
  }

  /** Every event fits the columns it is stored in. */
  ghost predicate EventsFit(s: State) {
    forall e {:trigger Insertable(e)} :: e in s.events ==> Insertable(e)
  }

  ghost predicate OnBroker(s: State, e: OperationalEvent) {
    exists p: Partition :: p.topic == e.topic && InLog(s, p, Render(e))
  }

  /** Workers hold the claims of the rows they still have to publish. */
  ghost predicate WorkersHoldClaims(s: State) {
    forall w :: w in s.workers ==> WorkerHoldsClaims(s, w, s.workers[w])
  }

  ghost predicate WorkerHoldsClaims(s: State, w: string, worker: Worker) {
    && (forall e :: e in worker.queue ==> HoldsClaim(s, w, e) && s.outbox[e.eventId].event == e)
    && (forall i, j :: 0 <= i < j < |worker.queue| ==> worker.queue[i].eventId != worker.queue[j].eventId)
    && (worker.phase == Sent ==> worker.queue != [] && OnBroker(s, worker.queue[0]))
  }

  ghost predicate PublishedIsOnBroker(s: State) {
    forall id :: id in s.outbox && s.outbox[id].published ==> OnBroker(s, s.outbox[id].event)
  }

  /** A message that carries the id of an outbox event has that event's envelope. */
  ghost predicate NoForgeries(s: State) {
    forall p, m, id :: InLog(s, p, m) && id in s.outbox && Carries(m, id) ==> HasEnvelopeOf(s, m, id)
  }

  predicate HasEnvelopeOf(s: State, m: Message, id: string) {
    id in s.outbox && Classify(m) == Process(Envelope(s.outbox[id].event))
  }

  /** Another producer uses the id of an outbox event for something else than that event. */
  ghost predicate Forges(s: State, step: Step) {
    step.Foreign? && exists id :: id in s.outbox && Carries(step.message, id) && !HasEnvelopeOf(s, step.message, id)
  }

  /** The consumed table lists exactly the applied events, and no event is applied twice in a group. */
  ghost predicate AppliedOnce(s: State) {
    && (forall a :: a in s.applied ==> Recordable(a.envelope) && KeyFor(a.group, a.envelope) in s.consumed)
    && (forall key :: key in s.consumed ==> HasApplication(s, key))
    && (forall i, j :: 0 <= i < j < |s.applied| ==> DifferentKeys(s.applied[i], s.applied[j]))
  }

  ghost predicate DifferentKeys(a: Application, b: Application) {
    Recordable(a.envelope) && Recordable(b.envelope)
    && KeyFor(a.group, a.envelope) != KeyFor(b.group, b.envelope)
  }

  ghost predicate IsApplication(a: Application, key: ConsumedKey) {
    Recordable(a.envelope) && KeyFor(a.group, a.envelope) == key
  }

  ghost predicate HasApplication(s: State, key: ConsumedKey) {
    exists a :: a in s.applied && IsApplication(a, key)
  }

  /** What was applied came from a broker log. */
  ghost predicate AppliedFromLog(s: State) {
    forall a :: a in s.applied ==> exists p, m :: InLog(s, p, m) && Classify(m) == Process(a.envelope)
  }

  /** The message at an offset was applied in this group, or dead-lettered. */
  ghost predicate Handled(s: State, id: LaneId, offset: nat) {
    && offset < |LogOf(s, id.partition)|
    && match Classify(LogOf(s, id.partition)[offset])
       case Process(envelope) => Recordable(envelope) && KeyFor(id.group, envelope) in s.consumed
       case Poison => DeadLetter(id, offset) in s.dlq
       case Blocked => false
  }

  ghost predicate LaneIsHandled(s: State, id: LaneId, lane: Lane) {
    && (forall o: nat :: o < lane.position || o < lane.committed ==> Handled(s, id, o))
    && (lane.phase == Done ==> Handled(s, id, lane.position))
  }

  ghost predicate LanesHandled(s: State) {
    forall id :: id in s.lanes ==> LaneIsHandled(s, id, s.lanes[id])
  }

  ghost predicate DeadLettersArePoison(s: State) {
    forall d :: d in s.dlq ==>
      d.offset < |LogOf(s, d.lane.partition)| && Classify(LogOf(s, d.lane.partition)[d.offset]).Poison?
  }

  // ----- the invariant is kept by every step -----

  /** The steps that only move consumers leave the producer side alone. */
  ghost predicate SameProducers(s: State, t: State) {
    s.events == t.events && s.outbox == t.outbox && s.workers == t.workers && s.logs == t.logs
  }

  ghost predicate SameConsumers(s: State, t: State) {
    s.lanes == t.lanes && s.consumed == t.consumed && s.applied == t.applied && s.dlq == t.dlq
  }

  ghost predicate ProducerInv(s: State) {
    OutboxMatchesEvents(s) && EventsFit(s) && WorkersHoldClaims(s) && PublishedIsOnBroker(s)
  }

  ghost predicate ConsumerInv(s: State) {
    AppliedOnce(s) && AppliedFromLog(s) && LanesHandled(s) && DeadLettersArePoison(s)
  }

  ghost predicate LogsGrow(s: State, t: State) {
    forall p :: LogOf(s, p) <= LogOf(t, p)
  }

  lemma ConsumersSurviveGrowth(s: State, t: State)
    requires ConsumerInv(s) && SameConsumers(s, t) && LogsGrow(s, t)
    ensures ConsumerInv(t)
  {
    forall a | a in t.applied
      ensures exists p, m :: InLog(t, p, m) && Classify(m) == Process(a.envelope)
    {
      var p, m :| InLog(s, p, m) && Classify(m) == Process(a.envelope);
      assert LogOf(s, p) <= LogOf(t, p);
      assert InLog(t, p, m);
    }
    forall id | id in t.lanes
      ensures LaneIsHandled(t, id, t.lanes[id])
    {
      assert LogOf(s, id.partition) <= LogOf(t, id.partition);
      forall o: nat | Handled(s, id, o)
        ensures Handled(t, id, o)
      {
      }
    }
    forall d | d in t.dlq
      ensures d.offset < |LogOf(t, d.lane.partition)| && Classify(LogOf(t, d.lane.partition)[d.offset]).Poison?
    {
      assert LogOf(s, d.lane.partition) <= LogOf(t, d.lane.partition);
    }
    forall key | key in t.consumed
      ensures HasApplication(t, key)
    {
      assert HasApplication(s, key);
    }
  }

  lemma OnBrokerGrows(s: State, t: State, e: OperationalEvent)
    requires LogsGrow(s, t) && OnBroker(s, e)
    ensures OnBroker(t, e)
  {
    var p: Partition :| p.topic == e.topic && InLog(s, p, Render(e));
    assert LogOf(s, p) <= LogOf(t, p);
    assert InLog(t, p, Render(e));
  }

  lemma StillOnBroker(s: State, t: State)
    requires LogsGrow(s, t)
    ensures forall e :: OnBroker(s, e) ==> OnBroker(t, e)
  {
    forall e | OnBroker(s, e)
      ensures OnBroker(t, e)
    {
      OnBrokerGrows(s, t, e);
    }
  }

  /** Workers keep their claims when their rows are left alone. */
  lemma ClaimsSurvive(s: State, t: State)
    requires WorkersHoldClaims(s) && t.workers == s.workers && LogsGrow(s, t)
    requires forall id :: id in s.outbox ==> id in t.outbox && t.outbox[id] == s.outbox[id]
    ensures WorkersHoldClaims(t)
  {
    StillOnBroker(s, t);
    forall w | w in t.workers
      ensures WorkerHoldsClaims(t, w, t.workers[w])
    {
      assert WorkerHoldsClaims(s, w, s.workers[w]);
    }
  }

  lemma OneMoreEvent(s: State, t: State, e: OperationalEvent)
    requires OutboxMatchesEvents(s) && e.eventId !in s.outbox && e.aggregateVersion > 0
    requires t.events == s.events + [e] && t.outbox == s.outbox[e.eventId := OutboxRow(e, false, None, 0)]
    ensures OutboxMatchesEvents(t)
  {
    forall i | 0 <= i < |s.events|
      ensures s.events[i].eventId != e.eventId
    {
      assert s.events[i] in s.events;
    }
    assert forall x :: x in t.events <==> x in s.events || x == e;
  }

  lemma AppendMatchesOutbox(s: State, e: OperationalEvent, v: nat)
    requires OutboxMatchesEvents(s)
    ensures OutboxMatchesEvents(DoAppend(s, e, v))
  {
    if DoAppend(s, e, v) != s {
      OneMoreEvent(s, DoAppend(s, e, v), e.(aggregateVersion := VersionOf(s, StreamOf(e)) + 1));
    }
  }

  lemma AppendFits(s: State, e: OperationalEvent, v: nat)
    requires EventsFit(s)
    ensures EventsFit(DoAppend(s, e, v))
  {
    var t := DoAppend(s, e, v);
    if t != s {
      var event := e.(aggregateVersion := VersionOf(s, StreamOf(e)) + 1);
      assert Insertable(event);
      assert forall x :: x in t.events ==> x in s.events || x == event;
    }
  }

  lemma AppendStaysPublished(s: State, e: OperationalEvent, v: nat)
    requires PublishedIsOnBroker(s) && WorkersHoldClaims(s)
    ensures PublishedIsOnBroker(DoAppend(s, e, v)) && WorkersHoldClaims(DoAppend(s, e, v))
  {
    StillOnBroker(s, DoAppend(s, e, v));
    ClaimsSurvive(s, DoAppend(s, e, v));
  }

  lemma AppendKeeps(s: State, e: OperationalEvent, v: nat)
    requires ProducerInv(s)
    ensures ProducerInv(DoAppend(s, e, v))
  {
    AppendMatchesOutbox(s, e, v);
    AppendFits(s, e, v);
    AppendStaysPublished(s, e, v);
  }

  lemma ClaimedQueue(s: State, t: State, w: string, ids: seq<string>)
    requires OutboxMatchesEvents(s) && Distinct(ids)
    requires forall i :: 0 <= i < |ids| ==> ids[i] in s.outbox && Claimable(s, ids[i])
    requires t.outbox == ClaimedRows(s.outbox, w, ids)
    ensures WorkerHoldsClaims(t, w, Worker(RowEvents(s.outbox, ids), Ready))
  {
    var queue := RowEvents(s.outbox, ids);
    forall i | 0 <= i < |queue|
      ensures HoldsClaim(t, w, queue[i]) && t.outbox[queue[i].eventId].event == queue[i] && queue[i].eventId == ids[i]
    {
      assert ids[i] in ids;
    }
  }

  lemma ClaimLeavesOthers(s: State, t: State, w: string, ids: seq<string>, v: string, worker: Worker)
    requires forall i :: 0 <= i < |ids| ==> Claimable(s, ids[i])
    requires t.outbox == ClaimedRows(s.outbox, w, ids) && t.logs == s.logs
    requires WorkerHoldsClaims(s, v, worker)
    ensures WorkerHoldsClaims(t, v, worker)
  {
    LogsUnchanged(s, t);
  }

  lemma ClaimKeeps(s: State, w: string, ids: seq<string>)
    requires ProducerInv(s)
    ensures ProducerInv(DoClaim(s, w, ids))
  {
    var t := DoClaim(s, w, ids);
    if WorkerOf(s, w).queue == [] && MayClaim(s, ids) {
      LogsUnchanged(s, t);
      ClaimedQueue(s, t, w, ids);
      forall v | v in t.workers
        ensures WorkerHoldsClaims(t, v, t.workers[v])
      {
        if v != w {
          assert WorkerHoldsClaims(s, v, s.workers[v]);
          ClaimLeavesOthers(s, t, w, ids, v, s.workers[v]);
        }
      }
      RowsOnlyClaimed(s, t, w, ids);
    }
  }

  lemma RowsOnlyClaimed(s: State, t: State, w: string, ids: seq<string>)
    requires OutboxMatchesEvents(s) && PublishedIsOnBroker(s)
    requires t.outbox == ClaimedRows(s.outbox, w, ids) && t.logs == s.logs && t.events == s.events
    ensures OutboxMatchesEvents(t) && PublishedIsOnBroker(t)
  {
    SameEventsStayPublished(s, t);
  }

  lemma SameEventsStayPublished(s: State, t: State)
    requires OutboxMatchesEvents(s) && PublishedIsOnBroker(s)
    requires t.logs == s.logs && t.events == s.events && t.outbox.Keys == s.outbox.Keys
    requires forall id :: id in t.outbox ==>
      t.outbox[id].event == s.outbox[id].event && t.outbox[id].published == s.outbox[id].published
    ensures OutboxMatchesEvents(t) && PublishedIsOnBroker(t)
  {
    LogsUnchanged(s, t);
  }

  lemma SendKeepsClaims(s: State, w: string, number: nat, delivered: bool, acknowledged: bool)
    requires WorkersHoldClaims(s)
    ensures WorkersHoldClaims(DoSend(s, w, number, delivered, acknowledged))
    ensures LogsGrow(s, DoSend(s, w, number, delivered, acknowledged))
  {
    var t := DoSend(s, w, number, delivered, acknowledged);
    if t != s {
      var e := WorkerOf(s, w).queue[0];
      var p0 := Partition(e.topic, number);
      if delivered {
        assert LogOf(t, p0)[|LogOf(s, p0)|] == Render(e);
        assert InLog(t, p0, Render(e));
      }
      StillOnBroker(s, t);
      forall v | v in t.workers
        ensures WorkerHoldsClaims(t, v, t.workers[v])
      {
        assert v in s.workers && WorkerHoldsClaims(s, v, s.workers[v]);
      }
    }
  }

  lemma SendKeeps(s: State, w: string, number: nat, delivered: bool, acknowledged: bool)
    requires ProducerInv(s)
    ensures ProducerInv(DoSend(s, w, number, delivered, acknowledged))
    ensures LogsGrow(s, DoSend(s, w, number, delivered, acknowledged))
  {
    SendKeepsClaims(s, w, number, delivered, acknowledged);
    StillOnBroker(s, DoSend(s, w, number, delivered, acknowledged));
  }

  lemma LogsUnchanged(s: State, t: State)
    requires s.logs == t.logs
    ensures forall e :: OnBroker(s, e) ==> OnBroker(t, e)
    ensures forall p, m :: InLog(t, p, m) ==> InLog(s, p, m)
  {
    forall e | OnBroker(s, e)
      ensures OnBroker(t, e)
    {
      OnBrokerGrows(s, t, e);
    }
  }

  /** The claims of a worker survive when the row of another worker, or of an earlier event, is written. */
  lemma OtherClaimsSurvive(s: State, t: State, v: string, worker: Worker, row: OutboxRow)
    requires t.logs == s.logs && t.outbox == s.outbox[row.event.eventId := row]
    requires WorkerHoldsClaims(s, v, worker) && forall e :: e in worker.queue ==> e.eventId != row.event.eventId
    ensures WorkerHoldsClaims(t, v, worker)
  {
    LogsUnchanged(s, t);
  }

  lemma RowDoneKeepsClaims(s: State, w: string, row: OutboxRow)
    requires WorkersHoldClaims(s) && WorkerOf(s, w).queue != []
    requires row.event == WorkerOf(s, w).queue[0] && HoldsClaim(s, w, row.event)
    ensures WorkersHoldClaims(FinishRow(s, w, row))
  {
    var t := FinishRow(s, w, row);
    assert WorkerHoldsClaims(s, w, s.workers[w]);
    forall v | v in t.workers
      ensures WorkerHoldsClaims(t, v, t.workers[v])
    {
      if v != w {
        assert WorkerHoldsClaims(s, v, s.workers[v]);
      } else {
        assert WorkerHoldsClaims(s, w, Worker(s.workers[w].queue[1..], Ready));
      }
      OtherClaimsSurvive(s, t, v, t.workers[v], row);
    }
  }

  lemma RowDoneKeepsTables(s: State, t: State, row: OutboxRow)
    requires OutboxMatchesEvents(s) && EventsFit(s) && PublishedIsOnBroker(s)
    requires row.event in s.events && (row.published ==> OnBroker(s, row.event))
    requires t.outbox == s.outbox[row.event.eventId := row] && t.events == s.events && t.logs == s.logs
    ensures OutboxMatchesEvents(t) && EventsFit(t) && PublishedIsOnBroker(t)
  {
    LogsUnchanged(s, t);
  }

  /** Finishing with a row and moving on. */
  lemma RowDoneKeeps(s: State, w: string, row: OutboxRow)
    requires ProducerInv(s) && WorkerOf(s, w).queue != []
    requires row.event == WorkerOf(s, w).queue[0] && (row.published ==> OnBroker(s, row.event))
    requires HoldsClaim(s, w, row.event)
    ensures ProducerInv(FinishRow(s, w, row))
  {
    HeadIsAppended(s, w);
    RowDoneKeepsClaims(s, w, row);
    RowDoneKeepsTables(s, FinishRow(s, w, row), row);
  }

  lemma HeadIsAppended(s: State, w: string)
    requires OutboxMatchesEvents(s) && WorkersHoldClaims(s) && WorkerOf(s, w).queue != []
    ensures WorkerOf(s, w).queue[0] in s.events
  {
    var e := WorkerOf(s, w).queue[0];
    assert WorkerHoldsClaims(s, w, s.workers[w]);
    assert s.outbox[e.eventId].event == e;
  }

  lemma WorkerMoveKeeps(s: State, w: string, worker: Worker)
    requires ProducerInv(s) && WorkerHoldsClaims(s, w, worker)
    ensures ProducerInv(s.(workers := s.workers[w := worker]))
  {
    var t := s.(workers := s.workers[w := worker]);
    LogsUnchanged(s, t);
    forall v | v in t.workers
      ensures WorkerHoldsClaims(t, v, t.workers[v])
    {
      if v != w {
        assert WorkerHoldsClaims(s, v, s.workers[v]);
      }
    }
  }

  lemma MarkPublishedKeeps(s: State, w: string)
    requires ProducerInv(s)
    ensures ProducerInv(DoMarkPublished(s, w))
  {
    var worker := WorkerOf(s, w);
    if worker.queue != [] && worker.phase == Sent {
      var e := worker.queue[0];
      ClaimsAreNeverStale(s, w);
      assert WorkerHoldsClaims(s, w, s.workers[w]);
      RowDoneKeeps(s, w, s.outbox[e.eventId].(event := e, published := true, claimedBy := None));
    }
  }

  /** The row as a failed worker hands it back. */
  function ReleasedRow(s: State, e: OperationalEvent): OutboxRow
    requires e.eventId in s.outbox
  {
    var row := s.outbox[e.eventId];
    row.(event := e, attempts := row.attempts + 1, claimedBy := None)
  }

  lemma MarkFailedReleases(s: State, w: string)
    requires WorkerOf(s, w).queue != [] && WorkerOf(s, w).phase == Errored && HoldsClaim(s, w, WorkerOf(s, w).queue[0])
    ensures DoMarkFailed(s, w) == FinishRow(s, w, ReleasedRow(s, WorkerOf(s, w).queue[0]))
  {
  }

  lemma MarkFailedKeeps(s: State, w: string)
    requires ProducerInv(s)
    ensures ProducerInv(DoMarkFailed(s, w))
  {
    var worker := WorkerOf(s, w);
    if worker.queue != [] && worker.phase == Errored {
      ClaimsAreNeverStale(s, w);
      MarkFailedReleases(s, w);
      RowDoneKeeps(s, w, ReleasedRow(s, worker.queue[0]));
    }
  }

  lemma MarkRaisedKeeps(s: State, w: string)
    requires ProducerInv(s)
    ensures ProducerInv(DoMarkRaised(s, w))
  {
    var worker := WorkerOf(s, w);
    if worker.queue != [] && worker.phase == Sent {
      assert WorkerHoldsClaims(s, w, s.workers[w]);
      WorkerMoveKeeps(s, w, worker.(phase := Errored));
    }
  }

  /** In a reachable state a worker never finds its claim missing. */
  lemma ClaimsAreNeverStale(s: State, w: string)
    requires ProducerInv(s) && WorkerOf(s, w).queue != []
    ensures HoldsClaim(s, w, WorkerOf(s, w).queue[0])
  {
    assert WorkerHoldsClaims(s, w, s.workers[w]);
  }

  lemma ForeignGrowsLogs(s: State, p: Partition, m: Message)
    ensures LogsGrow(s, DoForeign(s, p, m)) && SameConsumers(s, DoForeign(s, p, m))
    ensures DoForeign(s, p, m).outbox == s.outbox && DoForeign(s, p, m).workers == s.workers
    ensures DoForeign(s, p, m).events == s.events
  {
  }

  lemma ForeignKeeps(s: State, p0: Partition, m0: Message)
    requires ProducerInv(s)
    ensures ProducerInv(DoForeign(s, p0, m0)) && LogsGrow(s, DoForeign(s, p0, m0))
  {
    var t := DoForeign(s, p0, m0);
    ForeignGrowsLogs(s, p0, m0);
    StillOnBroker(s, t);
    ClaimsSurvive(s, t);
  }

  lemma OneMoreApplication(s: State, t: State, a: Application)
    requires AppliedOnce(s) && Recordable(a.envelope) && KeyFor(a.group, a.envelope) !in s.consumed
    requires t.applied == s.applied + [a] && t.consumed == s.consumed + {KeyFor(a.group, a.envelope)}
    ensures AppliedOnce(t)
  {
    forall k | k in t.consumed
      ensures HasApplication(t, k)
    {
      if k in s.consumed {
        var b :| b in s.applied && IsApplication(b, k);
        assert b in t.applied;
      } else {
        assert t.applied[|s.applied|] in t.applied && IsApplication(t.applied[|s.applied|], k);
      }
    }
    forall i, j | 0 <= i < j < |t.applied|
      ensures DifferentKeys(t.applied[i], t.applied[j])
    {
      if j == |s.applied| {
        assert t.applied[i] in s.applied;
      }
    }
  }

  lemma AppliedStillFromLog(s: State, t: State)
    requires AppliedFromLog(s) && s.logs == t.logs
    requires forall a :: a in t.applied && a !in s.applied ==> exists p, m :: InLog(s, p, m) && Classify(m) == Process(a.envelope)
    ensures AppliedFromLog(t)
  {
    forall a | a in t.applied
      ensures exists p, m :: InLog(t, p, m) && Classify(m) == Process(a.envelope)
    {
      var p, m :| InLog(s, p, m) && Classify(m) == Process(a.envelope);
      assert InLog(t, p, m);
    }
  }

  lemma ApplyKeepsApplied(s: State, id: LaneId)
    requires AppliedOnce(s) && AppliedFromLog(s)
    ensures AppliedOnce(DoApply(s, id)) && AppliedFromLog(DoApply(s, id))
  {
    var t := DoApply(s, id);
    if t != s {
      var lane, log := LaneOf(s, id), LogOf(s, id.partition);
      var envelope := Classify(log[lane.position]).envelope;
      ProcessedIsRecordable(log[lane.position]);
      assert InLog(s, id.partition, log[lane.position]);
      if KeyFor(id.group, envelope) in s.consumed {
        SameApplications(s, t);
      } else {
        OneMoreApplication(s, t, Application(id.group, envelope));
      }
      AppliedStillFromLog(s, t);
    }
  }

  lemma ApplyHandles(s: State, id: LaneId)
    requires DoApply(s, id) != s
    ensures var t := DoApply(s, id);
      && Handled(t, id, LaneOf(s, id).position) && t.lanes == s.lanes[id := LaneOf(s, id).(phase := Done)]
      && t.logs == s.logs && s.consumed <= t.consumed && t.dlq == s.dlq
  {
    ProcessedIsRecordable(LogOf(s, id.partition)[LaneOf(s, id).position]);
  }

  lemma ApplyKeepsLanes(s: State, id: LaneId)
    requires LanesHandled(s)
    ensures LanesHandled(DoApply(s, id))
  {
    var t := DoApply(s, id);
    if t != s {
      ApplyHandles(s, id);
      DoneIsHandled(s, t, id);
      LanesSurvive(s, t, id);
    }
  }

  lemma LaneSurvives(s: State, t: State, id: LaneId, lane: Lane)
    requires s.logs == t.logs && s.consumed <= t.consumed && LaneIsHandled(s, id, lane)
    requires forall d :: d in s.dlq ==> d in t.dlq
    ensures LaneIsHandled(t, id, lane)
  {
    HandledKept(s, t);
  }

  /** The lane that moved is handled where it is now. */
  lemma DoneIsHandled(s: State, t: State, id: LaneId)
    requires LanesHandled(s) && s.logs == t.logs && s.consumed <= t.consumed
    requires forall d :: d in s.dlq ==> d in t.dlq
    requires Handled(t, id, LaneOf(s, id).position)
    ensures LaneIsHandled(t, id, LaneOf(s, id).(phase := Done))
  {
    if id in s.lanes {
      LaneSurvives(s, t, id, s.lanes[id]);
    }
  }

  lemma LanesSurvive(s: State, t: State, id: LaneId)
    requires LanesHandled(s) && s.logs == t.logs && s.consumed <= t.consumed
    requires forall d :: d in s.dlq ==> d in t.dlq
    requires LaneIsHandled(t, id, LaneOf(t, id)) && forall l :: l in t.lanes && l != id ==> l in s.lanes && t.lanes[l] == s.lanes[l]
    ensures LanesHandled(t)
  {
    forall l | l in t.lanes
      ensures LaneIsHandled(t, l, t.lanes[l])
    {
      if l != id {
        LaneSurvives(s, t, l, s.lanes[l]);
      }
    }
  }

  lemma ApplyKeeps(s: State, id: LaneId)
    requires ConsumerInv(s)
    ensures ConsumerInv(DoApply(s, id))
  {
    ApplyKeepsApplied(s, id);
    ApplyKeepsLanes(s, id);
  }

  lemma SameApplications(s: State, t: State)
    requires AppliedOnce(s) && t.applied == s.applied && t.consumed == s.consumed
    ensures AppliedOnce(t)
  {
    forall k | k in t.consumed
      ensures HasApplication(t, k)
    {
      assert HasApplication(s, k);
    }
  }

  /** Handled offsets stay handled while the tables only grow. */
  lemma HandledKept(s: State, t: State)
    requires s.logs == t.logs && s.consumed <= t.consumed
    requires forall d :: d in s.dlq ==> d in t.dlq
    ensures forall id, o: nat :: Handled(s, id, o) ==> Handled(t, id, o)
  {
  }

  lemma DeadLetterHandles(s: State, id: LaneId)
    requires DoDeadLetter(s, id) != s
    ensures var t := DoDeadLetter(s, id);
      && Handled(t, id, LaneOf(s, id).position) && t.lanes == s.lanes[id := LaneOf(s, id).(phase := Done)]
      && t.logs == s.logs && t.consumed == s.consumed && t.applied == s.applied
      && t.dlq == s.dlq + [DeadLetter(id, LaneOf(s, id).position)]
  {
    assert DoDeadLetter(s, id).dlq[|s.dlq|] == DeadLetter(id, LaneOf(s, id).position);
  }

  lemma DeadLetterKeeps(s: State, id: LaneId)
    requires ConsumerInv(s)
    ensures ConsumerInv(DoDeadLetter(s, id))
  {
    var t := DoDeadLetter(s, id);
    if t != s {
      DeadLetterHandles(s, id);
      DoneIsHandled(s, t, id);
      LanesSurvive(s, t, id);
      AppliedStillFromLog(s, t);
      SameApplications(s, t);
    }
  }

  lemma LaneMoveKeeps(s: State, id: LaneId, lane: Lane)
    requires ConsumerInv(s) && LaneIsHandled(s, id, lane)
    ensures ConsumerInv(s.(lanes := s.lanes[id := lane]))
  {
    var t := s.(lanes := s.lanes[id := lane]);
    LaneSurvives(s, t, id, lane);
    LanesSurvive(s, t, id);
    AppliedStillFromLog(s, t);
    SameApplications(s, t);
  }

  /** The offsets below this bound are handled. */
  function HandledUpTo(lane: Lane): nat {
    var next := if lane.phase == Done then lane.position + 1 else lane.position;
    if next < lane.committed then lane.committed else next
  }

  lemma LaneStaysHandled(s: State, id: LaneId, lane: Lane)
    requires LanesHandled(s)
    requires lane.position <= HandledUpTo(LaneOf(s, id)) && lane.committed <= HandledUpTo(LaneOf(s, id))
    requires lane.phase != Done
    ensures LaneIsHandled(s, id, lane)
  {
    if id in s.lanes {
      assert LaneIsHandled(s, id, s.lanes[id]);
    }
  }

  lemma LaneStepKeeps(s: State, step: Step, id: LaneId)
    requires ConsumerInv(s)
    requires step == Poll(id) || step == Commit(id) || step == ConsumerCrash(id) || (step.Redeliver? && step.lane == id)
    ensures ConsumerInv(Do(s, step))
  {
    var t := Do(s, step);
    if t != s {
      LaneStaysHandled(s, id, LaneOf(t, id));
      LaneMoveKeeps(s, id, LaneOf(t, id));
    }
  }

  predicate ConsumerStep(step: Step) {
    step.Poll? || step.Apply? || step.DeadLetterIt? || step.Commit? || step.ConsumerCrash? || step.Redeliver?
  }

  lemma ProducerStepKeeps(s: State, step: Step)
    requires ProducerInv(s) && !ConsumerStep(step)
    ensures ProducerInv(Do(s, step))
  {
    match step
    case Append(e, v) => AppendKeeps(s, e, v);
    case Claim(w, ids) => ClaimKeeps(s, w, ids);
    case Send(w, n, delivered, acknowledged) => SendKeeps(s, w, n, delivered, acknowledged);
    case MarkPublished(w) => MarkPublishedKeeps(s, w);
    case MarkRaised(w) => MarkRaisedKeeps(s, w);
    case MarkFailed(w) => MarkFailedKeeps(s, w);
    case WorkerCrash(w) => WorkerMoveKeeps(s, w, Worker([], Ready));
    case Foreign(p, m) => ForeignKeeps(s, p, m);
    case _ =>
  }

  lemma ProducerStepGrowsLogs(s: State, step: Step)
    requires !ConsumerStep(step)
    ensures LogsGrow(s, Do(s, step)) && SameConsumers(s, Do(s, step))
  {
    match step
    case Send(w, n, delivered, acknowledged) => SendGrowsLogs(s, w, n, delivered, acknowledged);
    case Foreign(p, m) => ForeignGrowsLogs(s, p, m);
    case Append(e, v) => AppendIsQuiet(s, e, v);
    case Claim(w, ids) => ClaimIsQuiet(s, w, ids);
    case _ => MarkIsQuiet(s, step);
  }

  lemma AppendIsQuiet(s: State, e: OperationalEvent, v: nat)
    ensures DoAppend(s, e, v).logs == s.logs && SameConsumers(s, DoAppend(s, e, v))
  {
  }

  lemma ClaimIsQuiet(s: State, w: string, ids: seq<string>)
    ensures DoClaim(s, w, ids).logs == s.logs && SameConsumers(s, DoClaim(s, w, ids))
  {
  }

  lemma MarkIsQuiet(s: State, step: Step)
    requires step.MarkPublished? || step.MarkRaised? || step.MarkFailed? || step.WorkerCrash?
    ensures Do(s, step).logs == s.logs && SameConsumers(s, Do(s, step))
  {
    match step
    case MarkPublished(w) => MarkPublishedIsQuiet(s, w);
    case MarkFailed(w) => MarkFailedIsQuiet(s, w);
    case _ =>
  }

  lemma MarkPublishedIsQuiet(s: State, w: string)
    ensures DoMarkPublished(s, w).logs == s.logs && SameConsumers(s, DoMarkPublished(s, w))
  {
  }

  lemma MarkFailedIsQuiet(s: State, w: string)
    ensures DoMarkFailed(s, w).logs == s.logs && SameConsumers(s, DoMarkFailed(s, w))
  {
  }

  lemma SendGrowsLogs(s: State, w: string, number: nat, delivered: bool, acknowledged: bool)
    ensures LogsGrow(s, DoSend(s, w, number, delivered, acknowledged))
    ensures SameConsumers(s, DoSend(s, w, number, delivered, acknowledged))
  {
  }

  lemma ConsumerStepKeeps(s: State, step: Step)
    requires ConsumerInv(s) && ConsumerStep(step)
    ensures ConsumerInv(Do(s, step))
  {
    match step
    case Poll(id) => LaneStepKeeps(s, step, id);
    case Apply(id) => ApplyKeeps(s, id);
    case DeadLetterIt(id) => DeadLetterKeeps(s, id);
    case Commit(id) => LaneStepKeeps(s, step, id);
    case ConsumerCrash(id) => LaneStepKeeps(s, step, id);
    case Redeliver(id, position) => LaneStepKeeps(s, step, id);
    case _ =>
  }

  lemma ConsumerStepTouchesNoProducer(s: State, step: Step)
    requires ConsumerStep(step)
    ensures SameProducers(s, Do(s, step))
  {
    match step
    case Apply(id) => ApplyTouchesNoProducer(s, id);
    case DeadLetterIt(id) => DeadLetterTouchesNoProducer(s, id);
    case Poll(id) => PollTouchesNoProducer(s, id);
    case Commit(id) => CommitTouchesNoProducer(s, id);
    case _ =>
  }

  lemma ApplyTouchesNoProducer(s: State, id: LaneId)
    ensures SameProducers(s, DoApply(s, id))
  {
  }

  lemma DeadLetterTouchesNoProducer(s: State, id: LaneId)
    ensures SameProducers(s, DoDeadLetter(s, id))
  {
  }

  lemma PollTouchesNoProducer(s: State, id: LaneId)
    ensures SameProducers(s, DoPoll(s, id))
  {
  }

  lemma CommitTouchesNoProducer(s: State, id: LaneId)
    ensures SameProducers(s, DoCommit(s, id))
  {
  }

  lemma StepKeepsInv(s: State, step: Step)
    requires ProducerInv(s) && ConsumerInv(s)
    ensures ProducerInv(Do(s, step)) && ConsumerInv(Do(s, step))
  {
    if ConsumerStep(step) {
      ConsumerStepKeeps(s, step);
      ConsumerStepTouchesNoProducer(s, step);
      ProducersUntouched(s, Do(s, step));
    } else {
      ProducerStepKeeps(s, step);
      ProducerStepGrowsLogs(s, step);
      ConsumersSurviveGrowth(s, Do(s, step));
    }
  }

  lemma ProducersUntouched(s: State, t: State)
    requires ProducerInv(s) && SameProducers(s, t)
    ensures ProducerInv(t)
  {
    forall x | OnBroker(s, x)
      ensures OnBroker(t, x)
    {
      OnBrokerGrows(s, t, x);
    }
    forall w | w in t.workers
      ensures WorkerHoldsClaims(t, w, t.workers[w])
    {
      assert WorkerHoldsClaims(s, w, s.workers[w]);
    }
  }

  /** Every state that a run can reach satisfies the invariant. */
  lemma {:induction false} RunKeepsInv(steps: seq<Step>)
    ensures ProducerInv(Run(INITIAL, steps)) && ConsumerInv(Run(INITIAL, steps))
  {
    if steps != [] {
      RunKeepsInv(steps[..|steps| - 1]);
      StepKeepsInv(Run(INITIAL, steps[..|steps| - 1]), steps[|steps| - 1]);
    }
  }

  lemma {:induction false} RunOnKeepsInv(s: State, steps: seq<Step>)
    requires ProducerInv(s) && ConsumerInv(s)
    ensures ProducerInv(Run(s, steps)) && ConsumerInv(Run(s, steps)) && LogsGrow(s, Run(s, steps))
  {
    if steps != [] {
      var n := |steps| - 1;
      RunOnKeepsInv(s, steps[..n]);
      StepKeepsInv(Run(s, steps[..n]), steps[n]);
      StepGrowsLogs(Run(s, steps[..n]), steps[n]);
      forall p
        ensures LogOf(s, p) <= LogOf(Run(s, steps), p)
      {
        assert LogOf(s, p) <= LogOf(Run(s, steps[..n]), p);
        assert LogOf(Run(s, steps[..n]), p) <= LogOf(Run(s, steps), p);
      }
    }
  }

  lemma StepGrowsLogs(s: State, step: Step)
    ensures LogsGrow(s, Do(s, step))
  {
    if !ConsumerStep(step) {
      ProducerStepGrowsLogs(s, step);
    } else {
      ConsumerStepTouchesNoProducer(s, step);
    }
  }

  // ----- messages that carry outbox ids -----

  /** A published event carries its own id only. */
  lemma RenderCarriesItsId(e: OperationalEvent, id: string)
    requires e.aggregateVersion > 0 && Insertable(e) && GeneratedUuid(id)
    ensures Carries(Render(e), id) <==> id == e.eventId
  {
    RenderedIsProcessable(e);
    EnvelopeFields(e);
    if Carries(Render(e), id) {
      GeneratedUuidsDiffer(id, e.eventId);
    }
  }

  lemma OutboxIdIsGenerated(s: State, id: string)
    requires OutboxMatchesEvents(s) && EventsFit(s) && id in s.outbox
    ensures GeneratedUuid(id)
  {
    assert Insertable(s.outbox[id].event);
  }

  lemma SendAddsOne(s: State, w: string, number: nat, delivered: bool, acknowledged: bool, p: Partition, m: Message)
    requires InLog(DoSend(s, w, number, delivered, acknowledged), p, m) && !InLog(s, p, m)
    ensures WorkerOf(s, w).queue != [] && m == Render(WorkerOf(s, w).queue[0])
  {
  }

  /** Where a message of the log comes from. */
  lemma NewMessages(s: State, step: Step, p: Partition, m: Message)
    requires InLog(Do(s, step), p, m) && !InLog(s, p, m)
    ensures step.Foreign? || step.Send?
    ensures step.Foreign? ==> m == step.message
    ensures step.Send? ==> WorkerOf(s, step.worker).queue != [] && m == Render(WorkerOf(s, step.worker).queue[0])
  {
    if ConsumerStep(step) {
      ConsumerStepTouchesNoProducer(s, step);
    } else {
      match step
      case Send(w, n, delivered, acknowledged) => SendAddsOne(s, w, n, delivered, acknowledged, p, m);
      case Foreign(_, _) =>
      case Append(e, v) => AppendIsQuiet(s, e, v);
      case Claim(w, ids) => ClaimIsQuiet(s, w, ids);
      case _ => MarkIsQuiet(s, step);
    }
  }

  lemma MarkKeepsEvents(s: State, step: Step)
    requires WorkersHoldClaims(s) && (step.MarkPublished? || step.MarkFailed?)
    ensures Do(s, step).outbox.Keys == s.outbox.Keys
    ensures forall id :: id in s.outbox ==> Do(s, step).outbox[id].event == s.outbox[id].event
  {
    var w := step.worker;
    if WorkerOf(s, w).queue != [] {
      assert WorkerHoldsClaims(s, w, s.workers[w]);
      assert HoldsClaim(s, w, WorkerOf(s, w).queue[0]);
    }
  }

  lemma OtherStepsKeepEvents(s: State, step: Step, id: string)
    requires !ConsumerStep(step) && !step.MarkPublished? && !step.MarkFailed?
    ensures id in s.outbox ==> id in Do(s, step).outbox && Do(s, step).outbox[id].event == s.outbox[id].event
    ensures id in Do(s, step).outbox && id !in s.outbox ==> step.Append? && FreshId(s, id)
  {
  }

  /** A row keeps its event for good, and only an append adds one, under a fresh id. */
  lemma RowsKeepEvents(s: State, step: Step, id: string)
    requires ProducerInv(s)
    ensures id in s.outbox ==> id in Do(s, step).outbox && Do(s, step).outbox[id].event == s.outbox[id].event
    ensures id in Do(s, step).outbox && id !in s.outbox ==> step.Append? && FreshId(s, id)
  {
    if ConsumerStep(step) {
      ConsumerStepTouchesNoProducer(s, step);
    } else if step.MarkPublished? || step.MarkFailed? {
      MarkKeepsEvents(s, step);
    } else {
      OtherStepsKeepEvents(s, step, id);
    }
  }

  /** Only a forging step puts a forgery in a log. */
  lemma StepForgesNothing(s: State, step: Step)
    requires ProducerInv(s) && NoForgeries(s) && !Forges(s, step)
    ensures NoForgeries(Do(s, step))
  {
    var t := Do(s, step);
    forall p, m, id | InLog(t, p, m) && id in t.outbox && Carries(m, id)
      ensures HasEnvelopeOf(t, m, id)
    {
      RowsKeepEvents(s, step, id);
      if !InLog(s, p, m) {
        NewMessages(s, step, p, m);
        if step.Send? {
          SentHasEnvelope(s, step.worker, id);
        }
      }
    }
  }

  lemma SentHasEnvelope(s: State, w: string, id: string)
    requires ProducerInv(s) && WorkerOf(s, w).queue != [] && id in s.outbox && Carries(Render(WorkerOf(s, w).queue[0]), id)
    ensures HasEnvelopeOf(s, Render(WorkerOf(s, w).queue[0]), id)
  {
    HeadFits(s, w);
    OutboxIdIsGenerated(s, id);
    RenderCarriesItsId(WorkerOf(s, w).queue[0], id);
    RenderedIsProcessable(WorkerOf(s, w).queue[0]);
  }

  lemma HeadFits(s: State, w: string)
    requires ProducerInv(s) && WorkerOf(s, w).queue != []
    ensures var e := WorkerOf(s, w).queue[0];
      Insertable(e) && e.aggregateVersion > 0 && e.eventId in s.outbox && s.outbox[e.eventId].event == e
  {
    HeadIsAppended(s, w);
  }

  /** No other producer of the run uses the id of an outbox event for something else. */
  ghost predicate NobodyForges(steps: seq<Step>) {
    forall i :: 0 <= i < |steps| ==> !Forges(Run(INITIAL, steps[..i]), steps[i])
  }

  lemma {:induction false} RunForgesNothing(steps: seq<Step>)
    requires NobodyForges(steps)
    ensures NoForgeries(Run(INITIAL, steps))
  {
    if steps != [] {
      var n := |steps| - 1;
      assert forall i :: 0 <= i < n ==> steps[..n][..i] == steps[..i];
      RunForgesNothing(steps[..n]);
      RunKeepsInv(steps[..n]);
      StepForgesNothing(Run(INITIAL, steps[..n]), steps[n]);
    }
  }

  // ----- short runs -----

  lemma RunSingle(s: State, steps: seq<Step>)
    requires |steps| == 1
    ensures Run(s, steps) == Do(s, steps[0])
  {
    assert steps[..0] == [];
  }

  lemma RunLonger(s: State, steps: seq<Step>, step: Step)
    ensures Run(s, steps + [step]) == Do(Run(s, steps), step)
  {
    assert (steps + [step])[..|steps|] == steps;
  }

  lemma RunTwo(s: State, steps: seq<Step>)
    requires |steps| == 2
    ensures Run(s, steps) == Do(Do(s, steps[0]), steps[1])
  {
    RunSingle(s, steps[..1]);
  }

  lemma RunThree(s: State, steps: seq<Step>)
    requires |steps| == 3
    ensures Run(s, steps) == Do(Do(Do(s, steps[0]), steps[1]), steps[2])
  {
    RunTwo(s, steps[..2]);
  }

  lemma {:induction false} RunJoin(s: State, first: seq<Step>, second: seq<Step>)
    ensures Run(s, first + second) == Run(Run(s, first), second)
  {
    if second == [] {
      assert first + second == first;
    } else {
      var n := |second| - 1;
      RunJoin(s, first, second[..n]);
      assert (first + second)[..|first + second| - 1] == first + second[..n];
    }
  }

  lemma RunFour(s: State, a: Step, b: Step, c: Step, d: Step)
    ensures Run(s, [a, b, c, d]) == Do(Do(Do(Do(s, a), b), c), d)
  {
    assert [a, b, c, d][..3] == [a, b, c] && [a, b, c][..2] == [a, b] && [a, b][..1] == [a] && [a][..0] == [];
    assert Run(s, [a]) == Do(s, a);
    assert Run(s, [a, b]) == Do(Run(s, [a]), b);
    assert Run(s, [a, b, c]) == Do(Run(s, [a, b]), c);
  }

  // ----- rows that nobody will finish -----

  /** A row claimed by a worker that no longer has it in its batch. */
  ghost predicate Stranded(s: State, w: string, id: string) {
    && id in s.outbox && !s.outbox[id].published && s.outbox[id].claimedBy == Some(w)
    && (forall e :: e in WorkerOf(s, w).queue ==> e.eventId != id)
  }
}
