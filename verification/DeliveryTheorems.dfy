/** What the delivery pipeline guarantees over every interleaving. */
module DeliveryTheorems {
  import opened Sequences
  import opened Envelopes
  import opened Delivery

  // ----- safety -----

  /** Each event takes effect at most once per consumer group. */
  lemma AppliedAtMostOnce(steps: seq<Step>, i: nat, j: nat)
    requires i < j < |Run(INITIAL, steps).applied|
    ensures DifferentKeys(Run(INITIAL, steps).applied[i], Run(INITIAL, steps).applied[j])
  {
    RunKeepsInv(steps);
  }

  /** The message at an offset took effect in the group of the lane, or is on record as a dead letter. */
  ghost predicate Accounted(s: State, id: LaneId, offset: nat) {
    && offset < |LogOf(s, id.partition)|
    && var v := Classify(LogOf(s, id.partition)[offset]);
       || (v.Process? && Recordable(v.envelope) && HasApplication(s, KeyFor(id.group, v.envelope)))
       || (v.Poison? && DeadLetter(id, offset) in s.dlq)
  }

  /** No committed offset leaves work behind. */
  lemma CommittedOffsetsAreAccounted(steps: seq<Step>, id: LaneId, offset: nat)
    requires offset < LaneOf(Run(INITIAL, steps), id).committed
    ensures Accounted(Run(INITIAL, steps), id, offset)
  {
    RunKeepsInv(steps);
    var s := Run(INITIAL, steps);
    assert LaneIsHandled(s, id, s.lanes[id]);
    assert Handled(s, id, offset);
  }

  /** An event published through the outbox is never dead-lettered. */
  lemma EventsAreNotDeadLettered(steps: seq<Step>, d: DeadLetter, e: OperationalEvent)
    requires d in Run(INITIAL, steps).dlq && e in Run(INITIAL, steps).events
    ensures d.offset < |LogOf(Run(INITIAL, steps), d.lane.partition)|
    ensures LogOf(Run(INITIAL, steps), d.lane.partition)[d.offset] != Render(e)
  {
    RunKeepsInv(steps);
    assert Insertable(e);
    RenderedIsProcessable(e);
  }

  // ----- the drained pipeline -----

  ghost predicate AllPublished(s: State) {
    forall id :: id in s.outbox ==> s.outbox[id].published
  }

  ghost predicate FullyCommitted(s: State, group: string) {
    forall p :: LaneOf(s, LaneId(group, p)).committed >= |LogOf(s, p)|
  }

  function EnvelopesIn(group: string): Application -> seq<map<string, Json>> {
    (a: Application) => if a.group == group then [a.envelope] else []
  }

  /** What a group has applied, in order. */
  function AppliedIn(s: State, group: string): seq<map<string, Json>> { FlatMap(EnvelopesIn(group), s.applied) }

  function EventEnvelope(e: OperationalEvent): seq<map<string, Json>> { [Envelope(e)] }

  function AppendedEnvelopes(s: State): seq<map<string, Json>> { FlatMap(EventEnvelope, s.events) }

  /** Producers other than the outbox write nothing a consumer would apply. */
  ghost predicate OnlyPoisonFromOutside(steps: seq<Step>) {
    forall i :: 0 <= i < |steps| && steps[i].Foreign? ==> !Classify(steps[i].message).Process?
  }

  ghost predicate LogIsOurs(s: State) {
    forall p, m :: InLog(s, p, m) && Classify(m).Process? ==> exists e :: e in s.events && m == Render(e)
  }

  lemma EventsGrow(s: State, step: Step)
    ensures s.events <= Do(s, step).events
  {
  }

  lemma StepKeepsLogOurs(s: State, step: Step)
    requires ProducerInv(s) && LogIsOurs(s) && (step.Foreign? ==> !Classify(step.message).Process?)
    ensures LogIsOurs(Do(s, step))
  {
    var t := Do(s, step);
    EventsGrow(s, step);
    assert forall e :: e in s.events ==> e in t.events;
    forall p, m | InLog(t, p, m) && Classify(m).Process?
      ensures exists e :: e in t.events && m == Render(e)
    {
      if InLog(s, p, m) {
        var e :| e in s.events && m == Render(e);
      } else {
        NewMessages(s, step, p, m);
        QueueIsAppended(s, step.worker);
        assert m == Render(WorkerOf(s, step.worker).queue[0]);
      }
    }
  }

  lemma QueueIsAppended(s: State, w: string)
    requires ProducerInv(s) && WorkerOf(s, w).queue != []
    ensures WorkerOf(s, w).queue[0] in s.events
  {
    ClaimsAreNeverStale(s, w);
    assert WorkerHoldsClaims(s, w, s.workers[w]);
  }

  lemma {:induction false} RunKeepsLogOurs(steps: seq<Step>)
    requires OnlyPoisonFromOutside(steps)
    ensures LogIsOurs(Run(INITIAL, steps))
  {
    if steps != [] {
      var n := |steps| - 1;
      RunKeepsLogOurs(steps[..n]);
      RunKeepsInv(steps[..n]);
      StepKeepsLogOurs(Run(INITIAL, steps[..n]), steps[n]);
    }
  }

  /** An envelope listed as applied is that of an application in the group. */
  lemma ListedApplication(applied: seq<Application>, group: string, x: map<string, Json>) returns (i: nat)
    requires x in FlatMap(EnvelopesIn(group), applied)
    ensures i < |applied| && applied[i] == Application(group, x)
  {
    FlatMapMember(EnvelopesIn(group), applied, x);
    i :| 0 <= i < |applied| && x in EnvelopesIn(group)(applied[i]);
  }

  lemma DistinctSnoc<T>(xs: seq<T>, x: T)
    requires Distinct(xs) && x !in xs
    ensures Distinct(xs + [x])
  {
  }

  lemma ApplicationsDiffer(s: State)
    requires AppliedOnce(s)
    ensures Distinct(s.applied)
  {
    forall i, j | 0 <= i < j < |s.applied|
      ensures s.applied[i] != s.applied[j]
    {
      assert DifferentKeys(s.applied[i], s.applied[j]);
    }
  }

  lemma {:induction false} AppliedInDistinct(applied: seq<Application>, group: string)
    requires Distinct(applied)
    ensures Distinct(FlatMap(EnvelopesIn(group), applied))
  {
    if applied != [] {
      var n := |applied| - 1;
      AppliedInDistinct(applied[..n], group);
      var earlier := FlatMap(EnvelopesIn(group), applied[..n]);
      if applied[n].group == group {
        if applied[n].envelope in earlier {
          var i := ListedApplication(applied[..n], group, applied[n].envelope);
        }
        DistinctSnoc(earlier, applied[n].envelope);
      }
    }
  }

  lemma EnvelopesDiffer(a: OperationalEvent, b: OperationalEvent)
    requires a.eventId != b.eventId
    ensures Envelope(a) != Envelope(b)
  {
    EnvelopeFields(a);
    EnvelopeFields(b);
  }

  /** An envelope listed as appended is that of an appended event. */
  lemma AppendedHasEvent(events: seq<OperationalEvent>, x: map<string, Json>) returns (i: nat)
    requires x in FlatMap(EventEnvelope, events)
    ensures i < |events| && x == Envelope(events[i])
  {
    FlatMapMember(EventEnvelope, events, x);
    i :| 0 <= i < |events| && x in EventEnvelope(events[i]);
  }

  lemma {:induction false} AppendedDistinct(events: seq<OperationalEvent>)
    requires forall i, j :: 0 <= i < j < |events| ==> events[i].eventId != events[j].eventId
    ensures Distinct(FlatMap(EventEnvelope, events))
  {
    if events != [] {
      var n := |events| - 1;
      AppendedDistinct(events[..n]);
      var earlier := FlatMap(EventEnvelope, events[..n]);
      forall k | 0 <= k < |earlier|
        ensures earlier[k] != Envelope(events[n])
      {
        var i := AppendedHasEvent(events[..n], earlier[k]);
        EnvelopesDiffer(events[i], events[n]);
      }
    }
  }

  /** Every published event of a fully committed group was applied there, unaltered. */
  lemma PublishedIsApplied(s: State, group: string, e: OperationalEvent)
    requires ProducerInv(s) && ConsumerInv(s) && NoForgeries(s) && AllPublished(s) && FullyCommitted(s, group) && e in s.events
    ensures Application(group, Envelope(e)) in s.applied
  {
    assert Insertable(e);
    var p: Partition :| p.topic == e.topic && InLog(s, p, Render(e));
    var o :| 0 <= o < |LogOf(s, p)| && LogOf(s, p)[o] == Render(e);
    var id := LaneId(group, p);
    assert LaneOf(s, id).committed >= |LogOf(s, p)|;
    assert LaneIsHandled(s, id, s.lanes[id]);
    assert Handled(s, id, o);
    RenderedIsProcessable(e);
    EnvelopeFields(e);
    var key := KeyFor(group, Envelope(e));
    assert HasApplication(s, key);
    var a :| a in s.applied && IsApplication(a, key);
    var q, m :| InLog(s, q, m) && Classify(m) == Process(a.envelope);
    assert Carries(m, e.eventId);
    assert HasEnvelopeOf(s, m, e.eventId);
  }

  lemma AppliedWasAppended(s: State, a: Application)
    requires ConsumerInv(s) && ProducerInv(s) && LogIsOurs(s) && a in s.applied
    ensures exists e :: e in s.events && a.envelope == Envelope(e)
  {
    var p, m :| InLog(s, p, m) && Classify(m) == Process(a.envelope);
    var e :| e in s.events && m == Render(e);
    assert Insertable(e);
    RenderedIsProcessable(e);
  }

  lemma ListedAsApplied(s: State, group: string, x: map<string, Json>)
    requires Application(group, x) in s.applied
    ensures x in AppliedIn(s, group)
  {
    var k :| 0 <= k < |s.applied| && s.applied[k] == Application(group, x);
    assert x in EnvelopesIn(group)(s.applied[k]);
    FlatMapMember(EnvelopesIn(group), s.applied, x);
  }

  lemma AppendedThenApplied(s: State, group: string, x: map<string, Json>)
    requires ProducerInv(s) && ConsumerInv(s) && NoForgeries(s) && AllPublished(s) && FullyCommitted(s, group)
    requires x in AppendedEnvelopes(s)
    ensures x in AppliedIn(s, group)
  {
    var i := AppendedHasEvent(s.events, x);
    PublishedIsApplied(s, group, s.events[i]);
    ListedAsApplied(s, group, x);
  }

  lemma ListedAsAppended(events: seq<OperationalEvent>, e: OperationalEvent)
    requires e in events
    ensures Envelope(e) in FlatMap(EventEnvelope, events)
  {
    var k :| 0 <= k < |events| && events[k] == e;
    assert Envelope(e) in EventEnvelope(events[k]);
    FlatMapMember(EventEnvelope, events, Envelope(e));
  }

  lemma AppliedThenAppended(s: State, group: string, x: map<string, Json>)
    requires ProducerInv(s) && ConsumerInv(s) && LogIsOurs(s) && x in AppliedIn(s, group)
    ensures x in AppendedEnvelopes(s)
  {
    var i := ListedApplication(s.applied, group, x);
    AppliedWasAppended(s, s.applied[i]);
    var e :| e in s.events && x == Envelope(e);
    ListedAsAppended(s.events, e);
  }

  lemma DrainedState(s: State, group: string)
    requires ProducerInv(s) && ConsumerInv(s) && NoForgeries(s) && LogIsOurs(s) && AllPublished(s) && FullyCommitted(s, group)
    ensures multiset(AppliedIn(s, group)) == multiset(AppendedEnvelopes(s))
  {
    ApplicationsDiffer(s);
    AppliedInDistinct(s.applied, group);
    AppendedDistinct(s.events);
    forall x | x in AppendedEnvelopes(s)
      ensures x in AppliedIn(s, group)
    {
      AppendedThenApplied(s, group, x);
    }
    forall x | x in AppliedIn(s, group)
      ensures x in AppendedEnvelopes(s)
    {
      AppliedThenAppended(s, group, x);
    }
    DistinctSameMembers(AppliedIn(s, group), AppendedEnvelopes(s));
  }

  lemma PoisonForgesNothing(steps: seq<Step>)
    requires OnlyPoisonFromOutside(steps)
    ensures NobodyForges(steps)
  {
  }

  /** Once everything is published and committed, a group has applied exactly the appended events, each once. */
  lemma DrainedMeansExactlyOnce(steps: seq<Step>, group: string)
    requires OnlyPoisonFromOutside(steps)
    requires AllPublished(Run(INITIAL, steps)) && FullyCommitted(Run(INITIAL, steps), group)
    ensures multiset(AppliedIn(Run(INITIAL, steps), group)) == multiset(AppendedEnvelopes(Run(INITIAL, steps)))
  {
    RunKeepsInv(steps);
    RunKeepsLogOurs(steps);
    PoisonForgesNothing(steps);
    RunForgesNothing(steps);
    DrainedState(Run(INITIAL, steps), group);
  }

  // ----- what a group was told -----

  /** The i-th application told the group of the event. */
  ghost predicate ToldAt(s: State, group: string, e: OperationalEvent, i: nat) {
    i < |s.applied| && s.applied[i].group == group && Tells(s.applied[i].envelope, e)
  }

  ghost predicate ToldOnce(s: State, group: string, e: OperationalEvent) {
    exists i :: ToldAt(s, group, e, i) && forall j :: ToldAt(s, group, e, j) ==> j == i
  }

  /** In a drained run each appended event has reached the group exactly once, with all its fields, as long as nobody used
      its id for something else. */
  lemma DrainedTellsOfEachEvent(steps: seq<Step>, group: string, e: OperationalEvent)
    requires NobodyForges(steps) && e in Run(INITIAL, steps).events
    requires AllPublished(Run(INITIAL, steps)) && FullyCommitted(Run(INITIAL, steps), group)
    ensures ToldOnce(Run(INITIAL, steps), group, e)
  {
    RunKeepsInv(steps);
    RunForgesNothing(steps);
    var s := Run(INITIAL, steps);
    PublishedIsApplied(s, group, e);
    EnvelopeFields(e);
    var i: nat :| i < |s.applied| && s.applied[i] == Application(group, Envelope(e));
    ApplicationsDiffer(s);
    assert ToldAt(s, group, e, i);
    forall j: nat | ToldAt(s, group, e, j)
      ensures j == i
    {
      OneEnvelope(s.applied[i].envelope, s.applied[j].envelope, e);
      assert s.applied[i] == s.applied[j];
    }
  }

  /** And nothing else was applied, if nobody else wrote anything a consumer would apply. */
  lemma NothingElseIsTold(steps: seq<Step>, a: Application)
    requires OnlyPoisonFromOutside(steps) && a in Run(INITIAL, steps).applied
    ensures exists e :: e in Run(INITIAL, steps).events && Tells(a.envelope, e)
  {
    RunKeepsInv(steps);
    RunKeepsLogOurs(steps);
    AppliedWasAppended(Run(INITIAL, steps), a);
    var e :| e in Run(INITIAL, steps).events && a.envelope == Envelope(e);
    EnvelopeFields(e);
  }

  // ----- where events come from -----

  /** The event is what an append asked for, under the version it was given. */
  ghost predicate Requested(steps: seq<Step>, e: OperationalEvent) {
    exists i :: 0 <= i < |steps| && IsRequest(steps[i], e)
  }

  ghost predicate IsRequest(step: Step, e: OperationalEvent) {
    step.Append? && e == step.event.(aggregateVersion := e.aggregateVersion)
  }

  function OfStream(key: StreamKey): OperationalEvent -> bool { (e: OperationalEvent) => StreamOf(e) == key }

  /** The events of one stream, in the order they were appended. */
  function StreamEvents(s: State, key: StreamKey): seq<OperationalEvent> { Filter(OfStream(key), s.events) }

  /** The k-th event of a stream has the version k, and the stream's version is the last of them. */
  ghost predicate Numbered(s: State, key: StreamKey) {
    && VersionOf(s, key) == |StreamEvents(s, key)|
    && (forall k :: 0 <= k < |StreamEvents(s, key)| ==> StreamEvents(s, key)[k].aggregateVersion == k + 1)
  }

  /** Only an append that goes through touches events and streams. */
  ghost predicate Writes(s: State, step: Step, t: State) {
    && step.Append?
    && var event := step.event.(aggregateVersion := VersionOf(s, StreamOf(step.event)) + 1);
       t.events == s.events + [event] && t.streams == s.streams[StreamOf(event) := event.aggregateVersion]
  }

  lemma StepWritesOrNot(s: State, step: Step)
    ensures var t := Do(s, step); Writes(s, step, t) || (t.events == s.events && t.streams == s.streams)
  {
    if !step.Append? {
      OnlyAppendWrites(s, step);
    }
  }

  lemma OnlyAppendWrites(s: State, step: Step)
    requires !step.Append?
    ensures Do(s, step).events == s.events && Do(s, step).streams == s.streams
  {
    if ConsumerStep(step) {
      ConsumerStepTouchesNoProducer(s, step);
    }
  }

  lemma WrittenIsNumbered(s: State, step: Step, t: State, key: StreamKey)
    requires Numbered(s, key) && Writes(s, step, t)
    ensures Numbered(t, key)
  {
    var event := step.event.(aggregateVersion := VersionOf(s, StreamOf(step.event)) + 1);
    assert StreamOf(event) == StreamOf(step.event);
    FilterSnoc(OfStream(key), s.events, event);
  }

  lemma StepKeepsNumbers(s: State, t: State, step: Step, key: StreamKey)
    requires Numbered(s, key) && (Writes(s, step, t) || (t.events == s.events && t.streams == s.streams))
    ensures Numbered(t, key)
  {
    if Writes(s, step, t) {
      WrittenIsNumbered(s, step, t, key);
    }
  }

  lemma StillRequested(steps: seq<Step>, n: nat, e: OperationalEvent)
    requires |steps| == n + 1
    ensures Requested(steps[..n], e) || IsRequest(steps[n], e) ==> Requested(steps, e)
  {
    if Requested(steps[..n], e) {
      var i :| 0 <= i < n && IsRequest(steps[..n][i], e);
      assert IsRequest(steps[i], e);
    }
  }

  lemma StepRequests(s: State, t: State, steps: seq<Step>, n: nat)
    requires |steps| == n + 1 && (Writes(s, steps[n], t) || t.events == s.events)
    requires forall e :: e in s.events ==> Requested(steps[..n], e)
    ensures forall e :: e in t.events ==> Requested(steps, e)
  {
    forall e | e in t.events
      ensures Requested(steps, e)
    {
      assert e in s.events || IsRequest(steps[n], e);
      StillRequested(steps, n, e);
    }
  }

  /** Every event was asked for, and every stream is numbered one, two, three. */
  lemma {:induction false} EventsAreRequested(steps: seq<Step>, key: StreamKey)
    ensures forall e :: e in Run(INITIAL, steps).events ==> Requested(steps, e)
    ensures Numbered(Run(INITIAL, steps), key)
  {
    if steps != [] {
      var n := |steps| - 1;
      EventsAreRequested(steps[..n], key);
      var s := Run(INITIAL, steps[..n]);
      StepWritesOrNot(s, steps[n]);
      StepKeepsNumbers(s, Do(s, steps[n]), steps[n], key);
      StepRequests(s, Do(s, steps[n]), steps, n);
    }
  }

  // ----- the same beside other producers -----

  /** An envelope that carries the id of an outbox event. */
  ghost predicate CarriesOurId(s: State, envelope: map<string, Json>) {
    exists id :: id in s.outbox && SameId(envelope, id)
  }

  predicate SameId(envelope: map<string, Json>, id: string) {
    Recordable(envelope) && UuidDigits(envelope["event_id"].s) == UuidDigits(id)
  }

  /** What a group has applied under ids of the outbox, in order. */
  ghost function OursAppliedIn(s: State, group: string): seq<map<string, Json>> {
    Filter(envelope => CarriesOurId(s, envelope), AppliedIn(s, group))
  }

  /** Nobody else's envelope passes for one of ours. */
  lemma OursWasAppended(s: State, a: Application)
    requires ConsumerInv(s) && ProducerInv(s) && NoForgeries(s) && a in s.applied && CarriesOurId(s, a.envelope)
    ensures exists e :: e in s.events && a.envelope == Envelope(e)
  {
    var p, m :| InLog(s, p, m) && Classify(m) == Process(a.envelope);
    var id :| id in s.outbox && SameId(a.envelope, id);
    assert Carries(m, id);
    assert HasEnvelopeOf(s, m, id);
  }

  lemma EnvelopeCarriesOurId(s: State, e: OperationalEvent)
    requires ProducerInv(s) && e in s.events
    ensures CarriesOurId(s, Envelope(e))
  {
    assert Insertable(e);
    EnvelopeFields(e);
    assert SameId(Envelope(e), e.eventId);
  }

  lemma {:induction false} FilterKeepsDistinct<T>(p: T -> bool, xs: seq<T>)
    requires Distinct(xs)
    ensures Distinct(Filter(p, xs))
  {
    if xs != [] {
      var n := |xs| - 1;
      FilterKeepsDistinct(p, xs[..n]);
      FilterMembers(p, xs[..n], xs[n]);
      if p(xs[n]) {
        DistinctSnoc(Filter(p, xs[..n]), xs[n]);
      }
    }
  }

  /** Whatever other producers wrote, copies of events included, as long as none used an event's id for something else:
      a drained group has applied exactly the appended events under their ids, each once. */
  lemma DrainedBesideOthers(steps: seq<Step>, group: string)
    requires NobodyForges(steps)
    requires AllPublished(Run(INITIAL, steps)) && FullyCommitted(Run(INITIAL, steps), group)
    ensures multiset(OursAppliedIn(Run(INITIAL, steps), group)) == multiset(AppendedEnvelopes(Run(INITIAL, steps)))
  {
    RunKeepsInv(steps);
    RunForgesNothing(steps);
    var s := Run(INITIAL, steps);
    ApplicationsDiffer(s);
    AppliedInDistinct(s.applied, group);
    FilterKeepsDistinct(envelope => CarriesOurId(s, envelope), AppliedIn(s, group));
    AppendedDistinct(s.events);
    forall x | x in AppendedEnvelopes(s)
      ensures x in OursAppliedIn(s, group)
    {
      OursThenApplied(s, group, x);
    }
    forall x | x in OursAppliedIn(s, group)
      ensures x in AppendedEnvelopes(s)
    {
      OursThenAppended(s, group, x);
    }
    DistinctSameMembers(OursAppliedIn(s, group), AppendedEnvelopes(s));
  }

  lemma OursThenApplied(s: State, group: string, x: map<string, Json>)
    requires ProducerInv(s) && ConsumerInv(s) && NoForgeries(s) && AllPublished(s) && FullyCommitted(s, group)
    requires x in AppendedEnvelopes(s)
    ensures x in OursAppliedIn(s, group)
  {
    AppendedThenApplied(s, group, x);
    var i := AppendedHasEvent(s.events, x);
    EnvelopeCarriesOurId(s, s.events[i]);
    FilterMembers(envelope => CarriesOurId(s, envelope), AppliedIn(s, group), x);
  }

  lemma OursThenAppended(s: State, group: string, x: map<string, Json>)
    requires ProducerInv(s) && ConsumerInv(s) && NoForgeries(s) && x in OursAppliedIn(s, group)
    ensures x in AppendedEnvelopes(s)
  {
    FilterMembers(envelope => CarriesOurId(s, envelope), AppliedIn(s, group), x);
    var i := ListedApplication(s.applied, group, x);
    OursWasAppended(s, s.applied[i]);
    var e :| e in s.events && x == Envelope(e);
    ListedAsAppended(s.events, e);
  }
}
