/** What it takes to keep an event from a consumer group: a message that uses its tenant and id for something else and
    comes first (state/postgres_event_store.py, state/msk_consumer.py). */
module ForgedMessages {
  import opened Sequences
  import opened Envelopes
  import opened Delivery
  import opened DeliveryTheorems

  // ----- the exact condition -----

  /** Something else was applied in the group under the event's tenant and id. */
  ghost predicate TakenByAnother(s: State, group: string, e: OperationalEvent)
    requires Insertable(e)
  {
    exists a :: a in s.applied && IsApplication(a, EventKey(group, e)) && a.envelope != Envelope(e)
  }

  function EventKey(group: string, e: OperationalEvent): ConsumedKey
    requires Insertable(e)
  {
    EnvelopeFields(e);
    assert TextColumns(e)[0] == e.tenantId;
    KeyFor(group, Envelope(e))
  }

  /** A published event of a drained group has been applied there in some form. */
  lemma KeyIsApplied(s: State, group: string, e: OperationalEvent) returns (a: Application)
    requires ProducerInv(s) && ConsumerInv(s) && AllPublished(s) && FullyCommitted(s, group) && e in s.events
    ensures Insertable(e) && a in s.applied && IsApplication(a, EventKey(group, e))
  {
    assert Insertable(e);
    var p: Partition :| p.topic == e.topic && InLog(s, p, Render(e));
    var o :| 0 <= o < |LogOf(s, p)| && LogOf(s, p)[o] == Render(e);
    var id := LaneId(group, p);
    assert LaneOf(s, id).committed >= |LogOf(s, p)|;
    assert LaneIsHandled(s, id, s.lanes[id]);
    assert Handled(s, id, o);
    RenderedIsProcessable(e);
    assert HasApplication(s, EventKey(group, e));
    a :| a in s.applied && IsApplication(a, EventKey(group, e));
  }

  lemma DifferentKeysDiffer(a: Application, b: Application, key: ConsumedKey)
    ensures DifferentKeys(a, b) ==> !(IsApplication(a, key) && IsApplication(b, key))
  {
  }

  lemma OnePosition(s: State, i: nat, j: nat, key: ConsumedKey)
    requires AppliedOnce(s) && i < j < |s.applied|
    ensures !(IsApplication(s.applied[i], key) && IsApplication(s.applied[j], key))
  {
    assert DifferentKeys(s.applied[i], s.applied[j]);
    DifferentKeysDiffer(s.applied[i], s.applied[j], key);
  }

  /** No two applications share a key. */
  lemma OnePerKey(s: State, a: Application, b: Application, key: ConsumedKey)
    requires AppliedOnce(s) && a in s.applied && b in s.applied && IsApplication(a, key) && IsApplication(b, key)
    ensures a == b
  {
    forall i: nat, j: nat | i < j < |s.applied|
      ensures !(IsApplication(s.applied[i], key) && IsApplication(s.applied[j], key))
    {
      OnePosition(s, i, j, key);
    }
  }

  /** In any drained run, whoever else writes whatever: an event was applied in a group exactly unless something else
      was applied there under its tenant and id. */
  lemma AppliedUnlessTaken(steps: seq<Step>, group: string, e: OperationalEvent)
    requires AllPublished(Run(INITIAL, steps)) && FullyCommitted(Run(INITIAL, steps), group)
    requires e in Run(INITIAL, steps).events
    ensures Insertable(e)
    ensures Application(group, Envelope(e)) in Run(INITIAL, steps).applied <==> !TakenByAnother(Run(INITIAL, steps), group, e)
  {
    RunKeepsInv(steps);
    var s := Run(INITIAL, steps);
    assert Insertable(e);
    var a := KeyIsApplied(s, group, e);
    if Application(group, Envelope(e)) in s.applied {
      OwnExcludesAnother(s, group, e);
    } else {
      assert a.envelope == Envelope(e) ==> a == Application(group, Envelope(e));
    }
  }

  lemma OwnExcludesAnother(s: State, group: string, e: OperationalEvent)
    requires AppliedOnce(s) && Insertable(e) && Application(group, Envelope(e)) in s.applied
    ensures !TakenByAnother(s, group, e)
  {
    EnvelopeFields(e);
    forall b | b in s.applied && IsApplication(b, EventKey(group, e))
      ensures b == Application(group, Envelope(e))
    {
      OnePerKey(s, b, Application(group, Envelope(e)), EventKey(group, e));
    }
  }

  /** What took its place was written by another producer under the event's id. */
  lemma TakenMeansForged(steps: seq<Step>, group: string, e: OperationalEvent)
    requires e in Run(INITIAL, steps).events && Insertable(e) && TakenByAnother(Run(INITIAL, steps), group, e)
    ensures exists p, m :: InLog(Run(INITIAL, steps), p, m) && Carries(m, e.eventId)
                           && !HasEnvelopeOf(Run(INITIAL, steps), m, e.eventId)
    ensures !NobodyForges(steps)
  {
    RunKeepsInv(steps);
    var s := Run(INITIAL, steps);
    EnvelopeFields(e);
    var a :| a in s.applied && IsApplication(a, EventKey(group, e)) && a.envelope != Envelope(e);
    var p, m :| InLog(s, p, m) && Classify(m) == Process(a.envelope);
    assert Carries(m, e.eventId);
    assert s.outbox[e.eventId].event == e;
    assert !HasEnvelopeOf(s, m, e.eventId);
    if NobodyForges(steps) {
      RunForgesNothing(steps);
    }
  }

  // ----- the forgery that comes first wins -----

  lemma AppliedGrows(s: State, step: Step)
    ensures s.applied <= Do(s, step).applied
  {
    if !ConsumerStep(step) {
      ProducerStepGrowsLogs(s, step);
    }
  }

  lemma {:induction false} AppliedStays(s: State, steps: seq<Step>)
    ensures s.applied <= Run(s, steps).applied
  {
    if steps != [] {
      var n := |steps| - 1;
      AppliedStays(s, steps[..n]);
      AppliedGrows(Run(s, steps[..n]), steps[n]);
    }
  }

  /** Once something else was applied under its tenant and id, the event is never applied in the group. */
  lemma TakenForever(s: State, group: string, e: OperationalEvent, rest: seq<Step>)
    requires ProducerInv(s) && ConsumerInv(s) && Insertable(e) && TakenByAnother(s, group, e)
    ensures Application(group, Envelope(e)) !in Run(s, rest).applied
  {
    RunOnKeepsInv(s, rest);
    AppliedStays(s, rest);
    StillTaken(s, Run(s, rest), group, e);
    if Application(group, Envelope(e)) in Run(s, rest).applied {
      OwnExcludesAnother(Run(s, rest), group, e);
    }
  }

  lemma StillTaken(s: State, t: State, group: string, e: OperationalEvent)
    requires Insertable(e) && TakenByAnother(s, group, e) && s.applied <= t.applied
    ensures TakenByAnother(t, group, e)
  {
    var a :| a in s.applied && IsApplication(a, EventKey(group, e)) && a.envelope != Envelope(e);
    assert a in t.applied;
  }

  /** The event with another payload. */
  function Altered(e: OperationalEvent): OperationalEvent { e.(payload := map["x" := JNull]) }

  function ForgedEnvelope(e: OperationalEvent): map<string, Json> { Envelope(Altered(e)) }

  function Forged(e: OperationalEvent): Message { Render(Altered(e)) }

  lemma AlteredIsInsertable(e: OperationalEvent)
    requires Insertable(e)
    ensures Insertable(Altered(e))
  {
    assert TextColumns(Altered(e)) == TextColumns(e) && UuidColumns(Altered(e)) == UuidColumns(e);
  }

  lemma ForgedHasItsKey(e: OperationalEvent)
    requires Insertable(e)
    ensures Recordable(ForgedEnvelope(e)) && KeyFor("g", ForgedEnvelope(e)) == EventKey("g", e)
  {
    EnvelopeFields(Altered(e));
    assert TextColumns(e)[0] == e.tenantId;
  }

  lemma ForgedIsProcessable(e: OperationalEvent)
    requires e.aggregateVersion > 0 && Insertable(e)
    ensures Classify(Forged(e)) == Process(ForgedEnvelope(e))
  {
    AlteredIsInsertable(e);
    RenderedIsProcessable(Altered(e));
  }

  lemma ForgedDiffers(e: OperationalEvent)
    requires e.payload != map["x" := JNull]
    ensures ForgedEnvelope(e) != Envelope(e)
  {
    EnvelopeFields(e);
    EnvelopeFields(Altered(e));
  }

  /** The event is appended, and a forgery under its id is polled and applied before the event is published. */
  function ForgeryFirst(e: OperationalEvent): seq<Step> {
    var p := Partition(e.topic, 0);
    [Append(e, 0), Foreign(p, Forged(e.(aggregateVersion := 1))), Poll(LaneId("g", p)), Apply(LaneId("g", p))]
  }

  lemma ForgeryIsLogged(s: State, p: Partition, m: Message)
    requires LogOf(s, p) == [] && LaneOf(s, LaneId("g", p)) == Lane(0, 0, Idle)
    ensures
      var t := Do(Do(s, Foreign(p, m)), Poll(LaneId("g", p)));
      && LogOf(t, p) == [m] && LaneOf(t, LaneId("g", p)) == Lane(0, 0, Fetched)
      && t.applied == s.applied && t.consumed == s.consumed && t.events == s.events
  {
  }

  lemma ForgeryIsApplied(s: State, p: Partition, m: Message)
    requires LogOf(s, p) == [m] && LaneOf(s, LaneId("g", p)) == Lane(0, 0, Fetched)
    requires Classify(m).Process? && Recordable(Classify(m).envelope) && KeyFor("g", Classify(m).envelope) !in s.consumed
    ensures Do(s, Apply(LaneId("g", p))).applied == s.applied + [Application("g", Classify(m).envelope)]
  {
  }

  lemma FirstAppend(e: OperationalEvent)
    requires Insertable(e)
    ensures var s := Do(INITIAL, Append(e, 0));
      s.events == [e.(aggregateVersion := 1)] && s.logs == map[] && s.lanes == map[] && s.applied == [] && s.consumed == {}
  {
    assert FreshId(INITIAL, e.eventId);
  }

  /** From the initial state: the forgery is applied, and whatever happens afterwards the group never applies the event. */
  lemma ForgeryWins(e: OperationalEvent, rest: seq<Step>)
    requires Insertable(e) && e.payload != map["x" := JNull]
    ensures var event := e.(aggregateVersion := 1);
      && event in Run(INITIAL, ForgeryFirst(e)).events
      && Application("g", Envelope(event)) !in Run(Run(INITIAL, ForgeryFirst(e)), rest).applied
  {
    var event := e.(aggregateVersion := 1);
    var p := Partition(e.topic, 0);
    var steps := ForgeryFirst(e);
    assert Insertable(event);
    RunFour(INITIAL, steps[0], steps[1], steps[2], steps[3]);
    FirstAppend(e);
    var a := Do(INITIAL, steps[0]);
    ForgedIsProcessable(event);
    ForgedHasItsKey(event);
    ForgedDiffers(event);
    ForgeryIsLogged(a, p, Forged(event));
    var b := Do(Do(a, steps[1]), steps[2]);
    ForgeryIsApplied(b, p, Forged(event));
    RunKeepsInv(steps);
    var s := Run(INITIAL, steps);
    AppliedGrows(b, steps[3]);
    assert s.events == b.events by {
      ConsumerStepTouchesNoProducer(b, steps[3]);
    }
    var x := ForgedEnvelope(event);
    assert s.applied[0] == Application("g", x);
    assert Application("g", x) in s.applied && IsApplication(Application("g", x), EventKey("g", event));
    TakenForever(s, "g", event, rest);
  }
}
