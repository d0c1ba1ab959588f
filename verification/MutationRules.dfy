/** A command in terms of the event log: what it is answered, and what it adds (state/durable_recovery_store.py). */
module MutationRules {
  import opened Sequences
  import opened DurableStore

  /** No tenant or recovery, a negative version, a key of less than eight characters, or a time without a zone. */
  ghost predicate Malformed<Req, Snap, Resp>(m: Mutation<Req, Snap, Resp>) {
    || m.tenantId == "" || m.recoveryId == "" || m.expectedVersion < 0 || |m.idempotencyKey| < 8
    || match m.occurredAt
       case Some(Naive(_)) => true
       case _ => false
  }

  /** The event that the key's first use wrote. */
  ghost predicate FirstUse<Req, Snap, Resp>(t: Tables<Req, Snap, Resp>, m: Mutation<Req, Snap, Resp>, e: EventRow<Req, Snap, Resp>) {
    var key := (m.tenantId, m.idempotencyKey);
    e in t.events && key in t.commands && t.commands[key].eventId == e.eventId
  }

  /** The event was written for the same type of command on the same recovery, at the same version, on the same request.
      What else the command carried does not count. */
  ghost predicate SameCommand<Req, Snap, Resp>(m: Mutation<Req, Snap, Resp>, e: EventRow<Req, Snap, Resp>) {
    && e.recoveryId == m.recoveryId && e.commandType == m.commandType
    && e.version == m.expectedVersion + 1 && e.request == m.request
  }

  /** The event tells everything that was asked. */
  ghost predicate Records<Req, Snap, Resp>(e: EventRow<Req, Snap, Resp>, m: Mutation<Req, Snap, Resp>, eventId: string, now: int) {
    && e.eventId == eventId && e.tenantId == m.tenantId && e.recoveryId == m.recoveryId
    && e.version == m.expectedVersion + 1
    && e.partitionKey == m.tenantId + ":" + m.partitionId + ":" + m.recoveryId
    && e.eventType == m.eventType && e.schemaVersion == m.schemaVersion && e.commandType == m.commandType
    && (m.occurredAt.None? ==> e.occurredAt == Aware(now)) && (m.occurredAt.Some? ==> e.occurredAt == m.occurredAt.value)
    && e.correlationId == m.correlationId && e.causationId == m.causationId && e.actorSubject == m.actorSubject
    && e.request == m.request && e.snapshot == m.snapshot && e.response == m.response
  }

  ghost predicate Repeats<Req, Snap, Resp>(outcome: Outcome<Resp>, e: EventRow<Req, Snap, Resp>) {
    outcome == Done(Receipt(e.eventId, e.version, Versioned(e.response, e.version), true))
  }

  lemma MalformedIff<Req, Snap, Resp>(t: Tables<Req, Snap, Resp>, m: Mutation<Req, Snap, Resp>, eventId: string)
    requires Consistent(t)
    ensures MutateOutcome(t, m, eventId) == Failed(InvalidMutation) <==> Malformed(m)
    ensures ValidMutation(m) <==> !Malformed(m)
  {
  }

  /** A key on file: the receipt of its first use is repeated exactly if that was the same command; otherwise the key is
      refused. Nothing is written. */
  lemma KnownKeyMeans<Req, Snap, Resp>(t: Tables<Req, Snap, Resp>, m: Mutation<Req, Snap, Resp>, eventId: string, now: int)
    returns (e: EventRow<Req, Snap, Resp>)
    requires Consistent(t) && !Malformed(m) && (m.tenantId, m.idempotencyKey) in t.commands
    ensures FirstUse(t, m, e) && AfterMutate(t, m, eventId, now) == t
    ensures
      if SameCommand(m, e) then Repeats(MutateOutcome(t, m, eventId), e)
      else MutateOutcome(t, m, eventId) == Failed(IdempotencyConflict)
  {
    MalformedIff(t, m, eventId);
    assert OwnsSome(t, CommandKey(m));
    var i :| 0 <= i < |t.events| && Owns(t, CommandKey(m), i);
    e := t.events[i];
  }

  /** A new key: refused as stale exactly if the recovery has another number of events than the caller expects; otherwise
      one event that tells everything that was asked, with its message on the command's topic and its receipt. */
  lemma NewKeyMeans<Req, Snap, Resp>(t: Tables<Req, Snap, Resp>, m: Mutation<Req, Snap, Resp>, eventId: string, now: int)
    requires Consistent(t) && !Malformed(m) && (m.tenantId, m.idempotencyKey) !in t.commands
    ensures
      var outcome, after := MutateOutcome(t, m, eventId), AfterMutate(t, m, eventId, now);
      if |StreamEvents(t, (m.tenantId, m.recoveryId))| != m.expectedVersion then
        outcome == Failed(StaleVersion) && after == t
      else
        && outcome == Done(Receipt(eventId, m.expectedVersion + 1, Versioned(m.response, m.expectedVersion + 1), false))
        && exists e :: Records(e, m, eventId, now) && after.events == t.events + [e] && FirstUse(after, m, e)
             && after.outbox == t.outbox + [OutboxRow(m.topic, e)]
  {
    MalformedIff(t, m, eventId);
    assert StreamAgrees(t, StreamKey(m));
    if Admitted(t, m) {
      var e, after := NewEvent(m, eventId, now), AfterMutate(t, m, eventId, now);
      assert Records(e, m, eventId, now) && after.events == t.events + [e];
      assert e in after.events;
    }
  }

  /** Two commands may share a receipt although they ask for different things: the digest leaves out all that
      SameCommand does. */
  lemma OtherContentsSameReceipt<Req, Snap, Resp>(
    t: Tables<Req, Snap, Resp>, first: Call<Req, Snap, Resp>, second: Mutation<Req, Snap, Resp>, eventId: string)
    requires Consistent(t) && FreshEventId(t, first.eventId) && Admitted(t, first.mutation) && !Malformed(second)
    requires second.tenantId == first.mutation.tenantId && second.recoveryId == first.mutation.recoveryId
    requires second.idempotencyKey == first.mutation.idempotencyKey && second.commandType == first.mutation.commandType
    requires second.expectedVersion == first.mutation.expectedVersion && second.request == first.mutation.request
    ensures
      var after := AfterMutate(t, first.mutation, first.eventId, first.now);
      MutateOutcome(after, second, eventId)
        == Done(Receipt(first.eventId, first.mutation.expectedVersion + 1,
                        Versioned(first.mutation.response, first.mutation.expectedVersion + 1), true))
  {
    MalformedIff(t, second, eventId);
  }
}
