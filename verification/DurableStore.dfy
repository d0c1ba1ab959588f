/** The recovery workflow's tables and its one transaction (state/durable_recovery_store.py). */
module DurableStore {
  import opened Sequences

  datatype Timestamp = Naive(at: int) | Aware(at: int)

  /** A workflow command to persist. Req, Snap and Resp stand for its three JSON documents. */
  datatype Mutation<Req, Snap, Resp> = Mutation(
    tenantId: string, recoveryId: string, expectedVersion: int, idempotencyKey: string,
    commandType: string, eventType: string, actorSubject: string, correlationId: string, causationId: Option<string>,
    partitionId: string, request: Req, snapshot: Snap, response: Resp,
    topic: string, schemaVersion: string, occurredAt: Option<Timestamp>)

  /** What the command digest covers. */
  datatype CommandDigest<Req> = CommandDigest(commandType: string, expectedVersion: int, recoveryId: string, request: Req)

  /** A response as it is stored and returned: the new state version is added to it. */
  datatype Versioned<Resp> = Versioned(body: Resp, stateVersion: nat)

  datatype CommandRow<Req, Resp> = CommandRow(
    digest: CommandDigest<Req>, completed: bool, eventId: string, stateVersion: nat, response: Option<Versioned<Resp>>)

  datatype EventRow<Req, Snap, Resp> = EventRow(
    eventId: string, tenantId: string, recoveryId: string, version: nat, partitionKey: string, eventType: string,
    schemaVersion: string, occurredAt: Timestamp, correlationId: string, causationId: Option<string>,
    actorSubject: string, commandType: string, request: Req, snapshot: Snap, response: Resp)

  datatype OutboxRow<Req, Snap, Resp> = OutboxRow(topic: string, envelope: EventRow<Req, Snap, Resp>)

  datatype SnapshotRow<Snap> = SnapshotRow(stateVersion: nat, snapshot: Snap, lastEventId: string)

  datatype Tables<Req, Snap, Resp> = Tables(
    commands: map<(string, string), CommandRow<Req, Resp>>,
    streams: map<(string, string), nat>,
    events: seq<EventRow<Req, Snap, Resp>>,
    outbox: seq<OutboxRow<Req, Snap, Resp>>,
    snapshots: map<(string, string), SnapshotRow<Snap>>)

  datatype Failure = InvalidMutation | IdempotencyConflict | InProgress | StaleVersion

  datatype Receipt<Resp> = Receipt(eventId: string, stateVersion: nat, response: Versioned<Resp>, replayed: bool)

  datatype Outcome<Resp> = Done(receipt: Receipt<Resp>) | Failed(failure: Failure)

  // ----- the transaction as a function of the tables -----

  function CommandKey<Req, Snap, Resp>(m: Mutation<Req, Snap, Resp>): (string, string) { (m.tenantId, m.idempotencyKey) }

  function StreamKey<Req, Snap, Resp>(m: Mutation<Req, Snap, Resp>): (string, string) { (m.tenantId, m.recoveryId) }

  predicate ValidMutation<Req, Snap, Resp>(m: Mutation<Req, Snap, Resp>) {
    && m.tenantId != "" && m.recoveryId != ""
    && m.expectedVersion >= 0
    && |m.idempotencyKey| >= 8
    && !(m.occurredAt.Some? && m.occurredAt.value.Naive?)
  }

  function Digest<Req, Snap, Resp>(m: Mutation<Req, Snap, Resp>): CommandDigest<Req> {
    CommandDigest(m.commandType, m.expectedVersion, m.recoveryId, m.request)
  }

  function StreamVersion<Req, Snap, Resp>(t: Tables<Req, Snap, Resp>, key: (string, string)): nat {
    if key in t.streams then t.streams[key] else 0
  }

  /** The answer to a command whose key is already on file. */
  function ExistingReceipt<Req(==), Resp>(row: CommandRow<Req, Resp>, digest: CommandDigest<Req>): Outcome<Resp> {
    if row.digest != digest then Failed(IdempotencyConflict)
    else if !row.completed || row.response.None? then Failed(InProgress)
    else Done(Receipt(row.eventId, row.stateVersion, row.response.value, true))
  }

  predicate Admitted<Req, Snap, Resp>(t: Tables<Req, Snap, Resp>, m: Mutation<Req, Snap, Resp>) {
    ValidMutation(m) && CommandKey(m) !in t.commands && StreamVersion(t, StreamKey(m)) == m.expectedVersion
  }

  function MutateOutcome<Req(==), Snap, Resp>(t: Tables<Req, Snap, Resp>, m: Mutation<Req, Snap, Resp>, eventId: string): Outcome<Resp> {
    if !ValidMutation(m) then Failed(InvalidMutation)
    else if CommandKey(m) in t.commands then ExistingReceipt(t.commands[CommandKey(m)], Digest(m))
    else if StreamVersion(t, StreamKey(m)) != m.expectedVersion then Failed(StaleVersion)
    else Done(Receipt(eventId, m.expectedVersion + 1, Versioned(m.response, m.expectedVersion + 1), false))
  }

  function NewEvent<Req, Snap, Resp>(m: Mutation<Req, Snap, Resp>, eventId: string, now: int): EventRow<Req, Snap, Resp>
    requires ValidMutation(m)
  {
    EventRow(eventId, m.tenantId, m.recoveryId, m.expectedVersion + 1,
             m.tenantId + ":" + m.partitionId + ":" + m.recoveryId, m.eventType, m.schemaVersion,
             if m.occurredAt.Some? then m.occurredAt.value else Aware(now),
             m.correlationId, m.causationId, m.actorSubject, m.commandType, m.request, m.snapshot, m.response)
  }

  function Written<Req, Snap, Resp>(t: Tables<Req, Snap, Resp>, m: Mutation<Req, Snap, Resp>, eventId: string, now: int): Tables<Req, Snap, Resp>
    requires ValidMutation(m)
  {
    var event := NewEvent(m, eventId, now);
    Tables(t.commands[CommandKey(m) := CommandRow(Digest(m), true, eventId, event.version, Some(Versioned(m.response, event.version)))],
           t.streams[StreamKey(m) := event.version],
           t.events + [event],
           t.outbox + [OutboxRow(m.topic, event)],
           t.snapshots[StreamKey(m) := SnapshotRow(event.version, m.snapshot, eventId)])
  }

  function AfterMutate<Req, Snap, Resp>(t: Tables<Req, Snap, Resp>, m: Mutation<Req, Snap, Resp>, eventId: string, now: int): Tables<Req, Snap, Resp> {
    if Admitted(t, m) then Written(t, m, eventId, now) else t
  }

  // ----- what every committed state keeps -----

  function InStream<Req, Snap, Resp>(key: (string, string)): EventRow<Req, Snap, Resp> -> bool {
    (e: EventRow<Req, Snap, Resp>) => (e.tenantId, e.recoveryId) == key
  }

  function StreamEvents<Req, Snap, Resp>(t: Tables<Req, Snap, Resp>, key: (string, string)): seq<EventRow<Req, Snap, Resp>> {
    Filter(InStream(key), t.events)
  }

  /** Each stream's events are numbered 1..n, n is the stream version, and the snapshot is the last event's. */
  ghost predicate StreamsAgree<Req, Snap, Resp>(t: Tables<Req, Snap, Resp>) {
    forall key :: StreamAgrees(t, key)
  }

  ghost predicate StreamAgrees<Req, Snap, Resp>(t: Tables<Req, Snap, Resp>, key: (string, string)) {
    var events := StreamEvents(t, key);
    && StreamVersion(t, key) == |events|
    && (forall k :: 0 <= k < |events| ==> events[k].version == k + 1)
    && (key in t.snapshots <==> events != [])
    && (events != [] ==>
          t.snapshots[key] == SnapshotRow(|events|, events[|events| - 1].snapshot, events[|events| - 1].eventId))
  }

  ghost predicate OutboxMirrors<Req, Snap, Resp>(t: Tables<Req, Snap, Resp>) {
    && |t.outbox| == |t.events|
    && (forall i :: 0 <= i < |t.events| ==> t.outbox[i].envelope == t.events[i])
    && (forall i, j :: 0 <= i < j < |t.events| ==> t.events[i].eventId != t.events[j].eventId)
  }

  ghost predicate Owns<Req, Snap, Resp>(t: Tables<Req, Snap, Resp>, key: (string, string), i: int)
    requires key in t.commands && 0 <= i < |t.events|
  {
    var row, e := t.commands[key], t.events[i];
    && row.eventId == e.eventId && row.stateVersion == e.version && row.response == Some(Versioned(e.response, e.version))
    && key.0 == e.tenantId
    && row.digest == CommandDigest(e.commandType, e.version - 1, e.recoveryId, e.request)
  }

  ghost predicate Owned<Req, Snap, Resp>(t: Tables<Req, Snap, Resp>, i: int)
    requires 0 <= i < |t.events|
  {
    exists key :: key in t.commands && Owns(t, key, i)
  }

  /** Keys and events are in one-to-one correspondence, and every key on file is completed. */
  ghost predicate KeysOwnEvents<Req, Snap, Resp>(t: Tables<Req, Snap, Resp>) {
    && (forall key :: key in t.commands ==> t.commands[key].completed)
    && (forall key :: key in t.commands ==> OwnsSome(t, key))
    && (forall i :: 0 <= i < |t.events| ==> Owned(t, i))
    && (forall a, b :: a in t.commands && b in t.commands && t.commands[a].eventId == t.commands[b].eventId ==> a == b)
  }

  ghost predicate Consistent<Req, Snap, Resp>(t: Tables<Req, Snap, Resp>) {
    StreamsAgree(t) && OutboxMirrors(t) && KeysOwnEvents(t)
  }

  ghost predicate FreshEventId<Req, Snap, Resp>(t: Tables<Req, Snap, Resp>, eventId: string) {
    forall i :: 0 <= i < |t.events| ==> t.events[i].eventId != eventId
  }

  lemma WriteKeepsStream<Req, Snap, Resp>(t: Tables<Req, Snap, Resp>, m: Mutation<Req, Snap, Resp>, eventId: string, now: int, key: (string, string))
    requires StreamAgrees(t, key) && Admitted(t, m)
    ensures StreamAgrees(Written(t, m, eventId, now), key)
  {
    var after := Written(t, m, eventId, now);
    assert after.events[..|t.events|] == t.events;
    assert StreamEvents(after, key) ==
      StreamEvents(t, key) + (if key == StreamKey(m) then [NewEvent(m, eventId, now)] else []);
  }

  ghost predicate OwnsSome<Req, Snap, Resp>(t: Tables<Req, Snap, Resp>, key: (string, string))
    requires key in t.commands
  {
    exists i :: 0 <= i < |t.events| && Owns(t, key, i)
  }

  lemma WriteKeepsOwner<Req, Snap, Resp>(t: Tables<Req, Snap, Resp>, m: Mutation<Req, Snap, Resp>, eventId: string, now: int, key: (string, string), i: int)
    requires Admitted(t, m) && key in t.commands && 0 <= i < |t.events| && Owns(t, key, i)
    ensures key in Written(t, m, eventId, now).commands && Owns(Written(t, m, eventId, now), key, i)
  {
  }

  lemma NewKeyOwnsNewEvent<Req, Snap, Resp>(t: Tables<Req, Snap, Resp>, m: Mutation<Req, Snap, Resp>, eventId: string, now: int)
    requires Admitted(t, m)
    ensures Owns(Written(t, m, eventId, now), CommandKey(m), |t.events|)
  {
  }

  lemma OldKeysAvoidFreshId<Req, Snap, Resp>(t: Tables<Req, Snap, Resp>, eventId: string)
    requires KeysOwnEvents(t) && FreshEventId(t, eventId)
    ensures forall key :: key in t.commands ==> t.commands[key].eventId != eventId
  {
    forall key | key in t.commands
      ensures t.commands[key].eventId != eventId
    {
      assert OwnsSome(t, key);
    }
  }

  lemma WriteKeepsOwners<Req, Snap, Resp>(t: Tables<Req, Snap, Resp>, m: Mutation<Req, Snap, Resp>, eventId: string, now: int)
    requires KeysOwnEvents(t) && Admitted(t, m) && FreshEventId(t, eventId)
    ensures KeysOwnEvents(Written(t, m, eventId, now))
  {
    var after := Written(t, m, eventId, now);
    NewKeyOwnsNewEvent(t, m, eventId, now);
    OldKeysAvoidFreshId(t, eventId);
    forall key | key in after.commands
      ensures OwnsSome(after, key)
    {
      if key != CommandKey(m) {
        assert OwnsSome(t, key);
        var i :| 0 <= i < |t.events| && Owns(t, key, i);
        WriteKeepsOwner(t, m, eventId, now, key, i);
      }
    }
    forall i | 0 <= i < |after.events|
      ensures Owned(after, i)
    {
      if i < |t.events| {
        assert Owned(t, i);
        var key :| key in t.commands && Owns(t, key, i);
        WriteKeepsOwner(t, m, eventId, now, key, i);
      }
    }
  }

  /** Every mutate call, accepted or not, keeps the tables consistent. */
  lemma MutateKeepsConsistency<Req, Snap, Resp>(t: Tables<Req, Snap, Resp>, m: Mutation<Req, Snap, Resp>, eventId: string, now: int)
    requires Consistent(t) && FreshEventId(t, eventId)
    ensures Consistent(AfterMutate(t, m, eventId, now))
  {
    if Admitted(t, m) {
      forall key
        ensures StreamAgrees(Written(t, m, eventId, now), key)
      {
        WriteKeepsStream(t, m, eventId, now, key);
      }
      WriteKeepsOwners(t, m, eventId, now);
    }
  }

  // ----- whole runs -----

  datatype Call<Req, Snap, Resp> = Call(mutation: Mutation<Req, Snap, Resp>, eventId: string, now: int)

  function EmptyTables<Req, Snap, Resp>(): Tables<Req, Snap, Resp> { Tables(map[], map[], [], [], map[]) }

  function Run<Req, Snap, Resp>(t: Tables<Req, Snap, Resp>, calls: seq<Call<Req, Snap, Resp>>): Tables<Req, Snap, Resp> {
    if calls == [] then t
    else
      var c := calls[|calls| - 1];
      AfterMutate(Run(t, calls[..|calls| - 1]), c.mutation, c.eventId, c.now)
  }

  /** Generated event ids never repeat, within the run or with the tables. */
  ghost predicate FreshIds<Req, Snap, Resp>(t: Tables<Req, Snap, Resp>, calls: seq<Call<Req, Snap, Resp>>) {
    && (forall i :: 0 <= i < |calls| ==> FreshEventId(t, calls[i].eventId))
    && (forall i, j :: 0 <= i < j < |calls| ==> calls[i].eventId != calls[j].eventId)
  }

  lemma {:induction false} RunAvoidsId<Req, Snap, Resp>(t: Tables<Req, Snap, Resp>, calls: seq<Call<Req, Snap, Resp>>, eventId: string)
    requires FreshEventId(t, eventId) && forall i :: 0 <= i < |calls| ==> calls[i].eventId != eventId
    ensures FreshEventId(Run(t, calls), eventId)
  {
    if calls != [] {
      RunAvoidsId(t, calls[..|calls| - 1], eventId);
    }
  }

  /** Consistency holds after any run: retries, stale versions, key reuse, several tenants. */
  lemma {:induction false} RunKeepsConsistency<Req, Snap, Resp>(t: Tables<Req, Snap, Resp>, calls: seq<Call<Req, Snap, Resp>>)
    requires Consistent(t) && FreshIds(t, calls)
    ensures Consistent(Run(t, calls))
  {
    if calls != [] {
      var prefix, c := calls[..|calls| - 1], calls[|calls| - 1];
      RunKeepsConsistency(t, prefix);
      var before := Run(t, prefix);
      RunAvoidsId(t, prefix, c.eventId);
      MutateKeepsConsistency(before, c.mutation, c.eventId, c.now);
    }
  }

  /** A command on file is never changed or removed, and events are never rewritten. */
  lemma {:induction false} RowsArePermanent<Req, Snap, Resp>(t: Tables<Req, Snap, Resp>, calls: seq<Call<Req, Snap, Resp>>, key: (string, string))
    requires key in t.commands
    ensures key in Run(t, calls).commands && Run(t, calls).commands[key] == t.commands[key]
    ensures t.events <= Run(t, calls).events
  {
    if calls != [] {
      RowsArePermanent(t, calls[..|calls| - 1], key);
    }
  }

  lemma {:induction false} EventsArePermanent<Req, Snap, Resp>(t: Tables<Req, Snap, Resp>, calls: seq<Call<Req, Snap, Resp>>)
    ensures t.events <= Run(t, calls).events
  {
    if calls != [] {
      EventsArePermanent(t, calls[..|calls| - 1]);
    }
  }

  /** No caller ever sees a command still in progress, and a new event is written exactly when admitted. */
  lemma OutcomesAreDefinite<Req, Snap, Resp>(t: Tables<Req, Snap, Resp>, m: Mutation<Req, Snap, Resp>, eventId: string, now: int)
    requires Consistent(t)
    ensures MutateOutcome(t, m, eventId) != Failed(InProgress)
    ensures MutateOutcome(t, m, eventId).Failed? ==> AfterMutate(t, m, eventId, now) == t
    ensures MutateOutcome(t, m, eventId).Done? && MutateOutcome(t, m, eventId).receipt.replayed ==>
      AfterMutate(t, m, eventId, now) == t
    ensures MutateOutcome(t, m, eventId).Done? && !MutateOutcome(t, m, eventId).receipt.replayed <==> Admitted(t, m)
  {
    if CommandKey(m) in t.commands {
      assert OwnsSome(t, CommandKey(m));
    }
  }

  /** Once a command succeeds, any later matching call gets the same receipt back and writes nothing. */
  lemma RetryReturnsTheReceipt<Req, Snap, Resp>(
    t: Tables<Req, Snap, Resp>, first: Call<Req, Snap, Resp>, calls: seq<Call<Req, Snap, Resp>>, retry: Call<Req, Snap, Resp>)
    requires MutateOutcome(t, first.mutation, first.eventId).Done?
    requires CommandKey(retry.mutation) == CommandKey(first.mutation) && Digest(retry.mutation) == Digest(first.mutation)
    requires ValidMutation(retry.mutation)
    ensures
      var receipt := MutateOutcome(t, first.mutation, first.eventId).receipt;
      var later := Run(AfterMutate(t, first.mutation, first.eventId, first.now), calls);
      && MutateOutcome(later, retry.mutation, retry.eventId) == Done(receipt.(replayed := true))
      && AfterMutate(later, retry.mutation, retry.eventId, retry.now) == later
  {
    RowsArePermanent(AfterMutate(t, first.mutation, first.eventId, first.now), calls, CommandKey(first.mutation));
  }

  /** Reusing a key for another command is always refused. */
  lemma KeyReuseIsRefused<Req, Snap, Resp>(
    t: Tables<Req, Snap, Resp>, first: Call<Req, Snap, Resp>, calls: seq<Call<Req, Snap, Resp>>, other: Call<Req, Snap, Resp>)
    requires MutateOutcome(t, first.mutation, first.eventId).Done?
    requires CommandKey(other.mutation) == CommandKey(first.mutation) && Digest(other.mutation) != Digest(first.mutation)
    requires ValidMutation(other.mutation)
    ensures MutateOutcome(Run(AfterMutate(t, first.mutation, first.eventId, first.now), calls), other.mutation, other.eventId)
      == Failed(IdempotencyConflict)
  {
    RowsArePermanent(AfterMutate(t, first.mutation, first.eventId, first.now), calls, CommandKey(first.mutation));
  }

  // ----- replay -----

  predicate VersionOrder<Req, Snap, Resp>(a: EventRow<Req, Snap, Resp>, b: EventRow<Req, Snap, Resp>) {
    a.version <= b.version
  }

  function Folded<Req, Snap, Resp, State>(
    reducer: (State, EventRow<Req, Snap, Resp>) -> State, initial: State, events: seq<EventRow<Req, Snap, Resp>>): State
  {
    if events == [] then initial
    else reducer(Folded(reducer, initial, events[..|events| - 1]), events[|events| - 1])
  }

  function TakeSnapshot<Req, Snap, Resp>(): (Option<Snap>, EventRow<Req, Snap, Resp>) -> Option<Snap> {
    (_: Option<Snap>, e: EventRow<Req, Snap, Resp>) => Some(e.snapshot)
  }

  function StoredSnapshot<Req, Snap, Resp>(t: Tables<Req, Snap, Resp>, key: (string, string)): Option<SnapshotRow<Snap>> {
    if key in t.snapshots then Some(t.snapshots[key]) else None
  }

  lemma StreamIsOrdered<Req, Snap, Resp>(t: Tables<Req, Snap, Resp>, key: (string, string))
    requires StreamAgrees(t, key)
    ensures Sorted((a, b) => VersionOrder(a, b), StreamEvents(t, key)) == StreamEvents(t, key)
  {
    SortedFixesOrdered((a, b) => VersionOrder(a, b), StreamEvents(t, key));
  }

  /** The tables after the reservation and the stream row are inserted. */
  function Reserved<Req, Snap, Resp>(t: Tables<Req, Snap, Resp>, m: Mutation<Req, Snap, Resp>): Tables<Req, Snap, Resp> {
    t.(commands := t.commands[CommandKey(m) := CommandRow(Digest(m), false, "", 0, None)],
       streams := t.streams[StreamKey(m) := StreamVersion(t, StreamKey(m))])
  }

  lemma LastWriteCounts<K, V>(rows: map<K, V>, key: K, first: V, last: V)
    ensures rows[key := first][key := last] == rows[key := last]
  {
  }

  /** What the snapshot upsert's WHERE clause checks. */
  ghost predicate SnapshotIsCurrent<Req, Snap, Resp>(t: Tables<Req, Snap, Resp>, key: (string, string)) {
    key in t.snapshots ==> t.snapshots[key].stateVersion == StreamVersion(t, key)
  }

  lemma ConsistentSnapshotIsCurrent<Req, Snap, Resp>(t: Tables<Req, Snap, Resp>, key: (string, string))
    requires Consistent(t)
    ensures SnapshotIsCurrent(t, key)
  {
    assert StreamAgrees(t, key);
  }

  /** The tables of the workflow, changed one statement at a time inside a transaction. */
  class Repository<Req(==), Snap, Resp> {
    var commands: map<(string, string), CommandRow<Req, Resp>>
    var streams: map<(string, string), nat>
    var events: seq<EventRow<Req, Snap, Resp>>
    var outbox: seq<OutboxRow<Req, Snap, Resp>>
    var snapshots: map<(string, string), SnapshotRow<Snap>>

    function View(): Tables<Req, Snap, Resp>
      reads this
    {
      Tables(commands, streams, events, outbox, snapshots)
    }

    constructor ()
      ensures View() == EmptyTables() && Consistent(View())
    {
      commands, streams, events, outbox, snapshots := map[], map[], [], [], map[];
    }

    method Rollback(saved: Tables<Req, Snap, Resp>)
      modifies this
      ensures View() == saved
    {
      commands, streams, events, outbox, snapshots :=
        saved.commands, saved.streams, saved.events, saved.outbox, saved.snapshots;
    }

    /** The writes of an admitted command, whose key and stream rows are in place. */
    method WriteRows(m: Mutation<Req, Snap, Resp>, eventId: string, now: int, ghost start: Tables<Req, Snap, Resp>)
      requires Admitted(start, m) && SnapshotIsCurrent(start, StreamKey(m)) && View() == Reserved(start, m)
      modifies this
      ensures View() == Written(start, m, eventId, now)
    {
      var key, stream := CommandKey(m), StreamKey(m);
      var currentVersion := streams[stream];
      var event := NewEvent(m, eventId, now);
      events := events + [event];
      streams := streams[stream := event.version];
      outbox := outbox + [OutboxRow(m.topic, event)];
      if stream !in snapshots || snapshots[stream].stateVersion == currentVersion {
        snapshots := snapshots[stream := SnapshotRow(event.version, m.snapshot, eventId)];
      }
      commands := commands[key := CommandRow(Digest(m), true, eventId, event.version, Some(Versioned(m.response, event.version)))];
      LastWriteCounts(start.commands, key, CommandRow(Digest(m), false, "", 0, None), commands[key]);
      LastWriteCounts(start.streams, stream, StreamVersion(start, stream), event.version);
    }

    /** The reservation, the version check and the writes, in the order of the statements. */
    method Transact(m: Mutation<Req, Snap, Resp>, eventId: string, now: int) returns (outcome: Outcome<Resp>)
      requires ValidMutation(m) && CommandKey(m) !in commands
      requires SnapshotIsCurrent(View(), StreamKey(m))
      modifies this
      ensures outcome == old(MutateOutcome(View(), m, eventId))
      ensures View() == old(AfterMutate(View(), m, eventId, now))
    {
      var saved := View();
      commands := commands[CommandKey(m) := CommandRow(Digest(m), false, "", 0, None)];
      if StreamKey(m) !in streams {
        streams := streams[StreamKey(m) := 0];
      }
      assert streams == saved.streams[StreamKey(m) := StreamVersion(saved, StreamKey(m))];
      if streams[StreamKey(m)] != m.expectedVersion {
        Rollback(saved);
        return Failed(StaleVersion);
      }
      WriteRows(m, eventId, now, saved);
      outcome := Done(Receipt(eventId, m.expectedVersion + 1, Versioned(m.response, m.expectedVersion + 1), false));
    }

    method Mutate(m: Mutation<Req, Snap, Resp>, eventId: string, now: int) returns (outcome: Outcome<Resp>)
      requires Consistent(View()) && FreshEventId(View(), eventId)
      modifies this
      ensures Consistent(View())
      ensures outcome == old(MutateOutcome(View(), m, eventId))
      ensures View() == old(AfterMutate(View(), m, eventId, now))
    {
      MutateKeepsConsistency(View(), m, eventId, now);
      if !ValidMutation(m) {
        return Failed(InvalidMutation);
      }
      if CommandKey(m) in commands {
        return ExistingReceipt(commands[CommandKey(m)], Digest(m));
      }
      ConsistentSnapshotIsCurrent(View(), StreamKey(m));
      outcome := Transact(m, eventId, now);
    }

    method GetSnapshot(tenantId: string, recoveryId: string) returns (row: Option<SnapshotRow<Snap>>)
      ensures row == StoredSnapshot(View(), (tenantId, recoveryId))
    {
      row := if (tenantId, recoveryId) in snapshots then Some(snapshots[(tenantId, recoveryId)]) else None;
    }

    /** Folds a recovery's events in version order; the order is also the order they were written in. */
    method Replay<State>(tenantId: string, recoveryId: string, reducer: (State, EventRow<Req, Snap, Resp>) -> State, initial: State)
      returns (version: nat, state: State)
      requires Consistent(View())
      ensures version == StreamVersion(View(), (tenantId, recoveryId))
      ensures state == Folded(reducer, initial, StreamEvents(View(), (tenantId, recoveryId)))
    {
      var key := (tenantId, recoveryId);
      assert StreamAgrees(View(), key);
      StreamIsOrdered(View(), key);
      var rows := Sorted((a, b) => VersionOrder(a, b), StreamEvents(View(), key));
      version, state := FoldRows(rows, reducer, initial);
    }

    /** The fold over rows numbered from one. */
    static method FoldRows<State>(rows: seq<EventRow<Req, Snap, Resp>>, reducer: (State, EventRow<Req, Snap, Resp>) -> State,
                                  initial: State) returns (version: nat, state: State)
      requires forall k :: 0 <= k < |rows| ==> rows[k].version == k + 1
      ensures version == |rows| && state == Folded(reducer, initial, rows)
    {
      version, state := 0, initial;
      for i := 0 to |rows|
        invariant version == i
        invariant state == Folded(reducer, initial, rows[..i])
      {
        assert rows[..i + 1][..i] == rows[..i];
        state := reducer(state, rows[i]);
        version := rows[i].version;
      }
      assert rows[..|rows|] == rows;
    }

    /** Replaying with the reducer that keeps the newest snapshot gives the stored snapshot and its version. */
    method ReplaySnapshot(tenantId: string, recoveryId: string) returns (version: nat, snapshot: Option<Snap>)
      requires Consistent(View())
      ensures
        var stored := StoredSnapshot(View(), (tenantId, recoveryId));
        if stored.None? then version == 0 && snapshot == None
        else version == stored.value.stateVersion && snapshot == Some(stored.value.snapshot)
    {
      version, snapshot := Replay(tenantId, recoveryId, TakeSnapshot(), None);
      assert StreamAgrees(View(), (tenantId, recoveryId));
    }
  }
}
