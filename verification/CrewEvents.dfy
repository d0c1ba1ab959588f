/** The append-only event log of crew state and its materialized view (state/event_store.py). */
module CrewEvents {
  import opened Sequences
  import opened Text

  datatype EventType =
    | CrewMemberCreated | FlightAssigned | DutyStart | DutyEnd | RestPeriodStart
    | QualificationAdded | LegalMoveRequest | LegalMoveCompleted | ScheduleRejected

  /** What a payload holds under a key; an explicit null is not a missing key. */
  datatype Entry<+T> = Missing | Null | Given(value: T)

  /** The payload keys the view reads. */
  datatype Payload = Payload(
    baseHub: Entry<string>, currentLocation: Entry<string>, qualifications: Entry<set<Option<string>>>,
    lastRestEnd: Entry<int>, flightId: Entry<string>, destination: Entry<string>, startTime: Entry<int>,
    qualification: Entry<string>, toPartition: Entry<string>, toLocation: Entry<string>)

  datatype CrewEvent = CrewEvent(
    eventId: string, eventType: EventType, crewId: string, partitionId: string, timestamp: int, payload: Payload,
    sequence: nat, correlationId: string, causationId: Option<string>)

  /** The store's four tables: per-partition lists, global log, seen ids, stream versions. */
  datatype Tables = Tables(
    events: map<string, seq<CrewEvent>>, log: seq<CrewEvent>, ids: set<string>, versions: map<(string, string), nat>)

  const NO_EVENTS := Tables(map[], [], {}, map[])

  function StreamVersion(t: Tables, partitionId: string, crewId: string): nat {
    if (partitionId, crewId) in t.versions then t.versions[(partitionId, crewId)] else 0
  }

  function PartitionList(t: Tables, partitionId: string): seq<CrewEvent> {
    if partitionId in t.events then t.events[partitionId] else []
  }

  /** The event as the log keeps it. */
  function Stamped(t: Tables, e: CrewEvent): CrewEvent {
    e.(sequence := StreamVersion(t, e.partitionId, e.crewId) + 1,
       correlationId := if e.correlationId == "" then e.eventId else e.correlationId)
  }

  datatype Appended = Stored | Duplicate | Conflict

  function AppendOutcome(t: Tables, e: CrewEvent, expected: Option<nat>): Appended {
    if e.eventId in t.ids then Duplicate
    else if expected.Some? && expected.value != StreamVersion(t, e.partitionId, e.crewId) then Conflict
    else Stored
  }

  function WithEvent(t: Tables, e: CrewEvent): Tables {
    var s := Stamped(t, e);
    Tables(t.events[e.partitionId := PartitionList(t, e.partitionId) + [s]],
           t.log + [s],
           t.ids + {e.eventId},
           t.versions[(e.partitionId, e.crewId) := s.sequence])
  }

  function AfterAppend(t: Tables, e: CrewEvent, expected: Option<nat>): Tables {
    if AppendOutcome(t, e, expected).Stored? then WithEvent(t, e) else t
  }

  /** The tables that appending the events in order leaves. */
  function TablesOf(events: seq<CrewEvent>): Tables {
    if events == [] then NO_EVENTS
    else AfterAppend(TablesOf(events[..|events| - 1]), events[|events| - 1], None)
  }

  /** Stamping a logged event again at the same place changes nothing, so the log determines the tables. */
  ghost predicate Reproducible(t: Tables) {
    t == TablesOf(t.log)
  }

  lemma AppendKeepsReproducible(t: Tables, e: CrewEvent, expected: Option<nat>)
    requires Reproducible(t)
    ensures Reproducible(AfterAppend(t, e, expected))
  {
    if AppendOutcome(t, e, expected).Stored? {
      var s := Stamped(t, e);
      assert (t.log + [s])[..|t.log|] == t.log;
      assert Stamped(t, s) == s;
      assert WithEvent(t, s) == WithEvent(t, e);
    }
  }

  lemma {:induction false} TablesOfIsReproducible(events: seq<CrewEvent>)
    ensures Reproducible(TablesOf(events))
  {
    if events != [] {
      TablesOfIsReproducible(events[..|events| - 1]);
      AppendKeepsReproducible(TablesOf(events[..|events| - 1]), events[|events| - 1], None);
    }
  }

  // ----- what the tables say about the log -----

  function OfPartition(partitionId: string): CrewEvent -> bool {
    (e: CrewEvent) => e.partitionId == partitionId
  }

  function OfStream(partitionId: string, crewId: string): CrewEvent -> bool {
    (e: CrewEvent) => e.partitionId == partitionId && e.crewId == crewId
  }

  /** The tables index the log, and each stream is numbered 1, 2, 3, ... */
  ghost predicate IndexesLog(t: Tables) {
    && (forall p :: PartitionList(t, p) == Filter(OfPartition(p), t.log))
    && (forall p, c :: StreamVersion(t, p, c) == |Filter(OfStream(p, c), t.log)|)
    && IdsIndexLog(t)
  }

  ghost predicate StreamNumbered(stream: seq<CrewEvent>) {
    forall k :: 0 <= k < |stream| ==> stream[k].sequence == k + 1
  }

  ghost predicate Numbered(log: seq<CrewEvent>) {
    forall p, c :: StreamNumbered(Filter(OfStream(p, c), log))
  }

  /** The log table lists exactly the seen ids, each once. */
  ghost predicate IdsIndexLog(t: Tables) {
    && (forall id :: id in t.ids <==> Logged(t.log, id))
    && (forall i, j :: 0 <= i < j < |t.log| ==> t.log[i].eventId != t.log[j].eventId)
  }

  ghost predicate Logged(log: seq<CrewEvent>, id: string) {
    exists i :: 0 <= i < |log| && log[i].eventId == id
  }

  lemma LoggedSnoc(log: seq<CrewEvent>, e: CrewEvent, id: string)
    ensures Logged(log + [e], id) <==> Logged(log, id) || id == e.eventId
  {
    assert (log + [e])[|log|] == e;
    if Logged(log, id) {
      var i :| 0 <= i < |log| && log[i].eventId == id;
      assert (log + [e])[i].eventId == id;
    }
  }

  lemma AppendKeepsIds(t: Tables, e: CrewEvent)
    requires IdsIndexLog(t) && e.eventId !in t.ids
    ensures IdsIndexLog(WithEvent(t, e))
  {
    forall id
      ensures id in WithEvent(t, e).ids <==> Logged(WithEvent(t, e).log, id)
    {
      LoggedSnoc(t.log, Stamped(t, e), id);
    }
    forall i | 0 <= i < |t.log|
      ensures t.log[i].eventId != e.eventId
    {
      assert Logged(t.log, t.log[i].eventId);
    }
  }

  lemma AppendKeepsLists(t: Tables, e: CrewEvent, p: string)
    requires PartitionList(t, p) == Filter(OfPartition(p), t.log)
    ensures PartitionList(WithEvent(t, e), p) == Filter(OfPartition(p), WithEvent(t, e).log)
  {
    FilterSnoc(OfPartition(p), t.log, Stamped(t, e));
  }

  lemma AppendKeepsVersions(t: Tables, e: CrewEvent, p: string, c: string)
    requires StreamVersion(t, p, c) == |Filter(OfStream(p, c), t.log)|
    ensures StreamVersion(WithEvent(t, e), p, c) == |Filter(OfStream(p, c), WithEvent(t, e).log)|
  {
    FilterSnoc(OfStream(p, c), t.log, Stamped(t, e));
  }

  lemma AppendKeepsIndex(t: Tables, e: CrewEvent)
    requires IndexesLog(t) && e.eventId !in t.ids
    ensures IndexesLog(WithEvent(t, e))
  {
    AppendKeepsIds(t, e);
    forall p
      ensures PartitionList(WithEvent(t, e), p) == Filter(OfPartition(p), WithEvent(t, e).log)
    {
      AppendKeepsLists(t, e, p);
    }
    forall p, c
      ensures StreamVersion(WithEvent(t, e), p, c) == |Filter(OfStream(p, c), WithEvent(t, e).log)|
    {
      AppendKeepsVersions(t, e, p, c);
    }
  }

  lemma AppendKeepsStreamNumbered(t: Tables, e: CrewEvent, p: string, c: string)
    requires StreamVersion(t, p, c) == |Filter(OfStream(p, c), t.log)| && StreamNumbered(Filter(OfStream(p, c), t.log))
    ensures StreamNumbered(Filter(OfStream(p, c), WithEvent(t, e).log))
  {
    var s := Stamped(t, e);
    if OfStream(p, c)(s) {
      FilterTakes(OfStream(p, c), t.log, s);
    } else {
      FilterSkips(OfStream(p, c), t.log, s);
    }
  }

  lemma AppendKeepsNumbering(t: Tables, e: CrewEvent)
    requires IndexesLog(t) && Numbered(t.log)
    ensures Numbered(WithEvent(t, e).log)
  {
    forall p, c
      ensures StreamNumbered(Filter(OfStream(p, c), WithEvent(t, e).log))
    {
      assert StreamNumbered(Filter(OfStream(p, c), t.log));
      AppendKeepsStreamNumbered(t, e, p, c);
    }
  }

  lemma {:induction false} TablesIndexTheLog(events: seq<CrewEvent>)
    ensures IndexesLog(TablesOf(events)) && Numbered(TablesOf(events).log)
  {
    if events != [] {
      var before := TablesOf(events[..|events| - 1]);
      TablesIndexTheLog(events[..|events| - 1]);
      if AppendOutcome(before, events[|events| - 1], None).Stored? {
        AppendKeepsIndex(before, events[|events| - 1]);
        AppendKeepsNumbering(before, events[|events| - 1]);
      }
    }
  }

  // ----- the crew view -----

  /** A crew member's state; a null in a payload can put None in place of a name. */
  datatype CrewState = CrewState(
    crewId: string, baseHub: Option<string>, currentPartition: Option<string>, currentLocation: Option<string>,
    qualifications: set<Option<string>>, lastRestEnd: Option<int>, dutyClockStart: Option<int>,
    activeAssignments: seq<Option<string>>, version: nat)

  function Value<T>(entry: Entry<T>): Option<T> {
    if entry.Given? then Some(entry.value) else None
  }

  /** The fallback stands in for a missing key only. */
  function GetOr(entry: Entry<string>, fallback: Option<string>): Option<string> {
    if entry.Missing? then fallback else Value(entry)
  }

  function Created(e: CrewEvent): CrewState
    requires !Raises(e)
  {
    var hub := GetOr(e.payload.baseHub, Some(e.partitionId));
    var rated := e.payload.qualifications;
    CrewState(e.crewId, hub, Some(e.partitionId), GetOr(e.payload.currentLocation, hub),
              if rated.Given? then rated.value else {}, Value(e.payload.lastRestEnd), None, [], 1)
  }

  function WithoutFirst(xs: seq<Option<string>>, x: Option<string>): seq<Option<string>> {
    if xs == [] then []
    else if xs[0] == x then xs[1..]
    else [xs[0]] + WithoutFirst(xs[1..], x)
  }

  /** The payload lacks a key this event type needs, or has a null where a time or a list is read. */
  predicate Raises(e: CrewEvent) {
    match e.eventType
    case CrewMemberCreated => e.payload.qualifications.Null?
    case FlightAssigned => e.payload.flightId.Missing?
    case ScheduleRejected => e.payload.flightId.Missing?
    case DutyStart => !e.payload.startTime.Given?
    case RestPeriodStart => !e.payload.startTime.Given?
    case QualificationAdded => e.payload.qualification.Missing?
    case LegalMoveCompleted => e.payload.toPartition.Missing?
    case _ => false
  }

  /** The state of an existing crew member after one more event. */
  function Advanced(s: CrewState, e: CrewEvent): CrewState
    requires !Raises(e)
  {
    var next := s.(version := s.version + 1);
    match e.eventType
    case CrewMemberCreated => Created(e)
    case FlightAssigned =>
      var f := Value(e.payload.flightId);
      next.(activeAssignments := if f in s.activeAssignments then s.activeAssignments else s.activeAssignments + [f],
            currentLocation := GetOr(e.payload.destination, s.currentLocation))
    case DutyStart => next.(dutyClockStart := Some(e.payload.startTime.value))
    case DutyEnd => next.(dutyClockStart := None)
    case RestPeriodStart => next.(lastRestEnd := Some(e.payload.startTime.value), dutyClockStart := None)
    case QualificationAdded => next.(qualifications := s.qualifications + {Value(e.payload.qualification)})
    case LegalMoveRequest => next
    case LegalMoveCompleted =>
      next.(currentPartition := Value(e.payload.toPartition),
            currentLocation := GetOr(e.payload.toLocation, s.currentLocation))
    case ScheduleRejected =>
      next.(activeAssignments := WithoutFirst(s.activeAssignments, Value(e.payload.flightId)))
  }

  type Crews = map<string, CrewState>

  function Slot(crews: Crews, crewId: string): Option<CrewState> {
    if crewId in crews then Some(crews[crewId]) else None
  }

  /** One crew member's state after an event of theirs; the outer None is a raised exception. */
  function NextSlot(slot: Option<CrewState>, e: CrewEvent): Option<Option<CrewState>> {
    if e.eventType.CrewMemberCreated? then if Raises(e) then None else Some(Some(Created(e)))
    else if slot.None? then Some(None)
    else if Raises(e) then None
    else Some(Some(Advanced(slot.value, e)))
  }

  /** The view after one event; None if applying it raises. */
  function Applied(crews: Crews, e: CrewEvent): Option<Crews> {
    var next := NextSlot(Slot(crews, e.crewId), e);
    if next.None? then None
    else if next.value.None? then Some(crews)
    else Some(crews[e.crewId := next.value.value])
  }

  /** The view after the events in order; None once one raises. */
  function ViewOf(events: seq<CrewEvent>): Option<Crews> {
    if events == [] then Some(map[])
    else
      var before := ViewOf(events[..|events| - 1]);
      if before.None? then None else Applied(before.value, events[|events| - 1])
  }

  function SlotOf(events: seq<CrewEvent>): Option<Option<CrewState>> {
    if events == [] then Some(None)
    else
      var before := SlotOf(events[..|events| - 1]);
      if before.None? then None else NextSlot(before.value, events[|events| - 1])
  }

  function OfCrew(crewId: string): CrewEvent -> bool {
    (e: CrewEvent) => e.crewId == crewId
  }

  /** A crew member's slot in the view is what that member's own events give. */
  ghost predicate SlotFits(events: seq<CrewEvent>, crews: Crews, c: string) {
    SlotOf(Filter(OfCrew(c), events)) == Some(Slot(crews, c))
  }

  /** The events of one crew member alone decide that member's state. */
  ghost predicate Separate(events: seq<CrewEvent>) {
    && (ViewOf(events).Some? ==> forall c :: SlotFits(events, ViewOf(events).value, c))
    && (ViewOf(events).None? ==> exists c :: SlotOf(Filter(OfCrew(c), events)).None?)
  }

  lemma SlotSnoc(events: seq<CrewEvent>, e: CrewEvent)
    ensures SlotOf(events + [e]) == if SlotOf(events).None? then None else NextSlot(SlotOf(events).value, e)
  {
    assert (events + [e])[..|events|] == events;
  }

  /** One more event moves the slot of its own crew member only. */
  lemma OtherSlotStays(prefix: seq<CrewEvent>, e: CrewEvent, c: string)
    requires c != e.crewId
    ensures SlotOf(Filter(OfCrew(c), prefix + [e])) == SlotOf(Filter(OfCrew(c), prefix))
  {
    FilterSkips(OfCrew(c), prefix, e);
  }

  lemma OwnSlotMoves(prefix: seq<CrewEvent>, e: CrewEvent)
    ensures
      var before := SlotOf(Filter(OfCrew(e.crewId), prefix));
      SlotOf(Filter(OfCrew(e.crewId), prefix + [e])) == if before.None? then None else NextSlot(before.value, e)
  {
    FilterTakes(OfCrew(e.crewId), prefix, e);
    SlotSnoc(Filter(OfCrew(e.crewId), prefix), e);
  }

  lemma RaisedStaysSeparate(prefix: seq<CrewEvent>, e: CrewEvent)
    requires ViewOf(prefix).None? && Separate(prefix)
    ensures Separate(prefix + [e])
  {
    assert (prefix + [e])[..|prefix|] == prefix;
    var c :| SlotOf(Filter(OfCrew(c), prefix)).None?;
    if c == e.crewId {
      OwnSlotMoves(prefix, e);
    } else {
      OtherSlotStays(prefix, e, c);
    }
    assert SlotOf(Filter(OfCrew(c), prefix + [e])).None?;
  }

  lemma AppliedSlot(was: Crews, e: CrewEvent, now: Crews, c: string)
    requires Applied(was, e) == Some(now)
    ensures c != e.crewId ==> Slot(now, c) == Slot(was, c)
    ensures NextSlot(Slot(was, e.crewId), e) == Some(Slot(now, e.crewId))
  {
  }

  lemma SlotStaysFitting(prefix: seq<CrewEvent>, e: CrewEvent, was: Crews, now: Crews, c: string)
    requires SlotFits(prefix, was, c) && Applied(was, e) == Some(now)
    ensures SlotFits(prefix + [e], now, c)
  {
    AppliedSlot(was, e, now, c);
    if c == e.crewId {
      OwnSlotMoves(prefix, e);
    } else {
      OtherSlotStays(prefix, e, c);
    }
  }

  lemma RaisingSlot(prefix: seq<CrewEvent>, e: CrewEvent, was: Crews)
    requires SlotFits(prefix, was, e.crewId) && Applied(was, e).None?
    ensures SlotOf(Filter(OfCrew(e.crewId), prefix + [e])).None?
  {
    OwnSlotMoves(prefix, e);
  }

  lemma ViewSnoc(prefix: seq<CrewEvent>, e: CrewEvent)
    ensures ViewOf(prefix + [e]) == if ViewOf(prefix).None? then None else Applied(ViewOf(prefix).value, e)
  {
    assert (prefix + [e])[..|prefix|] == prefix;
  }

  lemma ViewStaysSeparate(prefix: seq<CrewEvent>, e: CrewEvent)
    requires ViewOf(prefix).Some? && Separate(prefix)
    ensures Separate(prefix + [e])
  {
    var was := ViewOf(prefix).value;
    ViewSnoc(prefix, e);
    if Applied(was, e).Some? {
      var now := Applied(was, e).value;
      forall c
        ensures SlotFits(prefix + [e], now, c)
      {
        assert SlotFits(prefix, was, c);
        SlotStaysFitting(prefix, e, was, now, c);
      }
    } else {
      assert SlotFits(prefix, was, e.crewId);
      RaisingSlot(prefix, e, was);
    }
  }

  lemma {:induction false} CrewsAreSeparate(events: seq<CrewEvent>)
    ensures Separate(events)
  {
    if events == [] {
      assert forall c :: Filter(OfCrew(c), events) == [];
    } else {
      var prefix, e := events[..|events| - 1], events[|events| - 1];
      CrewsAreSeparate(prefix);
      assert events == prefix + [e];
      if ViewOf(prefix).None? {
        RaisedStaysSeparate(prefix, e);
      } else {
        ViewStaysSeparate(prefix, e);
      }
    }
  }

  lemma RaisesTogether(xs: seq<CrewEvent>, ys: seq<CrewEvent>)
    requires forall c :: Filter(OfCrew(c), xs) == Filter(OfCrew(c), ys)
    requires Separate(xs) && Separate(ys)
    ensures ViewOf(xs).None? ==> ViewOf(ys).None?
  {
    if ViewOf(xs).None? {
      var c :| SlotOf(Filter(OfCrew(c), xs)).None?;
      assert SlotOf(Filter(OfCrew(c), ys)).None?;
      assert ViewOf(ys).Some? ==> SlotFits(ys, ViewOf(ys).value, c);
    }
  }

  lemma SameSlotsSameCrews(a: Crews, b: Crews)
    requires forall c :: Slot(a, c) == Slot(b, c)
    ensures a == b
  {
    forall c | c in a
      ensures c in b && a[c] == b[c]
    {
      assert Slot(a, c) == Slot(b, c);
    }
    forall c | c in b
      ensures c in a
    {
      assert Slot(a, c) == Slot(b, c);
    }
  }

  /** Histories with the same events per crew member, in the same order, give the same view. */
  lemma SameStreamsSameView(xs: seq<CrewEvent>, ys: seq<CrewEvent>)
    requires forall c :: Filter(OfCrew(c), xs) == Filter(OfCrew(c), ys)
    ensures ViewOf(xs) == ViewOf(ys)
  {
    CrewsAreSeparate(xs);
    CrewsAreSeparate(ys);
    RaisesTogether(xs, ys);
    RaisesTogether(ys, xs);
    if ViewOf(xs).Some? && ViewOf(ys).Some? {
      var a, b := ViewOf(xs).value, ViewOf(ys).value;
      forall c
        ensures Slot(a, c) == Slot(b, c)
      {
        assert SlotFits(xs, a, c) && SlotFits(ys, b, c);
      }
      SameSlotsSameCrews(a, b);
    }
  }

  // ----- replay order -----

  /** The sort key of a partition stream: sequence, timestamp, event id. */
  predicate ReplaysNoLater(a: CrewEvent, b: CrewEvent) {
    if a.sequence != b.sequence then a.sequence < b.sequence
    else if a.timestamp != b.timestamp then a.timestamp < b.timestamp
    else StrLe(a.eventId, b.eventId)
  }

  function PartitionStream(t: Tables, partitionId: string): seq<CrewEvent> {
    Sorted(ReplaysNoLater, PartitionList(t, partitionId))
  }

  lemma ReplayOrderIsPreorder()
    ensures TotalPreorder(ReplaysNoLater)
  {
    forall a, b
      ensures ReplaysNoLater(a, b) || ReplaysNoLater(b, a)
    {
      StrLeTotal(a.eventId, b.eventId);
    }
    forall a, b, c | ReplaysNoLater(a, b) && ReplaysNoLater(b, c)
      ensures ReplaysNoLater(a, c)
    {
      if StrLe(a.eventId, b.eventId) && StrLe(b.eventId, c.eventId) {
        StrLeTransitive(a.eventId, b.eventId, c.eventId);
      }
    }
  }

  lemma {:induction false} FilterPermutation<T>(f: T -> bool, xs: seq<T>, ys: seq<T>)
    requires multiset(xs) == multiset(ys)
    ensures multiset(Filter(f, xs)) == multiset(Filter(f, ys))
    decreases |xs|
  {
    if xs == [] {
      assert |multiset(ys)| == 0;
      assert ys == [];
    } else {
      var k := RemoveLast(xs, ys);
      FilterPermutation(f, xs[..|xs| - 1], ys[..k] + ys[k + 1..]);
      FilterConcat(f, ys[..k] + [ys[k]], ys[k + 1..]);
      FilterConcat(f, ys[..k], ys[k + 1..]);
      FilterSnoc(f, ys[..k], ys[k]);
    }
  }

  lemma {:induction false} FilterOrdered<T>(le: (T, T) -> bool, f: T -> bool, xs: seq<T>)
    requires Ordered(le, xs)
    ensures Ordered(le, Filter(f, xs))
  {
    if xs != [] {
      var prefix, x := xs[..|xs| - 1], xs[|xs| - 1];
      FilterOrdered(le, f, prefix);
      var kept := Filter(f, prefix);
      forall i | 0 <= i < |kept|
        ensures le(kept[i], x)
      {
        FilterMembers(f, prefix, kept[i]);
        var k :| 0 <= k < |prefix| && prefix[k] == kept[i];
      }
    }
  }

  lemma {:induction false} FilterFilter<T>(f: T -> bool, g: T -> bool, h: T -> bool, xs: seq<T>)
    requires forall x :: x in xs ==> h(x) == (f(x) && g(x))
    ensures Filter(f, Filter(g, xs)) == Filter(h, xs)
  {
    if xs != [] {
      var prefix, x := xs[..|xs| - 1], xs[|xs| - 1];
      assert xs == prefix + [x];
      FilterFilter(f, g, h, prefix);
      if g(x) {
        FilterSnoc(f, Filter(g, prefix), x);
      } else {
        assert Filter(g, prefix) + [] == Filter(g, prefix);
      }
    }
  }

  /** Sorting a partition for replay keeps each crew member's events in append order. */
  lemma ReplayKeepsStreams(t: Tables, partitionId: string, crewId: string)
    requires IndexesLog(t) && Numbered(t.log)
    ensures Filter(OfCrew(crewId), PartitionStream(t, partitionId)) ==
            Filter(OfCrew(crewId), PartitionList(t, partitionId))
  {
    var listed, sorted := PartitionList(t, partitionId), PartitionStream(t, partitionId);
    SortedIsPermutation(ReplaysNoLater, listed);
    FilterPermutation(OfCrew(crewId), listed, sorted);
    ReplayOrderIsPreorder();
    SortedIsOrdered(ReplaysNoLater, listed);
    FilterOrdered(ReplaysNoLater, OfCrew(crewId), sorted);
    FilterFilter(OfCrew(crewId), OfPartition(partitionId), OfStream(partitionId, crewId), t.log);
    var stream := Filter(OfCrew(crewId), listed);
    assert stream == Filter(OfStream(partitionId, crewId), t.log);
    StrictOrderIsUnique(ReplaysNoLater, stream, Filter(OfCrew(crewId), sorted));
  }

  /** Rebuilding a partition from its sorted stream gives the incrementally kept view, or raises with it. */
  lemma RebuildEqualsIncremental(t: Tables, partitionId: string)
    requires Reproducible(t)
    ensures ViewOf(PartitionStream(t, partitionId)) == ViewOf(PartitionList(t, partitionId))
    ensures PartitionList(t, partitionId) == Filter(OfPartition(partitionId), t.log)
  {
    TablesIndexTheLog(t.log);
    forall c
      ensures Filter(OfCrew(c), PartitionStream(t, partitionId)) == Filter(OfCrew(c), PartitionList(t, partitionId))
    {
      ReplayKeepsStreams(t, partitionId, c);
    }
    SameStreamsSameView(PartitionStream(t, partitionId), PartitionList(t, partitionId));
  }

  // ----- the mutable store and view -----

  class EventStore {
    var events: map<string, seq<CrewEvent>>
    var allEvents: seq<CrewEvent>
    var eventIds: set<string>
    var streamVersions: map<(string, string), nat>

    function View(): Tables
      reads this
    {
      Tables(events, allEvents, eventIds, streamVersions)
    }

    ghost predicate Valid()
      reads this
    {
      Reproducible(View())
    }

    constructor ()
      ensures Valid() && View() == NO_EVENTS
    {
      events, allEvents, eventIds, streamVersions := map[], [], {}, map[];
    }

    /** Returns how the append ended and the event as it was stamped. */
    method Append(event: CrewEvent, expectedVersion: Option<nat>) returns (outcome: Appended, stamped: CrewEvent)
      requires Valid()
      modifies this
      ensures Valid()
      ensures outcome == old(AppendOutcome(View(), event, expectedVersion))
      ensures View() == old(AfterAppend(View(), event, expectedVersion))
      ensures stamped == if outcome.Stored? then old(Stamped(View(), event)) else event
    {
      outcome := Examine(event, expectedVersion);
      stamped := event;
      if outcome.Stored? {
        stamped := Stamp(event);
        File(event, stamped);
      }
    }

    method Examine(event: CrewEvent, expectedVersion: Option<nat>) returns (outcome: Appended)
      ensures outcome == AppendOutcome(View(), event, expectedVersion)
    {
      if event.eventId in eventIds {
        return Duplicate;
      }
      var key := (event.partitionId, event.crewId);
      var current := if key in streamVersions then streamVersions[key] else 0;
      outcome := if expectedVersion.Some? && expectedVersion.value != current then Conflict else Stored;
    }

    method Stamp(event: CrewEvent) returns (stamped: CrewEvent)
      ensures stamped == Stamped(View(), event)
    {
      var key := (event.partitionId, event.crewId);
      var current := if key in streamVersions then streamVersions[key] else 0;
      stamped := event.(sequence := current + 1);
      if stamped.correlationId == "" {
        stamped := stamped.(correlationId := stamped.eventId);
      }
    }

    /** Files the event that was just stamped. */
    method File(event: CrewEvent, stamped: CrewEvent)
      requires Valid() && event.eventId !in eventIds && stamped == Stamped(View(), event)
      modifies this
      ensures Valid() && View() == old(WithEvent(View(), event))
    {
      AppendKeepsReproducible(View(), event, None);
      Enter(event, stamped);
    }

    /** Enters a stamped event in all four tables. */
    method Enter(event: CrewEvent, stamped: CrewEvent)
      requires stamped == Stamped(View(), event)
      modifies this
      ensures View() == old(WithEvent(View(), event))
    {
      if event.partitionId !in events {
        events := events[event.partitionId := []];
      }
      events := events[event.partitionId := events[event.partitionId] + [stamped]];
      assert events == old(events)[event.partitionId := old(PartitionList(View(), event.partitionId)) + [stamped]];
      allEvents := allEvents + [stamped];
      eventIds := eventIds + {event.eventId};
      streamVersions := streamVersions[(event.partitionId, event.crewId) := stamped.sequence];
    }

    method Serialize() returns (data: seq<CrewEvent>)
      ensures data == View().log
    {
      data := allEvents;
    }

    /** Re-appends a file; a file written by Serialize gives back exactly the store it was written from. */
    static method Deserialize(data: seq<CrewEvent>) returns (store: EventStore)
      ensures fresh(store) && store.Valid() && store.View() == TablesOf(data)
    {
      store := new EventStore();
      for i := 0 to |data|
        invariant fresh(store) && store.Valid() && store.View() == TablesOf(data[..i])
      {
        assert data[..i + 1][..i] == data[..i];
        var outcome, stamped := store.Append(data[i], None);
      }
      assert data[..|data|] == data;
    }

    /** Writing a store out and reading it back reproduces every table. */
    method SaveAndLoad() returns (copy: EventStore)
      requires Valid()
      ensures fresh(copy) && copy.Valid() && copy.View() == View()
    {
      var data := Serialize();
      copy := Deserialize(data);
    }

    /** Replay of a partition; the view is the one the appended events give in append order. */
    method Replay(partitionId: string) returns (view: MaterializedView, raised: bool)
      requires Valid()
      ensures fresh(view)
      ensures raised <==> ViewOf(Filter(OfPartition(partitionId), View().log)).None?
      ensures !raised ==> view.crewStates == ViewOf(Filter(OfPartition(partitionId), View().log)).value
    {
      RebuildEqualsIncremental(View(), partitionId);
      view, raised := MaterializedView.Rebuild(PartitionStream(View(), partitionId));
    }
  }

  class MaterializedView {
    var crewStates: Crews

    constructor ()
      ensures crewStates == map[]
    {
      crewStates := map[];
    }

    static method Rebuild(stream: seq<CrewEvent>) returns (view: MaterializedView, raised: bool)
      ensures fresh(view)
      ensures raised <==> ViewOf(stream).None?
      ensures !raised ==> view.crewStates == ViewOf(stream).value
    {
      view := new MaterializedView();
      raised := false;
      for i := 0 to |stream|
        invariant fresh(view)
        invariant !raised && ViewOf(stream[..i]) == Some(view.crewStates)
      {
        assert stream[..i + 1][..i] == stream[..i];
        raised := view.Apply(stream[i]);
        if raised {
          RaisedPrefix(stream, i + 1);
          return;
        }
      }
      assert stream[..|stream|] == stream;
    }

    /** Applies one event in place. An exception leaves a creation undone, and of any other event the version bump. */
    method Apply(event: CrewEvent) returns (raised: bool)
      modifies this
      ensures raised <==> old(Applied(crewStates, event)).None?
      ensures !raised ==> crewStates == old(Applied(crewStates, event)).value
      ensures raised && event.eventType.CrewMemberCreated? ==> crewStates == old(crewStates)
      ensures raised && !event.eventType.CrewMemberCreated? ==> event.crewId in old(crewStates)
      ensures raised && !event.eventType.CrewMemberCreated? ==>
        var s := old(crewStates[event.crewId]);
        crewStates == old(crewStates)[event.crewId := s.(version := s.version + 1)]
    {
      raised := false;
      if event.eventType.CrewMemberCreated? {
        if event.payload.qualifications.Null? {
          return true;
        }
        crewStates := crewStates[event.crewId := Created(event)];
        return;
      }
      if event.crewId !in crewStates {
        return;
      }
      var state := crewStates[event.crewId];
      if Raises(event) {
        crewStates := crewStates[event.crewId := state.(version := state.version + 1)];
        return true;
      }
      crewStates := crewStates[event.crewId := Advanced(state, event)];
    }
  }

  lemma {:induction false} RaisedPrefix(events: seq<CrewEvent>, k: nat)
    requires k <= |events| && ViewOf(events[..k]).None?
    ensures ViewOf(events).None?
    decreases |events|
  {
    if k < |events| {
      assert events[..|events| - 1][..k] == events[..k];
      RaisedPrefix(events[..|events| - 1], k);
    } else {
      assert events[..k] == events;
    }
  }
}
