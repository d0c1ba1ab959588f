/** A crew member's state in terms of that member's history: which event each part of the state comes from
    (state/event_store.py). */
module CrewHistory {
  import opened Sequences
  import opened Text
  import opened CrewEvents

  /** The k-th event is the last of its kind. */
  ghost predicate LastAt(events: seq<CrewEvent>, kind: CrewEvent -> bool, k: nat) {
    k < |events| && kind(events[k]) && forall j :: k < j < |events| ==> !kind(events[j])
  }

  lemma LastSnoc(events: seq<CrewEvent>, e: CrewEvent, kind: CrewEvent -> bool, k: nat)
    ensures LastAt(events + [e], kind, k) <==> if kind(e) then k == |events| else LastAt(events, kind, k)
  {
    var all := events + [e];
    assert all[|events|] == e;
    assert forall j :: 0 <= j < |events| ==> all[j] == events[j];
  }

  // ----- the kinds of event that set a part of the state -----

  predicate Creates(e: CrewEvent) { e.eventType.CrewMemberCreated? }

  predicate MovesClock(e: CrewEvent) {
    e.eventType in {CrewMemberCreated, DutyStart, DutyEnd, RestPeriodStart}
  }

  predicate SetsRest(e: CrewEvent) { e.eventType in {CrewMemberCreated, RestPeriodStart} }

  predicate SetsPartition(e: CrewEvent) { e.eventType in {CrewMemberCreated, LegalMoveCompleted} }

  /** An assignment or a move without a place leaves the crew member where it was. */
  predicate SetsLocation(e: CrewEvent) {
    || e.eventType.CrewMemberCreated?
    || (e.eventType.FlightAssigned? && !e.payload.destination.Missing?)
    || (e.eventType.LegalMoveCompleted? && !e.payload.toLocation.Missing?)
  }

  // ----- what such an event sets -----

  ghost function Held<T>(entry: Entry<T>): Option<T> {
    match entry
    case Given(value) => Some(value)
    case _ => None
  }

  ghost function HubIn(e: CrewEvent): Option<string> {
    if e.payload.baseHub.Missing? then Some(e.partitionId) else Held(e.payload.baseHub)
  }

  ghost function ClockIn(e: CrewEvent): Option<int> {
    if e.eventType.DutyStart? then Held(e.payload.startTime) else None
  }

  ghost function RestIn(e: CrewEvent): Option<int> {
    if e.eventType.CrewMemberCreated? then Held(e.payload.lastRestEnd) else Held(e.payload.startTime)
  }

  ghost function PartitionIn(e: CrewEvent): Option<string> {
    if e.eventType.CrewMemberCreated? then Some(e.partitionId) else Held(e.payload.toPartition)
  }

  ghost function LocationIn(e: CrewEvent): Option<string> {
    if e.eventType.FlightAssigned? then Held(e.payload.destination)
    else if e.eventType.LegalMoveCompleted? then Held(e.payload.toLocation)
    else if e.payload.currentLocation.Missing? then HubIn(e)
    else Held(e.payload.currentLocation)
  }

  ghost function RatingsIn(e: CrewEvent): set<Option<string>> {
    match e.payload.qualifications
    case Given(ratings) => ratings
    case _ => {}
  }

  ghost function RatingsAdded(events: seq<CrewEvent>, k: nat): set<Option<string>> {
    set j | k < j < |events| && events[j].eventType.QualificationAdded? :: Held(events[j].payload.qualification)
  }

  // ----- active assignments -----

  ghost predicate Assigns(e: CrewEvent, f: Option<string>) {
    e.eventType.FlightAssigned? && Held(e.payload.flightId) == f
  }

  ghost predicate Removes(e: CrewEvent, f: Option<string>) {
    e.eventType.CrewMemberCreated? || (e.eventType.ScheduleRejected? && Held(e.payload.flightId) == f)
  }

  ghost predicate NotRemoved(events: seq<CrewEvent>, f: Option<string>, i: int, j: int) {
    forall k :: i < k < j && 0 <= k < |events| ==> !Removes(events[k], f)
  }

  /** The flight was assigned then and not removed since, and it was not active just before. */
  ghost predicate ActiveSince(events: seq<CrewEvent>, f: Option<string>, k: nat) {
    && k < |events| && Assigns(events[k], f) && NotRemoved(events, f, k, |events|)
    && (forall i :: 0 <= i < k && Assigns(events[i], f) ==> !NotRemoved(events, f, i, k))
  }

  ghost predicate IsActive(events: seq<CrewEvent>, f: Option<string>) {
    exists k: nat :: ActiveSince(events, f, k)
  }

  /** The active flights, each once, in the order in which they became active. */
  ghost predicate ListsActive(events: seq<CrewEvent>, flights: seq<Option<string>>) {
    && (forall f :: f in flights <==> IsActive(events, f))
    && (forall i, j, k: nat, m: nat :: 0 <= i < j < |flights| && ActiveSince(events, flights[i], k) && ActiveSince(events, flights[j], m)
          ==> k < m)
  }

  /** The state recalls the history. */
  ghost predicate Recalls(events: seq<CrewEvent>, s: CrewState) {
    && (forall k: nat :: LastAt(events, Creates, k) ==>
          && s.crewId == events[k].crewId && s.baseHub == HubIn(events[k]) && s.version == |events| - k
          && s.qualifications == RatingsIn(events[k]) + RatingsAdded(events, k))
    && (forall k: nat :: LastAt(events, MovesClock, k) ==> s.dutyClockStart == ClockIn(events[k]))
    && (forall k: nat :: LastAt(events, SetsRest, k) ==> s.lastRestEnd == RestIn(events[k]))
    && (forall k: nat :: LastAt(events, SetsPartition, k) ==> s.currentPartition == PartitionIn(events[k]))
    && (forall k: nat :: LastAt(events, SetsLocation, k) ==> s.currentLocation == LocationIn(events[k]))
    && ListsActive(events, s.activeAssignments)
  }

  // ----- one more event: the parts that the last event of a kind sets -----

  ghost predicate RecallsTimes(events: seq<CrewEvent>, s: CrewState) {
    && (forall k: nat :: LastAt(events, MovesClock, k) ==> s.dutyClockStart == ClockIn(events[k]))
    && (forall k: nat :: LastAt(events, SetsRest, k) ==> s.lastRestEnd == RestIn(events[k]))
  }

  ghost predicate RecallsPlaces(events: seq<CrewEvent>, s: CrewState) {
    && (forall k: nat :: LastAt(events, SetsPartition, k) ==> s.currentPartition == PartitionIn(events[k]))
    && (forall k: nat :: LastAt(events, SetsLocation, k) ==> s.currentLocation == LocationIn(events[k]))
  }

  ghost predicate RecallsCreationAt(events: seq<CrewEvent>, s: CrewState, k: nat)
    requires k < |events|
  {
    && s.crewId == events[k].crewId && s.baseHub == HubIn(events[k]) && s.version == |events| - k
    && s.qualifications == RatingsIn(events[k]) + RatingsAdded(events, k)
  }

  ghost predicate RecallsCreation(events: seq<CrewEvent>, s: CrewState) {
    forall k: nat :: LastAt(events, Creates, k) ==> RecallsCreationAt(events, s, k)
  }

  /** The state after one more event of a crew member that exists, or that the event creates. */
  ghost predicate Follows(s: CrewState, e: CrewEvent, t: CrewState) {
    !Raises(e) && t == if Creates(e) then Created(e) else Advanced(s, e)
  }

  lemma TimesFollow(events: seq<CrewEvent>, s: CrewState, e: CrewEvent, t: CrewState)
    requires RecallsTimes(events, s) && Follows(s, e, t)
    ensures RecallsTimes(events + [e], t)
  {
    var all := events + [e];
    forall k: nat | LastAt(all, MovesClock, k)
      ensures t.dutyClockStart == ClockIn(all[k])
    {
      LastSnoc(events, e, MovesClock, k);
    }
    forall k: nat | LastAt(all, SetsRest, k)
      ensures t.lastRestEnd == RestIn(all[k])
    {
      LastSnoc(events, e, SetsRest, k);
    }
  }

  lemma PlacesFollow(events: seq<CrewEvent>, s: CrewState, e: CrewEvent, t: CrewState)
    requires RecallsPlaces(events, s) && Follows(s, e, t)
    ensures RecallsPlaces(events + [e], t)
  {
    var all := events + [e];
    forall k: nat | LastAt(all, SetsPartition, k)
      ensures t.currentPartition == PartitionIn(all[k])
    {
      LastSnoc(events, e, SetsPartition, k);
    }
    forall k: nat | LastAt(all, SetsLocation, k)
      ensures t.currentLocation == LocationIn(all[k])
    {
      LastSnoc(events, e, SetsLocation, k);
    }
  }

  lemma RatingsSnoc(events: seq<CrewEvent>, e: CrewEvent, k: nat)
    requires k < |events|
    ensures RatingsAdded(events + [e], k) ==
      RatingsAdded(events, k) + (if e.eventType.QualificationAdded? then {Held(e.payload.qualification)} else {})
  {
    var all := events + [e];
    assert all[|events|] == e;
    forall x | x in RatingsAdded(events, k)
      ensures x in RatingsAdded(all, k)
    {
      var j :| k < j < |events| && events[j].eventType.QualificationAdded? && x == Held(events[j].payload.qualification);
      assert all[j] == events[j];
    }
  }

  lemma CreationGoesOn(events: seq<CrewEvent>, s: CrewState, e: CrewEvent, k: nat)
    requires k < |events| && RecallsCreationAt(events, s, k) && !Raises(e) && !Creates(e)
    ensures RecallsCreationAt(events + [e], Advanced(s, e), k)
  {
    RatingsSnoc(events, e, k);
    assert (events + [e])[k] == events[k];
  }

  lemma CreationFollows(events: seq<CrewEvent>, s: CrewState, e: CrewEvent, t: CrewState)
    requires RecallsCreation(events, s) && Follows(s, e, t)
    ensures RecallsCreation(events + [e], t)
  {
    var all := events + [e];
    forall k: nat | LastAt(all, Creates, k)
      ensures RecallsCreationAt(all, t, k)
    {
      LastSnoc(events, e, Creates, k);
      if Creates(e) {
        assert RatingsAdded(all, k) == {};
      } else {
        CreationGoesOn(events, s, e, k);
      }
    }
  }

  // ----- one more event: the active assignments -----

  lemma NotRemovedSnoc(events: seq<CrewEvent>, e: CrewEvent, f: Option<string>, i: nat)
    requires i < |events|
    ensures NotRemoved(events + [e], f, i, |events| + 1) <==> NotRemoved(events, f, i, |events|) && !Removes(e, f)
    ensures forall j :: j <= |events| ==> (NotRemoved(events + [e], f, i, j) <==> NotRemoved(events, f, i, j))
  {
    var all := events + [e];
    assert all[|events|] == e;
    assert forall k :: 0 <= k < |events| ==> all[k] == events[k];
  }

  /** A flight assigned and not removed since has been active since some time. */
  lemma {:induction false} AssignedIsActive(events: seq<CrewEvent>, f: Option<string>, i: nat)
    requires i < |events| && Assigns(events[i], f) && NotRemoved(events, f, i, |events|)
    ensures IsActive(events, f)
    decreases i
  {
    if ActiveSince(events, f, i) {
    } else {
      var j :| 0 <= j < i && Assigns(events[j], f) && NotRemoved(events, f, j, i);
      forall k | j < k < |events|
        ensures !Removes(events[k], f)
      {
      }
      AssignedIsActive(events, f, j);
    }
  }

  lemma ActiveSnoc(events: seq<CrewEvent>, e: CrewEvent, f: Option<string>, k: nat)
    ensures ActiveSince(events + [e], f, k) <==>
      if k < |events| then ActiveSince(events, f, k) && !Removes(e, f)
      else k == |events| && Assigns(e, f) && !IsActive(events, f)
  {
    var all := events + [e];
    assert all[|events|] == e;
    assert forall i :: 0 <= i < |events| ==> all[i] == events[i];
    forall i: nat | i < |events|
      ensures NotRemoved(all, f, i, |all|) <==> NotRemoved(events, f, i, |events|) && !Removes(e, f)
      ensures forall j :: j <= |events| ==> (NotRemoved(all, f, i, j) <==> NotRemoved(events, f, i, j))
    {
      NotRemovedSnoc(events, e, f, i);
    }
    if k == |events| {
      NewlyActive(events, e, f);
    }
  }

  lemma NewlyActive(events: seq<CrewEvent>, e: CrewEvent, f: Option<string>)
    ensures ActiveSince(events + [e], f, |events|) <==> Assigns(e, f) && !IsActive(events, f)
  {
    var all := events + [e];
    assert all[|events|] == e && NotRemoved(all, f, |events|, |all|);
    forall i: nat | i < |events|
      ensures NotRemoved(all, f, i, |events|) <==> NotRemoved(events, f, i, |events|)
    {
      NotRemovedSnoc(events, e, f, i);
    }
    if IsActive(events, f) {
      var k: nat :| ActiveSince(events, f, k);
      assert Assigns(all[k], f) && NotRemoved(all, f, k, |events|);
    } else {
      forall i: nat | i < |events| && Assigns(all[i], f)
        ensures !NotRemoved(all, f, i, |events|)
      {
        if NotRemoved(events, f, i, |events|) {
          AssignedIsActive(events, f, i);
        }
      }
    }
  }

  lemma IsActiveSnoc(events: seq<CrewEvent>, e: CrewEvent, f: Option<string>)
    ensures IsActive(events + [e], f) <==> (IsActive(events, f) && !Removes(e, f)) || Assigns(e, f)
  {
    forall k: nat
      ensures ActiveSince(events + [e], f, k) <==>
        if k < |events| then ActiveSince(events, f, k) && !Removes(e, f)
        else k == |events| && Assigns(e, f) && !IsActive(events, f)
    {
      ActiveSnoc(events, e, f, k);
    }
    if IsActive(events, f) && !Removes(e, f) {
      var k: nat :| ActiveSince(events, f, k);
      assert ActiveSince(events + [e], f, k);
    }
    if Assigns(e, f) && !IsActive(events, f) {
      assert ActiveSince(events + [e], f, |events|);
    }
  }

  /** In both lists what became active earlier comes earlier. */
  lemma OrderFollows(events: seq<CrewEvent>, e: CrewEvent, was: seq<Option<string>>, i: nat, j: nat, k: nat, m: nat,
                     now: seq<Option<string>>)
    requires ListsActive(events, was) && i < j < |now|
    requires ActiveSince(events + [e], now[i], k) && ActiveSince(events + [e], now[j], m)
    requires InOrderOf(was, now, i, j) || (|now| == |was| + 1 && now == was + [now[|was|]] && j == |was| && Assigns(e, now[j]) && now[j] !in was)
    ensures k < m
  {
    ActiveSnoc(events, e, now[i], k);
    ActiveSnoc(events, e, now[j], m);
    if InOrderOf(was, now, i, j) {
      var a, b :| 0 <= a < b < |was| && was[a] == now[i] && was[b] == now[j];
      assert now[i] in was && now[j] in was;
    } else {
      assert now[i] == was[i] && now[i] in was;
    }
  }

  ghost predicate InOrderOf(was: seq<Option<string>>, now: seq<Option<string>>, i: int, j: int) {
    0 <= i < j < |now| && exists a, b :: 0 <= a < b < |was| && was[a] == now[i] && was[b] == now[j]
  }

  lemma {:induction false} WithoutFirstKeepsOrder(xs: seq<Option<string>>, x: Option<string>, i: nat, j: nat)
    requires i < j < |WithoutFirst(xs, x)|
    ensures InOrderOf(xs, WithoutFirst(xs, x), i, j)
  {
    var rest := WithoutFirst(xs, x);
    if xs[0] == x {
      assert xs[i + 1] == rest[i] && xs[j + 1] == rest[j];
    } else if i == 0 {
      WithoutFirstMembers(xs[1..], x, rest[j]);
      assert rest[j] == WithoutFirst(xs[1..], x)[j - 1];
      var b :| 0 <= b < |xs[1..]| && xs[1..][b] == rest[j];
      assert xs[0] == rest[i] && xs[b + 1] == rest[j];
    } else {
      WithoutFirstKeepsOrder(xs[1..], x, i - 1, j - 1);
      var a, b :| 0 <= a < b < |xs[1..]| && xs[1..][a] == WithoutFirst(xs[1..], x)[i - 1]
        && xs[1..][b] == WithoutFirst(xs[1..], x)[j - 1];
      assert xs[a + 1] == rest[i] && xs[b + 1] == rest[j];
    }
  }

  lemma {:induction false} WithoutFirstMembers(xs: seq<Option<string>>, x: Option<string>, y: Option<string>)
    ensures y in WithoutFirst(xs, x) ==> y in xs
    ensures y in xs && y != x ==> y in WithoutFirst(xs, x)
    ensures Distinct(xs) ==> x !in WithoutFirst(xs, x)
  {
    if xs != [] && xs[0] != x {
      WithoutFirstMembers(xs[1..], x, y);
    }
  }

  lemma ActiveIsDistinct(events: seq<CrewEvent>, flights: seq<Option<string>>)
    requires ListsActive(events, flights)
    ensures Distinct(flights)
  {
    forall i, j | 0 <= i < j < |flights|
      ensures flights[i] != flights[j]
    {
      assert flights[i] in flights;
      var k: nat :| ActiveSince(events, flights[i], k);
    }
  }

  /** What the event does to the list of active flights. */
  ghost function ListAfter(e: CrewEvent, was: seq<Option<string>>): seq<Option<string>> {
    if Creates(e) then []
    else if e.eventType.FlightAssigned? then
      if Held(e.payload.flightId) in was then was else was + [Held(e.payload.flightId)]
    else if e.eventType.ScheduleRejected? then WithoutFirst(was, Held(e.payload.flightId))
    else was
  }

  lemma ListMembers(e: CrewEvent, was: seq<Option<string>>, f: Option<string>)
    requires Distinct(was)
    ensures f in ListAfter(e, was) <==> (f in was && !Removes(e, f)) || Assigns(e, f)
  {
    if e.eventType.ScheduleRejected? {
      WithoutFirstMembers(was, Held(e.payload.flightId), f);
    }
  }

  lemma ListOrder(e: CrewEvent, was: seq<Option<string>>, i: nat, j: nat)
    requires i < j < |ListAfter(e, was)|
    ensures
      var now := ListAfter(e, was);
      InOrderOf(was, now, i, j) || (|now| == |was| + 1 && now == was + [now[|was|]] && j == |was| && Assigns(e, now[j]) && now[j] !in was)
  {
    var now := ListAfter(e, was);
    if e.eventType.ScheduleRejected? {
      WithoutFirstKeepsOrder(was, Held(e.payload.flightId), i, j);
    } else if j < |was| {
      assert was[i] == now[i] && was[j] == now[j];
    }
  }

  lemma ListFollows(events: seq<CrewEvent>, e: CrewEvent, was: seq<Option<string>>)
    requires ListsActive(events, was)
    ensures ListsActive(events + [e], ListAfter(e, was))
  {
    var now := ListAfter(e, was);
    ActiveIsDistinct(events, was);
    forall f
      ensures f in now <==> IsActive(events + [e], f)
    {
      ListMembers(e, was, f);
      IsActiveSnoc(events, e, f);
    }
    forall i: nat, j: nat, k: nat, m: nat | i < j < |now| && ActiveSince(events + [e], now[i], k) && ActiveSince(events + [e], now[j], m)
      ensures k < m
    {
      ListOrder(e, was, i, j);
      OrderFollows(events, e, was, i, j, k, m, now);
    }
  }

  lemma AssignmentsFollow(s: CrewState, e: CrewEvent, t: CrewState)
    requires Follows(s, e, t)
    ensures t.activeAssignments == ListAfter(e, s.activeAssignments)
  {
  }

  lemma RecallsParts(events: seq<CrewEvent>, s: CrewState)
    ensures Recalls(events, s) <==>
      RecallsCreation(events, s) && RecallsTimes(events, s) && RecallsPlaces(events, s) && ListsActive(events, s.activeAssignments)
  {
  }

  lemma StepRecalls(events: seq<CrewEvent>, s: CrewState, e: CrewEvent, t: CrewState)
    requires Recalls(events, s) && Follows(s, e, t)
    ensures Recalls(events + [e], t)
  {
    RecallsParts(events, s);
    TimesFollow(events, s, e, t);
    PlacesFollow(events, s, e, t);
    CreationFollows(events, s, e, t);
    ListFollows(events, e, s.activeAssignments);
    AssignmentsFollow(s, e, t);
    RecallsParts(events + [e], t);
  }

  // ----- a creation needs no history -----

  lemma CreationForgets(events: seq<CrewEvent>, e: CrewEvent)
    requires Creates(e) && !Raises(e)
    ensures Recalls(events + [e], Created(e))
  {
    var all, t := events + [e], Created(e);
    forall kind: CrewEvent -> bool, k: nat | kind(e)
      ensures LastAt(all, kind, k) <==> k == |events|
    {
      LastSnoc(events, e, kind, k);
    }
    assert RatingsAdded(all, |events|) == {};
    assert RecallsCreation(all, t) && RecallsTimes(all, t) && RecallsPlaces(all, t);
    forall f
      ensures !IsActive(all, f)
    {
      IsActiveSnoc(events, e, f);
    }
    RecallsParts(all, t);
  }

  // ----- what stops a replay -----

  /** The payload lacks what the event's effect reads: a flight, a time, a rating, a partition, or a list of ratings. */
  ghost predicate CannotBeRead(e: CrewEvent) {
    || (e.eventType in {FlightAssigned, ScheduleRejected} && e.payload.flightId == Missing)
    || (e.eventType in {DutyStart, RestPeriodStart} && e.payload.startTime in {Missing, Null})
    || (e.eventType == QualificationAdded && e.payload.qualification == Missing)
    || (e.eventType == LegalMoveCompleted && e.payload.toPartition == Missing)
    || (e.eventType == CrewMemberCreated && e.payload.qualifications == Null)
  }

  lemma RaisesIff(e: CrewEvent)
    ensures Raises(e) <==> CannotBeRead(e)
  {
  }

  ghost predicate WasCreated(events: seq<CrewEvent>, k: int) {
    exists j :: 0 <= j < k && j < |events| && Creates(events[j])
  }

  /** The event creates the crew member or finds it created, and cannot be read. */
  ghost predicate StopsAt(events: seq<CrewEvent>, k: int) {
    0 <= k < |events| && CannotBeRead(events[k]) && (Creates(events[k]) || WasCreated(events, k))
  }

  ghost predicate Stops(events: seq<CrewEvent>) { exists k :: StopsAt(events, k) }

  lemma CreatedSnoc(events: seq<CrewEvent>, e: CrewEvent)
    ensures WasCreated(events + [e], |events| + 1) <==> WasCreated(events, |events|) || Creates(e)
  {
    var all := events + [e];
    assert all[|events|] == e;
    if WasCreated(events, |events|) {
      var j :| 0 <= j < |events| && Creates(events[j]);
      assert Creates(all[j]);
    }
  }

  lemma StopsSnoc(events: seq<CrewEvent>, e: CrewEvent)
    ensures Stops(events + [e]) <==>
      Stops(events) || (CannotBeRead(e) && (Creates(e) || WasCreated(events, |events|)))
  {
    var all := events + [e];
    assert all[|events|] == e;
    forall k | 0 <= k <= |events|
      ensures WasCreated(all, k) <==> WasCreated(events, k)
    {
      if WasCreated(events, k) {
        var j :| 0 <= j < k && j < |events| && Creates(events[j]);
        assert Creates(all[j]);
      }
    }
    forall k | 0 <= k < |events|
      ensures StopsAt(all, k) <==> StopsAt(events, k)
    {
    }
    if Stops(events) {
      var k :| StopsAt(events, k);
      assert StopsAt(all, k);
    }
    if CannotBeRead(e) && (Creates(e) || WasCreated(events, |events|)) {
      assert StopsAt(all, |events|);
    }
  }

  // ----- the theorem -----

  /** One crew member's events: the replay stops at the first that cannot be read, once the member exists; otherwise the
      member exists exactly if it was created, and its state recalls the history. */
  ghost predicate Told(events: seq<CrewEvent>) {
    && (SlotOf(events).None? <==> Stops(events))
    && (SlotOf(events).Some? ==> (SlotOf(events).value.Some? <==> WasCreated(events, |events|)))
    && (SlotOf(events).Some? && SlotOf(events).value.Some? ==> Recalls(events, SlotOf(events).value.value))
  }

  lemma ToldSnoc(events: seq<CrewEvent>, e: CrewEvent)
    requires Told(events)
    ensures Told(events + [e])
  {
    SlotSnoc(events, e);
    StopsSnoc(events, e);
    CreatedSnoc(events, e);
    RaisesIff(e);
    if SlotOf(events).Some? && !Raises(e) {
      if Creates(e) {
        CreationForgets(events, e);
      } else if SlotOf(events).value.Some? {
        StepRecalls(events, SlotOf(events).value.value, e, Advanced(SlotOf(events).value.value, e));
      }
    }
  }

  lemma {:induction false} HistoryIsTold(events: seq<CrewEvent>)
    ensures Told(events)
  {
    if events == [] {
    } else {
      var n := |events| - 1;
      HistoryIsTold(events[..n]);
      ToldSnoc(events[..n], events[n]);
      assert events[..n] + [events[n]] == events;
    }
  }

  /** The view after any events: a crew member is in it exactly if created, and its state recalls that member's events. */
  lemma ViewRecallsHistory(events: seq<CrewEvent>, crewId: string)
    ensures ViewOf(events).None? <==> exists c :: Stops(Filter(OfCrew(c), events))
    ensures ViewOf(events).Some? ==>
      var crews, own := ViewOf(events).value, Filter(OfCrew(crewId), events);
      && (crewId in crews <==> WasCreated(own, |own|))
      && (crewId in crews ==> Recalls(own, crews[crewId]))
  {
    CrewsAreSeparate(events);
    forall c
      ensures Told(Filter(OfCrew(c), events))
    {
      HistoryIsTold(Filter(OfCrew(c), events));
    }
    if ViewOf(events).Some? {
      forall c
        ensures !Stops(Filter(OfCrew(c), events))
      {
        assert SlotFits(events, ViewOf(events).value, c);
      }
      assert SlotFits(events, ViewOf(events).value, crewId);
    } else {
      var c :| SlotOf(Filter(OfCrew(c), events)).None?;
      assert Stops(Filter(OfCrew(c), events));
    }
  }

  // ----- appending -----

  /** An append in terms of the log: refused as a duplicate if the id was logged, as a conflict if the caller expects
      another number of events in the stream; otherwise logged as it is, with the next number of its stream. */
  lemma AppendMeans(t: Tables, e: CrewEvent, expected: Option<nat>)
    requires IndexesLog(t)
    ensures
      var inStream := |Filter(OfStream(e.partitionId, e.crewId), t.log)|;
      var after := AfterAppend(t, e, expected);
      && (AppendOutcome(t, e, expected).Duplicate? <==> Logged(t.log, e.eventId))
      && (AppendOutcome(t, e, expected).Conflict? <==>
            !Logged(t.log, e.eventId) && expected.Some? && expected.value != inStream)
      && (AppendOutcome(t, e, expected).Stored? ==>
            exists logged :: after.log == t.log + [logged] && IsStamped(e, logged, inStream + 1))
      && (!AppendOutcome(t, e, expected).Stored? ==> after == t)
  {
    assert StreamVersion(t, e.partitionId, e.crewId) == |Filter(OfStream(e.partitionId, e.crewId), t.log)|;
    assert e.eventId in t.ids <==> Logged(t.log, e.eventId);
    if AppendOutcome(t, e, expected).Stored? {
      var logged := Stamped(t, e);
      assert AfterAppend(t, e, expected).log == t.log + [logged] && IsStamped(e, logged, StreamVersion(t, e.partitionId, e.crewId) + 1);
    }
  }

  /** The same event with its number; one without a correlation id starts its own. */
  ghost predicate IsStamped(e: CrewEvent, logged: CrewEvent, number: nat) {
    && logged.sequence == number
    && (e.correlationId != "" ==> logged.correlationId == e.correlationId)
    && (e.correlationId == "" ==> logged.correlationId == e.eventId)
    && logged == e.(sequence := logged.sequence, correlationId := logged.correlationId)
  }

  /** A partition is replayed by sequence, then by time, then by id. */
  lemma ReplayOrder(t: Tables, partitionId: string, i: nat, j: nat)
    requires i < j < |PartitionStream(t, partitionId)|
    ensures
      var a, b := PartitionStream(t, partitionId)[i], PartitionStream(t, partitionId)[j];
      && a.sequence <= b.sequence
      && (a.sequence == b.sequence ==> a.timestamp <= b.timestamp)
      && (a.sequence == b.sequence && a.timestamp == b.timestamp ==> StrLe(a.eventId, b.eventId))
  {
    ReplayOrderIsPreorder();
    SortedIsOrdered(ReplaysNoLater, PartitionList(t, partitionId));
  }
}
