/** The fast heuristic (solvers/tier1.py): greedy insertion, then a local search that sorts legs. */
module Tier1 {
  import opened Sequences
  import opened RulesEngine
  import opened LegalityProperties
  import opened DutyLaw
  import opened ColumnGeneration
  import opened Schedules

  function DutyTime(a: Assignment): int { a.dutyEnd - a.dutyStart }

  /** Duty time plus half the deadhead time, in half microseconds. */
  function AssignmentCost(a: Assignment): int { 2 * DutyTime(a) + Total(DeadheadTime, a.legs) }

  function ScheduleCost(assignments: seq<Assignment>): int { Total(AssignmentCost, assignments) }

  function WithLeg(a: Assignment, leg: FlightLeg): Assignment {
    Assignment(a.crewId, a.legs + [leg],
               if leg.dep < a.dutyStart then leg.dep else a.dutyStart,
               if leg.arr > a.dutyEnd then leg.arr else a.dutyEnd)
  }

  function NewAssignment(crew: CrewMember, leg: FlightLeg): Assignment {
    Assignment(crew.crewId, [leg], leg.dep, leg.arr)
  }

  /** The pool by crew id; a later entry wins. */
  function CrewIndex(crewPool: seq<CrewMember>): map<string, CrewMember> {
    if crewPool == [] then map[]
    else
      var n := |crewPool| - 1;
      CrewIndex(crewPool[..n])[crewPool[n].crewId := crewPool[n]]
  }

  /** The index finds exactly the crew members of the pool, by their id. */
  ghost predicate Indexes(index: map<string, CrewMember>, crewPool: seq<CrewMember>) {
    && (forall crew :: crew in crewPool ==> crew.crewId in index && index[crew.crewId] == crew)
    && (forall id :: id in index ==> index[id] in crewPool && index[id].crewId == id)
  }

  lemma {:induction false} IndexFindsCrew(crewPool: seq<CrewMember>)
    requires UniqueCrews(crewPool)
    ensures Indexes(CrewIndex(crewPool), crewPool)
  {
    if crewPool != [] {
      var n := |crewPool| - 1;
      IndexFindsCrew(crewPool[..n]);
      assert crewPool == crewPool[..n] + [crewPool[n]];
    }
  }

  lemma WithLegIsTight(crewId: string, legs: seq<FlightLeg>, leg: FlightLeg)
    requires legs != []
    ensures WithLeg(TightDuty(crewId, legs), leg) == TightDuty(crewId, legs + [leg])
  {
    var longer := legs + [leg];
    assert longer[..|longer| - 1] == legs;
  }

  // ----- greedy construction -----

  /** A duty under construction: legal for its crew, tight, in departure order, over flights already looked at. */
  ghost predicate Building(index: map<string, CrewMember>, done: seq<FlightLeg>, a: Assignment, location: string) {
    && a.crewId in index
    && a.legs != []
    && a == TightDuty(a.crewId, a.legs)
    && Legal(index[a.crewId], a)
    && Ordered(DepartsNoLater, a.legs)
    && (forall leg :: leg in a.legs ==> leg in done)
    && DistinctIds(a.legs)
    && location == a.legs[|a.legs| - 1].destination
  }

  ghost predicate Progress(index: map<string, CrewMember>, done: seq<FlightLeg>, assignments: seq<Assignment>,
                           location: seq<string>, used: set<string>)
  {
    && AllBuilding(index, done, assignments, location)
    && (forall i, j :: 0 <= i < j < |assignments| ==> assignments[i].crewId != assignments[j].crewId)
    && used == (set a | a in assignments :: a.crewId)
  }

  predicate CanExtend(index: map<string, CrewMember>, assignments: seq<Assignment>, location: seq<string>, i: int,
                      leg: FlightLeg)
  {
    && 0 <= i < |assignments| && i < |location|
    && location[i] == leg.origin
    && assignments[i].crewId in index
    && Legal(index[assignments[i].crewId], WithLeg(assignments[i], leg))
  }

  /** How far the leg sticks out of the duty's window, at either end. */
  ghost function SticksOut(a: Assignment, leg: FlightLeg): int {
    (if leg.dep < a.dutyStart then a.dutyStart - leg.dep else 0) + (if a.dutyEnd < leg.arr then leg.arr - a.dutyEnd else 0)
  }

  lemma ExtraTimeMeans(a: Assignment, leg: FlightLeg)
    ensures ExtraTime(a, leg) == SticksOut(a, leg)
  {
  }

  function ExtraTime(a: Assignment, leg: FlightLeg): int { DutyTime(WithLeg(a, leg)) - DutyTime(a) }

  ghost function Extensible(index: map<string, CrewMember>, assignments: seq<Assignment>, location: seq<string>,
                            leg: FlightLeg): seq<bool> {
    seq(|assignments|, i requires 0 <= i < |assignments| => CanExtend(index, assignments, location, i, leg))
  }

  ghost function ExtraTimes(assignments: seq<Assignment>, leg: FlightLeg): seq<int> {
    seq(|assignments|, i requires 0 <= i < |assignments| => ExtraTime(assignments[i], leg))
  }

  /** `best` is the first of the duties that can legally take the leg with the least added duty time. */
  ghost predicate IsBestExtension(index: map<string, CrewMember>, assignments: seq<Assignment>, location: seq<string>,
                                  leg: FlightLeg, best: Option<nat>) {
    FirstLeast(Extensible(index, assignments, location, leg), ExtraTimes(assignments, leg), best, |assignments|)
  }

  method BestExtension(index: map<string, CrewMember>, assignments: seq<Assignment>, location: seq<string>, leg: FlightLeg)
    returns (best: Option<nat>)
    requires |location| == |assignments| && forall a :: a in assignments ==> a.crewId in index
    ensures IsBestExtension(index, assignments, location, leg, best)
    ensures best.Some? ==> CanExtend(index, assignments, location, best.value, leg)
    ensures best.Some? ==> forall i :: 0 <= i < |assignments| && CanExtend(index, assignments, location, i, leg) ==>
      SticksOut(assignments[best.value], leg) <= SticksOut(assignments[i], leg)
      && (i < best.value ==> SticksOut(assignments[best.value], leg) < SticksOut(assignments[i], leg))
  {
    ghost var ok, extra := Extensible(index, assignments, location, leg), ExtraTimes(assignments, leg);
    best := None;
    for i := 0 to |assignments|
      invariant FirstLeast(ok, extra, best, i)
    {
      var a := assignments[i];
      FirstLeastStep(ok, extra, best, i);
      if location[i] != leg.origin {
        continue;
      }
      if Validate(index[a.crewId], WithLeg(a, leg)) != [] {
        continue;
      }
      if best.None? || ExtraTime(a, leg) < ExtraTime(assignments[best.value], leg) {
        best := Some(i);
      }
    }
    LeastSticksOut(index, assignments, location, leg, best);
  }

  lemma LeastSticksOut(index: map<string, CrewMember>, assignments: seq<Assignment>, location: seq<string>, leg: FlightLeg,
                       best: Option<nat>)
    requires IsBestExtension(index, assignments, location, leg, best)
    ensures best.Some? ==> best.value < |assignments| && forall i :: 0 <= i < |assignments| && CanExtend(index, assignments, location, i, leg) ==>
      SticksOut(assignments[best.value], leg) <= SticksOut(assignments[i], leg)
      && (i < best.value ==> SticksOut(assignments[best.value], leg) < SticksOut(assignments[i], leg))
  {
    var ok, extra := Extensible(index, assignments, location, leg), ExtraTimes(assignments, leg);
    if best.Some? {
      forall i | 0 <= i < |assignments| && CanExtend(index, assignments, location, i, leg)
        ensures SticksOut(assignments[best.value], leg) <= SticksOut(assignments[i], leg)
        ensures i < best.value ==> SticksOut(assignments[best.value], leg) < SticksOut(assignments[i], leg)
      {
        assert ok[i] && extra[i] == ExtraTime(assignments[i], leg);
        ExtraTimeMeans(assignments[i], leg);
        ExtraTimeMeans(assignments[best.value], leg);
      }
    }
  }

  predicate CanOpen(crew: CrewMember, leg: FlightLeg) {
    (crew.currentLocation == "" || crew.currentLocation == leg.origin) && Legal(crew, NewAssignment(crew, leg))
  }

  /** A crew member can open with a leg exactly if the rules allow that duty: they too look where the crew member is. */
  lemma OpenIffLegal(crew: CrewMember, leg: FlightLeg)
    ensures CanOpen(crew, leg) <==> Legal(crew, ChainDuty(crew.crewId, [leg]))
  {
    LegalIff(crew, NewAssignment(crew, leg));
    SortedFixesOrdered(DepartsNoLater, [leg]);
    assert NewAssignment(crew, leg) == ChainDuty(crew.crewId, [leg]);
  }

  /** The k-th crew member of the pool is the first idle one who may open a duty with the leg. */
  ghost predicate FirstFit(crewPool: seq<CrewMember>, used: set<string>, leg: FlightLeg, k: nat) {
    && k < |crewPool| && crewPool[k].crewId !in used && CanOpen(crewPool[k], leg)
    && (forall i :: 0 <= i < k ==> crewPool[i].crewId in used || !CanOpen(crewPool[i], leg))
  }

  /** The first idle crew member of the pool who may legally open a duty with the leg. */
  method FirstIdleCrew(crewPool: seq<CrewMember>, used: set<string>, leg: FlightLeg) returns (found: Option<CrewMember>)
    ensures found.None? ==> NoCrewOpens(crewPool, used, leg)
    ensures found.Some? ==> found.value.crewId !in used && CanOpen(found.value, leg)
    ensures found.Some? ==> exists k: nat :: FirstFit(crewPool, used, leg, k) && crewPool[k] == found.value
  {
    for i := 0 to |crewPool|
      invariant forall k :: 0 <= k < i ==> crewPool[k].crewId in used || !CanOpen(crewPool[k], leg)
    {
      var crew := crewPool[i];
      if crew.crewId in used {
        continue;
      }
      if crew.currentLocation != "" && crew.currentLocation != leg.origin {
        continue;
      }
      if Validate(crew, NewAssignment(crew, leg)) == [] {
        assert FirstFit(crewPool, used, leg, i);
        return Some(crew);
      }
    }
    return None;
  }

  ghost predicate ComesNext(done: seq<FlightLeg>, leg: FlightLeg) {
    forall other :: other in done ==> other.dep <= leg.dep && other.flightId != leg.flightId
  }

  lemma StillBuilding(index: map<string, CrewMember>, done: seq<FlightLeg>, assignments: seq<Assignment>,
                      location: seq<string>, used: set<string>, leg: FlightLeg)
    requires Progress(index, done, assignments, location, used)
    ensures Progress(index, done + [leg], assignments, location, used)
  {
    forall i | 0 <= i < |assignments|
      ensures Building(index, done + [leg], assignments[i], location[i])
    {
      assert Building(index, done, assignments[i], location[i]);
    }
  }

  lemma ExtensionBuilds(index: map<string, CrewMember>, done: seq<FlightLeg>, a: Assignment, location: string, leg: FlightLeg)
    requires Building(index, done, a, location) && ComesNext(done, leg)
    requires Legal(index[a.crewId], WithLeg(a, leg))
    ensures Building(index, done + [leg], WithLeg(a, leg), leg.destination)
  {
    WithLegIsTight(a.crewId, a.legs, leg);
    var longer := WithLeg(a, leg).legs;
    forall i, j | 0 <= i < j < |longer|
      ensures DepartsNoLater(longer[i], longer[j]) && longer[i].flightId != longer[j].flightId
    {
      assert longer[i] in a.legs;
    }
  }

  lemma OpeningBuilds(index: map<string, CrewMember>, done: seq<FlightLeg>, crew: CrewMember, leg: FlightLeg)
    requires crew.crewId in index && index[crew.crewId] == crew && CanOpen(crew, leg)
    ensures Building(index, done + [leg], NewAssignment(crew, leg), leg.destination)
  {
  }

  /** A duty that can legally take the leg ends where the leg begins. */
  lemma LegalExtensionConnects(index: map<string, CrewMember>, done: seq<FlightLeg>, a: Assignment, location: string, leg: FlightLeg)
    requires Building(index, done, a, location) && ComesNext(done, leg)
    ensures Legal(index[a.crewId], WithLeg(a, leg)) ==> location == leg.origin
  {
    var crew, longer := index[a.crewId], WithLeg(a, leg);
    if Legal(crew, longer) {
      ExtensionBuilds(index, done, a, location, leg);
      LegalIff(crew, longer);
      SortedFixesOrdered(DepartsNoLater, longer.legs);
      var n := |a.legs|;
      assert Connects(longer.legs[n - 1], longer.legs[n]);
    }
  }

  /** No duty under construction can legally take the leg. */
  ghost predicate NoDutyTakes(index: map<string, CrewMember>, assignments: seq<Assignment>, leg: FlightLeg) {
    forall a :: a in assignments ==> a.crewId in index && !Legal(index[a.crewId], WithLeg(a, leg))
  }

  lemma NothingExtends(index: map<string, CrewMember>, done: seq<FlightLeg>, assignments: seq<Assignment>,
                       location: seq<string>, used: set<string>, leg: FlightLeg)
    requires Progress(index, done, assignments, location, used) && ComesNext(done, leg)
    requires forall i :: 0 <= i < |assignments| ==> !CanExtend(index, assignments, location, i, leg)
    ensures NoDutyTakes(index, assignments, leg)
  {
    forall a | a in assignments
      ensures a.crewId in index && !Legal(index[a.crewId], WithLeg(a, leg))
    {
      var i :| 0 <= i < |assignments| && assignments[i] == a;
      assert Building(index, done, assignments[i], location[i]);
      LegalExtensionConnects(index, done, a, location[i], leg);
      assert !CanExtend(index, assignments, location, i, leg);
    }
  }

  lemma ReplacedLegs(assignments: seq<Assignment>, i: nat, leg: FlightLeg)
    requires i < |assignments|
    ensures multiset(AllLegs(assignments[i := WithLeg(assignments[i], leg)])) == multiset(AllLegs(assignments)) + multiset{leg}
  {
    var before, after, longer := assignments[..i], assignments[i + 1..], WithLeg(assignments[i], leg);
    assert assignments == before + [assignments[i]] + after;
    assert assignments[i := longer] == before + [longer] + after;
    FlatMapConcat(LegsOf, before + [assignments[i]], after);
    FlatMapConcat(LegsOf, before, [assignments[i]]);
    FlatMapConcat(LegsOf, before + [longer], after);
    FlatMapConcat(LegsOf, before, [longer]);
    assert FlatMap(LegsOf, [longer]) == FlatMap(LegsOf, [assignments[i]]) + [leg];
  }

  lemma ProgressByExtension(index: map<string, CrewMember>, done: seq<FlightLeg>, assignments: seq<Assignment>,
                            location: seq<string>, used: set<string>, i: nat, leg: FlightLeg)
    requires Progress(index, done, assignments, location, used) && ComesNext(done, leg)
    requires CanExtend(index, assignments, location, i, leg)
    ensures Progress(index, done + [leg], assignments[i := WithLeg(assignments[i], leg)],
                     location[i := leg.destination], used)
  {
    StillBuilding(index, done, assignments, location, used, leg);
    ExtensionBuilds(index, done, assignments[i], location[i], leg);
    SameCrewIds(assignments, assignments[i := WithLeg(assignments[i], leg)]);
  }

  lemma ProgressByOpening(index: map<string, CrewMember>, done: seq<FlightLeg>, assignments: seq<Assignment>,
                          location: seq<string>, used: set<string>, crew: CrewMember, leg: FlightLeg)
    requires Progress(index, done, assignments, location, used) && crew.crewId !in used
    requires crew.crewId in index && index[crew.crewId] == crew && CanOpen(crew, leg)
    ensures Progress(index, done + [leg], assignments + [NewAssignment(crew, leg)],
                     location + [leg.destination], used + {crew.crewId})
  {
    StillBuilding(index, done, assignments, location, used, leg);
    OpeningBuilds(index, done, crew, leg);
    OneMoreBuilding(index, done + [leg], assignments, location, NewAssignment(crew, leg), leg.destination);
    OpeningUsesCrew(assignments, NewAssignment(crew, leg), used);
  }

  ghost predicate AllBuilding(index: map<string, CrewMember>, done: seq<FlightLeg>, assignments: seq<Assignment>,
                              location: seq<string>)
  {
    |location| == |assignments| && forall i :: 0 <= i < |assignments| ==> Building(index, done, assignments[i], location[i])
  }

  lemma OneMoreBuilding(index: map<string, CrewMember>, done: seq<FlightLeg>, assignments: seq<Assignment>,
                        location: seq<string>, a: Assignment, at: string)
    requires AllBuilding(index, done, assignments, location) && Building(index, done, a, at)
    ensures AllBuilding(index, done, assignments + [a], location + [at])
  {
    forall i | 0 <= i < |assignments| + 1
      ensures Building(index, done, (assignments + [a])[i], (location + [at])[i])
    {
      assert i < |assignments| ==> Building(index, done, assignments[i], location[i]);
    }
  }

  lemma OpeningUsesCrew(assignments: seq<Assignment>, a: Assignment, used: set<string>)
    requires used == (set b | b in assignments :: b.crewId) && a.crewId !in used
    ensures used + {a.crewId} == (set b | b in assignments + [a] :: b.crewId)
    ensures forall i :: 0 <= i < |assignments| ==> assignments[i].crewId != a.crewId
  {
    forall i | 0 <= i < |assignments|
      ensures assignments[i].crewId != a.crewId
    {
      assert assignments[i] in assignments;
    }
    assert forall b :: b in assignments + [a] <==> b in assignments || b == a;
  }

  lemma OpenedLegs(assignments: seq<Assignment>, crew: CrewMember, leg: FlightLeg)
    ensures multiset(AllLegs(assignments + [NewAssignment(crew, leg)])) == multiset(AllLegs(assignments)) + multiset{leg}
  {
    FlatMapConcat(LegsOf, assignments, [NewAssignment(crew, leg)]);
    assert FlatMap(LegsOf, [NewAssignment(crew, leg)]) == [leg];
  }

  lemma ProgressInIndex(index: map<string, CrewMember>, done: seq<FlightLeg>, assignments: seq<Assignment>,
                        location: seq<string>, used: set<string>)
    requires Progress(index, done, assignments, location, used)
    ensures forall a :: a in assignments ==> a.crewId in index
  {
    forall a | a in assignments
      ensures a.crewId in index
    {
      var i :| 0 <= i < |assignments| && assignments[i] == a;
      assert Building(index, done, assignments[i], location[i]);
    }
  }

  /** The duties under construction and the crews they use. */
  datatype Draft = Draft(assignments: seq<Assignment>, location: seq<string>, used: set<string>)

  ghost predicate Underway(index: map<string, CrewMember>, done: seq<FlightLeg>, r: Draft) {
    Progress(index, done, r.assignments, r.location, r.used)
  }

  function Extended(r: Draft, i: nat, leg: FlightLeg): Draft
    requires i < |r.assignments| && i < |r.location|
  {
    Draft(r.assignments[i := WithLeg(r.assignments[i], leg)], r.location[i := leg.destination], r.used)
  }

  function Opened(r: Draft, crew: CrewMember, leg: FlightLeg): Draft {
    Draft(r.assignments + [NewAssignment(crew, leg)], r.location + [leg.destination], r.used + {crew.crewId})
  }

  /** A best extension is taken if any duty can take the leg; only otherwise does the first idle crew member that can
      open with it get it; only if nobody can is it given up. */
  ghost predicate FirstChoice(crewPool: seq<CrewMember>, index: map<string, CrewMember>, r: Draft, leg: FlightLeg,
                              best: Option<nat>, r': Draft)
  {
    && |r.location| == |r.assignments|
    && IsBestExtension(index, r.assignments, r.location, leg, best)
    && if best.Some? then r' == Extended(r, best.value, leg)
       else (NoCrewOpens(crewPool, r.used, leg) && r' == r) || OpensFirst(crewPool, r, leg, r')
  }

  ghost predicate OpensFirst(crewPool: seq<CrewMember>, r: Draft, leg: FlightLeg, r': Draft) {
    exists k: nat :: FirstFit(crewPool, r.used, leg, k) && r' == Opened(r, crewPool[k], leg)
  }

  /** Extend the best duty, or open one, or give up on the leg. */
  method PlaceLeg(crewPool: seq<CrewMember>, index: map<string, CrewMember>, ghost done: seq<FlightLeg>,
                  r: Draft, leg: FlightLeg)
    returns (r': Draft, placed: bool)
    requires Indexes(index, crewPool) && Underway(index, done, r) && ComesNext(done, leg)
    ensures exists best :: FirstChoice(crewPool, index, r, leg, best, r')
    ensures Underway(index, done + [leg], r') && r.used <= r'.used
    ensures placed ==> multiset(AllLegs(r'.assignments)) == multiset(AllLegs(r.assignments)) + multiset{leg}
    ensures !placed ==> r' == r && NoDutyTakes(index, r.assignments, leg) && NoCrewOpens(crewPool, r.used, leg)
  {
    ProgressInIndex(index, done, r.assignments, r.location, r.used);
    var best := BestExtension(index, r.assignments, r.location, leg);
    if best.Some? {
      ProgressByExtension(index, done, r.assignments, r.location, r.used, best.value, leg);
      ReplacedLegs(r.assignments, best.value, leg);
      r', placed := Extended(r, best.value, leg), true;
      assert FirstChoice(crewPool, index, r, leg, best, r');
      return;
    }
    var found := FirstIdleCrew(crewPool, r.used, leg);
    if found.Some? {
      ProgressByOpening(index, done, r.assignments, r.location, r.used, found.value, leg);
      OpenedLegs(r.assignments, found.value, leg);
      r', placed := Opened(r, found.value, leg), true;
      assert FirstChoice(crewPool, index, r, leg, best, r');
      return;
    }
    assert forall i :: 0 <= i < |r.assignments| ==>
      Extensible(index, r.assignments, r.location, leg)[i] == CanExtend(index, r.assignments, r.location, i, leg);
    NothingExtends(index, done, r.assignments, r.location, r.used, leg);
    StillBuilding(index, done, r.assignments, r.location, r.used, leg);
    r', placed := r, false;
    assert FirstChoice(crewPool, index, r, leg, best, r');
  }

  ghost predicate NoCrewOpens(crewPool: seq<CrewMember>, used: set<string>, leg: FlightLeg) {
    forall crew :: crew in crewPool && crew.crewId !in used ==> !CanOpen(crew, leg)
  }

  lemma SameCrewIds(xs: seq<Assignment>, ys: seq<Assignment>)
    requires |xs| == |ys| && forall i :: 0 <= i < |xs| ==> xs[i].crewId == ys[i].crewId
    ensures (set a | a in xs :: a.crewId) == (set a | a in ys :: a.crewId)
  {
    var ofXs, ofYs := set a | a in xs :: a.crewId, set a | a in ys :: a.crewId;
    forall id | id in ofXs
      ensures id in ofYs
    {
      var i :| 0 <= i < |xs| && xs[i].crewId == id;
      assert ys[i] in ys;
    }
    forall id | id in ofYs
      ensures id in ofXs
    {
      var i :| 0 <= i < |ys| && ys[i].crewId == id;
      assert xs[i] in xs;
    }
  }

  ghost predicate InDepartureOrder(assignments: seq<Assignment>) {
    forall a :: a in assignments ==> Ordered(DepartsNoLater, a.legs)
  }

  /** No crew member left idle could legally have flown a flight left uncovered. */
  ghost predicate NoIdleCrewFits(crewPool: seq<CrewMember>, assignments: seq<Assignment>, uncovered: seq<FlightLeg>) {
    forall crew, leg :: crew in crewPool && leg in uncovered && (forall a :: a in assignments ==> a.crewId != crew.crewId)
      ==> !Legal(crew, ChainDuty(crew.crewId, [leg]))
  }

  lemma NextInOrder(flights: seq<FlightLeg>, ordered: seq<FlightLeg>, k: nat)
    requires DistinctIds(flights) && multiset(ordered) == multiset(flights) && Ordered(DepartsNoLater, ordered)
    requires k < |ordered|
    ensures ComesNext(ordered[..k], ordered[k])
  {
    DistinctIdsPermutation(flights, ordered);
  }

  lemma ProgressIsSchedule(crewPool: seq<CrewMember>, flights: seq<FlightLeg>, assignments: seq<Assignment>,
                           location: seq<string>, used: set<string>, done: seq<FlightLeg>)
    requires UniqueCrews(crewPool) && Progress(CrewIndex(crewPool), done, assignments, location, used)
    requires multiset(done) == multiset(flights)
    ensures LegalSchedule(crewPool, flights, assignments) && InDepartureOrder(assignments)
  {
    IndexFindsCrew(crewPool);
    PermutationMembers(done, flights);
    forall a | a in assignments
      ensures exists crew :: crew in crewPool && LegalAssignment(crew, flights, a)
      ensures Ordered(DepartsNoLater, a.legs)
    {
      var i :| 0 <= i < |assignments| && assignments[i] == a;
      assert Building(CrewIndex(crewPool), done, assignments[i], location[i]);
      assert LegalAssignment(CrewIndex(crewPool)[a.crewId], flights, a);
    }
  }

  ghost predicate Accounted(done: seq<FlightLeg>, r: Draft, uncovered: seq<FlightLeg>) {
    multiset(AllLegs(r.assignments)) + multiset(uncovered) == multiset(done)
  }

  lemma AccountForOne(done: seq<FlightLeg>, r: Draft, uncovered: seq<FlightLeg>, leg: FlightLeg, r': Draft)
    requires Accounted(done, r, uncovered)
    ensures Accounted(done + [leg], r, uncovered + [leg])
    ensures multiset(AllLegs(r'.assignments)) == multiset(AllLegs(r.assignments)) + multiset{leg} ==>
      Accounted(done + [leg], r', uncovered)
  {
  }

  lemma StillNoCrewOpens(crewPool: seq<CrewMember>, used: set<string>, used': set<string>, uncovered: seq<FlightLeg>)
    requires used <= used' && forall leg :: leg in uncovered ==> NoCrewOpens(crewPool, used, leg)
    ensures forall leg :: leg in uncovered ==> NoCrewOpens(crewPool, used', leg)
  {
    forall leg | leg in uncovered
      ensures NoCrewOpens(crewPool, used', leg)
    {
      assert NoCrewOpens(crewPool, used, leg);
    }
  }

  /** Every leg looked at so far is in a duty or given up; those given up fit no idle crew member, time permitting. */
  ghost predicate GreedyState(crewPool: seq<CrewMember>, index: map<string, CrewMember>, done: seq<FlightLeg>, r: Draft,
                              uncovered: seq<FlightLeg>, budgeted: bool)
  {
    && Underway(index, done, r)
    && Accounted(done, r, uncovered)
    && (!budgeted ==> forall leg :: leg in uncovered ==> NoCrewOpens(crewPool, r.used, leg))
  }

  method GreedyStep(crewPool: seq<CrewMember>, index: map<string, CrewMember>, ghost done: seq<FlightLeg>, r: Draft,
                    uncovered: seq<FlightLeg>, leg: FlightLeg, budgeted: bool)
    returns (r': Draft, uncovered': seq<FlightLeg>)
    requires Indexes(index, crewPool) && ComesNext(done, leg)
    requires GreedyState(crewPool, index, done, r, uncovered, budgeted)
    ensures GreedyState(crewPool, index, done + [leg], r', uncovered', budgeted)
  {
    var late := DeadlinePassed(budgeted);
    if late {
      StillBuilding(index, done, r.assignments, r.location, r.used, leg);
      AccountForOne(done, r, uncovered, leg, r);
      return r, uncovered + [leg];
    }
    var placed;
    r', placed := PlaceLeg(crewPool, index, done, r, leg);
    AccountForOne(done, r, uncovered, leg, r');
    if !budgeted {
      StillNoCrewOpens(crewPool, r.used, r'.used, uncovered);
    }
    uncovered' := if placed then uncovered else uncovered + [leg];
  }

  lemma GreedyOrder(flights: seq<FlightLeg>)
    requires DistinctIds(flights)
    ensures multiset(ByDeparture(flights)) == multiset(flights)
    ensures forall k :: 0 <= k < |ByDeparture(flights)| ==> ComesNext(ByDeparture(flights)[..k], ByDeparture(flights)[k])
  {
    var ordered := ByDeparture(flights);
    SortedIsPermutation(DepartsNoLater, flights);
    DepartureIsPreorder();
    SortedIsOrdered(DepartsNoLater, flights);
    forall k | 0 <= k < |ordered|
      ensures ComesNext(ordered[..k], ordered[k])
    {
      NextInOrder(flights, ordered, k);
    }
  }

  method PlaceInOrder(crewPool: seq<CrewMember>, index: map<string, CrewMember>, ordered: seq<FlightLeg>, budgeted: bool)
    returns (r: Draft, uncovered: seq<FlightLeg>)
    requires Indexes(index, crewPool)
    requires forall k :: 0 <= k < |ordered| ==> ComesNext(ordered[..k], ordered[k])
    ensures GreedyState(crewPool, index, ordered, r, uncovered, budgeted)
  {
    r, uncovered := Draft([], [], {}), [];
    for k := 0 to |ordered|
      invariant GreedyState(crewPool, index, ordered[..k], r, uncovered, budgeted)
    {
      assert ordered[..k + 1] == ordered[..k] + [ordered[k]];
      r, uncovered := GreedyStep(crewPool, index, ordered[..k], r, uncovered, ordered[k], budgeted);
    }
    assert ordered[..|ordered|] == ordered;
  }

  method GreedyConstruct(crewPool: seq<CrewMember>, flights: seq<FlightLeg>, budgeted: bool)
    returns (assignments: seq<Assignment>, uncovered: seq<FlightLeg>)
    requires UniqueCrews(crewPool) && DistinctIds(flights)
    ensures Schedule(crewPool, flights, assignments, uncovered) && InDepartureOrder(assignments)
    ensures !budgeted ==> NoIdleCrewFits(crewPool, assignments, uncovered)
  {
    var index := CrewIndex(crewPool);
    IndexFindsCrew(crewPool);
    var ordered := ByDeparture(flights);
    GreedyOrder(flights);
    var r;
    r, uncovered := PlaceInOrder(crewPool, index, ordered, budgeted);
    assignments := r.assignments;
    ProgressIsSchedule(crewPool, flights, assignments, r.location, r.used, ordered);
    if !budgeted {
      FinallyNoIdleCrewFits(crewPool, assignments, uncovered, r.used);
    }
  }

  lemma FinallyNoIdleCrewFits(crewPool: seq<CrewMember>, assignments: seq<Assignment>, uncovered: seq<FlightLeg>,
                              used: set<string>)
    requires used == (set a | a in assignments :: a.crewId)
    requires forall leg :: leg in uncovered ==> NoCrewOpens(crewPool, used, leg)
    ensures NoIdleCrewFits(crewPool, assignments, uncovered)
  {
    forall crew, leg | crew in crewPool && leg in uncovered && (forall a :: a in assignments ==> a.crewId != crew.crewId)
      ensures !Legal(crew, ChainDuty(crew.crewId, [leg]))
    {
      assert NoCrewOpens(crewPool, used, leg);
      assert crew.crewId !in used;
      OpenIffLegal(crew, leg);
    }
  }

  // ----- local search -----

  ghost predicate OutOfOrder(a: Assignment) { ByDeparture(a.legs) != a.legs }

  /** How many duties list their legs out of departure order. */
  ghost function Disorder(assignments: seq<Assignment>): nat {
    if assignments == [] then 0
    else Disorder(assignments[..|assignments| - 1]) + (if OutOfOrder(assignments[|assignments| - 1]) then 1 else 0)
  }

  lemma {:induction false} DisorderDrops(assignments: seq<Assignment>, i: nat, a: Assignment)
    requires i < |assignments| && OutOfOrder(assignments[i]) && !OutOfOrder(a)
    ensures Disorder(assignments[i := a]) == Disorder(assignments) - 1
  {
    var n := |assignments| - 1;
    if i == n {
      assert assignments[i := a][..n] == assignments[..n];
    } else {
      assert assignments[i := a][..n] == assignments[..n][i := a];
      DisorderDrops(assignments[..n], i, a);
    }
  }

  lemma {:induction false} CostAfterUpdate(assignments: seq<Assignment>, i: nat, a: Assignment)
    requires i < |assignments|
    ensures ScheduleCost(assignments[i := a]) == ScheduleCost(assignments) - AssignmentCost(assignments[i]) + AssignmentCost(a)
  {
    var n := |assignments| - 1;
    if i == n {
      assert assignments[i := a][..n] == assignments[..n];
    } else {
      assert assignments[i := a][..n] == assignments[..n][i := a];
      CostAfterUpdate(assignments[..n], i, a);
    }
  }

  lemma {:induction false} LegsAfterUpdate(assignments: seq<Assignment>, i: nat, a: Assignment)
    requires i < |assignments| && multiset(a.legs) == multiset(assignments[i].legs)
    ensures multiset(AllLegs(assignments[i := a])) == multiset(AllLegs(assignments))
  {
    var n := |assignments| - 1;
    if i == n {
      assert assignments[i := a][..n] == assignments[..n];
    } else {
      assert assignments[i := a][..n] == assignments[..n][i := a];
      LegsAfterUpdate(assignments[..n], i, a);
    }
  }

  lemma SortedIsSettled(legs: seq<FlightLeg>)
    ensures ByDeparture(ByDeparture(legs)) == ByDeparture(legs)
  {
    DepartureIsPreorder();
    SortedIsOrdered(DepartsNoLater, legs);
    SortedFixesOrdered(DepartsNoLater, ByDeparture(legs));
  }

  ghost predicate SameDutyOrShorter(before: Assignment, after: Assignment) {
    && after.crewId == before.crewId
    && multiset(after.legs) == multiset(before.legs)
    && DutyTime(after) <= DutyTime(before)
  }

  /** The schedule with one duty's legs sorted and its window recomputed. */
  ghost predicate Improves(before: seq<Assignment>, after: seq<Assignment>) {
    && |after| == |before|
    && ScheduleCost(after) <= ScheduleCost(before)
    && multiset(AllLegs(after)) == multiset(AllLegs(before))
    && Disorder(after) <= Disorder(before)
    && (forall i :: 0 <= i < |before| ==> SameDutyOrShorter(before[i], after[i]))
  }

  ghost predicate AllLegal(index: map<string, CrewMember>, assignments: seq<Assignment>) {
    forall a :: a in assignments ==> a.crewId in index && Legal(index[a.crewId], a)
  }

  lemma SortingOneImproves(assignments: seq<Assignment>, i: nat, a: Assignment)
    requires i < |assignments| && OutOfOrder(assignments[i]) && a.crewId == assignments[i].crewId
    requires a.legs == ByDeparture(assignments[i].legs) && DutyTime(a) <= DutyTime(assignments[i])
    ensures Improves(assignments, assignments[i := a])
    ensures Disorder(assignments[i := a]) == Disorder(assignments) - 1
  {
    SortedIsPermutation(DepartsNoLater, assignments[i].legs);
    SortedIsSettled(assignments[i].legs);
    DisorderDrops(assignments, i, a);
    TotalPermutation(DeadheadTime, a.legs, assignments[i].legs);
    CostAfterUpdate(assignments, i, a);
    LegsAfterUpdate(assignments, i, a);
  }

  lemma {:induction false} DisorderZero(assignments: seq<Assignment>)
    ensures Disorder(assignments) == 0 <==> forall a :: a in assignments ==> !OutOfOrder(a)
  {
    if assignments != [] {
      var n := |assignments| - 1;
      DisorderZero(assignments[..n]);
      assert assignments == assignments[..n] + [assignments[n]];
    }
  }

  /** The duty with its legs sorted, if they were not and if that is legal and no longer. */
  method SortDuty(index: map<string, CrewMember>, a: Assignment) returns (candidate: Option<Assignment>)
    requires a.crewId in index
    ensures candidate.Some? ==>
      && OutOfOrder(a) && candidate.value == TightDuty(a.crewId, ByDeparture(a.legs))
      && Legal(index[a.crewId], candidate.value) && DutyTime(candidate.value) <= DutyTime(a)
    ensures candidate.None? ==>
      |a.legs| < 2 || !OutOfOrder(a)
      || !Legal(index[a.crewId], TightDuty(a.crewId, ByDeparture(a.legs)))
      || DutyTime(TightDuty(a.crewId, ByDeparture(a.legs))) > DutyTime(a)
  {
    if |a.legs| < 2 {
      return None;
    }
    var reordered := ByDeparture(a.legs);
    if reordered == a.legs {
      return None;
    }
    SortedIsPermutation(DepartsNoLater, a.legs);
    PermutationMembers(reordered, a.legs);
    var duty := TightDuty(a.crewId, reordered);
    if Validate(index[a.crewId], duty) == [] && DutyTime(duty) <= DutyTime(a) {
      return Some(duty);
    }
    return None;
  }

  lemma ImprovesTransitive(a: seq<Assignment>, b: seq<Assignment>, c: seq<Assignment>)
    requires Improves(a, b) && Improves(b, c)
    ensures Improves(a, c)
  {
    forall i | 0 <= i < |a|
      ensures SameDutyOrShorter(a[i], c[i])
    {
      assert SameDutyOrShorter(a[i], b[i]) && SameDutyOrShorter(b[i], c[i]);
    }
  }

  /** What a sweep may have done so far. */
  ghost predicate Swept(index: map<string, CrewMember>, before: seq<Assignment>, after: seq<Assignment>, improved: bool) {
    && Improves(before, after)
    && AllLegal(index, after)
    && (improved ==> Disorder(after) < Disorder(before))
    && (!improved ==> after == before)
  }

  lemma ReplacingKeepsLegal(index: map<string, CrewMember>, assignments: seq<Assignment>, i: nat, a: Assignment)
    requires AllLegal(index, assignments) && i < |assignments|
    requires a.crewId in index && Legal(index[a.crewId], a)
    ensures AllLegal(index, assignments[i := a])
  {
    forall b | b in assignments[i := a]
      ensures b in assignments || b == a
    {
    }
  }

  lemma SweepStep(index: map<string, CrewMember>, before: seq<Assignment>, after: seq<Assignment>, improved: bool,
                  i: nat, a: Assignment)
    requires Swept(index, before, after, improved) && i < |after|
    requires OutOfOrder(after[i]) && a.crewId == after[i].crewId && a.legs == ByDeparture(after[i].legs)
    requires a.crewId in index && Legal(index[a.crewId], a) && DutyTime(a) <= DutyTime(after[i])
    ensures Swept(index, before, after[i := a], true)
  {
    SortingOneImproves(after, i, a);
    ImprovesTransitive(before, after, after[i := a]);
    ReplacingKeepsLegal(index, after, i, a);
  }

  /** One sweep over the duties, sorting those that gain by it. */
  method Sweep(index: map<string, CrewMember>, assignments: seq<Assignment>)
    returns (result: seq<Assignment>, improved: bool)
    requires AllLegal(index, assignments)
    ensures Swept(index, assignments, result, improved)
  {
    result, improved := assignments, false;
    for i := 0 to |assignments|
      invariant Swept(index, assignments, result, improved)
    {
      assert result[i] in result;
      var candidate := SortDuty(index, result[i]);
      if candidate.Some? {
        SweepStep(index, assignments, result, improved, i, candidate.value);
        result := result[i := candidate.value];
        improved := true;
      }
    }
  }

  /** The search ends by itself, whatever the clock does, and never makes a schedule worse. */
  method LnsImprove(crewPool: seq<CrewMember>, assignments: seq<Assignment>, budgeted: bool)
    returns (result: seq<Assignment>)
    requires AllLegal(CrewIndex(crewPool), assignments)
    ensures Improves(assignments, result) && AllLegal(CrewIndex(crewPool), result)
    ensures InDepartureOrder(assignments) ==> result == assignments
  {
    var index := CrewIndex(crewPool);
    result := assignments;
    var improved := true;
    while improved
      invariant Improves(assignments, result) && AllLegal(index, result)
      invariant result == assignments || Disorder(result) < Disorder(assignments)
      decreases Disorder(result), improved
    {
      var late := DeadlinePassed(budgeted);
      if late {
        break;
      }
      var next, again := Sweep(index, result);
      ImprovesTransitive(assignments, result, next);
      result, improved := next, again;
    }
    if InDepartureOrder(assignments) {
      OrderedHasNoDisorder(assignments);
    }
  }

  lemma OrderedHasNoDisorder(assignments: seq<Assignment>)
    requires InDepartureOrder(assignments)
    ensures Disorder(assignments) == 0
  {
    DisorderZero(assignments);
    forall a | a in assignments
      ensures !OutOfOrder(a)
    {
      SortedFixesOrdered(DepartsNoLater, a.legs);
    }
  }

  /** The cost is the price of the duties. */
  lemma {:induction false} CostIsPrices(assignments: seq<Assignment>)
    ensures ScheduleCost(assignments) == Total(Price, assignments)
  {
    if assignments != [] {
      var n := |assignments| - 1;
      CostIsPrices(assignments[..n]);
      TimesAdd(assignments[n].legs);
    }
  }

  datatype PartitionResult = PartitionResult(
    assignments: seq<Assignment>, uncovered: seq<FlightLeg>, cost: int, complete: bool)

  method SolvePartition(crewPool: seq<CrewMember>, flights: seq<FlightLeg>, budgeted: bool) returns (r: PartitionResult)
    requires UniqueCrews(crewPool) && DistinctIds(flights)
    ensures Schedule(crewPool, flights, r.assignments, r.uncovered) && InDepartureOrder(r.assignments)
    ensures r.complete <==> r.uncovered == []
    ensures r.cost == Total(Price, r.assignments)
    ensures !budgeted ==> NoIdleCrewFits(crewPool, r.assignments, r.uncovered)
  {
    var assignments, uncovered := GreedyConstruct(crewPool, flights, budgeted);
    IndexFindsCrew(crewPool);
    forall a | a in assignments
      ensures a.crewId in CrewIndex(crewPool) && Legal(CrewIndex(crewPool)[a.crewId], a)
    {
      var crew :| crew in crewPool && LegalAssignment(crew, flights, a);
    }
    assignments := LnsImprove(crewPool, assignments, budgeted);
    CostIsPrices(assignments);
    r := PartitionResult(assignments, uncovered, ScheduleCost(assignments), |uncovered| == 0);
  }
}
