/** What both solver tiers promise about their output: legal tight duties, one per crew member,
    that together with the uncovered flights are exactly the input. */
module Schedules {
  import opened Sequences
  import opened RulesEngine
  import opened LegalityProperties
  import opened ColumnGeneration

  ghost predicate UniqueCrews(crewPool: seq<CrewMember>) {
    forall i, j :: 0 <= i < j < |crewPool| ==> crewPool[i].crewId != crewPool[j].crewId
  }

  ghost predicate LegalAssignment(crew: CrewMember, flights: seq<FlightLeg>, a: Assignment) {
    LegalDuty(crew, flights, a.legs) && a == TightDuty(crew.crewId, a.legs)
  }

  ghost predicate LegalSchedule(crewPool: seq<CrewMember>, flights: seq<FlightLeg>, assignments: seq<Assignment>) {
    && (forall a :: a in assignments ==> exists crew :: crew in crewPool && LegalAssignment(crew, flights, a))
    && (forall i, j :: 0 <= i < j < |assignments| ==> assignments[i].crewId != assignments[j].crewId)
  }

  function LegsOf(a: Assignment): seq<FlightLeg> { a.legs }

  function AllLegs(assignments: seq<Assignment>): seq<FlightLeg> { FlatMap(LegsOf, assignments) }

  /** Nothing is lost and nothing is invented. */
  ghost predicate Partitions(flights: seq<FlightLeg>, assignments: seq<Assignment>, uncovered: seq<FlightLeg>) {
    multiset(AllLegs(assignments)) + multiset(uncovered) == multiset(flights)
  }

  ghost predicate Schedule(crewPool: seq<CrewMember>, flights: seq<FlightLeg>, assignments: seq<Assignment>,
                           uncovered: seq<FlightLeg>)
  {
    LegalSchedule(crewPool, flights, assignments) && Partitions(flights, assignments, uncovered)
  }

  function Ids(legs: seq<FlightLeg>): set<string> { set leg | leg in legs :: leg.flightId }

  function CoveredIds(assignments: seq<Assignment>): set<string> { Ids(AllLegs(assignments)) }

  function Missing(covered: set<string>): FlightLeg -> bool { (leg: FlightLeg) => leg.flightId !in covered }

  /** The flights whose id is not covered, in input order. */
  function UncoveredFlights(flights: seq<FlightLeg>, covered: set<string>): seq<FlightLeg> {
    Filter(Missing(covered), flights)
  }

  lemma SameIdSameLeg(flights: seq<FlightLeg>, a: FlightLeg, b: FlightLeg)
    requires DistinctIds(flights) && a in flights && b in flights && a.flightId == b.flightId
    ensures a == b
  {
    var i :| 0 <= i < |flights| && flights[i] == a;
    var j :| 0 <= j < |flights| && flights[j] == b;
  }

  lemma {:induction false} IdsOfDistinct(legs: seq<FlightLeg>)
    requires DistinctIds(legs)
    ensures |Ids(legs)| == |legs|
  {
    if legs != [] {
      var n := |legs| - 1;
      IdsOfDistinct(legs[..n]);
      assert legs == legs[..n] + [legs[n]];
      assert Ids(legs) == Ids(legs[..n]) + {legs[n].flightId};
      assert legs[n].flightId !in Ids(legs[..n]);
    }
  }

  lemma {:induction false} FilterDistinct(p: FlightLeg -> bool, legs: seq<FlightLeg>)
    requires DistinctIds(legs)
    ensures DistinctIds(Filter(p, legs))
  {
    if legs != [] {
      var n := |legs| - 1;
      FilterDistinct(p, legs[..n]);
      var kept := Filter(p, legs[..n]);
      forall k | 0 <= k < |kept|
        ensures kept[k].flightId != legs[n].flightId
      {
        FilterMembers(p, legs[..n], kept[k]);
        assert kept[k] in legs[..n];
      }
    }
  }

  /** Distinct covered legs of the input and the flights left over are the input. */
  lemma CoveredAndUncovered(flights: seq<FlightLeg>, assignments: seq<Assignment>)
    requires DistinctIds(flights) && DistinctIds(AllLegs(assignments))
    requires forall leg :: leg in AllLegs(assignments) ==> leg in flights
    ensures Partitions(flights, assignments, UncoveredFlights(flights, CoveredIds(assignments)))
    ensures |UncoveredFlights(flights, CoveredIds(assignments))| == |flights| - |CoveredIds(assignments)|
  {
    var legs := AllLegs(assignments);
    var p := Missing(CoveredIds(assignments));
    var rest := Filter(p, flights);
    FilterDistinct(p, flights);
    forall leg
      ensures leg in rest <==> leg in flights && leg !in legs
    {
      FilterMembers(p, flights, leg);
      if leg in flights && leg.flightId in Ids(legs) {
        var other :| other in legs && other.flightId == leg.flightId;
        SameIdSameLeg(flights, leg, other);
      }
    }
    JoinDistinct(legs, rest);
    DistinctSameMembers(legs + rest, flights);
    assert multiset(legs + rest) == multiset(legs) + multiset(rest);
    assert |legs + rest| == |multiset(legs + rest)| == |multiset(flights)| == |flights|;
    IdsOfDistinct(legs);
  }

  lemma JoinDistinct(xs: seq<FlightLeg>, ys: seq<FlightLeg>)
    requires DistinctIds(xs) && DistinctIds(ys) && forall leg :: leg in ys ==> leg !in xs
    ensures Distinct(xs + ys)
  {
    var all := xs + ys;
    forall i, j | 0 <= i < j < |all|
      ensures all[i] != all[j]
    {
      if i < |xs| <= j {
        assert all[j] in ys;
      }
    }
  }

  /** A partition of an input with unique ids has distinct legs, all of them from the input. */
  lemma PartitionIsDistinct(flights: seq<FlightLeg>, assignments: seq<Assignment>, uncovered: seq<FlightLeg>)
    requires DistinctIds(flights) && Partitions(flights, assignments, uncovered)
    ensures DistinctIds(AllLegs(assignments))
    ensures forall leg :: leg in AllLegs(assignments) ==> leg in flights
    ensures |CoveredIds(assignments)| + |uncovered| == |flights|
  {
    var legs := AllLegs(assignments);
    assert multiset(legs + uncovered) == multiset(flights);
    DistinctIdsPermutation(flights, legs + uncovered);
    forall i, j | 0 <= i < j < |legs|
      ensures legs[i].flightId != legs[j].flightId
    {
      assert legs[i] == (legs + uncovered)[i] && legs[j] == (legs + uncovered)[j];
    }
    PermutationMembers(legs + uncovered, flights);
    IdsOfDistinct(legs);
  }
}
