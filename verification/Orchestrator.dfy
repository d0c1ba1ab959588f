/** The tiered pipeline (solvers/orchestrator.py): Tier 1 sets the incumbent, Tier 2 may improve it, people get the rest. */
module Orchestrator {
  import opened Sequences
  import opened RulesEngine
  import opened LegalityProperties
  import opened ColumnGeneration
  import opened Schedules
  import RestrictedMaster
  import Tier1
  import Tier2

  datatype RecoveryTier = Heuristic | Optimizer | HumanAssist

  datatype RecoveryOutcome = RecoveryOutcome(
    tier: RecoveryTier, assignments: seq<Assignment>, uncovered: seq<FlightLeg>, complete: bool)

  /** No legal schedule of duties of up to four legs covers more flights. */
  ghost predicate CoversMost(crewPool: seq<CrewMember>, flights: seq<FlightLeg>, covered: int) {
    forall others :: RestrictedMaster.Roster(crewPool, flights, others) ==> |CoveredIds(others)| <= covered
  }

  lemma AllIsMost(crewPool: seq<CrewMember>, flights: seq<FlightLeg>)
    requires DistinctIds(flights)
    ensures CoversMost(crewPool, flights, |flights|)
  {
    IdsOfDistinct(flights);
    forall others | RestrictedMaster.Roster(crewPool, flights, others)
      ensures |CoveredIds(others)| <= |flights|
    {
      CoveredAreFlights(crewPool, flights, others);
      RestrictedMaster.Subsets(CoveredIds(others), Ids(flights));
    }
  }

  lemma CoveredAreFlights(crewPool: seq<CrewMember>, flights: seq<FlightLeg>, duties: seq<Assignment>)
    requires LegalSchedule(crewPool, flights, duties)
    ensures CoveredIds(duties) <= Ids(flights)
  {
    forall leg | leg in AllLegs(duties)
      ensures leg in flights
    {
      FlatMapMember(LegsOf, duties, leg);
      var k :| 0 <= k < |duties| && leg in LegsOf(duties[k]);
      assert duties[k] in duties;
    }
  }

  lemma BestCoversMost(crewPool: seq<CrewMember>, flights: seq<FlightLeg>, duties: seq<Assignment>, covered: nat)
    requires Tier2.BeatsRosters(crewPool, flights, duties, covered)
    ensures CoversMost(crewPool, flights, covered)
  {
    forall others | RestrictedMaster.Roster(crewPool, flights, others)
      ensures |CoveredIds(others)| <= covered
    {
      assert Tier2.NoBetter(duties, covered, others);
    }
  }

  /** For any clock and any MILP solver that returns feasible points or fails, the outcome is a legal schedule that
      accounts for every flight and covers no fewer of them than Tier 1 did. Under the conditions of Tier 2 no legal
      schedule of duties of up to four legs covers more; and none of equal coverage is cheaper if Tier 2 covered more than
      Tier 1. Otherwise Tier 1's schedule is the outcome, whatever Tier 2 would have saved. */
  method SolveRecovery(crewPool: seq<CrewMember>, flights: seq<FlightLeg>, budgeted: bool, milp: Tier2.Milp)
    returns (outcome: RecoveryOutcome, ghost incumbent: Tier1.PartitionResult)
    requires UniqueCrews(crewPool) && DistinctIds(flights) && Tier2.FeasibleSolver(milp, flights)
    ensures Schedule(crewPool, flights, outcome.assignments, outcome.uncovered)
    ensures Schedule(crewPool, flights, incumbent.assignments, incumbent.uncovered)
    ensures |outcome.uncovered| <= |incumbent.uncovered| <= |flights|
    ensures outcome.complete <==> outcome.uncovered == []
    ensures outcome.complete <==> outcome.tier != HumanAssist
    ensures outcome.tier == Heuristic <==> incumbent.complete
    ensures !budgeted && Tier2.OptimalSolver(milp, flights) && RestrictedMaster.LocationsKnown(crewPool) && |crewPool| <= 555
      ==> CoversMost(crewPool, flights, |flights| - |outcome.uncovered|)
          && (|outcome.uncovered| < |incumbent.uncovered|
              ==> Tier2.BeatsRosters(crewPool, flights, outcome.assignments, |flights| - |outcome.uncovered|))
    ensures |outcome.uncovered| == |incumbent.uncovered| ==> outcome.assignments == incumbent.assignments
  {
    var first := Tier1.SolvePartition(crewPool, flights, budgeted);
    incumbent := first;
    if first.complete {
      AllIsMost(crewPool, flights);
      return RecoveryOutcome(Heuristic, first.assignments, [], true), incumbent;
    }
    PartitionIsDistinct(flights, first.assignments, first.uncovered);
    var second;
    ghost var columns;
    second, columns := Tier2.Solve(crewPool, flights, first.assignments, budgeted, milp);
    if !budgeted && Tier2.OptimalSolver(milp, flights) && RestrictedMaster.LocationsKnown(crewPool) && |crewPool| <= 555 {
      BestCoversMost(crewPool, flights, second.assignments, |flights| - |second.uncovered|);
    }
    PartitionIsDistinct(flights, second.assignments, second.uncovered);
    var converged := Tier2.Converged(second);
    if converged || |second.uncovered| < |first.uncovered| {
      var tier := if converged then Optimizer else HumanAssist;
      return RecoveryOutcome(tier, second.assignments, second.uncovered, converged), incumbent;
    }
    return RecoveryOutcome(HumanAssist, first.assignments, first.uncovered, false), incumbent;
  }
}
