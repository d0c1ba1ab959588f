/** The binary set-partitioning master of Tier 2 (solvers/tier2.py): its constraints and objective, and why an
    optimal point covers at least as many flights as any roster of legal duties of up to four legs. */
module RestrictedMaster {
  import opened Sequences
  import opened RulesEngine
  import opened LegalityProperties
  import opened DutyLaw
  import opened ColumnGeneration
  import opened Schedules

  /** A value for every binary variable: one per column, and the flights whose "uncovered" variable is 1. */
  datatype Point = Point(x: seq<bool>, uncovered: set<string>)

  predicate Covers(column: Column, flightId: string) {
    exists i :: 0 <= i < |column.legs| && column.legs[i].flightId == flightId
  }

  function PicksFlight(columns: seq<Column>, x: seq<bool>, flightId: string): int -> bool {
    i => 0 <= i < |columns| && i < |x| && x[i] && Covers(columns[i], flightId)
  }

  function PicksCrew(columns: seq<Column>, x: seq<bool>, crewId: string): int -> bool {
    i => 0 <= i < |columns| && i < |x| && x[i] && columns[i].crewId == crewId
  }

  function CrewIds(columns: seq<Column>): set<string> { set c | c in columns :: c.crewId }

  /** cover_exactly_once and one_duty_per_crew. */
  ghost predicate Feasible(columns: seq<Column>, flights: seq<FlightLeg>, p: Point) {
    && |p.x| == |columns|
    && p.uncovered <= Ids(flights)
    && (forall id :: id in Ids(flights) ==>
          Count(PicksFlight(columns, p.x, id), |columns|) + (if id in p.uncovered then 1 else 0) == 1)
    && (forall id :: id in CrewIds(columns) ==> Count(PicksCrew(columns, p.x, id), |columns|) <= 1)
  }

  function SelectedCost(columns: seq<Column>, x: seq<bool>, n: nat): int
    requires n <= |columns| && n <= |x|
  {
    if n == 0 then 0
    else SelectedCost(columns, x, n - 1) + (if x[n - 1] then columns[n - 1].cost else 0)
  }

  /** 10 000 hours for each uncovered flight; in half microseconds, as the column costs. */
  const PENALTY := 20_000 * HOUR

  function Objective(columns: seq<Column>, p: Point): int
    requires |p.x| == |columns|
  {
    PENALTY * |p.uncovered| + SelectedCost(columns, p.x, |columns|)
  }

  ghost predicate Optimal(columns: seq<Column>, flights: seq<FlightLeg>, p: Point) {
    && Feasible(columns, flights, p)
    && (forall q :: Feasible(columns, flights, q) ==> Objective(columns, p) <= Objective(columns, q))
  }

  /** 18 hours, in half microseconds. */
  const MAX_COLUMN_COST := 36 * HOUR

  // ----- columns as the master receives them -----

  ghost predicate LegalColumn(crew: CrewMember, flights: seq<FlightLeg>, column: Column) {
    && column.crewId == crew.crewId
    && LegalDuty(crew, flights, column.legs)
    && column.cost == Price(TightDuty(crew.crewId, column.legs))
  }

  ghost predicate LegalColumns(crewPool: seq<CrewMember>, flights: seq<FlightLeg>, columns: seq<Column>) {
    forall c :: c in columns ==> exists crew :: crew in crewPool && LegalColumn(crew, flights, c)
  }

  lemma SoundColumnIsLegal(crew: CrewMember, flights: seq<FlightLeg>, column: Column)
    requires SoundColumn(crew, flights, column)
    ensures LegalColumn(crew, flights, column)
  {
    JourneyWindow(crew, crew.crewId, column.legs);
  }

  lemma LegalWindow(crew: CrewMember, legs: seq<FlightLeg>)
    requires legs != [] && Legal(crew, TightDuty(crew.crewId, legs))
    ensures 0 <= Latest(legs) - Earliest(legs) <= 14 * HOUR && Total(DeadheadTime, legs) <= MAX_DEADHEAD_TIME
    ensures forall leg :: leg in legs ==> leg.dep < leg.arr
  {
    LegalIff(crew, TightDuty(crew.crewId, legs));
    SortedIsPermutation(DepartsNoLater, legs);
    PermutationMembers(ByDeparture(legs), legs);
    WindowBounds(legs);
    assert legs[0] in ByDeparture(legs);
  }

  lemma PriceBound(crew: CrewMember, legs: seq<FlightLeg>)
    requires legs != [] && Legal(crew, TightDuty(crew.crewId, legs))
    ensures 0 <= Price(TightDuty(crew.crewId, legs)) <= MAX_COLUMN_COST
  {
    LegalWindow(crew, legs);
    NonNegativeTotal(DeadheadTime, legs);
    TimesAdd(legs);
  }

  /** A column costs between nothing and 18 hours: 14 of duty and half of 8 hours of deadheading. */
  lemma ColumnCostBound(crew: CrewMember, flights: seq<FlightLeg>, column: Column)
    requires LegalColumn(crew, flights, column)
    ensures 0 <= column.cost <= MAX_COLUMN_COST
  {
    PriceBound(crew, column.legs);
  }

  // ----- the penalty outweighs every possible cost -----

  ghost function SelectedCrews(columns: seq<Column>, x: seq<bool>, n: nat): set<string>
    requires n <= |columns| && n <= |x|
  {
    set i | 0 <= i < n && x[i] :: columns[i].crewId
  }

  /** A newly picked column belongs to a crew member not picked before. */
  lemma PickAddsCrew(columns: seq<Column>, x: seq<bool>, k: nat)
    requires k < |columns| == |x| && x[k]
    requires Count(PicksCrew(columns, x, columns[k].crewId), |columns|) <= 1
    ensures |SelectedCrews(columns, x, k + 1)| == |SelectedCrews(columns, x, k)| + 1
  {
    var id := columns[k].crewId;
    var picks := PicksCrew(columns, x, id);
    CountAtMostOne(picks, |columns|);
    forall i | 0 <= i < k && x[i]
      ensures columns[i].crewId != id
    {
      assert !(picks(i) && picks(k));
    }
    assert SelectedCrews(columns, x, k + 1) == SelectedCrews(columns, x, k) + {id};
  }

  lemma ColumnInPoolCost(crewPool: seq<CrewMember>, flights: seq<FlightLeg>, column: Column)
    requires exists crew :: crew in crewPool && LegalColumn(crew, flights, column)
    ensures 0 <= column.cost <= MAX_COLUMN_COST
  {
    var crew :| crew in crewPool && LegalColumn(crew, flights, column);
    ColumnCostBound(crew, flights, column);
  }

  lemma Multiply(a: int, n: int, m: int)
    requires m == n + 1
    ensures a * m == a * n + a
  {
  }

  /** With one duty per crew the selection costs at most 18 hours per picked crew member. */
  lemma {:induction false} SelectionCost(columns: seq<Column>, x: seq<bool>, n: nat)
    requires n <= |columns| == |x|
    requires forall c :: c in columns ==> 0 <= c.cost <= MAX_COLUMN_COST
    requires forall id :: id in CrewIds(columns) ==> Count(PicksCrew(columns, x, id), |columns|) <= 1
    ensures 0 <= SelectedCost(columns, x, n) <= MAX_COLUMN_COST * |SelectedCrews(columns, x, n)|
  {
    if n > 0 {
      var k := n - 1;
      SelectionCost(columns, x, k);
      assert columns[k] in columns && columns[k].crewId in CrewIds(columns);
      if x[k] {
        PickAddsCrew(columns, x, k);
        Multiply(MAX_COLUMN_COST, |SelectedCrews(columns, x, k)|, |SelectedCrews(columns, x, n)|);
      } else {
        assert SelectedCrews(columns, x, n) == SelectedCrews(columns, x, k);
      }
    }
  }

  lemma {:induction false} PoolIds(crewPool: seq<CrewMember>)
    ensures |set crew | crew in crewPool :: crew.crewId| <= |crewPool|
  {
    if crewPool != [] {
      var n := |crewPool| - 1;
      PoolIds(crewPool[..n]);
      assert crewPool == crewPool[..n] + [crewPool[n]];
      assert (set crew | crew in crewPool :: crew.crewId)
        == (set crew | crew in crewPool[..n] :: crew.crewId) + {crewPool[n].crewId};
    }
  }

  lemma Subsets<T>(a: set<T>, b: set<T>)
    requires a <= b
    ensures |a| <= |b| && |b - a| == |b| - |a|
  {
    assert b == a + (b - a);
  }

  lemma SelectedCrewsInPool(crewPool: seq<CrewMember>, flights: seq<FlightLeg>, columns: seq<Column>, x: seq<bool>)
    requires LegalColumns(crewPool, flights, columns) && |x| == |columns|
    ensures |SelectedCrews(columns, x, |columns|)| <= |crewPool|
  {
    var ids := set crew | crew in crewPool :: crew.crewId;
    forall id | id in SelectedCrews(columns, x, |columns|)
      ensures id in ids
    {
      var i :| 0 <= i < |columns| && x[i] && columns[i].crewId == id;
      assert columns[i] in columns;
    }
    Subsets(SelectedCrews(columns, x, |columns|), ids);
    PoolIds(crewPool);
  }

  lemma CostOf555(crews: nat)
    requires crews <= 555
    ensures MAX_COLUMN_COST * crews < PENALTY
  {
  }

  /** At most 555 crew members together cost less than one uncovered flight. */
  lemma PenaltyDominates(crewPool: seq<CrewMember>, flights: seq<FlightLeg>, columns: seq<Column>, p: Point)
    requires LegalColumns(crewPool, flights, columns) && Feasible(columns, flights, p) && |crewPool| <= 555
    ensures 0 <= SelectedCost(columns, p.x, |columns|) < PENALTY
  {
    forall c | c in columns
      ensures 0 <= c.cost <= MAX_COLUMN_COST
    {
      ColumnInPoolCost(crewPool, flights, c);
    }
    SelectionCost(columns, p.x, |columns|);
    SelectedCrewsInPool(crewPool, flights, columns, p.x);
    CostOf555(|SelectedCrews(columns, p.x, |columns|)|);
  }

  /** No feasible point leaves fewer flights uncovered than an optimal one. */
  lemma OptimalCoversMost(crewPool: seq<CrewMember>, flights: seq<FlightLeg>, columns: seq<Column>, p: Point, q: Point)
    requires LegalColumns(crewPool, flights, columns) && |crewPool| <= 555
    requires Optimal(columns, flights, p) && Feasible(columns, flights, q)
    ensures |p.uncovered| <= |q.uncovered|
  {
    PenaltyDominates(crewPool, flights, columns, p);
    PenaltyDominates(crewPool, flights, columns, q);
    assert Objective(columns, p) <= Objective(columns, q);
  }

  // ----- schedules as feasible points -----

  /** A legal schedule in which no flight is in two duties, or twice in one. */
  ghost predicate Lineup(crewPool: seq<CrewMember>, flights: seq<FlightLeg>, duties: seq<Assignment>) {
    LegalSchedule(crewPool, flights, duties) && DistinctIds(AllLegs(duties))
  }

  /** One whose duties have at most four legs each. */
  ghost predicate Roster(crewPool: seq<CrewMember>, flights: seq<FlightLeg>, duties: seq<Assignment>) {
    Lineup(crewPool, flights, duties) && forall d :: d in duties ==> |d.legs| <= 4
  }

  ghost predicate Matches(column: Column, duty: Assignment) {
    column.crewId == duty.crewId && column.legs == duty.legs
  }

  ghost predicate InLineup(column: Column, duties: seq<Assignment>) {
    exists k :: 0 <= k < |duties| && Matches(column, duties[k])
  }

  ghost predicate HasColumn(columns: seq<Column>, duty: Assignment) {
    exists c :: c in columns && Matches(c, duty)
  }

  /** Each duty is among the columns. */
  ghost predicate Offered(columns: seq<Column>, duties: seq<Assignment>) {
    forall k :: 0 <= k < |duties| ==> HasColumn(columns, duties[k])
  }

  ghost predicate SameDuty(a: Column, b: Column) { a.crewId == b.crewId && a.legs == b.legs }

  ghost predicate NoDuplicates(columns: seq<Column>) {
    forall i, j :: 0 <= i < j < |columns| ==> !SameDuty(columns[i], columns[j])
  }

  /** Every chain of at most four legs, for every crew member, is among the columns. */
  ghost predicate CompleteColumns(crewPool: seq<CrewMember>, flights: seq<FlightLeg>, columns: seq<Column>) {
    forall crew, legs :: crew in crewPool && Chain(crew, flights, legs) && |legs| <= 4 ==>
      exists c :: c in columns && c.crewId == crew.crewId && c.legs == legs
  }

  ghost predicate LocationsKnown(crewPool: seq<CrewMember>) {
    forall crew :: crew in crewPool ==> crew.currentLocation != ""
  }

  ghost function LineupPoint(columns: seq<Column>, flights: seq<FlightLeg>, duties: seq<Assignment>): Point {
    var x := seq(|columns|, i requires 0 <= i < |columns| => InLineup(columns[i], duties));
    Point(x, set id | id in Ids(flights) && Count(PicksFlight(columns, x, id), |columns|) == 0)
  }

  /** Duties of a lineup share no flight. */
  lemma {:induction false} DutiesAreDisjoint(duties: seq<Assignment>, k: nat, m: nat)
    requires DistinctIds(AllLegs(duties)) && k < m < |duties|
    ensures Ids(duties[k].legs) !! Ids(duties[m].legs)
  {
    var n := |duties| - 1;
    var before := AllLegs(duties[..n]);
    assert AllLegs(duties) == before + duties[n].legs;
    if m < n {
      assert forall i :: 0 <= i < |before| ==> before[i] == AllLegs(duties)[i];
      DutiesAreDisjoint(duties[..n], k, m);
    } else {
      forall a, b | a in duties[k].legs && b in duties[n].legs
        ensures a.flightId != b.flightId
      {
        assert a in LegsOf(duties[..n][k]);
        FlatMapMember(LegsOf, duties[..n], a);
        LegsApart(before, duties[n].legs, a, b);
      }
    }
  }

  lemma LegsApart(xs: seq<FlightLeg>, ys: seq<FlightLeg>, a: FlightLeg, b: FlightLeg)
    requires DistinctIds(xs + ys) && a in xs && b in ys
    ensures a.flightId != b.flightId
  {
    var i :| 0 <= i < |xs| && xs[i] == a;
    var j :| 0 <= j < |ys| && ys[j] == b;
    assert (xs + ys)[i] == a && (xs + ys)[|xs| + j] == b;
  }

  lemma SameLineupDuty(crewPool: seq<CrewMember>, flights: seq<FlightLeg>, duties: seq<Assignment>,
                       columns: seq<Column>, i: nat, j: nat)
    requires Lineup(crewPool, flights, duties) && NoDuplicates(columns) && i < j < |columns|
    requires InLineup(columns[i], duties) && InLineup(columns[j], duties)
    ensures columns[i].crewId != columns[j].crewId && Ids(columns[i].legs) !! Ids(columns[j].legs)
  {
    var k: nat :| k < |duties| && Matches(columns[i], duties[k]);
    var m: nat :| m < |duties| && Matches(columns[j], duties[m]);
    assert !SameDuty(columns[i], columns[j]);
    if k < m {
      DutiesAreDisjoint(duties, k, m);
    } else {
      DutiesAreDisjoint(duties, m, k);
    }
  }

  lemma CoversIffId(column: Column, id: string)
    ensures Covers(column, id) <==> id in Ids(column.legs)
  {
  }

  /** A schedule obeys both families of constraints. */
  lemma LineupPointIsFeasible(crewPool: seq<CrewMember>, flights: seq<FlightLeg>, duties: seq<Assignment>,
                              columns: seq<Column>)
    requires Lineup(crewPool, flights, duties) && NoDuplicates(columns)
    ensures Feasible(columns, flights, LineupPoint(columns, flights, duties))
  {
    var p := LineupPoint(columns, flights, duties);
    forall id
      ensures Count(PicksFlight(columns, p.x, id), |columns|) <= 1
    {
      var picks := PicksFlight(columns, p.x, id);
      forall i, j | 0 <= i < j < |columns|
        ensures !(picks(i) && picks(j))
      {
        if picks(i) && picks(j) {
          CoversIffId(columns[i], id);
          CoversIffId(columns[j], id);
          SameLineupDuty(crewPool, flights, duties, columns, i, j);
        }
      }
      CountAtMostOne(picks, |columns|);
    }
    forall id
      ensures Count(PicksCrew(columns, p.x, id), |columns|) <= 1
    {
      var picks := PicksCrew(columns, p.x, id);
      forall i, j | 0 <= i < j < |columns|
        ensures !(picks(i) && picks(j))
      {
        if picks(i) && picks(j) {
          SameLineupDuty(crewPool, flights, duties, columns, i, j);
        }
      }
      CountAtMostOne(picks, |columns|);
    }
  }

  lemma SelectedIsCovered(columns: seq<Column>, flights: seq<FlightLeg>, duties: seq<Assignment>, i: nat, id: string)
    requires i < |columns| && InLineup(columns[i], duties) && Covers(columns[i], id)
    ensures id !in LineupPoint(columns, flights, duties).uncovered
  {
    var p := LineupPoint(columns, flights, duties);
    assert PicksFlight(columns, p.x, id)(i);
    CountZero(PicksFlight(columns, p.x, id), |columns|);
  }

  /** The point of an offered schedule covers every flight of the schedule. */
  lemma LineupPointCovers(crewPool: seq<CrewMember>, flights: seq<FlightLeg>, duties: seq<Assignment>,
                          columns: seq<Column>, id: string)
    requires Lineup(crewPool, flights, duties) && Offered(columns, duties) && id in CoveredIds(duties)
    ensures id in Ids(flights) && id !in LineupPoint(columns, flights, duties).uncovered
  {
    var leg :| leg in AllLegs(duties) && leg.flightId == id;
    FlatMapMember(LegsOf, duties, leg);
    var k :| 0 <= k < |duties| && leg in LegsOf(duties[k]);
    assert duties[k] in duties && HasColumn(columns, duties[k]);
    var c :| c in columns && Matches(c, duties[k]);
    var i: nat :| i < |columns| && columns[i] == c;
    assert InLineup(columns[i], duties);
    CoversIffId(columns[i], id);
    SelectedIsCovered(columns, flights, duties, i, id);
  }

  /** An optimal point of the master covers at least as many flights as any schedule whose duties are among the columns,
      and if it covers as many its selection costs no more than theirs. */
  lemma OptimalBeatsLineup(crewPool: seq<CrewMember>, flights: seq<FlightLeg>, columns: seq<Column>, p: Point,
                           duties: seq<Assignment>)
    requires LegalColumns(crewPool, flights, columns) && NoDuplicates(columns) && |crewPool| <= 555
    requires Optimal(columns, flights, p) && Lineup(crewPool, flights, duties) && Offered(columns, duties)
    ensures |CoveredIds(duties)| <= |Ids(flights) - p.uncovered|
    ensures |CoveredIds(duties)| == |Ids(flights) - p.uncovered| ==>
      SelectedCost(columns, p.x, |columns|) <= SelectedCost(columns, LineupPoint(columns, flights, duties).x, |columns|)
  {
    var q := LineupPoint(columns, flights, duties);
    LineupPointIsFeasible(crewPool, flights, duties, columns);
    OptimalCoversMost(crewPool, flights, columns, p, q);
    LineupPointCount(crewPool, flights, columns, duties);
    Subsets(p.uncovered, Ids(flights));
    CheaperOnEqual(columns, flights, p, q);
  }

  lemma LineupPointCount(crewPool: seq<CrewMember>, flights: seq<FlightLeg>, columns: seq<Column>, duties: seq<Assignment>)
    requires Lineup(crewPool, flights, duties) && Offered(columns, duties)
    ensures |CoveredIds(duties)| <= |Ids(flights)| - |LineupPoint(columns, flights, duties).uncovered|
  {
    var q := LineupPoint(columns, flights, duties);
    forall id | id in CoveredIds(duties)
      ensures id in Ids(flights) - q.uncovered
    {
      LineupPointCovers(crewPool, flights, duties, columns, id);
    }
    Subsets(CoveredIds(duties), Ids(flights) - q.uncovered);
    Subsets(q.uncovered, Ids(flights));
  }

  lemma CheaperOnEqual(columns: seq<Column>, flights: seq<FlightLeg>, p: Point, q: Point)
    requires Optimal(columns, flights, p) && Feasible(columns, flights, q)
    ensures |q.uncovered| <= |p.uncovered| ==> SelectedCost(columns, p.x, |columns|) <= SelectedCost(columns, q.x, |columns|)
  {
    assert Objective(columns, p) <= Objective(columns, q);
  }

  // ----- duties in order of departure -----

  ghost function Rearranged(duties: seq<Assignment>): (ordered: seq<Assignment>)
    ensures |ordered| == |duties|
    ensures forall k :: 0 <= k < |duties| ==> ordered[k] == duties[k].(legs := ByDeparture(duties[k].legs))
  {
    if duties == [] then []
    else
      var n := |duties| - 1;
      Rearranged(duties[..n]) + [duties[n].(legs := ByDeparture(duties[n].legs))]
  }

  /** A duty with its legs in order is the same duty at the same price. */
  lemma OrderedDuty(crew: CrewMember, flights: seq<FlightLeg>, a: Assignment)
    requires LegalAssignment(crew, flights, a)
    ensures LegalAssignment(crew, flights, a.(legs := ByDeparture(a.legs)))
    ensures Price(a.(legs := ByDeparture(a.legs))) == Price(a)
  {
    var journey := ByDeparture(a.legs);
    LegalDutyIsJourney(crew, flights, a.legs);
    WindowIgnoresOrder(a.legs, journey);
    JourneyWindow(crew, crew.crewId, journey);
    DistinctIdsPermutation(a.legs, journey);
    PermutationMembers(journey, a.legs);
    TimesAdd(a.legs);
    TimesAdd(journey);
    TotalPermutation(DeadheadTime, a.legs, journey);
  }

  lemma {:induction false} OrderKeepsLegs(duties: seq<Assignment>)
    ensures multiset(AllLegs(Rearranged(duties))) == multiset(AllLegs(duties))
  {
    if duties != [] {
      var n := |duties| - 1;
      OrderKeepsLegs(duties[..n]);
      SortedIsPermutation(DepartsNoLater, duties[n].legs);
      assert Rearranged(duties)[..n] == Rearranged(duties[..n]);
      assert AllLegs(Rearranged(duties)) == AllLegs(Rearranged(duties[..n])) + ByDeparture(duties[n].legs);
      assert AllLegs(duties) == AllLegs(duties[..n]) + duties[n].legs;
    }
  }

  lemma OrderKeepsIds(duties: seq<Assignment>)
    ensures CoveredIds(Rearranged(duties)) == CoveredIds(duties)
  {
    OrderKeepsLegs(duties);
    PermutationMembers(AllLegs(Rearranged(duties)), AllLegs(duties));
  }

  lemma OrderedLineup(crewPool: seq<CrewMember>, flights: seq<FlightLeg>, duties: seq<Assignment>)
    requires Lineup(crewPool, flights, duties)
    ensures Lineup(crewPool, flights, Rearranged(duties))
  {
    var ordered := Rearranged(duties);
    OrderKeepsLegs(duties);
    DistinctIdsPermutation(AllLegs(duties), AllLegs(ordered));
    forall a | a in ordered
      ensures exists crew :: crew in crewPool && LegalAssignment(crew, flights, a)
    {
      var k :| 0 <= k < |ordered| && ordered[k] == a;
      assert duties[k] in duties;
      var crew :| crew in crewPool && LegalAssignment(crew, flights, duties[k]);
      OrderedDuty(crew, flights, duties[k]);
    }
  }

  /** A roster's duties, their legs in order, are among the complete columns. */
  lemma RosterIsOffered(crewPool: seq<CrewMember>, flights: seq<FlightLeg>, columns: seq<Column>, duties: seq<Assignment>)
    requires Roster(crewPool, flights, duties) && LocationsKnown(crewPool)
    requires CompleteColumns(crewPool, flights, columns)
    ensures Offered(columns, Rearranged(duties))
  {
    forall k | 0 <= k < |duties|
      ensures HasColumn(columns, Rearranged(duties)[k])
    {
      var d := duties[k];
      assert d in duties;
      var crew :| crew in crewPool && LegalAssignment(crew, flights, d);
      KnownLocationIsComplete(crew, flights, d.legs);
      SortedIsPermutation(DepartsNoLater, d.legs);
      PermutationMembers(ByDeparture(d.legs), d.legs);
    }
  }

  /** Over complete columns an optimal point covers at least as many flights as any roster. */
  lemma OptimalBeatsEveryRoster(crewPool: seq<CrewMember>, flights: seq<FlightLeg>, columns: seq<Column>, p: Point,
                                duties: seq<Assignment>)
    requires LegalColumns(crewPool, flights, columns) && NoDuplicates(columns)
    requires CompleteColumns(crewPool, flights, columns) && LocationsKnown(crewPool) && |crewPool| <= 555
    requires Optimal(columns, flights, p) && Roster(crewPool, flights, duties)
    ensures |CoveredIds(duties)| <= |Ids(flights) - p.uncovered|
  {
    OrderedLineup(crewPool, flights, duties);
    RosterIsOffered(crewPool, flights, columns, duties);
    OrderKeepsIds(duties);
    OptimalBeatsLineup(crewPool, flights, columns, p, Rearranged(duties));
  }
}
