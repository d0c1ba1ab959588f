/** Tier 2 as a whole (solvers/tier2.py, RestrictedMasterOptimizer.solve): columns, the master, and the fallbacks. */
module Tier2 {
  import opened Sequences
  import opened RulesEngine
  import opened LegalityProperties
  import opened DutyLaw
  import opened ColumnGeneration
  import opened Schedules
  import opened RestrictedMaster

  datatype Termination = OptimalTermination | TimeTermination | OtherTermination

  /** What the external MILP solver may answer. */
  datatype MilpOutcome = SolverFailed | NothingLoaded | Loaded(point: Point, termination: Termination)

  datatype Status = StatusOptimal | StatusFeasible | StatusTimeboxedFeasible | StatusSolverUnavailable

  datatype OptimizationResult = OptimizationResult(assignments: seq<Assignment>, uncovered: seq<FlightLeg>, status: Status)

  type Milp = (seq<Column>, seq<FlightLeg>) -> MilpOutcome

  /** Whatever the solver loads is a feasible point of the model it was given. */
  ghost predicate FeasibleSolver(milp: Milp, flights: seq<FlightLeg>) {
    forall columns :: milp(columns, flights).Loaded? ==> Feasible(columns, flights, milp(columns, flights).point)
  }

  ghost predicate OptimalSolver(milp: Milp, flights: seq<FlightLeg>) {
    forall columns :: milp(columns, flights).Loaded? && Optimal(columns, flights, milp(columns, flights).point)
  }

  function Converged(r: OptimizationResult): bool {
    r.uncovered == [] && r.status in {StatusOptimal, StatusFeasible, StatusTimeboxedFeasible}
  }

  // ----- one column per crew and flight sequence -----

  function FlightIdsOf(legs: seq<FlightLeg>): seq<string> { seq(|legs|, i requires 0 <= i < |legs| => legs[i].flightId) }

  type Key = (string, seq<string>)

  function KeyOf(column: Column): Key { (column.crewId, FlightIdsOf(column.legs)) }

  ghost predicate KeysDistinct(columns: seq<Column>) {
    forall i, j :: 0 <= i < j < |columns| ==> KeyOf(columns[i]) != KeyOf(columns[j])
  }

  ghost predicate KeyAmong(key: Key, columns: seq<Column>) {
    exists c :: c in columns && KeyOf(c) == key
  }

  /** The column is the last one with its key. */
  ghost predicate IsLast(columns: seq<Column>, c: Column) {
    exists k :: 0 <= k < |columns| && columns[k] == c && forall j :: k < j < |columns| ==> KeyOf(columns[j]) != KeyOf(c)
  }

  /** The first key turns up before the second one does. */
  ghost predicate TurnsUpBefore(columns: seq<Column>, a: Key, b: Key) {
    exists p :: 0 <= p < |columns| && KeyOf(columns[p]) == a && forall q :: 0 <= q <= p ==> KeyOf(columns[q]) != b
  }

  lemma LastSnoc(columns: seq<Column>, c: Column, d: Column)
    requires IsLast(columns, c) && KeyOf(d) != KeyOf(c)
    ensures IsLast(columns + [d], c)
  {
    var k :| 0 <= k < |columns| && columns[k] == c && forall j :: k < j < |columns| ==> KeyOf(columns[j]) != KeyOf(c);
    assert (columns + [d])[k] == c;
  }

  lemma NewestIsLast(columns: seq<Column>, d: Column)
    ensures IsLast(columns + [d], d)
  {
    assert (columns + [d])[|columns|] == d;
  }

  lemma BeforeSnoc(columns: seq<Column>, d: Column, a: Key, b: Key)
    requires TurnsUpBefore(columns, a, b) || (KeyAmong(a, columns) && !KeyAmong(b, columns))
    ensures TurnsUpBefore(columns + [d], a, b)
  {
    var p :| 0 <= p < |columns| && KeyOf(columns[p]) == a && forall q :: 0 <= q <= p ==> KeyOf(columns[q]) != b;
    var all := columns + [d];
    assert all[p] == columns[p] && forall q :: 0 <= q <= p ==> all[q] == columns[q];
  }

  /** The dictionary of columns: a later column replaces an earlier one with the same key, in its place. */
  method Deduplicate(columns: seq<Column>) returns (unique: seq<Column>)
    ensures forall c :: c in columns ==> KeyAmong(KeyOf(c), unique)
    ensures forall c :: c in unique ==> c in columns && IsLast(columns, c)
    ensures KeysDistinct(unique)
    ensures forall i, j :: 0 <= i < j < |unique| ==> TurnsUpBefore(columns, KeyOf(unique[i]), KeyOf(unique[j]))
  {
    var order, values := EnterAll(columns);
    unique := LookedUp(order, values);
    LookedUpIsUnique(columns, order, values);
  }

  method EnterAll(columns: seq<Column>) returns (order: seq<Key>, values: map<Key, Column>)
    ensures IsDictionary(columns, order, values)
  {
    order, values := [], map[];
    for i := 0 to |columns|
      invariant IsDictionary(columns[..i], order, values)
    {
      assert columns[..i + 1] == columns[..i] + [columns[i]];
      order, values := Enter(columns[..i], order, values, columns[i]);
    }
    assert columns[..|columns|] == columns;
  }

  /** A new key goes to the end; the value of a known one is replaced. */
  method Enter(ghost seen: seq<Column>, order: seq<Key>, values: map<Key, Column>, d: Column)
    returns (newOrder: seq<Key>, newValues: map<Key, Column>)
    requires IsDictionary(seen, order, values)
    ensures IsDictionary(seen + [d], newOrder, newValues)
  {
    DictionarySnoc(seen, d, order, values);
    newOrder := if KeyOf(d) in values then order else order + [KeyOf(d)];
    newValues := values[KeyOf(d) := d];
  }

  /** The keys in the order they turned up, and for each the last column that had it. */
  ghost predicate IsDictionary(columns: seq<Column>, order: seq<Key>, values: map<Key, Column>) {
    && (forall k :: k in order <==> k in values)
    && Distinct(order) && InOrder(columns, order)
    && HoldsLast(columns, values)
  }

  ghost predicate HoldsLast(columns: seq<Column>, values: map<Key, Column>) {
    && (forall k :: k in values <==> KeyAmong(k, columns))
    && (forall k :: k in values ==> values[k] in columns && KeyOf(values[k]) == k && IsLast(columns, values[k]))
  }

  function LookedUp(order: seq<Key>, values: map<Key, Column>): (unique: seq<Column>)
    requires forall k :: k in order ==> k in values
    ensures |unique| == |order| && forall i :: 0 <= i < |order| ==> unique[i] == values[order[i]]
  {
    seq(|order|, i requires 0 <= i < |order| => values[order[i]])
  }

  lemma LookedUpIsUnique(columns: seq<Column>, order: seq<Key>, values: map<Key, Column>)
    requires IsDictionary(columns, order, values)
    ensures
      var unique := LookedUp(order, values);
      && (forall c :: c in columns ==> KeyAmong(KeyOf(c), unique))
      && (forall c :: c in unique ==> c in columns && IsLast(columns, c))
      && KeysDistinct(unique)
      && forall i, j :: 0 <= i < j < |unique| ==> TurnsUpBefore(columns, KeyOf(unique[i]), KeyOf(unique[j]))
  {
    var unique := LookedUp(order, values);
    forall c | c in columns
      ensures KeyAmong(KeyOf(c), unique)
    {
      assert KeyAmong(KeyOf(c), columns);
      assert KeyOf(c) in order;
      var i :| 0 <= i < |order| && order[i] == KeyOf(c);
      assert unique[i] in unique;
    }
    forall i | 0 <= i < |unique|
      ensures KeyOf(unique[i]) == order[i]
    {
      assert order[i] in order;
    }
  }

  lemma DictionarySnoc(columns: seq<Column>, d: Column, order: seq<Key>, values: map<Key, Column>)
    requires IsDictionary(columns, order, values)
    ensures IsDictionary(columns + [d], if KeyOf(d) in values then order else order + [KeyOf(d)], values[KeyOf(d) := d])
  {
    OrderSnoc(columns, d, order, KeyOf(d) in values);
    ValuesSnoc(columns, d, values);
  }

  ghost predicate InOrder(columns: seq<Column>, order: seq<Key>) {
    && (forall k :: k in order ==> KeyAmong(k, columns))
    && (forall i, j :: 0 <= i < j < |order| ==> TurnsUpBefore(columns, order[i], order[j]))
  }

  lemma KeysSnoc(columns: seq<Column>, d: Column, k: Key)
    ensures KeyAmong(k, columns + [d]) <==> KeyAmong(k, columns) || k == KeyOf(d)
  {
    assert forall c :: c in columns + [d] <==> c in columns || c == d;
  }

  lemma OrderSnoc(columns: seq<Column>, d: Column, order: seq<Key>, known: bool)
    requires InOrder(columns, order) && (known <==> KeyAmong(KeyOf(d), columns)) && (known ==> KeyOf(d) in order)
    ensures InOrder(columns + [d], if known then order else order + [KeyOf(d)])
  {
    var next := if known then order else order + [KeyOf(d)];
    forall k | k in next
      ensures KeyAmong(k, columns + [d])
    {
      KeysSnoc(columns, d, k);
    }
    forall i, j | 0 <= i < j < |next|
      ensures TurnsUpBefore(columns + [d], next[i], next[j])
    {
      assert next[i] == order[i] && order[i] in order;
      BeforeSnoc(columns, d, next[i], next[j]);
    }
  }

  lemma ValuesSnoc(columns: seq<Column>, d: Column, values: map<Key, Column>)
    requires HoldsLast(columns, values)
    ensures HoldsLast(columns + [d], values[KeyOf(d) := d])
  {
    NewestIsLast(columns, d);
    forall k
      ensures KeyAmong(k, columns + [d]) <==> KeyAmong(k, columns) || k == KeyOf(d)
    {
      KeysSnoc(columns, d, k);
    }
    forall k | k in values && k != KeyOf(d)
      ensures IsLast(columns + [d], values[k])
    {
      LastSnoc(columns, values[k], d);
    }
  }

  lemma SameKeySameLegs(flights: seq<FlightLeg>, a: seq<FlightLeg>, b: seq<FlightLeg>)
    requires DistinctIds(flights) && FlightIdsOf(a) == FlightIdsOf(b)
    requires (forall leg :: leg in a ==> leg in flights) && (forall leg :: leg in b ==> leg in flights)
    ensures a == b
  {
    assert |a| == |FlightIdsOf(a)| == |b|;
    forall i | 0 <= i < |a|
      ensures a[i] == b[i]
    {
      assert a[i].flightId == FlightIdsOf(a)[i] == FlightIdsOf(b)[i] == b[i].flightId;
      SameIdSameLeg(flights, a[i], b[i]);
    }
  }

  // ----- reading the duties off a feasible point -----

  function PickedDuties(columns: seq<Column>, x: seq<bool>, n: nat): seq<Assignment>
    requires n <= |columns| == |x| && forall c :: c in columns ==> c.legs != []
  {
    if n == 0 then []
    else
      PickedDuties(columns, x, n - 1)
      + (if x[n - 1] then assert columns[n - 1] in columns;
                          [TightDuty(columns[n - 1].crewId, columns[n - 1].legs)] else [])
  }

  ghost predicate PickedBefore(columns: seq<Column>, x: seq<bool>, n: nat, a: Assignment)
    requires n <= |columns| == |x| && forall c :: c in columns ==> c.legs != []
  {
    exists i :: 0 <= i < n && x[i] && columns[i] in columns && a == TightDuty(columns[i].crewId, columns[i].legs)
  }

  lemma PickedBeforeNext(columns: seq<Column>, x: seq<bool>, k: nat, a: Assignment)
    requires k < |columns| == |x| && forall c :: c in columns ==> c.legs != []
    ensures columns[k] in columns
    ensures PickedBefore(columns, x, k + 1, a) <==>
      PickedBefore(columns, x, k, a) || (x[k] && a == TightDuty(columns[k].crewId, columns[k].legs))
  {
    if PickedBefore(columns, x, k, a) {
      var i :| 0 <= i < k && x[i] && columns[i] in columns && a == TightDuty(columns[i].crewId, columns[i].legs);
      assert i < k + 1;
    }
  }

  lemma {:induction false} PickedComesFromColumns(columns: seq<Column>, x: seq<bool>, n: nat, a: Assignment)
    requires n <= |columns| == |x| && forall c :: c in columns ==> c.legs != []
    ensures a in PickedDuties(columns, x, n) <==> PickedBefore(columns, x, n, a)
  {
    if n > 0 {
      PickedComesFromColumns(columns, x, n - 1, a);
      PickedBeforeNext(columns, x, n - 1, a);
    }
  }

  lemma {:induction false} PickedCrewsDistinct(columns: seq<Column>, x: seq<bool>, n: nat)
    requires n <= |columns| == |x| && forall c :: c in columns ==> c.legs != []
    requires forall id :: id in CrewIds(columns) ==> Count(PicksCrew(columns, x, id), |columns|) <= 1
    ensures forall i, j :: 0 <= i < j < |PickedDuties(columns, x, n)| ==>
      PickedDuties(columns, x, n)[i].crewId != PickedDuties(columns, x, n)[j].crewId
  {
    if n > 0 {
      var k := n - 1;
      PickedCrewsDistinct(columns, x, k);
      var before := PickedDuties(columns, x, k);
      if x[k] {
        var id := columns[k].crewId;
        assert columns[k] in columns && id in CrewIds(columns);
        CountAtMostOne(PicksCrew(columns, x, id), |columns|);
        forall i | 0 <= i < |before|
          ensures before[i].crewId != id
        {
          PickedComesFromColumns(columns, x, k, before[i]);
          var m :| 0 <= m < k && x[m] && columns[m] in columns && before[i] == TightDuty(columns[m].crewId, columns[m].legs);
          assert !(PicksCrew(columns, x, id)(m) && PicksCrew(columns, x, id)(k));
        }
      }
    }
  }

  /** A flight is among the legs of the picked duties exactly when a picked column covers it. */
  lemma PickedCoversIff(columns: seq<Column>, x: seq<bool>, n: nat, id: string)
    requires n <= |columns| == |x| && forall c :: c in columns ==> c.legs != []
    ensures id in CoveredIds(PickedDuties(columns, x, n)) <==>
      exists i :: 0 <= i < n && PicksFlight(columns, x, id)(i)
  {
    var duties := PickedDuties(columns, x, n);
    if id in CoveredIds(duties) {
      var leg :| leg in AllLegs(duties) && leg.flightId == id;
      FlatMapMember(LegsOf, duties, leg);
      var k :| 0 <= k < |duties| && leg in LegsOf(duties[k]);
      PickedComesFromColumns(columns, x, n, duties[k]);
      var i :| 0 <= i < n && x[i] && columns[i] in columns && duties[k] == TightDuty(columns[i].crewId, columns[i].legs);
      assert PicksFlight(columns, x, id)(i);
    }
    if i :| 0 <= i < n && PicksFlight(columns, x, id)(i) {
      assert columns[i] in columns;
      var duty := TightDuty(columns[i].crewId, columns[i].legs);
      var j :| 0 <= j < |columns[i].legs| && columns[i].legs[j].flightId == id;
      assert PickedBefore(columns, x, n, duty);
      PickedComesFromColumns(columns, x, n, duty);
      var k :| 0 <= k < |duties| && duties[k] == duty;
      assert columns[i].legs[j] in LegsOf(duties[k]);
      FlatMapMember(LegsOf, duties, columns[i].legs[j]);
    }
  }

  /** At most one picked column covers each flight. */
  ghost predicate CoverAtMostOnce(columns: seq<Column>, x: seq<bool>) {
    forall id :: Count(PicksFlight(columns, x, id), |columns|) <= 1
  }

  lemma {:induction false} PickedLegsDistinct(columns: seq<Column>, x: seq<bool>, n: nat)
    requires n <= |columns| == |x| && forall c :: c in columns ==> c.legs != [] && DistinctIds(c.legs)
    requires CoverAtMostOnce(columns, x)
    ensures DistinctIds(AllLegs(PickedDuties(columns, x, n)))
  {
    if n > 0 {
      var k := n - 1;
      PickedLegsDistinct(columns, x, k);
      if x[k] {
        var before, more := AllLegs(PickedDuties(columns, x, k)), columns[k].legs;
        assert columns[k] in columns;
        var duties := PickedDuties(columns, x, n);
        assert duties[..|duties| - 1] == PickedDuties(columns, x, k);
        assert AllLegs(duties) == before + more;
        forall i, j | 0 <= i < |before| && 0 <= j < |more|
          ensures before[i].flightId != more[j].flightId
        {
          if before[i].flightId == more[j].flightId {
            var id := more[j].flightId;
            assert id in CoveredIds(PickedDuties(columns, x, k));
            PickedCoversIff(columns, x, k, id);
            var m :| 0 <= m < k && PicksFlight(columns, x, id)(m);
            assert PicksFlight(columns, x, id)(k);
            CountAtMostOne(PicksFlight(columns, x, id), |columns|);
          }
        }
      } else {
        assert PickedDuties(columns, x, n) == PickedDuties(columns, x, k);
      }
    }
  }

  lemma LegalColumnFacts(crewPool: seq<CrewMember>, flights: seq<FlightLeg>, columns: seq<Column>)
    requires LegalColumns(crewPool, flights, columns)
    ensures forall c :: c in columns ==>
      c.legs != [] && DistinctIds(c.legs) && forall leg :: leg in c.legs ==> leg in flights
  {
    forall c | c in columns
      ensures c.legs != [] && DistinctIds(c.legs) && forall leg :: leg in c.legs ==> leg in flights
    {
      var crew :| crew in crewPool && LegalColumn(crew, flights, c);
    }
  }

  lemma FeasibleCoversAtMostOnce(crewPool: seq<CrewMember>, flights: seq<FlightLeg>, columns: seq<Column>, p: Point)
    requires LegalColumns(crewPool, flights, columns) && Feasible(columns, flights, p)
    ensures CoverAtMostOnce(columns, p.x)
  {
    forall id
      ensures Count(PicksFlight(columns, p.x, id), |columns|) <= 1
    {
      if id !in Ids(flights) {
        LegalColumnFacts(crewPool, flights, columns);
        forall i | 0 <= i < |columns|
          ensures !PicksFlight(columns, p.x, id)(i)
        {
          assert columns[i] in columns;
          CoversIffId(columns[i], id);
        }
        CountZero(PicksFlight(columns, p.x, id), |columns|);
      }
    }
  }

  /** The covered flights of a feasible point are those whose "uncovered" variable is 0. */
  lemma PointCovers(crewPool: seq<CrewMember>, flights: seq<FlightLeg>, columns: seq<Column>, p: Point)
    requires LegalColumns(crewPool, flights, columns) && Feasible(columns, flights, p)
    requires forall c :: c in columns ==> c.legs != []
    ensures CoveredIds(PickedDuties(columns, p.x, |columns|)) == Ids(flights) - p.uncovered
  {
    LegalColumnFacts(crewPool, flights, columns);
    forall id
      ensures id in CoveredIds(PickedDuties(columns, p.x, |columns|)) <==> id in Ids(flights) && id !in p.uncovered
    {
      var picks := PicksFlight(columns, p.x, id);
      PickedCoversIff(columns, p.x, |columns|, id);
      CountZero(picks, |columns|);
      if i :| 0 <= i < |columns| && picks(i) {
        assert columns[i] in columns;
        CoversIffId(columns[i], id);
      }
    }
  }

  lemma PickedAreLegal(crewPool: seq<CrewMember>, flights: seq<FlightLeg>, columns: seq<Column>, p: Point)
    requires LegalColumns(crewPool, flights, columns) && Feasible(columns, flights, p)
    requires forall c :: c in columns ==> c.legs != []
    ensures LegalSchedule(crewPool, flights, PickedDuties(columns, p.x, |columns|))
  {
    var duties := PickedDuties(columns, p.x, |columns|);
    PickedCrewsDistinct(columns, p.x, |columns|);
    forall a | a in duties
      ensures exists crew :: crew in crewPool && LegalAssignment(crew, flights, a)
    {
      PickedComesFromColumns(columns, p.x, |columns|, a);
      var i :| 0 <= i < |columns| && p.x[i] && columns[i] in columns && a == TightDuty(columns[i].crewId, columns[i].legs);
      var crew :| crew in crewPool && LegalColumn(crew, flights, columns[i]);
      assert LegalAssignment(crew, flights, a);
    }
  }

  /** Every feasible point is a schedule: legal, one duty per crew, and every flight covered once or left over. */
  lemma FeasiblePointIsSchedule(crewPool: seq<CrewMember>, flights: seq<FlightLeg>, columns: seq<Column>, p: Point)
    requires DistinctIds(flights) && LegalColumns(crewPool, flights, columns) && Feasible(columns, flights, p)
    requires forall c :: c in columns ==> c.legs != []
    ensures var duties := PickedDuties(columns, p.x, |columns|);
      var rest := UncoveredFlights(flights, CoveredIds(duties));
      && Schedule(crewPool, flights, duties, rest)
      && CoveredIds(duties) == Ids(flights) - p.uncovered
      && |rest| == |flights| - |CoveredIds(duties)|
  {
    var duties := PickedDuties(columns, p.x, |columns|);
    PickedAreLegal(crewPool, flights, columns, p);
    PointCovers(crewPool, flights, columns, p);
    LegalColumnFacts(crewPool, flights, columns);
    FeasibleCoversAtMostOnce(crewPool, flights, columns, p);
    PickedLegsDistinct(columns, p.x, |columns|);
    forall leg | leg in AllLegs(duties)
      ensures leg in flights
    {
      FlatMapMember(LegsOf, duties, leg);
      var k :| 0 <= k < |duties| && leg in LegsOf(duties[k]);
      PickedComesFromColumns(columns, p.x, |columns|, duties[k]);
    }
    CoveredAndUncovered(flights, duties);
  }

  // ----- what a selection costs -----

  /** The price of a schedule: that of its duties together. */
  ghost function TotalPrice(duties: seq<Assignment>): int { Total(Price, duties) }

  /** The columns picked cost what their duties do. */
  lemma SelectionPrice(crewPool: seq<CrewMember>, flights: seq<FlightLeg>, columns: seq<Column>, x: seq<bool>, n: nat)
    requires LegalColumns(crewPool, flights, columns) && n <= |columns| == |x|
    requires forall c :: c in columns ==> c.legs != []
    ensures SelectedCost(columns, x, n) == TotalPrice(PickedDuties(columns, x, n))
  {
    forall c | c in columns
      ensures c.cost == Price(TightDuty(c.crewId, c.legs))
    {
      var crew :| crew in crewPool && LegalColumn(crew, flights, c);
    }
    PickedPrice(columns, x, n);
  }

  lemma {:induction false} PickedPrice(columns: seq<Column>, x: seq<bool>, n: nat)
    requires n <= |columns| == |x|
    requires forall c :: c in columns ==> c.legs != [] && c.cost == Price(TightDuty(c.crewId, c.legs))
    ensures SelectedCost(columns, x, n) == TotalPrice(PickedDuties(columns, x, n))
  {
    if n > 0 {
      var k := n - 1;
      PickedPrice(columns, x, k);
      TotalSnoc(Price, PickedDuties(columns, x, k), TightDuty(columns[k].crewId, columns[k].legs));
      assert PickedDuties(columns, x, k) + [] == PickedDuties(columns, x, k);
    }
  }

  /** A column of the lineup stands for the duty it matches. */
  lemma MatchedDuty(crewPool: seq<CrewMember>, flights: seq<FlightLeg>, duties: seq<Assignment>, c: Column)
    requires LegalSchedule(crewPool, flights, duties) && InLineup(c, duties)
    ensures c.legs != [] && TightDuty(c.crewId, c.legs) in duties
  {
    var k :| 0 <= k < |duties| && Matches(c, duties[k]);
    assert duties[k] in duties;
    var crew :| crew in crewPool && LegalAssignment(crew, flights, duties[k]);
  }

  lemma LineupPicks(crewPool: seq<CrewMember>, flights: seq<FlightLeg>, columns: seq<Column>, duties: seq<Assignment>)
    requires LegalColumns(crewPool, flights, columns) && NoDuplicates(columns) && Lineup(crewPool, flights, duties)
    requires forall c :: c in columns ==> c.legs != []
    ensures
      var picked := PickedDuties(columns, LineupPoint(columns, flights, duties).x, |columns|);
      Distinct(picked) && forall a :: a in picked ==> a in duties
  {
    var q := LineupPoint(columns, flights, duties);
    var picked := PickedDuties(columns, q.x, |columns|);
    LineupPointIsFeasible(crewPool, flights, duties, columns);
    PickedCrewsDistinct(columns, q.x, |columns|);
    forall a | a in picked
      ensures a in duties
    {
      PickedComesFromColumns(columns, q.x, |columns|, a);
      var i :| 0 <= i < |columns| && q.x[i] && columns[i] in columns && a == TightDuty(columns[i].crewId, columns[i].legs);
      MatchedDuty(crewPool, flights, duties, columns[i]);
    }
  }

  lemma PricesArePositive(crewPool: seq<CrewMember>, flights: seq<FlightLeg>, duties: seq<Assignment>)
    requires LegalSchedule(crewPool, flights, duties)
    ensures forall a :: a in duties ==> Price(a) >= 0
  {
    forall a | a in duties
      ensures Price(a) >= 0
    {
      var crew :| crew in crewPool && LegalAssignment(crew, flights, a);
      PriceBound(crew, a.legs);
    }
  }

  /** The columns that make up a schedule cost no more than the schedule. */
  lemma LineupCost(crewPool: seq<CrewMember>, flights: seq<FlightLeg>, columns: seq<Column>, duties: seq<Assignment>)
    requires LegalColumns(crewPool, flights, columns) && NoDuplicates(columns) && Lineup(crewPool, flights, duties)
    requires forall c :: c in columns ==> c.legs != []
    ensures SelectedCost(columns, LineupPoint(columns, flights, duties).x, |columns|) <= TotalPrice(duties)
  {
    var x := LineupPoint(columns, flights, duties).x;
    SelectionPrice(crewPool, flights, columns, x, |columns|);
    LineupPicks(crewPool, flights, columns, duties);
    PricesArePositive(crewPool, flights, duties);
    TotalOfSome(Price, PickedDuties(columns, x, |columns|), duties);
  }

  /** No schedule made of the columns covers more flights than an optimal selection, or as many at a lower price. */
  ghost predicate NoBetter(duties: seq<Assignment>, covered: nat, others: seq<Assignment>) {
    && |CoveredIds(others)| <= covered
    && (|CoveredIds(others)| == covered ==> TotalPrice(duties) <= TotalPrice(others))
  }

  lemma OptimalIsBest(crewPool: seq<CrewMember>, flights: seq<FlightLeg>, columns: seq<Column>, p: Point,
                      others: seq<Assignment>)
    requires LegalColumns(crewPool, flights, columns) && NoDuplicates(columns) && |crewPool| <= 555
    requires forall c :: c in columns ==> c.legs != []
    requires Optimal(columns, flights, p) && Lineup(crewPool, flights, others) && Offered(columns, others)
    ensures NoBetter(PickedDuties(columns, p.x, |columns|), |Ids(flights) - p.uncovered|, others)
  {
    OptimalBeatsLineup(crewPool, flights, columns, p, others);
    SelectionPrice(crewPool, flights, columns, p.x, |columns|);
    LineupCost(crewPool, flights, columns, others);
  }

  lemma OrderKeepsPrice(crewPool: seq<CrewMember>, flights: seq<FlightLeg>, duties: seq<Assignment>)
    requires LegalSchedule(crewPool, flights, duties)
    ensures TotalPrice(Rearranged(duties)) == TotalPrice(duties)
  {
    forall a | a in duties
      ensures Price(a.(legs := ByDeparture(a.legs))) == Price(a)
    {
      var crew :| crew in crewPool && LegalAssignment(crew, flights, a);
      OrderedDuty(crew, flights, a);
    }
    RearrangedPrice(duties);
  }

  lemma {:induction false} RearrangedPrice(duties: seq<Assignment>)
    requires forall a :: a in duties ==> Price(a.(legs := ByDeparture(a.legs))) == Price(a)
    ensures TotalPrice(Rearranged(duties)) == TotalPrice(duties)
  {
    if duties != [] {
      var n := |duties| - 1;
      RearrangedPrice(duties[..n]);
      TotalSnoc(Price, Rearranged(duties[..n]), duties[n].(legs := ByDeparture(duties[n].legs)));
    }
  }

  lemma OptimalBeatsRoster(crewPool: seq<CrewMember>, flights: seq<FlightLeg>, columns: seq<Column>, p: Point,
                           others: seq<Assignment>)
    requires LegalColumns(crewPool, flights, columns) && NoDuplicates(columns) && |crewPool| <= 555
    requires forall c :: c in columns ==> c.legs != []
    requires CompleteColumns(crewPool, flights, columns) && LocationsKnown(crewPool)
    requires Optimal(columns, flights, p) && Roster(crewPool, flights, others)
    ensures NoBetter(PickedDuties(columns, p.x, |columns|), |Ids(flights) - p.uncovered|, others)
  {
    OrderedLineup(crewPool, flights, others);
    RosterIsOffered(crewPool, flights, columns, others);
    OrderKeepsIds(others);
    OrderKeepsPrice(crewPool, flights, others);
    OptimalIsBest(crewPool, flights, columns, p, Rearranged(others));
  }

  lemma OptimalBeatsRosters(crewPool: seq<CrewMember>, flights: seq<FlightLeg>, columns: seq<Column>, p: Point)
    requires LegalColumns(crewPool, flights, columns) && NoDuplicates(columns) && |crewPool| <= 555
    requires forall c :: c in columns ==> c.legs != []
    requires CompleteColumns(crewPool, flights, columns) && LocationsKnown(crewPool) && Optimal(columns, flights, p)
    ensures BeatsRosters(crewPool, flights, PickedDuties(columns, p.x, |columns|), |Ids(flights) - p.uncovered|)
  {
    forall others | Roster(crewPool, flights, others)
      ensures NoBetter(PickedDuties(columns, p.x, |columns|), |Ids(flights) - p.uncovered|, others)
    {
      OptimalBeatsRoster(crewPool, flights, columns, p, others);
    }
  }

  /** No legal schedule of duties of up to four legs covers more flights, or as many at a lower price. */
  ghost predicate BeatsRosters(crewPool: seq<CrewMember>, flights: seq<FlightLeg>, duties: seq<Assignment>, covered: nat) {
    forall others :: Roster(crewPool, flights, others) ==> NoBetter(duties, covered, others)
  }

  // ----- the columns handed to the master -----

  method IncumbentColumns(crewPool: seq<CrewMember>, flights: seq<FlightLeg>, incumbent: seq<Assignment>)
    returns (columns: seq<Column>)
    requires LegalSchedule(crewPool, flights, incumbent)
    ensures LegalColumns(crewPool, flights, columns) && Offered(columns, incumbent)
  {
    columns := [];
    for i := 0 to |incumbent|
      invariant LegalColumns(crewPool, flights, columns) && Offered(columns, incumbent[..i])
    {
      var a := incumbent[i];
      var column := Column(a.crewId, a.legs, DutyCost(a.legs));
      assert a in incumbent;
      DutyAsColumn(crewPool, flights, a);
      OneMoreOffered(columns, column, incumbent[..i], a);
      assert incumbent[..i + 1] == incumbent[..i] + [a];
      columns := columns + [column];
    }
    assert incumbent[..|incumbent|] == incumbent;
  }

  lemma DutyAsColumn(crewPool: seq<CrewMember>, flights: seq<FlightLeg>, a: Assignment)
    requires exists crew :: crew in crewPool && LegalAssignment(crew, flights, a)
    ensures Matches(Column(a.crewId, a.legs, DutyCost(a.legs)), a)
    ensures exists crew :: crew in crewPool && LegalColumn(crew, flights, Column(a.crewId, a.legs, DutyCost(a.legs)))
  {
    var crew :| crew in crewPool && LegalAssignment(crew, flights, a);
    CostIsPrice(crew.crewId, a.legs);
  }

  lemma OneMoreOffered(columns: seq<Column>, column: Column, duties: seq<Assignment>, duty: Assignment)
    requires Offered(columns, duties) && Matches(column, duty)
    ensures Offered(columns + [column], duties + [duty])
  {
    StillOffered(columns, [column], duties);
    assert column in columns + [column];
  }

  lemma StillOffered(columns: seq<Column>, more: seq<Column>, duties: seq<Assignment>)
    requires Offered(columns, duties)
    ensures Offered(columns + more, duties)
  {
    forall k | 0 <= k < |duties|
      ensures HasColumn(columns + more, duties[k])
    {
      assert HasColumn(columns, duties[k]);
      var c :| c in columns && Matches(c, duties[k]);
      assert c in columns + more;
    }
  }

  ghost predicate CrewComplete(crew: CrewMember, flights: seq<FlightLeg>, columns: seq<Column>) {
    forall legs :: Chain(crew, flights, legs) && |legs| <= 4 ==>
      exists c :: c in columns && c.crewId == crew.crewId && c.legs == legs
  }

  lemma GeneratedColumns(crewPool: seq<CrewMember>, flights: seq<FlightLeg>, columns: seq<Column>, crew: CrewMember,
                         more: seq<Column>)
    requires crew in crewPool && LegalColumns(crewPool, flights, columns) && SoundColumns(crew, flights, more, 4)
    ensures LegalColumns(crewPool, flights, columns + more)
  {
    forall c | c in columns + more
      ensures exists crew :: crew in crewPool && LegalColumn(crew, flights, c)
    {
      if c in more {
        SoundColumnIsLegal(crew, flights, c);
      }
    }
  }

  method CollectColumns(crewPool: seq<CrewMember>, flights: seq<FlightLeg>, incumbent: seq<Assignment>, budgeted: bool)
    returns (columns: seq<Column>)
    requires LegalSchedule(crewPool, flights, incumbent)
    ensures LegalColumns(crewPool, flights, columns) && Offered(columns, incumbent)
    ensures !budgeted ==> CompleteColumns(crewPool, flights, columns)
  {
    columns := IncumbentColumns(crewPool, flights, incumbent);
    for i := 0 to |crewPool|
      invariant LegalColumns(crewPool, flights, columns) && Offered(columns, incumbent)
      invariant !budgeted ==> forall crew :: crew in crewPool[..i] ==> CrewComplete(crew, flights, columns)
    {
      var late := DeadlinePassed(budgeted);
      if late {
        break;
      }
      var crew := crewPool[i];
      var more := GenerateColumnsForCrew(crew, flights, budgeted);
      GeneratedColumns(crewPool, flights, columns, crew, more);
      if !budgeted {
        MoreColumnsKeepComplete(flights, crewPool[..i], columns, more);
        GeneratorIsComplete(crew, flights, columns, more);
      }
      assert crewPool[..i + 1] == crewPool[..i] + [crew];
      StillOffered(columns, more, incumbent);
      columns := columns + more;
    }
    assert crewPool[..|crewPool|] == crewPool;
  }

  lemma GeneratorIsComplete(crew: CrewMember, flights: seq<FlightLeg>, columns: seq<Column>, more: seq<Column>)
    requires SoundColumns(crew, flights, more, 4)
    requires forall legs :: Offers(more, legs) <==> Chain(crew, flights, legs) && |legs| <= 4
    ensures CrewComplete(crew, flights, columns + more)
  {
    forall legs | Chain(crew, flights, legs) && |legs| <= 4
      ensures exists c :: c in columns + more && c.crewId == crew.crewId && c.legs == legs
    {
      assert Offers(more, legs);
      var c :| c in more && c.legs == legs;
      assert c in columns + more;
    }
  }

  lemma MoreColumnsKeepComplete(flights: seq<FlightLeg>, crews: seq<CrewMember>, columns: seq<Column>, more: seq<Column>)
    requires forall crew :: crew in crews ==> CrewComplete(crew, flights, columns)
    ensures forall crew :: crew in crews ==> CrewComplete(crew, flights, columns + more)
  {
    forall crew, legs | crew in crews && Chain(crew, flights, legs) && |legs| <= 4
      ensures exists c :: c in columns + more && c.crewId == crew.crewId && c.legs == legs
    {
      assert CrewComplete(crew, flights, columns);
      var c :| c in columns && c.crewId == crew.crewId && c.legs == legs;
      assert c in columns + more;
    }
  }

  /** A duty among the columns is still there when duplicates are dropped. */
  lemma UniqueKeepsDuty(crewPool: seq<CrewMember>, flights: seq<FlightLeg>, columns: seq<Column>, unique: seq<Column>, c: Column)
    requires DistinctIds(flights) && LegalColumns(crewPool, flights, columns) && c in columns
    requires (forall u :: u in unique ==> u in columns) && KeyAmong(KeyOf(c), unique)
    ensures exists u :: u in unique && u.crewId == c.crewId && u.legs == c.legs
  {
    var u :| u in unique && KeyOf(u) == KeyOf(c);
    LegalColumnFacts(crewPool, flights, columns);
    SameKeySameLegs(flights, u.legs, c.legs);
  }

  /** Dropping duplicates loses no duty. */
  lemma UniqueKeepsEverything(crewPool: seq<CrewMember>, flights: seq<FlightLeg>, columns: seq<Column>, unique: seq<Column>,
                              duties: seq<Assignment>)
    requires DistinctIds(flights) && LegalColumns(crewPool, flights, columns) && Offered(columns, duties)
    requires forall c :: c in unique ==> c in columns
    requires forall c :: c in columns ==> KeyAmong(KeyOf(c), unique)
    requires KeysDistinct(unique)
    ensures LegalColumns(crewPool, flights, unique) && NoDuplicates(unique) && Offered(unique, duties)
    ensures CompleteColumns(crewPool, flights, columns) ==> CompleteColumns(crewPool, flights, unique)
  {
    forall i, j | 0 <= i < j < |unique|
      ensures !SameDuty(unique[i], unique[j])
    {
      assert KeyOf(unique[i]) != KeyOf(unique[j]);
    }
    forall k | 0 <= k < |duties|
      ensures HasColumn(unique, duties[k])
    {
      assert HasColumn(columns, duties[k]);
      var c :| c in columns && Matches(c, duties[k]);
      UniqueKeepsDuty(crewPool, flights, columns, unique, c);
    }
    if CompleteColumns(crewPool, flights, columns) {
      forall crew, legs | crew in crewPool && Chain(crew, flights, legs) && |legs| <= 4
        ensures exists c :: c in unique && c.crewId == crew.crewId && c.legs == legs
      {
        var c :| c in columns && c.crewId == crew.crewId && c.legs == legs;
        UniqueKeepsDuty(crewPool, flights, columns, unique, c);
      }
    }
  }

  // ----- the solve method -----

  /** The incumbent and whatever it leaves open. */
  method KeepIncumbent(crewPool: seq<CrewMember>, flights: seq<FlightLeg>, incumbent: seq<Assignment>, status: Status)
    returns (r: OptimizationResult)
    requires DistinctIds(flights) && LegalSchedule(crewPool, flights, incumbent)
    requires DistinctIds(AllLegs(incumbent)) && forall leg :: leg in AllLegs(incumbent) ==> leg in flights
    ensures r.status == status && r.assignments == incumbent
    ensures Schedule(crewPool, flights, r.assignments, r.uncovered)
    ensures |r.uncovered| == |flights| - |CoveredIds(incumbent)|
  {
    CoveredAndUncovered(flights, incumbent);
    r := OptimizationResult(incumbent, UncoveredFlights(flights, CoveredIds(incumbent)), status);
  }

  /** What the status says about the solver's answer. */
  ghost predicate StatusFits(status: Status, outcome: MilpOutcome) {
    match status
    case StatusSolverUnavailable => outcome.SolverFailed?
    case StatusOptimal => outcome.Loaded? && outcome.termination.OptimalTermination?
    case StatusFeasible => outcome.Loaded? && outcome.termination.OtherTermination?
    case StatusTimeboxedFeasible => outcome.NothingLoaded? || (outcome.Loaded? && outcome.termination.TimeTermination?)
  }

  /** What covers more than the best rosters is not matched by any. */
  lemma WorseIsOutdone(crewPool: seq<CrewMember>, flights: seq<FlightLeg>, duties: seq<Assignment>, covered: nat,
                       better: seq<Assignment>, more: nat)
    requires covered < more
    ensures BeatsRosters(crewPool, flights, duties, covered) ==> BeatsRosters(crewPool, flights, better, more)
  {
    if BeatsRosters(crewPool, flights, duties, covered) {
      forall others | Roster(crewPool, flights, others)
        ensures NoBetter(better, more, others)
      {
        assert NoBetter(duties, covered, others);
      }
    }
  }

  /** The best of the MILP's answer and the incumbent. Whatever the solver and the clock do, the result is a schedule
      that covers no fewer flights than the incumbent. With an optimal solver and at most 555 crew members it costs no
      more than an incumbent of equal coverage; without time pressure and with known locations no legal schedule of
      duties of up to four legs covers more flights, or as many at a lower price. */
  method Solve(crewPool: seq<CrewMember>, flights: seq<FlightLeg>, incumbent: seq<Assignment>, budgeted: bool, milp: Milp)
    returns (r: OptimizationResult, ghost columns: seq<Column>)
    requires DistinctIds(flights) && LegalSchedule(crewPool, flights, incumbent)
    requires DistinctIds(AllLegs(incumbent)) && forall leg :: leg in AllLegs(incumbent) ==> leg in flights
    requires FeasibleSolver(milp, flights)
    ensures Schedule(crewPool, flights, r.assignments, r.uncovered) && |r.uncovered| <= |flights|
    ensures |r.uncovered| <= |flights| - |CoveredIds(incumbent)|
    ensures OptimalSolver(milp, flights) && |crewPool| <= 555
      ==> NoBetter(r.assignments, |flights| - |r.uncovered|, incumbent)
    ensures !budgeted && OptimalSolver(milp, flights) && LocationsKnown(crewPool) && |crewPool| <= 555
      ==> BeatsRosters(crewPool, flights, r.assignments, |flights| - |r.uncovered|)
    ensures LegalColumns(crewPool, flights, columns) && StatusFits(r.status, milp(columns, flights))
    ensures !milp(columns, flights).Loaded? ==> r.assignments == incumbent
  {
    var incumbentCovered := CoveredIds(incumbent);
    var collected := CollectColumns(crewPool, flights, incumbent, budgeted);
    var unique := Deduplicate(collected);
    columns := unique;
    UniqueKeepsEverything(crewPool, flights, collected, unique, incumbent);
    LegalColumnFacts(crewPool, flights, unique);
    var outcome := milp(unique, flights);
    match outcome
    case SolverFailed =>
      r := KeepIncumbent(crewPool, flights, incumbent, StatusSolverUnavailable);
    case NothingLoaded =>
      r := KeepIncumbent(crewPool, flights, incumbent, StatusTimeboxedFeasible);
    case Loaded(point, termination) =>
      FeasiblePointIsSchedule(crewPool, flights, unique, point);
      var duties := PickedDuties(unique, point.x, |unique|);
      var covered := CoveredIds(duties);
      var status := match termination
        case OptimalTermination => StatusOptimal
        case TimeTermination => StatusTimeboxedFeasible
        case OtherTermination => StatusFeasible;
      if OptimalSolver(milp, flights) && |crewPool| <= 555 {
        OptimalIsBest(crewPool, flights, unique, point, incumbent);
        if !budgeted && LocationsKnown(crewPool) {
          OptimalBeatsRosters(crewPool, flights, unique, point);
        }
      }
      if |covered| < |incumbentCovered| {
        r := KeepIncumbent(crewPool, flights, incumbent, status);
        WorseIsOutdone(crewPool, flights, duties, |covered|, incumbent, |incumbentCovered|);
      } else {
        r := OptimizationResult(duties, UncoveredFlights(flights, covered), status);
      }
  }
}
