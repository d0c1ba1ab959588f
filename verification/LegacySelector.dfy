/** The greedy selector that preceded the MILP master (solvers/tier2.py, ColumnGenerationSolver). */
module LegacySelector {
  import opened Sequences
  import opened RulesEngine
  import opened LegalityProperties
  import opened ColumnGeneration
  import opened Schedules
  import opened RestrictedMaster
  import opened Tier2

  /** The columns taken so far, with the flight ids and crew ids they use up. */
  datatype Selection = Selection(picked: seq<Column>, covered: set<string>, used: set<string>)

  predicate Fits(s: Selection, c: Column) {
    c.crewId !in s.used && forall leg :: leg in c.legs ==> leg.flightId !in s.covered
  }

  function CoversFlight(flightId: string): Column -> bool {
    (c: Column) => Covers(c, flightId)
  }

  /** A picked column as a duty, its legs in order of departure. */
  function DutyOf(c: Column): Assignment {
    Assignment(c.crewId, ByDeparture(c.legs),
               if c.legs == [] then 0 else Earliest(c.legs), if c.legs == [] then 0 else Latest(c.legs))
  }

  function DutiesOf(picked: seq<Column>): seq<Assignment> {
    if picked == [] then [] else DutiesOf(picked[..|picked| - 1]) + [DutyOf(picked[|picked| - 1])]
  }

  lemma LegalColumnGivesDuty(crew: CrewMember, flights: seq<FlightLeg>, c: Column)
    requires LegalColumn(crew, flights, c)
    ensures LegalAssignment(crew, flights, DutyOf(c)) && multiset(DutyOf(c).legs) == multiset(c.legs)
  {
    var sorted := ByDeparture(c.legs);
    SortedIsPermutation(DepartsNoLater, c.legs);
    PermutationMembers(sorted, c.legs);
    WindowIgnoresOrder(c.legs, sorted);
    DistinctIdsPermutation(c.legs, sorted);
    LegalityIgnoresLegOrder(crew, TightDuty(crew.crewId, c.legs), sorted);
    assert TightDuty(crew.crewId, c.legs).(legs := sorted) == TightDuty(crew.crewId, sorted);
  }

  /** The ids on record are those of the picked duties, whose legs are distinct flights of the input. */
  ghost predicate Recorded(flights: seq<FlightLeg>, s: Selection) {
    var duties := DutiesOf(s.picked);
    && DistinctIds(AllLegs(duties))
    && (forall leg :: leg in AllLegs(duties) ==> leg in flights)
    && s.covered == CoveredIds(duties)
    && s.used == set d | d in duties :: d.crewId
  }

  /** What the picked columns are at any time: a schedule, with the used-up ids on record. */
  ghost predicate Selected(crewPool: seq<CrewMember>, flights: seq<FlightLeg>, s: Selection) {
    LegalSchedule(crewPool, flights, DutiesOf(s.picked)) && Recorded(flights, s)
  }

  function WithColumn(s: Selection, c: Column): Selection {
    Selection(s.picked + [c], s.covered + Ids(c.legs), s.used + {c.crewId})
  }

  lemma DistinctJoin(xs: seq<FlightLeg>, ys: seq<FlightLeg>)
    requires DistinctIds(xs) && DistinctIds(ys)
    requires forall x, y :: x in xs && y in ys ==> x.flightId != y.flightId
    ensures DistinctIds(xs + ys)
  {
    var all := xs + ys;
    forall i, j | 0 <= i < j < |all|
      ensures all[i].flightId != all[j].flightId
    {
      if i < |xs| <= j {
        assert all[i] in xs && all[j] in ys;
      }
    }
  }

  lemma OneMoreDuty(crewPool: seq<CrewMember>, flights: seq<FlightLeg>, duties: seq<Assignment>, d: Assignment)
    requires LegalSchedule(crewPool, flights, duties)
    requires exists crew :: crew in crewPool && LegalAssignment(crew, flights, d)
    requires forall a :: a in duties ==> a.crewId != d.crewId
    ensures LegalSchedule(crewPool, flights, duties + [d])
  {
    assert forall a :: a in duties + [d] ==> a in duties || a == d;
  }

  lemma IdsOfJoin(xs: seq<FlightLeg>, ys: seq<FlightLeg>)
    ensures Ids(xs + ys) == Ids(xs) + Ids(ys)
  {
    assert forall x :: x in xs + ys <==> x in xs || x in ys;
  }

  lemma DutiesSnoc(picked: seq<Column>, c: Column)
    ensures DutiesOf(picked + [c]) == DutiesOf(picked) + [DutyOf(c)]
    ensures AllLegs(DutiesOf(picked + [c])) == AllLegs(DutiesOf(picked)) + DutyOf(c).legs
  {
    assert (picked + [c])[..|picked|] == picked;
    var duties := DutiesOf(picked);
    assert (duties + [DutyOf(c)])[..|duties|] == duties;
  }

  lemma PickKeepsLegs(s: Selection, c: Column, before: seq<FlightLeg>, legs: seq<FlightLeg>)
    requires DistinctIds(before) && s.covered == Ids(before) && Fits(s, c)
    requires DistinctIds(legs) && multiset(legs) == multiset(c.legs)
    ensures DistinctIds(before + legs) && Ids(before + legs) == s.covered + Ids(c.legs)
  {
    PermutationMembers(legs, c.legs);
    assert Ids(legs) == Ids(c.legs);
    IdsOfJoin(before, legs);
    LegsAreApart(s, before, legs, c);
    DistinctJoin(before, legs);
  }

  lemma CrewIdsSnoc(duties: seq<Assignment>, d: Assignment)
    ensures (set a | a in duties + [d] :: a.crewId) == (set a | a in duties :: a.crewId) + {d.crewId}
  {
    assert forall a :: a in duties + [d] <==> a in duties || a == d;
  }

  lemma PickKeepsRecord(crewPool: seq<CrewMember>, flights: seq<FlightLeg>, s: Selection, c: Column)
    requires Recorded(flights, s) && Fits(s, c) && HasLegalColumn(crewPool, flights, c)
    ensures Recorded(flights, WithColumn(s, c))
  {
    var duties, d := DutiesOf(s.picked), DutyOf(c);
    ColumnGivesDuty(crewPool, flights, c);
    DutiesSnoc(s.picked, c);
    PickKeepsLegs(s, c, AllLegs(duties), d.legs);
    CrewIdsSnoc(duties, d);
  }

  lemma PickKeepsSchedule(crewPool: seq<CrewMember>, flights: seq<FlightLeg>, s: Selection, c: Column)
    requires LegalSchedule(crewPool, flights, DutiesOf(s.picked)) && HasLegalColumn(crewPool, flights, c)
    requires forall d :: d in DutiesOf(s.picked) ==> d.crewId != c.crewId
    ensures LegalSchedule(crewPool, flights, DutiesOf(s.picked + [c]))
  {
    var crew :| crew in crewPool && LegalColumn(crew, flights, c);
    LegalColumnGivesDuty(crew, flights, c);
    DutiesSnoc(s.picked, c);
    OneMoreDuty(crewPool, flights, DutiesOf(s.picked), DutyOf(c));
  }

  lemma UsedCrewsAreOut(flights: seq<FlightLeg>, s: Selection, c: Column)
    requires Recorded(flights, s) && Fits(s, c)
    ensures forall d :: d in DutiesOf(s.picked) ==> d.crewId != c.crewId
  {
  }

  lemma PickKeepsSelected(crewPool: seq<CrewMember>, flights: seq<FlightLeg>, s: Selection, c: Column)
    requires Selected(crewPool, flights, s) && Fits(s, c) && HasLegalColumn(crewPool, flights, c)
    ensures Selected(crewPool, flights, WithColumn(s, c))
  {
    UsedCrewsAreOut(flights, s, c);
    PickKeepsSchedule(crewPool, flights, s, c);
    PickKeepsRecord(crewPool, flights, s, c);
  }

  ghost predicate HasLegalColumn(crewPool: seq<CrewMember>, flights: seq<FlightLeg>, c: Column) {
    exists crew :: crew in crewPool && LegalColumn(crew, flights, c)
  }

  lemma ColumnGivesDuty(crewPool: seq<CrewMember>, flights: seq<FlightLeg>, c: Column)
    requires HasLegalColumn(crewPool, flights, c)
    ensures multiset(DutyOf(c).legs) == multiset(c.legs) && DistinctIds(DutyOf(c).legs)
    ensures forall leg :: leg in DutyOf(c).legs ==> leg in flights
  {
    var crew :| crew in crewPool && LegalColumn(crew, flights, c);
    LegalColumnGivesDuty(crew, flights, c);
  }

  lemma NothingSelected(crewPool: seq<CrewMember>, flights: seq<FlightLeg>)
    ensures Selected(crewPool, flights, Selection([], {}, {}))
  {
  }

  lemma LegsAreApart(s: Selection, before: seq<FlightLeg>, legs: seq<FlightLeg>, c: Column)
    requires Fits(s, c) && s.covered == Ids(before) && forall leg :: leg in legs ==> leg in c.legs
    ensures forall x, y :: x in before && y in legs ==> x.flightId != y.flightId
  {
    forall x, y | x in before && y in legs
      ensures x.flightId != y.flightId
    {
      assert x.flightId in s.covered;
    }
  }

  /** The k-th column fits, any earlier one that fits costs more, and no later one costs less. */
  ghost predicate FirstCheapest(candidates: seq<Column>, s: Selection, k: int) {
    && 0 <= k < |candidates| && Fits(s, candidates[k])
    && (forall j :: 0 <= j < k && Fits(s, candidates[j]) ==> candidates[k].cost < candidates[j].cost)
    && (forall j :: k < j < |candidates| && Fits(s, candidates[j]) ==> candidates[k].cost <= candidates[j].cost)
  }

  ghost predicate IsChoice(candidates: seq<Column>, s: Selection, best: Option<Column>) {
    if best.None? then forall j :: 0 <= j < |candidates| ==> !Fits(s, candidates[j])
    else exists k :: FirstCheapest(candidates, s, k) && best.value == candidates[k]
  }

  /** The cheapest column that still fits, the first among equals. */
  method BestColumn(candidates: seq<Column>, s: Selection) returns (best: Option<Column>)
    ensures IsChoice(candidates, s, best)
  {
    best := None;
    ghost var at: nat := 0;
    for i := 0 to |candidates|
      invariant best.None? ==> forall j :: 0 <= j < i ==> !Fits(s, candidates[j])
      invariant best.Some? ==>
        at < i && best.value == candidates[at] && FirstCheapest(candidates[..i], s, at)
    {
      assert candidates[..i + 1][..i] == candidates[..i];
      var c := candidates[i];
      if exists leg :: leg in c.legs && leg.flightId in s.covered {
        continue;
      }
      if c.crewId in s.used {
        continue;
      }
      if best.None? || c.cost < best.value.cost {
        best := Some(c);
        at := i;
      }
    }
    assert candidates[..|candidates|] == candidates;
  }

  /** No column over the given flights can be added any more. */
  ghost predicate Exhausted(columns: seq<Column>, s: Selection, flights: seq<FlightLeg>) {
    forall c, leg :: c in columns && leg in flights && Covers(c, leg.flightId) ==> !Fits(s, c)
  }

  lemma ExhaustedGrows(columns: seq<Column>, s: Selection, t: Selection, flights: seq<FlightLeg>)
    requires Exhausted(columns, s, flights) && s.covered <= t.covered && s.used <= t.used
    ensures Exhausted(columns, t, flights)
  {
    forall c, leg | c in columns && leg in flights && Covers(c, leg.flightId)
      ensures !Fits(t, c)
    {
      assert !Fits(s, c);
    }
  }

  lemma FlightIsExhausted(columns: seq<Column>, s: Selection, flight: FlightLeg)
    requires flight.flightId in s.covered
    ensures Exhausted(columns, s, [flight])
  {
    forall c | c in columns && Covers(c, flight.flightId)
      ensures !Fits(s, c)
    {
      var i :| 0 <= i < |c.legs| && c.legs[i].flightId == flight.flightId;
      assert c.legs[i] in c.legs;
    }
  }

  /** An uncovered flight gets the first cheapest of the fitting columns over it, if there is one. */
  ghost predicate GreedyStep(columns: seq<Column>, s: Selection, flight: FlightLeg, t: Selection) {
    var candidates := Filter(CoversFlight(flight.flightId), columns);
    if flight.flightId in s.covered || IsChoice(candidates, s, None) then t == s
    else exists k :: FirstCheapest(candidates, s, k) && t == WithColumn(s, candidates[k])
  }

  /** The flights are served in the order given, each by a greedy step. */
  ghost predicate GreedyRun(columns: seq<Column>, ordered: seq<FlightLeg>, s: Selection) {
    if ordered == [] then s == Selection([], {}, {})
    else
      var n := |ordered| - 1;
      exists before :: GreedyRun(columns, ordered[..n], before) && GreedyStep(columns, before, ordered[n], s)
  }

  lemma OneMoreStep(columns: seq<Column>, ordered: seq<FlightLeg>, k: nat, s: Selection, t: Selection)
    requires k < |ordered| && GreedyRun(columns, ordered[..k], s) && GreedyStep(columns, s, ordered[k], t)
    ensures GreedyRun(columns, ordered[..k + 1], t)
  {
    assert ordered[..k + 1][..k] == ordered[..k];
  }

  lemma OneMoreExhausted(columns: seq<Column>, ordered: seq<FlightLeg>, k: nat, s: Selection, t: Selection)
    requires k < |ordered| && Exhausted(columns, s, ordered[..k]) && Exhausted(columns, t, [ordered[k]])
    requires s.covered <= t.covered && s.used <= t.used
    ensures Exhausted(columns, t, ordered[..k + 1])
  {
    ExhaustedGrows(columns, s, t, ordered[..k]);
    assert ordered[..k + 1] == ordered[..k] + [ordered[k]];
  }

  lemma CandidatesCover(columns: seq<Column>, flightId: string)
    ensures forall c :: c in Filter(CoversFlight(flightId), columns) <==> c in columns && Covers(c, flightId)
  {
    forall c
      ensures c in Filter(CoversFlight(flightId), columns) <==> c in columns && Covers(c, flightId)
    {
      FilterMembers(CoversFlight(flightId), columns, c);
    }
  }

  lemma NothingFitsFlight(columns: seq<Column>, s: Selection, flight: FlightLeg)
    requires IsChoice(Filter(CoversFlight(flight.flightId), columns), s, None)
    ensures Exhausted(columns, s, [flight])
  {
    CandidatesCover(columns, flight.flightId);
  }

  /** The best fitting column makes the greedy step. */
  lemma ChoiceIsStep(columns: seq<Column>, s: Selection, flight: FlightLeg, best: Column)
    requires flight.flightId !in s.covered && IsChoice(Filter(CoversFlight(flight.flightId), columns), s, Some(best))
    ensures best in columns && Covers(best, flight.flightId) && Fits(s, best)
    ensures GreedyStep(columns, s, flight, WithColumn(s, best))
  {
    var candidates := Filter(CoversFlight(flight.flightId), columns);
    var k :| FirstCheapest(candidates, s, k) && best == candidates[k];
    assert candidates[k] in candidates;
    FilterMembers(CoversFlight(flight.flightId), columns, best);
  }

  lemma PickSettles(crewPool: seq<CrewMember>, flights: seq<FlightLeg>, columns: seq<Column>, s: Selection,
                    flight: FlightLeg, best: Column)
    requires LegalColumns(crewPool, flights, columns) && Selected(crewPool, flights, s)
    requires best in columns && Covers(best, flight.flightId) && Fits(s, best)
    ensures Selected(crewPool, flights, WithColumn(s, best))
    ensures Exhausted(columns, WithColumn(s, best), [flight])
  {
    assert HasLegalColumn(crewPool, flights, best);
    PickKeepsSelected(crewPool, flights, s, best);
    var i :| 0 <= i < |best.legs| && best.legs[i].flightId == flight.flightId;
    assert best.legs[i] in best.legs;
    FlightIsExhausted(columns, WithColumn(s, best), flight);
  }

  /** Takes the best fitting column for one flight, unless it is covered already or none fits. */
  method CoverFlight(crewPool: seq<CrewMember>, flights: seq<FlightLeg>, columns: seq<Column>, s: Selection, flight: FlightLeg)
    returns (t: Selection)
    requires LegalColumns(crewPool, flights, columns) && Selected(crewPool, flights, s)
    ensures Selected(crewPool, flights, t) && s.covered <= t.covered && s.used <= t.used
    ensures Exhausted(columns, t, [flight])
    ensures GreedyStep(columns, s, flight, t)
  {
    t := s;
    if flight.flightId in s.covered {
      FlightIsExhausted(columns, s, flight);
      return;
    }
    var candidates := Filter(CoversFlight(flight.flightId), columns);
    var best := BestColumn(candidates, s);
    if best.None? {
      NothingFitsFlight(columns, s, flight);
    } else {
      ChoiceIsStep(columns, s, flight, best.value);
      PickSettles(crewPool, flights, columns, s, flight, best.value);
      t := WithColumn(s, best.value);
    }
  }

  /** Earliest flight first, cheapest column first: legal, one duty per crew member, no flight twice, and no remaining
      column fits. */
  method MasterProblemSolve(crewPool: seq<CrewMember>, flights: seq<FlightLeg>, columns: seq<Column>) returns (s: Selection)
    requires LegalColumns(crewPool, flights, columns)
    ensures Selected(crewPool, flights, s) && GreedyRun(columns, ByDeparture(flights), s)
    ensures forall c :: c in columns ==> !Fits(s, c)
  {
    var ordered := ByDeparture(flights);
    SortedIsPermutation(DepartsNoLater, flights);
    PermutationMembers(ordered, flights);
    s := Selection([], {}, {});
    NothingSelected(crewPool, flights);
    for k := 0 to |ordered|
      invariant Selected(crewPool, flights, s) && Exhausted(columns, s, ordered[..k])
      invariant GreedyRun(columns, ordered[..k], s)
    {
      var t := CoverFlight(crewPool, flights, columns, s, ordered[k]);
      OneMoreStep(columns, ordered, k, s, t);
      OneMoreExhausted(columns, ordered, k, s, t);
      s := t;
    }
    assert ordered[..|ordered|] == ordered;
    NothingFits(crewPool, flights, columns, s, ordered);
  }

  lemma NothingFits(crewPool: seq<CrewMember>, flights: seq<FlightLeg>, columns: seq<Column>, s: Selection, ordered: seq<FlightLeg>)
    requires LegalColumns(crewPool, flights, columns) && Exhausted(columns, s, ordered)
    requires forall leg :: leg in flights ==> leg in ordered
    ensures forall c :: c in columns ==> !Fits(s, c)
  {
    LegalColumnFacts(crewPool, flights, columns);
    forall c | c in columns
      ensures !Fits(s, c)
    {
      assert c.legs[0] in c.legs && Covers(c, c.legs[0].flightId);
    }
  }

  /** Each picked column becomes a duty. */
  method ReadDuties(picked: seq<Column>) returns (assignments: seq<Assignment>)
    ensures assignments == DutiesOf(picked)
  {
    assignments := [];
    for i := 0 to |picked|
      invariant assignments == DutiesOf(picked[..i])
    {
      assert picked[..i + 1][..i] == picked[..i];
      var column := picked[i];
      var legs := ByDeparture(column.legs);
      var start := if column.legs == [] then 0 else Earliest(column.legs);
      var end := if column.legs == [] then 0 else Latest(column.legs);
      assignments := assignments + [Assignment(column.crewId, legs, start, end)];
    }
    assert picked[..|picked|] == picked;
  }

  /** Whatever the clock does the result is a schedule; without time pressure no unused crew member could still fly
      a chain of up to four legs over the flights left over. */
  method Solve(crewPool: seq<CrewMember>, flights: seq<FlightLeg>, incumbent: seq<Assignment>, budgeted: bool)
    returns (assignments: seq<Assignment>)
    requires DistinctIds(flights) && LegalSchedule(crewPool, flights, incumbent)
    ensures Schedule(crewPool, flights, assignments, UncoveredFlights(flights, CoveredIds(assignments)))
    ensures !budgeted ==> NoIdleChain(crewPool, flights, assignments)
  {
    var columns := CollectColumns(crewPool, flights, incumbent, budgeted);
    var s := MasterProblemSolve(crewPool, flights, columns);
    assignments := ReadDuties(s.picked);
    CoveredAndUncovered(flights, assignments);
    if !budgeted {
      NoChainLeft(crewPool, flights, columns, s);
    }
  }

  ghost predicate NoIdleChain(crewPool: seq<CrewMember>, flights: seq<FlightLeg>, assignments: seq<Assignment>) {
    forall crew, legs :: crew in crewPool && Chain(crew, flights, legs) && |legs| <= 4 ==>
      Used(assignments, crew) || SomeCovered(assignments, legs)
  }

  ghost predicate Used(assignments: seq<Assignment>, crew: CrewMember) {
    exists a :: a in assignments && a.crewId == crew.crewId
  }

  ghost predicate SomeCovered(assignments: seq<Assignment>, legs: seq<FlightLeg>) {
    exists leg: FlightLeg :: leg in legs && leg.flightId in CoveredIds(assignments)
  }

  lemma NoChainLeft(crewPool: seq<CrewMember>, flights: seq<FlightLeg>, columns: seq<Column>, s: Selection)
    requires Selected(crewPool, flights, s) && CompleteColumns(crewPool, flights, columns)
    requires forall c :: c in columns ==> !Fits(s, c)
    ensures NoIdleChain(crewPool, flights, DutiesOf(s.picked))
  {
    forall crew, legs | crew in crewPool && Chain(crew, flights, legs) && |legs| <= 4
      ensures Used(DutiesOf(s.picked), crew) || SomeCovered(DutiesOf(s.picked), legs)
    {
      var c :| c in columns && c.crewId == crew.crewId && c.legs == legs;
      assert !Fits(s, c);
    }
  }
}
