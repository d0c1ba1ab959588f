/** The recovery agent's world, its guarded registry as a value, and the deterministic planner
    (agents/tools.py, agents/recovery_agent.py, agents/planner.py). */
module Planner {
  import opened Sequences
  import opened Text

  datatype Crew = Crew(
    id: string, base: string, qualifications: set<string>, restHours: int, seniority: int,
    illegal: bool, assignedFlight: Option<string>)

  datatype Flight = Flight(id: string, origin: string, aircraftType: string, passengers: int)

  /** The roster and flights, the flights with a planned route, and the legality verdict for a pair. */
  datatype World = World(
    roster: seq<Crew>, flights: seq<Flight>, routes: set<string>, verdict: (string, string) -> bool)

  datatype Case = Case(flightId: string, passengers: int)

  datatype Commitment = Commitment(flightId: string, crewId: string)

  /** Guard state of one run. */
  datatype Registry = Registry(
    legalPreviews: set<(string, string)>,
    previewed: map<string, set<string>>,
    verdicts: map<(string, string), bool>,
    commitments: seq<Commitment>,
    escalations: seq<string>)

  /** What the agent knows: the registry, and its own notes. */
  datatype Mind = Mind(reg: Registry, perceived: bool, openCases: seq<Case>, listed: set<string>)

  const FRESH_REGISTRY := Registry({}, map[], map[], [], [])
  const FRESH_MIND := Mind(FRESH_REGISTRY, false, [], {})

  datatype Decision =
    | GetPicture
    | ListCandidates(flightId: string)
    | Preview(flightId: string, crewId: string)
    | Commit(flightId: string, crewId: string)
    | Escalate(flightId: string)

  // ----- the domain -----

  function FlightRecord(flights: seq<Flight>, id: string): Option<Flight> {
    if flights == [] then None
    else if flights[0].id == id then Some(flights[0])
    else FlightRecord(flights[1..], id)
  }

  function CrewRecord(roster: seq<Crew>, id: string): Option<Crew> {
    if roster == [] then None
    else if roster[0].id == id then Some(roster[0])
    else CrewRecord(roster[1..], id)
  }

  function NormaliseAircraftType(name: string): string { Without(Without(name, "-8"), "neo") }

  function RatedFor(required: string): Crew -> bool {
    (crew: Crew) => crew.assignedFlight.None? && required in crew.qualifications
  }

  /** Unassigned crew with the rating the flight needs. */
  function TypeRated(world: World, flightId: string): seq<Crew> {
    var flight := FlightRecord(world.flights, flightId);
    if flight.None? then []
    else Filter(RatedFor(NormaliseAircraftType(flight.value.aircraftType)), world.roster)
  }

  function CaseOf(flights: seq<Flight>): Crew -> seq<Case> {
    (crew: Crew) =>
      if !crew.illegal || crew.assignedFlight.None? || crew.assignedFlight.value == "" then []
      else
        var flight := FlightRecord(flights, crew.assignedFlight.value);
        if flight.None? then [] else [Case(flight.value.id, flight.value.passengers)]
  }

  function OpenCrewCases(world: World): seq<Case> { FlatMap(CaseOf(world.flights), world.roster) }

  // ----- derived views of the working memory -----

  predicate Committed(reg: Registry, flightId: string) {
    exists i :: 0 <= i < |reg.commitments| && reg.commitments[i].flightId == flightId
  }

  predicate Settled(m: Mind, flightId: string) { Committed(m.reg, flightId) || flightId in m.reg.escalations }

  function Evaluated(reg: Registry, flightId: string): set<string> {
    if flightId in reg.previewed then reg.previewed[flightId] else {}
  }

  function AssignedCrew(reg: Registry): set<string> { set c | c in reg.commitments :: c.crewId }

  function LegalCrew(reg: Registry, flightId: string): set<string> {
    set c | c in Evaluated(reg, flightId)
            && (flightId, c) in reg.verdicts && reg.verdicts[(flightId, c)] && c !in AssignedCrew(reg)
  }

  /** The first crew id, in sorted order, with a legal verdict and no commitment. */
  function LegalOption(reg: Registry, flightId: string): Option<string> {
    if LegalCrew(reg, flightId) == {} then None else Some(Least(LegalCrew(reg, flightId)))
  }

  function StillOpenTo(evaluated: set<string>, taken: set<string>): Crew -> bool {
    (crew: Crew) => crew.id !in evaluated && crew.id !in taken
  }

  function Remaining(world: World, reg: Registry, flightId: string): seq<Crew> {
    Filter(StillOpenTo(Evaluated(reg, flightId), AssignedCrew(reg)), TypeRated(world, flightId))
  }

  // ----- case selection: fewest remaining candidates, then most passengers, then flight id -----

  predicate ComesBefore(world: World, reg: Registry, a: Case, b: Case) {
    var na, nb := |Remaining(world, reg, a.flightId)|, |Remaining(world, reg, b.flightId)|;
    na < nb || (na == nb && (a.passengers > b.passengers
                             || (a.passengers == b.passengers && a.flightId != b.flightId && StrLe(a.flightId, b.flightId))))
  }

  function FirstCase(world: World, reg: Registry, cases: seq<Case>): Case
    requires cases != []
  {
    var n := |cases| - 1;
    if n == 0 then cases[0]
    else
      var best := FirstCase(world, reg, cases[..n]);
      if ComesBefore(world, reg, cases[n], best) then cases[n] else best
  }

  function Unsettled(m: Mind): Case -> bool { (c: Case) => !Settled(m, c.flightId) }

  function SelectCase(world: World, m: Mind): Option<Case> {
    var open := Filter(Unsettled(m), m.openCases);
    if open == [] then None else Some(FirstCase(world, m.reg, open))
  }

  // ----- candidate ranking -----

  /** How badly another unresolved flight needs this crew member: one over the size of its pool. */
  function CompetingNeed(world: World, m: Mind, crew: Crew, flightId: string, other: Case): real {
    if other.flightId == flightId || Settled(m, other.flightId) then 0.0
    else
      var pool := Remaining(world, m.reg, other.flightId);
      if exists i :: 0 <= i < |pool| && pool[i].id == crew.id then 1.0 / (|pool| as real) else 0.0
  }

  /** Another unresolved flight still has this crew member among its remaining candidates. */
  predicate Competes(world: World, m: Mind, crew: Crew, flightId: string, other: Case) {
    other.flightId != flightId && !Settled(m, other.flightId)
    && (var pool := Remaining(world, m.reg, other.flightId); exists i :: 0 <= i < |pool| && pool[i].id == crew.id)
  }

  predicate NeededElsewhere(world: World, m: Mind, crew: Crew, flightId: string) {
    exists other :: other in m.openCases && Competes(world, m, crew, flightId, other)
  }

  function ScarcityCost(world: World, m: Mind, crew: Crew, flightId: string, cases: seq<Case>): real {
    if cases == [] then 0.0
    else
      var n := |cases| - 1;
      ScarcityCost(world, m, crew, flightId, cases[..n]) + CompetingNeed(world, m, crew, flightId, cases[n])
  }

  /** A cost in thousandths, rounded half to even. */
  function Thousandths(x: real): int {
    var scaled := x * 1000.0;
    var low := scaled.Floor;
    var rest := scaled - low as real;
    if rest < 0.5 || (rest == 0.5 && low % 2 == 0) then low else low + 1
  }

  datatype Ranked = Ranked(crewId: string, scarcity: int, positioned: bool, restHours: int, seniority: int)

  function RankEntry(world: World, m: Mind, flightId: string, crew: Crew): Ranked {
    var flight := FlightRecord(world.flights, flightId);
    var origin := if flight.Some? then flight.value.origin else "";
    Ranked(crew.id, Thousandths(ScarcityCost(world, m, crew, flightId, m.openCases)),
           crew.base == origin, crew.restHours, crew.seniority)
  }

  /** The sort key: scarcity, position, rest, seniority, id. */
  predicate RanksNoLater(a: Ranked, b: Ranked) {
    if a.scarcity != b.scarcity then a.scarcity < b.scarcity
    else if a.positioned != b.positioned then a.positioned
    else if a.restHours != b.restHours then a.restHours > b.restHours
    else if a.seniority != b.seniority then a.seniority > b.seniority
    else StrLe(a.crewId, b.crewId)
  }

  function RankEntries(world: World, m: Mind, flightId: string, candidates: seq<Crew>): seq<Ranked> {
    if candidates == [] then []
    else
      var n := |candidates| - 1;
      RankEntries(world, m, flightId, candidates[..n]) + [RankEntry(world, m, flightId, candidates[n])]
  }

  function Rank(world: World, m: Mind, flightId: string, candidates: seq<Crew>): seq<Ranked> {
    Sorted(RanksNoLater, RankEntries(world, m, flightId, candidates))
  }

  /** The candidate to preview next. */
  function Pick(world: World, m: Mind, flightId: string, candidates: seq<Crew>): string {
    var ranked := Rank(world, m, flightId, candidates);
    if ranked == [] then "" else ranked[0].crewId
  }

  /** The next action of the deterministic planner; None when nothing is left to do. */
  function Propose(world: World, m: Mind): Option<Decision> {
    if !m.perceived then Some(GetPicture)
    else
      var selected := SelectCase(world, m);
      if selected.None? then None
      else Some(ActionOn(world, m, selected.value.flightId))
  }

  /** What to do about the selected flight. */
  function ActionOn(world: World, m: Mind, f: string): Decision {
    var legal := LegalOption(m.reg, f);
    var remaining := Remaining(world, m.reg, f);
    if legal.Some? then Commit(f, legal.value)
    else if remaining == [] then Escalate(f)
    else if f !in m.listed then ListCandidates(f)
    else Preview(f, Pick(world, m, f, remaining))
  }

  // ----- the loops of the planner -----

  method ComputeScarcityCost(world: World, m: Mind, crew: Crew, flightId: string) returns (cost: real)
    ensures cost == ScarcityCost(world, m, crew, flightId, m.openCases) == Shares(world, m, crew, flightId, m.openCases)
    ensures cost >= 0.0 && (cost > 0.0 <==> NeededElsewhere(world, m, crew, flightId))
    ensures forall other :: other in m.openCases && Competes(world, m, crew, flightId, other) ==>
      cost >= 1.0 / (|Remaining(world, m.reg, other.flightId)| as real)
  {
    cost := 0.0;
    for i := 0 to |m.openCases|
      invariant cost == ScarcityCost(world, m, crew, flightId, m.openCases[..i])
    {
      ScarcityStep(world, m, crew, flightId, m.openCases, i);
      var other := m.openCases[i];
      if other.flightId == flightId || Settled(m, other.flightId) {
        continue;
      }
      var pool := Remaining(world, m.reg, other.flightId);
      if exists k :: 0 <= k < |pool| && pool[k].id == crew.id {
        cost := cost + 1.0 / (|pool| as real);
      }
    }
    assert m.openCases[..|m.openCases|] == m.openCases;
    ScarcityMeaning(world, m, crew, flightId);
    ScarcityIsShares(world, m, crew, flightId, m.openCases);
  }

  lemma ScarcityStep(world: World, m: Mind, crew: Crew, flightId: string, cases: seq<Case>, i: nat)
    requires i < |cases|
    ensures ScarcityCost(world, m, crew, flightId, cases[..i + 1])
      == ScarcityCost(world, m, crew, flightId, cases[..i]) + CompetingNeed(world, m, crew, flightId, cases[i])
  {
    assert cases[..i + 1][..i] == cases[..i];
  }

  /** The shares that the other unresolved flights have in this crew member: one over each of their pools. */
  ghost function Shares(world: World, m: Mind, crew: Crew, flightId: string, cases: seq<Case>): real {
    if cases == [] then 0.0
    else
      (if Competes(world, m, crew, flightId, cases[0]) then 1.0 / (|Remaining(world, m.reg, cases[0].flightId)| as real)
       else 0.0)
      + Shares(world, m, crew, flightId, cases[1..])
  }

  lemma {:induction false} ScarcityOfOneMore(world: World, m: Mind, crew: Crew, flightId: string, cases: seq<Case>)
    requires cases != []
    ensures ScarcityCost(world, m, crew, flightId, cases)
      == CompetingNeed(world, m, crew, flightId, cases[0]) + ScarcityCost(world, m, crew, flightId, cases[1..])
  {
    var n := |cases| - 1;
    if n > 0 {
      ScarcityOfOneMore(world, m, crew, flightId, cases[..n]);
      assert cases[..n][1..] == cases[1..][..n - 1];
    } else {
      assert cases[..0] == cases[1..];
    }
  }

  /** The cost is the sum of the shares. */
  lemma {:induction false} ScarcityIsShares(world: World, m: Mind, crew: Crew, flightId: string, cases: seq<Case>)
    ensures ScarcityCost(world, m, crew, flightId, cases) == Shares(world, m, crew, flightId, cases)
  {
    if cases != [] {
      ScarcityOfOneMore(world, m, crew, flightId, cases);
      ScarcityIsShares(world, m, crew, flightId, cases[1..]);
    }
  }

  lemma ScarcityMeaning(world: World, m: Mind, crew: Crew, flightId: string)
    ensures var cost := ScarcityCost(world, m, crew, flightId, m.openCases);
      && cost >= 0.0 && (cost > 0.0 <==> NeededElsewhere(world, m, crew, flightId))
      && forall other :: other in m.openCases && Competes(world, m, crew, flightId, other) ==>
           cost >= 1.0 / (|Remaining(world, m.reg, other.flightId)| as real)
  {
    ScarcityMeansNeed(world, m, crew, flightId, m.openCases);
    forall other | other in m.openCases && Competes(world, m, crew, flightId, other)
      ensures ScarcityCost(world, m, crew, flightId, m.openCases) >= 1.0 / (|Remaining(world, m.reg, other.flightId)| as real)
    {
      ScarcityCovers(world, m, crew, flightId, other);
    }
  }

  lemma ScarcityCovers(world: World, m: Mind, crew: Crew, flightId: string, other: Case)
    requires other in m.openCases && Competes(world, m, crew, flightId, other)
    ensures ScarcityCost(world, m, crew, flightId, m.openCases) >= 1.0 / (|Remaining(world, m.reg, other.flightId)| as real)
  {
    var k :| 0 <= k < |m.openCases| && m.openCases[k] == other;
    ScarcityCoversNeed(world, m, crew, flightId, m.openCases, k);
  }

  method ComputeRank(world: World, m: Mind, flightId: string, candidates: seq<Crew>) returns (ranked: seq<Ranked>)
    ensures ranked == Rank(world, m, flightId, candidates)
  {
    var flight := FlightRecord(world.flights, flightId);
    var origin := if flight.Some? then flight.value.origin else "";
    ranked := [];
    for i := 0 to |candidates|
      invariant ranked == RankEntries(world, m, flightId, candidates[..i])
    {
      assert candidates[..i + 1][..i] == candidates[..i];
      var crew := candidates[i];
      var cost := ComputeScarcityCost(world, m, crew, flightId);
      ranked := ranked + [Ranked(crew.id, Thousandths(cost), crew.base == origin, crew.restHours, crew.seniority)];
    }
    assert candidates[..|candidates|] == candidates;
    ranked := Sorted(RanksNoLater, ranked);
  }

  // ----- what the domain means -----

  lemma {:induction false} FlightIsFound(flights: seq<Flight>, id: string)
    ensures FlightRecord(flights, id).None? <==> forall f :: f in flights ==> f.id != id
    ensures FlightRecord(flights, id).Some? ==> FlightRecord(flights, id).value in flights && FlightRecord(flights, id).value.id == id
  {
    if flights != [] {
      FlightIsFound(flights[1..], id);
      assert forall f :: f in flights <==> f == flights[0] || f in flights[1..];
    }
  }

  lemma {:induction false} CrewIsFound(roster: seq<Crew>, id: string)
    ensures CrewRecord(roster, id).None? <==> forall crew :: crew in roster ==> crew.id != id
    ensures CrewRecord(roster, id).Some? ==> CrewRecord(roster, id).value in roster && CrewRecord(roster, id).value.id == id
  {
    if roster != [] {
      CrewIsFound(roster[1..], id);
      assert forall crew :: crew in roster <==> crew == roster[0] || crew in roster[1..];
    }
  }

  ghost predicate KnownFlight(world: World, flightId: string) { exists f :: f in world.flights && f.id == flightId }

  ghost predicate KnownCrew(world: World, crewId: string) { exists crew :: crew in world.roster && crew.id == crewId }

  lemma KnownIff(world: World, flightId: string, crewId: string)
    ensures FlightRecord(world.flights, flightId).Some? <==> KnownFlight(world, flightId)
    ensures CrewRecord(world.roster, crewId).Some? <==> KnownCrew(world, crewId)
  {
    FlightIsFound(world.flights, flightId);
    CrewIsFound(world.roster, crewId);
  }

  /** Variants of a type need the type's rating. */
  lemma VariantsAreNormalised(base: string)
    requires '-' !in base && 'n' !in base
    ensures NormaliseAircraftType(base) == base
    ensures NormaliseAircraftType(base + "-8") == base && NormaliseAircraftType(base + "neo") == base
  {
    NothingToRemove(base, "-8");
    NothingToRemove(base, "neo");
    NothingToRemove(base + "neo", "-8");
    SuffixGoes(base, "-8");
    SuffixGoes(base, "neo");
  }

  /** The crew member has no flight and holds the rating that the flight's aircraft needs. */
  ghost predicate FreeAndRated(world: World, flightId: string, crew: Crew) {
    crew in world.roster && crew.assignedFlight.None?
    && exists flight :: FlightRecord(world.flights, flightId) == Some(flight)
         && NormaliseAircraftType(flight.aircraftType) in crew.qualifications
  }

  lemma TypeRatedIff(world: World, flightId: string, crew: Crew)
    ensures crew in TypeRated(world, flightId) <==> FreeAndRated(world, flightId, crew)
  {
    var flight := FlightRecord(world.flights, flightId);
    if flight.Some? {
      FilterMembers(RatedFor(NormaliseAircraftType(flight.value.aircraftType)), world.roster, crew);
    }
  }

  /** A crew member who may not fly the flight it is assigned to. */
  ghost predicate CannotFly(world: World, crew: Crew, f: string) {
    crew in world.roster && crew.illegal && crew.assignedFlight == Some(f) && f != ""
  }

  /** The flight, which is known, has this crew member, who may not fly it; its passengers go with the case. */
  ghost predicate IsCaseOf(world: World, crew: Crew, flight: Flight, c: Case) {
    && CannotFly(world, crew, flight.id) && FlightRecord(world.flights, flight.id) == Some(flight)
    && c == Case(flight.id, flight.passengers)
  }

  lemma CaseOfMember(world: World, crew: Crew, c: Case)
    requires crew in world.roster
    ensures c in CaseOf(world.flights)(crew) <==> exists flight: Flight :: IsCaseOf(world, crew, flight, c)
  {
    if crew.assignedFlight.Some? {
      var f := crew.assignedFlight.value;
      FlightIsFound(world.flights, f);
      if c in CaseOf(world.flights)(crew) {
        assert IsCaseOf(world, crew, FlightRecord(world.flights, f).value, c);
      }
    }
  }

  /** The cases are the known flights whose crew may not fly them. */
  lemma OpenCaseIff(world: World, c: Case)
    ensures c in OpenCrewCases(world) <==> exists crew: Crew, flight: Flight :: IsCaseOf(world, crew, flight, c)
  {
    FlatMapMember(CaseOf(world.flights), world.roster, c);
    if c in OpenCrewCases(world) {
      var i :| 0 <= i < |world.roster| && c in CaseOf(world.flights)(world.roster[i]);
      CaseOfMember(world, world.roster[i], c);
    }
    if crew: Crew, flight: Flight :| IsCaseOf(world, crew, flight, c) {
      CaseOfMember(world, crew, c);
      var i :| 0 <= i < |world.roster| && world.roster[i] == crew;
      assert c in CaseOf(world.flights)(world.roster[i]);
    }
  }

  // ----- what the orders mean -----

  lemma RankingIsPreorder()
    ensures TotalPreorder(RanksNoLater)
  {
    forall a, b
      ensures RanksNoLater(a, b) || RanksNoLater(b, a)
    {
      StrLeTotal(a.crewId, b.crewId);
    }
    forall a, b, c | RanksNoLater(a, b) && RanksNoLater(b, c)
      ensures RanksNoLater(a, c)
    {
      if StrLe(a.crewId, b.crewId) && StrLe(b.crewId, c.crewId) {
        StrLeTransitive(a.crewId, b.crewId, c.crewId);
      }
    }
  }

  lemma {:induction false} RankEntriesMember(world: World, m: Mind, flightId: string, candidates: seq<Crew>, r: Ranked)
    ensures r in RankEntries(world, m, flightId, candidates) <==>
      exists crew :: crew in candidates && r == RankEntry(world, m, flightId, crew)
  {
    if candidates != [] {
      var n := |candidates| - 1;
      RankEntriesMember(world, m, flightId, candidates[..n], r);
      assert candidates == candidates[..n] + [candidates[n]];
    }
  }

  /** What the other flights have in a crew member, to three decimals. */
  ghost function Loss(world: World, m: Mind, flightId: string, crew: Crew): int {
    Thousandths(Shares(world, m, crew, flightId, m.openCases))
  }

  /** The crew member is based where the flight starts. */
  ghost predicate AtOrigin(world: World, flightId: string, crew: Crew) {
    var flight := FlightRecord(world.flights, flightId);
    crew.base == if flight.Some? then flight.value.origin else ""
  }

  /** Nobody better placed to be tried: the least loss to other flights; then based at the origin; then the most rested,
      the most senior, the first by id. */
  ghost predicate NoWorse(world: World, m: Mind, flightId: string, a: Crew, b: Crew) {
    var lossA, lossB := Loss(world, m, flightId, a), Loss(world, m, flightId, b);
    var hereA, hereB := AtOrigin(world, flightId, a), AtOrigin(world, flightId, b);
    && lossA <= lossB
    && (lossA == lossB && hereB ==> hereA)
    && (lossA == lossB && hereA == hereB ==> a.restHours >= b.restHours)
    && (lossA == lossB && hereA == hereB && a.restHours == b.restHours ==> a.seniority >= b.seniority)
    && (lossA == lossB && hereA == hereB && a.restHours == b.restHours && a.seniority == b.seniority ==> StrLe(a.id, b.id))
  }

  lemma RankingMeans(world: World, m: Mind, flightId: string, a: Crew, b: Crew)
    ensures RanksNoLater(RankEntry(world, m, flightId, a), RankEntry(world, m, flightId, b)) <==> NoWorse(world, m, flightId, a, b)
  {
    ScarcityIsShares(world, m, a, flightId, m.openCases);
    ScarcityIsShares(world, m, b, flightId, m.openCases);
  }

  /** The pick is a candidate, and no candidate is better. */
  lemma PickIsBest(world: World, m: Mind, flightId: string, candidates: seq<Crew>) returns (best: Crew)
    requires candidates != []
    ensures best in candidates && best.id == Pick(world, m, flightId, candidates)
    ensures forall crew :: crew in candidates ==> NoWorse(world, m, flightId, best, crew)
  {
    best := PickRanksFirst(world, m, flightId, candidates);
    forall crew | crew in candidates
      ensures NoWorse(world, m, flightId, best, crew)
    {
      RankingMeans(world, m, flightId, best, crew);
    }
  }

  lemma PickRanksFirst(world: World, m: Mind, flightId: string, candidates: seq<Crew>) returns (best: Crew)
    requires candidates != []
    ensures best in candidates && best.id == Pick(world, m, flightId, candidates)
    ensures forall crew :: crew in candidates ==>
      RanksNoLater(RankEntry(world, m, flightId, best), RankEntry(world, m, flightId, crew))
  {
    var entries := RankEntries(world, m, flightId, candidates);
    var ranked := Rank(world, m, flightId, candidates);
    RankingIsPreorder();
    SortedIsOrdered(RanksNoLater, entries);
    SortedIsPermutation(RanksNoLater, entries);
    PermutationMembers(ranked, entries);
    RankEntriesMember(world, m, flightId, candidates, RankEntry(world, m, flightId, candidates[0]));
    assert candidates[0] in candidates;
    assert ranked[0] in entries;
    RankEntriesMember(world, m, flightId, candidates, ranked[0]);
    best :| best in candidates && ranked[0] == RankEntry(world, m, flightId, best);
    forall crew | crew in candidates
      ensures RanksNoLater(RankEntry(world, m, flightId, best), RankEntry(world, m, flightId, crew))
    {
      var entry := RankEntry(world, m, flightId, crew);
      RankEntriesMember(world, m, flightId, candidates, entry);
      var k :| 0 <= k < |ranked| && ranked[k] == entry;
      StrLeTotal(entry.crewId, entry.crewId);
    }
  }

  lemma NeedIsPositive(world: World, m: Mind, crew: Crew, flightId: string, other: Case)
    ensures CompetingNeed(world, m, crew, flightId, other) >= 0.0
    ensures CompetingNeed(world, m, crew, flightId, other) > 0.0 <==> Competes(world, m, crew, flightId, other)
  {
  }

  /** The cost is positive exactly if some other flight needs the crew member. */
  lemma {:induction false} ScarcityMeansNeed(world: World, m: Mind, crew: Crew, flightId: string, cases: seq<Case>)
    ensures ScarcityCost(world, m, crew, flightId, cases) >= 0.0
    ensures ScarcityCost(world, m, crew, flightId, cases) > 0.0 <==>
      exists other :: other in cases && Competes(world, m, crew, flightId, other)
  {
    if cases != [] {
      var n := |cases| - 1;
      ScarcityMeansNeed(world, m, crew, flightId, cases[..n]);
      NeedIsPositive(world, m, crew, flightId, cases[n]);
      NeedOfAnyCase(world, m, crew, flightId, cases);
    }
  }

  lemma NeedOfAnyCase(world: World, m: Mind, crew: Crew, flightId: string, cases: seq<Case>)
    requires cases != []
    ensures var n := |cases| - 1;
      (exists other :: other in cases && Competes(world, m, crew, flightId, other)) <==>
        Competes(world, m, crew, flightId, cases[n])
        || exists other :: other in cases[..n] && Competes(world, m, crew, flightId, other)
  {
    var n := |cases| - 1;
    assert forall other :: other in cases <==> other in cases[..n] || other == cases[n];
  }

  /** Each competing flight adds at least one over its pool. */
  lemma {:induction false} ScarcityCoversNeed(world: World, m: Mind, crew: Crew, flightId: string, cases: seq<Case>, k: nat)
    requires k < |cases|
    ensures ScarcityCost(world, m, crew, flightId, cases) >= CompetingNeed(world, m, crew, flightId, cases[k])
  {
    var n := |cases| - 1;
    var cost, need := ScarcityCost(world, m, crew, flightId, cases[..n]), CompetingNeed(world, m, crew, flightId, cases[n]);
    assert ScarcityCost(world, m, crew, flightId, cases) == cost + need;
    if k < n {
      NeedIsPositive(world, m, crew, flightId, cases[n]);
      ScarcityCoversNeed(world, m, crew, flightId, cases[..n], k);
      assert cases[..n][k] == cases[k];
    } else {
      ScarcityMeansNeed(world, m, crew, flightId, cases[..n]);
    }
  }

  /** The rounded cost is the nearest number of thousandths, and of two equally near ones the even one. */
  lemma RoundedIff(x: real, r: int)
    ensures Thousandths(x) == r <==>
      -0.5 <= x * 1000.0 - r as real <= 0.5 && (x * 1000.0 - r as real in {-0.5, 0.5} ==> r % 2 == 0)
  {
  }

  /** A share in a pool survives the rounding exactly if the pool has fewer than 2000 members. */
  lemma ShareShowsIff(n: nat)
    requires n > 0
    ensures Thousandths(1.0 / (n as real)) >= 1 <==> n < 2000
  {
    if n < 2000 {
      assert 1.0 / (n as real) > 0.0005;
    } else {
      assert 0.0 < 1.0 / (n as real) <= 0.0005;
    }
  }

  lemma ShareRoundsUp(n: nat, cost: real)
    requires 0 < n < 2000 && cost >= 1.0 / (n as real)
    ensures Thousandths(cost) >= 1
  {
    assert cost > 0.0005;
  }

  /** No remaining pool of an open case is so large that a share in it rounds to nothing. */
  predicate PoolsAreSmall(world: World, m: Mind) {
    forall c :: c in m.openCases ==> |Remaining(world, m.reg, c.flightId)| < 2000
  }

  lemma NeedRoundsUp(world: World, m: Mind, crew: Crew, flightId: string, k: nat)
    requires PoolsAreSmall(world, m) && k < |m.openCases| && Competes(world, m, crew, flightId, m.openCases[k])
    ensures Thousandths(ScarcityCost(world, m, crew, flightId, m.openCases)) >= 1
  {
    ScarcityCoversNeed(world, m, crew, flightId, m.openCases, k);
    ShareRoundsUp(|Remaining(world, m.reg, m.openCases[k].flightId)|, ScarcityCost(world, m, crew, flightId, m.openCases));
  }

  lemma ScarcityShows(world: World, m: Mind, crew: Crew, flightId: string)
    requires PoolsAreSmall(world, m)
    ensures RankEntry(world, m, flightId, crew).scarcity >= 0
    ensures RankEntry(world, m, flightId, crew).scarcity > 0 <==> NeededElsewhere(world, m, crew, flightId)
  {
    ScarcityMeansNeed(world, m, crew, flightId, m.openCases);
    if NeededElsewhere(world, m, crew, flightId) {
      var k :| 0 <= k < |m.openCases| && Competes(world, m, crew, flightId, m.openCases[k]);
      NeedRoundsUp(world, m, crew, flightId, k);
    }
  }

  /** Crew that other flights depend on are spared: the pick is needed elsewhere only if every candidate is. */
  lemma SpareCrewFirst(world: World, m: Mind, flightId: string, candidates: seq<Crew>) returns (best: Crew)
    requires candidates != [] && PoolsAreSmall(world, m)
    ensures best in candidates && best.id == Pick(world, m, flightId, candidates)
    ensures NeededElsewhere(world, m, best, flightId) <==>
      forall crew :: crew in candidates ==> NeededElsewhere(world, m, crew, flightId)
  {
    best := PickRanksFirst(world, m, flightId, candidates);
    forall crew | crew in candidates && NeededElsewhere(world, m, best, flightId)
      ensures NeededElsewhere(world, m, crew, flightId)
    {
      ScarcityShows(world, m, best, flightId);
      ScarcityShows(world, m, crew, flightId);
    }
  }

  lemma NotBeforeTransitive(world: World, reg: Registry, a: Case, b: Case, c: Case)
    requires !ComesBefore(world, reg, b, a) && !ComesBefore(world, reg, c, b)
    ensures !ComesBefore(world, reg, c, a)
  {
    StrLeTotal(a.flightId, b.flightId);
    StrLeTotal(b.flightId, c.flightId);
    if ComesBefore(world, reg, c, a) {
      if StrLe(a.flightId, b.flightId) && StrLe(b.flightId, c.flightId) {
        StrLeTransitive(a.flightId, b.flightId, c.flightId);
        if StrLe(c.flightId, a.flightId) {
          StrLeAntisymmetric(a.flightId, c.flightId);
        }
      }
    }
  }

  ghost predicate IsFirst(world: World, reg: Registry, first: Case, cases: seq<Case>) {
    forall c :: c in cases ==> !ComesBefore(world, reg, c, first)
  }

  lemma BetterIsFirst(world: World, reg: Registry, best: Case, better: Case, cases: seq<Case>)
    requires IsFirst(world, reg, best, cases) && ComesBefore(world, reg, better, best)
    ensures IsFirst(world, reg, better, cases)
  {
    BeforeIsAsymmetric(world, reg, better, best);
    forall c | c in cases
      ensures !ComesBefore(world, reg, c, better)
    {
      NotBeforeTransitive(world, reg, better, best, c);
    }
  }

  lemma FirstOfOneMore(world: World, reg: Registry, first: Case, cases: seq<Case>, last: Case)
    requires IsFirst(world, reg, first, cases) && !ComesBefore(world, reg, last, first)
    ensures IsFirst(world, reg, first, cases + [last])
  {
    assert forall c :: c in cases + [last] <==> c in cases || c == last;
  }

  /** Fewer candidates left; of as many, more passengers; of as many, the earlier flight id. */
  ghost predicate NoLessUrgent(world: World, reg: Registry, a: Case, b: Case) {
    var leftA, leftB := |Remaining(world, reg, a.flightId)|, |Remaining(world, reg, b.flightId)|;
    && leftA <= leftB
    && (leftA == leftB ==> a.passengers >= b.passengers)
    && (leftA == leftB && a.passengers == b.passengers ==> StrLe(a.flightId, b.flightId))
  }

  lemma UrgencyMeans(world: World, reg: Registry, a: Case, b: Case)
    ensures !ComesBefore(world, reg, b, a) <==> NoLessUrgent(world, reg, a, b)
  {
    StrLeTotal(a.flightId, b.flightId);
    if StrLe(a.flightId, b.flightId) && StrLe(b.flightId, a.flightId) {
      StrLeAntisymmetric(a.flightId, b.flightId);
    }
  }

  /** No case is more urgent than the selected one. */
  lemma SelectedIsMostUrgent(world: World, reg: Registry, cases: seq<Case>)
    requires cases != []
    ensures FirstCase(world, reg, cases) in cases
    ensures forall c :: c in cases ==> NoLessUrgent(world, reg, FirstCase(world, reg, cases), c)
  {
    FirstCaseIsLeast(world, reg, cases);
    forall c | c in cases
      ensures NoLessUrgent(world, reg, FirstCase(world, reg, cases), c)
    {
      UrgencyMeans(world, reg, FirstCase(world, reg, cases), c);
    }
  }

  /** The selected case is a minimum of the selection order. */
  lemma {:induction false} FirstCaseIsLeast(world: World, reg: Registry, cases: seq<Case>)
    requires cases != []
    ensures FirstCase(world, reg, cases) in cases
    ensures IsFirst(world, reg, FirstCase(world, reg, cases), cases)
  {
    var n := |cases| - 1;
    var last := cases[n];
    assert cases == cases[..n] + [last];
    BeforeIsAsymmetric(world, reg, last, last);
    if n == 0 {
      assert IsFirst(world, reg, last, cases[..0]);
    } else {
      FirstCaseIsLeast(world, reg, cases[..n]);
      if ComesBefore(world, reg, last, FirstCase(world, reg, cases[..n])) {
        BetterIsFirst(world, reg, FirstCase(world, reg, cases[..n]), last, cases[..n]);
      }
    }
    FirstOfOneMore(world, reg, FirstCase(world, reg, cases), cases[..n], last);
  }

  lemma BeforeIsAsymmetric(world: World, reg: Registry, a: Case, b: Case)
    ensures !(ComesBefore(world, reg, a, b) && ComesBefore(world, reg, b, a))
  {
    if StrLe(a.flightId, b.flightId) && StrLe(b.flightId, a.flightId) {
      StrLeAntisymmetric(a.flightId, b.flightId);
    }
  }
}
