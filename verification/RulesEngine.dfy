/** The crew legality layer (rules/engine.py): every check, and the findings it reports.
    Instants and durations are whole microseconds, the resolution of the original's datetimes. */
module RulesEngine {
  import opened Sequences
  import opened Text

  const MINUTE := 60_000_000
  const HOUR := 60 * MINUTE

  const MAX_FLIGHT_TIME := 9 * HOUR
  const MIN_REST := 10 * HOUR
  const MAX_DEADHEAD_TIME := 8 * HOUR
  const MIN_CONNECTION := 30 * MINUTE

  datatype Qualification = B737 | B777 | A320 | A321 | B787 | NightFlying | IcuWx | Etops

  datatype CrewMember = CrewMember(
    crewId: string, baseHub: string, qualifications: set<Qualification>,
    currentLocation: string, lastRestEnd: Option<int>)

  datatype FlightLeg = FlightLeg(
    flightId: string, origin: string, destination: string,
    dep: int, arr: int, aircraftType: string, isDeadhead: bool)

  datatype Assignment = Assignment(crewId: string, legs: seq<FlightLeg>, dutyStart: int, dutyEnd: int)

  datatype Violation =
    | FdpLimit | FlightTimeLimit | MinRest | DeadheadLimit
    | UnknownAircraft(flightId: string)
    | MissingQualification(flightId: string, required: Qualification)
    | DeadheadLoop(location: string)
    | InvalidLegTime(flightId: string)
    | CrewPosition
    | LocationDiscontinuity(flightId: string)
    | ConnectionTime(flightId: string)

  // ----- flight duty period -----

  function OperatedSector(leg: FlightLeg): int { if leg.isDeadhead then 0 else 1 }

  function Sectors(legs: seq<FlightLeg>): int { Total(OperatedSector, legs) }

  /** The limit for a number of operated sectors, before the early-start reduction. */
  function FdpBySectors(operated: int): int {
    if operated <= 2 then 14 * HOUR
    else if operated == 3 then 13 * HOUR + 30 * MINUTE
    else if operated == 4 then 13 * HOUR
    else 12 * HOUR + 30 * MINUTE
  }

  function HourOfDay(t: int): int { (t / HOUR) % 24 }

  function MaxFdp(a: Assignment): int {
    FdpBySectors(Sectors(a.legs)) - (if 2 <= HourOfDay(a.dutyStart) < 6 then HOUR else 0)
  }

  // ----- the individual checks -----

  function CheckDutyTime(a: Assignment): seq<Violation> {
    if a.dutyEnd - a.dutyStart <= MaxFdp(a) then [] else [FdpLimit]
  }

  function OperatedTime(leg: FlightLeg): int { if leg.isDeadhead then 0 else leg.arr - leg.dep }

  function CheckFlightTime(a: Assignment): seq<Violation> {
    if Total(OperatedTime, a.legs) <= MAX_FLIGHT_TIME then [] else [FlightTimeLimit]
  }

  function CheckRestPeriod(crew: CrewMember, a: Assignment): seq<Violation> {
    if crew.lastRestEnd.None? then []
    else if a.dutyStart - crew.lastRestEnd.value >= MIN_REST then []
    else [MinRest]
  }

  /** An aircraft type with every "neo" removed. */
  function WithoutNeo(name: string): string { Without(name, "neo") }

  function QualificationNamed(name: string): Option<Qualification> {
    if name == "B737" then Some(B737)
    else if name == "B777" then Some(B777)
    else if name == "A320" then Some(A320)
    else if name == "A321" then Some(A321)
    else if name == "B787" then Some(B787)
    else if name == "NIGHT_FLYING" then Some(NightFlying)
    else if name == "ICU_WX" then Some(IcuWx)
    else if name == "ETOPS" then Some(Etops)
    else None
  }

  function QualificationFinding(crew: CrewMember, leg: FlightLeg): seq<Violation> {
    if leg.isDeadhead then []
    else
      match QualificationNamed(WithoutNeo(leg.aircraftType))
      case None => [UnknownAircraft(leg.flightId)]
      case Some(q) => if q in crew.qualifications then [] else [MissingQualification(leg.flightId, q)]
  }

  function QualificationFindings(crew: CrewMember): FlightLeg -> seq<Violation> {
    leg => QualificationFinding(crew, leg)
  }

  function CheckQualifications(crew: CrewMember, a: Assignment): seq<Violation> {
    FlatMap(QualificationFindings(crew), a.legs)
  }

  function DeadheadTime(leg: FlightLeg): int { if leg.isDeadhead then leg.arr - leg.dep else 0 }

  function CheckDeadheadLimits(a: Assignment): seq<Violation> {
    if Total(DeadheadTime, a.legs) <= MAX_DEADHEAD_TIME then [] else [DeadheadLimit]
  }

  function DeadheadStops(leg: FlightLeg): seq<string> {
    if leg.isDeadhead then [leg.origin, leg.destination] else []
  }

  /** The first stop that also occurs earlier in the list. */
  function FirstRepeat(stops: seq<string>): Option<string> {
    if stops == [] then None
    else
      var n := |stops| - 1;
      var earlier := FirstRepeat(stops[..n]);
      if earlier.Some? then earlier else if stops[n] in stops[..n] then Some(stops[n]) else None
  }

  function CheckNoDeadheadLoops(a: Assignment): seq<Violation> {
    var repeat := FirstRepeat(FlatMap(DeadheadStops, a.legs));
    if repeat.Some? then [DeadheadLoop(repeat.value)] else []
  }

  predicate DepartsNoLater(a: FlightLeg, b: FlightLeg) { a.dep <= b.dep }

  function ByDeparture(legs: seq<FlightLeg>): seq<FlightLeg> { Sorted(DepartsNoLater, legs) }

  function LegTimeFinding(leg: FlightLeg): seq<Violation> {
    if leg.arr <= leg.dep then [InvalidLegTime(leg.flightId)] else []
  }

  function PositionFinding(crew: CrewMember, legs: seq<FlightLeg>): seq<Violation> {
    if legs != [] && crew.currentLocation != "" && legs[0].origin != crew.currentLocation then [CrewPosition] else []
  }

  function ConnectionFinding(previous: FlightLeg, current: FlightLeg): seq<Violation> {
    (if previous.destination != current.origin then [LocationDiscontinuity(current.flightId)] else [])
    + (if current.dep - previous.arr < MIN_CONNECTION then [ConnectionTime(current.flightId)] else [])
  }

  function ConnectionFindings(legs: seq<FlightLeg>): seq<Violation> {
    if |legs| < 2 then []
    else
      var n := |legs| - 1;
      ConnectionFindings(legs[..n]) + ConnectionFinding(legs[n - 1], legs[n])
  }

  function CheckContinuity(crew: CrewMember, a: Assignment): seq<Violation> {
    var legs := ByDeparture(a.legs);
    FlatMap(LegTimeFinding, legs) + PositionFinding(crew, legs) + ConnectionFindings(legs)
  }

  datatype Check =
    | DutyTimeCheck | FlightTimeCheck | RestPeriodCheck | QualificationsCheck
    | DeadheadLimitsCheck | NoDeadheadLoopsCheck | ContinuityCheck

  /** The checks, in the order they run. */
  const CHECKS := [DutyTimeCheck, FlightTimeCheck, RestPeriodCheck, QualificationsCheck,
                   DeadheadLimitsCheck, NoDeadheadLoopsCheck, ContinuityCheck]

  function Findings(crew: CrewMember, a: Assignment, check: Check): seq<Violation> {
    match check
    case DutyTimeCheck => CheckDutyTime(a)
    case FlightTimeCheck => CheckFlightTime(a)
    case RestPeriodCheck => CheckRestPeriod(crew, a)
    case QualificationsCheck => CheckQualifications(crew, a)
    case DeadheadLimitsCheck => CheckDeadheadLimits(a)
    case NoDeadheadLoopsCheck => CheckNoDeadheadLoops(a)
    case ContinuityCheck => CheckContinuity(crew, a)
  }

  function FindingsOf(crew: CrewMember, a: Assignment): Check -> seq<Violation> {
    check => Findings(crew, a, check)
  }

  /** The findings of all checks together. */
  function Validate(crew: CrewMember, a: Assignment): seq<Violation> {
    FlatMap(FindingsOf(crew, a), CHECKS)
  }

  predicate Legal(crew: CrewMember, a: Assignment) { Validate(crew, a) == [] }

  // ----- the checks that loop, as loops -----

  method ReportQualifications(crew: CrewMember, a: Assignment) returns (out: seq<Violation>)
    ensures out == CheckQualifications(crew, a)
  {
    out := [];
    for i := 0 to |a.legs|
      invariant out == FlatMap(QualificationFindings(crew), a.legs[..i])
    {
      assert a.legs[..i + 1][..i] == a.legs[..i];
      var leg := a.legs[i];
      if leg.isDeadhead {
        continue;
      }
      var required := QualificationNamed(WithoutNeo(leg.aircraftType));
      if required.None? {
        out := out + [UnknownAircraft(leg.flightId)];
        continue;
      }
      if required.value !in crew.qualifications {
        out := out + [MissingQualification(leg.flightId, required.value)];
      }
    }
    assert a.legs[..|a.legs|] == a.legs;
  }

  lemma {:induction false} RepeatStays(stops: seq<string>, i: nat)
    requires i <= |stops| && FirstRepeat(stops[..i]).Some?
    ensures FirstRepeat(stops) == FirstRepeat(stops[..i])
  {
    if i == |stops| {
      assert stops[..i] == stops;
    } else {
      var n := |stops| - 1;
      assert stops[..n][..i] == stops[..i];
      RepeatStays(stops[..n], i);
    }
  }

  method ReportDeadheadLoops(a: Assignment) returns (out: seq<Violation>)
    ensures out == CheckNoDeadheadLoops(a)
  {
    var locations := CollectDeadheadStops(a);
    var seen: set<string> := {};
    for i := 0 to |locations|
      invariant seen == set x | x in locations[..i]
      invariant FirstRepeat(locations[..i]).None?
    {
      assert locations[..i + 1][..i] == locations[..i];
      if locations[i] in seen {
        RepeatStays(locations, i + 1);
        return [DeadheadLoop(locations[i])];
      }
      seen := seen + {locations[i]};
    }
    assert locations[..|locations|] == locations;
    return [];
  }

  method CollectDeadheadStops(a: Assignment) returns (locations: seq<string>)
    ensures locations == FlatMap(DeadheadStops, a.legs)
  {
    locations := [];
    for i := 0 to |a.legs|
      invariant locations == FlatMap(DeadheadStops, a.legs[..i])
    {
      assert a.legs[..i + 1][..i] == a.legs[..i];
      var leg := a.legs[i];
      if leg.isDeadhead {
        locations := locations + [leg.origin, leg.destination];
      }
    }
    assert a.legs[..|a.legs|] == a.legs;
  }

  method ReportLegTimes(legs: seq<FlightLeg>) returns (out: seq<Violation>)
    ensures out == FlatMap(LegTimeFinding, legs)
  {
    out := [];
    for i := 0 to |legs|
      invariant out == FlatMap(LegTimeFinding, legs[..i])
    {
      assert legs[..i + 1][..i] == legs[..i];
      if legs[i].arr <= legs[i].dep {
        out := out + [InvalidLegTime(legs[i].flightId)];
      }
    }
    assert legs[..|legs|] == legs;
  }

  method ReportConnections(legs: seq<FlightLeg>) returns (out: seq<Violation>)
    ensures out == ConnectionFindings(legs)
  {
    out := [];
    if |legs| < 2 {
      return;
    }
    for i := 1 to |legs|
      invariant out == ConnectionFindings(legs[..i])
    {
      assert legs[..i + 1][..i] == legs[..i];
      var previous, current := legs[i - 1], legs[i];
      var found: seq<Violation> := [];
      if previous.destination != current.origin {
        found := [LocationDiscontinuity(current.flightId)];
      }
      if current.dep - previous.arr < MIN_CONNECTION {
        found := found + [ConnectionTime(current.flightId)];
      }
      assert found == ConnectionFinding(previous, current);
      out := out + found;
    }
    assert legs[..|legs|] == legs;
  }

  method ReportContinuity(crew: CrewMember, a: Assignment) returns (out: seq<Violation>)
    ensures out == CheckContinuity(crew, a)
  {
    var legs := ByDeparture(a.legs);
    out := ReportLegTimes(legs);
    if legs != [] && crew.currentLocation != "" && legs[0].origin != crew.currentLocation {
      out := out + [CrewPosition];
    }
    var connections := ReportConnections(legs);
    out := out + connections;
  }

  method RunCheck(crew: CrewMember, a: Assignment, check: Check) returns (out: seq<Violation>)
    ensures out == Findings(crew, a, check)
  {
    match check
    case DutyTimeCheck => out := CheckDutyTime(a);
    case FlightTimeCheck => out := CheckFlightTime(a);
    case RestPeriodCheck => out := CheckRestPeriod(crew, a);
    case QualificationsCheck => out := ReportQualifications(crew, a);
    case DeadheadLimitsCheck => out := CheckDeadheadLimits(a);
    case NoDeadheadLoopsCheck => out := ReportDeadheadLoops(a);
    case ContinuityCheck => out := ReportContinuity(crew, a);
  }

  method ValidateAssignment(crew: CrewMember, a: Assignment) returns (violations: seq<Violation>)
    ensures violations == Validate(crew, a)
  {
    violations := [];
    for i := 0 to |CHECKS|
      invariant violations == FlatMap(FindingsOf(crew, a), CHECKS[..i])
    {
      assert CHECKS[..i + 1][..i] == CHECKS[..i];
      var found := RunCheck(crew, a, CHECKS[i]);
      violations := violations + found;
    }
    assert CHECKS[..|CHECKS|] == CHECKS;
  }
}
