/** What legality means as one condition, and what follows from it: independence of leg order,
    closure under prefixes, and the bound on the number of legs of a duty. */
module LegalityProperties {
  import opened Sequences
  import opened Text
  import opened RulesEngine

  ghost predicate Rested(crew: CrewMember, start: int) {
    crew.lastRestEnd.None? || start - crew.lastRestEnd.value >= MIN_REST
  }

  /** The name a rating is looked up by. */
  ghost function RatingName(q: Qualification): string {
    match q
    case B737 => "B737"
    case B777 => "B777"
    case A320 => "A320"
    case A321 => "A321"
    case B787 => "B787"
    case NightFlying => "NIGHT_FLYING"
    case IcuWx => "ICU_WX"
    case Etops => "ETOPS"
  }

  ghost predicate IsRating(name: string) {
    exists q :: RatingName(q) == name
  }

  /** The rating found under a name is the one that bears it. */
  lemma NamedIff(name: string, q: Qualification)
    ensures QualificationNamed(name) == Some(q) <==> RatingName(q) == name
    ensures QualificationNamed(name).Some? <==> IsRating(name)
  {
    assert IsRating(RatingName(q));
    if QualificationNamed(name).Some? {
      assert RatingName(QualificationNamed(name).value) == name;
    }
  }

  ghost predicate HoldsRating(crew: CrewMember, name: string) {
    exists q :: q in crew.qualifications && RatingName(q) == name
  }

  /** An operated leg asks for the rating named like its aircraft type without "neo". */
  ghost predicate QualifiedFor(crew: CrewMember, leg: FlightLeg) {
    leg.isDeadhead || HoldsRating(crew, WithoutNeo(leg.aircraftType))
  }

  lemma NoQualificationFinding(crew: CrewMember, leg: FlightLeg)
    ensures QualificationFinding(crew, leg) == [] <==> QualifiedFor(crew, leg)
  {
    var name := WithoutNeo(leg.aircraftType);
    forall q
      ensures QualificationNamed(name) == Some(q) <==> RatingName(q) == name
    {
      NamedIff(name, q);
    }
  }

  /** One leg may directly follow another. */
  ghost predicate Connects(previous: FlightLeg, current: FlightLeg) {
    previous.destination == current.origin && current.dep >= previous.arr + MIN_CONNECTION
  }

  /** The legs, in this very order, are one unbroken journey from where the crew is. */
  ghost predicate Continuous(crew: CrewMember, legs: seq<FlightLeg>) {
    && (forall leg :: leg in legs ==> leg.dep < leg.arr)
    && (legs != [] && crew.currentLocation != "" ==> legs[0].origin == crew.currentLocation)
    && (forall i :: 1 <= i < |legs| ==> Connects(legs[i - 1], legs[i]))
  }

  lemma {:induction false} NoRepeatIffDistinct(stops: seq<string>)
    ensures FirstRepeat(stops).None? <==> Distinct(stops)
  {
    if stops != [] {
      var n := |stops| - 1;
      NoRepeatIffDistinct(stops[..n]);
      assert stops == stops[..n] + [stops[n]];
    }
  }

  lemma {:induction false} NoConnectionFindings(legs: seq<FlightLeg>)
    ensures ConnectionFindings(legs) == [] <==> forall i :: 1 <= i < |legs| ==> Connects(legs[i - 1], legs[i])
  {
    if |legs| >= 2 {
      var n := |legs| - 1;
      NoConnectionFindings(legs[..n]);
      if forall i :: 1 <= i < |legs| ==> Connects(legs[i - 1], legs[i]) {
        forall i | 1 <= i < n
          ensures Connects(legs[..n][i - 1], legs[..n][i])
        {
          assert Connects(legs[i - 1], legs[i]);
        }
        assert Connects(legs[n - 1], legs[n]);
      }
      if ConnectionFindings(legs) == [] {
        forall i | 1 <= i < |legs|
          ensures Connects(legs[i - 1], legs[i])
        {
          if i < n {
            assert Connects(legs[..n][i - 1], legs[..n][i]);
          }
        }
      }
    }
  }

  lemma NoContinuityFindings(crew: CrewMember, a: Assignment)
    ensures CheckContinuity(crew, a) == [] <==> Continuous(crew, ByDeparture(a.legs))
  {
    var legs := ByDeparture(a.legs);
    FlatMapEmpty(LegTimeFinding, legs);
    NoConnectionFindings(legs);
  }

  lemma NoQualificationFindings(crew: CrewMember, a: Assignment)
    ensures CheckQualifications(crew, a) == [] <==> forall leg :: leg in a.legs ==> QualifiedFor(crew, leg)
  {
    FlatMapEmpty(QualificationFindings(crew), a.legs);
    forall leg
      ensures QualificationFindings(crew)(leg) == [] <==> QualifiedFor(crew, leg)
    {
      NoQualificationFinding(crew, leg);
    }
  }

  lemma NoFindingsIff(crew: CrewMember, a: Assignment)
    ensures Legal(crew, a) <==> forall check :: Findings(crew, a, check) == []
  {
    FlatMapEmpty(FindingsOf(crew, a), CHECKS);
    forall check: Check
      ensures check in CHECKS
    {
      assert check == CHECKS[0] || check == CHECKS[1] || check == CHECKS[2] || check == CHECKS[3]
          || check == CHECKS[4] || check == CHECKS[5] || check == CHECKS[6];
    }
    if Legal(crew, a) {
      forall check: Check
        ensures Findings(crew, a, check) == []
      {
        assert FindingsOf(crew, a)(check) == [];
      }
    }
  }

  lemma EachCheck(crew: CrewMember, a: Assignment)
    ensures (forall check :: Findings(crew, a, check) == []) <==>
      && Findings(crew, a, DutyTimeCheck) == [] && Findings(crew, a, FlightTimeCheck) == []
      && Findings(crew, a, RestPeriodCheck) == [] && Findings(crew, a, QualificationsCheck) == []
      && Findings(crew, a, DeadheadLimitsCheck) == [] && Findings(crew, a, NoDeadheadLoopsCheck) == []
      && Findings(crew, a, ContinuityCheck) == []
  {
    forall check: Check
      ensures check.DutyTimeCheck? || check.FlightTimeCheck? || check.RestPeriodCheck? || check.QualificationsCheck?
        || check.DeadheadLimitsCheck? || check.NoDeadheadLoopsCheck? || check.ContinuityCheck?
    {
    }
  }

  /** The duty fits its limits, its crew is rested and rated, and its legs form a journey. */
  ghost predicate Lawful(crew: CrewMember, a: Assignment) {
    && a.dutyEnd - a.dutyStart <= MaxFdp(a)
    && Total(OperatedTime, a.legs) <= MAX_FLIGHT_TIME
    && Rested(crew, a.dutyStart)
    && (forall leg :: leg in a.legs ==> QualifiedFor(crew, leg))
    && Total(DeadheadTime, a.legs) <= MAX_DEADHEAD_TIME
    && Distinct(FlatMap(DeadheadStops, a.legs))
    && Continuous(crew, ByDeparture(a.legs))
  }

  lemma LegalIsEachCheck(crew: CrewMember, a: Assignment)
    ensures Legal(crew, a) <==>
      && Findings(crew, a, DutyTimeCheck) == [] && Findings(crew, a, FlightTimeCheck) == []
      && Findings(crew, a, RestPeriodCheck) == [] && Findings(crew, a, QualificationsCheck) == []
      && Findings(crew, a, DeadheadLimitsCheck) == [] && Findings(crew, a, NoDeadheadLoopsCheck) == []
      && Findings(crew, a, ContinuityCheck) == []
  {
    NoFindingsIff(crew, a);
    EachCheck(crew, a);
  }

  lemma FindingsOfEachCheck(crew: CrewMember, a: Assignment)
    ensures Findings(crew, a, DutyTimeCheck) == CheckDutyTime(a)
    ensures Findings(crew, a, FlightTimeCheck) == CheckFlightTime(a)
    ensures Findings(crew, a, RestPeriodCheck) == CheckRestPeriod(crew, a)
    ensures Findings(crew, a, QualificationsCheck) == CheckQualifications(crew, a)
    ensures Findings(crew, a, DeadheadLimitsCheck) == CheckDeadheadLimits(a)
    ensures Findings(crew, a, NoDeadheadLoopsCheck) == CheckNoDeadheadLoops(a)
    ensures Findings(crew, a, ContinuityCheck) == CheckContinuity(crew, a)
  {
  }

  lemma NoLimitFindings(crew: CrewMember, a: Assignment)
    ensures CheckDutyTime(a) == [] <==> a.dutyEnd - a.dutyStart <= MaxFdp(a)
    ensures CheckFlightTime(a) == [] <==> Total(OperatedTime, a.legs) <= MAX_FLIGHT_TIME
    ensures CheckRestPeriod(crew, a) == [] <==> Rested(crew, a.dutyStart)
    ensures CheckDeadheadLimits(a) == [] <==> Total(DeadheadTime, a.legs) <= MAX_DEADHEAD_TIME
  {
  }

  lemma NoDeadheadLoopFindings(a: Assignment)
    ensures CheckNoDeadheadLoops(a) == [] <==> Distinct(FlatMap(DeadheadStops, a.legs))
  {
    NoRepeatIffDistinct(FlatMap(DeadheadStops, a.legs));
  }

  /** The engine reports nothing exactly for lawful duties. */
  lemma LegalIff(crew: CrewMember, a: Assignment)
    ensures Legal(crew, a) <==> Lawful(crew, a)
  {
    LegalIsEachCheck(crew, a);
    FindingsOfEachCheck(crew, a);
    NoLimitFindings(crew, a);
    NoQualificationFindings(crew, a);
    NoDeadheadLoopFindings(a);
    NoContinuityFindings(crew, a);
  }

  // ----- order of departure -----

  lemma DepartureIsPreorder()
    ensures TotalPreorder(DepartsNoLater)
  {
  }

  /** In an unbroken journey each leg lands well before any later leg leaves. */
  lemma {:induction false} JourneyMovesForward(crew: CrewMember, legs: seq<FlightLeg>, i: nat, j: nat)
    requires Continuous(crew, legs) && i < j < |legs|
    ensures legs[i].arr + MIN_CONNECTION <= legs[j].dep && legs[i].dep < legs[j].dep
    decreases j
  {
    assert legs[i] in legs && legs[j - 1] in legs;
    assert Connects(legs[j - 1], legs[j]);
    if i < j - 1 {
      JourneyMovesForward(crew, legs, i, j - 1);
    }
  }

  lemma JourneyIsInOrder(crew: CrewMember, legs: seq<FlightLeg>)
    requires Continuous(crew, legs)
    ensures Ordered(DepartsNoLater, legs) && ByDeparture(legs) == legs
    ensures forall i, j :: 0 <= i < j < |legs| ==> !DepartsNoLater(legs[j], legs[i])
  {
    forall i, j | 0 <= i < j < |legs|
      ensures DepartsNoLater(legs[i], legs[j]) && !DepartsNoLater(legs[j], legs[i])
    {
      JourneyMovesForward(crew, legs, i, j);
    }
    SortedFixesOrdered(DepartsNoLater, legs);
  }

  /** Sorting a rearrangement of a journey's legs gives the journey back. */
  lemma RearrangementSortsBack(crew: CrewMember, legs: seq<FlightLeg>, others: seq<FlightLeg>)
    requires multiset(legs) == multiset(others) && Continuous(crew, ByDeparture(legs))
    ensures ByDeparture(others) == ByDeparture(legs)
  {
    var journey := ByDeparture(legs);
    SortedIsPermutation(DepartsNoLater, legs);
    SortedIsPermutation(DepartsNoLater, others);
    DepartureIsPreorder();
    SortedIsOrdered(DepartsNoLater, others);
    JourneyIsInOrder(crew, journey);
    StrictOrderIsUnique(DepartsNoLater, journey, ByDeparture(others));
  }

  lemma LawfulAfterReordering(crew: CrewMember, a: Assignment, legs: seq<FlightLeg>)
    requires multiset(legs) == multiset(a.legs) && Lawful(crew, a)
    ensures Lawful(crew, a.(legs := legs))
  {
    TotalPermutation(OperatedSector, a.legs, legs);
    TotalPermutation(OperatedTime, a.legs, legs);
    TotalPermutation(DeadheadTime, a.legs, legs);
    PermutationMembers(a.legs, legs);
    FlatMapPermutation(DeadheadStops, a.legs, legs);
    DistinctPermutation(FlatMap(DeadheadStops, a.legs), FlatMap(DeadheadStops, legs));
    RearrangementSortsBack(crew, a.legs, legs);
  }

  /** The verdict does not depend on the order in which the legs are listed. */
  lemma LegalityIgnoresLegOrder(crew: CrewMember, a: Assignment, legs: seq<FlightLeg>)
    requires multiset(legs) == multiset(a.legs)
    ensures Legal(crew, a) <==> Legal(crew, a.(legs := legs))
  {
    LegalIff(crew, a);
    LegalIff(crew, a.(legs := legs));
    if Lawful(crew, a) {
      LawfulAfterReordering(crew, a, legs);
    }
    if Lawful(crew, a.(legs := legs)) {
      LawfulAfterReordering(crew, a.(legs := legs), a.legs);
      assert a.(legs := legs).(legs := a.legs) == a;
    }
  }

  lemma LawfulHasNoTies(crew: CrewMember, a: Assignment, i: nat, j: nat)
    requires i < j < |a.legs| && Continuous(crew, ByDeparture(a.legs))
    ensures a.legs[i].dep != a.legs[j].dep
  {
    if a.legs[i].dep == a.legs[j].dep {
      var t := a.legs[i].dep;
      var journey := ByDeparture(a.legs);
      SortedIsPermutation(DepartsNoLater, a.legs);
      TotalPermutation(DepartsAt(t), journey, a.legs);
      JourneyIsInOrder(crew, journey);
      OneAtMost(journey, t);
      TwoAtLeast(DepartsAt(t), a.legs, i, j);
    }
  }

  /** Two entries that leave at the same instant make every arrangement illegal. */
  lemma TiesAreIllegal(crew: CrewMember, a: Assignment, i: nat, j: nat, legs: seq<FlightLeg>)
    requires i < j < |a.legs| && a.legs[i].dep == a.legs[j].dep
    requires multiset(legs) == multiset(a.legs)
    ensures !Legal(crew, a.(legs := legs))
  {
    LegalityIgnoresLegOrder(crew, a, legs);
    LegalIff(crew, a);
    if Lawful(crew, a) {
      LawfulHasNoTies(crew, a, i, j);
    }
  }

  ghost function DepartsAt(t: int): FlightLeg -> int { (leg: FlightLeg) => if leg.dep == t then 1 else 0 }

  lemma {:induction false} NonNegativeTotal(f: FlightLeg -> int, legs: seq<FlightLeg>)
    requires forall leg :: leg in legs ==> f(leg) >= 0
    ensures Total(f, legs) >= 0
  {
    if legs != [] {
      var n := |legs| - 1;
      assert legs == legs[..n] + [legs[n]];
      NonNegativeTotal(f, legs[..n]);
    }
  }

  lemma {:induction false} TotalHasMember(f: FlightLeg -> int, legs: seq<FlightLeg>, i: nat)
    requires i < |legs| && forall leg :: leg in legs ==> f(leg) >= 0
    ensures Total(f, legs) >= f(legs[i])
  {
    var n := |legs| - 1;
    assert legs == legs[..n] + [legs[n]];
    NonNegativeTotal(f, legs[..n]);
    if i < n {
      TotalHasMember(f, legs[..n], i);
    }
  }

  lemma {:induction false} TwoAtLeast(f: FlightLeg -> int, legs: seq<FlightLeg>, i: nat, j: nat)
    requires i < j < |legs| && f(legs[i]) == 1 && f(legs[j]) == 1
    requires forall leg :: leg in legs ==> f(leg) >= 0
    ensures Total(f, legs) >= 2
  {
    var n := |legs| - 1;
    assert legs == legs[..n] + [legs[n]];
    if j < n {
      TwoAtLeast(f, legs[..n], i, j);
    } else {
      TotalHasMember(f, legs[..n], i);
    }
  }

  lemma {:induction false} OneAtMost(legs: seq<FlightLeg>, t: int)
    requires forall i, j :: 0 <= i < j < |legs| ==> !DepartsNoLater(legs[j], legs[i])
    ensures Total(DepartsAt(t), legs) <= 1
    ensures legs != [] && legs[|legs| - 1].dep < t ==> Total(DepartsAt(t), legs) == 0
  {
    if legs != [] {
      OneAtMost(legs[..|legs| - 1], t);
    }
  }

  // ----- the number of legs of a duty -----

  /** Every leg lies inside the duty window, as it does in every duty the solvers build. */
  ghost predicate WindowCovers(a: Assignment) {
    forall leg :: leg in a.legs ==> a.dutyStart <= leg.dep && leg.arr <= a.dutyEnd
  }

  lemma {:induction false} JourneySpan(crew: CrewMember, legs: seq<FlightLeg>, k: nat)
    requires Continuous(crew, legs) && k < |legs|
    ensures legs[k].arr - legs[0].dep > k * MIN_CONNECTION
  {
    assert legs[k] in legs;
    if k > 0 {
      JourneySpan(crew, legs, k - 1);
      assert Connects(legs[k - 1], legs[k]);
    }
  }

  /** The stops of two neighbouring deadheads stand next to each other in the list of stops. */
  lemma NeighbouringStops(legs: seq<FlightLeg>, i: nat) returns (k: nat)
    requires 1 <= i < |legs| && legs[i - 1].isDeadhead && legs[i].isDeadhead
    ensures k + 2 < |FlatMap(DeadheadStops, legs)|
    ensures FlatMap(DeadheadStops, legs)[k + 1] == legs[i - 1].destination
    ensures FlatMap(DeadheadStops, legs)[k + 2] == legs[i].origin
  {
    var before, after := legs[..i - 1], legs[i + 1..];
    assert legs == legs[..i + 1] + after;
    FlatMapConcat(DeadheadStops, legs[..i + 1], after);
    assert legs[..i + 1][..i] == legs[..i] && legs[..i][..i - 1] == before;
    assert FlatMap(DeadheadStops, legs[..i + 1])
      == FlatMap(DeadheadStops, before) + DeadheadStops(legs[i - 1]) + DeadheadStops(legs[i]);
    k := |FlatMap(DeadheadStops, before)|;
  }

  lemma NoTwoDeadheadsInARow(crew: CrewMember, legs: seq<FlightLeg>, i: nat)
    requires Continuous(crew, legs) && Distinct(FlatMap(DeadheadStops, legs)) && 1 <= i < |legs|
    ensures !(legs[i - 1].isDeadhead && legs[i].isDeadhead)
  {
    if legs[i - 1].isDeadhead && legs[i].isDeadhead {
      assert Connects(legs[i - 1], legs[i]);
      var k := NeighbouringStops(legs, i);
    }
  }

  lemma {:induction false} AlternatingLegs(legs: seq<FlightLeg>)
    requires forall i :: 1 <= i < |legs| ==> !(legs[i - 1].isDeadhead && legs[i].isDeadhead)
    ensures |legs| <= 2 * Sectors(legs) + (if legs != [] && legs[|legs| - 1].isDeadhead then 1 else 0)
  {
    if legs != [] {
      var n := |legs| - 1;
      AlternatingLegs(legs[..n]);
    }
  }

  lemma JourneyAlternates(crew: CrewMember, legs: seq<FlightLeg>)
    requires Continuous(crew, legs) && Distinct(FlatMap(DeadheadStops, legs))
    ensures |legs| <= 2 * Sectors(legs) + 1
  {
    forall i | 1 <= i < |legs|
      ensures !(legs[i - 1].isDeadhead && legs[i].isDeadhead)
    {
      NoTwoDeadheadsInARow(crew, legs, i);
    }
    AlternatingLegs(legs);
  }

  lemma FdpLeavesRoomFor25(operated: int, gaps: int)
    requires operated >= 5 && gaps * MIN_CONNECTION < FdpBySectors(operated)
    ensures gaps < 25
  {
  }

  lemma JourneyFitsItsLimit(crew: CrewMember, a: Assignment, journey: seq<FlightLeg>)
    requires Continuous(crew, journey) && WindowCovers(a) && a.dutyEnd - a.dutyStart <= MaxFdp(a)
    requires journey != [] && forall leg :: leg in journey ==> leg in a.legs
    ensures (|journey| - 1) * MIN_CONNECTION < FdpBySectors(Sectors(a.legs))
  {
    var n := |journey| - 1;
    JourneySpan(crew, journey, n);
    assert journey[0] in a.legs && journey[n] in a.legs;
  }

  lemma JourneyIsFree(crew: CrewMember, a: Assignment, journey: seq<FlightLeg>)
    requires multiset(journey) == multiset(a.legs) && Distinct(FlatMap(DeadheadStops, a.legs))
    ensures Distinct(FlatMap(DeadheadStops, journey)) && Sectors(journey) == Sectors(a.legs)
  {
    TotalPermutation(OperatedSector, journey, a.legs);
    FlatMapPermutation(DeadheadStops, a.legs, journey);
    DistinctPermutation(FlatMap(DeadheadStops, a.legs), FlatMap(DeadheadStops, journey));
  }

  lemma JourneyBound(crew: CrewMember, a: Assignment, journey: seq<FlightLeg>)
    requires Continuous(crew, journey) && WindowCovers(a) && a.dutyEnd - a.dutyStart <= MaxFdp(a)
    requires forall leg :: leg in journey ==> leg in a.legs
    requires |journey| <= 2 * Sectors(a.legs) + 1
    ensures |journey| <= 25
  {
    if journey != [] && Sectors(a.legs) >= 5 {
      JourneyFitsItsLimit(crew, a, journey);
      FdpLeavesRoomFor25(Sectors(a.legs), |journey| - 1);
    }
  }

  lemma LawfulLegBound(crew: CrewMember, a: Assignment)
    requires Lawful(crew, a) && WindowCovers(a)
    ensures |a.legs| <= 25 && |a.legs| <= 2 * Sectors(a.legs) + 1
  {
    var journey := ByDeparture(a.legs);
    SortedIsPermutation(DepartsNoLater, a.legs);
    PermutationMembers(journey, a.legs);
    JourneyIsFree(crew, a, journey);
    JourneyAlternates(crew, journey);
    JourneyBound(crew, a, journey);
  }

  /** No legal duty has more than 25 legs, nor more than 2s+1 for s operated ones. */
  lemma LegBound(crew: CrewMember, a: Assignment)
    requires Legal(crew, a) && WindowCovers(a)
    ensures |a.legs| <= 25 && |a.legs| <= 2 * Sectors(a.legs) + 1
  {
    LegalIff(crew, a);
    LawfulLegBound(crew, a);
  }

  /** Shuttle legs of one minute, half an hour apart. */
  ghost function ShuttleLeg(i: int): FlightLeg {
    FlightLeg("S", if i % 2 == 0 then "A" else "B", if i % 2 == 0 then "B" else "A",
              31 * i * MINUTE, (31 * i + 1) * MINUTE, "A320", false)
  }

  ghost function Shuttle(n: nat): seq<FlightLeg> { seq(n, i => ShuttleLeg(i)) }

  lemma {:induction false} ShuttleTotals(n: nat)
    ensures Sectors(Shuttle(n)) == n && Total(OperatedTime, Shuttle(n)) == n * MINUTE
    ensures Total(DeadheadTime, Shuttle(n)) == 0 && FlatMap(DeadheadStops, Shuttle(n)) == []
  {
    if n > 0 {
      ShuttleTotals(n - 1);
      assert Shuttle(n)[..n - 1] == Shuttle(n - 1);
    }
  }

  lemma ShuttleIsContinuous(crew: CrewMember, n: nat)
    requires crew.currentLocation == "A"
    ensures Continuous(crew, Shuttle(n)) && ByDeparture(Shuttle(n)) == Shuttle(n)
  {
    var legs := Shuttle(n);
    forall i | 1 <= i < |legs|
      ensures Connects(legs[i - 1], legs[i])
    {
      assert legs[i] == ShuttleLeg(i) && legs[i - 1] == ShuttleLeg(i - 1);
    }
    assert n > 0 ==> legs[0] == ShuttleLeg(0);
    JourneyIsInOrder(crew, legs);
  }

  lemma RatedForA320(crew: CrewMember)
    requires A320 in crew.qualifications
    ensures HoldsRating(crew, WithoutNeo("A320"))
  {
    NothingToRemove("A320", "neo");
    assert RatingName(A320) == "A320";
  }

  lemma ShuttleIsQualified(crew: CrewMember, n: nat)
    requires A320 in crew.qualifications
    ensures forall leg :: leg in Shuttle(n) ==> QualifiedFor(crew, leg)
  {
    RatedForA320(crew);
    assert forall leg :: leg in Shuttle(n) ==> leg.aircraftType == "A320";
  }

  lemma ShuttleIsLawful(crew: CrewMember, a: Assignment, n: nat)
    requires A320 in crew.qualifications && crew.currentLocation == "A" && crew.lastRestEnd.None?
    requires n == 25 && a.legs == Shuttle(n) && a.dutyStart == 0 && a.dutyEnd == 745 * MINUTE
    ensures Lawful(crew, a)
  {
    ShuttleTotals(n);
    ShuttleIsQualified(crew, n);
    ShuttleIsContinuous(crew, n);
    ShuttleLimit(a);
  }

  lemma ShuttleLimit(a: Assignment)
    requires Sectors(a.legs) == 25 && a.dutyStart == 0
    ensures MaxFdp(a) == 750 * MINUTE
  {
    assert HourOfDay(0) == 0;
  }

  /** The bound of 25 is attained. */
  lemma LegBoundIsExact() returns (crew: CrewMember, a: Assignment)
    ensures Legal(crew, a) && WindowCovers(a) && |a.legs| == 25
  {
    var n := 25;
    crew := CrewMember("C", "A", {A320}, "A", None);
    a := Assignment("C", Shuttle(n), 0, 745 * MINUTE);
    ShuttleIsLawful(crew, a, n);
    LegalIff(crew, a);
  }

  // ----- duties with a tight window -----

  /** The duty a column stands for: it starts with the first leg and ends with the last one. */
  function ChainDuty(crewId: string, legs: seq<FlightLeg>): Assignment
    requires legs != []
  {
    Assignment(crewId, legs, legs[0].dep, legs[|legs| - 1].arr)
  }

  lemma {:induction false} PrefixTotals(f: FlightLeg -> int, legs: seq<FlightLeg>, k: nat)
    requires k <= |legs| && forall leg :: leg in legs ==> f(leg) >= 0
    ensures Total(f, legs[..k]) <= Total(f, legs)
  {
    assert legs == legs[..k] + legs[k..];
    TotalConcat(f, legs[..k], legs[k..]);
    NonNegativeTotal(f, legs[k..]);
  }

  lemma PrefixJourney(crew: CrewMember, legs: seq<FlightLeg>, k: nat)
    requires k <= |legs| && Continuous(crew, legs)
    ensures Continuous(crew, legs[..k])
  {
    var head := legs[..k];
    forall i | 1 <= i < |head|
      ensures Connects(head[i - 1], head[i])
    {
      assert Connects(legs[i - 1], legs[i]);
    }
  }

  lemma PrefixKeepsLimits(legs: seq<FlightLeg>, k: nat)
    requires k <= |legs| && forall leg :: leg in legs ==> leg.dep < leg.arr
    ensures FdpBySectors(Sectors(legs[..k])) >= FdpBySectors(Sectors(legs))
    ensures Total(OperatedTime, legs[..k]) <= Total(OperatedTime, legs)
    ensures Total(DeadheadTime, legs[..k]) <= Total(DeadheadTime, legs)
  {
    PrefixTotals(OperatedSector, legs, k);
    PrefixTotals(OperatedTime, legs, k);
    PrefixTotals(DeadheadTime, legs, k);
  }

  lemma PrefixKeepsStopsDistinct(legs: seq<FlightLeg>, k: nat)
    requires k <= |legs| && Distinct(FlatMap(DeadheadStops, legs))
    ensures Distinct(FlatMap(DeadheadStops, legs[..k]))
  {
    assert legs == legs[..k] + legs[k..];
    FlatMapConcat(DeadheadStops, legs[..k], legs[k..]);
    var all, head := FlatMap(DeadheadStops, legs), FlatMap(DeadheadStops, legs[..k]);
    assert forall i :: 0 <= i < |head| ==> head[i] == all[i];
  }

  /** A shorter prefix leaves no later, and its limit is no lower. */
  lemma PrefixKeepsWindow(crew: CrewMember, crewId: string, legs: seq<FlightLeg>, k: nat)
    requires 1 <= k <= |legs| && Continuous(crew, legs)
    ensures ChainDuty(crewId, legs[..k]).dutyStart == ChainDuty(crewId, legs).dutyStart
    ensures ChainDuty(crewId, legs[..k]).dutyEnd <= ChainDuty(crewId, legs).dutyEnd
    ensures MaxFdp(ChainDuty(crewId, legs)) <= MaxFdp(ChainDuty(crewId, legs[..k]))
  {
    PrefixKeepsLimits(legs, k);
    if k < |legs| {
      JourneyMovesForward(crew, legs, k - 1, |legs| - 1);
      assert legs[|legs| - 1] in legs;
    }
  }

  lemma PrefixIsLawful(crew: CrewMember, crewId: string, legs: seq<FlightLeg>, k: nat)
    requires 1 <= k <= |legs| && Continuous(crew, legs) && Lawful(crew, ChainDuty(crewId, legs))
    ensures Lawful(crew, ChainDuty(crewId, legs[..k]))
  {
    PrefixJourney(crew, legs, k);
    JourneyIsInOrder(crew, legs[..k]);
    PrefixKeepsLimits(legs, k);
    PrefixKeepsStopsDistinct(legs, k);
    PrefixKeepsWindow(crew, crewId, legs, k);
    assert forall leg :: leg in legs[..k] ==> leg in legs;
  }

  /** A journey cut short is still legal, with its window cut at the same point. */
  lemma PrefixIsLegal(crew: CrewMember, crewId: string, legs: seq<FlightLeg>, k: nat)
    requires 1 <= k <= |legs| && Continuous(crew, legs) && Legal(crew, ChainDuty(crewId, legs))
    ensures Continuous(crew, legs[..k]) && Legal(crew, ChainDuty(crewId, legs[..k]))
  {
    LegalIff(crew, ChainDuty(crewId, legs));
    LegalIff(crew, ChainDuty(crewId, legs[..k]));
    PrefixJourney(crew, legs, k);
    PrefixIsLawful(crew, crewId, legs, k);
  }

  function Earliest(legs: seq<FlightLeg>): int
    requires legs != []
  {
    var n := |legs| - 1;
    if n == 0 || legs[n].dep < Earliest(legs[..n]) then legs[n].dep else Earliest(legs[..n])
  }

  function Latest(legs: seq<FlightLeg>): int
    requires legs != []
  {
    var n := |legs| - 1;
    if n == 0 || legs[n].arr > Latest(legs[..n]) then legs[n].arr else Latest(legs[..n])
  }

  /** The duty whose window runs from the earliest departure to the latest arrival. */
  function TightDuty(crewId: string, legs: seq<FlightLeg>): Assignment
    requires legs != []
  {
    Assignment(crewId, legs, Earliest(legs), Latest(legs))
  }

  lemma {:induction false} WindowBounds(legs: seq<FlightLeg>)
    requires legs != []
    ensures forall leg :: leg in legs ==> Earliest(legs) <= leg.dep && leg.arr <= Latest(legs)
    ensures exists leg :: leg in legs && leg.dep == Earliest(legs)
    ensures exists leg :: leg in legs && leg.arr == Latest(legs)
  {
    var n := |legs| - 1;
    assert legs == legs[..n] + [legs[n]];
    assert forall leg :: leg in legs <==> leg in legs[..n] || leg == legs[n];
    if n > 0 {
      WindowBounds(legs[..n]);
    }
  }

  /** For a journey the two windows are the same. */
  lemma JourneyWindow(crew: CrewMember, crewId: string, legs: seq<FlightLeg>)
    requires legs != [] && Continuous(crew, legs)
    ensures ChainDuty(crewId, legs) == TightDuty(crewId, legs)
  {
    WindowBounds(legs);
    var n := |legs| - 1;
    assert legs[0] in legs && legs[n] in legs;
    forall i | 0 <= i <= n
      ensures legs[0].dep <= legs[i].dep && legs[i].arr <= legs[n].arr
    {
      assert legs[i] in legs;
      if 0 < i { JourneyMovesForward(crew, legs, 0, i); }
      if i < n { JourneyMovesForward(crew, legs, i, n); }
    }
  }
}
