/** The duty law in its own words (rules/engine.py): when each violation is to be reported, from the legs and the window
    alone. The engine reports exactly these. */
module DutyLaw {
  import opened Sequences
  import opened Text
  import opened RulesEngine
  import opened LegalityProperties

  ghost function Minutes(n: int): int { n * 60_000_000 }

  // ----- what the law speaks of -----

  predicate IsOperated(leg: FlightLeg) { !leg.isDeadhead }

  predicate IsDeadheaded(leg: FlightLeg) { leg.isDeadhead }

  ghost predicate IsEarly(start: int, day: int) {
    Minutes(1440 * day + 120) <= start < Minutes(1440 * day + 360)
  }

  /** Fourteen hours, half an hour less for each of the third to fifth operated sectors, and an hour less for a start
      from two to six in the morning. */
  ghost function DutyMinutes(a: Assignment): int {
    var operated := |Filter(IsOperated, a.legs)|;
    var extra := if operated <= 2 then 0 else if operated >= 5 then 3 else operated - 2;
    840 - 30 * extra - (if exists day :: IsEarly(a.dutyStart, day) then 60 else 0)
  }

  /** Time spent on the operated legs, or on the deadheads. */
  ghost function TimeOn(legs: seq<FlightLeg>, deadhead: bool): int {
    if legs == [] then 0
    else (if legs[0].isDeadhead == deadhead then legs[0].arr - legs[0].dep else 0) + TimeOn(legs[1..], deadhead)
  }

  ghost function Deadheads(a: Assignment): seq<FlightLeg> { Filter(IsDeadheaded, a.legs) }

  /** The k-th airport that the deadheads touch: each leaves from one and goes to one. */
  ghost function Stop(deadheads: seq<FlightLeg>, k: nat): string
    requires k < 2 * |deadheads|
  {
    if k % 2 == 0 then deadheads[k / 2].origin else deadheads[k / 2].destination
  }

  /** The k-th stop is the first that was made before. */
  ghost predicate LoopsAt(deadheads: seq<FlightLeg>, k: nat) {
    && k < 2 * |deadheads|
    && (exists j: nat :: j < k && Stop(deadheads, j) == Stop(deadheads, k))
    && (forall i: nat, j: nat :: i < j < k ==> Stop(deadheads, i) != Stop(deadheads, j))
  }

  /** The legs in the order they leave; legs that leave together stay as listed. */
  ghost predicate IsItinerary(legs: seq<FlightLeg>, itinerary: seq<FlightLeg>) {
    && multiset(itinerary) == multiset(legs)
    && (forall i, j :: 0 <= i < j < |itinerary| ==> itinerary[i].dep <= itinerary[j].dep)
    && (forall t :: Filter(LeavesAt(t), itinerary) == Filter(LeavesAt(t), legs))
  }

  function LeavesAt(t: int): FlightLeg -> bool { (leg: FlightLeg) => leg.dep == t }

  lemma DepartureOrder(legs: seq<FlightLeg>)
    ensures IsItinerary(legs, ByDeparture(legs))
  {
    DepartureIsPreorder();
    SortedIsPermutation(DepartsNoLater, legs);
    SortedIsOrdered(DepartsNoLater, legs);
    forall t
      ensures Filter(LeavesAt(t), ByDeparture(legs)) == Filter(LeavesAt(t), legs)
    {
      SortedIsStable(DepartsNoLater, LeavesAt(t), legs);
    }
  }

  // ----- when each violation is due -----

  ghost predicate LegLacks(crew: CrewMember, leg: FlightLeg, v: Violation) {
    var name := WithoutNeo(leg.aircraftType);
    && !leg.isDeadhead
    && match v
       case UnknownAircraft(id) => id == leg.flightId && !IsRating(name)
       case MissingQualification(id, q) => id == leg.flightId && RatingName(q) == name && q !in crew.qualifications
       case _ => false
  }

  /** The k-th leg of the itinerary does not continue the one before it. */
  ghost predicate BreaksAt(legs: seq<FlightLeg>, k: int, v: Violation) {
    && 1 <= k < |legs|
    && match v
       case LocationDiscontinuity(id) => id == legs[k].flightId && legs[k - 1].destination != legs[k].origin
       case ConnectionTime(id) => id == legs[k].flightId && legs[k].dep < legs[k - 1].arr + Minutes(30)
       case _ => false
  }

  ghost predicate LandsBeforeItLeaves(leg: FlightLeg, v: Violation) {
    v == InvalidLegTime(leg.flightId) && leg.arr <= leg.dep
  }

  ghost predicate Due(crew: CrewMember, a: Assignment, v: Violation) {
    match v
    case FdpLimit => a.dutyEnd - a.dutyStart > Minutes(DutyMinutes(a))
    case FlightTimeLimit => TimeOn(a.legs, false) > Minutes(540)
    case MinRest => crew.lastRestEnd.Some? && a.dutyStart < crew.lastRestEnd.value + Minutes(600)
    case DeadheadLimit => TimeOn(a.legs, true) > Minutes(480)
    case UnknownAircraft(_) => exists leg :: leg in a.legs && LegLacks(crew, leg, v)
    case MissingQualification(_, _) => exists leg :: leg in a.legs && LegLacks(crew, leg, v)
    case DeadheadLoop(location) => exists k: nat :: LoopsAt(Deadheads(a), k) && Stop(Deadheads(a), k) == location
    case InvalidLegTime(_) => exists leg :: leg in a.legs && LandsBeforeItLeaves(leg, v)
    case CrewPosition =>
      var itinerary := ByDeparture(a.legs);
      itinerary != [] && crew.currentLocation != "" && itinerary[0].origin != crew.currentLocation
    case LocationDiscontinuity(_) => exists k :: BreaksAt(ByDeparture(a.legs), k, v)
    case ConnectionTime(_) => exists k :: BreaksAt(ByDeparture(a.legs), k, v)
  }

  // ----- the limits -----

  lemma {:induction false} SectorsAreOperated(legs: seq<FlightLeg>)
    ensures Sectors(legs) == |Filter(IsOperated, legs)|
  {
    if legs != [] {
      SectorsAreOperated(legs[..|legs| - 1]);
    }
  }

  lemma {:induction false} TimesAdd(legs: seq<FlightLeg>)
    ensures Total(OperatedTime, legs) == TimeOn(legs, false)
    ensures Total(DeadheadTime, legs) == TimeOn(legs, true)
  {
    if legs != [] {
      TimesAdd(legs[1..]);
      assert legs == [legs[0]] + legs[1..];
      TotalConcat(OperatedTime, [legs[0]], legs[1..]);
      TotalConcat(DeadheadTime, [legs[0]], legs[1..]);
      Singletons(OperatedTime, DeadheadStops, legs[0]);
      Singletons(DeadheadTime, DeadheadStops, legs[0]);
    }
  }

  lemma EarlyHours(start: int)
    ensures 2 <= HourOfDay(start) < 6 <==> exists day :: IsEarly(start, day)
  {
    var day := (start / HOUR) / 24;
    assert start / HOUR == 24 * day + HourOfDay(start);
    if 2 <= HourOfDay(start) < 6 {
      assert IsEarly(start, day);
    }
    if d :| IsEarly(start, d) {
      assert 24 * d + 2 <= start / HOUR < 24 * d + 6;
    }
  }

  lemma LimitsMean(a: Assignment)
    ensures MaxFdp(a) == Minutes(DutyMinutes(a))
  {
    SectorsAreOperated(a.legs);
    EarlyHours(a.dutyStart);
  }

  // ----- deadhead loops -----

  /** The stops of the deadheads, two for each. */
  lemma {:induction false} StopsOfDeadheads(legs: seq<FlightLeg>)
    ensures
      var stops, deadheads := FlatMap(DeadheadStops, legs), Filter(IsDeadheaded, legs);
      |stops| == 2 * |deadheads| && forall k: nat :: k < |stops| ==> stops[k] == Stop(deadheads, k)
  {
    if legs != [] {
      var n := |legs| - 1;
      StopsOfDeadheads(legs[..n]);
      var before, all := Filter(IsDeadheaded, legs[..n]), Filter(IsDeadheaded, legs);
      forall k: nat | k < |FlatMap(DeadheadStops, legs)|
        ensures FlatMap(DeadheadStops, legs)[k] == Stop(all, k)
      {
        if k < 2 * |before| {
          assert before[k / 2] == all[k / 2];
        }
      }
    }
  }

  ghost predicate FirstRepeatAt(stops: seq<string>, k: nat) {
    k < |stops| && stops[k] in stops[..k] && Distinct(stops[..k])
  }

  ghost predicate RepeatsFirst(stops: seq<string>, location: string) {
    exists k: nat :: FirstRepeatAt(stops, k) && stops[k] == location
  }

  lemma PrefixRepeats(stops: seq<string>, n: nat, k: nat)
    requires k < n <= |stops|
    ensures FirstRepeatAt(stops[..n], k) <==> FirstRepeatAt(stops, k)
  {
    assert stops[..n][..k] == stops[..k];
  }

  /** With one more stop the first repeat is the one there was, or else the last stop, if it was made before. */
  lemma OneMoreStop(stops: seq<string>, n: nat, location: string)
    requires |stops| == n + 1
    ensures RepeatsFirst(stops, location) <==> RepeatsFirst(stops[..n], location) || (FirstRepeatAt(stops, n) && stops[n] == location)
  {
    if k: nat :| FirstRepeatAt(stops[..n], k) && stops[..n][k] == location {
      PrefixRepeats(stops, n, k);
      assert FirstRepeatAt(stops, k) && stops[k] == location;
    }
    if k: nat :| FirstRepeatAt(stops, k) && stops[k] == location {
      if k < n {
        PrefixRepeats(stops, n, k);
        assert FirstRepeatAt(stops[..n], k) && stops[..n][k] == location;
      }
    }
  }

  lemma {:induction false} RepeatIsFirst(stops: seq<string>, location: string)
    ensures FirstRepeat(stops) == Some(location) <==> RepeatsFirst(stops, location)
  {
    if stops != [] {
      var n := |stops| - 1;
      RepeatIsFirst(stops[..n], location);
      NoRepeatIffDistinct(stops[..n]);
      OneMoreStop(stops, n, location);
      if Distinct(stops[..n]) {
        NothingRepeats(stops[..n], location);
      }
    }
  }

  lemma NothingRepeats(stops: seq<string>, location: string)
    requires Distinct(stops)
    ensures !RepeatsFirst(stops, location)
  {
  }

  lemma LoopIffRepeat(deadheads: seq<FlightLeg>, stops: seq<string>, k: nat)
    requires |stops| == 2 * |deadheads| && forall i: nat :: i < |stops| ==> stops[i] == Stop(deadheads, i)
    ensures LoopsAt(deadheads, k) <==> FirstRepeatAt(stops, k)
  {
    if k < |stops| {
      assert forall i: nat :: i < k ==> stops[..k][i] == Stop(deadheads, i);
      if FirstRepeatAt(stops, k) {
        var j: nat :| j < k && stops[..k][j] == stops[k];
        assert Stop(deadheads, j) == Stop(deadheads, k);
      }
    }
  }

  lemma LoopsAreReported(crew: CrewMember, a: Assignment, v: Violation)
    ensures v in CheckNoDeadheadLoops(a) <==> v.DeadheadLoop? && Due(crew, a, v)
  {
    var stops := FlatMap(DeadheadStops, a.legs);
    StopsOfDeadheads(a.legs);
    if v.DeadheadLoop? {
      RepeatIsFirst(stops, v.location);
      forall k: nat
        ensures LoopsAt(Deadheads(a), k) <==> FirstRepeatAt(stops, k)
      {
        LoopIffRepeat(Deadheads(a), stops, k);
      }
      assert RepeatsFirst(stops, v.location) <==> Due(crew, a, v);
    }
  }

  // ----- ratings -----

  lemma LackIsFound(crew: CrewMember, leg: FlightLeg, v: Violation)
    ensures v in QualificationFinding(crew, leg) <==> LegLacks(crew, leg, v)
  {
    var name := WithoutNeo(leg.aircraftType);
    forall q
      ensures QualificationNamed(name) == Some(q) <==> RatingName(q) == name
      ensures QualificationNamed(name).Some? <==> IsRating(name)
    {
      NamedIff(name, q);
    }
  }

  lemma LacksAreReported(crew: CrewMember, a: Assignment, v: Violation)
    ensures v in CheckQualifications(crew, a) <==> exists leg :: leg in a.legs && LegLacks(crew, leg, v)
  {
    FlatMapMember(QualificationFindings(crew), a.legs, v);
    forall leg
      ensures v in QualificationFindings(crew)(leg) <==> LegLacks(crew, leg, v)
    {
      LackIsFound(crew, leg, v);
    }
    if leg :| leg in a.legs && LegLacks(crew, leg, v) {
      var i :| 0 <= i < |a.legs| && a.legs[i] == leg;
      assert v in QualificationFindings(crew)(a.legs[i]);
    }
  }

  // ----- continuity -----

  lemma {:induction false} BreaksAreFound(legs: seq<FlightLeg>, v: Violation)
    ensures v in ConnectionFindings(legs) <==> exists k :: BreaksAt(legs, k, v)
  {
    if |legs| >= 2 {
      var n := |legs| - 1;
      BreaksAreFound(legs[..n], v);
      assert v in ConnectionFinding(legs[n - 1], legs[n]) <==> BreaksAt(legs, n, v);
      forall k | k < n
        ensures BreaksAt(legs[..n], k, v) <==> BreaksAt(legs, k, v)
      {
      }
    }
  }

  lemma BadTimesAreFound(legs: seq<FlightLeg>, others: seq<FlightLeg>, v: Violation)
    requires multiset(legs) == multiset(others)
    ensures v in FlatMap(LegTimeFinding, legs) <==> exists leg :: leg in others && LandsBeforeItLeaves(leg, v)
  {
    FlatMapMember(LegTimeFinding, legs, v);
    PermutationMembers(legs, others);
    assert forall leg :: v in LegTimeFinding(leg) <==> LandsBeforeItLeaves(leg, v);
    if leg :| leg in others && LandsBeforeItLeaves(leg, v) {
      var i :| 0 <= i < |legs| && legs[i] == leg;
      assert v in LegTimeFinding(legs[i]);
    }
  }

  lemma ContinuityIsReported(crew: CrewMember, a: Assignment, v: Violation)
    ensures v in CheckContinuity(crew, a) <==>
      (v.InvalidLegTime? || v.CrewPosition? || v.LocationDiscontinuity? || v.ConnectionTime?) && Due(crew, a, v)
  {
    SortedIsPermutation(DepartsNoLater, a.legs);
    BadTimesAreFound(ByDeparture(a.legs), a.legs, v);
    BreaksAreFound(ByDeparture(a.legs), v);
  }

  // ----- the engine -----

  lemma LimitsAreReported(crew: CrewMember, a: Assignment, v: Violation)
    ensures v in CheckDutyTime(a) <==> v.FdpLimit? && Due(crew, a, v)
    ensures v in CheckFlightTime(a) <==> v.FlightTimeLimit? && Due(crew, a, v)
    ensures v in CheckRestPeriod(crew, a) <==> v.MinRest? && Due(crew, a, v)
    ensures v in CheckDeadheadLimits(a) <==> v.DeadheadLimit? && Due(crew, a, v)
  {
    LimitsMean(a);
    TimesAdd(a.legs);
  }

  /** The check that a violation belongs to. */
  ghost function CheckOf(v: Violation): Check {
    match v
    case FdpLimit => DutyTimeCheck
    case FlightTimeLimit => FlightTimeCheck
    case MinRest => RestPeriodCheck
    case UnknownAircraft(_) => QualificationsCheck
    case MissingQualification(_, _) => QualificationsCheck
    case DeadheadLimit => DeadheadLimitsCheck
    case DeadheadLoop(_) => NoDeadheadLoopsCheck
    case _ => ContinuityCheck
  }

  lemma CheckReports(crew: CrewMember, a: Assignment, check: Check, v: Violation)
    ensures v in Findings(crew, a, check) <==> check == CheckOf(v) && Due(crew, a, v)
  {
    match check
    case QualificationsCheck => LacksAreReported(crew, a, v);
    case NoDeadheadLoopsCheck => LoopsAreReported(crew, a, v);
    case ContinuityCheck => ContinuityIsReported(crew, a, v);
    case _ => LimitsAreReported(crew, a, v);
  }

  lemma EveryCheckRuns(check: Check)
    ensures exists i :: 0 <= i < |CHECKS| && CHECKS[i] == check
  {
    assert check == CHECKS[0] || check == CHECKS[1] || check == CHECKS[2] || check == CHECKS[3]
        || check == CHECKS[4] || check == CHECKS[5] || check == CHECKS[6];
  }

  /** The engine reports a violation exactly when it is due. */
  lemma ReportedIff(crew: CrewMember, a: Assignment, v: Violation)
    ensures v in Validate(crew, a) <==> Due(crew, a, v)
  {
    FlatMapMember(FindingsOf(crew, a), CHECKS, v);
    forall check
      ensures v in Findings(crew, a, check) <==> check == CheckOf(v) && Due(crew, a, v)
    {
      CheckReports(crew, a, check, v);
    }
    EveryCheckRuns(CheckOf(v));
    if i :| 0 <= i < |CHECKS| && v in FindingsOf(crew, a)(CHECKS[i]) {
      assert v in Findings(crew, a, CHECKS[i]);
    }
    if i :| 0 <= i < |CHECKS| && CHECKS[i] == CheckOf(v) {
      assert v in Findings(crew, a, CHECKS[i]) <==> v in FindingsOf(crew, a)(CHECKS[i]);
    }
  }

  /** A duty is legal exactly when no violation is due. */
  lemma LegalIffNothingDue(crew: CrewMember, a: Assignment)
    ensures Legal(crew, a) <==> forall v :: !Due(crew, a, v)
  {
    forall v
      ensures v in Validate(crew, a) <==> Due(crew, a, v)
    {
      ReportedIff(crew, a, v);
    }
    if Validate(crew, a) != [] {
      assert Validate(crew, a)[0] in Validate(crew, a);
    }
  }

  // ----- the order of the report -----

  ghost function PlaceOf(check: Check): nat {
    match check
    case DutyTimeCheck => 0
    case FlightTimeCheck => 1
    case RestPeriodCheck => 2
    case QualificationsCheck => 3
    case DeadheadLimitsCheck => 4
    case NoDeadheadLoopsCheck => 5
    case ContinuityCheck => 6
  }

  /** Findings of the first n checks, in the order of the checks. */
  ghost predicate InTurn(found: seq<Violation>, n: nat) {
    && (forall i :: 0 <= i < |found| ==> PlaceOf(CheckOf(found[i])) < n)
    && (forall i, j :: 0 <= i < j < |found| ==> PlaceOf(CheckOf(found[i])) <= PlaceOf(CheckOf(found[j])))
  }

  lemma OneMoreCheck(found: seq<Violation>, more: seq<Violation>, n: nat)
    requires n > 0 && InTurn(found, n - 1) && forall i :: 0 <= i < |more| ==> PlaceOf(CheckOf(more[i])) == n - 1
    ensures InTurn(found + more, n)
  {
  }

  lemma {:induction false} ReportedInTurn(crew: CrewMember, a: Assignment, n: nat)
    requires n <= |CHECKS|
    ensures InTurn(FlatMap(FindingsOf(crew, a), CHECKS[..n]), n)
  {
    if n > 0 {
      ReportedInTurn(crew, a, n - 1);
      assert CHECKS[..n][..n - 1] == CHECKS[..n - 1];
      var more := Findings(crew, a, CHECKS[n - 1]);
      forall i | 0 <= i < |more|
        ensures PlaceOf(CheckOf(more[i])) == n - 1
      {
        CheckReports(crew, a, CHECKS[n - 1], more[i]);
      }
      OneMoreCheck(FlatMap(FindingsOf(crew, a), CHECKS[..n - 1]), more, n);
      assert FlatMap(FindingsOf(crew, a), CHECKS[..n]) == FlatMap(FindingsOf(crew, a), CHECKS[..n - 1]) + more;
    }
  }

  /** Duty time, flight time, rest, ratings, deadheading, loops, continuity: in this order. */
  lemma ReportIsInOrder(crew: CrewMember, a: Assignment, i: nat, j: nat)
    requires i < j < |Validate(crew, a)|
    ensures PlaceOf(CheckOf(Validate(crew, a)[i])) <= PlaceOf(CheckOf(Validate(crew, a)[j]))
  {
    ReportedInTurn(crew, a, |CHECKS|);
    assert CHECKS[..|CHECKS|] == CHECKS;
    assert Validate(crew, a) == FlatMap(FindingsOf(crew, a), CHECKS[..|CHECKS|]);
  }
}
