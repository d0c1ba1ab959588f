/** The column generator of Tier 2 (solvers/tier2.py): legal single-leg columns, then three rounds of extension.
    It produces exactly the legal chains of at most four legs that start where the generator looks. */
module ColumnGeneration {
  import opened Sequences
  import opened Text
  import opened RulesEngine
  import opened LegalityProperties
  import opened DutyLaw

  /** Costs are counted in half microseconds, so that the weight of one half stays whole. */
  datatype Column = Column(crewId: string, legs: seq<FlightLeg>, cost: int)

  function DutyCost(legs: seq<FlightLeg>): int {
    if legs == [] then 0 else 2 * (Latest(legs) - Earliest(legs)) + Total(DeadheadTime, legs)
  }

  /** What a duty costs: twice its length, and the time its crew rides along once more. */
  ghost function Price(a: Assignment): int { 2 * (a.dutyEnd - a.dutyStart) + TimeOn(a.legs, true) }

  lemma CostIsPrice(crewId: string, legs: seq<FlightLeg>)
    requires legs != []
    ensures DutyCost(legs) == Price(TightDuty(crewId, legs))
  {
    TimesAdd(legs);
  }

  lemma JourneyPrice(crew: CrewMember, legs: seq<FlightLeg>)
    requires legs != [] && Continuous(crew, legs)
    ensures DutyCost(legs) == Price(ChainDuty(crew.crewId, legs))
  {
    CostIsPrice(crew.crewId, legs);
    JourneyWindow(crew, crew.crewId, legs);
  }

  /** A reading of the clock against the deadline: it may go either way, but never fires without a budget. */
  method DeadlinePassed(budgeted: bool) returns (late: bool)
    ensures late ==> budgeted
  {
    late := false;
    if budgeted {
      late := *;
    }
  }

  predicate Eligible(crew: CrewMember, leg: FlightLeg) {
    leg.origin == crew.currentLocation || leg.origin == crew.baseHub
  }

  ghost predicate DistinctIds(legs: seq<FlightLeg>) {
    forall i, j :: 0 <= i < j < |legs| ==> legs[i].flightId != legs[j].flightId
  }

  /** A legal journey over distinct input flights that starts at an eligible airport. */
  ghost predicate Chain(crew: CrewMember, flights: seq<FlightLeg>, legs: seq<FlightLeg>) {
    && legs != []
    && (forall leg :: leg in legs ==> leg in flights)
    && DistinctIds(legs)
    && Eligible(crew, legs[0])
    && Continuous(crew, legs)
    && Legal(crew, ChainDuty(crew.crewId, legs))
  }

  /** A chain of the crew member at its price: from the first departure to the last arrival, and the deadheads. */
  ghost predicate SoundColumn(crew: CrewMember, flights: seq<FlightLeg>, column: Column) {
    && column.crewId == crew.crewId && Chain(crew, flights, column.legs)
    && column.cost == Price(ChainDuty(crew.crewId, column.legs))
  }

  ghost predicate SoundColumns(crew: CrewMember, flights: seq<FlightLeg>, columns: seq<Column>, longest: nat) {
    forall c :: c in columns ==> SoundColumn(crew, flights, c) && |c.legs| <= longest
  }

  ghost predicate Offers(columns: seq<Column>, legs: seq<FlightLeg>) {
    exists c :: c in columns && c.legs == legs
  }

  lemma PrefixChain(crew: CrewMember, flights: seq<FlightLeg>, legs: seq<FlightLeg>, k: nat)
    requires 1 <= k <= |legs| && Chain(crew, flights, legs)
    ensures Chain(crew, flights, legs[..k])
  {
    PrefixIsLegal(crew, crew.crewId, legs, k);
  }

  lemma LegalLegsMoveForward(crew: CrewMember, legs: seq<FlightLeg>)
    requires legs != [] && Legal(crew, ChainDuty(crew.crewId, legs))
    ensures forall leg :: leg in legs ==> leg.dep < leg.arr
  {
    LegalIff(crew, ChainDuty(crew.crewId, legs));
    SortedIsPermutation(DepartsNoLater, legs);
    PermutationMembers(ByDeparture(legs), legs);
  }

  lemma OneMoreConnection(legs: seq<FlightLeg>, flight: FlightLeg)
    requires legs != [] && Connects(legs[|legs| - 1], flight)
    requires forall i :: 1 <= i < |legs| ==> Connects(legs[i - 1], legs[i])
    ensures var longer := legs + [flight]; forall i :: 1 <= i < |longer| ==> Connects(longer[i - 1], longer[i])
  {
    var longer := legs + [flight];
    forall i | 1 <= i < |longer|
      ensures Connects(longer[i - 1], longer[i])
    {
      if i < |legs| {
        assert Connects(legs[i - 1], legs[i]);
      }
    }
  }

  /** Lists of legs that obey the connection test of the generator and the legality engine form a journey. */
  lemma ExtensionIsJourney(crew: CrewMember, legs: seq<FlightLeg>, flight: FlightLeg)
    requires legs != [] && Continuous(crew, legs) && Connects(legs[|legs| - 1], flight)
    requires Legal(crew, ChainDuty(crew.crewId, legs + [flight]))
    ensures Continuous(crew, legs + [flight])
  {
    LegalLegsMoveForward(crew, legs + [flight]);
    OneMoreConnection(legs, flight);
  }

  /** What the generator asks before it adds a flight to a chain. */
  ghost predicate PassesTests(crew: CrewMember, legs: seq<FlightLeg>, flight: FlightLeg)
    requires legs != []
  {
    && flight.flightId !in (set leg | leg in legs :: leg.flightId)
    && Connects(legs[|legs| - 1], flight)
    && Legal(crew, ChainDuty(crew.crewId, legs + [flight]))
  }

  lemma ExtensionIsChain(crew: CrewMember, flights: seq<FlightLeg>, legs: seq<FlightLeg>, flight: FlightLeg)
    requires Chain(crew, flights, legs) && flight in flights && PassesTests(crew, legs, flight)
    ensures Chain(crew, flights, legs + [flight])
  {
    ExtensionIsJourney(crew, legs, flight);
    var longer := legs + [flight];
    forall i, j | 0 <= i < j < |longer|
      ensures longer[i].flightId != longer[j].flightId
    {
      assert longer[i] in legs;
    }
  }

  lemma ChainExtensionMeetsTests(crew: CrewMember, flights: seq<FlightLeg>, legs: seq<FlightLeg>, flight: FlightLeg)
    requires legs != [] && Chain(crew, flights, legs + [flight])
    ensures PassesTests(crew, legs, flight)
  {
    var longer := legs + [flight];
    var n := |legs|;
    assert Connects(longer[n - 1], longer[n]);
    forall leg | leg in legs
      ensures leg.flightId != flight.flightId
    {
      var i :| 0 <= i < n && legs[i] == leg;
      assert longer[i].flightId != longer[n].flightId;
    }
  }

  /** The tests accept exactly the flights that make the chain one longer. */
  lemma ChainIffTests(crew: CrewMember, flights: seq<FlightLeg>, legs: seq<FlightLeg>, flight: FlightLeg)
    requires Chain(crew, flights, legs) && flight in flights
    ensures Chain(crew, flights, legs + [flight]) <==> PassesTests(crew, legs, flight)
  {
    if PassesTests(crew, legs, flight) {
      ExtensionIsChain(crew, flights, legs, flight);
    }
    if Chain(crew, flights, legs + [flight]) {
      ChainExtensionMeetsTests(crew, flights, legs, flight);
    }
  }

  /** All chains that prolong one column by one of the first flights are offered. */
  ghost predicate ExtensionsOffered(crew: CrewMember, flights: seq<FlightLeg>, column: Column, upTo: seq<FlightLeg>,
                                    columns: seq<Column>)
  {
    forall f :: f in upTo && Chain(crew, flights, column.legs + [f]) ==> Offers(columns, column.legs + [f])
  }

  /** The column for one more leg, if the connection tests and the legality engine allow it. */
  method TryExtension(column: Column, crew: CrewMember, flights: seq<FlightLeg>, flight: FlightLeg)
    returns (found: seq<Column>)
    requires SoundColumn(crew, flights, column) && flight in flights
    ensures SoundColumns(crew, flights, found, |column.legs| + 1)
    ensures Chain(crew, flights, column.legs + [flight]) ==> Offers(found, column.legs + [flight])
  {
    var last := column.legs[|column.legs| - 1];
    var used := set leg | leg in column.legs :: leg.flightId;
    var legs := column.legs + [flight];
    found := [];
    ChainIffTests(crew, flights, column.legs, flight);
    if flight.flightId in used || flight.origin != last.destination {
      return;
    }
    if flight.dep < last.arr + MIN_CONNECTION {
      return;
    }
    var candidate := Assignment(crew.crewId, legs, legs[0].dep, legs[|legs| - 1].arr);
    assert candidate == ChainDuty(crew.crewId, legs);
    if Validate(crew, candidate) == [] {
      ExtensionIsChain(crew, flights, column.legs, flight);
      JourneyPrice(crew, legs);
      found := [Column(crew.crewId, legs, DutyCost(legs))];
      assert found[0] in found;
    }
  }

  method ExtendColumn(column: Column, crew: CrewMember, flights: seq<FlightLeg>, budgeted: bool, ghost longest: nat)
    returns (extended: seq<Column>)
    requires SoundColumn(crew, flights, column) && |column.legs| <= longest
    ensures SoundColumns(crew, flights, extended, longest + 1)
    ensures !budgeted ==> ExtensionsOffered(crew, flights, column, flights, extended)
  {
    extended := [];
    for j := 0 to |flights|
      invariant SoundColumns(crew, flights, extended, longest + 1)
      invariant !budgeted ==> ExtensionsOffered(crew, flights, column, flights[..j], extended)
    {
      var late := DeadlinePassed(budgeted);
      if late {
        break;
      }
      var found := TryExtension(column, crew, flights, flights[j]);
      if !budgeted {
        OneMoreFlightOffered(crew, flights, column, j, extended, found);
      }
      extended := extended + found;
    }
    assert flights[..|flights|] == flights;
  }

  lemma OneMoreFlightOffered(crew: CrewMember, flights: seq<FlightLeg>, column: Column, j: nat,
                             extended: seq<Column>, found: seq<Column>)
    requires j < |flights| && ExtensionsOffered(crew, flights, column, flights[..j], extended)
    requires Chain(crew, flights, column.legs + [flights[j]]) ==> Offers(found, column.legs + [flights[j]])
    ensures ExtensionsOffered(crew, flights, column, flights[..j + 1], extended + found)
  {
    forall f | f in flights[..j + 1] && Chain(crew, flights, column.legs + [f])
      ensures Offers(extended + found, column.legs + [f])
    {
      assert f in flights[..j] || f == flights[j];
      OfferGrows(extended, found, column.legs + [f]);
    }
  }

  lemma OfferGrows(columns: seq<Column>, more: seq<Column>, legs: seq<FlightLeg>)
    ensures Offers(columns, legs) || Offers(more, legs) ==> Offers(columns + more, legs)
  {
    if Offers(columns, legs) {
      var c :| c in columns && c.legs == legs;
      assert c in columns + more;
    } else if Offers(more, legs) {
      var c :| c in more && c.legs == legs;
      assert c in columns + more;
    }
  }

  lemma OffersGrow(columns: seq<Column>, more: seq<Column>)
    ensures forall legs :: Offers(columns, legs) || Offers(more, legs) ==> Offers(columns + more, legs)
  {
    forall legs | Offers(columns, legs) || Offers(more, legs)
      ensures Offers(columns + more, legs)
    {
      OfferGrows(columns, more, legs);
    }
  }

  /** Every chain that prolongs an offered chain by one leg is offered as well. */
  ghost predicate AllExtensionsOffered(crew: CrewMember, flights: seq<FlightLeg>, existing: seq<Column>,
                                       columns: seq<Column>)
  {
    forall legs :: Chain(crew, flights, legs) && |legs| >= 2 && Offers(existing, legs[..|legs| - 1])
      ==> Offers(columns, legs)
  }

  /** What only the newest column offers is that column's legs. */
  lemma NewestOffers(existing: seq<Column>, column: Column, legs: seq<FlightLeg>)
    requires Offers(existing + [column], legs) && !Offers(existing, legs)
    ensures column.legs == legs
  {
    var c :| c in existing + [column] && c.legs == legs;
    assert c !in existing;
  }

  lemma ExtensionIsOffered(crew: CrewMember, flights: seq<FlightLeg>, column: Column, more: seq<Column>,
                           legs: seq<FlightLeg>)
    requires ExtensionsOffered(crew, flights, column, flights, more)
    requires Chain(crew, flights, legs) && |legs| >= 2 && column.legs == legs[..|legs| - 1]
    ensures Offers(more, legs)
  {
    var n := |legs| - 1;
    assert legs == column.legs + [legs[n]];
    assert legs[n] in flights;
  }

  lemma ExtensionsCombine(crew: CrewMember, flights: seq<FlightLeg>, existing: seq<Column>, column: Column,
                          before: seq<Column>, more: seq<Column>)
    requires AllExtensionsOffered(crew, flights, existing, before)
    requires ExtensionsOffered(crew, flights, column, flights, more)
    ensures AllExtensionsOffered(crew, flights, existing + [column], before + more)
  {
    forall legs | Chain(crew, flights, legs) && |legs| >= 2 && Offers(existing + [column], legs[..|legs| - 1])
      ensures Offers(before + more, legs)
    {
      if !Offers(existing, legs[..|legs| - 1]) {
        NewestOffers(existing, column, legs[..|legs| - 1]);
        ExtensionIsOffered(crew, flights, column, more, legs);
      }
      OfferGrows(before, more, legs);
    }
  }

  method ExtendColumns(existing: seq<Column>, crew: CrewMember, flights: seq<FlightLeg>, budgeted: bool,
                       ghost longest: nat) returns (extended: seq<Column>)
    requires SoundColumns(crew, flights, existing, longest)
    ensures SoundColumns(crew, flights, extended, longest + 1)
    ensures !budgeted ==> AllExtensionsOffered(crew, flights, existing, extended)
  {
    extended := [];
    for i := 0 to |existing|
      invariant SoundColumns(crew, flights, extended, longest + 1)
      invariant !budgeted ==> AllExtensionsOffered(crew, flights, existing[..i], extended)
    {
      var late := DeadlinePassed(budgeted);
      if late {
        break;
      }
      var more := ExtendColumn(existing[i], crew, flights, budgeted, longest);
      if !budgeted {
        ExtensionsCombine(crew, flights, existing[..i], existing[i], extended, more);
      }
      assert existing[..i + 1] == existing[..i] + [existing[i]];
      extended := extended + more;
    }
    assert existing[..|existing|] == existing;
  }

  ghost predicate ChainsOffered(crew: CrewMember, flights: seq<FlightLeg>, columns: seq<Column>, longest: nat) {
    forall legs :: Chain(crew, flights, legs) && |legs| <= longest ==> Offers(columns, legs)
  }

  lemma OneMoreLevel(crew: CrewMember, flights: seq<FlightLeg>, columns: seq<Column>, extended: seq<Column>, k: nat)
    requires 1 <= k && ChainsOffered(crew, flights, columns, k)
    requires AllExtensionsOffered(crew, flights, columns, extended)
    ensures ChainsOffered(crew, flights, columns + extended, k + 1)
  {
    OffersGrow(columns, extended);
    forall legs | Chain(crew, flights, legs) && |legs| <= k + 1
      ensures Offers(columns + extended, legs)
    {
      if |legs| == k + 1 {
        PrefixChain(crew, flights, legs, k);
        assert legs[..|legs| - 1] == legs[..k];
      }
    }
  }

  /** When a round adds nothing there are no longer chains at all. */
  lemma NoMoreLevels(crew: CrewMember, flights: seq<FlightLeg>, columns: seq<Column>, k: nat, longest: nat)
    requires 1 <= k && ChainsOffered(crew, flights, columns, k)
    requires AllExtensionsOffered(crew, flights, columns, [])
    ensures ChainsOffered(crew, flights, columns, longest)
  {
    forall legs | Chain(crew, flights, legs) && |legs| <= longest
      ensures Offers(columns, legs)
    {
      if |legs| > k {
        assert legs[..k + 1][..k] == legs[..k];
        PrefixChain(crew, flights, legs, k);
        PrefixChain(crew, flights, legs, k + 1);
      }
    }
  }

  method TrySingleLeg(crew: CrewMember, flights: seq<FlightLeg>, leg: FlightLeg) returns (found: seq<Column>)
    requires leg in flights && Eligible(crew, leg)
    ensures SoundColumns(crew, flights, found, 1)
    ensures Chain(crew, flights, [leg]) ==> Offers(found, [leg])
  {
    found := [];
    var candidate := Assignment(crew.crewId, [leg], leg.dep, leg.arr);
    assert candidate == ChainDuty(crew.crewId, [leg]);
    if Validate(crew, candidate) == [] {
      SingleLegIsChain(crew, flights, leg);
      JourneyPrice(crew, [leg]);
      found := [Column(crew.crewId, [leg], DutyCost([leg]))];
      assert found[0] in found;
    }
  }

  method SingleLegColumns(crew: CrewMember, flights: seq<FlightLeg>, budgeted: bool) returns (columns: seq<Column>)
    ensures SoundColumns(crew, flights, columns, 1)
    ensures !budgeted ==> ChainsOffered(crew, flights, columns, 1)
  {
    columns := [];
    for i := 0 to |flights|
      invariant SoundColumns(crew, flights, columns, 1)
      invariant !budgeted ==> forall f :: f in flights[..i] && Chain(crew, flights, [f]) ==> Offers(columns, [f])
    {
      assert flights[..i + 1] == flights[..i] + [flights[i]];
      if !Eligible(crew, flights[i]) {
        continue;
      }
      var late := DeadlinePassed(budgeted);
      if late {
        break;
      }
      var found := TrySingleLeg(crew, flights, flights[i]);
      OffersGrow(columns, found);
      columns := columns + found;
    }
    assert flights[..|flights|] == flights;
    forall legs | !budgeted && Chain(crew, flights, legs) && |legs| <= 1
      ensures Offers(columns, legs)
    {
      assert legs == [legs[0]];
    }
  }

  lemma SingleLegIsChain(crew: CrewMember, flights: seq<FlightLeg>, leg: FlightLeg)
    requires leg in flights && Eligible(crew, leg) && Legal(crew, Assignment(crew.crewId, [leg], leg.dep, leg.arr))
    ensures Chain(crew, flights, [leg])
  {
    var duty := ChainDuty(crew.crewId, [leg]);
    LegalIff(crew, duty);
    assert Ordered(DepartsNoLater, [leg]);
    SortedFixesOrdered(DepartsNoLater, [leg]);
  }

  /** Sound and complete: with time left the columns are exactly the chains of at most four legs. */
  method GenerateColumnsForCrew(crew: CrewMember, flights: seq<FlightLeg>, budgeted: bool)
    returns (columns: seq<Column>)
    ensures SoundColumns(crew, flights, columns, 4)
    ensures !budgeted ==>
      forall legs :: Offers(columns, legs) <==> Chain(crew, flights, legs) && |legs| <= 4
  {
    columns := [];
    var late := DeadlinePassed(budgeted);
    if late {
      return;
    }
    columns := SingleLegColumns(crew, flights, budgeted);
    var level := 1;
    while level < 4
      invariant 1 <= level <= 4
      invariant SoundColumns(crew, flights, columns, level)
      invariant !budgeted ==> ChainsOffered(crew, flights, columns, level)
    {
      late := DeadlinePassed(budgeted);
      if late {
        break;
      }
      var extended := ExtendColumns(columns, crew, flights, budgeted, level);
      if extended == [] {
        if !budgeted {
          NoMoreLevels(crew, flights, columns, level, 4);
        }
        break;
      }
      if !budgeted {
        OneMoreLevel(crew, flights, columns, extended, level);
      }
      columns := columns + extended;
      level := level + 1;
    }
  }

  // ----- which legal duties become columns -----

  /** A legal duty over distinct input flights, listed in any order, with its window tight. */
  ghost predicate LegalDuty(crew: CrewMember, flights: seq<FlightLeg>, legs: seq<FlightLeg>) {
    && legs != []
    && (forall leg :: leg in legs ==> leg in flights)
    && DistinctIds(legs)
    && Legal(crew, TightDuty(crew.crewId, legs))
  }

  lemma DistinctIdsPermutation(xs: seq<FlightLeg>, ys: seq<FlightLeg>)
    requires multiset(xs) == multiset(ys) && DistinctIds(xs)
    ensures DistinctIds(ys)
  {
    DistinctPermutation(xs, ys);
    PermutationMembers(xs, ys);
    forall i, j | 0 <= i < j < |ys|
      ensures ys[i].flightId != ys[j].flightId
    {
      assert ys[i] in xs && ys[j] in xs && ys[i] != ys[j];
    }
  }

  lemma WindowIgnoresOrder(xs: seq<FlightLeg>, ys: seq<FlightLeg>)
    requires multiset(xs) == multiset(ys) && xs != [] && ys != []
    ensures Earliest(xs) == Earliest(ys) && Latest(xs) == Latest(ys)
  {
    WindowBounds(xs);
    WindowBounds(ys);
    PermutationMembers(xs, ys);
  }

  lemma LegalDutyIsJourney(crew: CrewMember, flights: seq<FlightLeg>, legs: seq<FlightLeg>)
    requires LegalDuty(crew, flights, legs)
    ensures var journey := ByDeparture(legs);
      && multiset(journey) == multiset(legs) && journey != []
      && Continuous(crew, journey) && Legal(crew, ChainDuty(crew.crewId, journey))
  {
    var journey := ByDeparture(legs);
    SortedIsPermutation(DepartsNoLater, legs);
    PermutationMembers(journey, legs);
    LegalIff(crew, TightDuty(crew.crewId, legs));
    LegalityIgnoresLegOrder(crew, TightDuty(crew.crewId, legs), journey);
    WindowIgnoresOrder(legs, journey);
    JourneyWindow(crew, crew.crewId, journey);
    assert TightDuty(crew.crewId, legs).(legs := journey) == TightDuty(crew.crewId, journey);
  }

  /** A legal duty becomes a column exactly when its first leg leaves from where the crew member is or is based. */
  lemma LegalDutyIsChainIff(crew: CrewMember, flights: seq<FlightLeg>, legs: seq<FlightLeg>)
    requires LegalDuty(crew, flights, legs)
    ensures ByDeparture(legs) != []
    ensures Chain(crew, flights, ByDeparture(legs)) <==> ByDeparture(legs)[0].origin in {crew.currentLocation, crew.baseHub}
  {
    LegalDutyIsJourney(crew, flights, legs);
    DistinctIdsPermutation(legs, ByDeparture(legs));
    PermutationMembers(legs, ByDeparture(legs));
  }

  /** A crew whose location is known misses no legal duty. */
  lemma KnownLocationIsComplete(crew: CrewMember, flights: seq<FlightLeg>, legs: seq<FlightLeg>)
    requires LegalDuty(crew, flights, legs) && crew.currentLocation != ""
    ensures Chain(crew, flights, ByDeparture(legs))
  {
    LegalDutyIsJourney(crew, flights, legs);
    LegalDutyIsChainIff(crew, flights, legs);
  }

  lemma OneFlightTotals(leg: FlightLeg)
    requires !leg.isDeadhead
    ensures ByDeparture([leg]) == [leg] && Sectors([leg]) == 1
    ensures Total(OperatedTime, [leg]) == leg.arr - leg.dep && Total(DeadheadTime, [leg]) == 0
    ensures FlatMap(DeadheadStops, [leg]) == []
  {
    assert Ordered(DepartsNoLater, [leg]);
    SortedFixesOrdered(DepartsNoLater, [leg]);
    Singletons(OperatedSector, DeadheadStops, leg);
    Singletons(OperatedTime, DeadheadStops, leg);
    Singletons(DeadheadTime, DeadheadStops, leg);
  }

  /** One short daytime flight of a rated, rested crew whose location is not recorded. */
  lemma OneFlightIsLegal(crew: CrewMember, leg: FlightLeg)
    requires !leg.isDeadhead && leg.aircraftType == "A320" && A320 in crew.qualifications
    requires crew.currentLocation == "" && crew.lastRestEnd.None?
    requires leg.dep < leg.arr <= leg.dep + HOUR
    ensures LegalDuty(crew, [leg], [leg])
  {
    OneFlightTotals(leg);
    RatedForA320(crew);
    assert Earliest([leg]) == leg.dep && Latest([leg]) == leg.arr;
    LegalIff(crew, TightDuty(crew.crewId, [leg]));
  }

  /** A crew without a location misses legal duties: here one away from its base. */
  lemma UnknownLocationMissesDuties() returns (crew: CrewMember, leg: FlightLeg)
    ensures crew.currentLocation == "" && LegalDuty(crew, [leg], [leg]) && !Chain(crew, [leg], [leg])
  {
    crew := CrewMember("C", "DEL", {A320}, "", None);
    leg := FlightLeg("F", "BOM", "BLR", 8 * HOUR, 9 * HOUR, "A320", false);
    OneFlightIsLegal(crew, leg);
  }
}
