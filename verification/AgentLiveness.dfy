/** Why the deterministic planner never stalls: the run invariant, the measure, and the run loop. */
module AgentLiveness {
  import opened Sequences
  import opened Text
  import opened Planner
  import opened Agent

  // ----- facts about the domain -----

  /** Distinct ids of the flights with an open case. */
  function OpenFlights(world: World): seq<string> {
    SortedMembers(set c | c in OpenCrewCases(world) :: c.flightId)
  }

  lemma {:induction false} FoundFlight(flights: seq<Flight>, id: string)
    ensures FlightRecord(flights, id).Some? ==> FlightRecord(flights, id).value.id == id
  {
    if flights != [] && flights[0].id != id {
      FoundFlight(flights[1..], id);
    }
  }

  lemma OpenFlightIsKnown(world: World, f: string)
    requires f in OpenFlights(world)
    ensures FlightRecord(world.flights, f).Some?
  {
    var c :| c in OpenCrewCases(world) && c.flightId == f;
    var g := CaseOf(world.flights);
    FlatMapMember(g, world.roster, c);
    var i :| 0 <= i < |world.roster| && c in g(world.roster[i]);
    FoundFlight(world.flights, world.roster[i].assignedFlight.value);
  }

  lemma {:induction false} RosterIdIsKnown(roster: seq<Crew>, crew: Crew)
    requires crew in roster
    ensures CrewRecord(roster, crew.id).Some?
  {
    if roster[0].id != crew.id {
      RosterIdIsKnown(roster[1..], crew);
    }
  }

  lemma RatedIsOnRoster(world: World, f: string, crew: Crew)
    requires crew in TypeRated(world, f)
    ensures CrewRecord(world.roster, crew.id).Some?
  {
    var flight := FlightRecord(world.flights, f);
    FilterMembers(RatedFor(NormaliseAircraftType(flight.value.aircraftType)), world.roster, crew);
    RosterIdIsKnown(world.roster, crew);
  }

  lemma RemainingMembers(world: World, reg: Registry, f: string, crew: Crew)
    ensures crew in Remaining(world, reg, f) <==>
      crew in TypeRated(world, f) && crew.id !in Evaluated(reg, f) && crew.id !in AssignedCrew(reg)
  {
    FilterMembers(StillOpenTo(Evaluated(reg, f), AssignedCrew(reg)), TypeRated(world, f), crew);
  }

  // ----- the measure -----

  function NotEvaluated(world: World, reg: Registry, f: string): seq<Crew> {
    Filter(StillOpenTo(Evaluated(reg, f), {}), TypeRated(world, f))
  }

  /** Tool calls still to be spent on a flight: its shortlist, its previews, and settling it. */
  function WorkOn(world: World, m: Mind, f: string): int {
    if Settled(m, f) then 0 else 1 + (if f in m.listed then 0 else 1) + |NotEvaluated(world, m.reg, f)|
  }

  function Work(world: World, m: Mind): string -> int {
    (f: string) => WorkOn(world, m, f)
  }

  function CallsLeft(world: World, m: Mind): int {
    (if m.perceived then 0 else 1) + Total(Work(world, m), OpenFlights(world))
  }

  /** 1 + the sum over open flights of (type-rated crew + 2). */
  function CallBound(world: World): int {
    1 + Total((f: string) => |TypeRated(world, f)| + 2, OpenFlights(world))
  }

  lemma {:induction false} TotalNonNegative<T>(f: T -> int, xs: seq<T>)
    requires forall x :: x in xs ==> f(x) >= 0
    ensures Total(f, xs) >= 0
  {
    if xs != [] {
      assert xs == xs[..|xs| - 1] + [xs[|xs| - 1]];
      TotalNonNegative(f, xs[..|xs| - 1]);
    }
  }

  lemma {:induction false} TotalBelow<T>(f: T -> int, g: T -> int, xs: seq<T>)
    requires forall x :: x in xs ==> f(x) <= g(x)
    ensures Total(f, xs) <= Total(g, xs)
    ensures (exists x :: x in xs && f(x) < g(x)) ==> Total(f, xs) < Total(g, xs)
  {
    if xs != [] {
      assert xs == xs[..|xs| - 1] + [xs[|xs| - 1]];
      TotalBelow(f, g, xs[..|xs| - 1]);
    }
  }

  lemma CallsLeftAtStart(world: World)
    ensures CallsLeft(world, FRESH_MIND) <= CallBound(world)
  {
    var bound := (f: string) => |TypeRated(world, f)| + 2;
    forall f | f in OpenFlights(world)
      ensures Work(world, FRESH_MIND)(f) <= bound(f)
    {
      FilterIsShorter(StillOpenTo(Evaluated(FRESH_REGISTRY, f), {}), TypeRated(world, f));
    }
    TotalBelow(Work(world, FRESH_MIND), bound, OpenFlights(world));
  }

  /** A call that takes some work off the flight, and adds none to any other. */
  ghost predicate TakesWorkOff(world: World, m: Mind, after: Mind, f: string) {
    forall g :: WorkOn(world, after, g) <= WorkOn(world, m, g) - (if g == f then 1 else 0)
  }

  lemma CallsLeftDrops(world: World, m: Mind, after: Mind, f: string)
    requires m.perceived && after.perceived && f in OpenFlights(world)
    requires TakesWorkOff(world, m, after, f)
    ensures CallsLeft(world, after) < CallsLeft(world, m)
  {
    var was, now := Work(world, m), Work(world, after);
    assert forall g :: was(g) == WorkOn(world, m, g) && now(g) == WorkOn(world, after, g);
    assert now(f) < was(f);
    TotalBelow(now, was, OpenFlights(world));
  }

  // ----- the run invariant -----

  ghost predicate KnowsCases(world: World, m: Mind) {
    if m.perceived then m.openCases == OpenCrewCases(world) else m == FRESH_MIND
  }

  ghost predicate EvaluatedIsRated(world: World, reg: Registry) {
    forall f :: f in reg.previewed ==> f in OpenFlights(world) && reg.previewed[f] <= RatedIds(world, f)
  }

  ghost predicate NobodyTwice(world: World, reg: Registry) {
    && (forall i, j :: 0 <= i < j < |reg.commitments| ==> reg.commitments[i].crewId != reg.commitments[j].crewId)
    && (forall f :: f in reg.escalations ==> !Committed(reg, f) && f in OpenFlights(world))
    && Distinct(reg.escalations)
  }

  predicate TriedAndRefused(world: World, f: string, c: string) {
    CanPreview(world, f, c) && !world.verdict(f, c)
  }

  /** Every rated crew member of an escalated flight was tried and refused by the rules, or is taken. */
  ghost predicate EscalationIsEarned(world: World, reg: Registry) {
    forall f, c :: f in reg.escalations && c in RatedIds(world, f) ==>
      c in AssignedCrew(reg) || TriedAndRefused(world, f, c)
  }

  ghost predicate Unresolved(world: World, m: Mind, f: string) {
    f in OpenFlights(world) && !Settled(m, f)
  }

  /** A cleared pair of an unresolved flight is still available, and that flight is the strict minimum. */
  ghost predicate ClearedIsNext(world: World, m: Mind) {
    forall f, c :: Unresolved(world, m, f) && (f, c) in m.reg.legalPreviews ==>
      c !in AssignedCrew(m.reg) && StrictMinimum(world, m, f)
  }

  ghost predicate StrictMinimum(world: World, m: Mind, f: string) {
    forall g :: Unresolved(world, m, g) && g != f ==>
      |Remaining(world, m.reg, f)| < |Remaining(world, m.reg, g)|
  }

  ghost predicate RunInv(world: World, m: Mind) {
    && Guarded(world, m.reg)
    && KnowsCases(world, m)
    && EvaluatedIsRated(world, m.reg)
    && NobodyTwice(world, m.reg)
    && EscalationIsEarned(world, m.reg)
    && ClearedIsNext(world, m)
  }

  lemma RunInvAtStart(world: World)
    ensures RunInv(world, FRESH_MIND)
  {
  }

  // ----- what the planner proposes -----

  ghost function OpenCase(world: World, f: string): Case {
    var flight := FlightRecord(world.flights, f);
    Case(f, if flight.Some? then flight.value.passengers else 0)
  }

  lemma CaseIsOpenCase(world: World, c: Case)
    requires c in OpenCrewCases(world)
    ensures c == OpenCase(world, c.flightId)
  {
    OpenCaseIff(world, c);
  }

  /** The selected flight is unresolved and no unresolved flight is more urgent. */
  ghost predicate Chosen(world: World, m: Mind, f: string) {
    && Unresolved(world, m, f)
    && (forall g :: Unresolved(world, m, g) ==> NoLessUrgent(world, m.reg, OpenCase(world, f), OpenCase(world, g)))
  }

  ghost predicate AllSettled(world: World, m: Mind) {
    forall f :: f in OpenFlights(world) ==> Settled(m, f)
  }

  lemma SelectionIsChosen(world: World, m: Mind)
    requires RunInv(world, m) && m.perceived
    ensures SelectCase(world, m).Some? ==> Chosen(world, m, SelectCase(world, m).value.flightId)
    ensures SelectCase(world, m).None? ==> AllSettled(world, m)
  {
    var open := Filter(Unsettled(m), m.openCases);
    forall c: Case
      ensures c in open <==> c in m.openCases && !Settled(m, c.flightId)
    {
      FilterMembers(Unsettled(m), m.openCases, c);
    }
    if open != [] {
      SelectedIsMostUrgent(world, m.reg, open);
      var first := FirstCase(world, m.reg, open);
      CaseIsOpenCase(world, first);
      forall g | Unresolved(world, m, g)
        ensures NoLessUrgent(world, m.reg, first, OpenCase(world, g))
      {
        var c :| c in m.openCases && c.flightId == g;
        assert c in open;
        CaseIsOpenCase(world, c);
      }
    } else {
      forall f | f in OpenFlights(world)
        ensures Settled(m, f)
      {
        var c :| c in m.openCases && c.flightId == f;
        assert c !in open;
      }
    }
  }

  /** Only the chosen flight can hold a cleared pair. */
  ghost predicate ClearedOnlyFor(world: World, m: Mind, f: string) {
    forall g, c :: Unresolved(world, m, g) && g != f ==> (g, c) !in m.reg.legalPreviews
  }

  lemma ClearedOnlyForChosen(world: World, m: Mind, f: string)
    requires ClearedIsNext(world, m) && Chosen(world, m, f)
    ensures ClearedOnlyFor(world, m, f)
  {
    forall g, c | Unresolved(world, m, g) && g != f
      ensures (g, c) !in m.reg.legalPreviews
    {
      assert (g, c) in m.reg.legalPreviews ==> StrictMinimum(world, m, g);
    }
  }

  /** The first crew member by id that was cleared for the flight and is not taken. */
  ghost predicate IsFirstCleared(reg: Registry, f: string, c: string) {
    && (f, c) in reg.legalPreviews && c !in AssignedCrew(reg)
    && (forall d :: (f, d) in reg.legalPreviews && d !in AssignedCrew(reg) ==> StrLe(c, d))
  }

  /** A cleared pair of an unresolved flight is what LegalOption finds. */
  lemma ClearedIsOffered(world: World, m: Mind, f: string)
    requires VerdictsAreHonest(world, m.reg) && ClearedIsNext(world, m) && Unresolved(world, m, f)
    ensures LegalOption(m.reg, f).None? ==> !HasLegalOption(m.reg, f)
    ensures LegalOption(m.reg, f).Some? ==>
      IsFirstCleared(m.reg, f, LegalOption(m.reg, f).value)
  {
    assert forall c :: (f, c) in m.reg.legalPreviews && c !in AssignedCrew(m.reg) <==> c in LegalCrew(m.reg, f);
    if HasLegalOption(m.reg, f) {
      var p :| p in m.reg.legalPreviews && p.0 == f;
      assert (f, p.1) in m.reg.legalPreviews;
      assert p.1 in LegalCrew(m.reg, f);
    }
  }

  // ----- commit -----

  lemma CommitSettles(m: Mind, after: Mind, f: string, c: string)
    requires after.reg.commitments == m.reg.commitments + [Commitment(f, c)]
    requires after.reg.escalations == m.reg.escalations
    ensures forall g :: Settled(after, g) <==> Settled(m, g) || g == f
    ensures forall g :: Committed(after.reg, g) <==> Committed(m.reg, g) || g == f
    ensures AssignedCrew(after.reg) == AssignedCrew(m.reg) + {c}
  {
    var was, now := m.reg.commitments, after.reg.commitments;
    assert now[|was|].flightId == f;
    forall g
      ensures Committed(after.reg, g) <==> Committed(m.reg, g) || g == f
    {
      if Committed(m.reg, g) {
        var i :| 0 <= i < |was| && was[i].flightId == g;
        assert now[i].flightId == g;
      }
    }
    assert forall x :: x in now <==> x in was || x == Commitment(f, c);
    forall d | d in AssignedCrew(m.reg) + {c}
      ensures d in AssignedCrew(after.reg)
    {
      if d == c {
        assert Commitment(f, c) in now;
      } else {
        var x :| x in was && x.crewId == d;
        assert x in now;
      }
    }
  }

  lemma CommitKeepsRecords(world: World, m: Mind, after: Mind, f: string, c: string)
    requires NobodyTwice(world, m.reg) && EscalationIsEarned(world, m.reg)
    requires after.reg.commitments == m.reg.commitments + [Commitment(f, c)]
    requires after.reg.escalations == m.reg.escalations
    requires c !in AssignedCrew(m.reg) && !Settled(m, f)
    ensures NobodyTwice(world, after.reg) && EscalationIsEarned(world, after.reg)
  {
    CommitSettles(m, after, f, c);
    var was := m.reg.commitments;
    forall i | 0 <= i < |was|
      ensures was[i].crewId != c
    {
      assert was[i] in was;
    }
  }

  /** Settling the chosen flight leaves no cleared pair behind. */
  lemma SettlingClears(world: World, m: Mind, after: Mind, f: string)
    requires ClearedOnlyFor(world, m, f)
    requires after.reg.legalPreviews == m.reg.legalPreviews
    requires forall g :: Settled(after, g) <==> Settled(m, g) || g == f
    ensures ClearedIsNext(world, after)
  {
    forall g, d | Unresolved(world, after, g)
      ensures (g, d) !in after.reg.legalPreviews
    {
      assert Unresolved(world, m, g);
    }
  }

  lemma CommitKeepsInv(world: World, m: Mind, f: string, c: string)
    requires RunInv(world, m) && m.perceived && Chosen(world, m, f)
    requires (f, c) in m.reg.legalPreviews && c !in AssignedCrew(m.reg)
    ensures Accepts(world, m.reg, Commit(f, c))
    ensures RunInv(world, Act(world, m, Commit(f, c)))
  {
    CallKeepsGuards(world, m.reg, Commit(f, c));
    var after := Act(world, m, Commit(f, c));
    CommitKeepsRecords(world, m, after, f, c);
    CommitSettles(m, after, f, c);
    ClearedOnlyForChosen(world, m, f);
    SettlingClears(world, m, after, f);
  }

  // ----- escalate -----

  lemma ClearedPairIsAnOption(reg: Registry, f: string, c: string)
    ensures (f, c) in reg.legalPreviews ==> HasLegalOption(reg, f)
  {
    var p := (f, c);
    assert p.0 == f;
  }

  lemma NothingLeftToTry(world: World, reg: Registry, f: string)
    requires VerdictsAreHonest(world, reg)
    requires !HasLegalOption(reg, f) && Remaining(world, reg, f) == []
    ensures RatedIds(world, f) - AssignedCrew(reg) - Evaluated(reg, f) == {}
    ensures forall c :: c in RatedIds(world, f) ==> c in AssignedCrew(reg) || TriedAndRefused(world, f, c)
  {
    forall c | c in RatedIds(world, f)
      ensures c in AssignedCrew(reg) || c in Evaluated(reg, f)
    {
      var crew :| crew in TypeRated(world, f) && crew.id == c;
      RemainingMembers(world, reg, f, crew);
    }
    forall c | c in Evaluated(reg, f)
      ensures TriedAndRefused(world, f, c)
    {
      ClearedPairIsAnOption(reg, f, c);
    }
  }

  lemma EscalateKeepsInv(world: World, m: Mind, f: string)
    requires RunInv(world, m) && m.perceived && Chosen(world, m, f)
    requires !HasLegalOption(m.reg, f) && Remaining(world, m.reg, f) == []
    ensures Accepts(world, m.reg, Escalate(f))
    ensures RunInv(world, Act(world, m, Escalate(f)))
  {
    OpenFlightIsKnown(world, f);
    NothingLeftToTry(world, m.reg, f);
    CallKeepsGuards(world, m.reg, Escalate(f));
    var after := Act(world, m, Escalate(f));
    EscalateKeepsRecords(world, m, after, f);
    EscalateClears(world, m, after, f);
  }

  lemma EscalateClears(world: World, m: Mind, after: Mind, f: string)
    requires ClearedIsNext(world, m) && Chosen(world, m, f)
    requires after.reg == m.reg.(escalations := m.reg.escalations + [f])
    ensures ClearedIsNext(world, after)
  {
    assert forall g :: Settled(after, g) <==> Settled(m, g) || g == f;
    ClearedOnlyForChosen(world, m, f);
    SettlingClears(world, m, after, f);
  }

  lemma EscalateKeepsRecords(world: World, m: Mind, after: Mind, f: string)
    requires NobodyTwice(world, m.reg) && EscalationIsEarned(world, m.reg)
    requires Unresolved(world, m, f)
    requires after.reg == m.reg.(escalations := m.reg.escalations + [f])
    requires forall c :: c in RatedIds(world, f) ==> c in AssignedCrew(m.reg) || TriedAndRefused(world, f, c)
    ensures NobodyTwice(world, after.reg) && EscalationIsEarned(world, after.reg)
  {
    assert AssignedCrew(after.reg) == AssignedCrew(m.reg);
    assert forall g :: g in after.reg.escalations ==> g in m.reg.escalations || g == f;
  }

  // ----- preview -----

  lemma PreviewShrinks(world: World, reg: Registry, f: string, crew: Crew)
    requires crew in Remaining(world, reg, f)
    ensures |Remaining(world, Previewed(world, reg, f, crew.id), f)| < |Remaining(world, reg, f)|
    ensures |NotEvaluated(world, Previewed(world, reg, f, crew.id), f)| < |NotEvaluated(world, reg, f)|
  {
    var after := Previewed(world, reg, f, crew.id);
    RemainingMembers(world, reg, f, crew);
    assert AssignedCrew(after) == AssignedCrew(reg);
    assert Evaluated(after, f) == Evaluated(reg, f) + {crew.id};
    NarrowerFilter(StillOpenTo(Evaluated(reg, f), AssignedCrew(reg)),
                   StillOpenTo(Evaluated(after, f), AssignedCrew(reg)), TypeRated(world, f));
    NarrowerFilter(StillOpenTo(Evaluated(reg, f), {}), StillOpenTo(Evaluated(after, f), {}), TypeRated(world, f));
  }

  lemma PreviewIsLocal(world: World, reg: Registry, f: string, c: string, g: string)
    requires g != f
    ensures Remaining(world, Previewed(world, reg, f, c), g) == Remaining(world, reg, g)
    ensures NotEvaluated(world, Previewed(world, reg, f, c), g) == NotEvaluated(world, reg, g)
  {
    var after := Previewed(world, reg, f, c);
    assert AssignedCrew(after) == AssignedCrew(reg);
    assert Evaluated(after, g) == Evaluated(reg, g);
  }

  /** Clearing a pair of the chosen flight makes it the strict minimum, since it just lost a candidate. */
  lemma PreviewKeepsClearedNext(world: World, m: Mind, after: Mind, f: string, crew: Crew)
    requires Chosen(world, m, f) && ClearedOnlyFor(world, m, f) && !HasLegalOption(m.reg, f)
    requires crew in Remaining(world, m.reg, f)
    requires after == m.(reg := Previewed(world, m.reg, f, crew.id))
    ensures ClearedIsNext(world, after)
  {
    PreviewShrinks(world, m.reg, f, crew);
    RemainingMembers(world, m.reg, f, crew);
    assert AssignedCrew(after.reg) == AssignedCrew(m.reg);
    assert forall g :: Unresolved(world, after, g) <==> Unresolved(world, m, g);
    forall g | Unresolved(world, after, g) && g != f
      ensures |Remaining(world, after.reg, f)| < |Remaining(world, after.reg, g)|
    {
      PreviewIsLocal(world, m.reg, f, crew.id, g);
    }
    forall g, d | Unresolved(world, after, g) && (g, d) in after.reg.legalPreviews
      ensures g == f && d == crew.id
    {
      assert Unresolved(world, m, g);
      assert (g, d) in m.reg.legalPreviews && g == f ==> HasLegalOption(m.reg, f);
    }
  }

  lemma PreviewKeepsRecords(world: World, m: Mind, after: Mind, f: string, crew: Crew)
    requires EvaluatedIsRated(world, m.reg) && NobodyTwice(world, m.reg) && EscalationIsEarned(world, m.reg)
    requires f in OpenFlights(world) && crew in Remaining(world, m.reg, f)
    requires after == m.(reg := Previewed(world, m.reg, f, crew.id))
    ensures EvaluatedIsRated(world, after.reg) && NobodyTwice(world, after.reg) && EscalationIsEarned(world, after.reg)
  {
    RemainingMembers(world, m.reg, f, crew);
    assert AssignedCrew(after.reg) == AssignedCrew(m.reg);
    assert forall g :: Committed(after.reg, g) <==> Committed(m.reg, g);
  }

  lemma PreviewKeepsInv(world: World, m: Mind, f: string, crew: Crew)
    requires RunInv(world, m) && m.perceived && Chosen(world, m, f)
    requires !HasLegalOption(m.reg, f) && crew in Remaining(world, m.reg, f) && f in world.routes
    ensures Accepts(world, m.reg, Preview(f, crew.id))
    ensures RunInv(world, Act(world, m, Preview(f, crew.id)))
  {
    OpenFlightIsKnown(world, f);
    RemainingMembers(world, m.reg, f, crew);
    RatedIsOnRoster(world, f, crew);
    CallKeepsGuards(world, m.reg, Preview(f, crew.id));
    ClearedOnlyForChosen(world, m, f);
    var after := Act(world, m, Preview(f, crew.id));
    PreviewKeepsRecords(world, m, after, f, crew);
    PreviewKeepsClearedNext(world, m, after, f, crew);
  }

  lemma ListKeepsInv(world: World, m: Mind, f: string)
    requires RunInv(world, m) && m.perceived && Chosen(world, m, f)
    ensures Accepts(world, m.reg, ListCandidates(f))
    ensures RunInv(world, Act(world, m, ListCandidates(f)))
  {
    OpenFlightIsKnown(world, f);
    var after := Act(world, m, ListCandidates(f));
    assert forall g :: Unresolved(world, after, g) <==> Unresolved(world, m, g);
    forall g, d | Unresolved(world, after, g) && (g, d) in after.reg.legalPreviews
      ensures d !in AssignedCrew(after.reg) && StrictMinimum(world, after, g)
    {
      assert StrictMinimum(world, m, g);
    }
  }

  // ----- one planner step -----

  /** What makes a proposed call the right one. */
  ghost predicate Sensible(world: World, m: Mind, d: Decision) {
    match d
    case GetPicture => !m.perceived
    case ListCandidates(f) =>
      m.perceived && Chosen(world, m, f) && !HasLegalOption(m.reg, f) && Remaining(world, m.reg, f) != [] && f !in m.listed
    case Preview(f, c) =>
      m.perceived && Chosen(world, m, f) && !HasLegalOption(m.reg, f) && f in m.listed && BestLeftToTry(world, m, f, c)
    case Commit(f, c) =>
      m.perceived && Chosen(world, m, f) && IsFirstCleared(m.reg, f, c)
    case Escalate(f) =>
      m.perceived && Chosen(world, m, f) && !HasLegalOption(m.reg, f) && Remaining(world, m.reg, f) == []
  }

  /** A candidate left to try, and nobody left is better. */
  ghost predicate BestLeftToTry(world: World, m: Mind, f: string, c: string) {
    exists crew :: crew in Remaining(world, m.reg, f) && crew.id == c && IsBestOf(world, m, f, crew, Remaining(world, m.reg, f))
  }

  ghost predicate IsBestOf(world: World, m: Mind, f: string, best: Crew, candidates: seq<Crew>) {
    forall crew :: crew in candidates ==> NoWorse(world, m, f, best, crew)
  }

  lemma ProposalIsSensible(world: World, m: Mind)
    requires RunInv(world, m)
    ensures Propose(world, m).Some? ==> Sensible(world, m, Propose(world, m).value)
    ensures Propose(world, m).None? ==> m.perceived && AllSettled(world, m)
  {
    if m.perceived {
      SelectionIsChosen(world, m);
      if SelectCase(world, m).Some? {
        ActionIsSensible(world, m, SelectCase(world, m).value.flightId);
      }
    }
  }

  /** What the planner does about the flight it selected. */
  lemma ActionIsSensible(world: World, m: Mind, f: string)
    requires m.perceived && VerdictsAreHonest(world, m.reg) && ClearedIsNext(world, m) && Chosen(world, m, f)
    ensures Sensible(world, m, ActionOn(world, m, f))
  {
    ClearedIsOffered(world, m, f);
    PickIsLeftToTry(world, m, f);
  }

  lemma PickIsLeftToTry(world: World, m: Mind, f: string)
    ensures var remaining := Remaining(world, m.reg, f);
      remaining != [] ==> BestLeftToTry(world, m, f, Pick(world, m, f, remaining))
  {
    var remaining := Remaining(world, m.reg, f);
    if remaining != [] {
      var best := PickIsBest(world, m, f, remaining);
      assert IsBestOf(world, m, f, best, remaining);
    }
  }

  /** The only call that can be refused is a preview of a flight without a planned route. */
  predicate NeedsMissingRoute(world: World, d: Decision) {
    d.Preview? && d.flightId !in world.routes
  }

  lemma SensibleStepKeepsInv(world: World, m: Mind, d: Decision)
    requires RunInv(world, m) && Sensible(world, m, d)
    ensures Accepts(world, m.reg, d) <==> !NeedsMissingRoute(world, d)
    ensures Accepts(world, m.reg, d) ==> RunInv(world, Act(world, m, d))
  {
    match d
    case GetPicture =>
    case ListCandidates(f) => ListKeepsInv(world, m, f);
    case Commit(f, c) => CommitKeepsInv(world, m, f, c);
    case Escalate(f) => EscalateKeepsInv(world, m, f);
    case Preview(f, c) =>
      if f in world.routes {
        var crew :| crew in Remaining(world, m.reg, f) && crew.id == c;
        PreviewKeepsInv(world, m, f, crew);
      }
  }

  lemma PictureUsesACall(world: World, m: Mind)
    requires !m.perceived
    ensures CallsLeft(world, Act(world, m, GetPicture)) < CallsLeft(world, m)
  {
    var after := Act(world, m, GetPicture);
    assert forall g :: Settled(after, g) <==> Settled(m, g);
    TotalBelow(Work(world, after), Work(world, m), OpenFlights(world));
  }

  lemma ListUsesACall(world: World, m: Mind, after: Mind, f: string)
    requires m.perceived && Unresolved(world, m, f) && f !in m.listed
    requires after == m.(listed := m.listed + {f})
    ensures CallsLeft(world, after) < CallsLeft(world, m)
  {
    forall g
      ensures WorkOn(world, after, g) <= WorkOn(world, m, g) - (if g == f then 1 else 0)
    {
      assert Settled(after, g) == Settled(m, g);
    }
    CallsLeftDrops(world, m, after, f);
  }

  lemma SettledHasNoWork(world: World, m: Mind, after: Mind, f: string, g: string)
    requires !Settled(m, f) && after.listed == m.listed && after.reg.previewed == m.reg.previewed
    requires Settled(after, g) <==> Settled(m, g) || g == f
    ensures WorkOn(world, after, g) <= WorkOn(world, m, g) - (if g == f then 1 else 0)
  {
    assert Evaluated(after.reg, g) == Evaluated(m.reg, g);
  }

  lemma SettlingUsesACall(world: World, m: Mind, after: Mind, f: string)
    requires m.perceived && Unresolved(world, m, f)
    requires after.perceived && after.listed == m.listed && after.reg.previewed == m.reg.previewed
    requires forall g :: Settled(after, g) <==> Settled(m, g) || g == f
    ensures CallsLeft(world, after) < CallsLeft(world, m)
  {
    forall g
      ensures WorkOn(world, after, g) <= WorkOn(world, m, g) - (if g == f then 1 else 0)
    {
      SettledHasNoWork(world, m, after, f, g);
    }
    CallsLeftDrops(world, m, after, f);
  }

  lemma PreviewUsesACandidate(world: World, reg: Registry, f: string, crew: Crew, g: string)
    requires crew in Remaining(world, reg, f)
    ensures |NotEvaluated(world, Previewed(world, reg, f, crew.id), g)|
            <= |NotEvaluated(world, reg, g)| - (if g == f then 1 else 0)
  {
    if g == f {
      PreviewShrinks(world, reg, f, crew);
    } else {
      PreviewIsLocal(world, reg, f, crew.id, g);
    }
  }

  lemma WorkFollows(world: World, m: Mind, after: Mind, f: string, g: string)
    requires after.listed == m.listed && (Settled(after, g) <==> Settled(m, g)) && !Settled(m, f)
    requires |NotEvaluated(world, after.reg, g)| <= |NotEvaluated(world, m.reg, g)| - (if g == f then 1 else 0)
    ensures WorkOn(world, after, g) <= WorkOn(world, m, g) - (if g == f then 1 else 0)
  {
  }

  lemma PreviewUsesACall(world: World, m: Mind, f: string, crew: Crew)
    requires m.perceived && Unresolved(world, m, f) && crew in Remaining(world, m.reg, f)
    ensures CallsLeft(world, m.(reg := Previewed(world, m.reg, f, crew.id))) < CallsLeft(world, m)
  {
    var after := m.(reg := Previewed(world, m.reg, f, crew.id));
    forall g
      ensures WorkOn(world, after, g) <= WorkOn(world, m, g) - (if g == f then 1 else 0)
    {
      PreviewUsesACandidate(world, m.reg, f, crew, g);
      WorkFollows(world, m, after, f, g);
    }
    CallsLeftDrops(world, m, after, f);
  }

  /** Every accepted call uses up at least one of the calls left. */
  lemma SensibleStepUsesACall(world: World, m: Mind, d: Decision)
    requires Sensible(world, m, d) && Accepts(world, m.reg, d)
    ensures CallsLeft(world, Act(world, m, d)) < CallsLeft(world, m)
  {
    var after := Act(world, m, d);
    match d
    case GetPicture => PictureUsesACall(world, m);
    case ListCandidates(f) => ListUsesACall(world, m, after, f);
    case Commit(f, c) =>
      CommitSettles(m, after, f, c);
      SettlingUsesACall(world, m, after, f);
    case Escalate(f) =>
      assert forall g :: Settled(after, g) <==> Settled(m, g) || g == f;
      SettlingUsesACall(world, m, after, f);
    case Preview(f, c) =>
      var crew :| crew in Remaining(world, m.reg, f) && crew.id == c;
      PreviewUsesACall(world, m, f, crew);
  }

  lemma CallsLeftIsNonNegative(world: World, m: Mind)
    ensures CallsLeft(world, m) >= 0
  {
    TotalNonNegative(Work(world, m), OpenFlights(world));
  }

  /** Every open flight that anyone could be tried on has a planned route. */
  ghost predicate RoutesAreKnown(world: World) {
    forall f :: f in OpenFlights(world) && TypeRated(world, f) != [] ==> f in world.routes
  }

  /** No guard ever refuses the deterministic planner: if the routes are known, nothing does. */
  lemma NeverRefused(world: World, m: Mind)
    requires RunInv(world, m) && Propose(world, m).Some?
    ensures Accepts(world, m.reg, Propose(world, m).value) <==> !NeedsMissingRoute(world, Propose(world, m).value)
    ensures RoutesAreKnown(world) ==> Accepts(world, m.reg, Propose(world, m).value)
  {
    ProposalIsSensible(world, m);
    var d := Propose(world, m).value;
    SensibleStepKeepsInv(world, m, d);
    if d.Preview? {
      var crew :| crew in Remaining(world, m.reg, d.flightId) && crew.id == d.crewId;
      RemainingMembers(world, m.reg, d.flightId, crew);
    }
  }

  // ----- the run -----

  datatype Stop = Complete | Stalled | StepLimit

  /** A commitment of a rated crew member that the rules engine cleared over the flight's planned route. */
  predicate IsSound(world: World, c: Commitment) {
    CanPreview(world, c.flightId, c.crewId) && world.verdict(c.flightId, c.crewId)
    && c.crewId in RatedIds(world, c.flightId)
  }

  /** What a finished run leaves behind, whatever stopped it. */
  ghost predicate SafePlan(world: World, reg: Registry) {
    && (forall c :: c in reg.commitments ==> IsSound(world, c))
    && (forall i, j :: 0 <= i < j < |reg.commitments| ==>
          reg.commitments[i].flightId != reg.commitments[j].flightId && reg.commitments[i].crewId != reg.commitments[j].crewId)
    && (forall f :: f in reg.escalations ==> !Committed(reg, f))
    && EscalationIsEarned(world, reg)
  }

  lemma InvIsSafe(world: World, m: Mind)
    requires RunInv(world, m)
    ensures SafePlan(world, m.reg)
  {
    forall c | c in m.reg.commitments
      ensures IsSound(world, c)
    {
      assert (c.flightId, c.crewId) in m.reg.legalPreviews;
    }
  }

  /** The planner insists on previewing a flight that has no planned route. */
  ghost predicate StuckWithoutRoute(world: World, m: Mind) {
    Propose(world, m).Some? && NeedsMissingRoute(world, Propose(world, m).value)
  }

  /** The mind after the planner's next call; with nothing to do, or refused, it stays as it is. */
  ghost function Stepped(world: World, m: Mind): Mind {
    var d := Propose(world, m);
    if d.Some? && Accepts(world, m.reg, d.value) then Act(world, m, d.value) else m
  }

  lemma StuckIsUnsettled(world: World, m: Mind)
    requires RunInv(world, m) && StuckWithoutRoute(world, m)
    ensures !AllSettled(world, m) && Stepped(world, m) == m
  {
    ProposalIsSensible(world, m);
    assert Unresolved(world, m, Propose(world, m).value.flightId);
  }

  ghost function PlannerStep(world: World): Mind -> Mind { (m: Mind) => Stepped(world, m) }

  ghost function AfterSteps(world: World, n: nat): Mind { Iterate(PlannerStep(world), FRESH_MIND, n) }

  /** With that many steps the run ends completed, as the last step found nothing to do, stalled, as the same call was
      refused twice, or out of steps. */
  ghost predicate EndsAs(world: World, steps: nat, m: Mind, stopped: Stop) {
    && m == AfterSteps(world, steps)
    && (stopped.Complete? <==> steps > 0 && Propose(world, AfterSteps(world, steps - 1)).None?)
    && (stopped.Stalled? <==> steps > 1 && StuckWithoutRoute(world, AfterSteps(world, steps - 2)))
  }

  /** A proposal is either accepted, which uses up a call, or runs into a missing route. */
  lemma TurnMakesProgress(world: World, m: Mind, d: Decision)
    requires RunInv(world, m) && Propose(world, m) == Some(d)
    ensures Accepts(world, m.reg, d) ==>
      RunInv(world, Act(world, m, d)) && CallsLeft(world, Act(world, m, d)) < CallsLeft(world, m)
    ensures !Accepts(world, m.reg, d) ==> !RoutesAreKnown(world)
    ensures !Accepts(world, m.reg, d) <==> StuckWithoutRoute(world, m)
  {
    ProposalIsSensible(world, m);
    NeverRefused(world, m);
    SensibleStepKeepsInv(world, m, d);
    if Accepts(world, m.reg, d) {
      SensibleStepUsesACall(world, m, d);
    }
  }

  lemma StepsKeepInv(world: World, n: nat)
    ensures RunInv(world, AfterSteps(world, n))
  {
    RunInvAtStart(world);
    forall m | RunInv(world, m)
      ensures RunInv(world, PlannerStep(world)(m))
    {
      StepKeepsInv(world, m);
    }
    IterateKeeps((m: Mind) => RunInv(world, m), PlannerStep(world), FRESH_MIND, n);
  }

  lemma StepKeepsInv(world: World, m: Mind)
    requires RunInv(world, m)
    ensures RunInv(world, Stepped(world, m))
  {
    if Propose(world, m).Some? {
      TurnMakesProgress(world, m, Propose(world, m).value);
    }
  }

  /** The run is after that many steps; its last call, and none before, may have been refused. */
  ghost predicate IsUnderway(world: World, steps: nat, m: Mind, refused: bool) {
    && m == AfterSteps(world, steps)
    && CallsLeft(world, m) <= CallBound(world) - steps + (if refused then 1 else 0)
    && (steps > 0 ==> Propose(world, AfterSteps(world, steps - 1)).Some?)
    && (refused <==> steps > 0 && StuckWithoutRoute(world, AfterSteps(world, steps - 1)))
    && (refused ==> StuckWithoutRoute(world, m) && !RoutesAreKnown(world))
    && (steps > 1 ==> !StuckWithoutRoute(world, AfterSteps(world, steps - 2)))
  }

  lemma NextStep(world: World, steps: nat, m: Mind, refused: bool, d: Decision)
    requires IsUnderway(world, steps, m, refused) && Propose(world, m) == Some(d)
    ensures Accepts(world, m.reg, d) ==> !refused && IsUnderway(world, steps + 1, Act(world, m, d), false)
    ensures !Accepts(world, m.reg, d) && !refused ==> IsUnderway(world, steps + 1, m, true)
  {
    StepsKeepInv(world, steps);
    TurnMakesProgress(world, m, d);
    assert AfterSteps(world, steps + 1) == Stepped(world, m);
  }

  lemma NothingLeft(world: World, m: Mind)
    requires RunInv(world, m) && Propose(world, m).None?
    ensures m.perceived && AllSettled(world, m)
  {
    ProposalIsSensible(world, m);
  }

  lemma EndsCompleted(world: World, i: nat, steps: nat, m: Mind, refused: bool)
    requires i < steps && IsUnderway(world, i, m, refused) && Propose(world, m).None?
    ensures EndsAs(world, steps, m, Complete) && AllSettled(world, m) && m.perceived
  {
    StepsKeepInv(world, i);
    NothingLeft(world, m);
    assert Stepped(world, m) == m && !StuckWithoutRoute(world, m);
    FixedForGood(PlannerStep(world), FRESH_MIND, i);
    assert AfterSteps(world, steps) == m && AfterSteps(world, steps - 1) == m;
    assert steps == i + 1 || AfterSteps(world, steps - 2) == m;
  }

  lemma EndsStalled(world: World, i: nat, steps: nat, m: Mind)
    requires i < steps && IsUnderway(world, i, m, true)
    ensures EndsAs(world, steps, m, Stalled) && StuckWithoutRoute(world, m) && !AllSettled(world, m)
  {
    StepsKeepInv(world, i);
    StuckIsUnsettled(world, m);
    FixedForGood(PlannerStep(world), FRESH_MIND, i);
    assert AfterSteps(world, steps) == m && AfterSteps(world, steps - 1) == m;
    assert steps == i + 1 || AfterSteps(world, steps - 2) == m;
  }

  lemma EndsAtLimit(world: World, steps: nat, m: Mind, refused: bool)
    requires IsUnderway(world, steps, m, refused)
    ensures EndsAs(world, steps, m, StepLimit)
    ensures steps <= CallBound(world) + 1 && (RoutesAreKnown(world) ==> steps <= CallBound(world))
  {
    StepsKeepInv(world, steps);
    CallsLeftIsNonNegative(world, m);
  }

  /** The cases reported as unresolved are those neither committed nor escalated. */
  lemma UnresolvedAreUnsettled(world: World, m: Mind)
    requires RunInv(world, m)
    ensures forall c :: c in Filter(Unsettled(m), m.openCases) <==> c in m.openCases && !Settled(m, c.flightId)
    ensures AllSettled(world, m) && m.perceived ==> Filter(Unsettled(m), m.openCases) == []
  {
    var unresolved := Filter(Unsettled(m), m.openCases);
    forall c
      ensures c in unresolved <==> c in m.openCases && !Settled(m, c.flightId)
    {
      FilterMembers(Unsettled(m), m.openCases, c);
    }
    assert unresolved != [] ==> unresolved[0] in unresolved;
  }

  class RecoveryAgent {
    const maxSteps: nat
    var registry: ToolRegistry
    var perceived: bool
    var openCases: seq<Case>
    var listed: set<string>

    constructor (world: World, maxSteps: nat)
      ensures this.maxSteps == maxSteps && fresh(registry) && registry.world == world && registry.Valid()
      ensures View() == FRESH_MIND
    {
      this.maxSteps := maxSteps;
      registry := new ToolRegistry(world);
      perceived, openCases, listed := false, [], {};
    }

    function View(): Mind
      reads this, registry
    {
      Mind(registry.View(), perceived, openCases, listed)
    }

    /** One turn of the loop: the planner's proposal, carried out and observed. */
    method Turn(d: Decision) returns (ok: bool)
      requires registry.Valid()
      modifies this`perceived, this`openCases, this`listed, registry
      ensures registry.Valid()
      ensures ok <==> old(Accepts(registry.world, View().reg, d))
      ensures View() == if ok then old(Act(registry.world, View(), d)) else old(View())
    {
      ok := registry.Call(d);
      if ok {
        match d
        case GetPicture =>
          openCases := OpenCrewCases(registry.world);
          perceived := true;
        case ListCandidates(f) =>
          listed := listed + {f};
        case _ =>
      }
    }

    /** With routes known and enough steps the run completes, with every case committed or escalated. */
    method Run() returns (stopped: Stop, unresolved: seq<Case>)
      requires registry.Valid() && View() == FRESH_MIND
      modifies this`perceived, this`openCases, this`listed, registry
      ensures SafePlan(registry.world, View().reg)
      ensures RoutesAreKnown(registry.world) ==> !stopped.Stalled?
      ensures RoutesAreKnown(registry.world) && maxSteps > CallBound(registry.world) ==> stopped.Complete?
      ensures maxSteps > CallBound(registry.world) + 1 ==> !stopped.StepLimit?
      ensures stopped.Complete? ==> unresolved == [] && AllSettled(registry.world, View())
      ensures stopped.Complete? ==> Propose(registry.world, View()).None?
      ensures stopped.Stalled? ==> !AllSettled(registry.world, View())
      ensures stopped.Stalled? ==> StuckWithoutRoute(registry.world, View())
      ensures maxSteps > CallBound(registry.world) + 1 ==>
        (stopped.Stalled? <==> StuckWithoutRoute(registry.world, View()))
      ensures EndsAs(registry.world, maxSteps, View(), stopped)
      ensures forall c :: c in unresolved <==> c in View().openCases && !Settled(View(), c.flightId)
    {
      ghost var world := registry.world;
      RunInvAtStart(world);
      CallsLeftAtStart(world);
      stopped := StepLimit;
      var lastFailure: Option<Decision> := None;
      var step := 0;
      while step < maxSteps
        invariant step <= maxSteps && registry.Valid() && registry.world == world && stopped == StepLimit
        invariant IsUnderway(world, step, View(), lastFailure.Some?)
        invariant lastFailure.Some? ==> lastFailure == Propose(world, View())
      {
        var decision := Propose(registry.world, View());
        if decision.None? {
          EndsCompleted(world, step, maxSteps, View(), lastFailure.Some?);
          stopped := Complete;
          break;
        }
        ghost var before := View();
        NextStep(world, step, before, lastFailure.Some?, decision.value);
        var ok := Turn(decision.value);
        if ok {
          lastFailure := None;
        } else if lastFailure == decision {
          EndsStalled(world, step, maxSteps, before);
          stopped := Stalled;
          break;
        } else {
          lastFailure := decision;
        }
        step := step + 1;
      }
      ghost var end := View();
      if stopped.StepLimit? {
        EndsAtLimit(world, step, end, lastFailure.Some?);
      }
      StepsKeepInv(world, maxSteps);
      InvIsSafe(world, end);
      UnresolvedAreUnsettled(world, end);
      unresolved := Filter(Unsettled(View()), openCases);
    }
  }

  // ----- a run that does stall -----

  /** Someone is rated for the flight and for no other flight that has a route. */
  ghost predicate HasOwnCrew(world: World, f: string) {
    exists c :: c in RatedIds(world, f) && RatedNowhereElse(world, f, c)
  }

  ghost predicate RatedNowhereElse(world: World, f: string, c: string) {
    forall g :: g in world.routes && c in RatedIds(world, g) ==> g == f
  }

  /** A flight without a route is settled only once each of its crew has been committed elsewhere. */
  lemma UnroutedLosesItsCrew(world: World, m: Mind, f: string, c: string)
    requires SafePlan(world, m.reg) && Settled(m, f) && f !in world.routes && c in RatedIds(world, f)
    ensures exists x :: x in m.reg.commitments && x.crewId == c && x.flightId in world.routes
                        && c in RatedIds(world, x.flightId)
  {
    forall i | 0 <= i < |m.reg.commitments|
      ensures m.reg.commitments[i].flightId != f
    {
      assert IsSound(world, m.reg.commitments[i]);
    }
    assert f in m.reg.escalations && c in AssignedCrew(m.reg);
    var x :| x in m.reg.commitments && x.crewId == c;
    assert IsSound(world, x);
  }

  lemma UnroutedIsNotSettled(world: World, m: Mind, f: string)
    requires SafePlan(world, m.reg) && f !in world.routes && HasOwnCrew(world, f)
    ensures !Settled(m, f)
  {
    var c :| c in RatedIds(world, f) && RatedNowhereElse(world, f, c);
    if Settled(m, f) {
      UnroutedLosesItsCrew(world, m, f, c);
    }
  }

  lemma CallBoundIsPositive(world: World)
    ensures CallBound(world) >= 0
  {
    CallsLeftAtStart(world);
    CallsLeftIsNonNegative(world, FRESH_MIND);
  }

  /** A run with enough steps; it completes exactly when every open flight ends settled. */
  method RunWithEnoughSteps(world: World) returns (stopped: Stop, end: Mind)
    ensures SafePlan(world, end.reg) && !stopped.StepLimit?
    ensures stopped.Complete? <==> AllSettled(world, end)
    ensures stopped.Stalled? <==> StuckWithoutRoute(world, end)
  {
    CallBoundIsPositive(world);
    var agent := new RecoveryAgent(world, CallBound(world) + 2);
    var unresolved;
    stopped, unresolved := agent.Run();
    end := agent.View();
  }

  /** Given the steps, the agent stalls whenever an open flight with crew of its own has no planned route. */
  method RunWithoutRoute(world: World, f: string) returns (stopped: Stop)
    requires f in OpenFlights(world) && f !in world.routes && HasOwnCrew(world, f)
    ensures stopped.Stalled?
  {
    var end;
    stopped, end := RunWithEnoughSteps(world);
    UnroutedIsNotSettled(world, end, f);
  }

  /** One disrupted flight, one rated crew member, no planned route. */
  function UnroutedWorld(): World {
    World([Crew("C1", "DEL", {}, 0, 0, true, Some("F1")), Crew("C2", "DEL", {"A320"}, 12, 5, false, None)],
          [Flight("F1", "DEL", "A320", 180)], {}, (f, c) => true)
  }

  lemma UnroutedWorldIsStuck()
    ensures "F1" in OpenFlights(UnroutedWorld()) && "F1" !in UnroutedWorld().routes
    ensures HasOwnCrew(UnroutedWorld(), "F1")
  {
    var world := UnroutedWorld();
    FlatMapMember(CaseOf(world.flights), world.roster, Case("F1", 180));
    assert Case("F1", 180) in CaseOf(world.flights)(world.roster[0]);
    FilterMembers(RatedFor("A320"), world.roster, world.roster[1]);
    assert NormaliseAircraftType("A320") == "A320" by {
      NothingToRemove("A320", "-8");
      NothingToRemove("A320", "neo");
    }
    assert RatedNowhereElse(world, "F1", "C2");
  }

  /** The planner really stalls: nobody can be tried on the one open flight. */
  method UnroutedWorldStalls() returns (stopped: Stop)
    ensures stopped.Stalled?
  {
    UnroutedWorldIsStuck();
    stopped := RunWithoutRoute(UnroutedWorld(), "F1");
  }
}
