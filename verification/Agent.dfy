/** The guarded tool registry and the agent loop (agents/tools.py, agents/recovery_agent.py). */
module Agent {
  import opened Sequences
  import opened Planner

  // ----- the guards, and what an accepted call does -----

  function RatedIds(world: World, flightId: string): set<string> {
    set c | c in TypeRated(world, flightId) :: c.id
  }

  predicate CanPreview(world: World, flightId: string, crewId: string) {
    && FlightRecord(world.flights, flightId).Some?
    && CrewRecord(world.roster, crewId).Some?
    && flightId in world.routes
  }

  predicate CanCommit(reg: Registry, flightId: string, crewId: string) {
    (flightId, crewId) in reg.legalPreviews && !Committed(reg, flightId)
  }

  predicate HasLegalOption(reg: Registry, flightId: string) {
    exists p :: p in reg.legalPreviews && p.0 == flightId
  }

  predicate CanEscalate(world: World, reg: Registry, flightId: string) {
    && FlightRecord(world.flights, flightId).Some?
    && RatedIds(world, flightId) - AssignedCrew(reg) - Evaluated(reg, flightId) == {}
    && !HasLegalOption(reg, flightId)
  }

  /** Whether the tool accepts the call. */
  predicate Accepts(world: World, reg: Registry, d: Decision) {
    match d
    case GetPicture => true
    case ListCandidates(f) => FlightRecord(world.flights, f).Some?
    case Preview(f, c) => CanPreview(world, f, c)
    case Commit(f, c) => CanCommit(reg, f, c)
    case Escalate(f) => CanEscalate(world, reg, f)
  }

  function Previewed(world: World, reg: Registry, f: string, c: string): Registry {
    reg.(previewed := reg.previewed[f := Evaluated(reg, f) + {c}],
         verdicts := reg.verdicts[(f, c) := world.verdict(f, c)],
         legalPreviews := reg.legalPreviews + (if world.verdict(f, c) then {(f, c)} else {}))
  }

  function Apply(world: World, reg: Registry, d: Decision): Registry
    requires Accepts(world, reg, d)
  {
    match d
    case GetPicture => reg
    case ListCandidates(_) => reg
    case Preview(f, c) => Previewed(world, reg, f, c)
    case Commit(f, c) => reg.(commitments := reg.commitments + [Commitment(f, c)])
    case Escalate(f) => reg.(escalations := reg.escalations + [f])
  }

  /** What the agent notes about a call that went through. */
  function Observe(world: World, m: Mind, d: Decision): Mind {
    match d
    case GetPicture => m.(perceived := true, openCases := OpenCrewCases(world))
    case ListCandidates(f) => m.(listed := m.listed + {f})
    case _ => m
  }

  function Act(world: World, m: Mind, d: Decision): Mind
    requires Accepts(world, m.reg, d)
  {
    Observe(world, m, d).(reg := Apply(world, m.reg, d))
  }

  // ----- what the guards keep for any planner -----

  ghost predicate VerdictsAreHonest(world: World, reg: Registry) {
    && (forall f, c :: f in reg.previewed && c in reg.previewed[f] ==>
          CanPreview(world, f, c) && (f, c) in reg.verdicts && reg.verdicts[(f, c)] == world.verdict(f, c))
    && (forall f, c :: (f, c) in reg.legalPreviews <==>
          f in reg.previewed && c in reg.previewed[f] && world.verdict(f, c))
  }

  ghost predicate OneCrewPerFlight(reg: Registry) {
    && (forall c :: c in reg.commitments ==> (c.flightId, c.crewId) in reg.legalPreviews)
    && (forall i, j :: 0 <= i < j < |reg.commitments| ==> reg.commitments[i].flightId != reg.commitments[j].flightId)
  }

  ghost predicate Guarded(world: World, reg: Registry) {
    VerdictsAreHonest(world, reg) && OneCrewPerFlight(reg)
  }

  lemma CallKeepsGuards(world: World, reg: Registry, d: Decision)
    requires Guarded(world, reg) && Accepts(world, reg, d)
    ensures Guarded(world, Apply(world, reg, d))
  {
    var after := Apply(world, reg, d);
    match d
    case Commit(f, c) =>
      assert forall x :: x in after.commitments ==> x in reg.commitments || x == Commitment(f, c);
    case _ =>
  }

  /** A registry after some calls in a row; a refused call changes nothing. */
  function AfterCalls(world: World, reg: Registry, calls: seq<Decision>): Registry
    decreases |calls|
  {
    if calls == [] then reg
    else AfterCalls(world, if Accepts(world, reg, calls[0]) then Apply(world, reg, calls[0]) else reg, calls[1..])
  }

  lemma {:induction false} CallsKeepGuards(world: World, reg: Registry, calls: seq<Decision>)
    requires Guarded(world, reg)
    ensures Guarded(world, AfterCalls(world, reg, calls))
    decreases |calls|
  {
    if calls != [] {
      if Accepts(world, reg, calls[0]) {
        CallKeepsGuards(world, reg, calls[0]);
        CallsKeepGuards(world, Apply(world, reg, calls[0]), calls[1..]);
      } else {
        CallsKeepGuards(world, reg, calls[1..]);
      }
    }
  }

  lemma PreviewableIff(world: World, flightId: string, crewId: string)
    ensures CanPreview(world, flightId, crewId) <==>
      KnownFlight(world, flightId) && KnownCrew(world, crewId) && flightId in world.routes
  {
    KnownIff(world, flightId, crewId);
  }

  /** Whatever calls any planner makes, in any order: every commitment is of a known flight and crew member with a
      planned route, was cleared by the rules engine, and no flight is committed twice. */
  lemma GuardsHold(world: World, calls: seq<Decision>)
    ensures var reg := AfterCalls(world, FRESH_REGISTRY, calls);
      && (forall c :: c in reg.commitments ==>
            KnownFlight(world, c.flightId) && KnownCrew(world, c.crewId) && c.flightId in world.routes
            && world.verdict(c.flightId, c.crewId))
      && (forall i, j :: 0 <= i < j < |reg.commitments| ==> reg.commitments[i].flightId != reg.commitments[j].flightId)
  {
    CallsKeepGuards(world, FRESH_REGISTRY, calls);
    var reg := AfterCalls(world, FRESH_REGISTRY, calls);
    forall c | c in reg.commitments
      ensures KnownFlight(world, c.flightId) && KnownCrew(world, c.crewId) && c.flightId in world.routes
      ensures world.verdict(c.flightId, c.crewId)
    {
      assert (c.flightId, c.crewId) in reg.legalPreviews;
      PreviewableIff(world, c.flightId, c.crewId);
    }
  }

  /** Some free rated crew member of the flight has not been tried. */
  ghost predicate SomeoneUntried(world: World, reg: Registry, flightId: string) {
    exists crew :: FreeAndRated(world, flightId, crew) && crew.id !in AssignedCrew(reg) && crew.id !in Evaluated(reg, flightId)
  }

  lemma EscalableIff(world: World, reg: Registry, flightId: string)
    ensures CanEscalate(world, reg, flightId) <==>
      && KnownFlight(world, flightId) && !SomeoneUntried(world, reg, flightId)
      && forall c :: (flightId, c) !in reg.legalPreviews
  {
    KnownIff(world, flightId, "");
    forall crew
      ensures crew in TypeRated(world, flightId) <==> FreeAndRated(world, flightId, crew)
    {
      TypeRatedIff(world, flightId, crew);
    }
    if SomeoneUntried(world, reg, flightId) {
      var crew :| FreeAndRated(world, flightId, crew) && crew.id !in AssignedCrew(reg) && crew.id !in Evaluated(reg, flightId);
      assert crew.id in RatedIds(world, flightId) - AssignedCrew(reg) - Evaluated(reg, flightId);
    }
    if c :| (flightId, c) in reg.legalPreviews {
      assert (flightId, c).0 == flightId;
    }
  }

  class ToolRegistry {
    const world: World
    var legalPreviews: set<(string, string)>
    var previewed: map<string, set<string>>
    var verdicts: map<(string, string), bool>
    var commitments: seq<Commitment>
    var escalations: seq<string>

    function View(): Registry
      reads this
    {
      Registry(legalPreviews, previewed, verdicts, commitments, escalations)
    }

    ghost predicate Valid()
      reads this
    {
      Guarded(world, View())
    }

    constructor (world: World)
      ensures this.world == world
      ensures Valid() && View() == FRESH_REGISTRY
    {
      this.world := world;
      legalPreviews, previewed, verdicts, commitments, escalations := {}, map[], map[], [], [];
    }

    method ListCandidateCrew(flightId: string) returns (reply: Option<seq<Crew>>)
      ensures reply.Some? <==> Accepts(world, View(), ListCandidates(flightId))
      ensures reply.Some? <==> KnownFlight(world, flightId)
      ensures reply.Some? ==> reply.value == TypeRated(world, flightId)
      ensures reply.Some? ==> forall crew :: crew in reply.value <==> FreeAndRated(world, flightId, crew)
    {
      KnownIff(world, flightId, "");
      forall crew
        ensures crew in TypeRated(world, flightId) <==> FreeAndRated(world, flightId, crew)
      {
        TypeRatedIff(world, flightId, crew);
      }
      if FlightRecord(world.flights, flightId).None? {
        return None;
      }
      reply := Some(TypeRated(world, flightId));
    }

    method PreviewReassignment(flightId: string, crewId: string) returns (reply: Option<bool>)
      requires Valid()
      modifies this
      ensures Valid()
      ensures reply.Some? <==> old(Accepts(world, View(), Preview(flightId, crewId)))
      ensures reply.Some? <==> KnownFlight(world, flightId) && KnownCrew(world, crewId) && flightId in world.routes
      ensures reply.Some? ==>
        reply.value == world.verdict(flightId, crewId)
        && View() == old(Apply(world, View(), Preview(flightId, crewId)))
      ensures reply.None? ==> View() == old(View())
    {
      PreviewableIff(world, flightId, crewId);
      if !CanPreview(world, flightId, crewId) {
        return None;
      }
      CallKeepsGuards(world, View(), Preview(flightId, crewId));
      var legal := world.verdict(flightId, crewId);
      if flightId !in previewed {
        previewed := previewed[flightId := {}];
      }
      previewed := previewed[flightId := previewed[flightId] + {crewId}];
      verdicts := verdicts[(flightId, crewId) := legal];
      if legal {
        legalPreviews := legalPreviews + {(flightId, crewId)};
      }
      assert View() == old(Apply(world, View(), Preview(flightId, crewId)));
      reply := Some(legal);
    }

    method CommitReassignment(flightId: string, crewId: string) returns (ok: bool)
      requires Valid()
      modifies this`commitments
      ensures Valid()
      ensures ok <==> old(Accepts(world, View(), Commit(flightId, crewId)))
      ensures ok <==> (flightId, crewId) in legalPreviews && forall c :: c in old(commitments) ==> c.flightId != flightId
      ensures ok ==> View() == old(Apply(world, View(), Commit(flightId, crewId)))
      ensures !ok ==> View() == old(View())
    {
      if (flightId, crewId) !in legalPreviews {
        return false;
      }
      if exists i :: 0 <= i < |commitments| && commitments[i].flightId == flightId {
        return false;
      }
      CallKeepsGuards(world, View(), Commit(flightId, crewId));
      commitments := commitments + [Commitment(flightId, crewId)];
      ok := true;
    }

    method EscalateToTier3(flightId: string) returns (ok: bool)
      requires Valid()
      modifies this`escalations
      ensures Valid()
      ensures ok <==> old(Accepts(world, View(), Escalate(flightId)))
      ensures ok <==>
        && KnownFlight(world, flightId) && !old(SomeoneUntried(world, View(), flightId))
        && forall c :: (flightId, c) !in legalPreviews
      ensures ok ==> View() == old(Apply(world, View(), Escalate(flightId)))
      ensures !ok ==> View() == old(View())
    {
      EscalableIff(world, View(), flightId);
      if FlightRecord(world.flights, flightId).None? {
        return false;
      }
      var candidates := RatedIds(world, flightId) - AssignedCrew(View());
      var remaining := candidates - Evaluated(View(), flightId);
      if remaining != {} {
        return false;
      }
      if HasLegalOption(View(), flightId) {
        return false;
      }
      escalations := escalations + [flightId];
      ok := true;
    }

    /** One tool call. */
    method Call(d: Decision) returns (ok: bool)
      requires Valid()
      modifies this
      ensures Valid()
      ensures ok <==> old(Accepts(world, View(), d))
      ensures View() == if ok then old(Apply(world, View(), d)) else old(View())
    {
      match d
      case GetPicture =>
        ok := true;
      case ListCandidates(f) =>
        var reply := ListCandidateCrew(f);
        ok := reply.Some?;
      case Preview(f, c) =>
        var reply := PreviewReassignment(f, c);
        ok := reply.Some?;
      case Commit(f, c) =>
        ok := CommitReassignment(f, c);
      case Escalate(f) =>
        ok := EscalateToTier3(f);
    }
  }
}
