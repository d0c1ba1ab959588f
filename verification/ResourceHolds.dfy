/** Expiring resource holds and their index (core/resource_holds.py, and the release on supersession). */
module ResourceHolds {
  import opened Sequences
  import opened Text

  datatype Hold = Hold(
    holdId: string, tenantId: string, recoveryId: string, candidateId: string, candidateVersion: int,
    resources: seq<string>, owner: string, acquiredAt: int, expiresAt: int)

  datatype Problem =
    | InvalidHoldTtl | ResourcesRequired | ResourceConflict(resources: seq<string>) | HoldExpiredOrMissing
    | StaleHold | HoldOwnerMismatch | HoldRecoveryMismatch

  type Holds = map<string, Hold>
  type Index = map<(string, string), string>

  const SECOND := 1000000

  predicate Reserves(h: Hold, tenantId: string, resource: string) {
    h.tenantId == tenantId && resource in h.resources
  }

  /** The index maps a (tenant, resource) to a hold exactly when that hold reserves it. */
  ghost predicate Inverse(holds: Holds, index: Index) {
    && (forall id :: id in holds ==> holds[id].holdId == id)
    && (forall id, r :: id in holds && r in holds[id].resources ==>
          (holds[id].tenantId, r) in index && index[(holds[id].tenantId, r)] == id)
    && (forall key :: key in index ==> index[key] in holds && Reserves(holds[index[key]], key.0, key.1))
  }

  /** No resource of a tenant is in two holds. */
  lemma NoDoubleHold(holds: Holds, index: Index, a: string, b: string, resource: string)
    requires Inverse(holds, index) && a in holds && b in holds
    requires resource in holds[a].resources && resource in holds[b].resources && holds[a].tenantId == holds[b].tenantId
    ensures a == b
  {
    assert index[(holds[a].tenantId, resource)] == a;
  }

  // ----- what time and releases leave -----

  function Live(holds: Holds, now: int): Holds {
    map id | id in holds && holds[id].expiresAt > now :: holds[id]
  }

  function NotOf(holds: Holds, recoveryId: string): Holds {
    map id | id in holds && holds[id].recoveryId != recoveryId :: holds[id]
  }

  ghost predicate Held(holds: Holds, tenantId: string, resource: string) {
    exists id :: id in holds && Reserves(holds[id], tenantId, resource)
  }

  lemma IndexedIffHeld(holds: Holds, index: Index, tenantId: string, resource: string)
    requires Inverse(holds, index)
    ensures (tenantId, resource) in index <==> Held(holds, tenantId, resource)
  {
  }

  function InIndex(index: Index, tenantId: string): string -> bool {
    (resource: string) => (tenantId, resource) in index
  }

  class ResourceHoldRegistry {
    var holds: Holds
    var resourceIndex: Index

    constructor ()
      ensures Valid() && holds == map[]
    {
      holds, resourceIndex := map[], map[];
    }

    ghost predicate Valid()
      reads this
    {
      Inverse(holds, resourceIndex)
    }

    /** Drops one hold and the index entries of its resources. */
    method Drop(holdId: string)
      requires Valid()
      modifies this
      ensures Valid() && holds == old(holds) - {holdId}
    {
      if holdId !in holds {
        return;
      }
      var hold := holds[holdId];
      holds := holds - {holdId};
      for i := 0 to |hold.resources|
        invariant holds == old(holds) - {holdId}
        invariant resourceIndex == WithoutEntries(old(resourceIndex), hold.tenantId, hold.resources[..i])
      {
        resourceIndex := resourceIndex - {(hold.tenantId, hold.resources[i])};
        assert hold.resources[..i + 1] == hold.resources[..i] + [hold.resources[i]];
      }
      assert hold.resources[..|hold.resources|] == hold.resources;
    }

    method Expire(now: int)
      requires Valid()
      modifies this
      ensures Valid() && holds == Live(old(holds), now)
    {
      var todo := holds.Keys;
      while todo != {}
        invariant Valid()
        invariant todo <= old(holds).Keys
        invariant holds == map id | id in old(holds) && (id in todo || old(holds)[id].expiresAt > now) :: old(holds)[id]
        decreases |todo|
      {
        var holdId :| holdId in todo;
        if holds[holdId].expiresAt <= now {
          Drop(holdId);
        }
        todo := todo - {holdId};
      }
    }

    /** A refused acquire changes nothing but expiry, and a conflict names exactly the resources held. */
    method Acquire(holdId: string, tenantId: string, recoveryId: string, candidateId: string, candidateVersion: int,
                   resources: set<string>, owner: string, ttlSeconds: int, now: int, acquiredAt: int)
      returns (hold: Option<Hold>, problem: Option<Problem>)
      requires Valid() && holdId !in holds
      modifies this
      ensures Valid()
      ensures ttlSeconds < 30 || ttlSeconds > 1800 ==>
        problem == Some(InvalidHoldTtl) && hold == None && holds == old(holds)
      ensures 30 <= ttlSeconds <= 1800 && resources == {} ==>
        problem == Some(ResourcesRequired) && hold == None && holds == old(holds)
      ensures 30 <= ttlSeconds <= 1800 && resources != {} && AnyHeld(Live(old(holds), now), tenantId, resources) ==>
        && hold == None && holds == Live(old(holds), now)
        && problem.Some? && problem.value.ResourceConflict?
        && forall r :: r in problem.value.resources <==> r in resources && Held(Live(old(holds), now), tenantId, r)
      ensures 30 <= ttlSeconds <= 1800 && resources != {} && !AnyHeld(Live(old(holds), now), tenantId, resources) ==>
        && problem == None
        && hold == Some(Hold(holdId, tenantId, recoveryId, candidateId, candidateVersion, SortedMembers(resources), owner,
                             acquiredAt, acquiredAt + ttlSeconds * 1_000_000))
        && holds == Live(old(holds), now)[holdId := hold.value]
    {
      if ttlSeconds < 30 || ttlSeconds > 1800 {
        return None, Some(InvalidHoldTtl);
      }
      var normalized := SortedMembers(resources);
      if normalized == [] {
        return None, Some(ResourcesRequired);
      }
      Expire(now);
      var conflicts := Filter(InIndex(resourceIndex, tenantId), normalized);
      ConflictsAreHeld(holds, resourceIndex, tenantId, resources);
      if conflicts != [] {
        return None, Some(ResourceConflict(conflicts));
      }
      var created := Hold(holdId, tenantId, recoveryId, candidateId, candidateVersion, normalized, owner,
                          acquiredAt, acquiredAt + ttlSeconds * SECOND);
      Enter(created);
      return Some(created), None;
    }

    /** Files a hold whose resources are free. */
    method Enter(hold: Hold)
      requires Valid() && hold.holdId !in holds
      requires forall r :: r in hold.resources ==> (hold.tenantId, r) !in resourceIndex
      modifies this
      ensures Valid() && holds == old(holds)[hold.holdId := hold]
    {
      holds := holds[hold.holdId := hold];
      for i := 0 to |hold.resources|
        invariant holds == old(holds)[hold.holdId := hold]
        invariant resourceIndex == WithEntries(old(resourceIndex), hold, i)
      {
        resourceIndex := resourceIndex[(hold.tenantId, hold.resources[i]) := hold.holdId];
      }
      EnteringKeepsInverse(old(holds), old(resourceIndex), hold);
    }

    method Get(holdId: string, now: int) returns (hold: Option<Hold>)
      requires Valid()
      modifies this
      ensures Valid() && holds == Live(old(holds), now)
      ensures hold == if holdId in old(holds) && old(holds)[holdId].expiresAt > now then Some(old(holds)[holdId]) else None
    {
      Expire(now);
      hold := if holdId in holds then Some(holds[holdId]) else None;
    }

    method AssertCurrent(holdId: string, candidateId: string, candidateVersion: int, now: int)
      returns (hold: Option<Hold>, problem: Option<Problem>)
      requires Valid()
      modifies this
      ensures Valid() && holds == Live(old(holds), now)
      ensures problem.None? <==>
        && holdId in old(holds) && old(holds)[holdId].expiresAt > now
        && old(holds)[holdId].candidateId == candidateId && old(holds)[holdId].candidateVersion == candidateVersion
      ensures problem == Some(HoldExpiredOrMissing) <==> !(holdId in old(holds) && old(holds)[holdId].expiresAt > now)
      ensures problem in {None, Some(HoldExpiredOrMissing), Some(StaleHold)}
      ensures hold == if problem.None? then Some(old(holds)[holdId]) else None
    {
      hold := Get(holdId, now);
      if hold.None? { return None, Some(HoldExpiredOrMissing); }
      if hold.value.candidateId != candidateId || hold.value.candidateVersion != candidateVersion {
        return None, Some(StaleHold);
      }
      problem := None;
    }

    method Release(holdId: string, owner: string, now: int) returns (problem: Option<Problem>)
      requires Valid()
      modifies this
      ensures Valid()
      ensures holds == if problem.None? then Live(old(holds), now) - {holdId} else Live(old(holds), now)
      ensures problem.None? <==>
        holdId in old(holds) && old(holds)[holdId].expiresAt > now && old(holds)[holdId].owner == owner
      ensures problem == Some(HoldExpiredOrMissing) <==> !(holdId in old(holds) && old(holds)[holdId].expiresAt > now)
      ensures problem in {None, Some(HoldExpiredOrMissing), Some(HoldOwnerMismatch)}
    {
      var hold := Get(holdId, now);
      if hold.None? { return Some(HoldExpiredOrMissing); }
      if hold.value.owner != owner { return Some(HoldOwnerMismatch); }
      Drop(holdId);
      problem := None;
    }

    method ReleaseForRecovery(holdId: string, recoveryId: string, now: int) returns (problem: Option<Problem>)
      requires Valid()
      modifies this
      ensures Valid()
      ensures holds == if problem.None? then Live(old(holds), now) - {holdId} else Live(old(holds), now)
      ensures problem.None? <==>
        holdId in old(holds) && old(holds)[holdId].expiresAt > now && old(holds)[holdId].recoveryId == recoveryId
      ensures problem == Some(HoldExpiredOrMissing) <==> !(holdId in old(holds) && old(holds)[holdId].expiresAt > now)
      ensures problem in {None, Some(HoldExpiredOrMissing), Some(HoldRecoveryMismatch)}
    {
      var hold := Get(holdId, now);
      if hold.None? { return Some(HoldExpiredOrMissing); }
      if hold.value.recoveryId != recoveryId { return Some(HoldRecoveryMismatch); }
      Drop(holdId);
      problem := None;
    }

    method DropAll(ids: set<string>)
      requires Valid()
      modifies this
      ensures Valid() && holds == old(holds) - ids
    {
      var todo := ids;
      while todo != {}
        invariant Valid() && todo <= ids
        invariant holds == old(holds) - (ids - todo)
        decreases |todo|
      {
        var holdId :| holdId in todo;
        Drop(holdId);
        todo := todo - {holdId};
      }
    }

    /** Frees exactly the recovery's resources, and returns the ids of the holds it dropped. */
    method ReleaseAllForRecovery(recoveryId: string, now: int) returns (released: set<string>)
      requires Valid()
      modifies this
      ensures Valid() && holds == NotOf(Live(old(holds), now), recoveryId)
      ensures released == Live(old(holds), now).Keys - NotOf(Live(old(holds), now), recoveryId).Keys
    {
      Expire(now);
      released := set id | id in holds && holds[id].recoveryId == recoveryId;
      ghost var live := holds;
      DropAll(released);
      assert holds == NotOf(live, recoveryId);
      assert released == live.Keys - NotOf(live, recoveryId).Keys;
    }
  }

  // ----- lemmas behind the methods -----

  function WithoutEntries(index: Index, tenantId: string, resources: seq<string>): Index {
    map key | key in index && !(key.0 == tenantId && key.1 in resources) :: index[key]
  }

  function WithEntries(index: Index, hold: Hold, n: nat): Index
    requires n <= |hold.resources|
  {
    if n == 0 then index
    else WithEntries(index, hold, n - 1)[(hold.tenantId, hold.resources[n - 1]) := hold.holdId]
  }

  ghost predicate AnyHeld(holds: Holds, tenantId: string, resources: set<string>) {
    exists r :: r in resources && Held(holds, tenantId, r)
  }

  lemma ConflictsAreHeld(holds: Holds, index: Index, tenantId: string, resources: set<string>)
    requires Inverse(holds, index)
    ensures
      var conflicts := Filter(InIndex(index, tenantId), SortedMembers(resources));
      && (forall r :: r in conflicts <==> r in resources && Held(holds, tenantId, r))
      && (conflicts != [] <==> AnyHeld(holds, tenantId, resources))
  {
    var conflicts := Filter(InIndex(index, tenantId), SortedMembers(resources));
    forall r
      ensures r in conflicts <==> r in resources && Held(holds, tenantId, r)
    {
      FilterMembers(InIndex(index, tenantId), SortedMembers(resources), r);
      IndexedIffHeld(holds, index, tenantId, r);
    }
    if conflicts != [] {
      assert conflicts[0] in conflicts;
    }
  }

  lemma {:induction false} WithEntriesMembers(index: Index, hold: Hold, n: nat, key: (string, string))
    requires n <= |hold.resources|
    ensures key in WithEntries(index, hold, n) <==> key in index || (key.0 == hold.tenantId && key.1 in hold.resources[..n])
    ensures key in WithEntries(index, hold, n) ==>
      WithEntries(index, hold, n)[key] == if key.0 == hold.tenantId && key.1 in hold.resources[..n] then hold.holdId else index[key]
  {
    if n > 0 {
      WithEntriesMembers(index, hold, n - 1, key);
      assert hold.resources[..n] == hold.resources[..n - 1] + [hold.resources[n - 1]];
    }
  }

  /** The index with the hold's resources pointing to it. */
  ghost predicate PointsTo(before: Index, after: Index, hold: Hold) {
    forall key ::
      && (key in after <==> key in before || (key.0 == hold.tenantId && key.1 in hold.resources))
      && (key in after ==>
            after[key] == if key.0 == hold.tenantId && key.1 in hold.resources then hold.holdId else before[key])
  }

  lemma EnteredIndex(index: Index, hold: Hold)
    ensures PointsTo(index, WithEntries(index, hold, |hold.resources|), hold)
  {
    var after := WithEntries(index, hold, |hold.resources|);
    assert hold.resources[..|hold.resources|] == hold.resources;
    forall key
      ensures key in after <==> key in index || (key.0 == hold.tenantId && key.1 in hold.resources)
      ensures key in after ==> after[key] == if key.0 == hold.tenantId && key.1 in hold.resources then hold.holdId else index[key]
    {
      WithEntriesMembers(index, hold, |hold.resources|, key);
    }
  }

  lemma PointingKeepsInverse(holds: Holds, index: Index, hold: Hold, after: Index)
    requires Inverse(holds, index) && hold.holdId !in holds && PointsTo(index, after, hold)
    requires forall r :: r in hold.resources ==> (hold.tenantId, r) !in index
    ensures Inverse(holds[hold.holdId := hold], after)
  {
  }

  lemma EnteringKeepsInverse(holds: Holds, index: Index, hold: Hold)
    requires Inverse(holds, index) && hold.holdId !in holds
    requires forall r :: r in hold.resources ==> (hold.tenantId, r) !in index
    ensures Inverse(holds[hold.holdId := hold], WithEntries(index, hold, |hold.resources|))
  {
    EnteredIndex(index, hold);
    PointingKeepsInverse(holds, index, hold, WithEntries(index, hold, |hold.resources|));
  }

  // ----- supersession (deployment/recovery_api.py) -----

  datatype RecoveryRecord = RecoveryRecord(disruptionId: string, status: string)

  /** The earlier recoveries of the disruption. */
  function Priors(recoveries: map<string, RecoveryRecord>, disruptionId: string, newRecoveryId: string): set<string> {
    set id | id in recoveries && id != newRecoveryId && recoveries[id].disruptionId == disruptionId
  }

  function Superseded(recoveries: map<string, RecoveryRecord>, ids: set<string>): map<string, RecoveryRecord> {
    map id | id in recoveries :: if id in ids then recoveries[id].(status := "superseded") else recoveries[id]
  }

  /** The holds of some recoveries are gone and their ids collected; of the others only expired holds may be gone. */
  ghost predicate Freed(before: Holds, after: Holds, released: set<string>, now: int, gone: set<string>) {
    && (forall id :: id in after ==> id in before && after[id] == before[id] && after[id].recoveryId !in gone)
    && (forall id :: id in before && before[id].expiresAt > now && before[id].recoveryId !in gone ==> id in after)
    && (forall id :: id in released <==>
          id in before && before[id].expiresAt > now && before[id].recoveryId in gone)
  }

  lemma FreedOneMore(before: Holds, after: Holds, released: set<string>, now: int, gone: set<string>, rid: string)
    requires Freed(before, after, released, now, gone) && rid !in gone
    ensures
      var next := NotOf(Live(after, now), rid);
      Freed(before, next, released + (Live(after, now).Keys - next.Keys), now, gone + {rid})
  {
  }

  /** Of the recoveries, those in `gone` are marked. */
  lemma SupersededOneMore(recoveries: map<string, RecoveryRecord>, gone: set<string>, rid: string)
    requires rid in recoveries && rid !in gone
    ensures
      var was := Superseded(recoveries, gone);
      rid in was && was[rid] == recoveries[rid]
      && was[rid := recoveries[rid].(status := "superseded")] == Superseded(recoveries, gone + {rid})
  {
  }

  lemma PriorsLeft(priors: set<string>, todo: set<string>, rid: string)
    requires rid in todo
    ensures rid !in priors - todo
    ensures priors - (todo - {rid}) == if rid in priors then (priors - todo) + {rid} else priors - todo
  {
  }

  class RecoveryStore {
    var recoveries: map<string, RecoveryRecord>
    const holdRegistry: ResourceHoldRegistry

    constructor (registry: ResourceHoldRegistry)
      ensures holdRegistry == registry && recoveries == map[]
    {
      holdRegistry := registry;
      recoveries := map[];
    }

    /** Marks one recovery superseded and frees its holds. */
    method SupersedeOne(recoveryId: string, now: int) returns (released: set<string>)
      requires holdRegistry.Valid() && recoveryId in recoveries
      modifies this, holdRegistry
      ensures holdRegistry.Valid()
      ensures recoveries == old(recoveries)[recoveryId := old(recoveries)[recoveryId].(status := "superseded")]
      ensures holdRegistry.holds == NotOf(Live(old(holdRegistry.holds), now), recoveryId)
      ensures released == Live(old(holdRegistry.holds), now).Keys - holdRegistry.holds.Keys
    {
      if recoveries[recoveryId].status != "superseded" {
        recoveries := recoveries[recoveryId := recoveries[recoveryId].(status := "superseded")];
      }
      released := holdRegistry.ReleaseAllForRecovery(recoveryId, now);
    }

    /** Frees exactly the live holds of the earlier recoveries of the disruption, and returns their ids; every other
        hold stays unless it expired. */
    method SupersedePriorRecoveries(disruptionId: string, newRecoveryId: string, now: int) returns (released: set<string>)
      requires holdRegistry.Valid()
      modifies this, holdRegistry
      ensures holdRegistry.Valid()
      ensures recoveries.Keys == old(recoveries).Keys
      ensures forall id :: id in recoveries ==>
        recoveries[id] ==
          if id != newRecoveryId && old(recoveries)[id].disruptionId == disruptionId
          then old(recoveries)[id].(status := "superseded") else old(recoveries)[id]
      ensures Freed(old(holdRegistry.holds), holdRegistry.holds, released, now,
                    set id | id in old(recoveries) && id != newRecoveryId && old(recoveries)[id].disruptionId == disruptionId)
    {
      ghost var priors := Priors(recoveries, disruptionId, newRecoveryId);
      var todo := recoveries.Keys;
      released := {};
      assert Superseded(recoveries, {}) == recoveries && priors - todo == {};
      while todo != {}
        invariant holdRegistry.Valid() && todo <= old(recoveries).Keys
        invariant recoveries == Superseded(old(recoveries), priors - todo)
        invariant Freed(old(holdRegistry.holds), holdRegistry.holds, released, now, priors - todo)
        decreases |todo|
      {
        var rid :| rid in todo;
        PriorsLeft(priors, todo, rid);
        SupersededOneMore(old(recoveries), priors - todo, rid);
        FreedOneMore(old(holdRegistry.holds), holdRegistry.holds, released, now, priors - todo, rid);
        todo := todo - {rid};
        if rid == newRecoveryId || recoveries[rid].disruptionId != disruptionId {
          continue;
        }
        var freed := SupersedeOne(rid, now);
        released := released + freed;
      }
      assert priors - {} == priors;
    }
  }
}
