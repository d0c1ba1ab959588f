/** The durable deployment tables in terms of their history: which claim, release or report each part of a command row
    comes from, and when each takes effect (state/deployment_repository.py). */
module RowHistory {
  import opened Sequences
  import opened CommandState
  import opened DeploymentRepository
  import opened DeploymentSimulation

  // ----- when something takes effect -----

  ghost predicate IsFirstRow(rows: seq<Row>, commandId: string, k: int) {
    && 0 <= k < |rows| && rows[k].commandId == commandId
    && (forall i :: 0 <= i < k ==> rows[i].commandId != commandId)
  }

  /** The row already says what is reported. */
  ghost predicate Says(row: Row, r: Report) {
    row.status == r.target && row.reference == r.reference && row.failureCode == r.failureCode
  }

  /** A publication starts from a queued row that its worker has claimed; any other report from a published row. */
  ghost predicate MayFollow(row: Row, r: Report) {
    if r.target == RowPublished then row.status == RowQueued && row.claimedBy == r.worker else row.status == RowPublished
  }

  /** A report is answered by the first row that bears its id, if the caller has seen the current version. */
  lemma AnswerMeans(p: Projection, expectedVersion: int, r: Report)
    ensures AnswerTo(p, expectedVersion, r) == Refused(VersionConflict) <==> expectedVersion != p.stateVersion
    ensures AnswerTo(p, expectedVersion, r) == Refused(NoCommand) <==>
      expectedVersion == p.stateVersion && forall k :: !IsFirstRow(p.rows, r.commandId, k)
    ensures AnswerTo(p, expectedVersion, r) == Replayed <==>
      expectedVersion == p.stateVersion && exists k :: IsFirstRow(p.rows, r.commandId, k) && Says(p.rows[k], r)
    ensures AnswerTo(p, expectedVersion, r).Moved? <==>
      expectedVersion == p.stateVersion
      && exists k :: IsFirstRow(p.rows, r.commandId, k) && !Says(p.rows[k], r) && MayFollow(p.rows[k], r)
    ensures AnswerTo(p, expectedVersion, r) == Refused(ClaimNotOwned) <==>
      expectedVersion == p.stateVersion && r.target == RowPublished
      && exists k :: IsFirstRow(p.rows, r.commandId, k) && p.rows[k].status == RowQueued && p.rows[k].claimedBy != r.worker
  {
    var k := RowIndex(p.rows, r.commandId);
    if k < |p.rows| {
      assert IsFirstRow(p.rows, r.commandId, k);
    }
    assert forall i :: IsFirstRow(p.rows, r.commandId, i) ==> i == k;
  }

  lemma ClaimMeans(p: Projection, commandId: string, worker: string)
    ensures CanClaim(p, commandId) <==>
      exists k :: IsFirstRow(p.rows, commandId, k) && p.rows[k].status == RowQueued && p.rows[k].claimedBy == None
    ensures CanRelease(p, commandId, worker) <==>
      exists k :: IsFirstRow(p.rows, commandId, k) && p.rows[k].status == RowQueued && p.rows[k].claimedBy == Some(worker)
  {
    var k := RowIndex(p.rows, commandId);
    if k < |p.rows| {
      assert IsFirstRow(p.rows, commandId, k);
    }
    assert forall i :: IsFirstRow(p.rows, commandId, i) ==> i == k;
  }

  predicate TakesEffect(p: Projection, e: Event) {
    match e
    case Claim(c, w) => CanClaim(p, c)
    case Release(c, w, _) => CanRelease(p, c, w)
    case Make(v, r) => WellFormed(r) && AnswerTo(p, v, r).Moved?
  }

  ghost function Effects(s: Pair, events: seq<Event>): seq<Event> {
    if events == [] then []
    else
      var n := |events| - 1;
      Effects(s, events[..n]) + (if TakesEffect(RunBeside(s, events[..n]).durable, events[n]) then [events[n]] else [])
  }

  // ----- what the last event of a kind left -----

  function Target(e: Event): string {
    match e
    case Claim(c, _) => c
    case Release(c, _, _) => c
    case Make(_, r) => r.commandId
  }

  ghost predicate Names(ids: seq<string>, e: Event, k: nat) {
    k < |ids| && ids[k] == Target(e) && forall i :: 0 <= i < k ==> ids[i] != Target(e)
  }

  predicate IsMove(e: Event) { e.Make? }

  predicate SetsError(e: Event) { !e.Claim? }

  predicate AnyEvent(e: Event) { true }

  ghost function LastNaming(ids: seq<string>, past: seq<Event>, k: nat, kind: Event -> bool): Option<Event> {
    if past == [] then None
    else
      var n := |past| - 1;
      if Names(ids, past[n], k) && kind(past[n]) then Some(past[n]) else LastNaming(ids, past[..n], k, kind)
  }

  /** The deployment version at the row's last move. */
  ghost function MovedAt(ids: seq<string>, past: seq<Event>, k: nat): int {
    if past == [] then 1
    else
      var n := |past| - 1;
      if Names(ids, past[n], k) && past[n].Make? then 1 + |Filter(IsMove, past)| else MovedAt(ids, past[..n], k)
  }

  ghost function Publishes(ids: seq<string>, k: nat): Event -> bool {
    (e: Event) => e.Make? && e.report.target == RowPublished && Names(ids, e, k)
  }

  ghost predicate SaysLast(row: Row, last: Option<Event>) {
    match last
    case Some(Make(_, r)) => Says(row, r)
    case _ => row.status == RowQueued && row.reference == None && row.failureCode == None
  }

  ghost function ClaimLeft(last: Option<Event>): Option<string> {
    match last
    case Some(Claim(_, worker)) => Some(worker)
    case _ => None
  }

  ghost function ErrorLeft(last: Option<Event>): Option<string> {
    match last
    case Some(Release(_, _, error)) => Some(error)
    case Some(Make(_, r)) => r.failureDetail
    case _ => None
  }

  /** The row is what the claims, releases and reports made of it. */
  ghost predicate RecallsRow(ids: seq<string>, past: seq<Event>, k: nat, r: Resource, row: Row) {
    && row.commandId == r.commandId && row.required == r.required
    && SaysLast(row, LastNaming(ids, past, k, IsMove))
    && row.claimedBy == ClaimLeft(LastNaming(ids, past, k, AnyEvent))
    && row.lastError == ErrorLeft(LastNaming(ids, past, k, SetsError))
    && row.attempts == |Filter(Publishes(ids, k), past)|
    && row.rowVersion == MovedAt(ids, past, k)
  }

  // ----- one more event -----

  lemma LastSnoc(ids: seq<string>, past: seq<Event>, e: Event, k: nat)
    ensures forall kind ::
      LastNaming(ids, past + [e], k, kind) == (if Names(ids, e, k) && kind(e) then Some(e) else LastNaming(ids, past, k, kind))
    ensures |Filter(Publishes(ids, k), past + [e])| == |Filter(Publishes(ids, k), past)| + (if Publishes(ids, k)(e) then 1 else 0)
    ensures |Filter(IsMove, past + [e])| == |Filter(IsMove, past)| + (if e.Make? then 1 else 0)
    ensures MovedAt(ids, past + [e], k) ==
      if Names(ids, e, k) && e.Make? then 1 + |Filter(IsMove, past)| + 1 else MovedAt(ids, past, k)
  {
    assert (past + [e])[..|past|] == past;
    FilterSnoc(Publishes(ids, k), past, e);
    FilterSnoc(IsMove, past, e);
  }

  lemma OthersStay(ids: seq<string>, past: seq<Event>, e: Event, k: nat, r: Resource, row: Row)
    requires RecallsRow(ids, past, k, r, row) && !Names(ids, e, k)
    ensures RecallsRow(ids, past + [e], k, r, row)
  {
    LastSnoc(ids, past, e, k);
  }

  lemma ClaimedRecalls(ids: seq<string>, past: seq<Event>, e: Event, k: nat, r: Resource, row: Row)
    requires RecallsRow(ids, past, k, r, row) && Names(ids, e, k) && e.Claim?
    ensures RecallsRow(ids, past + [e], k, r, row.(claimedBy := Some(e.worker)))
  {
    LastSnoc(ids, past, e, k);
  }

  lemma ReleasedRecalls(ids: seq<string>, past: seq<Event>, e: Event, k: nat, r: Resource, row: Row)
    requires RecallsRow(ids, past, k, r, row) && Names(ids, e, k) && e.Release?
    ensures RecallsRow(ids, past + [e], k, r, row.(claimedBy := None, lastError := Some(e.error)))
  {
    LastSnoc(ids, past, e, k);
  }

  lemma MovedRecalls(ids: seq<string>, past: seq<Event>, e: Event, k: nat, r: Resource, row: Row)
    requires RecallsRow(ids, past, k, r, row) && Names(ids, e, k) && e.Make?
    ensures RecallsRow(ids, past + [e], k, r, MovedRow(row, e.report, 2 + |Filter(IsMove, past)|))
  {
    LastSnoc(ids, past, e, k);
  }

  // ----- the whole deployment -----

  ghost function IdsOf(resources: seq<Resource>): seq<string> { seq(|resources|, i requires 0 <= i < |resources| => resources[i].commandId) }

  ghost predicate Recalls(resources: seq<Resource>, past: seq<Event>, p: Projection) {
    && |p.rows| == |resources|
    && p.stateVersion == 1 + |Filter(IsMove, past)|
    && (forall k :: 0 <= k < |resources| ==> RecallsRow(IdsOf(resources), past, k, resources[k], p.rows[k]))
  }

  lemma IndexIsNamed(resources: seq<Resource>, past: seq<Event>, p: Projection, e: Event)
    requires Recalls(resources, past, p)
    ensures forall k: nat :: Names(IdsOf(resources), e, k) <==> k < |p.rows| && k == RowIndex(p.rows, Target(e))
  {
    assert forall i :: 0 <= i < |resources| ==> p.rows[i].commandId == IdsOf(resources)[i];
  }

  /** The row a claim, release or report rewrites. */
  ghost function Rewritten(row: Row, e: Event, version: int): Row {
    match e
    case Claim(_, worker) => row.(claimedBy := Some(worker))
    case Release(_, _, error) => row.(claimedBy := None, lastError := Some(error))
    case Make(_, r) => MovedRow(row, r, version)
  }

  lemma EffectRewrites(s: Pair, e: Event)
    requires TakesEffect(s.durable, e)
    ensures
      var p, q := s.durable, Beside(s, e).durable;
      var k := RowIndex(p.rows, Target(e));
      && k < |p.rows| && q.rows == p.rows[k := Rewritten(p.rows[k], e, p.stateVersion + 1)]
      && q.stateVersion == p.stateVersion + (if e.Make? then 1 else 0)
  {
  }

  lemma EffectRecalls(resources: seq<Resource>, past: seq<Event>, s: Pair, e: Event)
    requires Recalls(resources, past, s.durable) && TakesEffect(s.durable, e)
    ensures Recalls(resources, past + [e], Beside(s, e).durable)
  {
    var ids, p, q := IdsOf(resources), s.durable, Beside(s, e).durable;
    EffectRewrites(s, e);
    IndexIsNamed(resources, past, p, e);
    FilterSnoc(IsMove, past, e);
    forall k | 0 <= k < |resources|
      ensures RecallsRow(ids, past + [e], k, resources[k], q.rows[k])
    {
      if !Names(ids, e, k) {
        OthersStay(ids, past, e, k, resources[k], p.rows[k]);
      } else if e.Claim? {
        ClaimedRecalls(ids, past, e, k, resources[k], p.rows[k]);
      } else if e.Release? {
        ReleasedRecalls(ids, past, e, k, resources[k], p.rows[k]);
      } else {
        MovedRecalls(ids, past, e, k, resources[k], p.rows[k]);
      }
    }
  }

  lemma NothingChanges(s: Pair, e: Event)
    requires !TakesEffect(s.durable, e)
    ensures Beside(s, e).durable == s.durable
  {
  }

  /** In every run from fresh rows each row is what the claims, releases and reports that took effect made of it. */
  lemma {:induction false} RunRecalls(s: Pair, resources: seq<Resource>, events: seq<Event>)
    requires FreshPair(s, resources)
    ensures Recalls(resources, Effects(s, events), RunBeside(s, events).durable)
  {
    if events != [] {
      var n := |events| - 1;
      RunRecalls(s, resources, events[..n]);
      var before, past := RunBeside(s, events[..n]), Effects(s, events[..n]);
      if TakesEffect(before.durable, events[n]) {
        EffectRecalls(resources, past, before, events[n]);
      } else {
        NothingChanges(before, events[n]);
        assert past + [] == past;
      }
    }
  }

  /** Only a row that waits is ever claimed. */
  lemma {:induction false} ClaimedIsQueued(s: Pair, resources: seq<Resource>, events: seq<Event>, k: nat)
    requires FreshPair(s, resources) && k < |RunBeside(s, events).durable.rows|
    ensures RunBeside(s, events).durable.rows[k].claimedBy.Some? ==> RunBeside(s, events).durable.rows[k].status == RowQueued
  {
    if events != [] {
      var n := |events| - 1;
      var before := RunBeside(s, events[..n]);
      if TakesEffect(before.durable, events[n]) {
        EffectRewrites(before, events[n]);
      } else {
        NothingChanges(before, events[n]);
      }
      ClaimedIsQueued(s, resources, events[..n], k);
    }
  }
}
