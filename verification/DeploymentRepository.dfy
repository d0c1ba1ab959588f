/** The durable deployment machine over command rows and counts (state/deployment_repository.py). */
module DeploymentRepository {
  import opened Sequences
  import opened CommandState

  datatype RowStatus = RowQueued | RowPublished | RowAcknowledged | RowRejected | RowTimedOut

  datatype Row = Row(
    commandId: string, required: bool, status: RowStatus, reference: Option<string>, failureCode: Option<string>,
    lastError: Option<string>, attempts: nat, claimedBy: Option<string>, rowVersion: int)

  /** A deployment's projection row and its command rows; the status text is the in-memory vocabulary's. */
  datatype Projection = Projection(rows: seq<Row>, stateVersion: int, status: DeploymentStatus)

  datatype Problem =
    | BadArguments | NoDeployment | VersionConflict | NoCommand | CannotTransition | ClaimNotOwned | ClaimMissing

  /** One reported command transition. */
  datatype Report = Report(
    commandId: string, worker: Option<string>, target: RowStatus, reference: Option<string>,
    failureCode: Option<string>, failureDetail: Option<string>)

  datatype Answer = Moved | Replayed | Refused(problem: Problem)

  function RowIndex(rows: seq<Row>, commandId: string): (k: nat)
    ensures k <= |rows|
    ensures k < |rows| ==> rows[k].commandId == commandId
    ensures forall i :: 0 <= i < k ==> rows[i].commandId != commandId
  {
    FirstWhere((r: Row) => r.commandId == commandId, rows)
  }

  predicate IsRequired(r: Row) { r.required }

  predicate IsDone(r: Row) { r.required && r.status == RowAcknowledged }

  predicate HasFailed(r: Row) { r.required && r.status in {RowRejected, RowTimedOut} }

  /** The status the three counts give. */
  function CountStatus(rows: seq<Row>): DeploymentStatus {
    var total := |Filter(IsRequired, rows)|;
    var acknowledged := |Filter(IsDone, rows)|;
    var failed := |Filter(HasFailed, rows)|;
    if total > 0 && acknowledged == total then Complete
    else if failed > 0 && acknowledged > 0 then Partial
    else if failed > 0 then Failed
    else Publishing
  }

  /** The status a transition must start from. */
  function Source(target: RowStatus): RowStatus {
    if target == RowPublished then RowQueued else RowPublished
  }

  function AnswerTo(p: Projection, expectedVersion: int, r: Report): Answer {
    if p.stateVersion != expectedVersion then Refused(VersionConflict)
    else
      var k := RowIndex(p.rows, r.commandId);
      if k == |p.rows| then Refused(NoCommand)
      else
        var row := p.rows[k];
        if row.status == r.target && row.reference == r.reference && row.failureCode == r.failureCode then Replayed
        else if row.status != Source(r.target) then Refused(CannotTransition)
        else if r.target == RowPublished && row.claimedBy != r.worker then Refused(ClaimNotOwned)
        else Moved
  }

  function MovedRow(row: Row, r: Report, version: int): Row {
    row.(status := r.target, reference := r.reference, failureCode := r.failureCode, lastError := r.failureDetail,
         claimedBy := None, attempts := row.attempts + (if r.target == RowPublished then 1 else 0), rowVersion := version)
  }

  function MovedRows(p: Projection, r: Report): seq<Row>
    requires RowIndex(p.rows, r.commandId) < |p.rows|
  {
    var k := RowIndex(p.rows, r.commandId);
    p.rows[k := MovedRow(p.rows[k], r, p.stateVersion + 1)]
  }

  function AfterReport(p: Projection, expectedVersion: int, r: Report): Projection {
    if AnswerTo(p, expectedVersion, r).Moved? then
      Projection(MovedRows(p, r), p.stateVersion + 1, CountStatus(MovedRows(p, r)))
    else p
  }

  // ----- claims -----

  predicate CanClaim(p: Projection, commandId: string) {
    var k := RowIndex(p.rows, commandId);
    k < |p.rows| && p.rows[k].status == RowQueued && p.rows[k].claimedBy.None?
  }

  predicate CanRelease(p: Projection, commandId: string, worker: string) {
    var k := RowIndex(p.rows, commandId);
    k < |p.rows| && p.rows[k].status == RowQueued && p.rows[k].claimedBy == Some(worker)
  }

  /** A claim by the worker; the last error stays on file. */
  function ClaimRow(p: Projection, commandId: string, worker: string): Projection
    requires CanClaim(p, commandId)
  {
    WithClaim(p, commandId, Some(worker), p.rows[RowIndex(p.rows, commandId)].lastError)
  }

  function WithClaim(p: Projection, commandId: string, claimedBy: Option<string>, lastError: Option<string>): Projection
    requires RowIndex(p.rows, commandId) < |p.rows|
  {
    var k := RowIndex(p.rows, commandId);
    p.(rows := p.rows[k := p.rows[k].(claimedBy := claimedBy, lastError := lastError)])
  }

  type Deployments = map<(string, string), Projection>

  /** A command row named by tenant, deployment and command. */
  datatype RowName = RowName(tenantId: string, deploymentId: string, commandId: string)

  predicate Claimable(ds: Deployments, name: RowName) {
    (name.tenantId, name.deploymentId) in ds && CanClaim(ds[(name.tenantId, name.deploymentId)], name.commandId)
  }

  function WithRowClaimed(ds: Deployments, name: RowName, worker: string): Deployments
    requires Claimable(ds, name)
  {
    var key := (name.tenantId, name.deploymentId);
    ds[key := ClaimRow(ds[key], name.commandId, worker)]
  }

  /** Claims at most `limit` of the rows that are due, in the order given, skipping those that are not free. */
  function ClaimDue(ds: Deployments, due: seq<RowName>, limit: nat, worker: string): (Deployments, seq<RowName>) {
    if due == [] || limit == 0 then (ds, [])
    else if Claimable(ds, due[0]) then
      var rest := ClaimDue(WithRowClaimed(ds, due[0], worker), due[1..], limit - 1, worker);
      (rest.0, [due[0]] + rest.1)
    else ClaimDue(ds, due[1..], limit, worker)
  }

  /** A row is as before, or was queued and free and now belongs to the worker. */
  ghost predicate OnlyClaimed(before: Row, after: Row, worker: string) {
    after == before
    || (before.status == RowQueued && before.claimedBy.None? && after == before.(claimedBy := Some(worker)))
  }

  ghost predicate OnlyClaims(before: Deployments, after: Deployments, worker: string) {
    && after.Keys == before.Keys
    && (forall key :: key in before ==> SameButClaims(before[key], after[key], worker))
  }

  ghost predicate SameButClaims(before: Projection, after: Projection, worker: string) {
    && after.stateVersion == before.stateVersion && after.status == before.status && |after.rows| == |before.rows|
    && (forall i :: 0 <= i < |before.rows| ==> OnlyClaimed(before.rows[i], after.rows[i], worker))
  }

  /** No claim is taken from another worker, nothing but claims changes, and the limit is kept. */
  lemma {:induction false} ClaimsAreExclusive(ds: Deployments, due: seq<RowName>, limit: nat, worker: string)
    ensures OnlyClaims(ds, ClaimDue(ds, due, limit, worker).0, worker)
    ensures |ClaimDue(ds, due, limit, worker).1| <= limit
    ensures forall n :: n in ClaimDue(ds, due, limit, worker).1 ==> n in due && Claimable(ds, n)
    decreases |due|
  {
    if due != [] && limit > 0 {
      if Claimable(ds, due[0]) {
        var next := WithRowClaimed(ds, due[0], worker);
        ClaimsAreExclusive(next, due[1..], limit - 1, worker);
        OneClaimThenMore(ds, due[0], ClaimDue(next, due[1..], limit - 1, worker).0, worker);
        forall n | n in ClaimDue(next, due[1..], limit - 1, worker).1
          ensures n in due && Claimable(ds, n)
        {
          ClaimableBefore(ds, due[0], n, worker);
        }
      } else {
        ClaimsAreExclusive(ds, due[1..], limit, worker);
      }
    }
  }

  /** Claiming the rest of the due rows from here completes the whole claim. */
  ghost predicate ClaimsSoFar(start: Deployments, ds: Deployments, due: seq<RowName>, i: nat, limit: nat, worker: string, claimed: seq<RowName>)
    requires i <= |due| && |claimed| <= limit
  {
    var rest := ClaimDue(ds, due[i..], limit - |claimed|, worker);
    ClaimDue(start, due, limit, worker) == (rest.0, claimed + rest.1)
  }

  lemma NextClaim(start: Deployments, ds: Deployments, due: seq<RowName>, i: nat, limit: nat, worker: string, claimed: seq<RowName>)
    requires i < |due| && |claimed| < limit && ClaimsSoFar(start, ds, due, i, limit, worker, claimed)
    ensures
      if Claimable(ds, due[i]) then
        ClaimsSoFar(start, WithRowClaimed(ds, due[i], worker), due, i + 1, limit, worker, claimed + [due[i]])
      else ClaimsSoFar(start, ds, due, i + 1, limit, worker, claimed)
  {
    assert due[i..][1..] == due[i + 1..];
    if Claimable(ds, due[i]) {
      var rest := ClaimDue(WithRowClaimed(ds, due[i], worker), due[i + 1..], limit - |claimed| - 1, worker).1;
      assert claimed + ([due[i]] + rest) == (claimed + [due[i]]) + rest;
    }
  }

  lemma OneClaimThenMore(ds: Deployments, name: RowName, after: Deployments, worker: string)
    requires Claimable(ds, name) && OnlyClaims(WithRowClaimed(ds, name, worker), after, worker)
    ensures OnlyClaims(ds, after, worker)
  {
    var next := WithRowClaimed(ds, name, worker);
    forall key | key in ds
      ensures SameButClaims(ds[key], after[key], worker)
    {
      assert SameButClaims(next[key], after[key], worker);
      forall i | 0 <= i < |ds[key].rows|
        ensures OnlyClaimed(ds[key].rows[i], after[key].rows[i], worker)
      {
        assert OnlyClaimed(next[key].rows[i], after[key].rows[i], worker);
      }
    }
  }

  lemma ClaimableBefore(ds: Deployments, name: RowName, other: RowName, worker: string)
    requires Claimable(ds, name)
    ensures Claimable(WithRowClaimed(ds, name, worker), other) ==> Claimable(ds, other)
  {
    var key := (name.tenantId, name.deploymentId);
    ClaimKeepsIndex(ds[key], name.commandId, worker, other.commandId);
  }

  lemma ClaimKeepsIndex(p: Projection, commandId: string, worker: string, other: string)
    requires CanClaim(p, commandId)
    ensures RowIndex(ClaimRow(p, commandId, worker).rows, other) == RowIndex(p.rows, other)
  {
    var after := ClaimRow(p, commandId, worker);
    assert forall i :: 0 <= i < |p.rows| ==> after.rows[i].commandId == p.rows[i].commandId;
  }

  /** The recomputed flag of the read model (state/read_model_repository.py). */
  predicate ReadsComplete(rows: seq<Row>) {
    (exists r :: r in rows && r.required) && (forall r :: r in rows && r.required ==> r.status == RowAcknowledged)
  }

  // ----- the repository -----

  class DurableDeploymentRepository {
    var deployments: Deployments

    constructor (deployments: Deployments)
      ensures this.deployments == deployments
    {
      this.deployments := deployments;
    }

    /** Claims due rows for a worker; the database says which rows are due and in what order. */
    method ClaimCommands(worker: string, limit: int, due: seq<RowName>) returns (claimed: seq<RowName>, problem: Option<Problem>)
      modifies this
      ensures problem.Some? <==> worker == "" || limit < 1 || limit > 500
      ensures problem.Some? ==> problem == Some(BadArguments) && claimed == [] && deployments == old(deployments)
      ensures problem.None? ==>
        deployments == ClaimDue(old(deployments), due, limit, worker).0
        && claimed == ClaimDue(old(deployments), due, limit, worker).1
        && OnlyClaims(old(deployments), deployments, worker) && |claimed| <= limit
    {
      claimed := [];
      if worker == "" || limit < 1 || limit > 500 {
        return claimed, Some(BadArguments);
      }
      problem := None;
      ClaimsAreExclusive(deployments, due, limit, worker);
      var i := 0;
      assert due[0..] == due && claimed + ClaimDue(deployments, due, limit, worker).1 == ClaimDue(deployments, due, limit, worker).1;
      while i < |due| && |claimed| < limit
        invariant i <= |due| && |claimed| <= limit
        invariant ClaimsSoFar(old(deployments), deployments, due, i, limit, worker, claimed)
      {
        NextClaim(old(deployments), deployments, due, i, limit, worker, claimed);
        if Claimable(deployments, due[i]) {
          deployments := WithRowClaimed(deployments, due[i], worker);
          claimed := claimed + [due[i]];
        }
        i := i + 1;
      }
      assert claimed + [] == claimed;
    }

    method MarkPublished(tenantId: string, deploymentId: string, commandId: string, worker: string,
                         expectedVersion: int, reference: string) returns (answer: Answer)
      modifies this
      ensures reference == "" ==> answer == Refused(BadArguments)
      ensures reference != "" ==>
        answer == old(Answered(tenantId, deploymentId, expectedVersion,
                               Report(commandId, Some(worker), RowPublished, Some(reference), None, None)))
      ensures deployments == if reference == "" then old(deployments) else
        old(Stepped(tenantId, deploymentId, expectedVersion,
                    Report(commandId, Some(worker), RowPublished, Some(reference), None, None)))
    {
      if reference == "" {
        return Refused(BadArguments);
      }
      answer := Transition(tenantId, deploymentId, expectedVersion,
                           Report(commandId, Some(worker), RowPublished, Some(reference), None, None));
    }

    method Acknowledge(tenantId: string, deploymentId: string, commandId: string, expectedVersion: int, accepted: bool,
                       reference: Option<string>, failureCode: Option<string>, failureDetail: Option<string>)
      returns (answer: Answer)
      modifies this
      ensures
        var missing := if accepted then reference in {None, Some("")} else failureCode in {None, Some("")};
        var report := Report(commandId, None, if accepted then RowAcknowledged else RowRejected, reference, failureCode, failureDetail);
        && answer == (if missing then Refused(BadArguments) else old(Answered(tenantId, deploymentId, expectedVersion, report)))
        && deployments == if missing then old(deployments) else old(Stepped(tenantId, deploymentId, expectedVersion, report))
    {
      if accepted && reference in {None, Some("")} {
        return Refused(BadArguments);
      }
      if !accepted && failureCode in {None, Some("")} {
        return Refused(BadArguments);
      }
      var target := if accepted then RowAcknowledged else RowRejected;
      answer := Transition(tenantId, deploymentId, expectedVersion,
                           Report(commandId, None, target, reference, failureCode, failureDetail));
    }

    method Timeout(tenantId: string, deploymentId: string, commandId: string, expectedVersion: int) returns (answer: Answer)
      modifies this
      ensures answer == old(Answered(tenantId, deploymentId, expectedVersion, TimeoutReport(commandId)))
      ensures deployments == old(Stepped(tenantId, deploymentId, expectedVersion, TimeoutReport(commandId)))
    {
      answer := Transition(tenantId, deploymentId, expectedVersion, TimeoutReport(commandId));
    }

    function Answered(tenantId: string, deploymentId: string, expectedVersion: int, r: Report): Answer
      reads this
    {
      if (tenantId, deploymentId) in deployments then AnswerTo(deployments[(tenantId, deploymentId)], expectedVersion, r)
      else Refused(NoDeployment)
    }

    function Stepped(tenantId: string, deploymentId: string, expectedVersion: int, r: Report): map<(string, string), Projection>
      reads this
    {
      var key := (tenantId, deploymentId);
      if key in deployments then deployments[key := AfterReport(deployments[key], expectedVersion, r)] else deployments
    }

    method Transition(tenantId: string, deploymentId: string, expectedVersion: int, r: Report) returns (answer: Answer)
      modifies this
      ensures answer == old(Answered(tenantId, deploymentId, expectedVersion, r))
      ensures deployments == old(Stepped(tenantId, deploymentId, expectedVersion, r))
      ensures answer == Refused(NoDeployment) <==> (tenantId, deploymentId) !in old(deployments)
      ensures (tenantId, deploymentId) in old(deployments) ==>
        && answer == AnswerTo(old(deployments)[(tenantId, deploymentId)], expectedVersion, r)
        && deployments[(tenantId, deploymentId)] == AfterReport(old(deployments)[(tenantId, deploymentId)], expectedVersion, r)
      ensures deployments.Keys == old(deployments).Keys
      ensures forall key :: key in deployments && key != (tenantId, deploymentId) ==> deployments[key] == old(deployments)[key]
    {
      var key := (tenantId, deploymentId);
      if key !in deployments {
        return Refused(NoDeployment);
      }
      var deployment := deployments[key];
      assert deployments == deployments[key := deployment];
      if deployment.stateVersion != expectedVersion {
        return Refused(VersionConflict);
      }
      var k := RowIndex(deployment.rows, r.commandId);
      if k == |deployment.rows| {
        return Refused(NoCommand);
      }
      var row := deployment.rows[k];
      if row.status == r.target && row.reference == r.reference && row.failureCode == r.failureCode {
        return Replayed;
      }
      if row.status != Source(r.target) {
        return Refused(CannotTransition);
      }
      if r.target == RowPublished && row.claimedBy != r.worker {
        return Refused(ClaimNotOwned);
      }
      var newVersion := deployment.stateVersion + 1;
      deployment := deployment.(rows := deployment.rows[k := MovedRow(row, r, newVersion)]);
      deployment := deployment.(status := CountStatus(deployment.rows), stateVersion := newVersion);
      deployments := deployments[key := deployment];
      answer := Moved;
    }

    method ReleaseClaim(tenantId: string, deploymentId: string, commandId: string, worker: string, error: string)
      returns (problem: Option<Problem>)
      modifies this
      ensures
        var key := (tenantId, deploymentId);
        if key in old(deployments) && CanRelease(old(deployments)[key], commandId, worker) then
          problem == None
          && deployments == old(deployments)[key := WithClaim(old(deployments)[key], commandId, None, Some(error))]
        else problem == Some(ClaimMissing) && deployments == old(deployments)
    {
      var key := (tenantId, deploymentId);
      if key !in deployments || !CanRelease(deployments[key], commandId, worker) {
        return Some(ClaimMissing);
      }
      deployments := deployments[key := WithClaim(deployments[key], commandId, None, Some(error))];
      problem := None;
    }
  }

  function TimeoutReport(commandId: string): Report {
    Report(commandId, None, RowTimedOut, None, Some("ACK_TIMEOUT"), Some("Source acknowledgement deadline exceeded"))
  }
}
