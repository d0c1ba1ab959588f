/** Rule packages: approval, shadow evaluation, activation and rollback (rules/governance.py). */
module Governance {
  import opened Sequences
  import opened Text

  datatype PackageStatus = Draft | ApprovedStatus | Shadow | Active | Retired | RejectedStatus

  datatype RuleApproval = RuleApproval(actor: string, authority: string, reason: string)

  datatype ShadowEvidence = ShadowEvidence(
    casesEvaluated: int, expectedMatches: int, unexpectedDifferences: int, blockingFindings: int, artifactSha256: string)

  /** A package at one moment. */
  datatype Package = Package(
    tenantId: string, version: string, effectiveFrom: int, effectiveUntil: Option<int>, submittedBy: string,
    status: PackageStatus, approvals: seq<RuleApproval>, evidence: Option<ShadowEvidence>)

  datatype State = State(packages: map<string, Package>, active: map<string, string>)

  const REQUIRED_AUTHORITIES := {"airline-operations", "regulatory-compliance"}

  datatype Problem =
    | TimezoneRequired | InvalidEffectivePeriod | UnknownSigningKey | InvalidSignature | VersionExists
    | PackageNotFound | InvalidStatus | FourEyesRequired | InvalidAuthority | DuplicateApproval | ReasonRequired
    | ApprovalsRequired | ShadowNotActive | InvalidShadowEvidence | InvalidArtifactDigest
    | ShadowEvidenceRequired | ShadowGateFailed | OutsideEffectivePeriod | RollbackTargetInvalid

  /** What is submitted, and whether its dates carry zones, its key is known and its signature verifies. */
  datatype Submission = Submission(
    tenantId: string, version: string, effectiveFrom: int, effectiveUntil: Option<int>, submittedBy: string,
    zoned: bool, keyKnown: bool, signatureValid: bool)

  datatype Action =
    | Submit(packageId: string, submission: Submission)
    | Approve(packageId: string, actor: string, authority: string, reason: string)
    | BeginShadow(packageId: string)
    | RecordShadow(packageId: string, evidence: ShadowEvidence)
    | Activate(packageId: string, at: int)
    | Rollback(tenantId: string, packageId: string, at: int)

  function Authorities(approvals: seq<RuleApproval>): set<string> {
    set a | a in approvals :: a.authority
  }

  predicate VersionTaken(packages: map<string, Package>, tenantId: string, version: string) {
    exists id :: id in packages && packages[id].tenantId == tenantId && packages[id].version == version
  }

  predicate AlreadyApproved(p: Package, actor: string, authority: string) {
    exists a :: a in p.approvals && (a.actor == actor || a.authority == authority)
  }

  predicate EffectiveAt(p: Package, at: int) {
    p.effectiveFrom <= at && (p.effectiveUntil.Some? ==> at < p.effectiveUntil.value)
  }

  function SubmissionProblem(s: State, n: Submission): Option<Problem> {
    if !n.zoned then Some(TimezoneRequired)
    else if n.effectiveUntil.Some? && n.effectiveUntil.value <= n.effectiveFrom then Some(InvalidEffectivePeriod)
    else if !n.keyKnown then Some(UnknownSigningKey)
    else if !n.signatureValid then Some(InvalidSignature)
    else if VersionTaken(s.packages, n.tenantId, n.version) then Some(VersionExists)
    else None
  }

  function ApprovalProblem(p: Package, actor: string, authority: string, reason: string): Option<Problem> {
    if p.status != Draft && p.status != ApprovedStatus then Some(InvalidStatus)
    else if actor == p.submittedBy then Some(FourEyesRequired)
    else if authority !in REQUIRED_AUTHORITIES then Some(InvalidAuthority)
    else if AlreadyApproved(p, actor, authority) then Some(DuplicateApproval)
    else if Strip(reason) == "" then Some(ReasonRequired)
    else None
  }

  function ShadowProblem(p: Package, e: ShadowEvidence): Option<Problem> {
    if p.status != Shadow then Some(ShadowNotActive)
    else if e.casesEvaluated <= 0 || e.expectedMatches + e.unexpectedDifferences != e.casesEvaluated then
      Some(InvalidShadowEvidence)
    else if |e.artifactSha256| != 64 then Some(InvalidArtifactDigest)
    else None
  }

  function ActivationProblem(p: Package, at: int): Option<Problem> {
    if p.status != Shadow || p.evidence.None? then Some(ShadowEvidenceRequired)
    else if p.evidence.value.unexpectedDifferences != 0 || p.evidence.value.blockingFindings != 0 then Some(ShadowGateFailed)
    else if !EffectiveAt(p, at) then Some(OutsideEffectivePeriod)
    else None
  }

  function Refusal(s: State, a: Action): Option<Problem> {
    if a.Submit? then SubmissionProblem(s, a.submission)
    else if a.packageId !in s.packages then Some(PackageNotFound)
    else
      var p := s.packages[a.packageId];
      match a
      case Approve(_, actor, authority, reason) => ApprovalProblem(p, actor, authority, reason)
      case BeginShadow(_) => if p.status != ApprovedStatus then Some(ApprovalsRequired) else None
      case RecordShadow(_, e) => ShadowProblem(p, e)
      case Activate(_, at) => ActivationProblem(p, at)
      case Rollback(tenantId, _, _) =>
        if p.tenantId != tenantId || p.status != Retired then Some(RollbackTargetInvalid) else None
  }

  function NewPackage(n: Submission): Package {
    Package(n.tenantId, n.version, n.effectiveFrom, n.effectiveUntil, n.submittedBy, Draft, [], None)
  }

  function Approved(p: Package, a: RuleApproval): Package {
    var approvals := p.approvals + [a];
    p.(approvals := approvals,
       status := if Authorities(approvals) == REQUIRED_AUTHORITIES then ApprovedStatus else p.status)
  }

  function SteppedDown(s: State, tenantId: string): State {
    if tenantId in s.active && s.active[tenantId] in s.packages then
      s.(packages := s.packages[s.active[tenantId] := s.packages[s.active[tenantId]].(status := Retired)])
    else s
  }

  function SteppedUp(s: State, packageId: string): State
    requires packageId in s.packages
  {
    var p := s.packages[packageId];
    State(s.packages[packageId := p.(status := Active)], s.active[p.tenantId := packageId])
  }

  /** The tenant's current package steps down, then the given one becomes active. */
  function Promoted(s: State, packageId: string): State
    requires packageId in s.packages
  {
    SteppedUp(SteppedDown(s, s.packages[packageId].tenantId), packageId)
  }

  function WithPackage(s: State, id: string, p: Package): State { s.(packages := s.packages[id := p]) }

  function After(s: State, a: Action): State {
    if Refusal(s, a).Some? then s
    else
      match a
      case Submit(id, n) => s.(packages := s.packages[id := NewPackage(n)])
      case Approve(id, actor, authority, reason) =>
        s.(packages := s.packages[id := Approved(s.packages[id], RuleApproval(actor, authority, Strip(reason)))])
      case BeginShadow(id) => s.(packages := s.packages[id := s.packages[id].(status := Shadow)])
      case RecordShadow(id, e) => s.(packages := s.packages[id := s.packages[id].(evidence := Some(e))])
      case Activate(id, _) => Promoted(s, id)
      case Rollback(_, id, _) => Promoted(s, id)
  }

  // ----- what every run keeps -----

  /** Approvals come with reasons, from different people and authorities, none of them the submitter's. */
  ghost predicate Independent(p: Package) {
    && (forall a :: a in p.approvals ==>
          a.actor != p.submittedBy && a.authority in REQUIRED_AUTHORITIES && a.reason != "")
    && (forall i, j :: 0 <= i < j < |p.approvals| ==>
          p.approvals[i].actor != p.approvals[j].actor && p.approvals[i].authority != p.approvals[j].authority)
  }

  ghost predicate CleanEvidence(e: ShadowEvidence) {
    e.unexpectedDifferences == 0 && e.blockingFindings == 0 && e.expectedMatches == e.casesEvaluated > 0
  }

  ghost predicate Earned(p: Package) {
    && Independent(p)
    && p.status != RejectedStatus
    && (p.status != Draft <==> Authorities(p.approvals) == REQUIRED_AUTHORITIES)
    && (p.evidence.Some? ==>
          |p.evidence.value.artifactSha256| == 64 && p.evidence.value.casesEvaluated > 0
          && p.evidence.value.expectedMatches + p.evidence.value.unexpectedDifferences == p.evidence.value.casesEvaluated)
    && (p.status == Active || p.status == Retired ==> p.evidence.Some? && CleanEvidence(p.evidence.value))
  }

  /** The index names exactly the active packages, so a tenant has at most one. */
  ghost predicate ActiveIndexed(s: State) {
    && (forall t :: t in s.active ==>
          s.active[t] in s.packages && s.packages[s.active[t]].tenantId == t && s.packages[s.active[t]].status == Active)
    && (forall id :: id in s.packages && s.packages[id].status == Active ==>
          s.packages[id].tenantId in s.active && s.active[s.packages[id].tenantId] == id)
  }

  ghost predicate VersionsUnique(s: State) {
    forall a, b :: a in s.packages && b in s.packages && a != b ==>
      s.packages[a].tenantId != s.packages[b].tenantId || s.packages[a].version != s.packages[b].version
  }

  ghost predicate Governed(s: State) {
    && (forall id :: id in s.packages ==> Earned(s.packages[id]))
    && ActiveIndexed(s) && VersionsUnique(s)
  }

  lemma ApprovalIsIndependent(p: Package, a: RuleApproval)
    requires Independent(p) && !AlreadyApproved(p, a.actor, a.authority)
    requires a.actor != p.submittedBy && a.authority in REQUIRED_AUTHORITIES && a.reason != ""
    ensures Independent(Approved(p, a))
    ensures Authorities(Approved(p, a).approvals) == Authorities(p.approvals) + {a.authority}
  {
    var after := Approved(p, a).approvals;
    assert forall x :: x in after <==> x in p.approvals || x == a;
    forall i | 0 <= i < |p.approvals|
      ensures p.approvals[i].actor != a.actor && p.approvals[i].authority != a.authority
    {
      assert p.approvals[i] in p.approvals;
    }
    assert Authorities(after) >= {a.authority} by {
      assert a in after;
    }
    forall x | x in Authorities(p.approvals)
      ensures x in Authorities(after)
    {
      var b :| b in p.approvals && b.authority == x;
      assert b in after;
    }
  }

  /** Both authorities have spoken, so neither can speak again. */
  lemma FullyApprovedRefuses(p: Package, actor: string, authority: string)
    ensures Earned(p) && p.status == ApprovedStatus && authority in REQUIRED_AUTHORITIES ==>
      AlreadyApproved(p, actor, authority)
  {
    if authority in Authorities(p.approvals) {
      var a :| a in p.approvals && a.authority == authority;
    }
  }

  lemma ApproveKeepsEarned(p: Package, actor: string, authority: string, reason: string)
    requires Earned(p) && ApprovalProblem(p, actor, authority, reason).None?
    ensures Earned(Approved(p, RuleApproval(actor, authority, Strip(reason))))
  {
    ApprovalIsIndependent(p, RuleApproval(actor, authority, Strip(reason)));
    FullyApprovedRefuses(p, actor, authority);
  }

  lemma RewriteKeepsIndex(s: State, id: string, p: Package)
    requires ActiveIndexed(s) && id in s.packages
    requires p.tenantId == s.packages[id].tenantId && p.status != Active && s.packages[id].status != Active
    ensures ActiveIndexed(s.(packages := s.packages[id := p]))
  {
  }

  lemma RewriteKeepsVersions(s: State, id: string, p: Package)
    requires VersionsUnique(s) && id in s.packages
    requires p.tenantId == s.packages[id].tenantId && p.version == s.packages[id].version
    ensures VersionsUnique(s.(packages := s.packages[id := p]))
  {
  }

  /** Rewriting one package that is not active, before or after, disturbs nothing else. */
  lemma RewriteKeepsGoverned(s: State, id: string, p: Package)
    requires Governed(s) && id in s.packages && Earned(p)
    requires p.tenantId == s.packages[id].tenantId && p.version == s.packages[id].version
    requires p.status != Active && s.packages[id].status != Active
    ensures Governed(s.(packages := s.packages[id := p]))
  {
    RewriteKeepsIndex(s, id, p);
    RewriteKeepsVersions(s, id, p);
    var after := s.packages[id := p];
    forall other | other in after
      ensures Earned(after[other])
    {
      assert other != id ==> after[other] == s.packages[other];
    }
  }

  lemma NewIsEarned(n: Submission)
    ensures Earned(NewPackage(n))
  {
    assert "airline-operations" !in Authorities([]);
  }

  lemma SubmitKeepsIndex(s: State, id: string, n: Submission)
    requires ActiveIndexed(s) && VersionsUnique(s) && id !in s.packages && !VersionTaken(s.packages, n.tenantId, n.version)
    ensures ActiveIndexed(s.(packages := s.packages[id := NewPackage(n)]))
    ensures VersionsUnique(s.(packages := s.packages[id := NewPackage(n)]))
  {
  }

  lemma SubmitKeepsGoverned(s: State, id: string, n: Submission)
    requires Governed(s) && id !in s.packages && SubmissionProblem(s, n).None?
    ensures Governed(s.(packages := s.packages[id := NewPackage(n)]))
  {
    NewIsEarned(n);
    SubmitKeepsIndex(s, id, n);
    var after := s.packages[id := NewPackage(n)];
    forall other | other in after
      ensures Earned(after[other])
    {
      assert other != id ==> after[other] == s.packages[other];
    }
  }

  function PromotedStatus(s: State, packageId: string, id: string): PackageStatus
    requires packageId in s.packages && id in s.packages
  {
    var tenantId := s.packages[packageId].tenantId;
    if id == packageId then Active
    else if tenantId in s.active && s.active[tenantId] == id then Retired
    else s.packages[id].status
  }

  lemma PromotedShape(s: State, packageId: string)
    requires packageId in s.packages
    ensures Promoted(s, packageId).packages.Keys == s.packages.Keys
    ensures forall id :: id in s.packages ==>
      Promoted(s, packageId).packages[id] == s.packages[id].(status := PromotedStatus(s, packageId, id))
  {
  }

  lemma PromotionKeepsIndex(s: State, packageId: string)
    requires ActiveIndexed(s) && packageId in s.packages
    ensures ActiveIndexed(Promoted(s, packageId))
  {
    PromotedShape(s, packageId);
    var after := Promoted(s, packageId);
    forall t | t in after.active
      ensures after.active[t] in after.packages && after.packages[after.active[t]].tenantId == t
              && after.packages[after.active[t]].status == Active
    {
      if t != s.packages[packageId].tenantId {
        assert after.active[t] == s.active[t];
      }
    }
    forall id | id in after.packages && after.packages[id].status == Active
      ensures after.packages[id].tenantId in after.active && after.active[after.packages[id].tenantId] == id
    {
      assert PromotedStatus(s, packageId, id) == Active;
    }
  }

  lemma PromotionKeepsGoverned(s: State, packageId: string)
    requires Governed(s) && packageId in s.packages
    requires Earned(s.packages[packageId].(status := Active))
    ensures Governed(Promoted(s, packageId))
  {
    PromotedShape(s, packageId);
    PromotionKeepsIndex(s, packageId);
    forall id | id in s.packages
      ensures Earned(s.packages[id].(status := PromotedStatus(s, packageId, id)))
    {
      assert Earned(s.packages[id]);
    }
  }

  lemma ApproveKeepsGoverned(s: State, id: string, actor: string, authority: string, reason: string)
    requires Governed(s) && id in s.packages && ApprovalProblem(s.packages[id], actor, authority, reason).None?
    ensures Governed(WithPackage(s, id, Approved(s.packages[id], RuleApproval(actor, authority, Strip(reason)))))
  {
    ApproveKeepsEarned(s.packages[id], actor, authority, reason);
    RewriteKeepsGoverned(s, id, Approved(s.packages[id], RuleApproval(actor, authority, Strip(reason))));
  }

  lemma StepKeepsGoverned(s: State, a: Action)
    requires Governed(s) && (a.Submit? ==> a.packageId !in s.packages)
    ensures Governed(After(s, a))
  {
    if Refusal(s, a).None? {
      match a
      case Submit(id, n) => SubmitKeepsGoverned(s, id, n);
      case Approve(id, actor, authority, reason) => ApproveKeepsGoverned(s, id, actor, authority, reason);
      case BeginShadow(id) => RewriteKeepsGoverned(s, id, s.packages[id].(status := Shadow));
      case RecordShadow(id, e) => RewriteKeepsGoverned(s, id, s.packages[id].(evidence := Some(e)));
      case Activate(id, _) => PromotionKeepsGoverned(s, id);
      case Rollback(_, id, _) => PromotionKeepsGoverned(s, id);
    }
  }

  function Run(s: State, actions: seq<Action>): State {
    if actions == [] then s else After(Run(s, actions[..|actions| - 1]), actions[|actions| - 1])
  }

  ghost predicate IdsAreFresh(s: State, actions: seq<Action>) {
    && (forall i :: 0 <= i < |actions| && actions[i].Submit? ==> actions[i].packageId !in s.packages)
    && (forall i, j :: 0 <= i < j < |actions| && actions[i].Submit? && actions[j].Submit? ==>
          actions[i].packageId != actions[j].packageId)
  }

  lemma {:induction false} RunAddsSubmissions(s: State, actions: seq<Action>, id: string)
    requires id !in s.packages
    requires forall i :: 0 <= i < |actions| && actions[i].Submit? ==> actions[i].packageId != id
    ensures id !in Run(s, actions).packages
  {
    if actions != [] {
      RunAddsSubmissions(s, actions[..|actions| - 1], id);
      var before, a := Run(s, actions[..|actions| - 1]), actions[|actions| - 1];
      if Refusal(before, a).None? && !a.Submit? {
        assert a.packageId in before.packages;
      }
    }
  }

  /** Every run of any actions, accepted or refused, keeps all packages earned and the index right. */
  lemma {:induction false} RunKeepsGoverned(s: State, actions: seq<Action>)
    requires Governed(s) && IdsAreFresh(s, actions)
    ensures Governed(Run(s, actions))
  {
    if actions != [] {
      var a := actions[|actions| - 1];
      RunKeepsGoverned(s, actions[..|actions| - 1]);
      if a.Submit? {
        RunAddsSubmissions(s, actions[..|actions| - 1], a.packageId);
      }
      StepKeepsGoverned(Run(s, actions[..|actions| - 1]), a);
    }
  }

  /** One active package per tenant at most, and it was approved by two people of the two authorities,
      neither of them the submitter, and passed its shadow run without a difference or finding. */
  lemma ActiveIsEarned(actions: seq<Action>, id: string, other: string)
    requires IdsAreFresh(State(map[], map[]), actions)
    requires
      var s := Run(State(map[], map[]), actions);
      id in s.packages && other in s.packages && s.packages[id].status == Active
    ensures
      var s := Run(State(map[], map[]), actions);
      && (s.packages[other].status == Active && s.packages[other].tenantId == s.packages[id].tenantId ==> other == id)
      && TwoIndependentApprovals(s.packages[id])
      && s.packages[id].evidence.Some? && CleanEvidence(s.packages[id].evidence.value)
  {
    RunKeepsGoverned(State(map[], map[]), actions);
    EarnedMeansTwo(Run(State(map[], map[]), actions).packages[id]);
  }

  ghost predicate TwoIndependentApprovals(p: Package) {
    exists a, b :: a in p.approvals && b in p.approvals
      && a.authority == "airline-operations" && b.authority == "regulatory-compliance"
      && a.actor != b.actor && a.actor != p.submittedBy && b.actor != p.submittedBy
  }

  lemma EarnedMeansTwo(p: Package)
    requires Earned(p) && p.status != Draft
    ensures TwoIndependentApprovals(p)
  {
    assert "airline-operations" in Authorities(p.approvals) && "regulatory-compliance" in Authorities(p.approvals);
    var i :| 0 <= i < |p.approvals| && p.approvals[i].authority == "airline-operations";
    var j :| 0 <= j < |p.approvals| && p.approvals[j].authority == "regulatory-compliance";
    var a, b := p.approvals[i], p.approvals[j];
    assert a in p.approvals && b in p.approvals;
  }

  // ----- the mutable objects -----

  class RulePackage {
    const packageId: string
    const tenantId: string
    const version: string
    const effectiveFrom: int
    const effectiveUntil: Option<int>
    const submittedBy: string
    var status: PackageStatus
    var approvals: seq<RuleApproval>
    var evidence: Option<ShadowEvidence>

    constructor (packageId: string, n: Submission)
      ensures this.packageId == packageId && View() == NewPackage(n)
    {
      this.packageId := packageId;
      tenantId, version, submittedBy := n.tenantId, n.version, n.submittedBy;
      effectiveFrom, effectiveUntil := n.effectiveFrom, n.effectiveUntil;
      status, approvals, evidence := Draft, [], None;
    }

    function View(): Package
      reads this
    {
      Package(tenantId, version, effectiveFrom, effectiveUntil, submittedBy, status, approvals, evidence)
    }

    method AddApproval(a: RuleApproval)
      modifies this
      ensures View() == Approved(old(View()), a)
    {
      approvals := approvals + [a];
      if Authorities(approvals) == REQUIRED_AUTHORITIES {
        status := ApprovedStatus;
      }
    }
  }

  class RulePackageRegistry {
    var packages: map<string, RulePackage>
    var activeByTenant: map<string, string>

    function View(): State
      reads this, packages.Values
    {
      State(map id | id in packages :: packages[id].View(), activeByTenant)
    }

    /** Package objects are not shared, and the index names packages. */
    ghost predicate Unshared()
      reads this, packages.Values
    {
      && (forall a, b :: a in packages && b in packages && a != b ==> packages[a] != packages[b])
      && (forall t :: t in activeByTenant ==> activeByTenant[t] in packages)
    }

    ghost predicate Valid()
      reads this, packages.Values
    {
      Unshared() && Governed(View())
    }

    constructor ()
      ensures Valid() && View() == State(map[], map[])
    {
      packages, activeByTenant := map[], map[];
    }

    method SubmitPackage(packageId: string, n: Submission) returns (problem: Option<Problem>)
      requires Valid() && packageId !in packages
      modifies this
      ensures Valid()
      ensures problem == old(Refusal(View(), Submit(packageId, n)))
      ensures View() == old(After(View(), Submit(packageId, n)))
    {
      StepKeepsGoverned(View(), Submit(packageId, n));
      problem := SubmissionProblem(View(), n);
      if problem.None? {
        File(packageId, n);
      }
    }

    method ApprovePackage(packageId: string, actor: string, authority: string, reason: string) returns (problem: Option<Problem>)
      requires Valid()
      modifies packages.Values
      ensures Valid()
      ensures problem == old(Refusal(View(), Approve(packageId, actor, authority, reason)))
      ensures View() == old(After(View(), Approve(packageId, actor, authority, reason)))
    {
      StepKeepsGoverned(View(), Approve(packageId, actor, authority, reason));
      if packageId !in packages { return Some(PackageNotFound); }
      problem := ApprovalProblem(packages[packageId].View(), actor, authority, reason);
      if problem.None? {
        EnterApproval(packageId, RuleApproval(actor, authority, Strip(reason)));
      }
    }

    method BeginShadowRun(packageId: string) returns (problem: Option<Problem>)
      requires Valid()
      modifies packages.Values
      ensures Valid()
      ensures problem == old(Refusal(View(), BeginShadow(packageId)))
      ensures View() == old(After(View(), BeginShadow(packageId)))
    {
      StepKeepsGoverned(View(), BeginShadow(packageId));
      if packageId !in packages { return Some(PackageNotFound); }
      if packages[packageId].status != ApprovedStatus { return Some(ApprovalsRequired); }
      SetStatus(packageId, Shadow);
      problem := None;
    }

    method RecordShadowRun(packageId: string, e: ShadowEvidence) returns (problem: Option<Problem>)
      requires Valid()
      modifies packages.Values
      ensures Valid()
      ensures problem == old(Refusal(View(), RecordShadow(packageId, e)))
      ensures View() == old(After(View(), RecordShadow(packageId, e)))
    {
      StepKeepsGoverned(View(), RecordShadow(packageId, e));
      if packageId !in packages { return Some(PackageNotFound); }
      problem := ShadowProblem(packages[packageId].View(), e);
      if problem.None? {
        EnterEvidence(packageId, e);
      }
    }

    // The writes themselves; they keep the objects unshared.

    method File(packageId: string, n: Submission)
      requires Unshared() && packageId !in packages
      modifies this
      ensures Unshared() && View() == WithPackage(old(View()), packageId, NewPackage(n))
    {
      var package := new RulePackage(packageId, n);
      assert forall id :: id in packages ==> packages[id] != package && packages[id].View() == old(packages[id].View());
      packages := packages[packageId := package];
      assert View().packages == old(View()).packages[packageId := NewPackage(n)];
    }

    method EnterApproval(packageId: string, a: RuleApproval)
      requires Unshared() && packageId in packages
      modifies packages.Values
      ensures Unshared()
      ensures View() == WithPackage(old(View()), packageId, Approved(old(packages[packageId].View()), a))
    {
      packages[packageId].AddApproval(a);
      assert View().packages == old(View()).packages[packageId := packages[packageId].View()];
    }

    method SetStatus(packageId: string, status: PackageStatus)
      requires Unshared() && packageId in packages
      modifies packages.Values
      ensures Unshared()
      ensures View() == WithPackage(old(View()), packageId, old(packages[packageId].View()).(status := status))
    {
      packages[packageId].status := status;
      assert View().packages == old(View()).packages[packageId := packages[packageId].View()];
    }

    method EnterEvidence(packageId: string, e: ShadowEvidence)
      requires Unshared() && packageId in packages
      modifies packages.Values
      ensures Unshared()
      ensures View() == WithPackage(old(View()), packageId, old(packages[packageId].View()).(evidence := Some(e)))
    {
      packages[packageId].evidence := Some(e);
      assert View().packages == old(View()).packages[packageId := packages[packageId].View()];
    }

    method RetireCurrent(tenantId: string)
      requires Unshared()
      modifies packages.Values
      ensures Unshared() && View() == SteppedDown(old(View()), tenantId)
    {
      if tenantId in activeByTenant {
        SetStatus(activeByTenant[tenantId], Retired);
      }
    }

    method MakeActive(packageId: string)
      requires Unshared() && packageId in packages
      modifies this`activeByTenant, packages.Values
      ensures packages == old(packages) && Unshared() && View() == SteppedUp(old(View()), packageId)
    {
      SetStatus(packageId, Active);
      activeByTenant := activeByTenant[packages[packageId].tenantId := packageId];
    }

    /** Retires the tenant's current package and puts this one in its place. */
    method Promote(packageId: string)
      requires Unshared() && packageId in packages
      modifies this`activeByTenant, packages.Values
      ensures packages == old(packages) && Unshared() && View() == Promoted(old(View()), packageId)
    {
      RetireCurrent(packages[packageId].tenantId);
      MakeActive(packageId);
    }

    method ActivatePackage(packageId: string, at: int) returns (problem: Option<Problem>)
      requires Valid()
      modifies this`activeByTenant, packages.Values
      ensures Valid()
      ensures problem == old(Refusal(View(), Activate(packageId, at)))
      ensures View() == old(After(View(), Activate(packageId, at)))
    {
      StepKeepsGoverned(View(), Activate(packageId, at));
      if packageId !in packages { return Some(PackageNotFound); }
      problem := ActivationProblem(packages[packageId].View(), at);
      if problem.Some? { return; }
      Promote(packageId);
    }

    /** Brings a retired package back. The moment of the call is ghost: the code never looks at a clock here. */
    method RollbackTo(tenantId: string, packageId: string, ghost at: int) returns (problem: Option<Problem>)
      requires Valid()
      modifies this`activeByTenant, packages.Values
      ensures Valid()
      ensures problem == old(Refusal(View(), Rollback(tenantId, packageId, at)))
      ensures View() == old(After(View(), Rollback(tenantId, packageId, at)))
    {
      StepKeepsGoverned(View(), Rollback(tenantId, packageId, at));
      if packageId !in packages { return Some(PackageNotFound); }
      var target := packages[packageId];
      if target.tenantId != tenantId || target.status != Retired { return Some(RollbackTargetInvalid); }
      Promote(packageId);
      problem := None;
    }

    /** The tenant's active package, if it has one; it is the only active one. */
    method ActivePackage(tenantId: string) returns (packageId: Option<string>)
      requires Valid()
      ensures packageId.None? <==> forall id :: id in View().packages && View().packages[id].status == Active ==>
        View().packages[id].tenantId != tenantId
      ensures packageId.Some? ==>
        packageId.value in View().packages && View().packages[packageId.value].status == Active
        && View().packages[packageId.value].tenantId == tenantId
    {
      packageId := if tenantId in activeByTenant then Some(activeByTenant[tenantId]) else None;
      assert ActiveIndexed(View());
    }
  }
}
