/** The rules of the registry as a table, and what stands behind every package it holds (rules/governance.py). */
module GovernanceRules {
  import opened Sequences
  import opened Text
  import opened Governance

  /** What is checked, first to last. */
  ghost function ChecksOf(a: Action): seq<Problem> {
    match a
    case Submit(_, _) => [TimezoneRequired, InvalidEffectivePeriod, UnknownSigningKey, InvalidSignature, VersionExists]
    case Approve(_, _, _, _) =>
      [PackageNotFound, InvalidStatus, FourEyesRequired, InvalidAuthority, DuplicateApproval, ReasonRequired]
    case BeginShadow(_) => [PackageNotFound, ApprovalsRequired]
    case RecordShadow(_, _) => [PackageNotFound, ShadowNotActive, InvalidShadowEvidence, InvalidArtifactDigest]
    case Activate(_, _) => [PackageNotFound, ShadowEvidenceRequired, ShadowGateFailed, OutsideEffectivePeriod]
    case Rollback(_, _, _) => [PackageNotFound, RollbackTargetInvalid]
  }

  /** The submission comes with zoned dates, a period that is not empty, a known key and its signature. */
  ghost predicate SubmissionLacks(s: State, n: Submission, problem: Problem) {
    match problem
    case TimezoneRequired => !n.zoned
    case InvalidEffectivePeriod => n.effectiveUntil.Some? && n.effectiveUntil.value <= n.effectiveFrom
    case UnknownSigningKey => !n.keyKnown
    case InvalidSignature => !n.signatureValid
    case VersionExists => exists id :: id in s.packages && SameVersion(s.packages[id], n)
    case _ => false
  }

  ghost predicate SameVersion(p: Package, n: Submission) { p.tenantId == n.tenantId && p.version == n.version }

  ghost predicate HasSpoken(p: Package, approval: RuleApproval, actor: string, authority: string) {
    approval in p.approvals && (approval.actor == actor || approval.authority == authority)
  }

  ghost predicate ApprovalLacks(p: Package, actor: string, authority: string, reason: string, problem: Problem) {
    match problem
    case InvalidStatus => p.status !in {Draft, ApprovedStatus}
    case FourEyesRequired => actor == p.submittedBy
    case InvalidAuthority => authority != "airline-operations" && authority != "regulatory-compliance"
    case DuplicateApproval => exists approval :: HasSpoken(p, approval, actor, authority)
    case ReasonRequired => forall i :: 0 <= i < |reason| ==> IsSpace(reason[i])
    case _ => false
  }

  ghost predicate EvidenceLacks(p: Package, e: ShadowEvidence, problem: Problem) {
    match problem
    case ShadowNotActive => p.status != Shadow
    case InvalidShadowEvidence => !(e.casesEvaluated > 0 && e.expectedMatches == e.casesEvaluated - e.unexpectedDifferences)
    case InvalidArtifactDigest => |e.artifactSha256| != 64
    case _ => false
  }

  ghost predicate ActivationLacks(p: Package, at: int, problem: Problem) {
    match problem
    case ShadowEvidenceRequired => !(p.status == Shadow && p.evidence.Some?)
    case ShadowGateFailed =>
      p.evidence.Some? && !(p.evidence.value.unexpectedDifferences == 0 && p.evidence.value.blockingFindings == 0)
    case OutsideEffectivePeriod => at < p.effectiveFrom || (p.effectiveUntil.Some? && p.effectiveUntil.value <= at)
    case _ => false
  }

  ghost predicate Fails(s: State, a: Action, problem: Problem) {
    if a.Submit? then SubmissionLacks(s, a.submission, problem)
    else if problem.PackageNotFound? then a.packageId !in s.packages
    else
      a.packageId in s.packages
      && var p := s.packages[a.packageId];
         match a
         case Approve(_, actor, authority, reason) => ApprovalLacks(p, actor, authority, reason, problem)
         case BeginShadow(_) => problem.ApprovalsRequired? && p.status != ApprovedStatus
         case RecordShadow(_, e) => EvidenceLacks(p, e, problem)
         case Activate(_, at) => ActivationLacks(p, at, problem)
         case Rollback(tenantId, _, _) => problem.RollbackTargetInvalid? && !(p.tenantId == tenantId && p.status == Retired)
         case _ => false
  }

  ghost predicate FirstFailure(s: State, a: Action, k: nat) {
    && k < |ChecksOf(a)| && Fails(s, a, ChecksOf(a)[k])
    && (forall j :: 0 <= j < k ==> !Fails(s, a, ChecksOf(a)[j]))
  }

  ghost predicate PassesAll(s: State, a: Action) {
    forall j :: 0 <= j < |ChecksOf(a)| ==> !Fails(s, a, ChecksOf(a)[j])
  }

  ghost predicate FollowsChecks(s: State, a: Action, problem: Option<Problem>) {
    if problem.None? then PassesAll(s, a)
    else exists k: nat :: FirstFailure(s, a, k) && problem.value == ChecksOf(a)[k]
  }

  lemma RefusedAt(s: State, a: Action, problem: Problem, k: nat)
    requires FirstFailure(s, a, k) && problem == ChecksOf(a)[k]
    ensures FollowsChecks(s, a, Some(problem))
  {
  }

  lemma BlankIff(reason: string)
    ensures Strip(reason) == "" <==> forall i :: 0 <= i < |reason| ==> IsSpace(reason[i])
  {
    var i, j := StripTakesSpaceOff(reason);
    assert i < j ==> !IsSpace(reason[i]);
  }

  lemma SubmissionFollows(s: State, a: Action)
    requires a.Submit?
    ensures FollowsChecks(s, a, Refusal(s, a))
  {
    var n := a.submission;
    var taken := exists id :: id in s.packages && SameVersion(s.packages[id], n);
    assert VersionTaken(s.packages, n.tenantId, n.version) <==> taken by {
      if VersionTaken(s.packages, n.tenantId, n.version) {
        var id :| id in s.packages && s.packages[id].tenantId == n.tenantId && s.packages[id].version == n.version;
        assert SameVersion(s.packages[id], n);
      }
    }
    if Refusal(s, a).Some? {
      RefusedAt(s, a, Refusal(s, a).value, match Refusal(s, a).value
        case TimezoneRequired => 0 case InvalidEffectivePeriod => 1 case UnknownSigningKey => 2
        case InvalidSignature => 3 case _ => 4);
    }
  }

  lemma SpokenIff(p: Package, actor: string, authority: string)
    ensures AlreadyApproved(p, actor, authority) <==> exists approval :: HasSpoken(p, approval, actor, authority)
  {
    if AlreadyApproved(p, actor, authority) {
      var approval :| approval in p.approvals && (approval.actor == actor || approval.authority == authority);
      assert HasSpoken(p, approval, actor, authority);
    }
  }

  lemma ApprovalFollows(s: State, a: Action)
    requires a.Approve? && a.packageId in s.packages
    ensures FollowsChecks(s, a, Refusal(s, a))
  {
    SpokenIff(s.packages[a.packageId], a.actor, a.authority);
    BlankIff(a.reason);
    if Refusal(s, a).Some? {
      RefusedAt(s, a, Refusal(s, a).value, match Refusal(s, a).value
        case InvalidStatus => 1 case FourEyesRequired => 2 case InvalidAuthority => 3 case DuplicateApproval => 4
        case _ => 5);
    }
  }

  lemma ShadowFollows(s: State, a: Action)
    requires (a.BeginShadow? || a.RecordShadow?) && a.packageId in s.packages
    ensures FollowsChecks(s, a, Refusal(s, a))
  {
    if Refusal(s, a).Some? {
      RefusedAt(s, a, Refusal(s, a).value, match Refusal(s, a).value
        case ApprovalsRequired => 1 case ShadowNotActive => 1 case InvalidShadowEvidence => 2 case _ => 3);
    }
  }

  lemma PromotionFollows(s: State, a: Action)
    requires (a.Activate? || a.Rollback?) && a.packageId in s.packages
    ensures FollowsChecks(s, a, Refusal(s, a))
  {
    if Refusal(s, a).Some? {
      RefusedAt(s, a, Refusal(s, a).value, match Refusal(s, a).value
        case RollbackTargetInvalid => 1 case ShadowEvidenceRequired => 1 case ShadowGateFailed => 2 case _ => 3);
    }
  }

  /** An action is refused for the first check that fails, and taken if none does. */
  lemma RefusedByRules(s: State, a: Action)
    ensures FollowsChecks(s, a, Refusal(s, a))
  {
    if a.Submit? {
      SubmissionFollows(s, a);
    } else if a.packageId !in s.packages {
      RefusedAt(s, a, PackageNotFound, 0);
    } else if a.Approve? {
      ApprovalFollows(s, a);
    } else if a.BeginShadow? || a.RecordShadow? {
      ShadowFollows(s, a);
    } else {
      PromotionFollows(s, a);
    }
  }

  // ----- what stands behind a package -----

  /** A submission that was in order, from which the package has all but its progress. */
  ghost predicate SubmittedAs(a: Action, id: string, p: Package) {
    && a.Submit? && a.packageId == id
    && var n := a.submission;
       && n.zoned && n.keyKnown && n.signatureValid
       && (n.effectiveUntil.Some? ==> n.effectiveFrom < n.effectiveUntil.value)
       && p.tenantId == n.tenantId && p.version == n.version && p.submittedBy == n.submittedBy
       && p.effectiveFrom == n.effectiveFrom && p.effectiveUntil == n.effectiveUntil
  }

  ghost predicate WasSubmitted(actions: seq<Action>, id: string, p: Package) {
    exists i :: 0 <= i < |actions| && SubmittedAs(actions[i], id, p)
  }

  /** Nothing but status, approvals and evidence ever changes. */
  ghost predicate SameTerms(p: Package, q: Package) {
    q == p.(status := q.status, approvals := q.approvals, evidence := q.evidence)
  }

  lemma StepKeepsTerms(s: State, a: Action, id: string)
    requires id in After(s, a).packages
    ensures (a.Submit? && a.packageId == id && Refusal(s, a).None? && After(s, a).packages[id] == NewPackage(a.submission))
      || (id in s.packages && SameTerms(s.packages[id], After(s, a).packages[id]))
  {
    if Refusal(s, a).None? && (a.Activate? || a.Rollback?) {
      PromotedShape(s, a.packageId);
    }
  }

  lemma NewIsSubmitted(s: State, a: Action)
    requires a.Submit? && Refusal(s, a).None?
    ensures SubmittedAs(a, a.packageId, NewPackage(a.submission))
  {
    RefusedByRules(s, a);
    assert !Fails(s, a, ChecksOf(a)[0]) && !Fails(s, a, ChecksOf(a)[1]) && !Fails(s, a, ChecksOf(a)[2])
        && !Fails(s, a, ChecksOf(a)[3]);
  }

  lemma {:induction false} PackagesWereSubmitted(actions: seq<Action>, id: string)
    requires id in Run(State(map[], map[]), actions).packages
    ensures WasSubmitted(actions, id, Run(State(map[], map[]), actions).packages[id])
  {
    if actions != [] {
      var n := |actions| - 1;
      var s, a := Run(State(map[], map[]), actions[..n]), actions[n];
      StepKeepsTerms(s, a, id);
      if id in s.packages && SameTerms(s.packages[id], After(s, a).packages[id]) {
        PackagesWereSubmitted(actions[..n], id);
        var i :| 0 <= i < n && SubmittedAs(actions[..n][i], id, s.packages[id]);
        assert SubmittedAs(actions[i], id, After(s, a).packages[id]);
      } else {
        NewIsSubmitted(s, a);
        assert SubmittedAs(actions[n], id, After(s, a).packages[id]);
      }
    }
  }

  /** Who may make rules: in every run from the empty registry an active package is its tenant's only one; it was
      submitted in order, with a verified signature; two people of the two authorities, neither the submitter, approved it
      with a reason; and its shadow run, with a digest on file, showed no difference and no finding. */
  lemma ActiveIsAccountedFor(actions: seq<Action>, id: string)
    requires IdsAreFresh(State(map[], map[]), actions)
    requires var s := Run(State(map[], map[]), actions); id in s.packages && s.packages[id].status == Active
    ensures
      var p := Run(State(map[], map[]), actions).packages[id];
      && WasSubmitted(actions, id, p) && TwoIndependentApprovals(p)
      && (forall approval :: approval in p.approvals ==> approval.reason != "")
      && p.evidence.Some? && CleanEvidence(p.evidence.value) && |p.evidence.value.artifactSha256| == 64
  {
    PackagesWereSubmitted(actions, id);
    ActiveIsEarned(actions, id, id);
    RunKeepsGoverned(State(map[], map[]), actions);
  }
}
