/** When the active rule package is inside its effective period (rules/governance.py). */
module RulePeriods {
  import opened Sequences
  import opened Text
  import opened Governance

  predicate IsActive(s: State, id: string) { id in s.packages && s.packages[id].status == Active }

  predicate MakesActive(s: State, a: Action, id: string) { !IsActive(s, id) && IsActive(After(s, a), id) }

  lemma OthersPromotionKeeps(s: State, packageId: string, id: string)
    requires packageId in s.packages && id != packageId && IsActive(Promoted(s, packageId), id)
    ensures IsActive(s, id)
  {
    PromotedShape(s, packageId);
  }

  /** Nothing but a promotion turns a package active. */
  lemma RewritingKeeps(s: State, a: Action, id: string)
    requires Governed(s) && !a.Activate? && !a.Rollback? && IsActive(After(s, a), id)
    ensures IsActive(s, id)
  {
  }

  /** Only an activation or a rollback of that very package makes it active. */
  lemma OnlyPromotionMakesActive(s: State, a: Action, id: string)
    requires Governed(s) && MakesActive(s, a, id)
    ensures Promotes(s, a, id)
  {
    if !a.Activate? && !a.Rollback? {
      RewritingKeeps(s, a, id);
    } else if Refusal(s, a).None? && a.packageId != id {
      OthersPromotionKeeps(s, a.packageId, id);
    }
  }

  /** An accepted activation or rollback of the package. */
  predicate Promotes(s: State, a: Action, id: string) {
    (a.Activate? || a.Rollback?) && a.packageId == id && Refusal(s, a).None?
  }

  /** A package that becomes active is effective at that moment, except exactly after a rollback outside its period. */
  lemma MadeActiveIsEffectiveIff(s: State, a: Action, id: string)
    requires Governed(s) && MakesActive(s, a, id)
    ensures id in s.packages && (a.Activate? || a.Rollback?)
    ensures EffectiveAt(After(s, a).packages[id], a.at) <==> !(a.Rollback? && !EffectiveAt(s.packages[id], a.at))
  {
    OnlyPromotionMakesActive(s, a, id);
    PeriodIsKept(s, a, id);
    ActivatedIsEffective(s, a);
  }

  lemma ActivatedIsEffective(s: State, a: Action)
    ensures a.Activate? && Refusal(s, a).None? ==> EffectiveAt(s.packages[a.packageId], a.at)
  {
  }

  // ----- whole runs -----

  lemma PeriodIsKept(s: State, a: Action, id: string)
    requires id in s.packages && (a.Submit? ==> a.packageId != id)
    ensures id in After(s, a).packages
    ensures forall at :: EffectiveAt(After(s, a).packages[id], at) <==> EffectiveAt(s.packages[id], at)
  {
    if Refusal(s, a).None? && (a.Activate? || a.Rollback?) {
      PromotedShape(s, a.packageId);
    }
  }

  /** When the package was last activated or rolled back to. */
  function LastPromotion(s: State, actions: seq<Action>, id: string): Option<int> {
    if actions == [] then None
    else
      var n := |actions| - 1;
      if Promotes(Run(s, actions[..n]), actions[n], id) then Some(actions[n].at) else LastPromotion(s, actions[..n], id)
  }

  /** The package was effective when it was last made active. */
  ghost predicate EffectiveSince(s: State, actions: seq<Action>, id: string) {
    && id in Run(s, actions).packages
    && LastPromotion(s, actions, id).Some?
    && EffectiveAt(Run(s, actions).packages[id], LastPromotion(s, actions, id).value)
  }

  /** Every accepted rollback of the run is inside the target's period. */
  ghost predicate RollbacksInside(s: State, actions: seq<Action>) {
    forall i :: 0 <= i < |actions| ==> RollbackInside(Run(s, actions[..i]), actions[i])
  }

  predicate RollbackInside(s: State, a: Action) {
    a.Rollback? && Refusal(s, a).None? ==> EffectiveAt(s.packages[a.packageId], a.at)
  }

  lemma PromotionIsEffective(s: State, a: Action, id: string)
    requires Promotes(s, a, id) && RollbackInside(s, a)
    ensures id in After(s, a).packages && EffectiveAt(After(s, a).packages[id], a.at)
  {
    PeriodIsKept(s, a, id);
    ActivatedIsEffective(s, a);
  }

  lemma PrefixIsInside(s: State, actions: seq<Action>, n: nat)
    requires RollbacksInside(s, actions) && n <= |actions|
    ensures RollbacksInside(s, actions[..n])
  {
    forall i | 0 <= i < n
      ensures RollbackInside(Run(s, actions[..n][..i]), actions[..n][i])
    {
      assert actions[..n][..i] == actions[..i];
    }
  }

  lemma RunSnocIs(s: State, actions: seq<Action>)
    requires actions != []
    ensures var n := |actions| - 1; Run(s, actions) == After(Run(s, actions[..n]), actions[n])
  {
  }

  /** If all rollbacks are inside their targets' periods, every active package was effective when it was last made
      active, whatever the registry has been through. */
  lemma {:induction false} ActiveWasEffective(actions: seq<Action>, id: string)
    requires IdsAreFresh(State(map[], map[]), actions) && RollbacksInside(State(map[], map[]), actions)
    requires IsActive(Run(State(map[], map[]), actions), id)
    ensures EffectiveSince(State(map[], map[]), actions, id)
  {
    var empty := State(map[], map[]);
    var n := |actions| - 1;
    var before, a := Run(empty, actions[..n]), actions[n];
    RunSnocIs(empty, actions);
    RunKeepsGoverned(empty, actions[..n]);
    if Promotes(before, a, id) {
      assert RollbackInside(before, a);
      PromotionIsEffective(before, a, id);
    } else {
      StaysActive(before, a, id);
      PrefixIsInside(empty, actions, n);
      ActiveWasEffective(actions[..n], id);
      SubmissionIsNew(actions, n, id);
      PeriodIsKept(before, a, id);
    }
  }

  lemma StaysActive(s: State, a: Action, id: string)
    requires Governed(s) && !Promotes(s, a, id) && IsActive(After(s, a), id)
    ensures IsActive(s, id)
  {
    if !IsActive(s, id) {
      OnlyPromotionMakesActive(s, a, id);
    }
  }

  lemma SubmissionIsNew(actions: seq<Action>, n: nat, id: string)
    requires IdsAreFresh(State(map[], map[]), actions) && n < |actions|
    requires id in Run(State(map[], map[]), actions[..n]).packages
    ensures actions[n].Submit? ==> actions[n].packageId != id
  {
    if actions[n].Submit? {
      RunAddsSubmissions(State(map[], map[]), actions[..n], actions[n].packageId);
    }
  }

  // ----- a run that rolls back outside the period -----

  const EVIDENCE := ShadowEvidence(1, 1, 0, 0, "0123456789abcdef0123456789abcdef0123456789abcdef0123456789abcdef")

  function Review(id: string, n: Submission): seq<Action> {
    [Submit(id, n), Approve(id, "O", "airline-operations", "ok"), Approve(id, "R", "regulatory-compliance", "ok"),
     BeginShadow(id), RecordShadow(id, EVIDENCE)]
  }

  function Reviewed(n: Submission): Package {
    NewPackage(n).(status := Shadow, evidence := Some(EVIDENCE),
                   approvals := [RuleApproval("O", "airline-operations", "ok"), RuleApproval("R", "regulatory-compliance", "ok")])
  }

  lemma ReviewApproves(n: Submission)
    requires n.submittedBy != "O" && n.submittedBy != "R"
    ensures
      var p := NewPackage(n);
      var q := Approved(p, RuleApproval("O", "airline-operations", "ok"));
      var r := Approved(q, RuleApproval("R", "regulatory-compliance", "ok"));
      && ApprovalProblem(p, "O", "airline-operations", "ok").None?
      && q == p.(approvals := [RuleApproval("O", "airline-operations", "ok")])
      && ApprovalProblem(q, "R", "regulatory-compliance", "ok").None?
      && r == Reviewed(n).(status := ApprovedStatus, evidence := None)
  {
    var a, b := RuleApproval("O", "airline-operations", "ok"), RuleApproval("R", "regulatory-compliance", "ok");
    assert Strip("ok") == "ok";
    OneAuthority(a);
    TwoAuthorities(a, b);
    assert [] + [a] == [a] && [a] + [b] == [a, b];
  }

  lemma OneAuthority(a: RuleApproval)
    ensures Authorities([a]) == {a.authority}
  {
    assert a in [a];
  }

  lemma TwoAuthorities(a: RuleApproval, b: RuleApproval)
    ensures Authorities([a, b]) == {a.authority, b.authority}
  {
    assert a in [a, b] && b in [a, b];
  }

  lemma RunSnoc(s: State, actions: seq<Action>, a: Action)
    ensures Run(s, actions + [a]) == After(Run(s, actions), a)
  {
    assert (actions + [a])[..|actions|] == actions;
  }

  lemma {:induction false} RunJoin(s: State, first: seq<Action>, second: seq<Action>)
    ensures Run(s, first + second) == Run(Run(s, first), second)
  {
    if second == [] {
      assert first + second == first;
    } else {
      var n := |second| - 1;
      assert first + second == (first + second[..n]) + [second[n]];
      RunSnoc(s, first + second[..n], second[n]);
      RunJoin(s, first, second[..n]);
    }
  }

  lemma RunFive(s: State, a: Action, b: Action, c: Action, d: Action, e: Action)
    ensures Run(s, [a, b, c, d, e]) == After(After(After(After(After(s, a), b), c), d), e)
  {
    assert Run(s, []) == s;
    assert [a] == [] + [a] && [a, b] == [a] + [b] && [a, b, c] == [a, b] + [c];
    assert [a, b, c, d] == [a, b, c] + [d] && [a, b, c, d, e] == [a, b, c, d] + [e];
    RunSnoc(s, [], a);
    RunSnoc(s, [a], b);
    RunSnoc(s, [a, b], c);
    RunSnoc(s, [a, b, c], d);
    RunSnoc(s, [a, b, c, d], e);
  }

  /** The package after both approvals, before its shadow run. */
  function FullyApproved(n: Submission): Package { Reviewed(n).(status := ApprovedStatus, evidence := None) }

  lemma SubmissionPasses(s: State, id: string, n: Submission)
    requires id !in s.packages && SubmissionProblem(s, n).None?
    ensures After(s, Submit(id, n)) == WithPackage(s, id, NewPackage(n))
  {
  }

  lemma ApprovalPasses(s: State, id: string, p: Package, actor: string, authority: string)
    requires ApprovalProblem(p, actor, authority, "ok").None?
    ensures After(WithPackage(s, id, p), Approve(id, actor, authority, "ok"))
      == WithPackage(s, id, Approved(p, RuleApproval(actor, authority, "ok")))
  {
    assert Strip("ok") == "ok";
  }

  lemma ApprovalsPass(s: State, id: string, n: Submission)
    requires id !in s.packages && SubmissionProblem(s, n).None? && n.submittedBy != "O" && n.submittedBy != "R"
    ensures
      var acts := Review(id, n);
      After(After(After(s, acts[0]), acts[1]), acts[2]) == WithPackage(s, id, FullyApproved(n))
  {
    ReviewApproves(n);
    SubmissionPasses(s, id, n);
    ApprovalPasses(s, id, NewPackage(n), "O", "airline-operations");
    ApprovalPasses(s, id, Approved(NewPackage(n), RuleApproval("O", "airline-operations", "ok")), "R", "regulatory-compliance");
  }

  lemma ShadowPasses(s: State, id: string, n: Submission)
    ensures
      var acts := Review(id, n);
      After(After(WithPackage(s, id, FullyApproved(n)), acts[3]), acts[4]) == WithPackage(s, id, Reviewed(n))
  {
    var acts := Review(id, n);
    var inShadow := WithPackage(s, id, FullyApproved(n).(status := Shadow));
    assert After(WithPackage(s, id, FullyApproved(n)), acts[3]) == inShadow;
    assert After(inShadow, acts[4]) == WithPackage(s, id, Reviewed(n));
  }

  lemma ReviewsIntoShadow(s: State, id: string, n: Submission)
    requires id !in s.packages && SubmissionProblem(s, n).None? && n.submittedBy != "O" && n.submittedBy != "R"
    ensures Run(s, Review(id, n)) == WithPackage(s, id, Reviewed(n))
  {
    var acts := Review(id, n);
    ApprovalsPass(s, id, n);
    ShadowPasses(s, id, n);
    RunFive(s, acts[0], acts[1], acts[2], acts[3], acts[4]);
  }

  function Life(id: string, n: Submission, at: int): seq<Action> { Review(id, n) + [Activate(id, at)] }

  lemma GoesLive(s: State, id: string, n: Submission, at: int)
    requires id !in s.packages && SubmissionProblem(s, n).None? && n.submittedBy != "O" && n.submittedBy != "R"
    requires EffectiveAt(NewPackage(n), at)
    ensures Run(s, Life(id, n, at)) == Promoted(WithPackage(s, id, Reviewed(n)), id)
  {
    ReviewsIntoShadow(s, id, n);
    RunSnoc(s, Review(id, n), Activate(id, at));
  }

  function Winter(): Submission { Submission("T", "1", 0, Some(10), "S", true, true, true) }

  function Summer(): Submission { Submission("T", "2", 10, None, "S", true, true, true) }

  lemma WinterIsRetired()
    ensures
      var live := Run(State(map[], map[]), Life("W", Winter(), 5));
      var before := Run(State(map[], map[]), Life("W", Winter(), 5) + Life("S", Summer(), 10));
      && IsActive(live, "W") && "W" in before.packages
      && before.packages["W"] == Reviewed(Winter()).(status := Retired)
  {
    var empty := State(map[], map[]);
    GoesLive(empty, "W", Winter(), 5);
    var first := Promoted(WithPackage(empty, "W", Reviewed(Winter())), "W");
    assert first == State(map["W" := Reviewed(Winter()).(status := Active)], map["T" := "W"]);
    GoesLive(first, "S", Summer(), 10);
    RunJoin(empty, Life("W", Winter(), 5), Life("S", Summer(), 10));
    PromotedShape(WithPackage(first, "S", Reviewed(Summer())), "S");
  }

  /** Version 1 holds for the moments 0 to 9 and is active at 5; version 2 takes over at 10; at 20 version 1 is
      brought back, and is the tenant's active package ten moments after its period ended. */
  lemma RollbackOutsideThePeriod()
    ensures
      var before := Run(State(map[], map[]), Life("W", Winter(), 5) + Life("S", Summer(), 10));
      var rollback := Rollback("T", "W", 20);
      && IsActive(Run(State(map[], map[]), Life("W", Winter(), 5)), "W")
      && Refusal(before, rollback).None? && MakesActive(before, rollback, "W")
      && !EffectiveAt(After(before, rollback).packages["W"], 20)
  {
    WinterIsRetired();
    PromotedShape(Run(State(map[], map[]), Life("W", Winter(), 5) + Life("S", Summer(), 10)), "W");
  }
}
