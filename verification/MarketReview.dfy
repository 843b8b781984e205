/**
 Review of pending authorizations. The approval batch claims the review target
 under weaker conditions than it then approves under, so the claim can be left
 behind. These lemmas say exactly when, and what it costs.
 */
module MarketReview {
  import opened Totals
  import opened MarketTables
  import opened MarketSteps
  import opened MarketInvariants
  import opened MarketEveryRun
  import opened MarketLifecycles
  import opened MarketHistory
  import opened MarketTheorems

  /** A claimed review target whose request has not been decided. */
  predicate Orphaned(s: Db, id: nat) {
    ReviewTargetKey(id) in s.keys && id in s.auths && s.auths[id].status == Pending
  }

  /** The approval batch orphans its own claim exactly when the supplier version it was given is stale. */
  lemma ApprovalOrphansExactlyOnStaleVersion(s: Db, n: Db, id: nat, t: Tenant, command: nat, token: nat,
                                             ls: set<Lookup>, legacy: string, v: nat, next: nat, now: Time)
    requires n == ApproveAuth(s, id, t, command, token, ls, legacy, v, next, now) && ReviewTargetKey(id) !in s.keys
    ensures Orphaned(n, id) <==> (CanClaimApproval(s, id, t, command, ls, legacy, now) && !VersionHolds(s, id, v))
  {
    if CanClaimApproval(s, id, t, command, ls, legacy, now) {
      assert ReviewTargetKey(id) != ReviewCommandKey(t, command);
      if VersionHolds(s, id, v) {
        assert n.auths[id].status == Approved;
      } else {
        assert n.auths == s.auths;
      }
    }
  }

  /** A rejection never does: its claim and its decision share one condition. */
  lemma RejectionNeverOrphans(s: Db, n: Db, id: nat, t: Tenant, command: nat, token: nat)
    requires n == RejectAuth(s, id, t, command, token) && ReviewTargetKey(id) !in s.keys
    ensures !Orphaned(n, id)
  {
  }

  // ------------------------------------------------- what an orphan claim costs

  lemma ApprovalNeedsAFreeTarget(s: Db, n: Db, a: nat, id: nat, t: Tenant, command: nat, token: nat,
                                 ls: set<Lookup>, legacy: string, v: nat, next: nat, now: Time)
    requires n == ApproveAuth(s, id, t, command, token, ls, legacy, v, next, now) && Orphaned(s, a)
    ensures a in n.auths && n.auths[a] == s.auths[a]
  {
    if CanClaimApproval(s, id, t, command, ls, legacy, now) {
      if VersionHolds(s, id, v) {
        assert n.auths == ApprovedBy(s, id, command);
      } else {
        assert n.auths == s.auths;
      }
    }
  }

  lemma OrphanRow(s: Db, n: Db, e: AuthStep, a: nat)
    requires n == ApplyAuth(s, e) && Orphaned(s, a)
    ensures a in n.auths && (n.auths[a].status == Pending || n.auths[a].status == Rejected || n.auths[a].status == Withdrawn)
  {
    match e
    case ApproveStep(id, t, command, token, ls, legacy, v, next, now) =>
      ApprovalNeedsAFreeTarget(s, n, a, id, t, command, token, ls, legacy, v, next, now);
    case RevokeStep(id, t, rev, v, command, reason, token, now) => RevokeSparesPending(s, n, a, id, t, rev, v, command, reason, token, now);
    case RotateStep(id, t, rev, v, command, reason, token, prior, sealed, l, ls, legacy, now) => RotateSparesPending(s, n, a, e);
    case _ =>
  }

  lemma RevokeSparesPending(s: Db, n: Db, a: nat, id: nat, t: Tenant, rev: nat, v: nat, command: nat, reason: string, token: nat, now: Time)
    requires n == RevokeAuth(s, id, t, rev, v, command, reason, token, now) && Orphaned(s, a)
    ensures a in n.auths && n.auths[a] == s.auths[a]
  {
  }

  lemma RotateSparesPending(s: Db, n: Db, a: nat, e: AuthStep)
    requires e.RotateStep? && n == ApplyAuth(s, e) && Orphaned(s, a)
    ensures a in n.auths && n.auths[a] == s.auths[a]
  {
  }

  lemma OnlyAuthStepsTouchAuths(s: Db, e: Step)
    requires !e.OnAuth?
    ensures Apply(s, e).auths == s.auths
  {
    match e
    case OnJob(j) => JobsTouchNoAuth(s, j);
    case OnTask(t) => TasksTouchNoAuth(s, t);
  }
  lemma JobsTouchNoAuth(s: Db, e: JobStep) ensures ApplyJob(s, e).auths == s.auths {}
  lemma TasksTouchNoAuth(s: Db, e: TaskStep)
    ensures ApplyTask(s, e).auths == s.auths
  {
    match e {
      case CheckpointStep(_, _, _, _) =>
      case SettleTaskStep(_, _, _, _, _, _) =>
      case CancelStep(_, _, _, _, _) =>
      case _ =>
    }
  }

  lemma OrphanStep(s: Db, e: Step, a: nat)
    requires Inv(s) && Orphaned(s, a)
    ensures var n := Apply(s, e);
            a in n.auths && (Orphaned(n, a) || n.auths[a].status == Rejected || n.auths[a].status == Withdrawn)
  {
    StepEvolves(s, e);
    if e.OnAuth? { OrphanRow(s, ApplyAuth(s, e.a), e.a, a); } else { OnlyAuthStepsTouchAuths(s, e); }
  }

  lemma RejectionNeedsAFreeTarget(s: Db, n: Db, a: nat, id: nat, t: Tenant, command: nat, token: nat)
    requires n == RejectAuth(s, id, t, command, token) && Orphaned(s, a)
    ensures a in n.auths && n.auths[a] == s.auths[a]
  {
  }

  /** Time or the supplier itself. */
  predicate ByExpiryOrOwner(e: Step) { e.OnAuth? && (e.a.MaintainStep? || e.a.WithdrawStep?) }

  lemma OrphanStays(s: Db, n: Db, e: AuthStep, a: nat)
    requires n == ApplyAuth(s, e) && Orphaned(s, a) && !e.MaintainStep? && !e.WithdrawStep?
    ensures a in n.auths && n.auths[a].status == Pending
  {
    match e
    case RejectStep(id, t, command, token) => RejectionNeedsAFreeTarget(s, n, a, id, t, command, token);
    case ApproveStep(id, t, command, token, ls, legacy, v, next, now) =>
      ApprovalNeedsAFreeTarget(s, n, a, id, t, command, token, ls, legacy, v, next, now);
    case RevokeStep(id, t, rev, v, command, reason, token, now) => RevokeSparesPending(s, n, a, id, t, rev, v, command, reason, token, now);
    case RotateStep(id, t, rev, v, command, reason, token, prior, sealed, l, ls, legacy, now) => RotateSparesPending(s, n, a, e);
    case _ =>
  }

  /**
   No reviewer ever decides an orphaned request: neither an approval nor a
   rejection changes its row, and no step but its expiry or its own withdrawal
   takes it out of that state.
   */
  lemma NoReviewerDecidesAnOrphan(steps: seq<Step>, e: Step, a: nat)
    ensures var s := Run(EMPTY, steps);
            var n := Apply(s, e);
            Orphaned(s, a) ==>
              && a in n.auths
              && (e.OnAuth? && (e.a.RejectStep? || e.a.ApproveStep?) ==> n.auths[a] == s.auths[a])
              && (!ByExpiryOrOwner(e) ==> Orphaned(n, a))
  {
    var s := Run(EMPTY, steps);
    EveryRunIsSafe(steps);
    if Orphaned(s, a) { OrphanMeets(s, Apply(s, e), e, a); }
  }

  lemma OrphanMeets(s: Db, n: Db, e: Step, a: nat)
    requires Inv(s) && n == Apply(s, e) && Orphaned(s, a)
    ensures a in n.auths && (!ByExpiryOrOwner(e) ==> Orphaned(n, a))
    ensures e.OnAuth? && (e.a.RejectStep? || e.a.ApproveStep?) ==> n.auths[a] == s.auths[a]
  {
    StepEvolves(s, e);
    if !e.OnAuth? {
      OnlyAuthStepsTouchAuths(s, e);
    } else {
      match e.a
      case RejectStep(id, t, command, token) => RejectionNeedsAFreeTarget(s, n, a, id, t, command, token);
      case ApproveStep(id, t, command, token, ls, legacy, v, next, now) =>
        ApprovalNeedsAFreeTarget(s, n, a, id, t, command, token, ls, legacy, v, next, now);
      case MaintainStep(_) =>
      case WithdrawStep(_, _, _, _, _, _, _) =>
      case _ => OrphanStays(s, n, e.a, a);
    }
  }

  /** A request whose claim was orphaned can never be approved again, by any reviewer, in any continuation. */
  lemma {:induction false} OrphanedRequestIsNeverApproved(s: Db, steps: seq<Step>, a: nat)
    requires Inv(s) && a in s.auths && (Orphaned(s, a) || s.auths[a].status == Rejected || s.auths[a].status == Withdrawn)
    ensures var n := Run(s, steps);
            a in n.auths && (Orphaned(n, a) || n.auths[a].status == Rejected || n.auths[a].status == Withdrawn)
    decreases |steps|
  {
    if steps != [] {
      var m := Apply(s, steps[0]);
      StepKeeps(s, steps[0]);
      StepEvolves(s, steps[0]);
      if Orphaned(s, a) { OrphanStep(s, steps[0], a); } else { assert AuthEvolves(s.auths[a], m.auths[a]); }
      OrphanedRequestIsNeverApproved(m, steps[1..], a);
    }
  }

  // ------------------------------------------------------------ a concrete run

  function SampleRequest(tenant: Tenant): Auth {
    Auth(tenant, 7, Pending, 1, 1_000, 0, Sealed("t", "i", 1, "k"), 2, "k", Some("d"), None)
  }

  function SampleApproval(id: nat): Step {
    OnAuth(ApproveStep(id, Account(0), id, id, {}, "", 1, 2, 0))
  }

  function SampleSubmission(id: nat): Step {
    OnAuth(SubmitStep(id, Account(1), 7, 1_000, Sealed("t", "i", 1, "k"), Lookup(2, "k", "d"), 0))
  }

  /** Register, submit twice: two pending requests of one supplier at version 1. */
  function TwoRequests(): Db {
    EMPTY.(suppliers := map[Account(1) := Supplier(false, false, 1)],
           auths := map[1 := SampleRequest(Account(1)), 2 := SampleRequest(Account(1))])
  }

  lemma TwoRequestsAreReachable()
    ensures Run(EMPTY, [OnAuth(RegisterStep(Account(1))), SampleSubmission(1), SampleSubmission(2)]) == TwoRequests()
  {
    var a, b, c := OnAuth(RegisterStep(Account(1))), SampleSubmission(1), SampleSubmission(2);
    var s := Apply(EMPTY, a);
    assert s.suppliers == map[Account(1) := Supplier(false, false, 1)];
    var m := Apply(s, b);
    assert m.auths == map[1 := SampleRequest(Account(1))];
    var n := Apply(m, c);
    assert n.auths == map[1 := SampleRequest(Account(1)), 2 := SampleRequest(Account(1))];
    assert [a, b, c][1..] == [b, c] && [b, c][1..] == [c] && [c][1..] == [];
    assert Run(n, []) == n && Run(m, [c]) == n && Run(s, [b, c]) == n;
  }

  lemma NothingMatches(s: Db, now: Time)
    requires forall i :: i in s.auths ==> s.auths[i].digestVersion == 2
    ensures Matching(s.auths, {}, "", now) == {}
  {
  }

  function OneApproved(): Db { ApproveAuth(TwoRequests(), 1, Account(0), 1, 1, {}, "", 1, 2, 0) }

  lemma FirstApprovalLands()
    ensures OneApproved().suppliers == map[Account(1) := Supplier(true, false, 2)]
    ensures 2 in OneApproved().auths && OneApproved().auths[2] == SampleRequest(Account(1))
    ensures forall i :: i in OneApproved().auths ==> OneApproved().auths[i].digestVersion == 2
    ensures ReviewTargetKey(2) !in OneApproved().keys && ReviewCommandKey(Account(0), 2) !in OneApproved().keys
  {
    var s := TwoRequests();
    NothingMatches(s, 0);
    assert CanClaimApproval(s, 1, Account(0), 1, {}, "", 0) && VersionHolds(s, 1, 1);
  }

  lemma SecondApprovalLosesItsClaim()
    ensures Orphaned(ApproveAuth(OneApproved(), 2, Account(0), 2, 2, {}, "", 1, 2, 0), 2)
  {
    var m := OneApproved();
    FirstApprovalLands();
    NothingMatches(m, 0);
    assert CanClaimApproval(m, 2, Account(0), 2, {}, "", 0) && !VersionHolds(m, 2, 1);
    ApprovalOrphansExactlyOnStaleVersion(m, ApproveAuth(m, 2, Account(0), 2, 2, {}, "", 1, 2, 0), 2, Account(0), 2, 2, {}, "", 1, 2, 0);
  }

  lemma TwoSteps(s: Db, a: Step, b: Step)
    ensures Run(s, [a, b]) == Apply(Apply(s, a), b)
  {
    assert [a, b][1..] == [b] && [b][1..] == [];
    assert Run(Apply(s, a), [b]) == Run(Apply(Apply(s, a), b), []);
  }

  lemma SampleApprovals()
    ensures Apply(TwoRequests(), SampleApproval(1)) == OneApproved()
    ensures Orphaned(Apply(OneApproved(), SampleApproval(2)), 2)
  {
    ApproveApplies(TwoRequests(), 1, Account(0), 1, 1, {}, "", 1, 2, 0);
    ApproveApplies(OneApproved(), 2, Account(0), 2, 2, {}, "", 1, 2, 0);
    SecondApprovalLosesItsClaim();
  }

  lemma ApproveApplies(s: Db, id: nat, t: Tenant, command: nat, token: nat, ls: set<Lookup>, legacy: string, v: nat, next: nat, now: Time)
    ensures Apply(s, OnAuth(ApproveStep(id, t, command, token, ls, legacy, v, next, now)))
            == ApproveAuth(s, id, t, command, token, ls, legacy, v, next, now)
  {
  }

  /** Two approvals prepared against supplier version 1: the second leaves an orphan claim. */
  lemma SecondApprovalIsOrphaned()
    ensures exists steps :: Orphaned(Run(EMPTY, steps), 2)
  {
    var before := [OnAuth(RegisterStep(Account(1))), SampleSubmission(1), SampleSubmission(2)];
    var after := [SampleApproval(1), SampleApproval(2)];
    TwoRequestsAreReachable();
    SampleApprovals();
    TwoSteps(TwoRequests(), SampleApproval(1), SampleApproval(2));
    RunInTwoParts(EMPTY, before, after);
    assert Orphaned(Run(EMPTY, before + after), 2);
  }
}
