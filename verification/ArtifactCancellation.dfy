/** The provider-neutral cancellation decision, and its agreement with what the store keeps. */
module ArtifactCancellation {
  import opened Totals
  import opened MarketTables
  import opened MarketSteps
  import opened MarketInvariants
  import opened MarketSafety
  import opened MarketEveryRun
  import opened MarketLifecycles
  import opened MarketHistory
  import opened MarketTheorems

  datatype PublicStatus = Shown(status: TaskStatus) | Cancelling

  datatype Retention = Retained | PurgeScheduled

  datatype Decision = Decision(public: PublicStatus, persisted: TaskStatus, release: bool, retention: Retention)

  datatype DecisionResult = Decided(decision: Decision) | Refused

  function Project(status: TaskStatus, requested: bool): PublicStatus {
    if requested && (status == Claimed || status == Running) then Cancelling else Shown(status)
  }

  function Decide(status: TaskStatus, strict: bool): DecisionResult {
    var retention := if strict then PurgeScheduled else Retained;
    match status
    case Queued => Decided(Decision(Shown(Cancelled), Cancelled, true, retention))
    case Claimed => Decided(Decision(Cancelling, Claimed, false, retention))
    case Running => Decided(Decision(Cancelling, Running, false, retention))
    case Cancelled => Decided(Decision(Shown(Cancelled), Cancelled, true, retention))
    case Completed => Refused
    case Failed => Refused
  }

  lemma CancelledRowTotals(s: Db, n: Db, id: nat, row: Task)
    requires id in s.tasks && SameDeal(s.tasks[id], row) && TaskActive(s.tasks[id])
    requires n.jobs == s.jobs && n.tasks == s.tasks[id := row]
    ensures Held(n, row.buyer) == Held(s, row.buyer) - (if TaskActive(row) then 0 else row.reserved)
  {
    OneTask(s, n, id);
  }

  /**
   Cancelling an active task: the decision taken on the row before the batch is
   what the batch stores, is what re-reading the row decides, and says "release"
   exactly when the batch gives the reservation back.
   */
  lemma DecisionMatchesStore(s: Db, buyer: Tenant, id: nat, command: nat, token: nat, now: Time, strict: bool)
    requires CanCancel(s, buyer, id, command)
    ensures var n := CancelTask(s, buyer, id, command, token, now);
            var d := Decide(s.tasks[id].status, strict);
            && d.Decided? && id in n.tasks
            && n.tasks[id].status == d.decision.persisted && n.tasks[id].cancelAt == Some(now)
            && Project(n.tasks[id].status, true) == d.decision.public
            && Decide(n.tasks[id].status, strict) == d
            && Held(n, buyer) == Held(s, buyer) - (if d.decision.release then s.tasks[id].reserved else 0)
  {
    var n := CancelTask(s, buyer, id, command, token, now);
    CancelledRowTotals(s, n, id, CancelRow(s.tasks[id], now));
  }

  /** The decision on a row whose cancellation was requested is what the row already says. */
  predicate Reported(s: Db, id: nat, strict: bool)
    requires id in s.tasks
  {
    var t := s.tasks[id];
    var d := Decide(t.status, strict);
    && d.Decided? && d.decision.persisted == t.status && d.decision.public == Project(t.status, true)
    && (d.decision.release <==> !TaskActive(t))
    && (d.decision.release <==> id !in ReservedTaskColumn(s, t.buyer))
  }

  lemma RowIsReported(s: Db, id: nat, strict: bool)
    requires id in s.tasks && TaskOk(s.tasks[id]) && s.tasks[id].cancelAt.Some?
    ensures Reported(s, id, strict)
  {
  }

  /** In every reachable state a cancellation in progress is reported, and released, exactly as stored. */
  lemma ReportedAsStored(steps: seq<Step>, id: nat, strict: bool)
    ensures var s := Run(EMPTY, steps); id in s.tasks && s.tasks[id].cancelAt.Some? ==> Reported(s, id, strict)
  {
    var s := Run(EMPTY, steps);
    EveryRunIsSafe(steps);
    if id in s.tasks && s.tasks[id].cancelAt.Some? {
      assert TaskOk(s.tasks[id]);
      RowIsReported(s, id, strict);
    }
  }

  // --------------------------------------------------- what a refusal means

  /** Taking a cancellation target and recording the request are one step. */
  lemma TaskStepTargets(s: Db, n: Db, e: TaskStep, t: Tenant, i: nat)
    requires n == ApplyTask(s, e) && CancelTargetKey(t, i) in n.keys && CancelTargetKey(t, i) !in s.keys
    ensures i in n.tasks && n.tasks[i].cancelAt.Some?
  {
    match e {
      case CancelStep(buyer, id, command, token, now) =>
      case CheckpointStep(_, _, _, _) =>
      case SettleTaskStep(_, _, _, _, _, _) =>
      case _ =>
    }
  }

  lemma ReviewTargets(s: Db, id: nat, u: Tenant, command: nat, b: Resource, token: nat, t: Tenant, i: nat)
    requires CancelTargetKey(t, i) in ClaimReview(s, id, u, command, b, token).keys
    ensures CancelTargetKey(t, i) in s.keys
  {
  }
  lemma RevokeTargets(s: Db, n: Db, id: nat, u: Tenant, rev: nat, v: nat, command: nat, reason: string, token: nat, now: Time, t: Tenant, i: nat)
    requires n == RevokeAuth(s, id, u, rev, v, command, reason, token, now) && CancelTargetKey(t, i) in n.keys
    ensures CancelTargetKey(t, i) in s.keys
  {
  }
  lemma RotateTargets(s: Db, n: Db, e: AuthStep, t: Tenant, i: nat)
    requires e.RotateStep? && n == ApplyAuth(s, e) && CancelTargetKey(t, i) in n.keys
    ensures CancelTargetKey(t, i) in s.keys
  {
  }
  lemma ApproveTargets(s: Db, n: Db, id: nat, u: Tenant, command: nat, token: nat, ls: set<Lookup>, legacy: string, v: nat, next: nat, now: Time,
                       t: Tenant, i: nat)
    requires n == ApproveAuth(s, id, u, command, token, ls, legacy, v, next, now) && CancelTargetKey(t, i) in n.keys
    ensures CancelTargetKey(t, i) in s.keys
  {
    var c := ClaimReview(s, id, u, command, ReviewBinding(id, APPROVE), token);
    if CancelTargetKey(t, i) in c.keys { ReviewTargets(s, id, u, command, ReviewBinding(id, APPROVE), token, t, i); }
    assert n.keys == s.keys || n.keys == c.keys;
  }

  lemma AuthStepTargets(s: Db, n: Db, e: AuthStep, t: Tenant, i: nat)
    requires n == ApplyAuth(s, e) && CancelTargetKey(t, i) in n.keys
    ensures CancelTargetKey(t, i) in s.keys
  {
    match e {
      case ApproveStep(id, u, command, token, ls, legacy, v, next, now) => ApproveTargets(s, n, id, u, command, token, ls, legacy, v, next, now, t, i);
      case RevokeStep(id, u, rev, v, command, reason, token, now) => RevokeTargets(s, n, id, u, rev, v, command, reason, token, now, t, i);
      case RotateStep(_, _, _, _, _, _, _, _, _, _, _, _, _) => RotateTargets(s, n, e, t, i);
      case _ =>
    }
  }

  lemma JobStepTargets(s: Db, e: JobStep)
    ensures ApplyJob(s, e).keys == s.keys
  {
  }

  /** A taken cancellation target always has its request on record: unlike a review claim it is never orphaned. */
  lemma {:induction false} TargetsStayOnRecord(s: Db, steps: seq<Step>, t: Tenant, i: nat)
    requires Inv(s) && (CancelTargetKey(t, i) in s.keys ==> i in s.tasks && s.tasks[i].cancelAt.Some?)
    ensures var n := Run(s, steps); CancelTargetKey(t, i) in n.keys ==> i in n.tasks && n.tasks[i].cancelAt.Some?
    decreases |steps|
  {
    if steps != [] {
      var n := Apply(s, steps[0]);
      StepKeeps(s, steps[0]);
      TargetStaysOnRecord(s, n, steps[0], t, i);
      TargetsStayOnRecord(n, steps[1..], t, i);
    }
  }

  lemma TargetStaysOnRecord(s: Db, n: Db, e: Step, t: Tenant, i: nat)
    requires Inv(s) && n == Apply(s, e) && (CancelTargetKey(t, i) in s.keys ==> i in s.tasks && s.tasks[i].cancelAt.Some?)
    ensures CancelTargetKey(t, i) in n.keys ==> i in n.tasks && n.tasks[i].cancelAt.Some?
  {
    if CancelTargetKey(t, i) in n.keys && CancelTargetKey(t, i) in s.keys {
      StepEvolves(s, e);
      assert TaskEvolves(s.tasks[i], n.tasks[i]);
    } else if CancelTargetKey(t, i) in n.keys {
      match e
      case OnJob(j) => JobStepTargets(s, j);
      case OnTask(k) => TaskStepTargets(s, n, k, t, i);
      case OnAuth(a) => AuthStepTargets(s, n, a, t, i);
    }
  }

  /** The buyer's next free command, once bound, cancels the task. */
  ghost predicate Cancellable(s: Db, i: nat)
    requires i in s.tasks
  {
    var buyer := s.tasks[i].buyer;
    forall command :: CancelCommandKey(buyer, command) !in s.keys ==>
      CanCancel(BindCancel(s, buyer, i, command), buyer, i, command)
  }

  lemma FreeTargetIsCancellable(s: Db, i: nat)
    requires i in s.tasks && TaskActive(s.tasks[i]) && s.tasks[i].cancelAt.None? && CancelTargetKey(s.tasks[i].buyer, i) !in s.keys
    ensures Cancellable(s, i)
  {
  }

  /** In every reachable state, active work that nobody has asked to cancel can be cancelled by its buyer. */
  lemma ActiveWorkIsCancellable(steps: seq<Step>, i: nat)
    ensures var s := Run(EMPTY, steps);
            i in s.tasks && TaskActive(s.tasks[i]) && s.tasks[i].cancelAt.None? ==> Cancellable(s, i)
  {
    var s := Run(EMPTY, steps);
    if i in s.tasks && TaskActive(s.tasks[i]) && s.tasks[i].cancelAt.None? {
      EmptyDatabase();
      TargetsStayOnRecord(EMPTY, steps, s.tasks[i].buyer, i);
      FreeTargetIsCancellable(s, i);
    }
  }

  /** What is refused is beyond reach: the row never changes again and no cancellation of it can succeed. */
  lemma RefusedIsBeyondReach(before: seq<Step>, after: seq<Step>, i: nat, strict: bool)
    ensures var s := Run(EMPTY, before);
            var n := Run(EMPTY, before + after);
            i in s.tasks && Decide(s.tasks[i].status, strict).Refused? ==>
              && i in n.tasks && n.tasks[i] == s.tasks[i]
              && forall t, command :: !CanCancel(n, t, i, command)
  {
    FinishedTasksAreFrozen(before, after, i);
  }
}
