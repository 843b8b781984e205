/** Leases: who may change a leased task, and how far its progress may move. */
module MarketLeases {
  import opened Totals
  import opened MarketTables
  import opened MarketSteps
  import opened MarketInvariants
  import opened MarketRuns
  import opened MarketEveryRun
  import opened MarketLifecycles
  import opened MarketHistory

  predicate SameProgress(a: Task, b: Task) {
    && b.segments == a.segments && b.totalSegments == a.totalSegments && b.bytes == a.bytes
    && b.usage == a.usage && b.charge == a.charge && (b.status == Completed <==> a.status == Completed)
  }

  predicate ProgressGrows(a: Task, b: Task) {
    && a.segments <= b.segments && a.bytes <= b.bytes
    && InputTokens(a.usage) <= InputTokens(b.usage) && OutputTokens(a.usage) <= OutputTokens(b.usage)
    && TotalTokens(a.usage) <= TotalTokens(b.usage)
    && b.deadline == a.deadline
  }

  /** The lease digest a step presents for task i, if it presents one. */
  function Presents(e: Step, i: nat): Option<nat> {
    match e
    case OnTask(CheckpointStep(r, _, _, _)) => if r.task == i then Some(r.digest) else None
    case OnTask(SettleTaskStep(r, _, _, _, _, _)) => if r.task == i then Some(r.digest) else None
    case OnTask(FailTaskStep(r, _, _, _)) => if r.task == i then Some(r.digest) else None
    case _ => None
  }

  predicate Allowed(a: Task, b: Task, presented: Option<nat>) {
    && (Leased(a) && !SameProgress(a, b) ==> presented.Some? && presented == a.lease)
    && (b.lease.Some? && b.lease == a.lease ==> ProgressGrows(a, b))
  }

  lemma RevokeAllowed(a: Task, id: nat, now: Time) ensures Allowed(a, RevokeTaskRow(a, id, now), None) {}
  lemma StayAllowed(a: Task, presented: Option<nat>) ensures Allowed(a, a, presented) {}

  lemma RevokeTouches(s: Db, n: Db, id: nat, t: Tenant, rev: nat, v: nat, command: nat, reason: string, token: nat, now: Time)
    requires n == RevokeAuth(s, id, t, rev, v, command, reason, token, now)
    ensures n.grants == s.grants && (n.tasks == s.tasks || n.tasks == RevokedTasks(s.tasks, id, now))
  {
  }

  /** Among authorization steps, only a revocation reaches the task table; none reaches the grants. */
  lemma AuthStepTouches(s: Db, n: Db, e: AuthStep)
    requires n == ApplyAuth(s, e)
    ensures n.grants == s.grants
    ensures n.tasks == s.tasks || (e.RevokeStep? && n.tasks == RevokedTasks(s.tasks, e.id, e.now))
  {
    match e
    case RevokeStep(id, t, rev, v, command, reason, token, now) =>
      RevokeTouches(s, n, id, t, rev, v, command, reason, token, now);
    case _ =>
  }

  lemma AuthStepAllowed(s: Db, e: AuthStep, i: nat)
    requires i in s.tasks
    ensures i in ApplyAuth(s, e).tasks && Allowed(s.tasks[i], ApplyAuth(s, e).tasks[i], None)
  {
    var n := ApplyAuth(s, e);
    StayAllowed(s.tasks[i], None);
    if e.RevokeStep? {
      RevokeAllowed(s.tasks[i], e.id, e.now);
    }
    AuthStepTouches(s, n, e);
  }

  lemma JobStepAllowed(s: Db, e: JobStep, i: nat)
    requires i in s.tasks
    ensures i in ApplyJob(s, e).tasks && Allowed(s.tasks[i], ApplyJob(s, e).tasks[i], None)
  {
    assert ApplyJob(s, e).tasks == s.tasks;
  }

  lemma CancelAllowed(a: Task, now: Time) ensures Allowed(a, CancelRow(a, now), None) {}
  lemma SweepAllowed(a: Task, now: Time) ensures Allowed(a, SweepRow(a, now), None) {}
  lemma ExpireAllowed(a: Task, p: Tenant, now: Time) ensures Allowed(a, ExpireRow(a, p, now), None) {}
  lemma ObserveAllowed(a: Task, p: Tenant, d: nat, now: Time) ensures Allowed(a, ObserveRow(a, p, d, now), None) {}
  lemma ClaimAllowed(a: Task, w: nat, d: nat, resume: nat, clock: Time)
    requires TaskOk(a) && a.status == Queued ensures Allowed(a, ClaimRow(a, w, d, resume, clock), None) {}

  lemma ClaimStepAllowed(s: Db, e: TaskStep, i: nat)
    requires i in s.tasks && TaskOk(s.tasks[i]) && e.ClaimStep?
    ensures i in ApplyTask(s, e).tasks && Allowed(s.tasks[i], ApplyTask(s, e).tasks[i], None)
  {
    if CanClaim(s, e.id, e.t, e.revision, e.digest, e.now) && i == e.id {
      ClaimAllowed(s.tasks[i], e.worker, e.digest, e.resume, e.clock);
    } else {
      StayAllowed(s.tasks[i], None);
    }
  }

  lemma FailRowAllowed(a: Task, retry: bool, now: Time) ensures Allowed(a, FailTaskRow(a, retry, now), a.lease) {}

  lemma ObserveStepAllowed(s: Db, id: nat, p: Tenant, d: nat, now: Time, i: nat)
    requires i in s.tasks
    ensures var n := ObserveCancellation(s, id, p, d, now); i in n.tasks && Allowed(s.tasks[i], n.tasks[i], None)
  {
    if id == i { ObserveAllowed(s.tasks[i], p, d, now); } else { StayAllowed(s.tasks[i], None); }
  }
  lemma CancelStepAllowed(s: Db, t: Tenant, id: nat, command: nat, token: nat, now: Time, i: nat)
    requires i in s.tasks
    ensures var n := CancelTask(s, t, id, command, token, now); i in n.tasks && Allowed(s.tasks[i], n.tasks[i], None)
  {
    if CanCancel(s, t, id, command) && id == i { CancelAllowed(s.tasks[i], now); } else { StayAllowed(s.tasks[i], None); }
  }
  lemma PurgeCancelAllowed(s: Db, n: Db, t: Tenant, id: nat, now: Time, i: nat)
    requires i in s.tasks && n == PurgeCancel(s, t, id, now)
    ensures i in n.tasks && Allowed(s.tasks[i], n.tasks[i], None)
  {
    if id in s.tasks && s.tasks[id].buyer == t && s.tasks[id].status == Queued && s.tasks[id].cancelAt.None? {
      CancelAllowed(s.tasks[id], now);
      OneRowAllowed(s, n, id, CancelRow(s.tasks[id], now), None, i);
    } else {
      StayAllowed(s.tasks[i], None);
    }
  }

  lemma CheckpointAllowed(s: Db, r: LeaseRead, p: Progress, clock: Time, db: Time, i: nat)
    requires i in s.tasks
    ensures var n := CheckpointTask(s, r, p, clock, db);
            i in n.tasks && Allowed(s.tasks[i], n.tasks[i], if r.task == i then Some(r.digest) else None)
  {
  }
  lemma SettleAllowed(s: Db, r: LeaseRead, u: Usage, bps: nat, d: nat, now: Time, db: Time, i: nat)
    requires i in s.tasks
    ensures var n := SettleTask(s, r, u, bps, d, now, db);
            i in n.tasks && Allowed(s.tasks[i], n.tasks[i], if r.task == i then Some(r.digest) else None)
  {
  }
  lemma OneRowAllowed(s: Db, n: Db, id: nat, row: Task, presented: Option<nat>, i: nat)
    requires i in s.tasks && id in s.tasks && n.tasks == s.tasks[id := row] && Allowed(s.tasks[id], row, presented)
    ensures i in n.tasks && Allowed(s.tasks[i], n.tasks[i], if id == i then presented else None)
  {
    StayAllowed(s.tasks[i], None);
  }

  lemma FailAllowed(s: Db, n: Db, r: LeaseRead, retryable: bool, now: Time, db: Time, i: nat)
    requires i in s.tasks && n == FailTask(s, r, retryable, now, db)
    ensures i in n.tasks && Allowed(s.tasks[i], n.tasks[i], if r.task == i then Some(r.digest) else None)
  {
    if r in s.selected && r.task in s.tasks && HoldsLease(s.tasks[r.task], r.row.supplier, r.digest, db) {
      var row := FailTaskRow(s.tasks[r.task], retryable && r.row.attempt < MAXIMUM_ATTEMPTS, now);
      FailRowAllowed(s.tasks[r.task], retryable && r.row.attempt < MAXIMUM_ATTEMPTS, now);
      OneRowAllowed(s, n, r.task, row, Some(r.digest), i);
    } else {
      StayAllowed(s.tasks[i], if r.task == i then Some(r.digest) else None);
    }
  }

  predicate ByWorker(e: TaskStep) { e.CheckpointStep? || e.SettleTaskStep? || e.FailTaskStep? }

  lemma WorkerStepAllowed(s: Db, e: TaskStep, i: nat)
    requires i in s.tasks && ByWorker(e)
    ensures i in ApplyTask(s, e).tasks && Allowed(s.tasks[i], ApplyTask(s, e).tasks[i], Presents(OnTask(e), i))
  {
    match e
    case CheckpointStep(r, p, clock, db) => CheckpointAllowed(s, r, p, clock, db, i);
    case SettleTaskStep(r, u, bps, d, now, db) => SettleAllowed(s, r, u, bps, d, now, db, i);
    case FailTaskStep(r, retryable, now, db) => FailAllowed(s, ApplyTask(s, e), r, retryable, now, db, i);
  }

  lemma ReserveAllowed(s: Db, n: Db, id: nat, t: Tenant, a: nat, o: nat, rev: nat, idem: nat, tokens: nat, now: Time, i: nat)
    requires i in s.tasks && n == ReserveTask(s, id, t, a, o, rev, idem, tokens, now)
    ensures i in n.tasks && n.tasks[i] == s.tasks[i]
  {
  }
  lemma ReadingTouchesNoTask(s: Db, n: Db, e: TaskStep)
    requires n == ApplyTask(s, e) && (e.ReadLeaseStep? || e.BindCancelStep? || e.PutArtifactStep?)
    ensures n.tasks == s.tasks
  {
  }

  lemma OtherStepAllowed(s: Db, e: TaskStep, i: nat)
    requires i in s.tasks && TaskOk(s.tasks[i]) && !ByWorker(e)
    ensures i in ApplyTask(s, e).tasks && Allowed(s.tasks[i], ApplyTask(s, e).tasks[i], None)
  {
    match e
    case ClaimStep(_, _, _, _, _, _, _, _) => ClaimStepAllowed(s, e, i);
    case ReserveTaskStep(id, t, a, o, rev, idem, tokens, now) =>
      ReserveAllowed(s, ApplyTask(s, e), id, t, a, o, rev, idem, tokens, now, i);
      StayAllowed(s.tasks[i], None);
    case ObserveStep(id, p, d, now) => ObserveStepAllowed(s, id, p, d, now, i);
    case CancelStep(b, id, command, token, now) => CancelStepAllowed(s, b, id, command, token, now, i);
    case PurgeCancelStep(b, id, now) => PurgeCancelAllowed(s, ApplyTask(s, e), b, id, now, i);
    case ExpireLeasesStep(p, now) => ExpireAllowed(s.tasks[i], p, now);
    case SweepTasksStep(now) => SweepAllowed(s.tasks[i], now);
    case ReadLeaseStep(_, _, _, _) => ReadingTouchesNoTask(s, ApplyTask(s, e), e); StayAllowed(s.tasks[i], None);
    case BindCancelStep(_, _, _) => ReadingTouchesNoTask(s, ApplyTask(s, e), e); StayAllowed(s.tasks[i], None);
    case PutArtifactStep(_, _) => ReadingTouchesNoTask(s, ApplyTask(s, e), e); StayAllowed(s.tasks[i], None);
  }

  /**
   In every step, a leased task's progress or result changes only when the step
   presents that task's own live lease, and while one lease lasts progress and
   usage never decrease and the deadline does not move.
   */
  lemma OnlyTheLeaseHolderWrites(s: Db, e: Step, i: nat)
    requires Inv(s) && i in s.tasks
    ensures i in Apply(s, e).tasks && Allowed(s.tasks[i], Apply(s, e).tasks[i], Presents(e, i))
  {
    assert TaskOk(s.tasks[i]);
    match e
    case OnJob(j) => JobStepAllowed(s, j, i);
    case OnTask(t) => if ByWorker(t) { WorkerStepAllowed(s, t, i); } else { OtherStepAllowed(s, t, i); }
    case OnAuth(a) => AuthStepAllowed(s, a, i);
  }

  // ------------------------------------------------------ one lease, over time

  /** A lease that is lost never comes back. */
  lemma LeaseIsContinuous(s: Db, m: Db, n: Db, i: nat)
    requires Leases(s) && Leases(n) && Rows(s) && Rows(n) && LogsGrow(s, n) && TasksEvolve(s, m) && TasksEvolve(m, n)
    requires i in s.tasks && s.tasks[i].lease.Some? && i in n.tasks && n.tasks[i].lease == s.tasks[i].lease
    ensures i in m.tasks && m.tasks[i].lease == s.tasks[i].lease
  {
    assert LeaseOk(s, i) && LeaseOk(n, i) && TaskOk(s.tasks[i]) && TaskOk(n.tasks[i]);
    assert TaskEvolves(s.tasks[i], m.tasks[i]) && TaskEvolves(m.tasks[i], n.tasks[i]);
  }

  /** Within one lease, over any number of steps of anyone, progress and usage never decrease. */
  lemma {:induction false} ProgressNeverDecreases(s: Db, steps: seq<Step>, i: nat)
    requires Inv(s) && i in s.tasks && s.tasks[i].lease.Some?
    ensures var n := Run(s, steps);
            i in n.tasks && (n.tasks[i].lease == s.tasks[i].lease ==> ProgressGrows(s.tasks[i], n.tasks[i]))
    decreases |steps|
  {
    var n := Run(s, steps);
    RunEvolves(s, steps);
    if steps != [] && n.tasks[i].lease == s.tasks[i].lease {
      var m := Apply(s, steps[0]);
      StepKeeps(s, steps[0]);
      StepEvolves(s, steps[0]);
      RunEvolves(m, steps[1..]);
      RunKeeps(s, steps);
      LeaseIsContinuous(s, m, n, i);
      OnlyTheLeaseHolderWrites(s, steps[0], i);
      ProgressNeverDecreases(m, steps[1..], i);
    }
  }

  /** At three moments of any run: a lease held first and last was held in between. */
  lemma LostLeasesStayLost(a: seq<Step>, b: seq<Step>, c: seq<Step>, i: nat)
    ensures var s := Run(EMPTY, a);
            var m := Run(s, b);
            var n := Run(m, c);
            i in s.tasks && s.tasks[i].lease.Some? && i in n.tasks && n.tasks[i].lease == s.tasks[i].lease ==>
              i in m.tasks && m.tasks[i].lease == s.tasks[i].lease
  {
    var s := Run(EMPTY, a);
    EveryRunIsSafe(a);
    if i in s.tasks && s.tasks[i].lease.Some? { LostLease(s, b, c, i); }
  }

  lemma LostLease(s: Db, b: seq<Step>, c: seq<Step>, i: nat)
    requires Inv(s) && i in s.tasks && s.tasks[i].lease.Some?
    ensures var m := Run(s, b);
            var n := Run(m, c);
            i in n.tasks && n.tasks[i].lease == s.tasks[i].lease ==> i in m.tasks && m.tasks[i].lease == s.tasks[i].lease
  {
    var m := Run(s, b);
    var n := Run(m, c);
    RunKeeps(s, b);
    RunKeeps(m, c);
    RunEvolves(s, b);
    RunEvolves(m, c);
    EvolvesComposes(s, m, n);
    if i in n.tasks && n.tasks[i].lease == s.tasks[i].lease { LeaseIsContinuous(s, m, n, i); }
  }

  /** Over runs: whoever writes a leased task's progress or result presents its live lease. */
  lemma EveryWriterHoldsTheLease(steps: seq<Step>, e: Step, i: nat)
    ensures var s := Run(EMPTY, steps);
            i in s.tasks ==> i in Apply(s, e).tasks && Allowed(s.tasks[i], Apply(s, e).tasks[i], Presents(e, i))
  {
    EveryRunIsSafe(steps);
    if i in Run(EMPTY, steps).tasks { OnlyTheLeaseHolderWrites(Run(EMPTY, steps), e, i); }
  }

  lemma LeaseProgressIsMonotone(before: seq<Step>, after: seq<Step>, i: nat)
    ensures var s := Run(EMPTY, before);
            var n := Run(s, after);
            i in s.tasks && s.tasks[i].lease.Some? ==>
              i in n.tasks && (n.tasks[i].lease == s.tasks[i].lease ==> ProgressGrows(s.tasks[i], n.tasks[i]))
  {
    var s := Run(EMPTY, before);
    EveryRunIsSafe(before);
    if i in s.tasks && s.tasks[i].lease.Some? { ProgressNeverDecreases(s, after, i); }
  }

  // ------------------------------------------------------------ grants in order

  predicate SameGrant(s: Db, d: nat, e: nat)
    requires d in s.grants && e in s.grants
  {
    s.grants[d].task == s.grants[e].task && s.grants[d].attempt == s.grants[e].attempt
  }

  /** No two grants of a task share an attempt number. */
  ghost predicate OneGrantPerAttempt(s: Db) {
    forall d, e :: d in s.grants && e in s.grants && SameGrant(s, d, e) ==> d == e
  }

  lemma OnlyClaimsGrant(s: Db, e: TaskStep)
    requires !e.ClaimStep?
    ensures ApplyTask(s, e).grants == s.grants
  {
    match e {
      case CheckpointStep(_, _, _, _) =>
      case SettleTaskStep(_, _, _, _, _, _) =>
      case CancelStep(_, _, _, _, _) =>
      case _ =>
    }
  }

  lemma ClaimKeepsAttempts(s: Db, n: Db, i: nat, d: nat, g: Grant)
    requires Leases(s) && OneGrantPerAttempt(s) && d !in s.grants && n.grants == s.grants[d := g]
    requires g.task == i && i in s.tasks && g.attempt == s.tasks[i].attempt + 1
    ensures OneGrantPerAttempt(n)
  {
    forall x, y | x in n.grants && y in n.grants && SameGrant(n, x, y) ensures x == y {
      if x != d { assert GrantOk(s, x); }
      if y != d { assert GrantOk(s, y); }
      if x != d && y != d { assert SameGrant(s, x, y); }
    }
  }

  lemma SameGrantsKeepAttempts(s: Db, n: Db)
    requires OneGrantPerAttempt(s) && n.grants == s.grants
    ensures OneGrantPerAttempt(n)
  {
    forall x, y | x in n.grants && y in n.grants && SameGrant(n, x, y) ensures x == y {
      assert SameGrant(s, x, y);
    }
  }

  lemma JobStepGrants(s: Db, e: JobStep) ensures ApplyJob(s, e).grants == s.grants {}
  lemma ClaimStepKeepsAttempts(s: Db, n: Db, id: nat, t: Tenant, w: nat, rev: nat, d: nat, resume: nat, now: Time, clock: Time)
    requires Leases(s) && OneGrantPerAttempt(s) && n == ClaimTask(s, id, t, w, rev, d, resume, now, clock)
    ensures OneGrantPerAttempt(n)
  {
    if CanClaim(s, id, t, rev, d, now) { ClaimKeepsAttempts(s, n, id, d, n.grants[d]); }
  }

  lemma TaskStepKeepsAttempts(s: Db, e: TaskStep)
    requires Leases(s) && OneGrantPerAttempt(s)
    ensures OneGrantPerAttempt(ApplyTask(s, e))
  {
    if e.ClaimStep? {
      ClaimStepKeepsAttempts(s, ApplyTask(s, e), e.id, e.t, e.worker, e.revision, e.digest, e.resume, e.now, e.clock);
    } else {
      OnlyClaimsGrant(s, e);
      SameGrantsKeepAttempts(s, ApplyTask(s, e));
    }
  }

  lemma StepKeepsAttempts(s: Db, e: Step)
    requires Leases(s) && OneGrantPerAttempt(s)
    ensures OneGrantPerAttempt(Apply(s, e))
  {
    match e
    case OnJob(j) => JobStepGrants(s, j); SameGrantsKeepAttempts(s, ApplyJob(s, j));
    case OnAuth(a) => AuthStepTouches(s, ApplyAuth(s, a), a); SameGrantsKeepAttempts(s, ApplyAuth(s, a));
    case OnTask(t) => TaskStepKeepsAttempts(s, t);
  }

  lemma {:induction false} AttemptsAreDistinct(s: Db, steps: seq<Step>)
    requires Inv(s) && OneGrantPerAttempt(s)
    ensures OneGrantPerAttempt(Run(s, steps))
    decreases |steps|
  {
    if steps != [] {
      StepKeeps(s, steps[0]);
      StepKeepsAttempts(s, steps[0]);
      AttemptsAreDistinct(Apply(s, steps[0]), steps[1..]);
    }
  }

  /** The live lease is strictly newer than every other lease its task was ever granted. */
  lemma LiveLeaseIsNewest(steps: seq<Step>, i: nat, d: nat)
    ensures var s := Run(EMPTY, steps);
            i in s.tasks && Leased(s.tasks[i]) && d in s.grants && s.grants[d].task == i && Some(d) != s.tasks[i].lease ==>
              s.grants[d].attempt < s.tasks[i].attempt
  {
    var s := Run(EMPTY, steps);
    EveryRunIsSafe(steps);
    EmptyDatabase();
    AttemptsAreDistinct(EMPTY, steps);
    if i in s.tasks && d in s.grants && s.grants[d].task == i { NewestLease(s, i, d); }
  }

  lemma NewestLease(s: Db, i: nat, d: nat)
    requires Rows(s) && Leases(s) && OneGrantPerAttempt(s) && i in s.tasks && d in s.grants && s.grants[d].task == i
    ensures Leased(s.tasks[i]) && Some(d) != s.tasks[i].lease ==> s.grants[d].attempt < s.tasks[i].attempt
  {
    assert TaskOk(s.tasks[i]) && LeaseOk(s, i) && GrantOk(s, d);
    if Leased(s.tasks[i]) && s.grants[d].attempt == s.tasks[i].attempt {
      assert SameGrant(s, d, s.tasks[i].lease.value);
    }
  }

  /** A task is claimed at most MAXIMUM_ATTEMPTS times, and no lease outlives its execution deadline. */
  lemma AttemptsAndDeadlinesAreBounded(steps: seq<Step>, i: nat)
    ensures var s := Run(EMPTY, steps);
            && 0 <= TimesClaimed(s, i) <= MAXIMUM_ATTEMPTS
            && (i in s.tasks && Leased(s.tasks[i]) ==>
                  && s.tasks[i].leaseUntil.Some? && s.tasks[i].deadline.Some?
                  && s.tasks[i].leaseUntil.value <= s.tasks[i].deadline.value)
  {
    var s := Run(EMPTY, steps);
    EveryRunIsSafe(steps);
    if i in s.tasks { assert TaskOk(s.tasks[i]); }
  }

  /** Completed means all of it: every byte, every segment, within the token budget. */
  lemma CompletedMeansAllOfIt(steps: seq<Step>, i: nat)
    ensures var s := Run(EMPTY, steps);
            i in s.tasks && s.tasks[i].status == Completed ==>
              && s.tasks[i].artifact in s.artifacts && s.tasks[i].bytes == s.artifacts[s.tasks[i].artifact].size
              && 1 <= s.tasks[i].segments && s.tasks[i].totalSegments == Some(s.tasks[i].segments)
              && s.tasks[i].usage.Some? && s.tasks[i].usage.value.total <= s.tasks[i].maxTotal
  {
    var s := Run(EMPTY, steps);
    EveryRunIsSafe(steps);
    if i in s.tasks { assert TaskOk(s.tasks[i]) && TaskRefs(s, s.tasks[i]); }
  }
}
