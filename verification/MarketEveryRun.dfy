/** Every step, hence every run from the empty database, keeps the invariants. */
module MarketEveryRun {
  import opened Totals
  import opened MarketTables
  import opened MarketSteps
  import opened MarketInvariants
  import opened MarketSafety
  import opened MarketRuns
  import opened MarketAuths

  // ------------------------------------------------------------------- jobs

  lemma ReserveJobKeeps(s: Db, id: nat, t: Tenant, o: nat, revision: nat, idem: nat, tokens: nat, now: Time)
    requires Inv(s)
    ensures Inv(ReserveJob(s, id, t, o, revision, idem, tokens, now))
  {
    if CanReserveJob(s, id, t, o, revision, idem, tokens, now) {
      NewJobKeeps(s, ReserveJob(s, id, t, o, revision, idem, tokens, now), id, NewJob(s.offers[o], o, t, revision, idem, tokens, now));
    }
  }

  lemma OneJobRowKeeps(s: Db, n: Db, id: nat, row: Job)
    requires Inv(s) && id in s.jobs && n == s.(jobs := s.jobs[id := row]) && QuietJob(s.jobs[id], row)
    ensures Inv(n)
  {
    OneJobIsQuiet(s, n, id, row);
    QuietStep(s, n);
  }

  lemma StartJobKeeps(s: Db, id: nat, now: Time)
    requires Inv(s)
    ensures Inv(StartJob(s, id, now))
  {
    if id in s.jobs {
      StartRowQuiet(s.jobs[id], now);
      OneJobRowKeeps(s, StartJob(s, id, now), id, StartRow(s.jobs[id], now));
    }
  }

  lemma FailJobKeeps(s: Db, id: nat, now: Time)
    requires Inv(s)
    ensures Inv(FailJob(s, id, now))
  {
    if id in s.jobs {
      FailJobRowQuiet(s.jobs[id], now);
      OneJobRowKeeps(s, FailJob(s, id, now), id, FailJobRow(s.jobs[id], now));
    }
  }

  lemma ExpireJobsKeeps(s: Db, now: Time)
    requires Inv(s)
    ensures Inv(ExpireJobs(s, now))
  {
    ExpireJobsQuiet(s, now);
    QuietStep(s, ExpireJobs(s, now));
  }

  lemma SettledJobRow(s: Db, id: nat, charge: nat, now: Time)
    requires Rows(s) && id in s.jobs && s.jobs[id].status == JobRunning && charge <= s.jobs[id].reserved
    ensures JobOk(SettleJobRow(s.jobs[id], charge, now)) && JobRefs(s, SettleJobRow(s.jobs[id], charge, now))
  {
    assert JobRefs(s, s.jobs[id]);
  }

  lemma SettleJobStepKeeps(s: Db, id: nat, tokens: nat, feeBps: nat, digest: nat, now: Time, dbNow: Time)
    requires Inv(s)
    ensures Inv(SettleJob(s, id, tokens, feeBps, digest, now, dbNow))
  {
    if CanSettleJob(s, id, tokens, feeBps, dbNow) {
      var e := Settlement(digest, tokens, s.offers[s.jobs[id].offer].price, feeBps);
      SettledJobRow(s, id, e.charge, now);
      SettleJobKeeps(s, SettleJob(s, id, tokens, feeBps, digest, now, dbNow), id, SettleJobRow(s.jobs[id], e.charge, now), e);
    }
  }

  // ------------------------------------------------------------------ tasks

  lemma ReserveTaskKeeps(s: Db, id: nat, t: Tenant, a: nat, o: nat, revision: nat, idem: nat, tokens: nat, now: Time)
    requires Inv(s)
    ensures Inv(ReserveTask(s, id, t, a, o, revision, idem, tokens, now))
  {
    if CanReserveTask(s, id, t, a, o, revision, idem, tokens, now) {
      NewTaskKeeps(s, ReserveTask(s, id, t, a, o, revision, idem, tokens, now), id, NewTask(s.offers[o], o, t, a, revision, idem, tokens, now));
    }
  }

  lemma ObserveKeeps(s: Db, id: nat, t: Tenant, digest: nat, now: Time)
    requires Inv(s)
    ensures Inv(ObserveCancellation(s, id, t, digest, now))
  {
    if id in s.tasks {
      var n := ObserveCancellation(s, id, t, digest, now);
      assert TaskOk(s.tasks[id]);
      ObserveRowQuiet(s.tasks[id], t, digest, now);
      OneTaskIsQuiet(s, n, id, ObserveRow(s.tasks[id], t, digest, now));
      QuietStep(s, n);
    }
  }

  lemma ClaimedRow(s: Db, id: nat, worker: nat, digest: nat, resume: nat, clock: Time)
    requires Rows(s) && id in s.tasks && s.tasks[id].status == Queued
    requires s.tasks[id].auth in s.auths && s.auths[s.tasks[id].auth].status == Approved
    ensures var row := ClaimRow(s.tasks[id], worker, digest, resume, clock);
            TaskOk(row) && TaskRefs(s, row) && Wound(s, row) && SameDeal(s.tasks[id], row)
  {
    assert TaskOk(s.tasks[id]) && TaskRefs(s, s.tasks[id]);
  }

  lemma ClaimStepKeeps(s: Db, id: nat, t: Tenant, w: nat, revision: nat, digest: nat, resume: nat, now: Time, clock: Time)
    requires Inv(s)
    ensures Inv(ClaimTask(s, id, t, w, revision, digest, resume, now, clock))
  {
    if CanClaim(s, id, t, revision, digest, now) {
      ClaimedRow(s, id, w, digest, resume, clock);
      ClaimKeeps(s, ClaimTask(s, id, t, w, revision, digest, resume, now, clock), id, ClaimRow(s.tasks[id], w, digest, resume, clock), digest);
    }
  }

  lemma CheckpointKeeps(s: Db, r: LeaseRead, p: Progress, clock: Time, dbNow: Time)
    requires Inv(s)
    ensures Inv(CheckpointTask(s, r, p, clock, dbNow))
  {
    CheckpointQuiet(s, r, p, clock, dbNow);
    QuietStep(s, CheckpointTask(s, r, p, clock, dbNow));
  }

  /** The settled row: the gate repeats every progress field of the row that was read. */
  lemma SettledTaskRow(s: Db, r: LeaseRead, u: Usage, feeBps: nat, charge: nat, now: Time, dbNow: Time)
    requires Rows(s) && Leases(s) && CompletionAccepted(s, r, u) && TaskGate(s, r, charge, dbNow)
    ensures r.task in s.tasks && s.tasks[r.task].offer == r.row.offer && SameDeal(r.row, s.tasks[r.task])
    ensures var row := SettleTaskRow(s.tasks[r.task], u, charge, now); TaskOk(row) && TaskRefs(s, row)
  {
    LeaseIdentity(s, r);
    assert TaskOk(s.tasks[r.task]) && TaskRefs(s, s.tasks[r.task]);
  }

  lemma SettleTaskStepKeeps(s: Db, r: LeaseRead, u: Usage, feeBps: nat, digest: nat, now: Time, dbNow: Time)
    requires Inv(s)
    ensures Inv(SettleTask(s, r, u, feeBps, digest, now, dbNow))
  {
    if CanSettleTask(s, r, u, feeBps, dbNow) {
      var e := Settlement(digest, u.total, s.offers[r.row.offer].price, feeBps);
      SettledTaskRow(s, r, u, feeBps, e.charge, now, dbNow);
      SettleTaskKeeps(s, SettleTask(s, r, u, feeBps, digest, now, dbNow), r.task, SettleTaskRow(s.tasks[r.task], u, e.charge, now), e);
    }
  }

  lemma FailTaskKeeps(s: Db, r: LeaseRead, retryable: bool, now: Time, dbNow: Time)
    requires Inv(s)
    ensures Inv(FailTask(s, r, retryable, now, dbNow))
  {
    FailTaskQuiet(s, r, retryable, now, dbNow);
    QuietStep(s, FailTask(s, r, retryable, now, dbNow));
  }

  lemma ExpireLeasesKeeps(s: Db, t: Tenant, now: Time)
    requires Inv(s)
    ensures Inv(ExpireLeases(s, t, now))
  {
    ExpireLeasesQuiet(s, t, now);
    QuietStep(s, ExpireLeases(s, t, now));
  }

  lemma SweepTasksKeeps(s: Db, now: Time)
    requires Inv(s)
    ensures Inv(SweepTasks(s, now))
  {
    SweepTasksQuiet(s, now);
    QuietStep(s, SweepTasks(s, now));
  }

  lemma BindCancelKeeps(s: Db, t: Tenant, id: nat, command: nat)
    requires Inv(s)
    ensures Inv(BindCancel(s, t, id, command))
  {
    KeysKeep(s, BindCancel(s, t, id, command));
  }

  lemma CancelKeeps(s: Db, t: Tenant, id: nat, command: nat, token: nat, now: Time)
    requires Inv(s)
    ensures Inv(CancelTask(s, t, id, command, token, now))
  {
    if CanCancel(s, t, id, command) {
      var n := CancelTask(s, t, id, command, token, now);
      CancelQuiet(s, n, id, now);
      QuietStep(s, n);
    }
  }

  lemma PurgeCancelKeeps(s: Db, t: Tenant, id: nat, now: Time)
    requires Inv(s)
    ensures Inv(PurgeCancel(s, t, id, now))
  {
    var n := PurgeCancel(s, t, id, now);
    if n != s {
      CancelQuiet(s, n, id, now);
      QuietStep(s, n);
    }
  }

  lemma PutArtifactStepKeeps(s: Db, id: nat, a: Artifact)
    requires Inv(s)
    ensures Inv(PutArtifact(s, id, a))
  {
    var n := PutArtifact(s, id, a);
    if n != s { PutArtifactKeeps(s, n, id, a); }
  }

  // --------------------------------------------------------- authorizations

  lemma SupplierKeeps(s: Db, n: Db)
    requires Inv(s) && n == s.(suppliers := n.suppliers)
    ensures Inv(n)
  {
    KeysKeep(s, n);
  }

  lemma RegisterKeeps(s: Db, t: Tenant)
    requires Inv(s)
    ensures Inv(Register(s, t))
  {
    SupplierKeeps(s, Register(s, t));
  }
  lemma SetSupplyKeeps(s: Db, t: Tenant, enabled: bool, now: Time)
    requires Inv(s)
    ensures Inv(SetSupply(s, t, enabled, now))
  {
    SupplierKeeps(s, SetSupply(s, t, enabled, now));
  }

  lemma ApproveStepKeeps(s: Db, id: nat, t: Tenant, command: nat, token: nat, ls: set<Lookup>, legacy: string, v: nat, next: nat, now: Time)
    requires Inv(s)
    ensures Inv(ApproveAuth(s, id, t, command, token, ls, legacy, v, next, now))
  {
    var n := ApproveAuth(s, id, t, command, token, ls, legacy, v, next, now);
    if CanClaimApproval(s, id, t, command, ls, legacy, now) {
      ApproveKeys(s, n, id, t, command, ReviewBinding(id, APPROVE), token);
      if VersionHolds(s, id, v) { ApproveKeeps(s, n, id, n.auths[id]); } else { KeysKeep(s, n); }
    }
  }

  lemma RevokeStepKeeps(s: Db, id: nat, t: Tenant, rev: nat, v: nat, command: nat, reason: string, token: nat, now: Time)
    requires Inv(s)
    ensures Inv(RevokeAuth(s, id, t, rev, v, command, reason, token, now))
  {
    var n := RevokeAuth(s, id, t, rev, v, command, reason, token, now);
    if n != s {
      RevokeShape(s, n, id, t, rev, v, command, reason, token, now);
      assert AuthOk(s.auths[id]);
      RevokedRow(s.auths[id]);
      ClaimMoves(s, n, id, t, Revoke, command, Binding(id, reason), token);
      RevokeKeeps(s, n, id, n.auths[id], now);
    }
  }

  lemma RewrapKeeps(s: Db, id: nat, prior: Sealed, sealed: Sealed)
    requires Inv(s)
    ensures Inv(Rewrap(s, id, prior, sealed))
  {
    var n := Rewrap(s, id, prior, sealed);
    if n != s {
      assert AuthOk(s.auths[id]);
      RewrapRow(s.auths[id], prior, sealed);
      OneSweptAuthKeeps(s, n, id, n.auths[id]);
    }
  }

  lemma MigrateKeeps(s: Db, ls: set<Lookup>, legacy: string, l: Lookup)
    requires Inv(s)
    ensures Inv(MigrateLookups(s, ls, legacy, l))
  {
    var n := MigrateLookups(s, ls, legacy, l);
    MigrateRows(s, n, ls, legacy, l);
    SweptAuthsKeep(s, n);
  }

  lemma MaintainKeeps(s: Db, now: Time)
    requires Inv(s)
    ensures Inv(Maintain(s, now))
  {
    var n := Maintain(s, now);
    MaintainRows(s, n, now);
    SweptAuthsKeep(s, n);
  }

  lemma CreateOfferKeeps(s: Db, id: nat, o: Offer, revision: nat, version: nat, now: Time)
    requires Inv(s)
    ensures Inv(CreateOffer(s, id, o, revision, version, now))
  {
    var n := CreateOffer(s, id, o, revision, version, now);
    if n != s { NewOfferKeeps(s, n, id, o); }
  }

  // ------------------------------------------------------------- every step

  lemma JobStepKeeps(s: Db, e: JobStep)
    requires Inv(s)
    ensures Inv(ApplyJob(s, e))
  {
    match e
    case EnsureUserStep(t, amount) => EnsureUserKeeps(s, t, amount);
    case ReserveJobStep(id, t, o, rev, idem, tokens, now) => ReserveJobKeeps(s, id, t, o, rev, idem, tokens, now);
    case StartJobStep(id, now) => StartJobKeeps(s, id, now);
    case FailJobStep(id, now) => FailJobKeeps(s, id, now);
    case ExpireJobsStep(now) => ExpireJobsKeeps(s, now);
    case SettleJobStep(id, tokens, bps, d, now, db) => SettleJobStepKeeps(s, id, tokens, bps, d, now, db);
  }

  lemma TaskStepKeeps(s: Db, e: TaskStep)
    requires Inv(s)
    ensures Inv(ApplyTask(s, e))
  {
    match e
    case ReserveTaskStep(id, t, a, o, rev, idem, tokens, now) => ReserveTaskKeeps(s, id, t, a, o, rev, idem, tokens, now);
    case ReadLeaseStep(id, t, d, now) => ReadLeaseKeeps(s, id, t, d, now);
    case ObserveStep(id, t, d, now) => ObserveKeeps(s, id, t, d, now);
    case ClaimStep(id, t, w, rev, d, resume, now, clock) => ClaimStepKeeps(s, id, t, w, rev, d, resume, now, clock);
    case CheckpointStep(r, p, clock, db) => CheckpointKeeps(s, r, p, clock, db);
    case SettleTaskStep(r, u, bps, d, now, db) => SettleTaskStepKeeps(s, r, u, bps, d, now, db);
    case FailTaskStep(r, retryable, now, db) => FailTaskKeeps(s, r, retryable, now, db);
    case ExpireLeasesStep(t, now) => ExpireLeasesKeeps(s, t, now);
    case SweepTasksStep(now) => SweepTasksKeeps(s, now);
    case BindCancelStep(t, id, command) => BindCancelKeeps(s, t, id, command);
    case CancelStep(t, id, command, token, now) => CancelKeeps(s, t, id, command, token, now);
    case PurgeCancelStep(t, id, now) => PurgeCancelKeeps(s, t, id, now);
    case PutArtifactStep(id, a) => PutArtifactStepKeeps(s, id, a);
  }

  lemma AuthStepKeeps(s: Db, e: AuthStep)
    requires Inv(s)
    ensures Inv(ApplyAuth(s, e))
  {
    match e
    case RegisterStep(t) => RegisterKeeps(s, t);
    case SetSupplyStep(t, enabled, now) => SetSupplyKeeps(s, t, enabled, now);
    case SubmitStep(id, t, p, until, sealed, l, now) => SubmitKeeps(s, id, t, p, until, sealed, l, now);
    case RejectStep(id, t, command, token) => RejectKeeps(s, id, t, command, token);
    case ApproveStep(id, t, command, token, ls, legacy, v, next, now) => ApproveStepKeeps(s, id, t, command, token, ls, legacy, v, next, now);
    case WithdrawStep(id, t, rev, v, command, reason, token) => WithdrawKeeps(s, id, t, rev, v, command, reason, token);
    case RevokeStep(id, t, rev, v, command, reason, token, now) => RevokeStepKeeps(s, id, t, rev, v, command, reason, token, now);
    case RotateStep(id, t, rev, v, command, reason, token, prior, sealed, l, ls, legacy, now) =>
      RotateKeeps(s, ApplyAuth(s, e), id, t, rev, v, command, reason, token, prior, sealed, l, ls, legacy, now);
    case RewrapStep(id, prior, sealed) => RewrapKeeps(s, id, prior, sealed);
    case MigrateStep(ls, legacy, l) => MigrateKeeps(s, ls, legacy, l);
    case MaintainStep(now) => MaintainKeeps(s, now);
    case CreateOfferStep(id, o, rev, v, now) => CreateOfferKeeps(s, id, o, rev, v, now);
  }

  lemma StepKeeps(s: Db, e: Step)
    requires Inv(s)
    ensures Inv(Apply(s, e))
  {
    match e
    case OnJob(j) => JobStepKeeps(s, j);
    case OnTask(t) => TaskStepKeeps(s, t);
    case OnAuth(a) => AuthStepKeeps(s, a);
  }

  lemma {:induction false} RunKeeps(s: Db, steps: seq<Step>)
    requires Inv(s)
    ensures Inv(Run(s, steps))
    decreases |steps|
  {
    if steps != [] {
      StepKeeps(s, steps[0]);
      RunKeeps(Apply(s, steps[0]), steps[1..]);
    }
  }

  lemma EmptyDatabase()
    ensures Inv(EMPTY)
  {
    forall t ensures Available(EMPTY, t) == 0 && ActiveTasks(EMPTY, t) == 0 {
      assert BalanceColumn(EMPTY, t) == map[] && ReservedJobColumn(EMPTY, t) == map[]
          && ReservedTaskColumn(EMPTY, t) == map[] && ActiveTaskColumn(EMPTY, t) == map[];
    }
    forall i ensures TimesClaimed(EMPTY, i) == 0 {
      assert ClaimColumn(EMPTY, i) == map[];
    }
    assert LedgerColumn(EMPTY) == map[] && IssuedColumn(EMPTY) == map[];
  }

  /** Every interleaving of every operation, from the empty database, keeps every invariant. */
  lemma EveryRunIsSafe(steps: seq<Step>)
    ensures Inv(Run(EMPTY, steps))
  {
    EmptyDatabase();
    RunKeeps(EMPTY, steps);
  }
}
