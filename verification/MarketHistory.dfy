/** Every step, hence any continuation of a run, moves existing rows forward along their lifecycles. */
module MarketHistory {
  import opened Totals
  import opened MarketTables
  import opened MarketSteps
  import opened MarketInvariants
  import opened MarketSafety
  import opened MarketRuns
  import opened MarketAuths
  import opened MarketEveryRun
  import opened MarketLifecycles

  // ------------------------------------------------------------ composition

  lemma RevokedStays(s: Db, n: Db, a: nat)
    requires AuthsEvolve(s, n)
    ensures RevokedIn(s, a) ==> RevokedIn(n, a)
  {
    assert a in s.auths ==> AuthEvolves(s.auths[a], n.auths[a]);
  }

  lemma JobsCompose(s: Db, m: Db, n: Db)
    requires JobsEvolve(s, m) && JobsEvolve(m, n) && AuthsEvolve(s, m)
    ensures JobsEvolve(s, n)
  {
    forall i | i in s.jobs ensures i in n.jobs && JobEvolves(s.jobs[i], n.jobs[i]) {
      assert JobEvolves(s.jobs[i], m.jobs[i]) && JobEvolves(m.jobs[i], n.jobs[i]);
    }
    forall i | i in n.jobs && i !in s.jobs ensures !RevokedIn(s, n.jobs[i].auth) {
      RevokedStays(s, m, n.jobs[i].auth);
      if i in m.jobs { assert JobEvolves(m.jobs[i], n.jobs[i]); }
    }
  }

  lemma TasksCompose(s: Db, m: Db, n: Db)
    requires TasksEvolve(s, m) && TasksEvolve(m, n) && AuthsEvolve(s, m)
    ensures TasksEvolve(s, n)
  {
    forall i | i in s.tasks ensures i in n.tasks && TaskEvolves(s.tasks[i], n.tasks[i]) {
      assert TaskEvolves(s.tasks[i], m.tasks[i]) && TaskEvolves(m.tasks[i], n.tasks[i]);
    }
    forall i | i in n.tasks && i !in s.tasks ensures !RevokedIn(s, n.tasks[i].auth) {
      RevokedStays(s, m, n.tasks[i].auth);
      if i in m.tasks { assert TaskEvolves(m.tasks[i], n.tasks[i]); }
    }
  }

  lemma AuthsCompose(s: Db, m: Db, n: Db)
    requires AuthsEvolve(s, m) && AuthsEvolve(m, n)
    ensures AuthsEvolve(s, n)
  {
    forall i | i in s.auths ensures i in n.auths && AuthEvolves(s.auths[i], n.auths[i]) {
      assert AuthEvolves(s.auths[i], m.auths[i]) && AuthEvolves(m.auths[i], n.auths[i]);
    }
  }

  lemma EvolvesComposes(s: Db, m: Db, n: Db)
    requires Evolves(s, m) && Evolves(m, n)
    ensures Evolves(s, n)
  {
    JobsCompose(s, m, n);
    TasksCompose(s, m, n);
    AuthsCompose(s, m, n);
  }

  // --------------------------------------------------------- building blocks

  lemma JobsStay(s: Db, n: Db) requires n.jobs == s.jobs ensures JobsEvolve(s, n) {}
  lemma TasksStay(s: Db, n: Db) requires n.tasks == s.tasks ensures TasksEvolve(s, n) {}
  lemma AuthsStay(s: Db, n: Db) requires n.auths == s.auths ensures AuthsEvolve(s, n) {}
  lemma LogsStay(s: Db, n: Db)
    requires n.ledger == s.ledger && n.evidence == s.evidence && n.keys == s.keys && n.grants == s.grants && n.offers == s.offers
    ensures LogsGrow(s, n) {}

  lemma OneJobEvolves(s: Db, n: Db, id: nat, row: Job)
    requires n.jobs == s.jobs[id := row]
    requires if id in s.jobs then JobEvolves(s.jobs[id], row) else !RevokedIn(s, row.auth)
    ensures JobsEvolve(s, n) {}
  lemma OneTaskEvolves(s: Db, n: Db, id: nat, row: Task)
    requires n.tasks == s.tasks[id := row]
    requires if id in s.tasks then TaskEvolves(s.tasks[id], row) else !RevokedIn(s, row.auth)
    ensures TasksEvolve(s, n) {}
  lemma OneAuthEvolves(s: Db, n: Db, id: nat, row: Auth)
    requires n.auths == s.auths[id := row] && (id in s.auths ==> AuthEvolves(s.auths[id], row))
    ensures AuthsEvolve(s, n) {}

  lemma StartRowEvolves(j: Job, now: Time) ensures JobEvolves(j, StartRow(j, now)) {}
  lemma FailRowEvolves(j: Job, now: Time) ensures JobEvolves(j, FailJobRow(j, now)) {}
  lemma ObserveRowEvolves(t: Task, p: Tenant, d: nat, now: Time) ensures TaskEvolves(t, ObserveRow(t, p, d, now)) {}
  lemma ExpireRowEvolves(t: Task, p: Tenant, now: Time)
    requires TaskOk(t) ensures TaskEvolves(t, ExpireRow(t, p, now)) {}
  lemma SweepRowEvolves(t: Task, now: Time) requires TaskOk(t) ensures TaskEvolves(t, SweepRow(t, now)) {}
  lemma RevokeRowEvolves(t: Task, id: nat, now: Time) ensures TaskEvolves(t, RevokeTaskRow(t, id, now)) {}
  lemma CancelRowEvolves(t: Task, now: Time)
    requires TaskActive(t) && t.cancelAt.None? ensures TaskEvolves(t, CancelRow(t, now)) {}

  lemma SweptJobsEvolve(s: Db, n: Db, now: Time)
    requires n.jobs == ExpireJobs(s, now).jobs
    ensures JobsEvolve(s, n)
  {
    forall i | i in s.jobs ensures i in n.jobs && JobEvolves(s.jobs[i], n.jobs[i]) { FailRowEvolves(s.jobs[i], now); }
  }

  // --------------------------------------------------------------- job steps

  lemma PostingGrows(l: map<EntryKey, Entry>, w: Work, buyer: Tenant, supplier: Tenant, e: Evidence)
    ensures Grows(l, PostSettlement(l, w, buyer, supplier, e))
  {
  }

  lemma SettleJobEvolves(s: Db, id: nat, tokens: nat, bps: nat, d: nat, now: Time, db: Time)
    requires Settled(s)
    ensures Evolves(s, SettleJob(s, id, tokens, bps, d, now, db))
  {
    var n := SettleJob(s, id, tokens, bps, d, now, db);
    if CanSettleJob(s, id, tokens, bps, db) {
      UnsettledIsUnposted(s, JobWork(id));
      PostingGrows(s.ledger, JobWork(id), s.jobs[id].buyer, s.jobs[id].supplier, n.evidence[JobWork(id)]);
      OneJobEvolves(s, n, id, n.jobs[id]);
      TasksStay(s, n);
      AuthsStay(s, n);
    } else {
      EvolvesReflexively(s);
    }
  }

  lemma OnlyJobsEvolve(s: Db, n: Db)
    requires n == s.(jobs := n.jobs) && JobsEvolve(s, n)
    ensures Evolves(s, n)
  {
    TasksStay(s, n);
    AuthsStay(s, n);
    LogsStay(s, n);
  }

  lemma ReserveJobEvolves(s: Db, id: nat, t: Tenant, o: nat, rev: nat, idem: nat, tokens: nat, now: Time)
    ensures Evolves(s, ReserveJob(s, id, t, o, rev, idem, tokens, now))
  {
    var n := ReserveJob(s, id, t, o, rev, idem, tokens, now);
    if CanReserveJob(s, id, t, o, rev, idem, tokens, now) {
      OneJobEvolves(s, n, id, n.jobs[id]);
      OnlyJobsEvolve(s, n);
    } else {
      EvolvesReflexively(s);
    }
  }

  lemma StartJobEvolves(s: Db, id: nat, now: Time)
    ensures Evolves(s, StartJob(s, id, now))
  {
    var n := StartJob(s, id, now);
    if id in s.jobs {
      StartRowEvolves(s.jobs[id], now);
      OneJobEvolves(s, n, id, n.jobs[id]);
      OnlyJobsEvolve(s, n);
    } else {
      EvolvesReflexively(s);
    }
  }

  lemma FailJobEvolves(s: Db, id: nat, now: Time)
    ensures Evolves(s, FailJob(s, id, now))
  {
    var n := FailJob(s, id, now);
    if id in s.jobs {
      FailRowEvolves(s.jobs[id], now);
      OneJobEvolves(s, n, id, n.jobs[id]);
      OnlyJobsEvolve(s, n);
    } else {
      EvolvesReflexively(s);
    }
  }

  lemma EnsureUserEvolves(s: Db, t: Tenant, amount: nat)
    ensures Evolves(s, EnsureUser(s, t, amount))
  {
    if Welcome(t) in s.ledger {
      EvolvesReflexively(s);
    } else {
      var n := EnsureUser(s, t, amount);
      JobsStay(s, n);
      TasksStay(s, n);
      AuthsStay(s, n);
    }
  }

  lemma JobStepEvolves(s: Db, e: JobStep)
    requires Inv(s)
    ensures Evolves(s, ApplyJob(s, e))
  {
    match e
    case EnsureUserStep(t, amount) => EnsureUserEvolves(s, t, amount);
    case ReserveJobStep(id, t, o, rev, idem, tokens, now) => ReserveJobEvolves(s, id, t, o, rev, idem, tokens, now);
    case StartJobStep(id, now) => StartJobEvolves(s, id, now);
    case FailJobStep(id, now) => FailJobEvolves(s, id, now);
    case ExpireJobsStep(now) =>
      SweptJobsEvolve(s, ExpireJobs(s, now), now);
      OnlyJobsEvolve(s, ExpireJobs(s, now));
    case SettleJobStep(id, tokens, bps, d, now, db) => SettleJobEvolves(s, id, tokens, bps, d, now, db);
  }

  // -------------------------------------------------------------- task steps

  lemma TasksAndLogsEvolve(s: Db, n: Db)
    requires n.jobs == s.jobs && n.auths == s.auths && TasksEvolve(s, n) && LogsGrow(s, n)
    ensures Evolves(s, n)
  {
    JobsStay(s, n);
    AuthsStay(s, n);
  }

  lemma OnlyTasksEvolve(s: Db, n: Db)
    requires TasksEvolve(s, n)
    requires n.jobs == s.jobs && n.auths == s.auths && n.ledger == s.ledger && n.evidence == s.evidence
    requires n.keys == s.keys && n.grants == s.grants && n.offers == s.offers
    ensures Evolves(s, n)
  {
    LogsStay(s, n);
    TasksAndLogsEvolve(s, n);
  }

  lemma TasksAloneStay(s: Db, n: Db)
    requires n.jobs == s.jobs && n.tasks == s.tasks && n.auths == s.auths
    requires n.ledger == s.ledger && n.evidence == s.evidence && n.keys == s.keys && n.grants == s.grants && n.offers == s.offers
    ensures Evolves(s, n)
  {
    TasksStay(s, n);
    OnlyTasksEvolve(s, n);
  }

  lemma ReserveTaskEvolves(s: Db, id: nat, t: Tenant, a: nat, o: nat, rev: nat, idem: nat, tokens: nat, now: Time)
    ensures Evolves(s, ReserveTask(s, id, t, a, o, rev, idem, tokens, now))
  {
    var n := ReserveTask(s, id, t, a, o, rev, idem, tokens, now);
    if CanReserveTask(s, id, t, a, o, rev, idem, tokens, now) {
      OneTaskEvolves(s, n, id, n.tasks[id]);
      OnlyTasksEvolve(s, n);
    } else {
      EvolvesReflexively(s);
    }
  }

  lemma ObserveEvolves(s: Db, id: nat, t: Tenant, d: nat, now: Time)
    ensures Evolves(s, ObserveCancellation(s, id, t, d, now))
  {
    var n := ObserveCancellation(s, id, t, d, now);
    if id in s.tasks {
      ObserveRowEvolves(s.tasks[id], t, d, now);
      OneTaskEvolves(s, n, id, n.tasks[id]);
      OnlyTasksEvolve(s, n);
    } else {
      EvolvesReflexively(s);
    }
  }

  lemma ClaimEvolves(s: Db, id: nat, t: Tenant, w: nat, rev: nat, d: nat, resume: nat, now: Time, clock: Time)
    ensures Evolves(s, ClaimTask(s, id, t, w, rev, d, resume, now, clock))
  {
    var n := ClaimTask(s, id, t, w, rev, d, resume, now, clock);
    if CanClaim(s, id, t, rev, d, now) {
      OneTaskEvolves(s, n, id, n.tasks[id]);
      TasksAndLogsEvolve(s, n);
    } else {
      EvolvesReflexively(s);
    }
  }

  lemma CheckpointEvolves(s: Db, r: LeaseRead, p: Progress, clock: Time, db: Time)
    ensures Evolves(s, CheckpointTask(s, r, p, clock, db))
  {
    var n := CheckpointTask(s, r, p, clock, db);
    if r.task in s.tasks && CheckpointAccepted(s, r, p) && CheckpointGate(s.tasks[r.task], r.row.supplier, r.digest, p, db) {
      OneTaskEvolves(s, n, r.task, n.tasks[r.task]);
      OnlyTasksEvolve(s, n);
    } else {
      EvolvesReflexively(s);
    }
  }

  lemma SettleTaskEvolves(s: Db, r: LeaseRead, u: Usage, bps: nat, d: nat, now: Time, db: Time)
    requires Settled(s)
    ensures Evolves(s, SettleTask(s, r, u, bps, d, now, db))
  {
    var n := SettleTask(s, r, u, bps, d, now, db);
    if CanSettleTask(s, r, u, bps, db) {
      UnsettledIsUnposted(s, TaskWork(r.task));
      PostingGrows(s.ledger, TaskWork(r.task), s.tasks[r.task].buyer, s.tasks[r.task].supplier, n.evidence[TaskWork(r.task)]);
      OneTaskEvolves(s, n, r.task, n.tasks[r.task]);
      TasksAndLogsEvolve(s, n);
    } else {
      EvolvesReflexively(s);
    }
  }

  lemma FailTaskEvolves(s: Db, r: LeaseRead, retryable: bool, now: Time, db: Time)
    ensures Evolves(s, FailTask(s, r, retryable, now, db))
  {
    var n := FailTask(s, r, retryable, now, db);
    if r in s.selected && r.task in s.tasks && HoldsLease(s.tasks[r.task], r.row.supplier, r.digest, db) {
      OneTaskEvolves(s, n, r.task, n.tasks[r.task]);
      OnlyTasksEvolve(s, n);
    } else {
      EvolvesReflexively(s);
    }
  }

  lemma ExpireLeasesEvolves(s: Db, t: Tenant, now: Time)
    requires Rows(s)
    ensures Evolves(s, ExpireLeases(s, t, now))
  {
    var n := ExpireLeases(s, t, now);
    forall i | i in s.tasks ensures i in n.tasks && TaskEvolves(s.tasks[i], n.tasks[i]) { ExpireRowEvolves(s.tasks[i], t, now); }
    OnlyTasksEvolve(s, n);
  }

  lemma SweepTasksEvolves(s: Db, now: Time)
    requires Rows(s)
    ensures Evolves(s, SweepTasks(s, now))
  {
    var n := SweepTasks(s, now);
    forall i | i in s.tasks ensures i in n.tasks && TaskEvolves(s.tasks[i], n.tasks[i]) { SweepRowEvolves(s.tasks[i], now); }
    OnlyTasksEvolve(s, n);
  }

  lemma BindCancelEvolves(s: Db, t: Tenant, id: nat, command: nat)
    ensures Evolves(s, BindCancel(s, t, id, command))
  {
    TasksStay(s, BindCancel(s, t, id, command));
    TasksAndLogsEvolve(s, BindCancel(s, t, id, command));
  }

  lemma CancelEvolves(s: Db, t: Tenant, id: nat, command: nat, token: nat, now: Time)
    ensures Evolves(s, CancelTask(s, t, id, command, token, now))
  {
    var n := CancelTask(s, t, id, command, token, now);
    if CanCancel(s, t, id, command) {
      CancelRowEvolves(s.tasks[id], now);
      OneTaskEvolves(s, n, id, n.tasks[id]);
      TasksAndLogsEvolve(s, n);
    } else {
      EvolvesReflexively(s);
    }
  }

  lemma PurgeCancelEvolves(s: Db, t: Tenant, id: nat, now: Time)
    ensures Evolves(s, PurgeCancel(s, t, id, now))
  {
    var n := PurgeCancel(s, t, id, now);
    if id in s.tasks && s.tasks[id].buyer == t && s.tasks[id].status == Queued && s.tasks[id].cancelAt.None? {
      CancelRowEvolves(s.tasks[id], now);
      OneTaskEvolves(s, n, id, n.tasks[id]);
      OnlyTasksEvolve(s, n);
    } else {
      EvolvesReflexively(s);
    }
  }

  lemma ReadLeaseEvolves(s: Db, id: nat, t: Tenant, d: nat, now: Time)
    ensures Evolves(s, ReadLease(s, id, t, d, now))
  {
    if id in s.tasks && HoldsLease(s.tasks[id], t, d, now) {
      TasksAloneStay(s, ReadLease(s, id, t, d, now));
    } else {
      EvolvesReflexively(s);
    }
  }

  lemma PutArtifactEvolves(s: Db, id: nat, a: Artifact)
    ensures Evolves(s, PutArtifact(s, id, a))
  {
    TasksAloneStay(s, PutArtifact(s, id, a));
  }

  lemma TaskStepEvolves(s: Db, e: TaskStep)
    requires Inv(s)
    ensures Evolves(s, ApplyTask(s, e))
  {
    match e
    case ReserveTaskStep(id, t, a, o, rev, idem, tokens, now) => ReserveTaskEvolves(s, id, t, a, o, rev, idem, tokens, now);
    case ReadLeaseStep(id, t, d, now) => ReadLeaseEvolves(s, id, t, d, now);
    case ObserveStep(id, t, d, now) => ObserveEvolves(s, id, t, d, now);
    case ClaimStep(id, t, w, rev, d, resume, now, clock) => ClaimEvolves(s, id, t, w, rev, d, resume, now, clock);
    case CheckpointStep(r, p, clock, db) => CheckpointEvolves(s, r, p, clock, db);
    case SettleTaskStep(r, u, bps, d, now, db) => SettleTaskEvolves(s, r, u, bps, d, now, db);
    case FailTaskStep(r, retryable, now, db) => FailTaskEvolves(s, r, retryable, now, db);
    case ExpireLeasesStep(t, now) => ExpireLeasesEvolves(s, t, now);
    case SweepTasksStep(now) => SweepTasksEvolves(s, now);
    case BindCancelStep(t, id, command) => BindCancelEvolves(s, t, id, command);
    case CancelStep(t, id, command, token, now) => CancelEvolves(s, t, id, command, token, now);
    case PurgeCancelStep(t, id, now) => PurgeCancelEvolves(s, t, id, now);
    case PutArtifactStep(id, a) => PutArtifactEvolves(s, id, a);
  }

  // ----------------------------------------------------- authorization steps

  lemma AuthsAndKeysEvolve(s: Db, n: Db)
    requires n.jobs == s.jobs && n.tasks == s.tasks && n.ledger == s.ledger && n.evidence == s.evidence && n.grants == s.grants
    requires AuthsEvolve(s, n) && Grows(s.keys, n.keys) && Grows(s.offers, n.offers)
    ensures Evolves(s, n)
  {
    JobsStay(s, n);
    TasksStay(s, n);
  }

  lemma AuthsAloneStay(s: Db, n: Db)
    requires n.jobs == s.jobs && n.tasks == s.tasks && n.auths == s.auths
    requires n.ledger == s.ledger && n.evidence == s.evidence && n.grants == s.grants && Grows(s.keys, n.keys)
    requires Grows(s.offers, n.offers)
    ensures Evolves(s, n)
  {
    AuthsStay(s, n);
    AuthsAndKeysEvolve(s, n);
  }

  lemma BoundGrows(keys: map<KeyScope, Resource>, target: KeyScope, token: Resource, k: KeyScope, r: Resource)
    requires target !in keys
    ensures Grows(keys, Bound(keys[target := token], k, r))
  {
  }

  lemma SubmitEvolves(s: Db, id: nat, t: Tenant, p: nat, until: Time, sealed: Sealed, l: Lookup, now: Time)
    ensures Evolves(s, SubmitAuth(s, id, t, p, until, sealed, l, now))
  {
    var n := SubmitAuth(s, id, t, p, until, sealed, l, now);
    if n != s {
      OneAuthEvolves(s, n, id, n.auths[id]);
      AuthsAndKeysEvolve(s, n);
    } else {
      EvolvesReflexively(s);
    }
  }

  lemma RejectEvolves(s: Db, id: nat, t: Tenant, command: nat, token: nat)
    ensures Evolves(s, RejectAuth(s, id, t, command, token))
  {
    var n := RejectAuth(s, id, t, command, token);
    if CanClaimReview(s, id, t, command, ReviewBinding(id, REJECT)) {
      BoundGrows(s.keys, ReviewTargetKey(id), Token(token), ReviewCommandKey(t, command), ReviewBinding(id, REJECT));
      OneAuthEvolves(s, n, id, n.auths[id]);
      AuthsAndKeysEvolve(s, n);
    } else {
      EvolvesReflexively(s);
    }
  }

  lemma ReviewClaimGrows(s: Db, id: nat, t: Tenant, command: nat, b: Resource, token: nat)
    requires CanClaimReview(s, id, t, command, b)
    ensures Grows(s.keys, ClaimReview(s, id, t, command, b, token).keys)
  {
    BoundGrows(s.keys, ReviewTargetKey(id), Token(token), ReviewCommandKey(t, command), b);
  }

  lemma ApproveEvolves(s: Db, id: nat, t: Tenant, command: nat, token: nat, ls: set<Lookup>, legacy: string, v: nat, next: nat, now: Time)
    ensures Evolves(s, ApproveAuth(s, id, t, command, token, ls, legacy, v, next, now))
  {
    if !CanClaimApproval(s, id, t, command, ls, legacy, now) {
      EvolvesReflexively(s);
    } else {
      var n := ApproveAuth(s, id, t, command, token, ls, legacy, v, next, now);
      ReviewClaimGrows(s, id, t, command, ReviewBinding(id, APPROVE), token);
      if VersionHolds(s, id, v) {
        OneAuthEvolves(s, n, id, n.auths[id]);
        AuthsAndKeysEvolve(s, n);
      } else {
        AuthsAloneStay(s, n);
      }
    }
  }

  lemma WithdrawEvolves(s: Db, id: nat, t: Tenant, rev: nat, v: nat, command: nat, reason: string, token: nat)
    ensures Evolves(s, WithdrawAuth(s, id, t, rev, v, command, reason, token))
  {
    var n := WithdrawAuth(s, id, t, rev, v, command, reason, token);
    if CanClaimTarget(s, id, t, Pending, rev, v, Withdraw, command, Binding(id, reason)) {
      BoundGrows(s.keys, TargetKey(id, rev), Token(token), CommandKey(t, Withdraw, command), Binding(id, reason));
      OneAuthEvolves(s, n, id, n.auths[id]);
      AuthsAndKeysEvolve(s, n);
    } else {
      EvolvesReflexively(s);
    }
  }

  lemma RevokedWorkEvolves(s: Db, n: Db, id: nat, now: Time)
    requires n.jobs == RevokedJobs(s.jobs, id, now) && n.tasks == RevokedTasks(s.tasks, id, now)
    ensures JobsEvolve(s, n) && TasksEvolve(s, n)
  {
    forall i | i in s.jobs ensures i in n.jobs && JobEvolves(s.jobs[i], n.jobs[i]) { FailRowEvolves(s.jobs[i], now); }
    forall i | i in s.tasks ensures i in n.tasks && TaskEvolves(s.tasks[i], n.tasks[i]) { RevokeRowEvolves(s.tasks[i], id, now); }
  }

  lemma RevokeEvolves(s: Db, id: nat, t: Tenant, rev: nat, v: nat, command: nat, reason: string, token: nat, now: Time)
    ensures Evolves(s, RevokeAuth(s, id, t, rev, v, command, reason, token, now))
  {
    var n := RevokeAuth(s, id, t, rev, v, command, reason, token, now);
    if n != s {
      BoundGrows(s.keys, TargetKey(id, rev), Token(token), CommandKey(t, Revoke, command), Binding(id, reason));
      OneAuthEvolves(s, n, id, n.auths[id]);
      RevokedWorkEvolves(s, n, id, now);
    } else {
      EvolvesReflexively(s);
    }
  }

  lemma RotatedWorkEvolves(s: Db, n: Db, id: nat, rev: nat, now: Time)
    requires n.jobs == RotatedJobs(s.jobs, id, rev, now)
    ensures JobsEvolve(s, n)
  {
    forall i | i in s.jobs ensures i in n.jobs && JobEvolves(s.jobs[i], n.jobs[i]) { FailRowEvolves(s.jobs[i], now); }
  }

  lemma RotateEvolves(s: Db, n: Db, id: nat, t: Tenant, rev: nat, v: nat, command: nat, reason: string, token: nat,
                      prior: Sealed, sealed: Sealed, l: Lookup, ls: set<Lookup>, legacy: string, now: Time)
    requires n == RotateAuth(s, id, t, rev, v, command, reason, token, prior, sealed, l, ls, legacy, now)
    ensures Evolves(s, n)
  {
    var b := Binding(id, reason + ":" + legacy);
    if CanRotate(s, id, t, rev, v, command, b, prior, ls, legacy, now) {
      BoundGrows(s.keys, TargetKey(id, rev), Token(token), CommandKey(t, Rotate, command), b);
      OneAuthEvolves(s, n, id, n.auths[id]);
      RotatedWorkEvolves(s, n, id, rev, now);
      TasksStay(s, n);
    } else {
      EvolvesReflexively(s);
    }
  }

  lemma RewrapEvolves(s: Db, id: nat, prior: Sealed, sealed: Sealed)
    ensures Evolves(s, Rewrap(s, id, prior, sealed))
  {
    var n := Rewrap(s, id, prior, sealed);
    if n != s {
      OneAuthEvolves(s, n, id, n.auths[id]);
      AuthsAndKeysEvolve(s, n);
    } else {
      EvolvesReflexively(s);
    }
  }

  lemma MigrateEvolves(s: Db, ls: set<Lookup>, legacy: string, l: Lookup)
    ensures Evolves(s, MigrateLookups(s, ls, legacy, l))
  {
    AuthsAndKeysEvolve(s, MigrateLookups(s, ls, legacy, l));
  }

  lemma MaintainEvolves(s: Db, now: Time)
    requires Rows(s)
    ensures Evolves(s, Maintain(s, now))
  {
    var n := Maintain(s, now);
    SweptJobsEvolve(s, n, now);
    TasksStay(s, n);
    forall i | i in s.auths ensures i in n.auths && AuthEvolves(s.auths[i], n.auths[i]) {
    }
    LogsStay(s, n);
  }

  lemma SuppliersAlone(s: Db, n: Db)
    requires n == s.(suppliers := n.suppliers, offers := n.offers) && Grows(s.offers, n.offers)
    ensures Evolves(s, n)
  {
    AuthsAloneStay(s, n);
  }

  lemma OfferEvolves(s: Db, id: nat, o: Offer, rev: nat, v: nat, now: Time)
    ensures Evolves(s, CreateOffer(s, id, o, rev, v, now))
  {
    SuppliersAlone(s, CreateOffer(s, id, o, rev, v, now));
  }

  lemma RegisterEvolves(s: Db, t: Tenant)
    ensures Evolves(s, Register(s, t))
  {
    SuppliersAlone(s, Register(s, t));
  }
  lemma SetSupplyEvolves(s: Db, t: Tenant, enabled: bool, now: Time)
    ensures Evolves(s, SetSupply(s, t, enabled, now))
  {
    SuppliersAlone(s, SetSupply(s, t, enabled, now));
  }

  predicate MovesStatus(e: AuthStep) { e.RejectStep? || e.ApproveStep? || e.WithdrawStep? || e.RevokeStep? || e.RotateStep? }

  lemma StatusStepEvolves(s: Db, e: AuthStep)
    requires MovesStatus(e)
    ensures Evolves(s, ApplyAuth(s, e))
  {
    match e
    case RejectStep(id, t, command, token) => RejectEvolves(s, id, t, command, token);
    case ApproveStep(id, t, command, token, ls, legacy, v, next, now) => ApproveEvolves(s, id, t, command, token, ls, legacy, v, next, now);
    case WithdrawStep(id, t, rev, v, command, reason, token) => WithdrawEvolves(s, id, t, rev, v, command, reason, token);
    case RevokeStep(id, t, rev, v, command, reason, token, now) => RevokeEvolves(s, id, t, rev, v, command, reason, token, now);
    case RotateStep(id, t, rev, v, command, reason, token, prior, sealed, l, ls, legacy, now) =>
      RotateEvolves(s, ApplyAuth(s, e), id, t, rev, v, command, reason, token, prior, sealed, l, ls, legacy, now);
  }

  lemma OtherAuthStepEvolves(s: Db, e: AuthStep)
    requires Rows(s) && !MovesStatus(e)
    ensures Evolves(s, ApplyAuth(s, e))
  {
    match e
    case RegisterStep(t) => RegisterEvolves(s, t);
    case SetSupplyStep(t, enabled, now) => SetSupplyEvolves(s, t, enabled, now);
    case SubmitStep(id, t, p, until, sealed, l, now) => SubmitEvolves(s, id, t, p, until, sealed, l, now);
    case RewrapStep(id, prior, sealed) => RewrapEvolves(s, id, prior, sealed);
    case MigrateStep(ls, legacy, l) => MigrateEvolves(s, ls, legacy, l);
    case MaintainStep(now) => MaintainEvolves(s, now);
    case CreateOfferStep(id, o, rev, v, now) => OfferEvolves(s, id, o, rev, v, now);
  }

  lemma AuthStepEvolves(s: Db, e: AuthStep)
    requires Inv(s)
    ensures Evolves(s, ApplyAuth(s, e))
  {
    if MovesStatus(e) { StatusStepEvolves(s, e); } else { OtherAuthStepEvolves(s, e); }
  }

  // -------------------------------------------------------------------- runs

  lemma StepEvolves(s: Db, e: Step)
    requires Inv(s)
    ensures Evolves(s, Apply(s, e))
  {
    match e
    case OnJob(j) => JobStepEvolves(s, j);
    case OnTask(t) => TaskStepEvolves(s, t);
    case OnAuth(a) => AuthStepEvolves(s, a);
  }

  lemma EvolvesReflexively(s: Db)
    ensures Evolves(s, s)
  {
    AuthsAloneStay(s, s);
  }

  /** Whatever happens next, existing rows only move forward along their own lifecycles. */
  lemma {:induction false} RunEvolves(s: Db, steps: seq<Step>)
    requires Inv(s)
    ensures Evolves(s, Run(s, steps))
    decreases |steps|
  {
    if steps == [] {
      EvolvesReflexively(s);
    } else {
      var m := Apply(s, steps[0]);
      StepEvolves(s, steps[0]);
      StepKeeps(s, steps[0]);
      RunEvolves(m, steps[1..]);
      EvolvesComposes(s, m, Run(m, steps[1..]));
    }
  }
}
