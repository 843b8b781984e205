/** Steps on jobs and tasks keep the invariants, one conjunct at a time. */
module MarketRuns {
  import opened Totals
  import opened MarketTables
  import opened MarketSteps
  import opened MarketInvariants
  import opened MarketSafety

  // ------------------------------------------- quiet steps on jobs and tasks

  /** A sweep or single-row update of jobs is quiet when every row is. */
  lemma JobsAreQuiet(s: Db, n: Db)
    requires Rows(s) && n == s.(jobs := n.jobs) && n.jobs.Keys == s.jobs.Keys
    requires forall i :: i in s.jobs ==> QuietJob(s.jobs[i], n.jobs[i])
    ensures Quiet(s, n)
  {
  }

  lemma OneJobIsQuiet(s: Db, n: Db, id: nat, row: Job)
    requires Rows(s) && id in s.jobs && n == s.(jobs := s.jobs[id := row]) && QuietJob(s.jobs[id], row)
    ensures Quiet(s, n)
  {
  }

  lemma TasksAreQuiet(s: Db, n: Db)
    requires Rows(s) && n == s.(tasks := n.tasks) && n.tasks.Keys == s.tasks.Keys
    requires forall i :: i in s.tasks ==> QuietTask(s.tasks[i], n.tasks[i])
    ensures Quiet(s, n)
  {
  }

  lemma OneTaskIsQuiet(s: Db, n: Db, id: nat, row: Task)
    requires Rows(s) && id in s.tasks && n == s.(tasks := s.tasks[id := row], keys := n.keys)
    requires QuietTask(s.tasks[id], row)
    ensures Quiet(s, n)
  {
  }

  lemma StandsStill(s: Db, n: Db)
    requires Rows(s) && n == s.(keys := n.keys, suppliers := n.suppliers)
    ensures Quiet(s, n)
  {
  }

  // Row transitions.

  lemma StartRowQuiet(j: Job, now: Time) ensures QuietJob(j, StartRow(j, now)) {}
  lemma FailJobRowQuiet(j: Job, now: Time) ensures QuietJob(j, FailJobRow(j, now)) {}
  lemma ObserveRowQuiet(t: Task, supplier: Tenant, digest: nat, now: Time)
    requires TaskOk(t) ensures QuietTask(t, ObserveRow(t, supplier, digest, now)) {}
  lemma ExpireRowQuiet(t: Task, supplier: Tenant, now: Time)
    requires TaskOk(t) ensures QuietTask(t, ExpireRow(t, supplier, now)) {}
  lemma SweepRowQuiet(t: Task, now: Time)
    requires TaskOk(t) ensures QuietTask(t, SweepRow(t, now)) {}
  lemma CancelRowQuiet(t: Task, now: Time)
    requires TaskOk(t) && TaskActive(t) && t.cancelAt.None? ensures QuietTask(t, CancelRow(t, now)) {}

  lemma ExpireJobsQuiet(s: Db, now: Time)
    requires Rows(s)
    ensures Quiet(s, ExpireJobs(s, now))
  {
    var n := ExpireJobs(s, now);
    forall i | i in s.jobs ensures QuietJob(s.jobs[i], n.jobs[i]) {
      FailJobRowQuiet(s.jobs[i], now);
    }
    JobsAreQuiet(s, n);
  }

  lemma ExpireLeasesQuiet(s: Db, supplier: Tenant, now: Time)
    requires Rows(s)
    ensures Quiet(s, ExpireLeases(s, supplier, now))
  {
    var n := ExpireLeases(s, supplier, now);
    forall i | i in s.tasks ensures QuietTask(s.tasks[i], n.tasks[i]) {
      ExpireRowQuiet(s.tasks[i], supplier, now);
    }
    TasksAreQuiet(s, n);
  }

  lemma SweepTasksQuiet(s: Db, now: Time)
    requires Rows(s)
    ensures Quiet(s, SweepTasks(s, now))
  {
    var n := SweepTasks(s, now);
    forall i | i in s.tasks ensures QuietTask(s.tasks[i], n.tasks[i]) {
      SweepRowQuiet(s.tasks[i], now);
    }
    TasksAreQuiet(s, n);
  }

  lemma CancelQuiet(s: Db, n: Db, id: nat, now: Time)
    requires Rows(s) && id in s.tasks && TaskActive(s.tasks[id]) && s.tasks[id].cancelAt.None?
    requires n == s.(tasks := s.tasks[id := CancelRow(s.tasks[id], now)], keys := n.keys)
    ensures Quiet(s, n)
  {
    CancelRowQuiet(s.tasks[id], now);
    OneTaskIsQuiet(s, n, id, CancelRow(s.tasks[id], now));
  }

  /** The lease a selected row named is still the task's own lease, attempt and deadline. */
  lemma LeaseIdentity(s: Db, r: LeaseRead)
    requires Rows(s) && Leases(s) && r in s.selected && r.task in s.tasks && s.tasks[r.task].lease == Some(r.digest)
    ensures s.tasks[r.task].attempt == r.row.attempt && s.tasks[r.task].deadline == r.row.deadline
    ensures SameDeal(r.row, s.tasks[r.task])
  {
    assert TaskOk(s.tasks[r.task]) && LeaseOk(s, r.task) && ReadOk(s, r);
  }

  lemma CheckpointRowQuiet(t: Task, p: Progress, until: Time)
    requires TaskOk(t) && Leased(t) && p.usage.total <= t.maxTotal && until <= t.deadline.value
    ensures QuietTask(t, CheckpointRow(t, p, until)) {}
  lemma FailTaskRowQuiet(t: Task, retry: bool, now: Time)
    requires TaskOk(t) && Leased(t) && t.cancelAt.None? && (retry ==> t.attempt < MAXIMUM_ATTEMPTS)
    ensures QuietTask(t, FailTaskRow(t, retry, now)) {}

  /** A checkpoint acts on a row selected earlier, yet extends the lease only within its deadline. */
  lemma CheckpointQuiet(s: Db, r: LeaseRead, p: Progress, clock: Time, dbNow: Time)
    requires Rows(s) && Leases(s)
    ensures Quiet(s, CheckpointTask(s, r, p, clock, dbNow))
  {
    var n := CheckpointTask(s, r, p, clock, dbNow);
    if r.task in s.tasks && CheckpointAccepted(s, r, p) && CheckpointGate(s.tasks[r.task], r.row.supplier, r.digest, p, dbNow) {
      LeaseIdentity(s, r);
      assert TaskOk(s.tasks[r.task]);
      CheckpointRowQuiet(s.tasks[r.task], p, Min(clock + LEASE_MILLISECONDS, r.row.deadline.value));
      OneTaskIsQuiet(s, n, r.task, n.tasks[r.task]);
    } else {
      StandsStill(s, n);
    }
  }

  /** A worker's retry decision, taken on an earlier read, never exceeds the attempt limit. */
  lemma FailTaskQuiet(s: Db, r: LeaseRead, retryable: bool, now: Time, dbNow: Time)
    requires Rows(s) && Leases(s)
    ensures Quiet(s, FailTask(s, r, retryable, now, dbNow))
  {
    var n := FailTask(s, r, retryable, now, dbNow);
    if r in s.selected && r.task in s.tasks && HoldsLease(s.tasks[r.task], r.row.supplier, r.digest, dbNow) {
      LeaseIdentity(s, r);
      assert TaskOk(s.tasks[r.task]);
      FailTaskRowQuiet(s.tasks[r.task], retryable && r.row.attempt < MAXIMUM_ATTEMPTS, now);
      OneTaskIsQuiet(s, n, r.task, n.tasks[r.task]);
    } else {
      StandsStill(s, n);
    }
  }

  // ------------------------------------------------------------------ frames

  lemma FrameRows(s: Db, n: Db)
    requires Rows(s) && n.jobs == s.jobs && n.tasks == s.tasks && n.offers == s.offers && n.auths == s.auths && n.artifacts == s.artifacts
    ensures Rows(n)
  {
  }
  lemma FrameAuthorized(s: Db, n: Db)
    requires Authorized(s) && n.jobs == s.jobs && n.tasks == s.tasks && n.auths == s.auths
    ensures Authorized(n)
  {
  }
  lemma FrameClaims(s: Db, n: Db)
    requires Claims(s) && n.auths == s.auths && n.keys == s.keys
    ensures Claims(n)
  {
  }
  lemma FrameCapacity(s: Db, n: Db)
    requires Capacity(s) && n.jobs == s.jobs && n.tasks == s.tasks && n.offers == s.offers
    ensures Capacity(n)
  {
    SameWork(s, n);
  }
  lemma FrameLeases(s: Db, n: Db)
    requires Leases(s) && n.tasks == s.tasks && n.grants == s.grants && n.selected == s.selected
    ensures Leases(n)
  {
    SameGrants(s, n);
    assert forall d :: d in n.grants ==> GrantOk(s, d);
    assert forall i :: i in n.tasks ==> LeaseOk(s, i);
    assert forall r :: r in n.selected ==> ReadOk(s, r);
  }
  lemma FrameMoney(s: Db, n: Db)
    requires Money(s) && n.jobs == s.jobs && n.tasks == s.tasks && n.ledger == s.ledger
    ensures Money(n)
  {
    SameWork(s, n);
    SameLedger(s, n);
    assert forall t :: Available(n, t) == Available(s, t);
  }
  lemma FrameSettled(s: Db, n: Db)
    requires Settled(s) && n.jobs == s.jobs && n.tasks == s.tasks && n.evidence == s.evidence && n.usage == s.usage && n.ledger == s.ledger
    ensures Settled(n)
  {
    forall w | w in n.evidence ensures WorkDone(n, w) {
      assert WorkDone(s, w);
    }
  }

  lemma OneJobRows(s: Db, n: Db, id: nat, row: Job)
    requires Rows(s) && n.jobs == s.jobs[id := row] && n.tasks == s.tasks
    requires n.offers == s.offers && n.auths == s.auths && n.artifacts == s.artifacts
    requires JobOk(row) && JobRefs(s, row)
    ensures Rows(n)
  {
  }
  lemma OneTaskRows(s: Db, n: Db, id: nat, row: Task)
    requires Rows(s) && n.tasks == s.tasks[id := row] && n.jobs == s.jobs
    requires n.offers == s.offers && n.auths == s.auths && n.artifacts == s.artifacts
    requires TaskOk(row) && TaskRefs(s, row)
    ensures Rows(n)
  {
  }
  lemma OneJobAuthorized(s: Db, n: Db, id: nat, row: Job)
    requires Authorized(s) && n.jobs == s.jobs[id := row] && n.tasks == s.tasks && n.auths == s.auths
    requires CarriesCurrent(s, row)
    ensures Authorized(n)
  {
  }
  lemma OneTaskAuthorized(s: Db, n: Db, id: nat, row: Task)
    requires Authorized(s) && n.tasks == s.tasks[id := row] && n.jobs == s.jobs && n.auths == s.auths
    requires Wound(s, row)
    ensures Authorized(n)
  {
  }

  /** Writing an unsettled job row leaves the settled work exactly as it was. */
  lemma OneJobSettled(s: Db, n: Db, id: nat, row: Job)
    requires Settled(s) && n == s.(jobs := s.jobs[id := row]) && row.status != JobCompleted
    requires id in s.jobs ==> s.jobs[id].status != JobCompleted
    ensures Settled(n)
  {
    forall w | w in n.evidence ensures WorkDone(n, w) {
      assert WorkDone(s, w);
    }
  }
  lemma OneTaskSettled(s: Db, n: Db, id: nat, row: Task)
    requires Settled(s) && n == s.(tasks := s.tasks[id := row], grants := n.grants) && row.status != Completed
    requires id in s.tasks ==> s.tasks[id].status != Completed
    ensures Settled(n)
  {
    forall w | w in n.evidence ensures WorkDone(n, w) {
      assert WorkDone(s, w);
    }
  }

  // ------------------------------------------------------- promotional credit

  lemma EnsureUserMoney(s: Db, n: Db, t: Tenant, amount: nat)
    requires Money(s) && Welcome(t) !in s.ledger && n == s.(ledger := s.ledger[Welcome(t) := Entry(t, true, amount)])
    ensures Money(n)
  {
    OneEntry(s, n, Welcome(t), Entry(t, true, amount));
    SameWork(s, n);
    assert forall u :: Available(n, u) >= Available(s, u);
  }

  lemma EnsureUserSettled(s: Db, n: Db, t: Tenant, amount: nat)
    requires Settled(s) && Welcome(t) !in s.ledger && n.ledger == s.ledger[Welcome(t) := Entry(t, true, amount)]
    requires n.jobs == s.jobs && n.tasks == s.tasks && n.evidence == s.evidence && n.usage == s.usage
    ensures Settled(n)
  {
    forall w | w in n.evidence ensures WorkDone(n, w) { assert WorkDone(s, w); }
    forall i | i in n.jobs && n.jobs[i].status == JobCompleted
      ensures Posted(n, JobWork(i), n.jobs[i].buyer, n.jobs[i].supplier, n.jobs[i].charge)
    {
      WelcomePosts(s, n, t, JobWork(i), n.jobs[i].buyer, n.jobs[i].supplier, n.jobs[i].charge);
    }
    forall i | i in n.tasks && n.tasks[i].status == Completed
      ensures Posted(n, TaskWork(i), n.tasks[i].buyer, n.tasks[i].supplier, n.tasks[i].charge)
    {
      WelcomePosts(s, n, t, TaskWork(i), n.tasks[i].buyer, n.tasks[i].supplier, n.tasks[i].charge);
    }
  }

  lemma WelcomePosts(s: Db, n: Db, t: Tenant, w: Work, buyer: Tenant, supplier: Tenant, charge: Option<nat>)
    requires Posted(s, w, buyer, supplier, charge) && n.evidence == s.evidence
    requires Welcome(t) in n.ledger && n.ledger == s.ledger[Welcome(t) := n.ledger[Welcome(t)]]
    ensures Posted(n, w, buyer, supplier, charge)
  {
  }

  lemma EnsureUserKeeps(s: Db, t: Tenant, amount: nat)
    requires Inv(s)
    ensures Inv(EnsureUser(s, t, amount))
  {
    if Welcome(t) !in s.ledger {
      var n := EnsureUser(s, t, amount);
      EnsureUserMoney(s, n, t, amount);
      EnsureUserSettled(s, n, t, amount);
      FrameRows(s, n);
      FrameCapacity(s, n);
      FrameAuthorized(s, n);
      FrameClaims(s, n);
      FrameLeases(s, n);
    }
  }

  // ------------------------------------------------------------ reservations

  lemma NewJobTotals(s: Db, n: Db, id: nat, row: Job)
    requires Money(s) && Capacity(s) && id !in s.jobs && JobActive(row) && row.offer in s.offers
    requires Available(s, row.buyer) >= row.reserved && OfferLoad(s, row.offer) < s.offers[row.offer].concurrency
    requires n == s.(jobs := s.jobs[id := row])
    ensures Money(n) && Capacity(n)
  {
    OneJob(s, n, id);
    SameLedger(s, n);
    forall t ensures 0 <= Available(n, t) {
      assert 0 <= Available(s, t);
    }
    forall q | q in n.offers ensures OfferLoad(n, q) <= n.offers[q].concurrency {
      assert OfferLoad(s, q) <= s.offers[q].concurrency;
    }
  }

  lemma NewJobKeeps(s: Db, n: Db, id: nat, row: Job)
    requires Inv(s) && id !in s.jobs && row.status == JobReserved && n == s.(jobs := s.jobs[id := row])
    requires JobOk(row) && JobRefs(s, row) && CarriesCurrent(s, row)
    requires Available(s, row.buyer) >= row.reserved && OfferLoad(s, row.offer) < s.offers[row.offer].concurrency
    ensures Inv(n)
  {
    OneJobRows(s, n, id, row);
    NewJobTotals(s, n, id, row);
    OneJobSettled(s, n, id, row);
    OneJobAuthorized(s, n, id, row);
    FrameClaims(s, n);
    FrameLeases(s, n);
  }

  lemma NewTaskMoney(s: Db, n: Db, id: nat, row: Task)
    requires Money(s) && id !in s.tasks && row.status == Queued && Available(s, row.buyer) >= row.reserved
    requires n == s.(tasks := s.tasks[id := row])
    ensures Money(n)
  {
    OneTask(s, n, id);
    SameLedger(s, n);
    forall t ensures 0 <= Available(n, t) {
      assert 0 <= Available(s, t);
    }
  }

  lemma NewTaskCapacity(s: Db, n: Db, id: nat, row: Task)
    requires Capacity(s) && id !in s.tasks && row.status == Queued && ActiveTasks(s, row.buyer) < MAXIMUM_ACTIVE_TASKS
    requires n == s.(tasks := s.tasks[id := row])
    ensures Capacity(n)
  {
    OneTask(s, n, id);
    forall t ensures ActiveTasks(n, t) <= MAXIMUM_ACTIVE_TASKS {
      assert ActiveTasks(s, t) <= MAXIMUM_ACTIVE_TASKS;
    }
    forall q | q in n.offers ensures OfferLoad(n, q) <= n.offers[q].concurrency {
      assert OfferLoad(s, q) <= s.offers[q].concurrency;
    }
  }

  lemma NewTaskLeases(s: Db, n: Db, id: nat, row: Task)
    requires Leases(s) && id !in s.tasks && row.lease.None? && row.attempt == 0 && n == s.(tasks := s.tasks[id := row])
    ensures Leases(n)
  {
    SameGrants(s, n);
    forall d | d in n.grants ensures GrantOk(n, d) { assert GrantOk(s, d); }
    forall i | i in n.tasks ensures LeaseOk(n, i) { if i != id { assert LeaseOk(s, i); } }
    forall r | r in n.selected ensures ReadOk(n, r) { assert ReadOk(s, r); }
  }

  lemma NewTaskKeeps(s: Db, n: Db, id: nat, row: Task)
    requires Inv(s) && id !in s.tasks && row.status == Queued && row.attempt == 0 && n == s.(tasks := s.tasks[id := row])
    requires TaskOk(row) && TaskRefs(s, row) && Wound(s, row)
    requires Available(s, row.buyer) >= row.reserved && ActiveTasks(s, row.buyer) < MAXIMUM_ACTIVE_TASKS
    ensures Inv(n)
  {
    OneTaskRows(s, n, id, row);
    NewTaskMoney(s, n, id, row);
    NewTaskCapacity(s, n, id, row);
    NewTaskLeases(s, n, id, row);
    OneTaskSettled(s, n, id, row);
    OneTaskAuthorized(s, n, id, row);
    FrameClaims(s, n);
  }

  // ------------------------------------------------------------------ claims

  lemma ClaimTotals(s: Db, n: Db, id: nat, row: Task)
    requires Money(s) && Capacity(s) && id in s.tasks && s.tasks[id].status == Queued && row.status == Claimed
    requires SameDeal(s.tasks[id], row) && row.offer in s.offers && OfferLoad(s, row.offer) < s.offers[row.offer].concurrency
    requires n.jobs == s.jobs && n.tasks == s.tasks[id := row] && n.ledger == s.ledger && n.offers == s.offers
    ensures Money(n) && Capacity(n)
  {
    OneTask(s, n, id);
    SameLedger(s, n);
    forall t ensures 0 <= Available(n, t) && ActiveTasks(n, t) <= MAXIMUM_ACTIVE_TASKS {
      assert 0 <= Available(s, t) && ActiveTasks(s, t) <= MAXIMUM_ACTIVE_TASKS;
    }
    forall q | q in n.offers ensures OfferLoad(n, q) <= n.offers[q].concurrency {
      assert OfferLoad(s, q) <= s.offers[q].concurrency;
    }
  }

  lemma ClaimCounts(s: Db, n: Db, id: nat, digest: nat, g: Grant)
    requires digest !in s.grants && g.task == id && n.grants == s.grants[digest := g]
    ensures forall i :: TimesClaimed(n, i) == TimesClaimed(s, i) + (if i == id then 1 else 0)
  {
    forall i ensures TimesClaimed(n, i) == TimesClaimed(s, i) + (if i == id then 1 else 0) {
      SumChange(ClaimColumn(s, i), ClaimColumn(n, i), digest);
    }
  }

  lemma ClaimLeases(s: Db, n: Db, id: nat, row: Task, digest: nat)
    requires Leases(s) && id in s.tasks && digest !in s.grants && SameDeal(s.tasks[id], row)
    requires row.attempt == s.tasks[id].attempt + 1 && row.lease == Some(digest) && row.deadline.Some?
    requires n == s.(tasks := s.tasks[id := row], grants := s.grants[digest := Grant(id, row.attempt, row.deadline.value)])
    ensures Leases(n)
  {
    ClaimCounts(s, n, id, digest, Grant(id, row.attempt, row.deadline.value));
    forall d | d in n.grants ensures GrantOk(n, d) {
      if d != digest { assert GrantOk(s, d); }
    }
    forall i | i in n.tasks ensures LeaseOk(n, i) {
      if i != id { assert LeaseOk(s, i); }
    }
    forall r | r in n.selected ensures ReadOk(n, r) {
      assert ReadOk(s, r);
    }
  }

  lemma ClaimKeeps(s: Db, n: Db, id: nat, row: Task, digest: nat)
    requires Inv(s) && id in s.tasks && s.tasks[id].status == Queued && row.status == Claimed && digest !in s.grants
    requires SameDeal(s.tasks[id], row) && TaskOk(row) && TaskRefs(s, row) && Wound(s, row)
    requires row.attempt == s.tasks[id].attempt + 1 && row.lease == Some(digest) && row.deadline.Some?
    requires OfferLoad(s, row.offer) < s.offers[row.offer].concurrency
    requires n == s.(tasks := s.tasks[id := row], grants := s.grants[digest := Grant(id, row.attempt, row.deadline.value)])
    ensures Inv(n)
  {
    OneTaskRows(s, n, id, row);
    ClaimTotals(s, n, id, row);
    ClaimLeases(s, n, id, row, digest);
    OneTaskSettled(s, n, id, row);
    OneTaskAuthorized(s, n, id, row);
    FrameClaims(s, n);
  }

  // -------------------------------------------------------------- settlement

  lemma MovedAtLeast(buyer: Tenant, supplier: Tenant, e: Evidence, t: Tenant)
    requires buyer != supplier
    ensures Moved(buyer, supplier, e, t) >= if t == buyer then 0 - e.charge else 0
  {
  }

  lemma SettleJobMoney(s: Db, n: Db, id: nat, row: Job, e: Evidence)
    requires Money(s) && id in s.jobs && JobActive(s.jobs[id]) && row.status == JobCompleted
    requires e.charge == e.credit + e.fee && e.charge <= s.jobs[id].reserved && s.jobs[id].buyer != s.jobs[id].supplier
    requires forall f :: EffectOf(JobWork(id), f) !in s.ledger
    requires n.jobs == s.jobs[id := row] && n.tasks == s.tasks
    requires n.ledger == PostSettlement(s.ledger, JobWork(id), s.jobs[id].buyer, s.jobs[id].supplier, e)
    ensures Money(n)
  {
    var j := s.jobs[id];
    OneJob(s, n, id);
    PostingBalances(s, n, JobWork(id), j.buyer, j.supplier, e);
    forall t ensures 0 <= Available(n, t) {
      assert 0 <= Available(s, t);
      SettledJobHeld(s, n, id, row, t);
      MovedAtLeast(j.buyer, j.supplier, e, t);
    }
  }

  lemma SettledJobHeld(s: Db, n: Db, id: nat, row: Job, t: Tenant)
    requires id in s.jobs && JobActive(s.jobs[id]) && !JobActive(row) && n.jobs == s.jobs[id := row]
    requires Held(n, t) - At(ReservedJobColumn(n, t), id) == Held(s, t) - At(ReservedJobColumn(s, t), id)
    ensures Held(n, t) == Held(s, t) - if t == s.jobs[id].buyer then s.jobs[id].reserved else 0
  {
  }

  lemma SettleTaskMoney(s: Db, n: Db, id: nat, row: Task, e: Evidence)
    requires Money(s) && id in s.tasks && TaskActive(s.tasks[id]) && row.status == Completed
    requires e.charge == e.credit + e.fee && e.charge <= s.tasks[id].reserved && s.tasks[id].buyer != s.tasks[id].supplier
    requires forall f :: EffectOf(TaskWork(id), f) !in s.ledger
    requires n.tasks == s.tasks[id := row] && n.jobs == s.jobs
    requires n.ledger == PostSettlement(s.ledger, TaskWork(id), s.tasks[id].buyer, s.tasks[id].supplier, e)
    ensures Money(n)
  {
    var j := s.tasks[id];
    OneTask(s, n, id);
    PostingBalances(s, n, TaskWork(id), j.buyer, j.supplier, e);
    forall t ensures 0 <= Available(n, t) {
      assert 0 <= Available(s, t);
      SettledTaskHeld(s, n, id, row, t);
      MovedAtLeast(j.buyer, j.supplier, e, t);
    }
  }

  lemma SettledTaskHeld(s: Db, n: Db, id: nat, row: Task, t: Tenant)
    requires id in s.tasks && TaskActive(s.tasks[id]) && !TaskActive(row) && n.tasks == s.tasks[id := row]
    requires Held(n, t) - At(ReservedTaskColumn(n, t), id) == Held(s, t) - At(ReservedTaskColumn(s, t), id)
    ensures Held(n, t) == Held(s, t) - if t == s.tasks[id].buyer then s.tasks[id].reserved else 0
  {
  }

  lemma EndedJobCapacity(s: Db, n: Db, id: nat, row: Job)
    requires Capacity(s) && id in s.jobs && !JobActive(row)
    requires n.jobs == s.jobs[id := row] && n.tasks == s.tasks && n.offers == s.offers
    ensures Capacity(n)
  {
    OneJob(s, n, id);
    forall t ensures ActiveTasks(n, t) <= MAXIMUM_ACTIVE_TASKS {
      assert ActiveTasks(s, t) <= MAXIMUM_ACTIVE_TASKS;
    }
    forall q | q in n.offers ensures OfferLoad(n, q) <= n.offers[q].concurrency {
      assert OfferLoad(s, q) <= s.offers[q].concurrency;
    }
  }

  lemma EndedTaskCapacity(s: Db, n: Db, id: nat, row: Task)
    requires Capacity(s) && id in s.tasks && !TaskActive(row)
    requires n.tasks == s.tasks[id := row] && n.jobs == s.jobs && n.offers == s.offers
    ensures Capacity(n)
  {
    OneTask(s, n, id);
    forall t ensures ActiveTasks(n, t) <= MAXIMUM_ACTIVE_TASKS {
      assert ActiveTasks(s, t) <= MAXIMUM_ACTIVE_TASKS;
    }
    forall q | q in n.offers ensures OfferLoad(n, q) <= n.offers[q].concurrency {
      assert OfferLoad(s, q) <= s.offers[q].concurrency;
    }
  }

  /** Unsettled work has left no trace in the ledger, the usage records or the evidence. */
  lemma UnsettledIsUnposted(s: Db, w: Work)
    requires Settled(s) && !WorkDone(s, w)
    ensures w !in s.evidence && w !in s.usage && forall f :: EffectOf(w, f) !in s.ledger
  {
    assert w in s.evidence ==> WorkDone(s, w);
    forall k: EntryKey | k.EffectOf? && k.work == w ensures k !in s.ledger {
    }
  }

  lemma PostedElsewhere(s: Db, n: Db, w: Work, v: Work, buyer: Tenant, supplier: Tenant, e: Evidence, b: Tenant, p: Tenant, charge: Option<nat>)
    requires v != w && Posted(s, v, b, p, charge)
    requires forall f :: EffectOf(w, f) !in s.ledger
    requires n.evidence == s.evidence[w := e] && n.ledger == PostSettlement(s.ledger, w, buyer, supplier, e)
    ensures Posted(n, v, b, p, charge)
  {
    PostingAddsOnlyItsEffects(s.ledger, w, buyer, supplier, e);
  }

  /** Settling one piece of work leaves the postings of all other completed work in place. */
  lemma OthersStayPosted(s: Db, n: Db, w: Work, buyer: Tenant, supplier: Tenant, e: Evidence)
    requires Settled(s) && w !in s.evidence && (forall f :: EffectOf(w, f) !in s.ledger)
    requires n.evidence == s.evidence[w := e] && n.ledger == PostSettlement(s.ledger, w, buyer, supplier, e)
    ensures forall i :: i in s.jobs && s.jobs[i].status == JobCompleted && JobWork(i) != w ==>
              Posted(n, JobWork(i), s.jobs[i].buyer, s.jobs[i].supplier, s.jobs[i].charge)
    ensures forall i :: i in s.tasks && s.tasks[i].status == Completed && TaskWork(i) != w ==>
              Posted(n, TaskWork(i), s.tasks[i].buyer, s.tasks[i].supplier, s.tasks[i].charge)
  {
    forall i | i in s.jobs && s.jobs[i].status == JobCompleted && JobWork(i) != w
      ensures Posted(n, JobWork(i), s.jobs[i].buyer, s.jobs[i].supplier, s.jobs[i].charge)
    {
      PostedElsewhere(s, n, w, JobWork(i), buyer, supplier, e, s.jobs[i].buyer, s.jobs[i].supplier, s.jobs[i].charge);
    }
    forall i | i in s.tasks && s.tasks[i].status == Completed && TaskWork(i) != w
      ensures Posted(n, TaskWork(i), s.tasks[i].buyer, s.tasks[i].supplier, s.tasks[i].charge)
    {
      PostedElsewhere(s, n, w, TaskWork(i), buyer, supplier, e, s.tasks[i].buyer, s.tasks[i].supplier, s.tasks[i].charge);
    }
  }

  lemma LedgerStaysEvidenced(s: Db, n: Db, w: Work, buyer: Tenant, supplier: Tenant, e: Evidence)
    requires Settled(s) && (forall f :: EffectOf(w, f) !in s.ledger)
    requires n.evidence == s.evidence[w := e] && n.usage == s.usage + {w} && n.ledger == PostSettlement(s.ledger, w, buyer, supplier, e)
    ensures forall v :: v in n.usage <==> v in n.evidence
    ensures forall k :: k in n.ledger && k.EffectOf? ==> k.work in n.evidence
  {
    PostingAddsOnlyItsEffects(s.ledger, w, buyer, supplier, e);
  }

  lemma SettleJobSettled(s: Db, n: Db, id: nat, row: Job, e: Evidence)
    requires Settled(s) && id in s.jobs && s.jobs[id].status != JobCompleted
    requires row.status == JobCompleted && row.charge == Some(e.charge) && e.charge == e.credit + e.fee
    requires row.buyer == s.jobs[id].buyer && row.supplier == s.jobs[id].supplier
    requires n.jobs == s.jobs[id := row] && n.tasks == s.tasks
    requires n.evidence == s.evidence[JobWork(id) := e] && n.usage == s.usage + {JobWork(id)}
    requires n.ledger == PostSettlement(s.ledger, JobWork(id), row.buyer, row.supplier, e)
    ensures Settled(n)
  {
    var w := JobWork(id);
    UnsettledIsUnposted(s, w);
    PostingAddsOnlyItsEffects(s.ledger, w, row.buyer, row.supplier, e);
    OthersStayPosted(s, n, w, row.buyer, row.supplier, e);
    LedgerStaysEvidenced(s, n, w, row.buyer, row.supplier, e);
    forall v | v in n.evidence ensures WorkDone(n, v) {
      if v != w { assert WorkDone(s, v); }
    }
  }

  lemma SettleTaskSettled(s: Db, n: Db, id: nat, row: Task, e: Evidence)
    requires Settled(s) && id in s.tasks && s.tasks[id].status != Completed
    requires row.status == Completed && row.charge == Some(e.charge) && e.charge == e.credit + e.fee
    requires row.buyer == s.tasks[id].buyer && row.supplier == s.tasks[id].supplier
    requires n.tasks == s.tasks[id := row] && n.jobs == s.jobs
    requires n.evidence == s.evidence[TaskWork(id) := e] && n.usage == s.usage + {TaskWork(id)}
    requires n.ledger == PostSettlement(s.ledger, TaskWork(id), row.buyer, row.supplier, e)
    ensures Settled(n)
  {
    var w := TaskWork(id);
    UnsettledIsUnposted(s, w);
    PostingAddsOnlyItsEffects(s.ledger, w, row.buyer, row.supplier, e);
    OthersStayPosted(s, n, w, row.buyer, row.supplier, e);
    LedgerStaysEvidenced(s, n, w, row.buyer, row.supplier, e);
    forall v | v in n.evidence ensures WorkDone(n, v) {
      if v != w { assert WorkDone(s, v); }
    }
  }

  lemma EndedTaskLeases(s: Db, n: Db, id: nat, row: Task)
    requires Leases(s) && id in s.tasks && SameDeal(s.tasks[id], row) && row.lease.None? && row.attempt == s.tasks[id].attempt
    requires n.tasks == s.tasks[id := row] && n.grants == s.grants && n.selected == s.selected
    ensures Leases(n)
  {
    SameGrants(s, n);
    forall d | d in n.grants ensures GrantOk(n, d) { assert GrantOk(s, d); }
    forall i | i in n.tasks ensures LeaseOk(n, i) { if i != id { assert LeaseOk(s, i); } }
    forall r | r in n.selected ensures ReadOk(n, r) { assert ReadOk(s, r); }
  }

  lemma SettleJobKeeps(s: Db, n: Db, id: nat, row: Job, e: Evidence)
    requires Inv(s) && id in s.jobs && s.jobs[id].status == JobRunning
    requires JobOk(row) && JobRefs(s, row) && row.status == JobCompleted && row.charge == Some(e.charge)
    requires row.buyer == s.jobs[id].buyer && row.supplier == s.jobs[id].supplier && row.reserved == s.jobs[id].reserved
    requires e.charge == e.credit + e.fee
    requires n == s.(jobs := s.jobs[id := row], usage := s.usage + {JobWork(id)}, evidence := s.evidence[JobWork(id) := e],
                     ledger := PostSettlement(s.ledger, JobWork(id), row.buyer, row.supplier, e))
    ensures Inv(n)
  {
    UnsettledIsUnposted(s, JobWork(id));
    OneJobRows(s, n, id, row);
    SettleJobMoney(s, n, id, row, e);
    EndedJobCapacity(s, n, id, row);
    SettleJobSettled(s, n, id, row, e);
    OneJobAuthorized(s, n, id, row);
    FrameClaims(s, n);
    FrameLeases(s, n);
  }

  lemma SettleTaskKeeps(s: Db, n: Db, id: nat, row: Task, e: Evidence)
    requires Inv(s) && id in s.tasks && Leased(s.tasks[id]) && SameDeal(s.tasks[id], row)
    requires TaskOk(row) && TaskRefs(s, row) && row.status == Completed && row.charge == Some(e.charge)
    requires row.attempt == s.tasks[id].attempt && e.charge == e.credit + e.fee
    requires n == s.(tasks := s.tasks[id := row], usage := s.usage + {TaskWork(id)}, evidence := s.evidence[TaskWork(id) := e],
                     ledger := PostSettlement(s.ledger, TaskWork(id), row.buyer, row.supplier, e))
    ensures Inv(n)
  {
    UnsettledIsUnposted(s, TaskWork(id));
    OneTaskRows(s, n, id, row);
    SettleTaskMoney(s, n, id, row, e);
    EndedTaskCapacity(s, n, id, row);
    SettleTaskSettled(s, n, id, row, e);
    OneTaskAuthorized(s, n, id, row);
    EndedTaskLeases(s, n, id, row);
    FrameClaims(s, n);
  }
}
