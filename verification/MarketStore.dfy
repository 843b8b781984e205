/**
 The tables as mutable state and the service's batches as the statements they
 run, one after another. Each batch is proved to be one atomic transition.
 A batch that violates a unique index aborts: nothing it did is kept.
 */
module MarketStore {
  import opened Totals
  import opened MarketTables
  import opened MarketSteps
  import opened MarketInvariants
  import opened MarketRuns
  import opened MarketEveryRun

  /** Posting again beside the same evidence changes nothing. */
  lemma PostedTwice(s: Db, w: Work, buyer: Tenant, supplier: Tenant, charge: Option<nat>, e: Evidence)
    requires Posted(s, w, buyer, supplier, charge) && s.evidence[w] == e
    ensures PostSettlement(s.ledger, w, buyer, supplier, e) == s.ledger
  {
  }

  /** What the tables say about one piece of work: fully settled, or not at all. */
  ghost predicate Consistent(s: Db, w: Work, done: bool, buyer: Tenant, supplier: Tenant, charge: Option<nat>) {
    if done then Posted(s, w, buyer, supplier, charge) && w in s.usage
    else w !in s.evidence && w !in s.usage && forall f :: EffectOf(w, f) !in s.ledger
  }
  ghost predicate JobConsistent(s: Db, id: nat) {
    id in s.jobs && Consistent(s, JobWork(id), s.jobs[id].status == JobCompleted, s.jobs[id].buyer, s.jobs[id].supplier, s.jobs[id].charge)
  }
  ghost predicate TaskConsistent(s: Db, id: nat) {
    id in s.tasks && Consistent(s, TaskWork(id), s.tasks[id].status == Completed, s.tasks[id].buyer, s.tasks[id].supplier, s.tasks[id].charge)
  }

  /** In every reachable state every job and task is consistent: the settlement batches below can always be called. */
  lemma ReachableIsConsistent(steps: seq<Step>, id: nat)
    ensures var s := Run(EMPTY, steps);
            (id in s.jobs ==> JobConsistent(s, id)) && (id in s.tasks ==> TaskConsistent(s, id))
  {
    EveryRunIsSafe(steps);
    SettledIsConsistent(Run(EMPTY, steps), id);
  }

  lemma SettledIsConsistent(s: Db, id: nat)
    requires Settled(s)
    ensures id in s.jobs ==> JobConsistent(s, id)
    ensures id in s.tasks ==> TaskConsistent(s, id)
  {
    if id in s.jobs && s.jobs[id].status != JobCompleted { UnsettledIsUnposted(s, JobWork(id)); }
    if id in s.tasks && s.tasks[id].status != Completed { UnsettledIsUnposted(s, TaskWork(id)); }
  }

  // The rows of the expiry statements.

  predicate LapsedBefore(t: Task, now: Time) { (t.leaseUntil.Some? && t.leaseUntil.value < now) || DeadlinePassed(t, now) }
  predicate LapsedBy(t: Task, now: Time) { (t.leaseUntil.Some? && t.leaseUntil.value <= now) || DeadlinePassed(t, now) }
  predicate Late(t: Task, now: Time) { t.created <= now - QUEUE_TIMEOUT_MILLISECONDS }

  function CancelLapsed(t: Task, lapsed: bool, now: Time): Task {
    if Leased(t) && t.cancelAt.Some? && lapsed then EndTask(t, Cancelled, now) else t
  }
  function RequeueLapsed(t: Task, lapsed: bool, now: Time): Task {
    if Leased(t) && t.cancelAt.None? && lapsed && t.attempt < MAXIMUM_ATTEMPTS then Requeue(t, now) else t
  }
  function FailLapsed(t: Task, lapsed: bool, now: Time): Task {
    if Leased(t) && t.cancelAt.None? && lapsed && t.attempt >= MAXIMUM_ATTEMPTS then EndTask(t, Failed, now) else t
  }
  function SweepFailed(t: Task, now: Time): Task {
    if (t.status == Queued && Late(t, now))
       || (Leased(t) && t.cancelAt.None? && LapsedBy(t, now) && (t.attempt >= MAXIMUM_ATTEMPTS || Late(t, now)))
    then EndTask(t, Failed, now) else t
  }

  function CancelStatement(ts: map<nat, Task>, supplier: Tenant, now: Time): map<nat, Task> {
    map i | i in ts :: CancelLapsed(ts[i], ts[i].supplier == supplier && LapsedBefore(ts[i], now), now)
  }
  function RequeueStatement(ts: map<nat, Task>, supplier: Tenant, now: Time): map<nat, Task> {
    map i | i in ts :: RequeueLapsed(ts[i], ts[i].supplier == supplier && LapsedBefore(ts[i], now), now)
  }
  function FailStatement(ts: map<nat, Task>, supplier: Tenant, now: Time): map<nat, Task> {
    map i | i in ts :: FailLapsed(ts[i], ts[i].supplier == supplier && LapsedBefore(ts[i], now), now)
  }

  /** At most one of the three expiry statements applies to a row. */
  lemma ExpiryStatements(ts: map<nat, Task>, supplier: Tenant, now: Time)
    ensures FailStatement(RequeueStatement(CancelStatement(ts, supplier, now), supplier, now), supplier, now) == ExpiredTasks(ts, supplier, now)
  {
    var a := CancelStatement(ts, supplier, now);
    var b := RequeueStatement(a, supplier, now);
    var c := FailStatement(b, supplier, now);
    forall i | i in ts ensures c[i] == ExpireRow(ts[i], supplier, now) {
      assert a[i] == CancelLapsed(ts[i], ts[i].supplier == supplier && LapsedBefore(ts[i], now), now);
      assert b[i] == RequeueLapsed(a[i], a[i].supplier == supplier && LapsedBefore(a[i], now), now);
    }
  }

  function SweepCancelStatement(ts: map<nat, Task>, now: Time): map<nat, Task> {
    map i | i in ts :: CancelLapsed(ts[i], LapsedBy(ts[i], now), now)
  }
  function SweepRequeueStatement(ts: map<nat, Task>, now: Time): map<nat, Task> {
    map i | i in ts :: RequeueLapsed(ts[i], LapsedBy(ts[i], now) && !Late(ts[i], now), now)
  }
  function SweepFailStatement(ts: map<nat, Task>, now: Time): map<nat, Task> {
    map i | i in ts :: SweepFailed(ts[i], now)
  }

  /** A row that the second sweep statement requeues survives the third. */
  lemma SweepStatements(ts: map<nat, Task>, now: Time)
    ensures SweepFailStatement(SweepRequeueStatement(SweepCancelStatement(ts, now), now), now) == SweptTasks(ts, now)
  {
    var a := SweepCancelStatement(ts, now);
    var b := SweepRequeueStatement(a, now);
    var c := SweepFailStatement(b, now);
    forall i | i in ts ensures c[i] == SweepRow(ts[i], now) {
      assert a[i] == CancelLapsed(ts[i], LapsedBy(ts[i], now), now);
      assert b[i] == RequeueLapsed(a[i], LapsedBy(a[i], now) && !Late(a[i], now), now);
    }
  }

  /** The outcome of the evidence, ledger and usage inserts of one task. */
  ghost predicate TaskRecord(s: Db, t: Task, w: Work, buyer: Tenant, supplier: Tenant, e: Evidence, now: Time,
                             ok: bool, u: set<Work>, v: map<Work, Evidence>, l: map<EntryKey, Entry>)
  {
    var recorded := t.supplier == supplier && t.status == Completed && t.completedAt == Some(now) && t.charge == Some(e.charge);
    var beside := w in v && v[w].digest == e.digest;
    && (recorded && w in s.evidence ==> !ok)
    && (beside && w in s.usage ==> !ok)
    && (!(recorded && w in s.evidence) && w !in s.usage ==> ok)
    && (ok ==> && v == (if recorded then s.evidence[w := e] else s.evidence)
               && l == (if beside then PostSettlement(s.ledger, w, buyer, supplier, e) else s.ledger)
               && u == (if beside then s.usage + {w} else s.usage))
  }

  /** Without the completion, the remaining statements abort or change nothing. */
  lemma FailedTaskBatch(s: Db, id: nat, buyer: Tenant, supplier: Tenant, e: Evidence, now: Time,
                        ok: bool, u: set<Work>, v: map<Work, Evidence>, l: map<EntryKey, Entry>)
    requires TaskConsistent(s, id) && TaskRecord(s, s.tasks[id], TaskWork(id), buyer, supplier, e, now, ok, u, v, l)
    ensures ok ==> u == s.usage && v == s.evidence && l == s.ledger
  {
  }

  /** With it, every index is free and the batch commits exactly one settlement. */
  lemma DoneTaskBatch(s: Db, row: Task, id: nat, buyer: Tenant, supplier: Tenant, e: Evidence, now: Time,
                      ok: bool, u: set<Work>, v: map<Work, Evidence>, l: map<EntryKey, Entry>)
    requires TaskConsistent(s, id) && s.tasks[id].status != Completed
    requires row.supplier == supplier && row.status == Completed && row.completedAt == Some(now) && row.charge == Some(e.charge)
    requires TaskRecord(s, row, TaskWork(id), buyer, supplier, e, now, ok, u, v, l)
    ensures ok && u == s.usage + {TaskWork(id)} && v == s.evidence[TaskWork(id) := e]
    ensures l == PostSettlement(s.ledger, TaskWork(id), buyer, supplier, e)
  {
  }

  lemma TaskBatchIsOneStep(s: Db, r: LeaseRead, u: Usage, feeBps: nat, digest: nat, e: Evidence, now: Time, dbNow: Time,
                           t: map<nat, Task>, ok: bool, us: set<Work>, v: map<Work, Evidence>, l: map<EntryKey, Entry>)
    requires TaskConsistent(s, r.task) && CompletionAccepted(s, r, u) && feeBps <= 5_000 && SameDeal(r.row, s.tasks[r.task])
    requires e == Settlement(digest, u.total, s.offers[r.row.offer].price, feeBps)
    requires t == if TaskGate(s, r, e.charge, dbNow) then s.tasks[r.task := SettleTaskRow(s.tasks[r.task], u, e.charge, now)] else s.tasks
    requires TaskRecord(s, t[r.task], TaskWork(r.task), r.row.buyer, r.row.supplier, e, now, ok, us, v, l)
    ensures SettleTask(s, r, u, feeBps, digest, now, dbNow) == if ok then s.(tasks := t, usage := us, evidence := v, ledger := l) else s
  {
    if TaskGate(s, r, e.charge, dbNow) {
      DoneTaskBatch(s, t[r.task], r.task, r.row.buyer, r.row.supplier, e, now, ok, us, v, l);
    } else {
      FailedTaskBatch(s, r.task, r.row.buyer, r.row.supplier, e, now, ok, us, v, l);
    }
  }

  // The cascade statements of the authorization batches.

  function FailQueuedStatement(ts: map<nat, Task>, id: nat, now: Time): map<nat, Task> {
    map i | i in ts :: if ts[i].auth == id && ts[i].status == Queued && ts[i].cancelAt.None? then EndTask(ts[i], Failed, now) else ts[i]
  }
  function CancelLeasedStatement(ts: map<nat, Task>, id: nat, now: Time): map<nat, Task> {
    map i | i in ts :: if ts[i].auth == id && Leased(ts[i]) && ts[i].cancelAt.None? then ts[i].(cancelAt := Some(now)) else ts[i]
  }

  lemma CascadeStatements(ts: map<nat, Task>, id: nat, now: Time)
    ensures CancelLeasedStatement(FailQueuedStatement(ts, id, now), id, now) == RevokedTasks(ts, id, now)
  {
    var a := FailQueuedStatement(ts, id, now);
    forall i | i in ts ensures CancelLeasedStatement(a, id, now)[i] == RevokeTaskRow(ts[i], id, now) {
      assert a[i] == if ts[i].auth == id && ts[i].status == Queued && ts[i].cancelAt.None? then EndTask(ts[i], Failed, now) else ts[i];
    }
  }

  /** Replayed after the revocation has committed, the cascade finds nothing left to do. */
  lemma CascadeIsIdle(s: Db, id: nat, now: Time)
    requires Authorized(s) && id in s.auths && s.auths[id].status == Revoked
    ensures RevokedJobs(s.jobs, id, now) == s.jobs && RevokedTasks(s.tasks, id, now) == s.tasks
  {
    forall i | i in s.jobs ensures RevokeJobRow(s.jobs[i], id, now) == s.jobs[i] { assert CarriesCurrent(s, s.jobs[i]); }
    forall i | i in s.tasks ensures RevokeTaskRow(s.tasks[i], id, now) == s.tasks[i] { assert Wound(s, s.tasks[i]); }
  }

  /** Replayed after the rotation has committed, no reservation of the displaced generation is left. */
  lemma RotationIsIdle(s: Db, id: nat, revision: nat, now: Time)
    requires Authorized(s) && id in s.auths && s.auths[id].revision != revision
    ensures RotatedJobs(s.jobs, id, revision, now) == s.jobs
  {
    forall i | i in s.jobs ensures RotateJobRow(s.jobs[i], id, revision, now) == s.jobs[i] { assert CarriesCurrent(s, s.jobs[i]); }
  }

  function RevokedSupplier(p: Supplier, version: nat, keep: bool): Supplier {
    p.(version := version + 1, enabled := p.enabled && keep)
  }

  /** The supplier, job and task statements, guarded by the revoked row at its next revision. */
  ghost predicate Cascaded(s: Db, id: nat, tenant: Tenant, revision: nat, version: nat, now: Time,
                           a: map<nat, Auth>, p: map<Tenant, Supplier>, j: map<nat, Job>, ts: map<nat, Task>)
  {
    var revoked := id in a && a[id].status == Revoked && a[id].revision == revision + 1;
    && (j == if revoked then RevokedJobs(s.jobs, id, now) else s.jobs)
    && (ts == if revoked then RevokedTasks(s.tasks, id, now) else s.tasks)
    && (p == if revoked && tenant in s.suppliers && s.suppliers[tenant].version == version && a[id].tenant == tenant
             then s.suppliers[tenant := RevokedSupplier(s.suppliers[tenant], version, HasUsableCredential(a, tenant, now))]
             else s.suppliers)
  }

  lemma RevokeBatchIsOneStep(s: Db, id: nat, tenant: Tenant, revision: nat, version: nat, command: nat, reason: string, token: nat, now: Time,
                             won: bool, k: map<KeyScope, Resource>, a: map<nat, Auth>, p: map<Tenant, Supplier>,
                             j: map<nat, Job>, ts: map<nat, Task>)
    requires Authorized(s) && (id in s.auths ==> now < s.auths[id].validUntil)
    requires id in s.auths && s.auths[id].status == Revoked && tenant in s.suppliers ==> s.suppliers[tenant].version != version
    requires won <==> CanClaimTarget(s, id, tenant, Approved, revision, version, Revoke, command, Binding(id, reason))
    requires k == if won then ClaimTarget(s, id, tenant, revision, Revoke, command, Binding(id, reason), token) else s.keys
    requires a == if won then s.auths[id := Cleared(s.auths[id]).(status := Revoked, revision := revision + 1)] else s.auths
    requires Cascaded(s, id, tenant, revision, version, now, a, p, j, ts)
    ensures RevokeAuth(s, id, tenant, revision, version, command, reason, token, now)
            == s.(keys := k, auths := a, suppliers := p, jobs := j, tasks := ts)
  {
    if won {
      assert p == s.suppliers[tenant := s.suppliers[tenant].(version := version + 1, enabled := s.suppliers[tenant].enabled && HasUsableCredential(a, tenant, now))];
    } else if id in s.auths && s.auths[id].status == Revoked {
      CascadeIsIdle(s, id, now);
    }
  }

  // The rows of the maintenance batch's authorization statements.

  function ExpirePendingRow(a: Auth, now: Time): Auth {
    if a.status == Pending && (a.created <= now - PENDING_REVIEW_MILLISECONDS || a.validUntil <= now)
    then Cleared(a).(status := Rejected) else a
  }
  function ScrubExpiredRow(a: Auth, now: Time): Auth { if a.validUntil <= now then Cleared(a) else a }
  function ScrubEndedRow(a: Auth): Auth { if a.status == Withdrawn || a.status == Revoked then Cleared(a) else a }

  function ExpirePendingStatement(auths: map<nat, Auth>, now: Time): map<nat, Auth> {
    map i | i in auths :: ExpirePendingRow(auths[i], now)
  }
  function ScrubExpiredStatement(auths: map<nat, Auth>, now: Time): map<nat, Auth> {
    map i | i in auths :: ScrubExpiredRow(auths[i], now)
  }
  function ScrubEndedStatement(auths: map<nat, Auth>): map<nat, Auth> {
    map i | i in auths :: ScrubEndedRow(auths[i])
  }

  function FailStaleStatement(jobs: map<nat, Job>, now: Time): map<nat, Job> {
    map i | i in jobs :: if JobStale(jobs[i], now) then FailJobRow(jobs[i], now) else jobs[i]
  }

  lemma CredentialStatements(auths: map<nat, Auth>, now: Time)
    ensures ScrubEndedStatement(ScrubExpiredStatement(ExpirePendingStatement(auths, now), now))
            == map i | i in auths :: MaintainAuthRow(auths[i], now)
  {
    var a := ExpirePendingStatement(auths, now);
    var b := ScrubExpiredStatement(a, now);
    forall i | i in auths ensures ScrubEndedStatement(b)[i] == MaintainAuthRow(auths[i], now) {
      assert a[i] == ExpirePendingRow(auths[i], now);
      assert b[i] == ScrubExpiredRow(a[i], now);
    }
  }

  lemma MaintenanceStatements(s: Db, n: Db, now: Time)
    requires n == s.(jobs := FailStaleStatement(s.jobs, now),
                     auths := ScrubEndedStatement(ScrubExpiredStatement(ExpirePendingStatement(s.auths, now), now)))
    ensures n == Maintain(s, now)
  {
    assert n.jobs == ExpireJobs(s, now).jobs;
    CredentialStatements(s.auths, now);
    assert n.auths == Maintain(s, now).auths;
  }

  /** The rows of one rewrap batch, in order. */
  function Rewrapped(s: Db, rows: seq<(nat, Sealed, Sealed)>): Db
    decreases |rows|
  {
    if rows == [] then s else Rewrapped(Rewrap(s, rows[0].0, rows[0].1, rows[0].2), rows[1..])
  }

  class Store {
    var jobs: map<nat, Job>
    var tasks: map<nat, Task>
    var ledger: map<EntryKey, Entry>
    var evidence: map<Work, Evidence>
    var usage: set<Work>
    var offers: map<nat, Offer>
    var suppliers: map<Tenant, Supplier>
    var auths: map<nat, Auth>
    var keys: map<KeyScope, Resource>
    var artifacts: map<nat, Artifact>
    ghost var selected: set<LeaseRead>
    ghost var grants: map<nat, Grant>

    ghost function Snapshot(): Db
      reads this
    {
      Db(jobs, tasks, ledger, evidence, usage, offers, suppliers, auths, keys, artifacts, selected, grants)
    }

    constructor ()
      ensures Snapshot() == EMPTY
    {
      jobs, tasks, ledger, evidence, usage := map[], map[], map[], map[], {};
      offers, suppliers, auths, keys, artifacts := map[], map[], map[], map[], map[];
      selected, grants := {}, map[];
    }

    // ------------------------------------------------------------- queries

    method AvailableBalance(t: Tenant) returns (available: int)
      ensures available == Available(Snapshot(), t)
    {
      var entries: map<EntryKey, int> := map k | k in ledger && ledger[k].tenant == t :: ledger[k].Signed();
      var open: map<nat, int> := map i | i in jobs && jobs[i].buyer == t && JobActive(jobs[i]) :: jobs[i].reserved;
      var queued: map<nat, int> := map i | i in tasks && tasks[i].buyer == t && TaskActive(tasks[i]) :: tasks[i].reserved;
      var balance := SumColumn(entries);
      var inJobs := SumColumn(open);
      var inTasks := SumColumn(queued);
      assert entries == BalanceColumn(Snapshot(), t);
      assert open == ReservedJobColumn(Snapshot(), t);
      assert queued == ReservedTaskColumn(Snapshot(), t);
      available := balance - inJobs - inTasks;
    }

    method LoadOfOffer(o: nat) returns (load: int)
      ensures load == OfferLoad(Snapshot(), o)
    {
      var open: map<nat, int> := map i | i in jobs && jobs[i].offer == o && JobActive(jobs[i]) :: 1;
      var leased: map<nat, int> := map i | i in tasks && tasks[i].offer == o && Leased(tasks[i]) :: 1;
      var inJobs := SumColumn(open);
      var inTasks := SumColumn(leased);
      assert open == OfferJobColumn(Snapshot(), o);
      assert leased == OfferTaskColumn(Snapshot(), o);
      load := inJobs + inTasks;
    }

    method ActiveTasksOf(t: Tenant) returns (active: int)
      ensures active == ActiveTasks(Snapshot(), t)
    {
      var open: map<nat, int> := map i | i in tasks && tasks[i].buyer == t && TaskActive(tasks[i]) :: 1;
      active := SumColumn(open);
      assert open == ActiveTaskColumn(Snapshot(), t);
    }

    // ---------------------------------------------------------- settlement

    /** COMPLETE_INFERENCE_JOB_SQL: the job table after the guarded update. */
    method CompleteJobStatement(id: nat, charge: nat, now: Time, dbNow: Time) returns (after: map<nat, Job>)
      requires id in jobs
      ensures after == if JobGate(Snapshot(), id, charge, dbNow) then jobs[id := SettleJobRow(jobs[id], charge, now)] else jobs
    {
      var available := AvailableBalance(jobs[id].buyer);
      if jobs[id].status == JobRunning && jobs[id].expires.Some? && jobs[id].expires.value > dbNow
         && jobs[id].reserved >= charge && available + jobs[id].reserved >= charge {
        after := jobs[id := SettleJobRow(jobs[id], charge, now)];
      } else {
        after := jobs;
      }
    }

    /** The usage record and the evidence row, each under a unique index on the work: a duplicate aborts. */
    method RecordStatements(j: Job, w: Work, e: Evidence, now: Time) returns (ok: bool, u: set<Work>, v: map<Work, Evidence>)
      ensures var recorded := j.status == JobCompleted && j.completedAt == Some(now);
              && (ok <==> !(recorded && (w in usage || (j.charge == Some(e.charge) && w in evidence))))
              && (ok ==> u == if recorded then usage + {w} else usage)
              && (ok ==> v == if recorded && j.charge == Some(e.charge) then evidence[w := e] else evidence)
    {
      ok, u, v := true, usage, evidence;
      if j.status == JobCompleted && j.completedAt == Some(now) {
        if w in u { return false, u, v; }
        u := u + {w};
      }
      if j.status == JobCompleted && j.completedAt == Some(now) && j.charge == Some(e.charge) {
        if w in v { return false, u, v; }
        v := v[w := e];
      }
    }

    /**
     The inference settlement batch: the guarded completion, the usage record and
     the evidence (both under unique indexes), then ledger entries that insert only
     beside this evidence digest and only once per effect. Retried or racing
     batches add nothing. A digest determines the settlement it prices.
     */
    method InferenceStatements(id: nat, tokens: nat, feeBps: nat, digest: nat, now: Time, dbNow: Time)
      returns (ok: bool, j: map<nat, Job>, u: set<Work>, v: map<Work, Evidence>, l: map<EntryKey, Entry>)
      requires JobConsistent(Snapshot(), id) && jobs[id].offer in offers && 1 <= tokens && feeBps <= 5_000
      requires JobWork(id) in evidence && evidence[JobWork(id)].digest == digest ==>
               evidence[JobWork(id)] == Settlement(digest, tokens, offers[jobs[id].offer].price, feeBps)
      ensures SettleJob(Snapshot(), id, tokens, feeBps, digest, now, dbNow)
              == if ok then Snapshot().(jobs := j, usage := u, evidence := v, ledger := l) else Snapshot()
    {
      ghost var s := Snapshot();
      var w := JobWork(id);
      var e := Settlement(digest, tokens, offers[jobs[id].offer].price, feeBps);
      j := CompleteJobStatement(id, e.charge, now, dbNow);
      l := ledger;
      ok, u, v := RecordStatements(j[id], w, e, now);
      if ok {
        if w in evidence && evidence[w] == e { PostedTwice(s, w, j[id].buyer, j[id].supplier, s.jobs[id].charge, e); }
        l := LedgerStatements(ledger, v, w, j[id].buyer, j[id].supplier, e);
      }
    }

    method CompleteInference(id: nat, tokens: nat, feeBps: nat, digest: nat, now: Time, dbNow: Time) returns (committed: bool)
      requires JobConsistent(Snapshot(), id) && jobs[id].offer in offers && 1 <= tokens && feeBps <= 5_000
      requires JobWork(id) in evidence && evidence[JobWork(id)].digest == digest ==>
               evidence[JobWork(id)] == Settlement(digest, tokens, offers[jobs[id].offer].price, feeBps)
      modifies this`jobs, this`usage, this`evidence, this`ledger
      ensures Snapshot() == SettleJob(old(Snapshot()), id, tokens, feeBps, digest, now, dbNow)
    {
      var j, u, v, l;
      committed, j, u, v, l := InferenceStatements(id, tokens, feeBps, digest, now, dbNow);
      if committed { jobs, usage, evidence, ledger := j, u, v, l; }
    }

    /** COMPLETE_ARTIFACT_TASK_SQL: the task table after the guarded update. */
    method CompleteTaskStatement(r: LeaseRead, u: Usage, charge: nat, now: Time, dbNow: Time) returns (after: map<nat, Task>)
      requires r.task in tasks
      ensures after == if TaskGate(Snapshot(), r, charge, dbNow) then tasks[r.task := SettleTaskRow(tasks[r.task], u, charge, now)] else tasks
    {
      var t := tasks[r.task];
      var available := AvailableBalance(t.buyer);
      if HoldsLease(t, r.row.supplier, r.digest, dbNow) && t.attempt == r.row.attempt && t.segments == r.row.segments
         && t.totalSegments == r.row.totalSegments && t.bytes == r.row.bytes && t.usage == r.row.usage
         && t.reserved >= charge && available + t.reserved >= charge {
        after := tasks[r.task := SettleTaskRow(t, u, charge, now)];
      } else {
        after := tasks;
      }
    }

    /** Evidence, ledger and usage inserts of a completed task: either unique index aborts a duplicate. */
    method RecordTaskStatements(t: Task, w: Work, buyer: Tenant, supplier: Tenant, e: Evidence, now: Time)
      returns (ok: bool, u: set<Work>, v: map<Work, Evidence>, l: map<EntryKey, Entry>)
      ensures TaskRecord(Snapshot(), t, w, buyer, supplier, e, now, ok, u, v, l)
    {
      ok, u, v, l := true, usage, evidence, ledger;
      if t.supplier == supplier && t.status == Completed && t.completedAt == Some(now) && t.charge == Some(e.charge) {
        if w in v { return false, u, v, l; }
        v := v[w := e];
      }
      l := LedgerStatements(l, v, w, buyer, supplier, e);
      if w in v && v[w].digest == e.digest {
        if w in u { return false, u, v, l; }
        u := u + {w};
      }
    }

    /**
     The artifact settlement batch. The usage insert runs beside any evidence of
     the same digest, so a second completion of the same work always aborts there,
     before its fee could be written.
     */
    method TaskStatements(r: LeaseRead, u: Usage, feeBps: nat, digest: nat, now: Time, dbNow: Time)
      returns (ok: bool, t: map<nat, Task>, us: set<Work>, v: map<Work, Evidence>, l: map<EntryKey, Entry>)
      requires TaskConsistent(Snapshot(), r.task) && CompletionAccepted(Snapshot(), r, u) && feeBps <= 5_000
      requires SameDeal(r.row, tasks[r.task])
      ensures SettleTask(Snapshot(), r, u, feeBps, digest, now, dbNow)
              == if ok then Snapshot().(tasks := t, usage := us, evidence := v, ledger := l) else Snapshot()
    {
      var e := Settlement(digest, u.total, offers[r.row.offer].price, feeBps);
      t := CompleteTaskStatement(r, u, e.charge, now, dbNow);
      ok, us, v, l := RecordTaskStatements(t[r.task], TaskWork(r.task), r.row.buyer, r.row.supplier, e, now);
      TaskBatchIsOneStep(Snapshot(), r, u, feeBps, digest, e, now, dbNow, t, ok, us, v, l);
    }

    method CompleteTask(r: LeaseRead, u: Usage, feeBps: nat, digest: nat, now: Time, dbNow: Time) returns (committed: bool)
      requires TaskConsistent(Snapshot(), r.task) && CompletionAccepted(Snapshot(), r, u) && feeBps <= 5_000
      requires SameDeal(r.row, tasks[r.task])
      modifies this`tasks, this`usage, this`evidence, this`ledger
      ensures Snapshot() == SettleTask(old(Snapshot()), r, u, feeBps, digest, now, dbNow)
    {
      var t, us, v, l;
      committed, t, us, v, l := TaskStatements(r, u, feeBps, digest, now, dbNow);
      if committed { tasks, usage, evidence, ledger := t, us, v, l; }
    }

    // -------------------------------------------------------- reservations

    /** OfferUsable as the statement's EXISTS join evaluates it. */
    method ReserveInference(id: nat, buyer: Tenant, o: nat, revision: nat, idem: nat, tokens: nat, now: Time) returns (reserved: bool)
      modifies this`jobs
      ensures Snapshot() == ReserveJob(old(Snapshot()), id, buyer, o, revision, idem, tokens, now)
      ensures reserved <==> CanReserveJob(old(Snapshot()), id, buyer, o, revision, idem, tokens, now)
    {
      var available := AvailableBalance(buyer);
      var load := LoadOfOffer(o);
      reserved := UsableOffer(o, revision, buyer, now);
      if !reserved { return; }
      reserved := && id !in jobs && (forall i | i in jobs :: jobs[i].buyer != buyer || jobs[i].idem != idem)
                  && available >= Charge(tokens, offers[o].price) && load < offers[o].concurrency;
      if reserved {
        jobs := jobs[id := NewJob(offers[o], o, buyer, revision, idem, tokens, now)];
      }
    }

    method ReserveArtifactTask(id: nat, buyer: Tenant, artifact: nat, o: nat, revision: nat, idem: nat, maxTotal: nat, now: Time)
      returns (reserved: bool)
      modifies this`tasks
      ensures Snapshot() == ReserveTask(old(Snapshot()), id, buyer, artifact, o, revision, idem, maxTotal, now)
      ensures reserved <==> CanReserveTask(old(Snapshot()), id, buyer, artifact, o, revision, idem, maxTotal, now)
    {
      var available := AvailableBalance(buyer);
      var active := ActiveTasksOf(buyer);
      reserved := UsableOffer(o, revision, buyer, now);
      if !reserved || artifact !in artifacts { return false; }
      var a := artifacts[artifact];
      reserved := && id !in tasks && (forall i | i in tasks :: tasks[i].buyer != buyer || tasks[i].idem != idem)
                  && a.tenant == buyer && a.ready && !a.purged && now < a.expires
                  && active < MAXIMUM_ACTIVE_TASKS && available >= Charge(maxTotal, offers[o].price);
      if reserved {
        tasks := tasks[id := NewTask(offers[o], o, buyer, artifact, revision, idem, maxTotal, now)];
      }
    }

    method UsableOffer(o: nat, revision: nat, buyer: Tenant, now: Time) returns (usable: bool)
      ensures usable <==> OfferUsable(Snapshot(), o, revision, buyer, now)
    {
      if o !in offers || offers[o].tenant !in suppliers || offers[o].auth !in auths { return false; }
      var f, ar, p := offers[o], auths[offers[o].auth], suppliers[offers[o].tenant];
      usable := && ar.status == Approved && ar.tenant == f.tenant && ar.provider == f.provider && ar.revision == revision
                && ar.sealed.token != "" && ar.sealed.iv != "" && ar.digest.Some?
                && f.tenant != buyer && f.validFrom <= now < f.validUntil && now < ar.validUntil && p.active && p.enabled;
    }

    // ------------------------------------------- expiry, sweep and cancellation

    /** The three updates that precede a claim, in order. */
    method ExpireSupplierLeases(supplier: Tenant, now: Time)
      modifies this`tasks
      ensures Snapshot() == ExpireLeases(old(Snapshot()), supplier, now)
    {
      ExpiryStatements(tasks, supplier, now);
      tasks := CancelStatement(tasks, supplier, now);
      tasks := RequeueStatement(tasks, supplier, now);
      tasks := FailStatement(tasks, supplier, now);
    }

    /** The retention sweep's three updates, in order. */
    method SweepArtifactTasks(now: Time)
      modifies this`tasks
      ensures Snapshot() == SweepTasks(old(Snapshot()), now)
    {
      SweepStatements(tasks, now);
      tasks := SweepCancelStatement(tasks, now);
      tasks := SweepRequeueStatement(tasks, now);
      tasks := SweepFailStatement(tasks, now);
    }

    /** The cancellation batch: claim the target, then update only under that claim's token. */
    method CancelArtifactTask(buyer: Tenant, id: nat, command: nat, token: nat, now: Time)
      requires forall k :: k in keys ==> keys[k] != Token(token)
      modifies this`tasks, this`keys
      ensures Snapshot() == CancelTask(old(Snapshot()), buyer, id, command, token, now)
    {
      var target := CancelTargetKey(buyer, id);
      if target !in keys && id in tasks && tasks[id].buyer == buyer && TaskActive(tasks[id]) && tasks[id].cancelAt.None?
         && CancelCommandKey(buyer, command) in keys && keys[CancelCommandKey(buyer, command)] == Binding(id, "") {
        keys := keys[target := Token(token)];
      }
      if id in tasks && tasks[id].buyer == buyer && TaskActive(tasks[id]) && tasks[id].cancelAt.None?
         && target in keys && keys[target] == Token(token) {
        tasks := tasks[id := CancelRow(tasks[id], now)];
      }
    }

    // --------------------------------------------- authorization lifecycles

    ghost predicate FreshToken(token: nat)
      reads this
    {
      forall k :: k in keys ==> keys[k] != Token(token)
    }

    /** Claim the revision's target, then bind the command, under a fresh operation token. */
    method ClaimAndBind(id: nat, tenant: Tenant, status: AuthStatus, revision: nat, version: nat, op: Operation, command: nat,
                        binding: Resource, token: nat, allowed: bool) returns (k: map<KeyScope, Resource>, won: bool)
      requires FreshToken(token) && op != LifecycleTarget
      ensures won <==> (allowed && CanClaimTarget(Snapshot(), id, tenant, status, revision, version, op, command, binding))
      ensures k == if won then ClaimTarget(Snapshot(), id, tenant, revision, op, command, binding, token) else keys
      ensures won <==> (TargetKey(id, revision) in k && k[TargetKey(id, revision)] == Token(token))
      ensures won ==> CommandKey(tenant, op, command) in k && k[CommandKey(tenant, op, command)] == binding
    {
      k := keys;
      var target, ck := TargetKey(id, revision), CommandKey(tenant, op, command);
      if allowed && id in auths && auths[id].tenant == tenant && auths[id].status == status && auths[id].revision == revision
         && tenant in suppliers && suppliers[tenant].version == version
         && !(ck in k && k[ck] != binding) && target !in k {
        k := k[target := Token(token)];
      }
      won := target in k && k[target] == Token(token);
      if won && ck !in k { k := k[ck := binding]; }
    }

    method CascadeOf(id: nat, tenant: Tenant, revision: nat, version: nat, now: Time, a: map<nat, Auth>)
      returns (p: map<Tenant, Supplier>, j: map<nat, Job>, ts: map<nat, Task>)
      ensures Cascaded(Snapshot(), id, tenant, revision, version, now, a, p, j, ts)
    {
      p, j, ts := suppliers, jobs, tasks;
      var revoked := id in a && a[id].status == Revoked && a[id].revision == revision + 1;
      if revoked && tenant in p && p[tenant].version == version && a[id].tenant == tenant {
        p := p[tenant := RevokedSupplier(p[tenant], version, HasUsableCredential(a, tenant, now))];
      }
      if revoked { j := RevokedJobs(j, id, now); }
      if revoked { ts := FailQueuedStatement(ts, id, now); }
      if revoked { ts := CancelLeasedStatement(ts, id, now); }
      CascadeStatements(tasks, id, now);
    }

    /**
     The statements of the revocation batch. The service refuses an expired row
     before it starts, and its version was read while the row was still approved,
     so in a replay the claim is lost, the version is stale and the cascade finds
     nothing to do.
     */
    method RevokeStatements(id: nat, tenant: Tenant, revision: nat, version: nat, command: nat, reason: string, token: nat, now: Time)
      returns (k: map<KeyScope, Resource>, a: map<nat, Auth>, p: map<Tenant, Supplier>, j: map<nat, Job>, ts: map<nat, Task>)
      requires FreshToken(token) && Authorized(Snapshot())
      requires id in auths ==> now < auths[id].validUntil
      requires id in auths && auths[id].status == Revoked && tenant in suppliers ==> suppliers[tenant].version != version
      ensures RevokeAuth(Snapshot(), id, tenant, revision, version, command, reason, token, now)
              == Snapshot().(keys := k, auths := a, suppliers := p, jobs := j, tasks := ts)
    {
      var won;
      k, won := ClaimAndBind(id, tenant, Approved, revision, version, Revoke, command, Binding(id, reason), token, true);
      a := auths;
      if won && a[id].status == Approved && now < a[id].validUntil && a[id].revision == revision {
        a := a[id := Cleared(a[id]).(status := Revoked, revision := revision + 1)];
      }
      p, j, ts := CascadeOf(id, tenant, revision, version, now, a);
      RevokeBatchIsOneStep(Snapshot(), id, tenant, revision, version, command, reason, token, now, won, k, a, p, j, ts);
    }

    method RevokeBatch(id: nat, tenant: Tenant, revision: nat, version: nat, command: nat, reason: string, token: nat, now: Time)
      requires FreshToken(token) && Authorized(Snapshot())
      requires id in auths ==> now < auths[id].validUntil
      requires id in auths && auths[id].status == Revoked && tenant in suppliers ==> suppliers[tenant].version != version
      modifies this`keys, this`auths, this`suppliers, this`jobs, this`tasks
      ensures Snapshot() == RevokeAuth(old(Snapshot()), id, tenant, revision, version, command, reason, token, now)
    {
      keys, auths, suppliers, jobs, tasks := RevokeStatements(id, tenant, revision, version, command, reason, token, now);
    }

    /** The withdrawal batch. */
    method WithdrawBatch(id: nat, tenant: Tenant, revision: nat, version: nat, command: nat, reason: string, token: nat)
      requires FreshToken(token)
      modifies this`keys, this`auths
      ensures Snapshot() == WithdrawAuth(old(Snapshot()), id, tenant, revision, version, command, reason, token)
    {
      var won;
      keys, won := ClaimAndBind(id, tenant, Pending, revision, version, Withdraw, command, Binding(id, reason), token, true);
      if won && auths[id].status == Pending && auths[id].revision == revision {
        auths := auths[id := Cleared(auths[id]).(status := Withdrawn, revision := revision + 1)];
      }
    }

    /** The statements of the rotation batch; in a replay no reservation of the displaced generation is left. */
    method RotateStatements(id: nat, tenant: Tenant, revision: nat, version: nat, command: nat, reason: string, token: nat,
                            prior: Sealed, sealed: Sealed, active: Lookup, lookups: set<Lookup>, legacy: string, now: Time)
      returns (k: map<KeyScope, Resource>, a: map<nat, Auth>, j: map<nat, Job>)
      requires FreshToken(token) && Authorized(Snapshot())
      ensures RotateAuth(Snapshot(), id, tenant, revision, version, command, reason, token, prior, sealed, active, lookups, legacy, now)
              == Snapshot().(keys := k, auths := a, jobs := j)
    {
      var allowed := RotationAllowed(auths, id, tenant, prior, lookups, legacy, now);
      var won;
      k, won := ClaimAndBind(id, tenant, Approved, revision, version, Rotate, command, Binding(id, reason + ":" + legacy), token, allowed);
      a := auths;
      if won && RotationAllowed(a, id, tenant, prior, lookups, legacy, now) && a[id].status == Approved && a[id].revision == revision {
        a := a[id := RotatedRow(a[id], sealed, active)];
      }
      j := jobs;
      if id in a && a[id].tenant == tenant && a[id].status == Approved && a[id].revision == revision + 1 && a[id].digest == Some(active.digest) {
        if !won { RotationIsIdle(Snapshot(), id, revision, now); }
        j := RotatedJobs(j, id, revision, now);
      }
    }

    method RotateBatch(id: nat, tenant: Tenant, revision: nat, version: nat, command: nat, reason: string, token: nat,
                       prior: Sealed, sealed: Sealed, active: Lookup, lookups: set<Lookup>, legacy: string, now: Time)
      requires FreshToken(token) && Authorized(Snapshot())
      modifies this`keys, this`auths, this`jobs
      ensures Snapshot() == RotateAuth(old(Snapshot()), id, tenant, revision, version, command, reason, token, prior, sealed, active, lookups, legacy, now)
    {
      keys, auths, jobs := RotateStatements(id, tenant, revision, version, command, reason, token, prior, sealed, active, lookups, legacy, now);
    }

    /** The approval batch: the claim does not look at the supplier version, the approval does. */
    method ApproveStatements(id: nat, reviewer: Tenant, command: nat, token: nat, lookups: set<Lookup>, legacy: string,
                             version: nat, next: nat, now: Time)
      returns (k: map<KeyScope, Resource>, a: map<nat, Auth>, p: map<Tenant, Supplier>)
      requires FreshToken(token) && id in auths
      ensures ApproveAuth(Snapshot(), id, reviewer, command, token, lookups, legacy, version, next, now)
              == Snapshot().(keys := k, auths := a, suppliers := p)
    {
      k, a, p := keys, auths, suppliers;
      var target, ck, binding := ReviewTargetKey(id), ReviewCommandKey(reviewer, command), ReviewBinding(id, APPROVE);
      if a[id].tenant != reviewer && a[id].status == Pending && a[id].review.None?
         && |Matching(a, lookups, legacy, now)| < MAXIMUM_AUTHORIZATIONS_PER_TOKEN
         && !(ck in k && k[ck] != binding) && target !in k {
        k := k[target := Token(token)];
      }
      var won := target in k && k[target] == Token(token);
      if won && ck !in k { k := k[ck := binding]; }
      var t := a[id].tenant;
      if won && ck in k && k[ck] == binding && a[id].status == Pending && a[id].review.None? && t in p && p[t].version == version {
        a := a[id := a[id].(status := Approved, review := Some(command))];
        p := p[t := p[t].(active := true, version := next)];
      }
    }

    method ApproveBatch(id: nat, reviewer: Tenant, command: nat, token: nat, lookups: set<Lookup>, legacy: string,
                        version: nat, next: nat, now: Time)
      requires FreshToken(token) && id in auths
      modifies this`keys, this`auths, this`suppliers
      ensures Snapshot() == ApproveAuth(old(Snapshot()), id, reviewer, command, token, lookups, legacy, version, next, now)
    {
      keys, auths, suppliers := ApproveStatements(id, reviewer, command, token, lookups, legacy, version, next, now);
    }

    // --------------------------------------------------------- lease holder

    /** Selects the row a live lease stands for, or acknowledges a cancellation pending on that very lease. */
    method RequireLeasedTask(id: nat, supplier: Tenant, digest: nat, now: Time) returns (found: Option<Task>)
      modifies this`tasks, this`selected
      ensures found == if id in old(tasks) && HoldsLease(old(tasks)[id], supplier, digest, now) then Some(old(tasks)[id]) else None
      ensures Snapshot() == if found.Some? then ReadLease(old(Snapshot()), id, supplier, digest, now)
                            else ObserveCancellation(old(Snapshot()), id, supplier, digest, now)
    {
      if id !in tasks { return None; }
      var t := tasks[id];
      if HoldsLease(t, supplier, digest, now) {
        selected := selected + {LeaseRead(id, digest, t)};
        return Some(t);
      }
      if t.supplier == supplier && t.lease == Some(digest) && t.cancelAt.Some? && Leased(t) {
        tasks := tasks[id := ClearLease(t).(status := Cancelled, completedAt := if t.completedAt.Some? then t.completedAt else Some(now))];
      }
      found := None;
    }

    /** The checks on the selected row, then the UPDATE that repeats them on the current one. */
    method CheckpointArtifactTask(r: LeaseRead, p: Progress, clock: Time, dbNow: Time) returns (accepted: bool)
      requires r in selected && r.row.artifact in artifacts
      modifies this`tasks
      ensures Snapshot() == CheckpointTask(old(Snapshot()), r, p, clock, dbNow)
      ensures accepted <==> (CheckpointAccepted(old(Snapshot()), r, p) && r.task in old(tasks)
                             && CheckpointGate(old(tasks)[r.task], r.row.supplier, r.digest, p, dbNow))
    {
      var t := r.row;
      if p.bytes > artifacts[t.artifact].size || p.usage.total != p.usage.input + p.usage.output || p.usage.total > t.maxTotal { return false; }
      if p.segments > p.totalSegments || p.segments < t.segments || p.bytes < t.bytes
         || p.usage.input < InputTokens(t.usage) || p.usage.output < OutputTokens(t.usage) || p.usage.total < TotalTokens(t.usage) { return false; }
      if t.deadline.None? || r.task !in tasks { return false; }
      var until := Min(clock + LEASE_MILLISECONDS, t.deadline.value);
      accepted := CheckpointGate(tasks[r.task], t.supplier, r.digest, p, dbNow);
      if accepted {
        tasks := tasks[r.task := CheckpointRow(tasks[r.task], p, until)];
      }
    }

    method FailArtifactTask(r: LeaseRead, retryable: bool, now: Time, dbNow: Time) returns (failed: bool)
      requires r in selected
      modifies this`tasks
      ensures Snapshot() == FailTask(old(Snapshot()), r, retryable, now, dbNow)
      ensures failed <==> (r.task in old(tasks) && HoldsLease(old(tasks)[r.task], r.row.supplier, r.digest, dbNow))
    {
      var retry := retryable && r.row.attempt < MAXIMUM_ATTEMPTS;
      failed := r.task in tasks && HoldsLease(tasks[r.task], r.row.supplier, r.digest, dbNow);
      if failed {
        tasks := tasks[r.task := FailTaskRow(tasks[r.task], retry, now)];
      }
    }

    // --------------------------------------------------------- maintenance

    /** The job sweep and the three credential statements, in order. */
    method MaintenanceBatch(now: Time)
      modifies this`jobs, this`auths
      ensures Snapshot() == Maintain(old(Snapshot()), now)
    {
      ghost var s := Snapshot();
      jobs := FailStaleStatement(jobs, now);
      auths := ExpirePendingStatement(auths, now);
      auths := ScrubExpiredStatement(auths, now);
      auths := ScrubEndedStatement(auths);
      MaintenanceStatements(s, Snapshot(), now);
    }

    /** One compare-and-swap per selected ciphertext; a row cleared or rotated since it was read is left alone. */
    method RewrapBatch(rows: seq<(nat, Sealed, Sealed)>)
      requires forall k :: 0 <= k < |rows| ==> rows[k].1.token != ""
      modifies this`auths
      ensures Snapshot() == Rewrapped(old(Snapshot()), rows)
    {
      var k := 0;
      while k < |rows|
        invariant 0 <= k <= |rows|
        invariant Rewrapped(Snapshot(), rows[k..]) == Rewrapped(old(Snapshot()), rows)
        invariant unchanged(`jobs) && unchanged(`tasks) && unchanged(`ledger) && unchanged(`evidence) && unchanged(`usage)
        invariant unchanged(`offers) && unchanged(`suppliers) && unchanged(`keys) && unchanged(`artifacts)
      {
        var (id, prior, sealed) := rows[k];
        if id in auths && auths[id].sealed == prior {
          auths := auths[id := auths[id].(sealed := sealed)];
        }
        k := k + 1;
      }
    }

    // ---------------------------------------------------------------- claim

    /** The claim UPDATE; its resume point was computed from an earlier SELECT. */
    method ClaimArtifactTask(id: nat, supplier: Tenant, worker: nat, revision: nat, digest: nat, resume: nat, now: Time, clock: Time)
      returns (claimed: bool)
      requires digest !in grants
      modifies this`tasks, this`grants
      ensures Snapshot() == ClaimTask(old(Snapshot()), id, supplier, worker, revision, digest, resume, now, clock)
      ensures claimed <==> CanClaim(old(Snapshot()), id, supplier, revision, digest, now)
    {
      if id !in tasks || tasks[id].offer !in offers || tasks[id].auth !in auths || supplier !in suppliers { return false; }
      var t, o, ar, p := tasks[id], offers[tasks[id].offer], auths[tasks[id].auth], suppliers[supplier];
      var load := LoadOfOffer(t.offer);
      claimed := && t.supplier == supplier && t.status == Queued && t.cancelAt.None?
                 && o.auth == t.auth && o.tenant == supplier && o.validFrom <= now < o.validUntil
                 && ar.status == Approved && ar.revision == revision && now < ar.validUntil
                 && ar.tenant == o.tenant && ar.provider == o.provider && p.active && p.enabled && load < o.concurrency;
      if claimed {
        tasks := tasks[id := ClaimRow(t, worker, digest, resume, clock)];
        grants := grants[digest := Grant(id, t.attempt + 1, clock + EXECUTION_MILLISECONDS)];
      }
    }
  }

  /** The guarded ledger inserts of one settlement; INSERT OR IGNORE under the effect index. */
  method LedgerStatements(l: map<EntryKey, Entry>, v: map<Work, Evidence>, w: Work, buyer: Tenant, supplier: Tenant, e: Evidence)
    returns (after: map<EntryKey, Entry>)
    ensures after == if w in v && v[w].digest == e.digest then PostSettlement(l, w, buyer, supplier, e) else l
  {
    after := l;
    if w in v && v[w].digest == e.digest && EffectOf(w, Debit) !in after {
      after := after[EffectOf(w, Debit) := Entry(buyer, false, e.charge)];
    }
    if w in v && v[w].digest == e.digest && EffectOf(w, SupplierCredit) !in after {
      after := after[EffectOf(w, SupplierCredit) := Entry(supplier, true, e.credit)];
    }
    if e.fee != 0 && w in v && v[w].digest == e.digest && EffectOf(w, PlatformFee) !in after {
      after := after[EffectOf(w, PlatformFee) := Entry(Platform, true, e.fee)];
    }
  }
}
