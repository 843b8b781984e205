/**
 What a reservation, a worker's call or an acknowledged cancellation means for the
 one who made it, in every reachable state and against everyone else's steps.
 */
module MarketWorkers {
  import opened Totals
  import opened MarketTables
  import opened MarketSteps
  import opened MarketInvariants
  import opened MarketSafety
  import opened MarketRuns
  import opened MarketEveryRun
  import opened MarketLifecycles
  import opened MarketHistory
  import opened MarketTheorems
  import opened MarketLeases
  import opened MarketJobs
  import opened MarketTasks

  // ------------------------------------------------------------ reservations

  /** Work between two different tenants, under the current revision of an approved authorization. */
  predicate Contracted(s: Db, o: nat, auth: nat, revision: nat, buyer: Tenant, supplier: Tenant) {
    && buyer != supplier && o in s.offers && s.offers[o].tenant == supplier && s.offers[o].auth == auth
    && auth in s.auths && s.auths[auth].status == Approved && s.auths[auth].revision == revision
    && s.auths[auth].tenant == supplier
  }

  /** The amount moves from what the buyer may spend to what it has reserved; nobody else notices. */
  ghost predicate SetAside(s: Db, n: Db, buyer: Tenant, amount: nat) {
    && 0 <= Available(n, buyer) == Available(s, buyer) - amount
    && Held(n, buyer) == Held(s, buyer) + amount
    && forall t :: t != buyer ==> Available(n, t) == Available(s, t)
  }

  lemma NewJobColumns(s: Db, n: Db, id: nat, row: Job)
    requires id !in s.jobs && n == s.(jobs := s.jobs[id := row]) && JobActive(row)
    ensures forall t :: Held(n, t) == Held(s, t) + (if t == row.buyer then row.reserved else 0)
    ensures forall t :: Balance(n, t) == Balance(s, t)
    ensures OfferLoad(n, row.offer) == OfferLoad(s, row.offer) + 1
  {
    SameLedger(s, n);
    OneJob(s, n, id);
  }

  /** A reservation binds two tenants under a current authorization, sets its charge aside and takes one place of the offer. */
  lemma ReservedJobSetsAside(s: Db, n: Db, id: nat, buyer: Tenant, o: nat, revision: nat, idem: nat, tokens: nat, now: Time)
    requires CanReserveJob(s, id, buyer, o, revision, idem, tokens, now) && n == ReserveJob(s, id, buyer, o, revision, idem, tokens, now)
    ensures id in n.jobs && Reserved(s, n.jobs[id], buyer, o, revision, idem, tokens, now)
    ensures Contracted(n, o, n.jobs[id].auth, n.jobs[id].revision, buyer, n.jobs[id].supplier)
    ensures SetAside(s, n, buyer, n.jobs[id].reserved)
    ensures OfferLoad(n, o) == OfferLoad(s, o) + 1 <= n.offers[o].concurrency
  {
    NewJobIsReserved(s, n, id, buyer, o, revision, idem, tokens, now);
    NewJobColumns(s, n, id, NewJob(s.offers[o], o, buyer, revision, idem, tokens, now));
  }

  lemma NewTaskColumns(s: Db, n: Db, id: nat, row: Task)
    requires id !in s.tasks && n == s.(tasks := s.tasks[id := row]) && row.status == Queued
    ensures forall t :: Held(n, t) == Held(s, t) + (if t == row.buyer then row.reserved else 0)
    ensures forall t :: Balance(n, t) == Balance(s, t)
    ensures ActiveTasks(n, row.buyer) == ActiveTasks(s, row.buyer) + 1
    ensures OfferLoad(n, row.offer) == OfferLoad(s, row.offer)
  {
    SameLedger(s, n);
    OneTask(s, n, id);
  }

  /** The same for an artifact task, which takes one of its buyer's active places and none of the offer's yet. */
  lemma ReservedTaskSetsAside(s: Db, n: Db, id: nat, buyer: Tenant, artifact: nat, o: nat, revision: nat, idem: nat, maxTotal: nat, now: Time)
    requires CanReserveTask(s, id, buyer, artifact, o, revision, idem, maxTotal, now)
    requires n == ReserveTask(s, id, buyer, artifact, o, revision, idem, maxTotal, now)
    ensures id in n.tasks && Waiting(s, n.tasks[id], buyer, artifact, o, revision, idem, maxTotal, now)
    ensures Contracted(n, o, n.tasks[id].auth, n.tasks[id].revision, buyer, n.tasks[id].supplier)
    ensures SetAside(s, n, buyer, n.tasks[id].reserved)
    ensures ActiveTasks(n, buyer) == ActiveTasks(s, buyer) + 1 <= MAXIMUM_ACTIVE_TASKS && OfferLoad(n, o) == OfferLoad(s, o)
  {
    NewTaskWaits(s, n, id, buyer, artifact, o, revision, idem, maxTotal, now);
    NewTaskColumns(s, n, id, NewTask(s.offers[o], o, buyer, artifact, revision, idem, maxTotal, now));
  }

  // ------------------------------------------------------------ lease holders

  /** The digest that answers for a task is the newest it was ever granted, and the only one that does. */
  lemma LeaseHolderIsNewest(steps: seq<Step>, id: nat, supplier: Tenant, digest: nat, now: Time)
    ensures var s := Run(EMPTY, steps);
            id in s.tasks && HoldsLease(s.tasks[id], supplier, digest, now) ==>
              && digest in s.grants && s.grants[digest] == Grant(id, s.tasks[id].attempt, s.tasks[id].deadline.value)
              && (forall d :: d in s.grants && s.grants[d].task == id && d != digest ==> s.grants[d].attempt < s.tasks[id].attempt)
              && (forall t, d, at :: HoldsLease(s.tasks[id], t, d, at) ==> t == supplier && d == digest)
  {
    var s := Run(EMPTY, steps);
    EveryRunIsSafe(steps);
    if id in s.tasks && HoldsLease(s.tasks[id], supplier, digest, now) {
      assert LeaseOk(s, id);
      forall d | d in s.grants && s.grants[d].task == id && d != digest ensures s.grants[d].attempt < s.tasks[id].attempt {
        LiveLeaseIsNewest(steps, id, d);
      }
    }
  }

  /** Nothing a worker does with this selected row has any effect. */
  ghost predicate Powerless(n: Db, r: LeaseRead) {
    && (forall p, clock, now :: CheckpointTask(n, r, p, clock, now) == n)
    && (forall retryable, now, at :: FailTask(n, r, retryable, now, at) == n)
    && (forall u, bps, digest, now, at :: SettleTask(n, r, u, bps, digest, now, at) == n)
  }

  /** Once the lease behind a selected row is lost, that row is powerless for ever. */
  lemma StaleReadsAreRefused(before: seq<Step>, after: seq<Step>, r: LeaseRead)
    ensures var s := Run(EMPTY, before);
            r in s.selected ==>
              && r.task in s.tasks
              && (s.tasks[r.task].lease != Some(r.digest) ==> Powerless(Run(EMPTY, before + after), r))
  {
    var s, n := Run(EMPTY, before), Run(EMPTY, before + after);
    Continues(before, after);
    if r in s.selected {
      assert ReadOk(s, r);
      if s.tasks[r.task].lease != Some(r.digest) {
        StaleStaysStale(s, n, r);
        LeaselessIsPowerless(n, r);
      }
    }
  }

  lemma StaleStaysStale(s: Db, n: Db, r: LeaseRead)
    requires Rows(n) && Leases(s) && Leases(n) && TasksEvolve(s, n) && LogsGrow(s, n)
    requires r in s.selected && r.task in s.tasks && s.tasks[r.task].lease != Some(r.digest)
    ensures r.task in n.tasks && n.tasks[r.task].lease != Some(r.digest)
  {
    assert ReadOk(s, r) && GrantOk(s, r.digest) && TaskEvolves(s.tasks[r.task], n.tasks[r.task]);
    assert LeaseOk(n, r.task) && TaskOk(n.tasks[r.task]);
  }

  lemma LeaselessIsPowerless(n: Db, r: LeaseRead)
    requires r.task in n.tasks && n.tasks[r.task].lease != Some(r.digest)
    ensures Powerless(n, r)
  {
  }

  /** One row changed; who can spend what follows from that row alone. */
  lemma OneRowReserves(s: Db, n: Db, i: nat)
    requires i in s.tasks && i in n.tasks && n.tasks == s.tasks[i := n.tasks[i]] && n.jobs == s.jobs && n.ledger == s.ledger
    requires SameDeal(s.tasks[i], n.tasks[i]) && TaskActive(s.tasks[i])
    ensures var released := if TaskActive(n.tasks[i]) then 0 else n.tasks[i].reserved;
            forall t :: && Held(n, t) == Held(s, t) - (if t == n.tasks[i].buyer then released else 0)
                        && Available(n, t) == Available(s, t) + (if t == n.tasks[i].buyer then released else 0)
  {
    SameLedger(s, n);
    OneTask(s, n, i);
  }

  /** The row of an accepted checkpoint, against the row it replaces. */
  predicate Advanced(a: Task, b: Task, size: nat) {
    && ProgressGrows(a, b) && SameDeal(a, b) && b.lease == a.lease && b.attempt == a.attempt && b.status == Running
    && b.bytes <= size && TotalTokens(b.usage) <= b.maxTotal
    && b.leaseUntil.Some? && b.deadline.Some? && b.leaseUntil.value <= b.deadline.value
  }

  /** Only that row moved, only forwards, and no money with it. */
  ghost predicate OnlyAdvances(s: Db, n: Db, r: LeaseRead) {
    && r.task in s.tasks && s.tasks[r.task].artifact in s.artifacts && s.tasks[r.task].lease == Some(r.digest)
    && r.task in n.tasks && n == s.(tasks := s.tasks[r.task := n.tasks[r.task]])
    && Advanced(s.tasks[r.task], n.tasks[r.task], s.artifacts[s.tasks[r.task].artifact].size)
    && forall t :: Available(n, t) == Available(s, t) && Held(n, t) == Held(s, t)
  }

  lemma CheckpointRowAdvances(s: Db, n: Db, r: LeaseRead, p: Progress, clock: Time, dbNow: Time)
    requires Rows(s) && Leases(s) && n == CheckpointTask(s, r, p, clock, dbNow) && n.tasks != s.tasks
    ensures r.task in s.tasks && s.tasks[r.task].artifact in s.artifacts && s.tasks[r.task].lease == Some(r.digest)
    ensures r.task in n.tasks && n == s.(tasks := s.tasks[r.task := n.tasks[r.task]]) && TaskActive(s.tasks[r.task])
    ensures Advanced(s.tasks[r.task], n.tasks[r.task], s.artifacts[s.tasks[r.task].artifact].size)
  {
    LeaseIdentity(s, r);
  }

  lemma CheckpointAdvancesHere(s: Db, n: Db, r: LeaseRead, p: Progress, clock: Time, dbNow: Time)
    requires Rows(s) && Leases(s) && n == CheckpointTask(s, r, p, clock, dbNow) && n.tasks != s.tasks
    ensures OnlyAdvances(s, n, r)
  {
    CheckpointRowAdvances(s, n, r, p, clock, dbNow);
    OneRowReserves(s, n, r.task);
  }

  /**
   A checkpoint that changes anything leaves the current row's progress no lower,
   within the file and the budget, extends the same lease to at most its own
   deadline, and touches no money and no other task.
   */
  lemma CheckpointOnlyAdvances(steps: seq<Step>, r: LeaseRead, p: Progress, clock: Time, dbNow: Time)
    ensures var s := Run(EMPTY, steps);
            var n := CheckpointTask(s, r, p, clock, dbNow);
            n.tasks != s.tasks ==> OnlyAdvances(s, n, r)
  {
    var s := Run(EMPTY, steps);
    var n := CheckpointTask(s, r, p, clock, dbNow);
    EveryRunIsSafe(steps);
    if n.tasks != s.tasks { CheckpointAdvancesHere(s, n, r, p, clock, dbNow); }
  }

  /** The lease is gone; the task waits again with its reservation, or has ended and given it back; no debit. */
  ghost predicate GivesUpLease(s: Db, n: Db, i: nat, status: TaskStatus) {
    && i in s.tasks && i in n.tasks && n.tasks == s.tasks[i := n.tasks[i]]
    && var t := n.tasks[i];
    && t.status == status && t.attempt == s.tasks[i].attempt
    && t.lease.None? && t.leaseUntil.None? && t.deadline.None?
    && var released := if status == Queued then 0 else t.reserved;
    && Held(n, t.buyer) == Held(s, t.buyer) - released
    && Available(n, t.buyer) == Available(s, t.buyer) + released
    && forall f :: EffectOf(TaskWork(i), f) !in n.ledger
  }

  lemma RowGivesUpLease(s: Db, n: Db, i: nat, status: TaskStatus)
    requires Settled(s) && i in s.tasks && i in n.tasks && n == s.(tasks := s.tasks[i := n.tasks[i]])
    requires Leased(s.tasks[i]) && SameDeal(s.tasks[i], n.tasks[i])
    requires n.tasks[i].status == status && (status == Queued || status == Failed || status == Cancelled)
    requires var t := n.tasks[i]; t.attempt == s.tasks[i].attempt && t.lease.None? && t.leaseUntil.None? && t.deadline.None?
    ensures GivesUpLease(s, n, i, status)
  {
    OneRowReserves(s, n, i);
    UnsettledIsUnposted(s, TaskWork(i));
  }

  lemma FailedRow(s: Db, n: Db, r: LeaseRead, retryable: bool, now: Time, dbNow: Time)
    requires Rows(s) && Leases(s) && n == FailTask(s, r, retryable, now, dbNow) && n.tasks != s.tasks
    ensures r.task in s.tasks && r.task in n.tasks && n == s.(tasks := s.tasks[r.task := n.tasks[r.task]])
    ensures Leased(s.tasks[r.task]) && SameDeal(s.tasks[r.task], n.tasks[r.task])
    ensures n.tasks[r.task].status == if retryable && s.tasks[r.task].attempt < MAXIMUM_ATTEMPTS then Queued else Failed
    ensures var t := n.tasks[r.task];
            t.attempt == s.tasks[r.task].attempt && t.lease.None? && t.leaseUntil.None? && t.deadline.None?
  {
    LeaseIdentity(s, r);
  }

  /**
   A failure that is recorded takes the lease away. The task is queued again
   exactly when it may be retried and has an attempt left, judged on the current
   row though decided on the selected one; otherwise its reservation is released.
   */
  lemma FailureReleases(steps: seq<Step>, r: LeaseRead, retryable: bool, now: Time, dbNow: Time)
    ensures var s := Run(EMPTY, steps);
            var n := FailTask(s, r, retryable, now, dbNow);
            n.tasks != s.tasks ==>
              && r.task in s.tasks
              && GivesUpLease(s, n, r.task, if retryable && s.tasks[r.task].attempt < MAXIMUM_ATTEMPTS then Queued else Failed)
  {
    var s := Run(EMPTY, steps);
    var n := FailTask(s, r, retryable, now, dbNow);
    EveryRunIsSafe(steps);
    if n.tasks != s.tasks {
      FailedRow(s, n, r, retryable, now, dbNow);
      RowGivesUpLease(s, n, r.task, n.tasks[r.task].status);
    }
  }

  lemma AcknowledgedRow(s: Db, n: Db, id: nat, supplier: Tenant, digest: nat, now: Time)
    requires n == ObserveCancellation(s, id, supplier, digest, now) && n.tasks != s.tasks
    ensures id in s.tasks && s.tasks[id].lease == Some(digest) && s.tasks[id].cancelAt.Some? && Leased(s.tasks[id])
    ensures id in n.tasks && n == s.(tasks := s.tasks[id := n.tasks[id]]) && SameDeal(s.tasks[id], n.tasks[id])
    ensures var t := n.tasks[id];
            t.status == Cancelled && t.attempt == s.tasks[id].attempt && t.lease.None? && t.leaseUntil.None? && t.deadline.None?
  {
  }

  /** Only a cancellation pending on that very lease can be acknowledged: it ends the task and gives its reservation back. */
  lemma AcknowledgementReleases(steps: seq<Step>, id: nat, supplier: Tenant, digest: nat, now: Time)
    ensures var s := Run(EMPTY, steps);
            var n := ObserveCancellation(s, id, supplier, digest, now);
            n.tasks != s.tasks ==>
              && id in s.tasks && s.tasks[id].lease == Some(digest) && s.tasks[id].cancelAt.Some?
              && GivesUpLease(s, n, id, Cancelled)
  {
    var s := Run(EMPTY, steps);
    var n := ObserveCancellation(s, id, supplier, digest, now);
    EveryRunIsSafe(steps);
    if n.tasks != s.tasks {
      AcknowledgedRow(s, n, id, supplier, digest, now);
      RowGivesUpLease(s, n, id, Cancelled);
    }
  }
}
