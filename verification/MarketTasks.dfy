/**
 What each operation on artifact tasks does for the one who calls it, and when:
 lease windows instant by instant, rows column by column, in every reachable state.
 */
module MarketTasks {
  import opened Totals
  import opened MarketTables
  import opened MarketSteps
  import opened MarketInvariants
  import opened MarketSafety
  import opened MarketRuns
  import opened MarketEveryRun
  import opened MarketLifecycles
  import opened MarketHistory
  import opened MarketTheorems
  import opened MarketLeases
  import opened MarketJobs

  // ------------------------------------------------------------------ claims

  /** Only task i differs, in nothing but its progress, its status and its lease. */
  predicate OnlyTask(s: Db, n: Db, i: nat) {
    && i in s.tasks && i in n.tasks && n == s.(tasks := s.tasks[i := n.tasks[i]], grants := n.grants)
    && SameDeal(s.tasks[i], n.tasks[i]) && n.tasks[i].cancelAt == s.tasks[i].cancelAt && n.tasks[i].charge == s.tasks[i].charge
  }

  /** This supplier, with this digest, and nobody else, holds the lease until this instant. */
  ghost predicate HeldUntil(t: Task, supplier: Tenant, digest: nat, until: Time) {
    forall p, d, at :: HoldsLease(t, p, d, at) <==> p == supplier && d == digest && at < until
  }

  /** A claimed task goes on where the resume point says, or starts over. */
  predicate Resumes(a: Task, b: Task, resume: nat) {
    && b.segments == resume
    && (resume > 0 ==> b.totalSegments == a.totalSegments && b.bytes == a.bytes && b.usage == a.usage)
    && (resume == 0 ==> b.totalSegments == None && b.bytes == 0 && b.usage == None)
  }

  /**
   A claim leases the task to its claimant for five minutes within six hours, as
   one more attempt; it takes a place of the offer and moves no money.
   */
  lemma ClaimGrantsALease(s: Db, n: Db, id: nat, supplier: Tenant, worker: nat, revision: nat, digest: nat, resume: nat, now: Time, clock: Time)
    requires CanClaim(s, id, supplier, revision, digest, now)
    requires n == ClaimTask(s, id, supplier, worker, revision, digest, resume, now, clock)
    ensures OnlyTask(s, n, id) && Resumes(s.tasks[id], n.tasks[id], resume)
    ensures HeldUntil(n.tasks[id], supplier, digest, clock + 300_000)
    ensures var t := n.tasks[id];
            && t.status == Claimed && t.worker == Some(worker) && t.attempt == s.tasks[id].attempt + 1
            && t.deadline == Some(clock + 21_600_000) && t.completedAt == s.tasks[id].completedAt
            && n.grants == s.grants[digest := Grant(id, t.attempt, clock + 21_600_000)]
    ensures OfferLoad(n, n.tasks[id].offer) == OfferLoad(s, n.tasks[id].offer) + 1
    ensures forall t :: Held(n, t) == Held(s, t) && Available(n, t) == Available(s, t)
  {
    OneTask(s, n, id);
    SameLedger(s, n);
  }

  // -------------------------------------------------------------------- reads

  /** What a worker read under its lease, the row has not fallen behind since. */
  predicate Lags(s: Db, r: LeaseRead) {
    r.task in s.tasks && s.tasks[r.task].lease == Some(r.digest) ==> ProgressGrows(r.row, s.tasks[r.task])
  }
  ghost predicate ReadsLag(s: Db) { forall r :: r in s.selected ==> Lags(s, r) }

  lemma JobsSelectNothing(s: Db, e: JobStep) ensures ApplyJob(s, e).selected == s.selected {}
  lemma ReviewsSelectNothing(s: Db, e: AuthStep)
    requires e.RejectStep? || e.WithdrawStep?
    ensures ApplyAuth(s, e).selected == s.selected
  {
  }
  lemma ApprovalsSelectNothing(s: Db, n: Db, e: AuthStep)
    requires e.ApproveStep? && n == ApproveAuth(s, e.id, e.t, e.command, e.token, e.lookups, e.legacy, e.version, e.next, e.now)
    ensures n.selected == s.selected
  {
  }
  lemma CascadesSelectNothing(s: Db, n: Db, e: AuthStep)
    requires (e.RevokeStep? || e.RotateStep?) && n == ApplyAuth(s, e)
    ensures n.selected == s.selected
  {
  }
  lemma UpkeepSelectsNothing(s: Db, e: AuthStep)
    requires e.RegisterStep? || e.SetSupplyStep? || e.SubmitStep? || e.RewrapStep? || e.MigrateStep? || e.MaintainStep? || e.CreateOfferStep?
    ensures ApplyAuth(s, e).selected == s.selected
  {
  }
  lemma AuthsSelectNothing(s: Db, e: AuthStep)
    ensures ApplyAuth(s, e).selected == s.selected
  {
    if e.RejectStep? || e.WithdrawStep? {
      ReviewsSelectNothing(s, e);
    } else if e.ApproveStep? {
      ApprovalsSelectNothing(s, ApplyAuth(s, e), e);
    } else if e.RevokeStep? || e.RotateStep? {
      CascadesSelectNothing(s, ApplyAuth(s, e), e);
    } else {
      UpkeepSelectsNothing(s, e);
    }
  }
  lemma TasksSelectByReading(s: Db, e: TaskStep)
    requires !e.ReadLeaseStep?
    ensures ApplyTask(s, e).selected == s.selected
  {
  }

  /** A read of a live lease selects the row as it is and changes nothing else; any other read selects nothing. */
  lemma ReadSelectsTheRow(s: Db, n: Db, id: nat, supplier: Tenant, digest: nat, now: Time)
    requires n == ReadLease(s, id, supplier, digest, now)
    ensures n == s.(selected := n.selected) && s.selected <= n.selected
    ensures forall r :: r in n.selected && r !in s.selected ==>
              r.task == id && r.digest == digest && id in s.tasks && r.row == s.tasks[id]
    ensures id in s.tasks && HoldsLease(s.tasks[id], supplier, digest, now) ==> LeaseRead(id, digest, s.tasks[id]) in n.selected
    ensures id in s.tasks && !HoldsLease(s.tasks[id], supplier, digest, now) ==> n == s
  {
  }

  lemma SelectedByReadsOnly(s: Db, e: Step, r: LeaseRead)
    requires r in Apply(s, e).selected && r !in s.selected
    ensures r.task in s.tasks && r.row == s.tasks[r.task] && Apply(s, e).tasks == s.tasks
  {
    match e
    case OnJob(j) => JobsSelectNothing(s, j);
    case OnAuth(a) => AuthsSelectNothing(s, a);
    case OnTask(t) =>
      if t.ReadLeaseStep? {
        ReadSelectsTheRow(s, ApplyTask(s, t), t.id, t.t, t.digest, t.now);
      } else {
        TasksSelectByReading(s, t);
      }
  }

  /** A lease that is current after a step and was granted before it was current before it. */
  lemma LeaseWasCurrent(s: Db, n: Db, r: LeaseRead)
    requires Rows(n) && Leases(s) && Leases(n) && TasksEvolve(s, n) && LogsGrow(s, n)
    requires r in s.selected && r.task in n.tasks && n.tasks[r.task].lease == Some(r.digest)
    ensures r.task in s.tasks && s.tasks[r.task].lease == Some(r.digest)
  {
    assert ReadOk(s, r) && GrantOk(s, r.digest) && TaskEvolves(s.tasks[r.task], n.tasks[r.task]);
    assert LeaseOk(n, r.task) && TaskOk(n.tasks[r.task]);
  }

  lemma LagPersists(s: Db, n: Db, r: LeaseRead, presented: Option<nat>)
    requires r.task in s.tasks && s.tasks[r.task].lease == Some(r.digest) && Lags(s, r)
    requires r.task in n.tasks && n.tasks[r.task].lease == Some(r.digest) && Allowed(s.tasks[r.task], n.tasks[r.task], presented)
    ensures Lags(n, r)
  {
  }

  lemma ReadStillLags(s: Db, n: Db, e: Step, r: LeaseRead)
    requires Inv(s) && Inv(n) && n == Apply(s, e) && Evolves(s, n) && r in s.selected && Lags(s, r)
    ensures Lags(n, r)
  {
    if r.task in n.tasks && n.tasks[r.task].lease == Some(r.digest) {
      LeaseWasCurrent(s, n, r);
      OnlyTheLeaseHolderWrites(s, e, r.task);
      LagPersists(s, n, r, Presents(e, r.task));
    }
  }

  lemma StepKeepsLag(s: Db, e: Step)
    requires Inv(s) && ReadsLag(s)
    ensures ReadsLag(Apply(s, e))
  {
    var n := Apply(s, e);
    StepKeeps(s, e);
    StepEvolves(s, e);
    forall r | r in n.selected ensures Lags(n, r) {
      if r in s.selected { ReadStillLags(s, n, e, r); } else { SelectedByReadsOnly(s, e, r); }
    }
  }

  lemma {:induction false} RunKeepsLag(s: Db, steps: seq<Step>)
    requires Inv(s) && ReadsLag(s)
    ensures ReadsLag(Run(s, steps))
    decreases |steps|
  {
    if steps != [] {
      StepKeepsLag(s, steps[0]);
      StepKeeps(s, steps[0]);
      RunKeepsLag(Apply(s, steps[0]), steps[1..]);
    }
  }

  /** In every reachable state a selected row is no further than the current one while its lease lasts. */
  lemma ReadsNeverOvertake(steps: seq<Step>, r: LeaseRead)
    ensures var s := Run(EMPTY, steps); r in s.selected ==> Lags(s, r)
  {
    EmptyDatabase();
    RunKeepsLag(EMPTY, steps);
  }

  // -------------------------------------------------------------- checkpoints

  /** Progress that goes on from the row, within its file, its segments and its token budget. */
  predicate GoesOn(t: Task, p: Progress, size: nat) {
    && t.segments <= p.segments <= p.totalSegments && t.bytes <= p.bytes <= size
    && (t.totalSegments.None? || t.totalSegments == Some(p.totalSegments))
    && InputTokens(t.usage) <= p.usage.input && OutputTokens(t.usage) <= p.usage.output && TotalTokens(t.usage) <= p.usage.total
    && p.usage.total == p.usage.input + p.usage.output <= t.maxTotal
  }

  /** Exactly this progress is stored, and the same lease runs for five more minutes within its deadline. */
  ghost predicate Checkpointed(s: Db, n: Db, i: nat, digest: nat, p: Progress, clock: Time)
    requires i in s.tasks && s.tasks[i].deadline.Some?
  {
    && OnlyTask(s, n, i) && n.grants == s.grants
    && var a, b := s.tasks[i], n.tasks[i];
    && b.status == Running && b.segments == p.segments && b.totalSegments == Some(p.totalSegments)
    && b.bytes == p.bytes && b.usage == Some(p.usage)
    && b.attempt == a.attempt && b.worker == a.worker && b.deadline == a.deadline && b.completedAt == a.completedAt
    && HeldUntil(b, a.supplier, digest, if clock + 300_000 < a.deadline.value then clock + 300_000 else a.deadline.value)
  }

  /** The lease is held, and what the row's artifact and offer say. */
  predicate HeldWork(s: Db, r: LeaseRead, dbNow: Time) {
    && r.task in s.tasks && HoldsLease(s.tasks[r.task], s.tasks[r.task].supplier, r.digest, dbNow)
    && s.tasks[r.task].artifact in s.artifacts && s.tasks[r.task].offer in s.offers
  }

  predicate MayCheckpoint(s: Db, r: LeaseRead, p: Progress, dbNow: Time) {
    && r in s.selected && HeldWork(s, r, dbNow)
    && GoesOn(s.tasks[r.task], p, s.artifacts[s.tasks[r.task].artifact].size)
  }

  /** The checks on the selected row and the guard on the current one amount to the current row's own. */
  lemma AcceptsWhatMayCheckpoint(s: Db, r: LeaseRead, p: Progress, dbNow: Time)
    requires Rows(s) && Leases(s) && (r in s.selected ==> Lags(s, r))
    ensures MayCheckpoint(s, r, p, dbNow) <==>
              r.task in s.tasks && CheckpointAccepted(s, r, p) && CheckpointGate(s.tasks[r.task], r.row.supplier, r.digest, p, dbNow)
  {
    if r in s.selected && r.task in s.tasks && s.tasks[r.task].lease == Some(r.digest) {
      LeaseIdentity(s, r);
      assert TaskOk(s.tasks[r.task]) && TaskRefs(s, s.tasks[r.task]);
    }
  }

  lemma AcceptedIsStored(s: Db, n: Db, r: LeaseRead, p: Progress, clock: Time, dbNow: Time)
    requires r.task in s.tasks && SameDeal(r.row, s.tasks[r.task]) && r.row.deadline == s.tasks[r.task].deadline
    requires CheckpointAccepted(s, r, p) && CheckpointGate(s.tasks[r.task], r.row.supplier, r.digest, p, dbNow)
    requires n == CheckpointTask(s, r, p, clock, dbNow)
    ensures s.tasks[r.task].deadline.Some? && Checkpointed(s, n, r.task, r.digest, p, clock)
  {
  }

  lemma CheckpointDecides(s: Db, n: Db, r: LeaseRead, p: Progress, clock: Time, dbNow: Time)
    requires Rows(s) && Leases(s) && (r in s.selected ==> Lags(s, r)) && n == CheckpointTask(s, r, p, clock, dbNow)
    ensures if MayCheckpoint(s, r, p, dbNow) then s.tasks[r.task].deadline.Some? && Checkpointed(s, n, r.task, r.digest, p, clock) else n == s
  {
    AcceptsWhatMayCheckpoint(s, r, p, dbNow);
    if MayCheckpoint(s, r, p, dbNow) {
      LeaseIdentity(s, r);
      AcceptedIsStored(s, n, r, p, clock, dbNow);
    }
  }

  /** In every reachable state the current row decides whether a checkpoint is stored, however old the row that was read. */
  lemma CheckpointsAreStored(steps: seq<Step>, r: LeaseRead, p: Progress, clock: Time, dbNow: Time)
    ensures var s := Run(EMPTY, steps);
            var n := CheckpointTask(s, r, p, clock, dbNow);
            if MayCheckpoint(s, r, p, dbNow) then s.tasks[r.task].deadline.Some? && Checkpointed(s, n, r.task, r.digest, p, clock) else n == s
  {
    var s := Run(EMPTY, steps);
    EveryRunIsSafe(steps);
    ReadsNeverOvertake(steps, r);
    CheckpointDecides(s, CheckpointTask(s, r, p, clock, dbNow), r, p, clock, dbNow);
  }

  // -------------------------------------------------------------- settlement

  /** Every byte and every segment, with a total that is the one last reported. */
  predicate AllDone(t: Task, u: Usage, size: nat) {
    && t.bytes == size && 1 <= t.segments && t.totalSegments == Some(t.segments)
    && t.usage.Some? && u.total == t.usage.value.total && u.total == u.input + u.output && 1 <= u.total <= t.maxTotal
  }

  predicate MaySettle(s: Db, r: LeaseRead, u: Usage, feeBps: nat, dbNow: Time) {
    && r in s.selected && HeldWork(s, r, dbNow) && feeBps <= 5_000
    && r.row.segments == s.tasks[r.task].segments && r.row.totalSegments == s.tasks[r.task].totalSegments
    && r.row.bytes == s.tasks[r.task].bytes && r.row.usage == s.tasks[r.task].usage
    && AllDone(s.tasks[r.task], u, s.artifacts[s.tasks[r.task].artifact].size)
  }

  /** The same for a task as JobPaid for a job; the lease is over. */
  ghost predicate TaskPaid(s: Db, n: Db, i: nat, u: Usage, feeBps: nat, digest: nat, now: Time)
    requires i in s.tasks && s.tasks[i].offer in s.offers
  {
    var t, w := s.tasks[i], TaskWork(i);
    && w in n.evidence
    && var e := n.evidence[w];
    && e.digest == digest && Covers(e.charge, u.total, s.offers[t.offer].price) && Splits(e, feeBps)
    && Pays(s, n, t.buyer, t.supplier, t.reserved, e)
    && n.tasks == s.tasks[i := t.(status := Completed, lease := None, leaseUntil := None, deadline := None,
                                  usage := Some(u), charge := Some(e.charge), completedAt := Some(now))]
    && n == s.(tasks := n.tasks, ledger := n.ledger, evidence := s.evidence[w := e], usage := s.usage + {w})
  }

  lemma PostedTaskPays(s: Db, n: Db, i: nat, row: Task, u: Usage, feeBps: nat, e: Evidence, now: Time)
    requires i in s.tasks && TaskActive(s.tasks[i]) && s.tasks[i].offer in s.offers
    requires forall f :: EffectOf(TaskWork(i), f) !in s.ledger
    requires Covers(e.charge, u.total, s.offers[s.tasks[i].offer].price) && Splits(e, feeBps) && e.fee <= e.charge
    requires row == s.tasks[i].(status := Completed, lease := None, leaseUntil := None, deadline := None,
                                usage := Some(u), charge := Some(e.charge), completedAt := Some(now))
    requires n == s.(tasks := s.tasks[i := row], usage := s.usage + {TaskWork(i)}, evidence := s.evidence[TaskWork(i) := e],
                     ledger := PostSettlement(s.ledger, TaskWork(i), s.tasks[i].buyer, s.tasks[i].supplier, e))
    ensures TaskPaid(s, n, i, u, feeBps, e.digest, now)
  {
    var t := s.tasks[i];
    PostingBalances(s, n, TaskWork(i), t.buyer, t.supplier, e);
    OneTask(s, n, i);
    forall p ensures Held(n, p) == Held(s, p) - (if p == t.buyer then t.reserved else 0) { SettledTaskHeld(s, n, i, row, p); }
    MovedShares(s, n, t.buyer, t.supplier, t.reserved, e);
  }

  lemma SettledTaskPays(s: Db, n: Db, r: LeaseRead, u: Usage, feeBps: nat, digest: nat, now: Time, dbNow: Time)
    requires Rows(s) && Leases(s) && Settled(s) && CanSettleTask(s, r, u, feeBps, dbNow)
    requires n == SettleTask(s, r, u, feeBps, digest, now, dbNow)
    ensures s.tasks[r.task].offer in s.offers && TaskPaid(s, n, r.task, u, feeBps, digest, now)
  {
    LeaseIdentity(s, r);
    var price := s.offers[r.row.offer].price;
    SettlementPrices(digest, u.total, price, feeBps);
    UnsettledIsUnposted(s, TaskWork(r.task));
    PostedTaskPays(s, n, r.task, n.tasks[r.task], u, feeBps, Settlement(digest, u.total, price, feeBps), now);
  }

  lemma SettlesWhatMaySettle(s: Db, r: LeaseRead, u: Usage, feeBps: nat, dbNow: Time)
    requires Rows(s) && Leases(s) && Money(s)
    ensures CanSettleTask(s, r, u, feeBps, dbNow) <==> MaySettle(s, r, u, feeBps, dbNow)
  {
    if r in s.selected && r.task in s.tasks && s.tasks[r.task].lease == Some(r.digest) {
      LeaseIdentity(s, r);
      assert TaskOk(s.tasks[r.task]) && TaskRefs(s, s.tasks[r.task]);
      if CompletionAccepted(s, r, u) { SettlesIffLeaseHeld(s, r, u, dbNow); }
    }
  }

  /** In every reachable state a completion pays exactly the finished work whose lease is held, and changes nothing otherwise. */
  lemma TasksSettle(steps: seq<Step>, r: LeaseRead, u: Usage, feeBps: nat, digest: nat, now: Time, dbNow: Time)
    ensures var s := Run(EMPTY, steps);
            var n := SettleTask(s, r, u, feeBps, digest, now, dbNow);
            if MaySettle(s, r, u, feeBps, dbNow) then TaskPaid(s, n, r.task, u, feeBps, digest, now) else n == s
  {
    var s := Run(EMPTY, steps);
    EveryRunIsSafe(steps);
    SettlesWhatMaySettle(s, r, u, feeBps, dbNow);
    if MaySettle(s, r, u, feeBps, dbNow) { SettledTaskPays(s, SettleTask(s, r, u, feeBps, digest, now, dbNow), r, u, feeBps, digest, now, dbNow); }
  }

  // ------------------------------------------------------------ reservations

  /** A fresh task waits for its first claim, with its whole token budget set aside. */
  predicate Waiting(s: Db, t: Task, buyer: Tenant, artifact: nat, o: nat, revision: nat, idem: nat, maxTotal: nat, now: Time) {
    && t.buyer == buyer && t.artifact == artifact && t.offer == o && t.revision == revision && t.idem == idem && t.maxTotal == maxTotal
    && o in s.offers && Covers(t.reserved, maxTotal, s.offers[o].price)
    && t.status == Queued && t.created == now && t.attempt == 0 && t.segments == 0 && t.bytes == 0
    && t.totalSegments.None? && t.usage.None? && t.worker.None? && t.lease.None? && t.leaseUntil.None? && t.deadline.None?
    && t.charge.None? && t.cancelAt.None? && t.completedAt.None?
  }

  lemma NewTaskWaits(s: Db, n: Db, id: nat, buyer: Tenant, artifact: nat, o: nat, revision: nat, idem: nat, maxTotal: nat, now: Time)
    requires CanReserveTask(s, id, buyer, artifact, o, revision, idem, maxTotal, now)
    requires n == ReserveTask(s, id, buyer, artifact, o, revision, idem, maxTotal, now)
    ensures n.tasks == s.tasks[id := n.tasks[id]] && n == s.(tasks := n.tasks)
    ensures Waiting(s, n.tasks[id], buyer, artifact, o, revision, idem, maxTotal, now)
  {
    ChargeCovers(maxTotal, s.offers[o].price);
  }
}
