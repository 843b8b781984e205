/**
 How artifact tasks end or wait again: failures, lapsed leases, the retention
 sweep and cancellations, each with its exact condition; and that held work can be finished.
 */
module MarketEndings {
  import opened Totals
  import opened MarketTables
  import opened MarketSteps
  import opened MarketInvariants
  import opened MarketSafety
  import opened MarketRuns
  import opened MarketAuths
  import opened MarketEveryRun
  import opened MarketTheorems
  import opened MarketLeases
  import opened MarketJobs
  import opened MarketTasks
  import opened ArtifactCancellation

  /** Nobody holds it any more; the deal, the attempts made and the progress are as they were. */
  predicate LetGo(a: Task, b: Task) {
    && SameDeal(a, b) && b.attempt == a.attempt && b.charge == a.charge
    && b.segments == a.segments && b.totalSegments == a.totalSegments && b.bytes == a.bytes && b.usage == a.usage
    && b.lease.None? && b.leaseUntil.None? && b.deadline.None?
  }

  /** It waits for its next claim. */
  predicate WaitsAgain(a: Task, b: Task, worker: Option<nat>) {
    LetGo(a, b) && b.status == Queued && b.cancelAt == a.cancelAt && b.worker == worker
  }

  /** It is over. */
  predicate Ends(a: Task, b: Task, status: TaskStatus, cancelAt: Option<Time>, now: Time) {
    LetGo(a, b) && b.status == status && b.completedAt == Some(now) && b.cancelAt == cancelAt && b.worker == a.worker
  }

  predicate OneRow(s: Db, n: Db, i: nat) { i in s.tasks && i in n.tasks && n == s.(tasks := s.tasks[i := n.tasks[i]]) }

  // ------------------------------------------------------------------ failure

  /** The lease holder's report of a failure always takes effect, and nobody else's ever does. */
  lemma FailuresAreRecorded(steps: seq<Step>, r: LeaseRead, retryable: bool, now: Time, dbNow: Time)
    ensures var s := Run(EMPTY, steps);
            var n := FailTask(s, r, retryable, now, dbNow);
            if r in s.selected && HeldWork(s, r, dbNow)
            then OneRow(s, n, r.task)
                 && var a, b := s.tasks[r.task], n.tasks[r.task];
                 if retryable && a.attempt < 3 then WaitsAgain(a, b, a.worker) && b.completedAt.None?
                 else Ends(a, b, Failed, None, now)
            else n == s
  {
    var s := Run(EMPTY, steps);
    EveryRunIsSafe(steps);
    FailureDecides(s, FailTask(s, r, retryable, now, dbNow), r, retryable, now, dbNow);
  }

  lemma FailureDecides(s: Db, n: Db, r: LeaseRead, retryable: bool, now: Time, dbNow: Time)
    requires Rows(s) && Leases(s) && n == FailTask(s, r, retryable, now, dbNow)
    ensures if r in s.selected && HeldWork(s, r, dbNow)
            then OneRow(s, n, r.task)
                 && var a, b := s.tasks[r.task], n.tasks[r.task];
                 if retryable && a.attempt < 3 then WaitsAgain(a, b, a.worker) && b.completedAt.None?
                 else Ends(a, b, Failed, None, now)
            else n == s
  {
    if r in s.selected && r.task in s.tasks && s.tasks[r.task].lease == Some(r.digest) {
      LeaseIdentity(s, r);
      assert TaskRefs(s, s.tasks[r.task]);
    }
  }

  // ------------------------------------------------------------ lapsed leases

  predicate Lapsed(t: Task, now: Time) {
    Leased(t) && ((t.leaseUntil.Some? && t.leaseUntil.value < now) || (t.deadline.Some? && t.deadline.value <= now))
  }

  /** A lapsed task ends cancelled if that was asked, waits again if it may, with its worker while its deadline lasts, and fails otherwise. */
  predicate Lapses(a: Task, b: Task, again: bool, now: Time) {
    if a.cancelAt.Some? then Ends(a, b, Cancelled, a.cancelAt, now)
    else if again then WaitsAgain(a, b, if a.deadline.Some? && now < a.deadline.value then a.worker else None) && b.completedAt == a.completedAt
    else Ends(a, b, Failed, None, now)
  }

  /** Before a supplier claims, exactly its lapsed leases are taken away. */
  lemma ExpiryTakesLapsedLeases(steps: seq<Step>, supplier: Tenant, now: Time, i: nat)
    ensures var s := Run(EMPTY, steps);
            var n := ExpireLeases(s, supplier, now);
            && n == s.(tasks := n.tasks) && n.tasks.Keys == s.tasks.Keys
            && (i in s.tasks ==>
                  if s.tasks[i].supplier == supplier && Lapsed(s.tasks[i], now)
                  then Lapses(s.tasks[i], n.tasks[i], s.tasks[i].attempt < 3, now) else n.tasks[i] == s.tasks[i])
  {
    var s := Run(EMPTY, steps);
    EveryRunIsSafe(steps);
    if i in s.tasks { ExpiredRow(s.tasks[i], supplier, now); }
  }

  lemma ExpiredRow(t: Task, supplier: Tenant, now: Time)
    requires TaskOk(t)
    ensures var b := ExpireRow(t, supplier, now);
            if t.supplier == supplier && Lapsed(t, now) then Lapses(t, b, t.attempt < 3, now) else b == t
  {
  }

  /** Thirty minutes after its creation a task is not given another chance. */
  predicate Overdue(t: Task, now: Time) { t.created + 1_800_000 <= now }

  predicate SweptLapsed(t: Task, now: Time) {
    Leased(t) && ((t.leaseUntil.Some? && t.leaseUntil.value <= now) || (t.deadline.Some? && t.deadline.value <= now))
  }

  /** The sweep fails overdue waiting tasks, takes lapsed leases away, and leaves fresh and running work alone. */
  lemma SweepTakesOverdueTasks(steps: seq<Step>, now: Time, i: nat)
    ensures var s := Run(EMPTY, steps);
            var n := SweepTasks(s, now);
            && n == s.(tasks := n.tasks) && n.tasks.Keys == s.tasks.Keys
            && (i in s.tasks ==>
                  var t := s.tasks[i];
                  if t.status == Queued && Overdue(t, now) then Ends(t, n.tasks[i], Failed, None, now)
                  else if SweptLapsed(t, now) then Lapses(t, n.tasks[i], t.attempt < 3 && !Overdue(t, now), now)
                  else n.tasks[i] == t)
  {
    var s := Run(EMPTY, steps);
    EveryRunIsSafe(steps);
    if i in s.tasks { SweptRow(s.tasks[i], now); }
  }

  lemma SweptRow(t: Task, now: Time)
    requires TaskOk(t)
    ensures var b := SweepRow(t, now);
            if t.status == Queued && Overdue(t, now) then Ends(t, b, Failed, None, now)
            else if SweptLapsed(t, now) then Lapses(t, b, t.attempt < 3 && !Overdue(t, now), now)
            else b == t
  {
  }

  // ------------------------------------------------------------- cancellation

  /** Waiting work ends at once and gives its reservation back; leased work only carries the request. */
  ghost predicate Requested(s: Db, n: Db, i: nat, now: Time)
    requires i in s.tasks
  {
    && i in n.tasks && n.tasks == s.tasks[i := n.tasks[i]] && n == s.(tasks := n.tasks, keys := n.keys)
    && var a, b := s.tasks[i], n.tasks[i];
    && (if a.status == Queued then Ends(a, b, Cancelled, Some(now), now) else b == a.(cancelAt := Some(now)))
    && (forall t :: Available(n, t) == Available(s, t) + (if t == a.buyer && a.status == Queued then a.reserved else 0))
  }

  lemma CancelRequests(s: Db, n: Db, i: nat, now: Time)
    requires i in s.tasks && TaskActive(s.tasks[i]) && TaskOk(s.tasks[i]) && s.tasks[i].cancelAt.None?
    requires n == s.(tasks := s.tasks[i := CancelRow(s.tasks[i], now)], keys := n.keys)
    ensures Requested(s, n, i, now)
  {
    OneTask(s, n, i);
    SameLedger(s, n);
  }

  /** A buyer's command stands for one task, and only for one of its own that has not finished. */
  lemma CommandsBindOnce(s: Db, n: Db, buyer: Tenant, i: nat, command: nat)
    requires n == BindCancel(s, buyer, i, command)
    ensures var k := KeyScope(buyer, Cancel, Command(command));
            if k !in s.keys && i in s.tasks && s.tasks[i].buyer == buyer && s.tasks[i].status != Completed && s.tasks[i].status != Failed
            then n == s.(keys := s.keys[k := Binding(i, "")]) else n == s
  {
  }

  /** In every reachable state active work nobody has asked to cancel can be cancelled, with any fresh command, by its buyer. */
  lemma BuyersCanCancel(steps: seq<Step>, i: nat, command: nat, token: nat, now: Time)
    ensures var s := Run(EMPTY, steps);
            i in s.tasks && TaskActive(s.tasks[i]) && s.tasks[i].cancelAt.None? ==>
              var buyer := s.tasks[i].buyer;
              KeyScope(buyer, Cancel, Command(command)) !in s.keys ==>
                Requested(s, CancelTask(BindCancel(s, buyer, i, command), buyer, i, command, token, now), i, now)
  {
    var s := Run(EMPTY, steps);
    EveryRunIsSafe(steps);
    ActiveWorkIsCancellable(steps, i);
    if i in s.tasks && TaskActive(s.tasks[i]) && s.tasks[i].cancelAt.None? {
      var buyer := s.tasks[i].buyer;
      var m := BindCancel(s, buyer, i, command);
      if CancelCommandKey(buyer, command) !in s.keys {
        assert CanCancel(m, buyer, i, command) && m == s.(keys := m.keys);
        CancelRequests(s, CancelTask(m, buyer, i, command, token, now), i, now);
      }
    }
  }

  /** A cancellation takes effect exactly for the buyer of active work, under a command bound to it, the first time. */
  lemma CancelsExactlyOnce(steps: seq<Step>, buyer: Tenant, i: nat, command: nat, token: nat, now: Time)
    ensures var s := Run(EMPTY, steps);
            var n := CancelTask(s, buyer, i, command, token, now);
            var k, target := KeyScope(buyer, Cancel, Command(command)), KeyScope(buyer, CancelTarget, Subject(i));
            if && i in s.tasks && s.tasks[i].buyer == buyer && TaskActive(s.tasks[i]) && s.tasks[i].cancelAt.None?
               && k in s.keys && s.keys[k] == Binding(i, "") && target !in s.keys
            then Requested(s, n, i, now) && n.keys == s.keys[target := Token(token)] else n == s
  {
    var s := Run(EMPTY, steps);
    EveryRunIsSafe(steps);
    if CanCancel(s, buyer, i, command) { CancelRequests(s, CancelTask(s, buyer, i, command, token, now), i, now); }
  }

  /** A buyer's purge cancels its waiting work at once and leaves work that a worker holds alone. */
  lemma PurgeCancelsWaitingWork(steps: seq<Step>, buyer: Tenant, i: nat, now: Time)
    ensures var s := Run(EMPTY, steps);
            var n := PurgeCancel(s, buyer, i, now);
            if i in s.tasks && s.tasks[i].buyer == buyer && s.tasks[i].status == Queued then Requested(s, n, i, now) else n == s
  {
    var s := Run(EMPTY, steps);
    EveryRunIsSafe(steps);
    if i in s.tasks && s.tasks[i].buyer == buyer && s.tasks[i].status == Queued {
      assert TaskOk(s.tasks[i]);
      CancelRequests(s, PurgeCancel(s, buyer, i, now), i, now);
    }
  }

  /** The lease holder's acknowledgement ends a task whose cancellation was requested, and nothing else does anything. */
  lemma AcknowledgementEnds(s: Db, n: Db, i: nat, supplier: Tenant, digest: nat, now: Time)
    requires n == ObserveCancellation(s, i, supplier, digest, now)
    ensures if i in s.tasks && Leased(s.tasks[i]) && s.tasks[i].supplier == supplier && s.tasks[i].lease == Some(digest) && s.tasks[i].cancelAt.Some?
            then OneRow(s, n, i)
                 && (if s.tasks[i].completedAt.None? then Ends(s.tasks[i], n.tasks[i], Cancelled, s.tasks[i].cancelAt, now)
                     else n.tasks[i].status == Cancelled && LetGo(s.tasks[i], n.tasks[i]) && n.tasks[i].completedAt == s.tasks[i].completedAt)
            else n == s
  {
    if i in s.tasks { assert s.tasks[i := s.tasks[i]] == s.tasks; }
  }

  // ---------------------------------------------------- held work can be finished

  /** The calls of a worker that has everything done: read, checkpoint, read, complete. */
  ghost function FinishingCalls(s: Db, id: nat, supplier: Tenant, digest: nat, p: Progress, feeBps: nat, evidence: nat, now: Time): Db
    requires id in s.tasks
  {
    var read := LeaseRead(id, digest, s.tasks[id]);
    var m := CheckpointTask(ReadLease(s, id, supplier, digest, now), read, p, now, now);
    if id !in m.tasks then m
    else SettleTask(ReadLease(m, id, supplier, digest, now), LeaseRead(id, digest, m.tasks[id]), p.usage, feeBps, evidence, now, now)
  }

  lemma ReadingKeeps(s: Db, n: Db, id: nat, supplier: Tenant, digest: nat, now: Time)
    requires Inv(s) && id in s.tasks && HoldsLease(s.tasks[id], supplier, digest, now) && n == ReadLease(s, id, supplier, digest, now)
    ensures Inv(n) && n == s.(selected := n.selected) && LeaseRead(id, digest, s.tasks[id]) in n.selected
  {
    ReadLeaseKeeps(s, id, supplier, digest, now);
    ReadSelectsTheRow(s, n, id, supplier, digest, now);
  }

  lemma FreshReadCheckpoints(s: Db, n: Db, r: LeaseRead, p: Progress, now: Time)
    requires Rows(s) && Leases(s) && r in s.selected && r.task in s.tasks && r.row == s.tasks[r.task]
    requires HoldsLease(r.row, r.row.supplier, r.digest, now) && r.row.artifact in s.artifacts
    requires GoesOn(r.row, p, s.artifacts[r.row.artifact].size) && n == CheckpointTask(s, r, p, now, now)
    ensures s.tasks[r.task].deadline.Some? && Checkpointed(s, n, r.task, r.digest, p, now)
  {
    assert TaskRefs(s, s.tasks[r.task]);
    assert MayCheckpoint(s, r, p, now);
    CheckpointDecides(s, n, r, p, now, now);
  }

  lemma FreshReadSettles(s: Db, n: Db, r: LeaseRead, u: Usage, feeBps: nat, evidence: nat, now: Time)
    requires Rows(s) && Leases(s) && Settled(s) && Money(s) && r in s.selected && r.task in s.tasks && r.row == s.tasks[r.task]
    requires HoldsLease(r.row, r.row.supplier, r.digest, now) && feeBps <= 5_000
    requires r.row.artifact in s.artifacts && AllDone(r.row, u, s.artifacts[r.row.artifact].size)
    requires n == SettleTask(s, r, u, feeBps, evidence, now, now)
    ensures s.tasks[r.task].offer in s.offers && TaskPaid(s, n, r.task, u, feeBps, evidence, now)
  {
    assert TaskRefs(s, s.tasks[r.task]);
    assert MaySettle(s, r, u, feeBps, now);
    SettlesWhatMaySettle(s, r, u, feeBps, now);
    SettledTaskPays(s, n, r, u, feeBps, evidence, now, now);
  }

  lemma EverythingIsDone(a: Db, s: Db, id: nat, digest: nat, p: Progress, now: Time)
    requires id in a.tasks && a.tasks[id].deadline.Some? && Checkpointed(a, s, id, digest, p, now)
    requires HoldsLease(a.tasks[id], a.tasks[id].supplier, digest, now) && a.tasks[id].artifact in a.artifacts
    requires GoesOn(a.tasks[id], p, a.artifacts[a.tasks[id].artifact].size) && p.bytes == a.artifacts[a.tasks[id].artifact].size
    requires 1 <= p.segments == p.totalSegments && 1 <= p.usage.total
    ensures HoldsLease(s.tasks[id], a.tasks[id].supplier, digest, now) && s.tasks[id].artifact in s.artifacts
    ensures AllDone(s.tasks[id], p.usage, s.artifacts[s.tasks[id].artifact].size)
  {
  }

  /** Whoever holds a lease, in any reachable state, can finish the work in four calls and is paid for it. */
  lemma HeldWorkCanBeFinished(steps: seq<Step>, id: nat, supplier: Tenant, digest: nat, p: Progress, feeBps: nat, evidence: nat, now: Time)
    requires feeBps <= 5_000 && 1 <= p.segments == p.totalSegments && 1 <= p.usage.total
    ensures var s := Run(EMPTY, steps);
            id in s.tasks && HoldsLease(s.tasks[id], supplier, digest, now) ==>
              && s.tasks[id].artifact in s.artifacts
              && (GoesOn(s.tasks[id], p, s.artifacts[s.tasks[id].artifact].size) && p.bytes == s.artifacts[s.tasks[id].artifact].size ==>
                    var n := FinishingCalls(s, id, supplier, digest, p, feeBps, evidence, now);
                    id in n.tasks && n.tasks[id].status == Completed && n.tasks[id].usage == Some(p.usage))
  {
    var s := Run(EMPTY, steps);
    EveryRunIsSafe(steps);
    if id in s.tasks && HoldsLease(s.tasks[id], supplier, digest, now) {
      assert TaskRefs(s, s.tasks[id]);
      if GoesOn(s.tasks[id], p, s.artifacts[s.tasks[id].artifact].size) && p.bytes == s.artifacts[s.tasks[id].artifact].size {
        FinishesInFourCalls(s, id, supplier, digest, p, feeBps, evidence, now);
      }
    }
  }

  lemma FinishesInFourCalls(s: Db, id: nat, supplier: Tenant, digest: nat, p: Progress, feeBps: nat, evidence: nat, now: Time)
    requires Inv(s) && id in s.tasks && HoldsLease(s.tasks[id], supplier, digest, now) && s.tasks[id].artifact in s.artifacts
    requires GoesOn(s.tasks[id], p, s.artifacts[s.tasks[id].artifact].size) && p.bytes == s.artifacts[s.tasks[id].artifact].size
    requires feeBps <= 5_000 && 1 <= p.segments == p.totalSegments && 1 <= p.usage.total
    ensures var n := FinishingCalls(s, id, supplier, digest, p, feeBps, evidence, now);
            id in n.tasks && n.tasks[id].status == Completed && n.tasks[id].usage == Some(p.usage)
  {
    var r := LeaseRead(id, digest, s.tasks[id]);
    var a := ReadLease(s, id, supplier, digest, now);
    ReadingKeeps(s, a, id, supplier, digest, now);
    var m := CheckpointTask(a, r, p, now, now);
    CheckpointKeeps(a, r, p, now, now);
    FreshReadCheckpoints(a, m, r, p, now);
    EverythingIsDone(a, m, id, digest, p, now);
    var k := ReadLease(m, id, supplier, digest, now);
    ReadingKeeps(m, k, id, supplier, digest, now);
    FreshReadSettles(k, SettleTask(k, LeaseRead(id, digest, m.tasks[id]), p.usage, feeBps, evidence, now, now),
                     LeaseRead(id, digest, m.tasks[id]), p.usage, feeBps, evidence, now);
  }
}
