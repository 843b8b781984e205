/**
 Every write of the marketplace as one atomic transition: a guarded statement or
 an atomic batch. A transition whose guard fails leaves the tables unchanged.
 */
module MarketSteps {
  import opened Totals
  import opened MarketTables

  // ---------------------------------------------------------------- money in

  function EnsureUser(s: Db, t: Tenant, amount: nat): Db {
    if Welcome(t) in s.ledger then s
    else s.(ledger := s.ledger[Welcome(t) := Entry(t, true, amount)])
  }

  // ------------------------------------------------------------ reservations

  /** The EXISTS join both reservation statements repeat at the write boundary. */
  predicate OfferUsable(s: Db, o: nat, revision: nat, buyer: Tenant, now: Time) {
    && o in s.offers
    && var f := s.offers[o];
    && f.tenant in s.suppliers && f.auth in s.auths
    && var ar := s.auths[f.auth];
    && ar.status == Approved && ar.tenant == f.tenant && ar.provider == f.provider
    && ar.revision == revision
    && ar.sealed.token != "" && ar.sealed.iv != "" && ar.digest.Some?
    && f.tenant != buyer
    && f.validFrom <= now < f.validUntil && now < ar.validUntil
    && s.suppliers[f.tenant].active && s.suppliers[f.tenant].enabled
  }

  function NewJob(f: Offer, o: nat, buyer: Tenant, revision: nat, idem: nat, tokens: nat, now: Time): Job {
    Job(buyer, f.tenant, o, f.auth, revision, idem, Charge(tokens, f.price), now,
        Some(now + RESERVATION_MILLISECONDS), JobReserved, None, None)
  }

  ghost predicate CanReserveJob(s: Db, id: nat, buyer: Tenant, o: nat, revision: nat, idem: nat, tokens: nat, now: Time) {
    && id !in s.jobs
    && (forall i :: i in s.jobs ==> s.jobs[i].buyer != buyer || s.jobs[i].idem != idem)
    && OfferUsable(s, o, revision, buyer, now)
    && Available(s, buyer) >= Charge(tokens, s.offers[o].price)
    && OfferLoad(s, o) < s.offers[o].concurrency
  }

  ghost function ReserveJob(s: Db, id: nat, buyer: Tenant, o: nat, revision: nat, idem: nat, tokens: nat, now: Time): Db {
    if CanReserveJob(s, id, buyer, o, revision, idem, tokens, now)
    then s.(jobs := s.jobs[id := NewJob(s.offers[o], o, buyer, revision, idem, tokens, now)])
    else s
  }

  function NewTask(f: Offer, o: nat, buyer: Tenant, artifact: nat, revision: nat, idem: nat, maxTotal: nat, now: Time): Task {
    Task(buyer, f.tenant, o, f.auth, revision, idem, artifact, maxTotal, Charge(maxTotal, f.price),
         now, Queued, 0, None, 0, None, 0, None, None, None, None, None, None, None)
  }

  ghost predicate CanReserveTask(s: Db, id: nat, buyer: Tenant, artifact: nat, o: nat, revision: nat, idem: nat, maxTotal: nat, now: Time) {
    && id !in s.tasks
    && (forall i :: i in s.tasks ==> s.tasks[i].buyer != buyer || s.tasks[i].idem != idem)
    && artifact in s.artifacts
    && var a := s.artifacts[artifact];
    && a.tenant == buyer && a.ready && !a.purged && now < a.expires
    && OfferUsable(s, o, revision, buyer, now)
    && ActiveTasks(s, buyer) < MAXIMUM_ACTIVE_TASKS
    && Available(s, buyer) >= Charge(maxTotal, s.offers[o].price)
  }

  ghost function ReserveTask(s: Db, id: nat, buyer: Tenant, artifact: nat, o: nat, revision: nat, idem: nat, maxTotal: nat, now: Time): Db {
    if CanReserveTask(s, id, buyer, artifact, o, revision, idem, maxTotal, now)
    then s.(tasks := s.tasks[id := NewTask(s.offers[o], o, buyer, artifact, revision, idem, maxTotal, now)])
    else s
  }

  // ---------------------------------------------------------- inference jobs

  function StartRow(j: Job, now: Time): Job {
    if j.status == JobReserved && j.expires.Some? && j.expires.value > now
    then j.(status := JobRunning) else j
  }
  function StartJob(s: Db, id: nat, now: Time): Db {
    if id in s.jobs then s.(jobs := s.jobs[id := StartRow(s.jobs[id], now)]) else s
  }

  function FailJobRow(j: Job, now: Time): Job {
    if JobActive(j) then j.(status := JobFailed, expires := None, completedAt := Some(now)) else j
  }
  function FailJob(s: Db, id: nat, now: Time): Db {
    if id in s.jobs then s.(jobs := s.jobs[id := FailJobRow(s.jobs[id], now)]) else s
  }

  predicate JobStale(j: Job, now: Time) {
    match j.expires
    case Some(e) => e <= now
    case None => j.created <= now - RESERVATION_MILLISECONDS
  }
  function ExpireJobs(s: Db, now: Time): Db {
    s.(jobs := map i | i in s.jobs :: if JobStale(s.jobs[i], now) then FailJobRow(s.jobs[i], now) else s.jobs[i])
  }

  // -------------------------------------------------------------- settlement

  function PostEntry(l: map<EntryKey, Entry>, k: EntryKey, e: Entry): map<EntryKey, Entry> {
    if k in l then l else l[k := e]
  }

  /** The three ledger effects of one settled piece of work; a zero fee writes no entry. */
  function PostSettlement(l: map<EntryKey, Entry>, w: Work, buyer: Tenant, supplier: Tenant, e: Evidence): map<EntryKey, Entry> {
    var l1 := PostEntry(l, EffectOf(w, Debit), Entry(buyer, false, e.charge));
    var l2 := PostEntry(l1, EffectOf(w, SupplierCredit), Entry(supplier, true, e.credit));
    if e.fee == 0 then l2 else PostEntry(l2, EffectOf(w, PlatformFee), Entry(Platform, true, e.fee))
  }

  function Settlement(digest: nat, tokens: nat, price: nat, feeBps: nat): (e: Evidence)
    requires feeBps <= 5_000
    ensures e.charge == e.credit + e.fee
  {
    var c := Charge(tokens, price);
    FeeWithinCharge(c, feeBps);
    Evidence(digest, c, c - Fee(c, feeBps), Fee(c, feeBps))
  }

  /** The least whole amount that pays for so many tokens at a price per million. */
  predicate Covers(amount: nat, tokens: nat, price: nat) {
    amount * 1_000_000 >= tokens * price > (amount - 1) * 1_000_000
  }

  /** The fee is the charge's share in hundredths of a percent, rounded down, and the supplier gets the rest. */
  predicate Splits(e: Evidence, feeBps: nat) {
    && e.fee * 10_000 <= e.charge * feeBps < (e.fee + 1) * 10_000
    && e.credit == e.charge - e.fee
  }

  lemma SettlementPrices(digest: nat, tokens: nat, price: nat, feeBps: nat)
    requires feeBps <= 5_000
    ensures var e := Settlement(digest, tokens, price, feeBps);
            Covers(e.charge, tokens, price) && Splits(e, feeBps) && 2 * e.fee <= e.charge && e.digest == digest
  {
    var c := Charge(tokens, price);
    assert c * feeBps <= c * 5_000;
  }

  function SettleJobRow(j: Job, charge: nat, now: Time): Job {
    j.(status := JobCompleted, charge := Some(charge), expires := None, completedAt := Some(now))
  }

  /** The write-side gate of COMPLETE_INFERENCE_JOB_SQL. */
  ghost predicate JobGate(s: Db, id: nat, charge: nat, dbNow: Time) {
    && id in s.jobs
    && var j := s.jobs[id];
    && j.status == JobRunning && j.expires.Some? && j.expires.value > dbNow
    && j.reserved >= charge
    && Available(s, j.buyer) + j.reserved >= charge
  }

  ghost predicate CanSettleJob(s: Db, id: nat, tokens: nat, feeBps: nat, dbNow: Time) {
    && id in s.jobs && s.jobs[id].offer in s.offers
    && tokens >= 1 && feeBps <= 5_000
    && JobGate(s, id, Charge(tokens, s.offers[s.jobs[id].offer].price), dbNow)
  }

  ghost function SettleJob(s: Db, id: nat, tokens: nat, feeBps: nat, digest: nat, now: Time, dbNow: Time): Db {
    if !CanSettleJob(s, id, tokens, feeBps, dbNow) then s
    else
      var j := s.jobs[id];
      var e := Settlement(digest, tokens, s.offers[j.offer].price, feeBps);
      s.(jobs := s.jobs[id := SettleJobRow(j, e.charge, now)],
         usage := s.usage + {JobWork(id)},
         evidence := s.evidence[JobWork(id) := e],
         ledger := PostSettlement(s.ledger, JobWork(id), j.buyer, j.supplier, e))
  }

  // ------------------------------------------------------------ lease holder

  /** What requireLeasedTask selects; `now` is the worker request's own clock reading. */
  predicate HoldsLease(t: Task, supplier: Tenant, digest: nat, now: Time) {
    && t.supplier == supplier && t.lease == Some(digest) && Leased(t) && t.cancelAt.None?
    && t.leaseUntil.Some? && t.leaseUntil.value > now
    && t.deadline.Some? && t.deadline.value > now
  }

  function ReadLease(s: Db, id: nat, supplier: Tenant, digest: nat, now: Time): Db {
    if id in s.tasks && HoldsLease(s.tasks[id], supplier, digest, now)
    then s.(selected := s.selected + {LeaseRead(id, digest, s.tasks[id])}) else s
  }

  function ClearLease(t: Task): Task {
    t.(lease := None, leaseUntil := None, deadline := None)
  }

  /** A worker whose lease carries a pending cancellation acknowledges it. */
  function ObserveRow(t: Task, supplier: Tenant, digest: nat, now: Time): Task {
    if t.supplier == supplier && t.lease == Some(digest) && t.cancelAt.Some? && Leased(t)
    then ClearLease(t).(status := Cancelled,
                        completedAt := if t.completedAt.Some? then t.completedAt else Some(now))
    else t
  }
  function ObserveCancellation(s: Db, id: nat, supplier: Tenant, digest: nat, now: Time): Db {
    if id in s.tasks then s.(tasks := s.tasks[id := ObserveRow(s.tasks[id], supplier, digest, now)]) else s
  }

  function Min(a: int, b: int): int { if a <= b then a else b }

  ghost predicate CanClaim(s: Db, id: nat, supplier: Tenant, revision: nat, digest: nat, now: Time) {
    && id in s.tasks && digest !in s.grants
    && var t := s.tasks[id];
    && t.supplier == supplier && t.status == Queued && t.cancelAt.None?
    && t.offer in s.offers && t.auth in s.auths && supplier in s.suppliers
    && var o := s.offers[t.offer];
    && var ar := s.auths[t.auth];
    && o.auth == t.auth && o.tenant == supplier && o.validFrom <= now < o.validUntil
    && ar.status == Approved && ar.revision == revision && now < ar.validUntil
    && ar.tenant == o.tenant && ar.provider == o.provider
    && s.suppliers[supplier].active && s.suppliers[supplier].enabled
    && OfferLoad(s, t.offer) < o.concurrency
  }

  /** `resume` was computed from an earlier SELECT, so it is any number here. */
  function ClaimRow(t: Task, worker: nat, digest: nat, resume: nat, clock: Time): Task {
    t.(status := Claimed, worker := Some(worker), lease := Some(digest),
       leaseUntil := Some(Min(clock + LEASE_MILLISECONDS, clock + EXECUTION_MILLISECONDS)),
       deadline := Some(clock + EXECUTION_MILLISECONDS),
       attempt := t.attempt + 1, segments := resume,
       totalSegments := if resume == 0 then None else t.totalSegments,
       bytes := if resume == 0 then 0 else t.bytes,
       usage := if resume == 0 then None else t.usage)
  }

  ghost function ClaimTask(s: Db, id: nat, supplier: Tenant, worker: nat, revision: nat, digest: nat, resume: nat, now: Time, clock: Time): Db {
    if !CanClaim(s, id, supplier, revision, digest, now) then s
    else
      var t := ClaimRow(s.tasks[id], worker, digest, resume, clock);
      s.(tasks := s.tasks[id := t],
         grants := s.grants[digest := Grant(id, t.attempt, clock + EXECUTION_MILLISECONDS)])
  }

  datatype Progress = Progress(segments: nat, totalSegments: nat, bytes: nat, usage: Usage)

  /** Checks made on the selected row before a checkpoint is written. */
  predicate CheckpointAccepted(s: Db, r: LeaseRead, p: Progress) {
    && r in s.selected && r.row.artifact in s.artifacts && r.row.deadline.Some?
    && p.segments <= p.totalSegments && r.row.segments <= p.segments
    && r.row.bytes <= p.bytes <= s.artifacts[r.row.artifact].size
    && p.usage.total == p.usage.input + p.usage.output && p.usage.total <= r.row.maxTotal
    && InputTokens(r.row.usage) <= p.usage.input
    && OutputTokens(r.row.usage) <= p.usage.output
    && TotalTokens(r.row.usage) <= p.usage.total
  }

  /** The guard the checkpoint UPDATE repeats on the current row. */
  predicate CheckpointGate(t: Task, supplier: Tenant, digest: nat, p: Progress, dbNow: Time) {
    && HoldsLease(t, supplier, digest, dbNow)
    && t.segments <= p.segments && t.bytes <= p.bytes
    && InputTokens(t.usage) <= p.usage.input && OutputTokens(t.usage) <= p.usage.output
    && TotalTokens(t.usage) <= p.usage.total
    && (t.totalSegments.None? || t.totalSegments.value == p.totalSegments)
  }

  function CheckpointRow(t: Task, p: Progress, until: Time): Task {
    t.(status := Running, segments := p.segments, totalSegments := Some(p.totalSegments),
       bytes := p.bytes, usage := Some(p.usage), leaseUntil := Some(until))
  }

  function CheckpointTask(s: Db, r: LeaseRead, p: Progress, clock: Time, dbNow: Time): Db {
    if r.task in s.tasks && CheckpointAccepted(s, r, p)
       && CheckpointGate(s.tasks[r.task], r.row.supplier, r.digest, p, dbNow)
    then
      var until := Min(clock + LEASE_MILLISECONDS, r.row.deadline.value);
      s.(tasks := s.tasks[r.task := CheckpointRow(s.tasks[r.task], p, until)])
    else s
  }

  /** Checks made on the selected row before settlement. */
  predicate CompletionAccepted(s: Db, r: LeaseRead, u: Usage) {
    && r in s.selected && r.row.artifact in s.artifacts && r.row.offer in s.offers
    && r.row.bytes == s.artifacts[r.row.artifact].size && r.row.segments >= 1
    && r.row.totalSegments == Some(r.row.segments)
    && r.row.usage.Some? && u.total == r.row.usage.value.total
    && u.total == u.input + u.output && 1 <= u.total <= r.row.maxTotal
  }

  /** The write-side gate of COMPLETE_ARTIFACT_TASK_SQL. */
  ghost predicate TaskGate(s: Db, r: LeaseRead, charge: nat, dbNow: Time) {
    && r.task in s.tasks
    && var t := s.tasks[r.task];
    && HoldsLease(t, r.row.supplier, r.digest, dbNow)
    && t.attempt == r.row.attempt && t.segments == r.row.segments
    && t.totalSegments == r.row.totalSegments && t.bytes == r.row.bytes && t.usage == r.row.usage
    && t.reserved >= charge
    && Available(s, t.buyer) + t.reserved >= charge
  }

  function SettleTaskRow(t: Task, u: Usage, charge: nat, now: Time): Task {
    ClearLease(t).(status := Completed, usage := Some(u), charge := Some(charge), completedAt := Some(now))
  }

  ghost predicate CanSettleTask(s: Db, r: LeaseRead, u: Usage, feeBps: nat, dbNow: Time) {
    && CompletionAccepted(s, r, u) && feeBps <= 5_000
    && TaskGate(s, r, Charge(u.total, s.offers[r.row.offer].price), dbNow)
  }

  ghost function SettleTask(s: Db, r: LeaseRead, u: Usage, feeBps: nat, digest: nat, now: Time, dbNow: Time): Db {
    if !CanSettleTask(s, r, u, feeBps, dbNow) then s
    else
      var t := s.tasks[r.task];
      var e := Settlement(digest, u.total, s.offers[r.row.offer].price, feeBps);
      s.(tasks := s.tasks[r.task := SettleTaskRow(t, u, e.charge, now)],
         usage := s.usage + {TaskWork(r.task)},
         evidence := s.evidence[TaskWork(r.task) := e],
         ledger := PostSettlement(s.ledger, TaskWork(r.task), t.buyer, t.supplier, e))
  }

  function FailTaskRow(t: Task, retry: bool, now: Time): Task {
    ClearLease(t).(status := if retry then Queued else Failed,
                   completedAt := if retry then None else Some(now))
  }

  function FailTask(s: Db, r: LeaseRead, retryable: bool, now: Time, dbNow: Time): Db {
    if r in s.selected && r.task in s.tasks && HoldsLease(s.tasks[r.task], r.row.supplier, r.digest, dbNow)
    then
      var retry := retryable && r.row.attempt < MAXIMUM_ATTEMPTS;
      s.(tasks := s.tasks[r.task := FailTaskRow(s.tasks[r.task], retry, now)])
    else s
  }

  // ------------------------------------------------- expiry and cancellation

  predicate DeadlinePassed(t: Task, now: Time) { t.deadline.None? || t.deadline.value <= now }

  function Requeue(t: Task, now: Time): Task {
    ClearLease(t).(status := Queued, worker := if DeadlinePassed(t, now) then None else t.worker)
  }
  function EndTask(t: Task, status: TaskStatus, now: Time): Task {
    ClearLease(t).(status := status, completedAt := Some(now))
  }

  /** The three statements that precede a claim, restricted to the claiming supplier. */
  function ExpireRow(t: Task, supplier: Tenant, now: Time): Task {
    if !(t.supplier == supplier && Leased(t) && ((t.leaseUntil.Some? && t.leaseUntil.value < now) || DeadlinePassed(t, now))) then t
    else if t.cancelAt.Some? then EndTask(t, Cancelled, now)
    else if t.attempt < MAXIMUM_ATTEMPTS then Requeue(t, now)
    else EndTask(t, Failed, now)
  }
  function ExpiredTasks(tasks: map<nat, Task>, supplier: Tenant, now: Time): map<nat, Task> {
    map i | i in tasks :: ExpireRow(tasks[i], supplier, now)
  }
  function ExpireLeases(s: Db, supplier: Tenant, now: Time): Db {
    s.(tasks := ExpiredTasks(s.tasks, supplier, now))
  }

  /** The retention sweep's task batch. */
  function SweepRow(t: Task, now: Time): Task {
    var late := t.created <= now - QUEUE_TIMEOUT_MILLISECONDS;
    if t.status == Queued then (if late then EndTask(t, Failed, now) else t)
    else if !(Leased(t) && ((t.leaseUntil.Some? && t.leaseUntil.value <= now) || DeadlinePassed(t, now))) then t
    else if t.cancelAt.Some? then EndTask(t, Cancelled, now)
    else if t.attempt < MAXIMUM_ATTEMPTS && !late then Requeue(t, now)
    else EndTask(t, Failed, now)
  }
  function SweptTasks(tasks: map<nat, Task>, now: Time): map<nat, Task> {
    map i | i in tasks :: SweepRow(tasks[i], now)
  }
  function SweepTasks(s: Db, now: Time): Db {
    s.(tasks := SweptTasks(s.tasks, now))
  }

  function CancelCommandKey(buyer: Tenant, command: nat): KeyScope { KeyScope(buyer, Cancel, Command(command)) }
  function CancelTargetKey(buyer: Tenant, id: nat): KeyScope { KeyScope(buyer, CancelTarget, Subject(id)) }

  function BindCancel(s: Db, buyer: Tenant, id: nat, command: nat): Db {
    if id in s.tasks && s.tasks[id].buyer == buyer && s.tasks[id].status != Completed && s.tasks[id].status != Failed
       && CancelCommandKey(buyer, command) !in s.keys
    then s.(keys := s.keys[CancelCommandKey(buyer, command) := Binding(id, "")]) else s
  }

  /** First phase: queued work ends, leased work only records the request. */
  function CancelRow(t: Task, now: Time): Task {
    if t.status == Queued then EndTask(t, Cancelled, now).(cancelAt := Some(now))
    else t.(cancelAt := Some(now))
  }

  predicate CanCancel(s: Db, buyer: Tenant, id: nat, command: nat) {
    && id in s.tasks && s.tasks[id].buyer == buyer
    && TaskActive(s.tasks[id]) && s.tasks[id].cancelAt.None?
    && CancelCommandKey(buyer, command) in s.keys && s.keys[CancelCommandKey(buyer, command)] == Binding(id, "")
    && CancelTargetKey(buyer, id) !in s.keys
  }
  function CancelTask(s: Db, buyer: Tenant, id: nat, command: nat, token: nat, now: Time): Db {
    if CanCancel(s, buyer, id, command)
    then s.(tasks := s.tasks[id := CancelRow(s.tasks[id], now)],
            keys := s.keys[CancelTargetKey(buyer, id) := Token(token)])
    else s
  }

  /** A buyer purge cancels queued work only. */
  function PurgeCancel(s: Db, buyer: Tenant, id: nat, now: Time): Db {
    if id in s.tasks && s.tasks[id].buyer == buyer && s.tasks[id].status == Queued && s.tasks[id].cancelAt.None?
    then s.(tasks := s.tasks[id := CancelRow(s.tasks[id], now)]) else s
  }

  // ---------------------------------------------------------- authorizations

  const EMPTY_SEAL := ""

  function Cleared(a: Auth): Auth {
    a.(sealed := a.sealed.(token := EMPTY_SEAL, iv := EMPTY_SEAL), digest := None)
  }

  function Register(s: Db, t: Tenant): Db {
    if t in s.suppliers then s else s.(suppliers := s.suppliers[t := Supplier(false, false, 1)])
  }

  predicate HasUsableCredential(auths: map<nat, Auth>, t: Tenant, now: Time) {
    exists i :: i in auths && auths[i].tenant == t && auths[i].status == Approved && now < auths[i].validUntil
      && auths[i].sealed.token != "" && auths[i].sealed.iv != "" && auths[i].digest.Some?
  }
  function SetSupply(s: Db, t: Tenant, enabled: bool, now: Time): Db {
    if t in s.suppliers && (!enabled || (s.suppliers[t].active && HasUsableCredential(s.auths, t, now)))
    then s.(suppliers := s.suppliers[t := s.suppliers[t].(enabled := enabled)]) else s
  }

  function SubmitAuth(s: Db, id: nat, tenant: Tenant, provider: nat, validUntil: Time, sealed: Sealed, l: Lookup, now: Time): Db {
    if id in s.auths || tenant !in s.suppliers then s
    else s.(auths := s.auths[id := Auth(tenant, provider, Pending, 1, validUntil, now, sealed, l.version, l.keyId, Some(l.digest), None)])
  }

  function ReviewTargetKey(id: nat): KeyScope { KeyScope(Platform, ReviewTarget, Subject(id)) }
  function ReviewCommandKey(reviewer: Tenant, command: nat): KeyScope { KeyScope(reviewer, Review, Command(command)) }

  function Matching(auths: map<nat, Auth>, lookups: set<Lookup>, legacy: string, now: Time): set<nat> {
    set i | i in auths && auths[i].status == Approved && now < auths[i].validUntil && auths[i].digest.Some?
      && (Lookup(auths[i].digestVersion, auths[i].lookupKey, auths[i].digest.value) in lookups
          || (auths[i].digestVersion == 1 && auths[i].digest.value == legacy))
  }

  /** A command key is absent, or already bound to the same payload. */
  predicate CommandFree(s: Db, k: KeyScope, b: Resource) { k in s.keys ==> s.keys[k] == b }

  function Bound(keys: map<KeyScope, Resource>, k: KeyScope, r: Resource): map<KeyScope, Resource> {
    if k in keys then keys else keys[k := r]
  }

  predicate CanClaimReview(s: Db, id: nat, reviewer: Tenant, command: nat, binding: Resource) {
    && id in s.auths && s.auths[id].tenant != reviewer
    && s.auths[id].status == Pending && s.auths[id].review.None?
    && CommandFree(s, ReviewCommandKey(reviewer, command), binding)
    && ReviewTargetKey(id) !in s.keys
  }

  function ClaimReview(s: Db, id: nat, reviewer: Tenant, command: nat, binding: Resource, token: nat): Db {
    s.(keys := Bound(s.keys[ReviewTargetKey(id) := Token(token)], ReviewCommandKey(reviewer, command), binding))
  }

  function ReviewBinding(id: nat, decision: string): Resource { Binding(id, decision) }

  const APPROVE := "approve"
  const REJECT := "reject"

  function RejectAuth(s: Db, id: nat, reviewer: Tenant, command: nat, token: nat): Db {
    var binding := ReviewBinding(id, REJECT);
    if CanClaimReview(s, id, reviewer, command, binding)
    then ClaimReview(s, id, reviewer, command, binding, token)
         .(auths := s.auths[id := Cleared(s.auths[id]).(status := Rejected, review := Some(command))])
    else s
  }

  predicate CanClaimApproval(s: Db, id: nat, reviewer: Tenant, command: nat, lookups: set<Lookup>, legacy: string, now: Time) {
    && CanClaimReview(s, id, reviewer, command, ReviewBinding(id, APPROVE))
    && |Matching(s.auths, lookups, legacy, now)| < MAXIMUM_AUTHORIZATIONS_PER_TOKEN
  }

  /** The supplier version the approval itself still tests. */
  predicate VersionHolds(s: Db, id: nat, version: nat)
    requires id in s.auths
  {
    s.auths[id].tenant in s.suppliers && s.suppliers[s.auths[id].tenant].version == version
  }

  function ApprovedBy(s: Db, id: nat, command: nat): map<nat, Auth>
    requires id in s.auths
  {
    s.auths[id := s.auths[id].(status := Approved, review := Some(command))]
  }

  /**
   The approval batch. The target claim does not test the supplier version while
   the approval does, so a stale version leaves the claim without a decision.
   */
  function ApproveAuth(s: Db, id: nat, reviewer: Tenant, command: nat, token: nat, lookups: set<Lookup>, legacy: string, version: nat, next: nat, now: Time): (n: Db)
    ensures n.tasks == s.tasks && n.jobs == s.jobs && n.grants == s.grants
  {
    if !CanClaimApproval(s, id, reviewer, command, lookups, legacy, now) then s
    else
      var c := ClaimReview(s, id, reviewer, command, ReviewBinding(id, APPROVE), token);
      if !VersionHolds(s, id, version) then c
      else
        var t := s.auths[id].tenant;
        c.(auths := ApprovedBy(s, id, command),
           suppliers := s.suppliers[t := s.suppliers[t].(active := true, version := next)])
  }

  function TargetKey(id: nat, revision: nat): KeyScope { KeyScope(Platform, LifecycleTarget, RevisionOf(id, revision)) }
  function CommandKey(t: Tenant, op: Operation, command: nat): KeyScope { KeyScope(t, op, Command(command)) }

  /** The lifecycle target claim of CLAIM_AUTHORIZATION_LIFECYCLE_TARGET_SQL. */
  predicate CanClaimTarget(s: Db, id: nat, tenant: Tenant, status: AuthStatus, revision: nat, version: nat, op: Operation, command: nat, binding: Resource) {
    && id in s.auths && s.auths[id].tenant == tenant
    && s.auths[id].status == status && s.auths[id].revision == revision
    && tenant in s.suppliers && s.suppliers[tenant].version == version
    && CommandFree(s, CommandKey(tenant, op, command), binding)
    && TargetKey(id, revision) !in s.keys
  }

  function ClaimTarget(s: Db, id: nat, tenant: Tenant, revision: nat, op: Operation, command: nat, binding: Resource, token: nat): map<KeyScope, Resource> {
    Bound(s.keys[TargetKey(id, revision) := Token(token)], CommandKey(tenant, op, command), binding)
  }

  function WithdrawAuth(s: Db, id: nat, tenant: Tenant, revision: nat, version: nat, command: nat, reason: string, token: nat): Db {
    var b := Binding(id, reason);
    if CanClaimTarget(s, id, tenant, Pending, revision, version, Withdraw, command, b)
    then s.(keys := ClaimTarget(s, id, tenant, revision, Withdraw, command, b, token),
            auths := s.auths[id := Cleared(s.auths[id]).(status := Withdrawn, revision := revision + 1)])
    else s
  }

  // The cascade of a revocation over unfinished work.

  function RevokeJobRow(j: Job, id: nat, now: Time): Job {
    if j.auth == id && j.status == JobReserved then FailJobRow(j, now) else j
  }
  function RevokeTaskRow(t: Task, id: nat, now: Time): Task {
    if t.auth != id || t.cancelAt.Some? then t
    else if t.status == Queued then EndTask(t, Failed, now)
    else if Leased(t) then t.(cancelAt := Some(now))
    else t
  }

  function RevokedJobs(jobs: map<nat, Job>, id: nat, now: Time): map<nat, Job> {
    map i | i in jobs :: RevokeJobRow(jobs[i], id, now)
  }
  function RevokedTasks(tasks: map<nat, Task>, id: nat, now: Time): map<nat, Task> {
    map i | i in tasks :: RevokeTaskRow(tasks[i], id, now)
  }

  function RevokeAuth(s: Db, id: nat, tenant: Tenant, revision: nat, version: nat, command: nat, reason: string, token: nat, now: Time): Db {
    var b := Binding(id, reason);
    if CanClaimTarget(s, id, tenant, Approved, revision, version, Revoke, command, b) && now < s.auths[id].validUntil
    then
      var s1 := s.(keys := ClaimTarget(s, id, tenant, revision, Revoke, command, b, token),
                   auths := s.auths[id := Cleared(s.auths[id]).(status := Revoked, revision := revision + 1)]);
      var keep := HasUsableCredential(s1.auths, tenant, now);
      s1.(suppliers := s.suppliers[tenant := s.suppliers[tenant].(version := version + 1, enabled := s.suppliers[tenant].enabled && keep)],
          jobs := RevokedJobs(s.jobs, id, now), tasks := RevokedTasks(s.tasks, id, now))
    else s
  }

  function RotateJobRow(j: Job, id: nat, revision: nat, now: Time): Job {
    if j.auth == id && j.revision == revision && j.status == JobReserved then FailJobRow(j, now) else j
  }

  function RotatedJobs(jobs: map<nat, Job>, id: nat, revision: nat, now: Time): map<nat, Job> {
    map i | i in jobs :: RotateJobRow(jobs[i], id, revision, now)
  }

  /** The extra predicates a rotation repeats on the exact ciphertext generation and lookup namespace. */
  predicate RotationAllowed(auths: map<nat, Auth>, id: nat, tenant: Tenant, prior: Sealed, lookups: set<Lookup>, legacy: string, now: Time) {
    && id in auths && now < auths[id].validUntil && auths[id].sealed == prior && prior.token != ""
    && (forall i :: i in Matching(auths, lookups, legacy, now) - {id} ==> auths[i].tenant == tenant)
    && |Matching(auths, lookups, legacy, now) - {id}| < MAXIMUM_AUTHORIZATIONS_PER_TOKEN
  }

  predicate CanRotate(s: Db, id: nat, tenant: Tenant, revision: nat, version: nat, command: nat, b: Resource, prior: Sealed, lookups: set<Lookup>, legacy: string, now: Time) {
    && CanClaimTarget(s, id, tenant, Approved, revision, version, Rotate, command, b)
    && RotationAllowed(s.auths, id, tenant, prior, lookups, legacy, now)
  }

  function RotatedRow(a: Auth, sealed: Sealed, active: Lookup): Auth {
    a.(sealed := sealed, digestVersion := active.version, lookupKey := active.keyId,
       digest := Some(active.digest), revision := a.revision + 1)
  }

  function RotateAuth(s: Db, id: nat, tenant: Tenant, revision: nat, version: nat, command: nat, reason: string, token: nat,
                      prior: Sealed, sealed: Sealed, active: Lookup, lookups: set<Lookup>, legacy: string, now: Time): Db
  {
    var b := Binding(id, reason + ":" + legacy);
    if CanRotate(s, id, tenant, revision, version, command, b, prior, lookups, legacy, now)
    then s.(keys := ClaimTarget(s, id, tenant, revision, Rotate, command, b, token),
            auths := s.auths[id := RotatedRow(s.auths[id], sealed, active)],
            jobs := RotatedJobs(s.jobs, id, revision, now))
    else s
  }

  /** Compare-and-swap on the ciphertext that was read; a cleared row never matches. */
  function Rewrap(s: Db, id: nat, prior: Sealed, sealed: Sealed): Db {
    if id in s.auths && prior.token != "" && s.auths[id].sealed == prior
    then s.(auths := s.auths[id := s.auths[id].(sealed := sealed)]) else s
  }

  function MigrateRow(a: Auth, lookups: set<Lookup>, legacy: string, active: Lookup): Auth {
    if a.digest.Some? && (Lookup(a.digestVersion, a.lookupKey, a.digest.value) in lookups
                          || (a.digestVersion == 1 && a.digest.value == legacy))
    then a.(digest := Some(active.digest), digestVersion := active.version, lookupKey := active.keyId) else a
  }
  function MigrateLookups(s: Db, lookups: set<Lookup>, legacy: string, active: Lookup): Db {
    s.(auths := map i | i in s.auths :: MigrateRow(s.auths[i], lookups, legacy, active))
  }

  /** The authorization statements of the maintenance batch, in order. */
  function MaintainAuthRow(a: Auth, now: Time): Auth {
    var a1 := if a.status == Pending && (a.created <= now - PENDING_REVIEW_MILLISECONDS || a.validUntil <= now)
              then Cleared(a).(status := Rejected) else a;
    var a2 := if a1.validUntil <= now then Cleared(a1) else a1;
    if a2.status == Withdrawn || a2.status == Revoked then Cleared(a2) else a2
  }
  function Maintain(s: Db, now: Time): Db {
    ExpireJobs(s, now).(auths := map i | i in s.auths :: MaintainAuthRow(s.auths[i], now))
  }

  function CreateOffer(s: Db, id: nat, o: Offer, revision: nat, version: nat, now: Time): Db {
    if && id !in s.offers && o.auth in s.auths && o.tenant in s.suppliers && o.price >= 1
       && var ar := s.auths[o.auth];
       && ar.tenant == o.tenant && ar.provider == o.provider && ar.revision == revision && ar.status == Approved
       && now < ar.validUntil && o.validUntil <= ar.validUntil
       && ar.sealed.token != "" && ar.sealed.iv != "" && ar.digest.Some?
       && s.suppliers[o.tenant].version == version && s.suppliers[o.tenant].active
    then s.(offers := s.offers[id := o]) else s
  }

  /** Upload, completion, retention and purge of an artifact, seen from the task tables. */
  function PutArtifact(s: Db, id: nat, a: Artifact): Db {
    if id in s.artifacts && (s.artifacts[id].tenant != a.tenant || s.artifacts[id].size != a.size) then s
    else s.(artifacts := s.artifacts[id := a])
  }

  // -------------------------------------------------------------------- runs

  datatype JobStep =
    | EnsureUserStep(t: Tenant, amount: nat)
    | ReserveJobStep(id: nat, t: Tenant, o: nat, revision: nat, idem: nat, tokens: nat, now: Time)
    | StartJobStep(id: nat, now: Time)
    | FailJobStep(id: nat, now: Time)
    | ExpireJobsStep(now: Time)
    | SettleJobStep(id: nat, tokens: nat, feeBps: nat, digest: nat, now: Time, dbNow: Time)

  datatype TaskStep =
    | ReserveTaskStep(id: nat, t: Tenant, artifact: nat, o: nat, revision: nat, idem: nat, tokens: nat, now: Time)
    | ReadLeaseStep(id: nat, t: Tenant, digest: nat, now: Time)
    | ObserveStep(id: nat, t: Tenant, digest: nat, now: Time)
    | ClaimStep(id: nat, t: Tenant, worker: nat, revision: nat, digest: nat, resume: nat, now: Time, clock: Time)
    | CheckpointStep(r: LeaseRead, p: Progress, clock: Time, dbNow: Time)
    | SettleTaskStep(r: LeaseRead, u: Usage, feeBps: nat, digest: nat, now: Time, dbNow: Time)
    | FailTaskStep(r: LeaseRead, retryable: bool, now: Time, dbNow: Time)
    | ExpireLeasesStep(t: Tenant, now: Time)
    | SweepTasksStep(now: Time)
    | BindCancelStep(t: Tenant, id: nat, command: nat)
    | CancelStep(t: Tenant, id: nat, command: nat, token: nat, now: Time)
    | PurgeCancelStep(t: Tenant, id: nat, now: Time)
    | PutArtifactStep(id: nat, a: Artifact)

  datatype AuthStep =
    | RegisterStep(t: Tenant)
    | SetSupplyStep(t: Tenant, enabled: bool, now: Time)
    | SubmitStep(id: nat, t: Tenant, provider: nat, validUntil: Time, sealed: Sealed, l: Lookup, now: Time)
    | RejectStep(id: nat, t: Tenant, command: nat, token: nat)
    | ApproveStep(id: nat, t: Tenant, command: nat, token: nat, lookups: set<Lookup>, legacy: string, version: nat, next: nat, now: Time)
    | WithdrawStep(id: nat, t: Tenant, revision: nat, version: nat, command: nat, reason: string, token: nat)
    | RevokeStep(id: nat, t: Tenant, revision: nat, version: nat, command: nat, reason: string, token: nat, now: Time)
    | RotateStep(id: nat, t: Tenant, revision: nat, version: nat, command: nat, reason: string, token: nat,
                 prior: Sealed, sealed: Sealed, l: Lookup, lookups: set<Lookup>, legacy: string, now: Time)
    | RewrapStep(id: nat, prior: Sealed, sealed: Sealed)
    | MigrateStep(lookups: set<Lookup>, legacy: string, l: Lookup)
    | MaintainStep(now: Time)
    | CreateOfferStep(id: nat, offer: Offer, revision: nat, version: nat, now: Time)

  datatype Step = OnJob(j: JobStep) | OnTask(t: TaskStep) | OnAuth(a: AuthStep)

  ghost function ApplyJob(s: Db, e: JobStep): Db {
    match e
    case EnsureUserStep(t, amount) => EnsureUser(s, t, amount)
    case ReserveJobStep(id, t, o, rev, idem, tokens, now) => ReserveJob(s, id, t, o, rev, idem, tokens, now)
    case StartJobStep(id, now) => StartJob(s, id, now)
    case FailJobStep(id, now) => FailJob(s, id, now)
    case ExpireJobsStep(now) => ExpireJobs(s, now)
    case SettleJobStep(id, tokens, bps, d, now, db) => SettleJob(s, id, tokens, bps, d, now, db)
  }

  ghost function ApplyTask(s: Db, e: TaskStep): Db {
    match e
    case ReserveTaskStep(id, t, a, o, rev, idem, tokens, now) => ReserveTask(s, id, t, a, o, rev, idem, tokens, now)
    case ReadLeaseStep(id, t, d, now) => ReadLease(s, id, t, d, now)
    case ObserveStep(id, t, d, now) => ObserveCancellation(s, id, t, d, now)
    case ClaimStep(id, t, w, rev, d, resume, now, clock) => ClaimTask(s, id, t, w, rev, d, resume, now, clock)
    case CheckpointStep(r, p, clock, db) => CheckpointTask(s, r, p, clock, db)
    case SettleTaskStep(r, u, bps, d, now, db) => SettleTask(s, r, u, bps, d, now, db)
    case FailTaskStep(r, retryable, now, db) => FailTask(s, r, retryable, now, db)
    case ExpireLeasesStep(t, now) => ExpireLeases(s, t, now)
    case SweepTasksStep(now) => SweepTasks(s, now)
    case BindCancelStep(t, id, command) => BindCancel(s, t, id, command)
    case CancelStep(t, id, command, token, now) => CancelTask(s, t, id, command, token, now)
    case PurgeCancelStep(t, id, now) => PurgeCancel(s, t, id, now)
    case PutArtifactStep(id, a) => PutArtifact(s, id, a)
  }

  function ApplyAuth(s: Db, e: AuthStep): Db {
    match e
    case RegisterStep(t) => Register(s, t)
    case SetSupplyStep(t, enabled, now) => SetSupply(s, t, enabled, now)
    case SubmitStep(id, t, p, until, sealed, l, now) => SubmitAuth(s, id, t, p, until, sealed, l, now)
    case RejectStep(id, t, command, token) => RejectAuth(s, id, t, command, token)
    case ApproveStep(id, t, command, token, ls, legacy, v, next, now) => ApproveAuth(s, id, t, command, token, ls, legacy, v, next, now)
    case WithdrawStep(id, t, rev, v, command, reason, token) => WithdrawAuth(s, id, t, rev, v, command, reason, token)
    case RevokeStep(id, t, rev, v, command, reason, token, now) => RevokeAuth(s, id, t, rev, v, command, reason, token, now)
    case RotateStep(id, t, rev, v, command, reason, token, prior, sealed, l, ls, legacy, now) =>
      RotateAuth(s, id, t, rev, v, command, reason, token, prior, sealed, l, ls, legacy, now)
    case RewrapStep(id, prior, sealed) => Rewrap(s, id, prior, sealed)
    case MigrateStep(ls, legacy, l) => MigrateLookups(s, ls, legacy, l)
    case MaintainStep(now) => Maintain(s, now)
    case CreateOfferStep(id, o, rev, v, now) => CreateOffer(s, id, o, rev, v, now)
  }

  ghost function Apply(s: Db, e: Step): Db {
    match e
    case OnJob(j) => ApplyJob(s, j)
    case OnTask(t) => ApplyTask(s, t)
    case OnAuth(a) => ApplyAuth(s, a)
  }

  ghost function Run(s: Db, steps: seq<Step>): Db
    decreases |steps|
  {
    if steps == [] then s else Run(Apply(s, steps[0]), steps[1..])
  }
}
