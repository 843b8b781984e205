/** What every reachable state of the marketplace tables satisfies. */
module MarketInvariants {
  import opened Totals
  import opened MarketTables
  import opened MarketSteps

  // ------------------------------------------------------------------- rows

  predicate JobOk(j: Job) {
    && (JobActive(j) ==> j.expires.Some?)
    && (j.status == JobCompleted <==> j.charge.Some?)
    && (j.charge.Some? ==> j.charge.value <= j.reserved)
  }

  predicate TaskOk(t: Task) {
    && (Leased(t) <==> t.lease.Some?) && (Leased(t) <==> t.leaseUntil.Some?) && (Leased(t) <==> t.deadline.Some?)
    && (Leased(t) ==> t.leaseUntil.value <= t.deadline.value && 1 <= t.attempt)
    && t.attempt <= MAXIMUM_ATTEMPTS
    && (t.status == Queued ==> t.cancelAt.None? && t.attempt < MAXIMUM_ATTEMPTS)
    && (t.cancelAt.Some? ==> Leased(t) || t.status == Cancelled)
    && TotalTokens(t.usage) <= t.maxTotal
    && (t.status == Completed <==> t.charge.Some?)
    && (t.charge.Some? ==> t.charge.value <= t.reserved
                           && t.usage.Some? && 1 <= t.segments && t.totalSegments == Some(t.segments))
  }

  predicate AuthOk(a: Auth) {
    && 1 <= a.revision
    && (a.status == Rejected || a.status == Withdrawn || a.status == Revoked ==>
          a.sealed.token == "" && a.sealed.iv == "" && a.digest.None?)
  }

  predicate JobRefs(s: Db, j: Job) {
    && j.offer in s.offers && s.offers[j.offer].tenant == j.supplier && s.offers[j.offer].auth == j.auth
    && j.auth in s.auths && j.buyer != j.supplier
  }

  predicate TaskRefs(s: Db, t: Task) {
    && t.offer in s.offers && s.offers[t.offer].tenant == t.supplier && s.offers[t.offer].auth == t.auth
    && t.auth in s.auths && t.buyer != t.supplier
    && t.artifact in s.artifacts && t.reserved == Charge(t.maxTotal, s.offers[t.offer].price)
    && (t.status == Completed ==> t.bytes == s.artifacts[t.artifact].size)
  }

  ghost predicate Rows(s: Db) {
    && (forall i :: i in s.jobs ==> JobOk(s.jobs[i]) && JobRefs(s, s.jobs[i]))
    && (forall i :: i in s.tasks ==> TaskOk(s.tasks[i]) && TaskRefs(s, s.tasks[i]))
    && (forall i :: i in s.auths ==> AuthOk(s.auths[i]))
  }

  // ------------------------------------------------------------------ money

  predicate WorkDone(s: Db, w: Work) {
    match w
    case JobWork(i) => i in s.jobs && s.jobs[i].status == JobCompleted
    case TaskWork(i) => i in s.tasks && s.tasks[i].status == Completed
  }

  /** The evidence row, the debit, the credit and the fee of one piece of work agree to the micro. */
  predicate Posted(s: Db, w: Work, buyer: Tenant, supplier: Tenant, charge: Option<nat>) {
    && w in s.evidence
    && var e := s.evidence[w];
    && charge == Some(e.charge) && e.charge == e.credit + e.fee
    && EffectOf(w, Debit) in s.ledger && s.ledger[EffectOf(w, Debit)] == Entry(buyer, false, e.charge)
    && EffectOf(w, SupplierCredit) in s.ledger
    && s.ledger[EffectOf(w, SupplierCredit)] == Entry(supplier, true, e.credit)
    && (e.fee != 0 <==> EffectOf(w, PlatformFee) in s.ledger)
    && (e.fee != 0 ==> s.ledger[EffectOf(w, PlatformFee)] == Entry(Platform, true, e.fee))
  }

  /** Completed exactly when settled, and nothing else ever reached the ledger. */
  ghost predicate Settled(s: Db) {
    && (forall i :: i in s.jobs && s.jobs[i].status == JobCompleted ==>
          Posted(s, JobWork(i), s.jobs[i].buyer, s.jobs[i].supplier, s.jobs[i].charge))
    && (forall i :: i in s.tasks && s.tasks[i].status == Completed ==>
          Posted(s, TaskWork(i), s.tasks[i].buyer, s.tasks[i].supplier, s.tasks[i].charge))
    && (forall w :: w in s.evidence ==> WorkDone(s, w))
    && (forall w :: w in s.usage <==> w in s.evidence)
    && (forall k :: k in s.ledger && k.EffectOf? ==> k.work in s.evidence)
  }

  /** No tenant's reservations exceed its balance, and settlement neither creates nor destroys money. */
  ghost predicate Money(s: Db) {
    && (forall t :: 0 <= Available(s, t))
    && Sum(LedgerColumn(s)) == Sum(IssuedColumn(s))
  }

  ghost predicate Capacity(s: Db) {
    && (forall o :: o in s.offers ==> OfferLoad(s, o) <= s.offers[o].concurrency)
    && (forall t :: ActiveTasks(s, t) <= MAXIMUM_ACTIVE_TASKS)
  }

  // --------------------------------------------------------- authorizations

  /** A reserved job still carries the current generation of an approved authorization. */
  predicate CarriesCurrent(s: Db, j: Job) {
    j.status == JobReserved ==>
      j.auth in s.auths && s.auths[j.auth].status == Approved && s.auths[j.auth].revision == j.revision
  }

  /** Under a revoked authorization nothing is queued and every lease is being cancelled. */
  predicate Wound(s: Db, t: Task) {
    t.auth in s.auths && s.auths[t.auth].status == Revoked ==>
      t.status != Queued && (Leased(t) ==> t.cancelAt.Some?)
  }

  ghost predicate Authorized(s: Db) {
    && (forall i :: i in s.jobs ==> CarriesCurrent(s, s.jobs[i]))
    && (forall i :: i in s.tasks ==> Wound(s, s.tasks[i]))
  }

  /** A lifecycle claim exists for exactly the revisions an authorization has left. */
  ghost predicate Claims(s: Db) {
    forall a: nat, n: nat :: TargetKey(a, n) in s.keys <==> (a in s.auths && 1 <= n < s.auths[a].revision)
  }

  // ----------------------------------------------------------------- leases

  predicate SameDeal(a: Task, b: Task) {
    && a.buyer == b.buyer && a.supplier == b.supplier && a.offer == b.offer && a.auth == b.auth
    && a.revision == b.revision && a.idem == b.idem && a.artifact == b.artifact
    && a.maxTotal == b.maxTotal && a.reserved == b.reserved && a.created == b.created
  }

  /** A digest stands for one attempt of one task. */
  predicate GrantOk(s: Db, d: nat)
    requires d in s.grants
  {
    s.grants[d].task in s.tasks && s.grants[d].attempt <= s.tasks[s.grants[d].task].attempt
  }

  /** A live lease is the newest grant of its task. */
  predicate LeaseOk(s: Db, i: nat)
    requires i in s.tasks
  {
    var t := s.tasks[i];
    t.lease.Some? && t.deadline.Some? ==>
      t.lease.value in s.grants && s.grants[t.lease.value] == Grant(i, t.attempt, t.deadline.value)
  }

  /** A selected row is the grant its digest stands for, on unchanged terms. */
  predicate ReadOk(s: Db, r: LeaseRead) {
    && r.row.deadline.Some? && r.digest in s.grants && r.task in s.tasks
    && s.grants[r.digest] == Grant(r.task, r.row.attempt, r.row.deadline.value)
    && SameDeal(r.row, s.tasks[r.task])
  }

  ghost predicate Leases(s: Db) {
    && (forall d :: d in s.grants ==> GrantOk(s, d))
    && (forall i :: i in s.tasks ==> LeaseOk(s, i))
    && (forall r :: r in s.selected ==> ReadOk(s, r))
    && (forall i :: TimesClaimed(s, i) == if i in s.tasks then s.tasks[i].attempt else 0)
  }

  ghost predicate Inv(s: Db) {
    && Rows(s) && Settled(s) && Money(s) && Capacity(s) && Authorized(s) && Claims(s) && Leases(s)
  }
}
