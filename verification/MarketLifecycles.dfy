/** What one step, and hence any continuation of a run, may do to rows that already exist. */
module MarketLifecycles {
  import opened Totals
  import opened MarketTables
  import opened MarketInvariants

  // --------------------------------------------------------- rows over time

  predicate JobEvolves(a: Job, b: Job) {
    && b.buyer == a.buyer && b.supplier == a.supplier && b.offer == a.offer && b.auth == a.auth
    && b.revision == a.revision && b.reserved == a.reserved
    && (!JobActive(a) ==> b == a)
    && (a.status == JobRunning ==> b.status != JobReserved)
    && (JobActive(b) ==> b.expires == a.expires)
  }

  /** A cancellation is never cleared and leads nowhere but to Cancelled; a new lease is a new attempt. */
  predicate TaskEvolves(a: Task, b: Task) {
    && SameDeal(a, b) && a.attempt <= b.attempt
    && (b.lease.Some? && b.lease != a.lease ==> a.attempt < b.attempt)
    && (!TaskActive(a) ==> b == a)
    && (a.cancelAt.Some? ==>
          && b.cancelAt == a.cancelAt && b.charge == a.charge && b.attempt == a.attempt
          && (b.status == Cancelled || (Leased(a) && Leased(b) && b.lease == a.lease) || b == a))
  }

  predicate Ended(status: AuthStatus) { status == Rejected || status == Withdrawn || status == Revoked }

  /** The status graph is acyclic and revisions only grow. */
  predicate AuthEvolves(a: Auth, b: Auth) {
    && b.tenant == a.tenant && b.provider == a.provider && b.validUntil == a.validUntil && a.revision <= b.revision
    && (b.status == a.status || a.status == Pending || (a.status == Approved && b.status == Revoked))
    && (b.status == Pending ==> a.status == Pending)
    && (Ended(a.status) ==> b.revision == a.revision)
  }

  predicate RevokedIn(s: Db, a: nat) { a in s.auths && s.auths[a].status == Revoked }

  ghost predicate JobsEvolve(s: Db, n: Db) {
    && (forall i :: i in s.jobs ==> i in n.jobs && JobEvolves(s.jobs[i], n.jobs[i]))
    && (forall i :: i in n.jobs && i !in s.jobs ==> !RevokedIn(s, n.jobs[i].auth))
  }
  ghost predicate TasksEvolve(s: Db, n: Db) {
    && (forall i :: i in s.tasks ==> i in n.tasks && TaskEvolves(s.tasks[i], n.tasks[i]))
    && (forall i :: i in n.tasks && i !in s.tasks ==> !RevokedIn(s, n.tasks[i].auth))
  }
  ghost predicate AuthsEvolve(s: Db, n: Db) {
    forall i :: i in s.auths ==> i in n.auths && AuthEvolves(s.auths[i], n.auths[i])
  }

  /** Nothing is ever rewritten or deleted here: the ledger, the evidence, the keys, the grants and the offers only grow. */
  ghost predicate Grows<K(!new), V(!new)>(a: map<K, V>, b: map<K, V>) { forall k :: k in a ==> k in b && b[k] == a[k] }

  ghost predicate LogsGrow(s: Db, n: Db) {
    && Grows(s.ledger, n.ledger) && Grows(s.evidence, n.evidence) && Grows(s.keys, n.keys) && Grows(s.grants, n.grants)
    && Grows(s.offers, n.offers)
  }

  ghost predicate Evolves(s: Db, n: Db) {
    JobsEvolve(s, n) && TasksEvolve(s, n) && AuthsEvolve(s, n) && LogsGrow(s, n)
  }
}
