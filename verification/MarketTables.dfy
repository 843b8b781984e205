/**
 The D1 tables behind reservations, leases, settlement and supplier
 authorizations. A table is a map from its primary or unique key to its row, so
 a unique index is the map itself and INSERT OR IGNORE is "insert when absent".
 Times are instants on one axis; NULL is None.
 */
module MarketTables {
  import opened Totals

  datatype Tenant = Platform | Account(id: nat)

  type Time = int

  /** Jobs and artifact tasks share the ledger's job_id column; their id prefixes differ. */
  datatype Work = JobWork(job: nat) | TaskWork(task: nat)

  datatype JobStatus = JobReserved | JobRunning | JobCompleted | JobFailed

  datatype Job = Job(
    buyer: Tenant, supplier: Tenant, offer: nat, auth: nat, revision: nat, idem: nat,
    reserved: nat, created: Time, expires: Option<Time>, status: JobStatus,
    charge: Option<nat>, completedAt: Option<Time>)

  datatype TaskStatus = Queued | Claimed | Running | Completed | Failed | Cancelled

  datatype Usage = Usage(input: nat, output: nat, total: nat)

  datatype Task = Task(
    buyer: Tenant, supplier: Tenant, offer: nat, auth: nat, revision: nat, idem: nat,
    artifact: nat, maxTotal: nat, reserved: nat, created: Time, status: TaskStatus,
    segments: nat, totalSegments: Option<nat>, bytes: nat, usage: Option<Usage>,
    attempt: nat, worker: Option<nat>,
    lease: Option<nat>, leaseUntil: Option<Time>, deadline: Option<Time>,
    charge: Option<nat>, cancelAt: Option<Time>, completedAt: Option<Time>)

  datatype Effect = Debit | SupplierCredit | PlatformFee

  /** entry_id `welcome-<tenant>`, or the unique index on (job_id, entry_type). */
  datatype EntryKey = Welcome(tenant: Tenant) | EffectOf(work: Work, effect: Effect)

  datatype Entry = Entry(tenant: Tenant, credit: bool, amount: nat) {
    function Signed(): int { if credit then amount else 0 - amount }
  }

  datatype Evidence = Evidence(digest: nat, charge: nat, credit: nat, fee: nat)

  datatype Offer = Offer(
    tenant: Tenant, auth: nat, provider: nat, concurrency: nat, price: nat,
    validFrom: Time, validUntil: Time)

  datatype Supplier = Supplier(active: bool, enabled: bool, version: nat)

  datatype AuthStatus = Pending | Approved | Rejected | Withdrawn | Revoked

  /** The ciphertext generation a compare-and-swap names. */
  datatype Sealed = Sealed(token: string, iv: string, keyVersion: nat, keyId: string)

  datatype Lookup = Lookup(version: nat, keyId: string, digest: string)

  datatype Auth = Auth(
    tenant: Tenant, provider: nat, status: AuthStatus, revision: nat, validUntil: Time,
    created: Time, sealed: Sealed, digestVersion: nat, lookupKey: string,
    digest: Option<string>, review: Option<nat>)

  datatype Operation =
    LifecycleTarget | ReviewTarget | CancelTarget | Withdraw | Revoke | Rotate | Review | Cancel

  datatype KeyName = RevisionOf(auth: nat, revision: nat) | Subject(id: nat) | Command(command: nat)

  datatype KeyScope = KeyScope(tenant: Tenant, operation: Operation, name: KeyName)

  /** What an idempotency key is bound to: a random operation token or a command's payload. */
  datatype Resource = Token(token: nat) | Binding(subject: nat, detail: string)

  datatype Artifact = Artifact(tenant: Tenant, size: nat, ready: bool, purged: bool, expires: Time)

  /** The row a worker request selected before it issued its guarded update. */
  datatype LeaseRead = LeaseRead(task: nat, digest: nat, row: Task)

  /** One committed claim: which attempt of which task a lease digest stands for. */
  datatype Grant = Grant(task: nat, attempt: nat, deadline: Time)

  datatype Db = Db(
    jobs: map<nat, Job>, tasks: map<nat, Task>,
    ledger: map<EntryKey, Entry>, evidence: map<Work, Evidence>, usage: set<Work>,
    offers: map<nat, Offer>, suppliers: map<Tenant, Supplier>, auths: map<nat, Auth>,
    keys: map<KeyScope, Resource>, artifacts: map<nat, Artifact>,
    selected: set<LeaseRead>, grants: map<nat, Grant>)

  const EMPTY := Db(map[], map[], map[], map[], {}, map[], map[], map[], map[], map[], {}, map[])

  // Runtime policy.
  const MAXIMUM_ATTEMPTS: nat := 3
  const MAXIMUM_ACTIVE_TASKS: nat := 3
  const LEASE_MILLISECONDS: nat := 5 * 60_000
  const EXECUTION_MILLISECONDS: nat := 360 * 60_000
  const QUEUE_TIMEOUT_MILLISECONDS: nat := 30 * 60_000
  const RESERVATION_MILLISECONDS: nat := 120_000
  const PENDING_REVIEW_MILLISECONDS: nat := 7 * 24 * 60 * 60_000
  const MAXIMUM_AUTHORIZATIONS_PER_TOKEN: nat := 100

  predicate JobActive(j: Job) { j.status == JobReserved || j.status == JobRunning }
  predicate Leased(t: Task) { t.status == Claimed || t.status == Running }
  predicate TaskActive(t: Task) { t.status == Queued || Leased(t) }

  function TotalTokens(u: Option<Usage>): nat { if u.Some? then u.value.total else 0 }
  function InputTokens(u: Option<Usage>): nat { if u.Some? then u.value.input else 0 }
  function OutputTokens(u: Option<Usage>): nat { if u.Some? then u.value.output else 0 }

  // Column queries.

  function BalanceColumn(s: Db, t: Tenant): map<EntryKey, int> {
    map k | k in s.ledger && s.ledger[k].tenant == t :: s.ledger[k].Signed()
  }
  function ReservedJobColumn(s: Db, t: Tenant): map<nat, int> {
    map i | i in s.jobs && s.jobs[i].buyer == t && JobActive(s.jobs[i]) :: s.jobs[i].reserved
  }
  function ReservedTaskColumn(s: Db, t: Tenant): map<nat, int> {
    map i | i in s.tasks && s.tasks[i].buyer == t && TaskActive(s.tasks[i]) :: s.tasks[i].reserved
  }
  function OfferJobColumn(s: Db, o: nat): map<nat, int> {
    map i | i in s.jobs && s.jobs[i].offer == o && JobActive(s.jobs[i]) :: 1
  }
  function OfferTaskColumn(s: Db, o: nat): map<nat, int> {
    map i | i in s.tasks && s.tasks[i].offer == o && Leased(s.tasks[i]) :: 1
  }
  function ActiveTaskColumn(s: Db, t: Tenant): map<nat, int> {
    map i | i in s.tasks && s.tasks[i].buyer == t && TaskActive(s.tasks[i]) :: 1
  }
  function LedgerColumn(s: Db): map<EntryKey, int> {
    map k | k in s.ledger :: s.ledger[k].Signed()
  }
  function IssuedColumn(s: Db): map<EntryKey, int> {
    map k | k in s.ledger && k.Welcome? :: s.ledger[k].Signed()
  }
  function ClaimColumn(s: Db, task: nat): map<nat, int> {
    map d | d in s.grants && s.grants[d].task == task :: 1
  }

  ghost function Balance(s: Db, t: Tenant): int { Sum(BalanceColumn(s, t)) }
  ghost function Held(s: Db, t: Tenant): int {
    Sum(ReservedJobColumn(s, t)) + Sum(ReservedTaskColumn(s, t))
  }
  ghost function Available(s: Db, t: Tenant): int { Balance(s, t) - Held(s, t) }
  ghost function OfferLoad(s: Db, o: nat): int { Sum(OfferJobColumn(s, o)) + Sum(OfferTaskColumn(s, o)) }
  ghost function ActiveTasks(s: Db, t: Tenant): int { Sum(ActiveTaskColumn(s, t)) }
  ghost function TimesClaimed(s: Db, task: nat): int { Sum(ClaimColumn(s, task)) }

  // Settlement arithmetic, on unbounded integers as the BigInt source.

  function Charge(tokens: nat, price: nat): nat { (tokens * price + 999_999) / 1_000_000 }
  function Fee(charge: nat, feeBps: nat): nat { charge * feeBps / 10_000 }

  lemma ChargeGrows(tokens: nat, limit: nat, price: nat)
    requires tokens <= limit
    ensures Charge(tokens, price) <= Charge(limit, price)
  {
    assert tokens * price <= limit * price;
  }

  lemma FeeWithinCharge(charge: nat, feeBps: nat)
    requires feeBps <= 5_000
    ensures Fee(charge, feeBps) <= charge
  {
    assert charge * feeBps <= charge * 10_000;
  }
}
