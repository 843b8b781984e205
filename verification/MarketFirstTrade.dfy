/**
 From the empty database to a paid job and a paid artifact task: the operations fit
 together, for any tenants, prices, tokens and times that make sense.
 */
module MarketFirstTrade {
  import opened Totals
  import opened MarketTables
  import opened MarketSteps
  import opened MarketInvariants
  import opened MarketSafety
  import opened MarketRuns
  import opened MarketEveryRun
  import opened MarketTheorems
  import opened MarketLeases
  import opened MarketJobs
  import opened MarketTasks
  import opened MarketEndings
  import opened MarketCredentials

  /** Who trades, under which authorization and offer, from which credit. */
  datatype Deal = Deal(buyer: Tenant, supplier: Tenant, reviewer: Tenant, credit: nat, auth: nat, sealed: Sealed, lookup: Lookup,
                       command: nat, token: nat, version: nat, o: nat, offer: Offer, now: Time)

  /** Different tenants, a real credential, and an offer under that authorization that is open now. */
  predicate Sensible(d: Deal) {
    && d.buyer != d.supplier && d.reviewer != d.supplier && d.sealed.token != "" && d.sealed.iv != ""
    && d.offer.tenant == d.supplier && d.offer.auth == d.auth && 1 <= d.offer.price && 1 <= d.offer.concurrency
    && d.offer.validFrom <= d.now < d.offer.validUntil
  }

  function Credits(d: Deal): JobStep { EnsureUserStep(d.buyer, d.credit) }
  function Registers(d: Deal): AuthStep { RegisterStep(d.supplier) }
  function Submits(d: Deal): AuthStep { SubmitStep(d.auth, d.supplier, d.offer.provider, d.offer.validUntil, d.sealed, d.lookup, d.now) }
  function Approves(d: Deal): AuthStep { ApproveStep(d.auth, d.reviewer, d.command, d.token, {}, "", 1, d.version, d.now) }
  function Enables(d: Deal): AuthStep { SetSupplyStep(d.supplier, true, d.now) }
  function Lists(d: Deal): AuthStep { CreateOfferStep(d.o, d.offer, 1, d.version, d.now) }

  /** The six steps that open the market. */
  function Opening(d: Deal): seq<Step> {
    [OnJob(Credits(d)), OnAuth(Registers(d)), OnAuth(Submits(d)), OnAuth(Approves(d)), OnAuth(Enables(d)), OnAuth(Lists(d))]
  }

  /** The buyer has its credit, the offer can be used, and nobody has any work yet. */
  ghost predicate Open(s: Db, d: Deal) {
    && s.jobs == map[] && s.tasks == map[] && s.grants == map[] && s.artifacts == map[]
    && d.o in s.offers && s.offers[d.o] == d.offer && OfferUsable(s, d.o, 1, d.buyer, d.now)
    && Available(s, d.buyer) == d.credit && OfferLoad(s, d.o) == 0 && ActiveTasks(s, d.buyer) == 0
  }

  lemma RunOn(s: Db, e: Step, rest: seq<Step>)
    ensures Run(s, [e] + rest) == Run(Apply(s, e), rest)
  {
    assert ([e] + rest)[1..] == rest;
  }

  lemma OpeningInOrder(s: Db, d: Deal)
    ensures Run(s, Opening(d))
            == ApplyAuth(ApplyAuth(ApplyAuth(ApplyAuth(ApplyAuth(ApplyJob(s, Credits(d)), Registers(d)), Submits(d)), Approves(d)), Enables(d)), Lists(d))
  {
    var a := ApplyJob(s, Credits(d));
    var b := ApplyAuth(a, Registers(d));
    var c := ApplyAuth(b, Submits(d));
    var e := ApplyAuth(c, Approves(d));
    var f := ApplyAuth(e, Enables(d));
    RunOn(s, OnJob(Credits(d)), [OnAuth(Registers(d)), OnAuth(Submits(d)), OnAuth(Approves(d)), OnAuth(Enables(d)), OnAuth(Lists(d))]);
    RunOn(a, OnAuth(Registers(d)), [OnAuth(Submits(d)), OnAuth(Approves(d)), OnAuth(Enables(d)), OnAuth(Lists(d))]);
    RunOn(b, OnAuth(Submits(d)), [OnAuth(Approves(d)), OnAuth(Enables(d)), OnAuth(Lists(d))]);
    RunOn(c, OnAuth(Approves(d)), [OnAuth(Enables(d)), OnAuth(Lists(d))]);
    RunOn(e, OnAuth(Enables(d)), [OnAuth(Lists(d))]);
    RunOn(f, OnAuth(Lists(d)), []);
  }

  lemma NoWork(s: Db, t: Tenant, o: nat)
    requires s.jobs == map[] && s.tasks == map[]
    ensures Held(s, t) == 0 && OfferLoad(s, o) == 0 && ActiveTasks(s, t) == 0
  {
    assert ReservedJobColumn(s, t) == map[] && ReservedTaskColumn(s, t) == map[] && ActiveTaskColumn(s, t) == map[];
    assert OfferJobColumn(s, o) == map[] && OfferTaskColumn(s, o) == map[];
  }

  lemma CreditArrives(n: Db, d: Deal)
    requires n == ApplyJob(EMPTY, Credits(d))
    ensures n == EMPTY.(ledger := n.ledger) && Available(n, d.buyer) == d.credit
  {
    WelcomeCreditsOnce(EMPTY, n, d.buyer, d.credit);
    NoWork(EMPTY, d.buyer, 0);
    assert BalanceColumn(EMPTY, d.buyer) == map[];
  }

  /** The first approval, of the only authorization, under the version of a fresh registration. */
  lemma AuthorizationServes(s: Db, b: Db, c: Db, n: Db, d: Deal)
    requires Sensible(d) && s == EMPTY.(ledger := s.ledger)
    requires b == ApplyAuth(s, Registers(d)) && c == ApplyAuth(b, Submits(d)) && n == ApplyAuth(c, Approves(d))
    ensures n == s.(suppliers := n.suppliers, auths := n.auths, keys := n.keys)
    ensures d.supplier in n.suppliers && n.suppliers[d.supplier] == Supplier(true, false, d.version)
    ensures Serves(n.auths, d.auth, d.supplier, d.now)
    ensures var a := n.auths[d.auth]; a.provider == d.offer.provider && a.revision == 1 && a.validUntil == d.offer.validUntil
  {
    RegistersOnce(s, b, d.supplier);
    SubmissionsArePending(b, c, d.auth, d.supplier, d.offer.provider, d.offer.validUntil, d.sealed, d.lookup, d.now);
    assert Answering(c.auths, {}, "", d.now) == {};
    ApprovalsActivate(c, n, d.auth, d.reviewer, d.command, d.token, {}, "", 1, d.version, d.now);
    assert Reviewable(c, d.auth, d.reviewer, d.command, "approve");
  }

  lemma OfferOpens(e: Db, f: Db, n: Db, d: Deal)
    requires Sensible(d) && e.offers == map[] && f == ApplyAuth(e, Enables(d)) && n == ApplyAuth(f, Lists(d))
    requires d.supplier in e.suppliers && e.suppliers[d.supplier] == Supplier(true, false, d.version)
    requires Serves(e.auths, d.auth, d.supplier, d.now)
    requires var a := e.auths[d.auth]; a.provider == d.offer.provider && a.revision == 1 && a.validUntil == d.offer.validUntil
    ensures n == e.(suppliers := n.suppliers, offers := map[d.o := d.offer]) && OfferUsable(n, d.o, 1, d.buyer, d.now)
  {
    SupplySwitches(e, f, d.supplier, true, d.now);
    OffersAreListed(f, n, d.o, d.offer, 1, d.version, d.now);
  }

  /** After the opening the market is open. */
  lemma MarketOpens(d: Deal)
    requires Sensible(d)
    ensures Open(Run(EMPTY, Opening(d)), d)
  {
    var a := ApplyJob(EMPTY, Credits(d));
    var b := ApplyAuth(a, Registers(d));
    var c := ApplyAuth(b, Submits(d));
    var e := ApplyAuth(c, Approves(d));
    var f := ApplyAuth(e, Enables(d));
    var n := ApplyAuth(f, Lists(d));
    OpeningInOrder(EMPTY, d);
    CreditArrives(a, d);
    AuthorizationServes(a, b, c, e, d);
    OfferOpens(e, f, n, d);
    SameLedger(a, n);
    NoWork(a, d.buyer, d.o);
    NoWork(n, d.buyer, d.o);
  }

  // -------------------------------------------------------------- inference

  /** Reserve, start, settle. */
  function JobCalls(d: Deal, id: nat, idem: nat, tokens: nat, used: nat, feeBps: nat, digest: nat): seq<Step> {
    [OnJob(ReserveJobStep(id, d.buyer, d.o, 1, idem, tokens, d.now)), OnJob(StartJobStep(id, d.now)),
     OnJob(SettleJobStep(id, used, feeBps, digest, d.now, d.now))]
  }

  lemma JobInOrder(s: Db, d: Deal, id: nat, idem: nat, tokens: nat, used: nat, feeBps: nat, digest: nat)
    ensures Run(s, JobCalls(d, id, idem, tokens, used, feeBps, digest))
            == SettleJob(StartJob(ReserveJob(s, id, d.buyer, d.o, 1, idem, tokens, d.now), id, d.now), id, used, feeBps, digest, d.now, d.now)
  {
    var start, settle := OnJob(StartJobStep(id, d.now)), OnJob(SettleJobStep(id, used, feeBps, digest, d.now, d.now));
    var a := ReserveJob(s, id, d.buyer, d.o, 1, idem, tokens, d.now);
    RunOn(s, OnJob(ReserveJobStep(id, d.buyer, d.o, 1, idem, tokens, d.now)), [start, settle]);
    RunOn(a, start, [settle]);
    RunOn(StartJob(a, id, d.now), settle, []);
  }

  /** A buyer whose credit covers the tokens it reserves gets its job done, and pays for the tokens used. */
  lemma FirstJobIsPaid(d: Deal, id: nat, idem: nat, tokens: nat, used: nat, feeBps: nat, digest: nat)
    requires Sensible(d) && 1 <= used <= tokens && feeBps <= 5_000 && tokens * d.offer.price <= d.credit * 1_000_000
    ensures var n := Run(EMPTY, Opening(d) + JobCalls(d, id, idem, tokens, used, feeBps, digest));
            && id in n.jobs && n.jobs[id].status == JobCompleted && JobWork(id) in n.evidence
            && Covers(n.evidence[JobWork(id)].charge, used, d.offer.price) && Splits(n.evidence[JobWork(id)], feeBps)
  {
    var s := Run(EMPTY, Opening(d));
    MarketOpens(d);
    RunInTwoParts(EMPTY, Opening(d), JobCalls(d, id, idem, tokens, used, feeBps, digest));
    JobInOrder(s, d, id, idem, tokens, used, feeBps, digest);
    EveryRunIsSafe(Opening(d));
    var a := ReserveJob(s, id, d.buyer, d.o, 1, idem, tokens, d.now);
    ReserveJobKeeps(s, id, d.buyer, d.o, 1, idem, tokens, d.now);
    ReservesTheFirst(s, a, d, id, idem, tokens);
    ReservedIsPaid(a, d, id, tokens, used, feeBps, digest);
  }

  lemma ReservesTheFirst(s: Db, a: Db, d: Deal, id: nat, idem: nat, tokens: nat)
    requires Sensible(d) && Open(s, d) && tokens * d.offer.price <= d.credit * 1_000_000
    requires a == ReserveJob(s, id, d.buyer, d.o, 1, idem, tokens, d.now)
    ensures id in a.jobs && a.jobs[id].status == JobReserved && a.jobs[id].expires == Some(d.now + 120_000)
    ensures a.jobs[id].offer in a.offers && a.offers[a.jobs[id].offer] == d.offer && Covers(a.jobs[id].reserved, tokens, d.offer.price)
  {
    PaysIffAtLeastCharge(d.credit, tokens, d.offer.price);
    assert CanReserveJob(s, id, d.buyer, d.o, 1, idem, tokens, d.now);
    NewJobIsReserved(s, a, id, d.buyer, d.o, 1, idem, tokens, d.now);
  }

  lemma ReservedIsPaid(a: Db, d: Deal, id: nat, tokens: nat, used: nat, feeBps: nat, digest: nat)
    requires Inv(a) && id in a.jobs && a.jobs[id].status == JobReserved && a.jobs[id].expires == Some(d.now + 120_000)
    requires a.jobs[id].offer in a.offers && a.offers[a.jobs[id].offer] == d.offer && Covers(a.jobs[id].reserved, tokens, d.offer.price)
    requires 1 <= used <= tokens && feeBps <= 5_000
    ensures var n := SettleJob(StartJob(a, id, d.now), id, used, feeBps, digest, d.now, d.now);
            && id in n.jobs && n.jobs[id].status == JobCompleted && JobWork(id) in n.evidence
            && Covers(n.evidence[JobWork(id)].charge, used, d.offer.price) && Splits(n.evidence[JobWork(id)], feeBps)
  {
    var b := StartJob(a, id, d.now);
    StartJobKeeps(a, id, d.now);
    FewerTokensPay(a.jobs[id].reserved, used, tokens, d.offer.price);
    assert Payable(b, id, used, feeBps, d.now);
    PayableJobs(b, id, used, feeBps, d.now);
    SettledJobPays(b, SettleJob(b, id, used, feeBps, digest, d.now, d.now), id, used, feeBps, digest, d.now, d.now);
  }

  // --------------------------------------------------------------- artifacts

  /** An uploaded artifact, the reservation of its task, and its first claim. */
  function TaskCalls(d: Deal, id: nat, artifact: nat, size: nat, expires: Time, idem: nat, tokens: nat, worker: nat, digest: nat): seq<Step> {
    [OnTask(PutArtifactStep(artifact, Artifact(d.buyer, size, true, false, expires))),
     OnTask(ReserveTaskStep(id, d.buyer, artifact, d.o, 1, idem, tokens, d.now)),
     OnTask(ClaimStep(id, d.supplier, worker, 1, digest, 0, d.now, d.now))]
  }

  lemma TaskInOrder(s: Db, d: Deal, id: nat, artifact: nat, size: nat, expires: Time, idem: nat, tokens: nat, worker: nat, digest: nat)
    ensures Run(s, TaskCalls(d, id, artifact, size, expires, idem, tokens, worker, digest))
            == ClaimTask(ReserveTask(PutArtifact(s, artifact, Artifact(d.buyer, size, true, false, expires)),
                                     id, d.buyer, artifact, d.o, 1, idem, tokens, d.now),
                         id, d.supplier, worker, 1, digest, 0, d.now, d.now)
  {
    var put := OnTask(PutArtifactStep(artifact, Artifact(d.buyer, size, true, false, expires)));
    var reserve := OnTask(ReserveTaskStep(id, d.buyer, artifact, d.o, 1, idem, tokens, d.now));
    var claim := OnTask(ClaimStep(id, d.supplier, worker, 1, digest, 0, d.now, d.now));
    var a := PutArtifact(s, artifact, Artifact(d.buyer, size, true, false, expires));
    var b := ReserveTask(a, id, d.buyer, artifact, d.o, 1, idem, tokens, d.now);
    RunOn(s, put, [reserve, claim]);
    RunOn(a, reserve, [claim]);
    RunOn(b, claim, []);
  }

  /** Its task is leased to the supplier for five minutes, with nothing done yet. */
  ghost predicate Started(n: Db, d: Deal, id: nat, artifact: nat, size: nat, tokens: nat, digest: nat) {
    && id in n.tasks && HeldUntil(n.tasks[id], d.supplier, digest, d.now + 300_000)
    && n.tasks[id].artifact == artifact && artifact in n.artifacts && n.artifacts[artifact].size == size
    && n.tasks[id].maxTotal == tokens && n.tasks[id].segments == 0 && n.tasks[id].bytes == 0
    && n.tasks[id].usage.None? && n.tasks[id].totalSegments.None?
  }

  lemma UploadsTheFirst(s: Db, a: Db, d: Deal, artifact: nat, size: nat, expires: Time)
    requires Open(s, d) && a == PutArtifact(s, artifact, Artifact(d.buyer, size, true, false, expires))
    ensures a == s.(artifacts := a.artifacts) && artifact in a.artifacts && a.artifacts[artifact] == Artifact(d.buyer, size, true, false, expires)
    ensures Available(a, d.buyer) == d.credit && ActiveTasks(a, d.buyer) == 0 && OfferLoad(a, d.o) == 0
  {
    SameLedger(s, a);
    SameWork(s, a);
  }

  lemma QueuesTheFirst(a: Db, b: Db, d: Deal, id: nat, artifact: nat, idem: nat, tokens: nat)
    requires a.tasks == map[] && artifact in a.artifacts && OfferUsable(a, d.o, 1, d.buyer, d.now) && a.offers[d.o] == d.offer
    requires var f := a.artifacts[artifact]; f.tenant == d.buyer && f.ready && !f.purged && d.now < f.expires
    requires Available(a, d.buyer) == d.credit && ActiveTasks(a, d.buyer) == 0 && OfferLoad(a, d.o) == 0
    requires tokens * d.offer.price <= d.credit * 1_000_000
    requires b == ReserveTask(a, id, d.buyer, artifact, d.o, 1, idem, tokens, d.now)
    ensures id in b.tasks && b == a.(tasks := b.tasks) && Waiting(a, b.tasks[id], d.buyer, artifact, d.o, 1, idem, tokens, d.now)
    ensures b.tasks[id].supplier == d.offer.tenant && b.tasks[id].auth == d.offer.auth && OfferLoad(b, d.o) == 0
  {
    PaysIffAtLeastCharge(d.credit, tokens, d.offer.price);
    assert CanReserveTask(a, id, d.buyer, artifact, d.o, 1, idem, tokens, d.now);
    NewTaskWaits(a, b, id, d.buyer, artifact, d.o, 1, idem, tokens, d.now);
    OneTask(a, b, id);
  }

  lemma ClaimsTheQueued(b: Db, n: Db, d: Deal, id: nat, artifact: nat, idem: nat, tokens: nat, worker: nat, digest: nat)
    requires Sensible(d) && b.grants == map[] && OfferUsable(b, d.o, 1, d.buyer, d.now) && b.offers[d.o] == d.offer && OfferLoad(b, d.o) == 0
    requires id in b.tasks && Waiting(b, b.tasks[id], d.buyer, artifact, d.o, 1, idem, tokens, d.now)
    requires b.tasks[id].supplier == d.offer.tenant && b.tasks[id].auth == d.offer.auth
    requires n == ClaimTask(b, id, d.supplier, worker, 1, digest, 0, d.now, d.now)
    ensures OnlyTask(b, n, id) && Resumes(b.tasks[id], n.tasks[id], 0) && HeldUntil(n.tasks[id], d.supplier, digest, d.now + 300_000)
  {
    assert CanClaim(b, id, d.supplier, 1, digest, d.now);
    ClaimGrantsALease(b, n, id, d.supplier, worker, 1, digest, 0, d.now, d.now);
  }

  lemma ClaimsTheFirst(s: Db, n: Db, d: Deal, id: nat, artifact: nat, size: nat, expires: Time, idem: nat, tokens: nat, worker: nat, digest: nat)
    requires Sensible(d) && Open(s, d) && d.now < expires && tokens * d.offer.price <= d.credit * 1_000_000
    requires n == ClaimTask(ReserveTask(PutArtifact(s, artifact, Artifact(d.buyer, size, true, false, expires)),
                                        id, d.buyer, artifact, d.o, 1, idem, tokens, d.now),
                            id, d.supplier, worker, 1, digest, 0, d.now, d.now)
    ensures Started(n, d, id, artifact, size, tokens, digest)
  {
    var a := PutArtifact(s, artifact, Artifact(d.buyer, size, true, false, expires));
    UploadsTheFirst(s, a, d, artifact, size, expires);
    var b := ReserveTask(a, id, d.buyer, artifact, d.o, 1, idem, tokens, d.now);
    QueuesTheFirst(a, b, d, id, artifact, idem, tokens);
    ClaimsTheQueued(b, n, d, id, artifact, idem, tokens, worker, digest);
  }

  /** An uploaded file is reserved for, claimed, worked through and paid, for any progress that covers it within the budget. */
  lemma FirstTaskIsPaid(d: Deal, id: nat, artifact: nat, expires: Time, idem: nat, tokens: nat, worker: nat, digest: nat,
                        p: Progress, feeBps: nat, evidence: nat)
    requires Sensible(d) && d.now < expires && feeBps <= 5_000 && tokens * d.offer.price <= d.credit * 1_000_000
    requires 1 <= p.segments == p.totalSegments && 1 <= p.usage.total == p.usage.input + p.usage.output <= tokens
    ensures var s := Run(EMPTY, Opening(d) + TaskCalls(d, id, artifact, p.bytes, expires, idem, tokens, worker, digest));
            && id in s.tasks
            && var n := FinishingCalls(s, id, d.supplier, digest, p, feeBps, evidence, d.now);
            id in n.tasks && n.tasks[id].status == Completed && n.tasks[id].usage == Some(p.usage)
  {
    var calls := TaskCalls(d, id, artifact, p.bytes, expires, idem, tokens, worker, digest);
    FirstTaskStarts(d, id, artifact, p.bytes, expires, idem, tokens, worker, digest);
    StartedIsPaid(Opening(d) + calls, d, id, artifact, tokens, digest, p, feeBps, evidence);
  }

  lemma FirstTaskStarts(d: Deal, id: nat, artifact: nat, size: nat, expires: Time, idem: nat, tokens: nat, worker: nat, digest: nat)
    requires Sensible(d) && d.now < expires && tokens * d.offer.price <= d.credit * 1_000_000
    ensures Started(Run(EMPTY, Opening(d) + TaskCalls(d, id, artifact, size, expires, idem, tokens, worker, digest)), d, id, artifact, size, tokens, digest)
  {
    var calls := TaskCalls(d, id, artifact, size, expires, idem, tokens, worker, digest);
    var s := Run(EMPTY, Opening(d));
    MarketOpens(d);
    RunInTwoParts(EMPTY, Opening(d), calls);
    TaskInOrder(s, d, id, artifact, size, expires, idem, tokens, worker, digest);
    ClaimsTheFirst(s, Run(s, calls), d, id, artifact, size, expires, idem, tokens, worker, digest);
  }

  lemma StartedIsPaid(steps: seq<Step>, d: Deal, id: nat, artifact: nat, tokens: nat, digest: nat, p: Progress, feeBps: nat, evidence: nat)
    requires Started(Run(EMPTY, steps), d, id, artifact, p.bytes, tokens, digest) && feeBps <= 5_000
    requires 1 <= p.segments == p.totalSegments && 1 <= p.usage.total == p.usage.input + p.usage.output <= tokens
    ensures var s := Run(EMPTY, steps);
            && id in s.tasks
            && var n := FinishingCalls(s, id, d.supplier, digest, p, feeBps, evidence, d.now);
            id in n.tasks && n.tasks[id].status == Completed && n.tasks[id].usage == Some(p.usage)
  {
    assert HoldsLease(Run(EMPTY, steps).tasks[id], d.supplier, digest, d.now);
    HeldWorkCanBeFinished(steps, id, d.supplier, digest, p, feeBps, evidence, d.now);
  }
}
