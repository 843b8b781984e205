/**
 What each operation on money and inference jobs does for the one who calls it,
 and when: prices in plain arithmetic, rows column by column, in every reachable state.
 */
module MarketJobs {
  import opened Totals
  import opened MarketTables
  import opened MarketSteps
  import opened MarketInvariants
  import opened MarketSafety
  import opened MarketRuns
  import opened MarketEveryRun
  import opened MarketLifecycles
  import opened MarketHistory
  import opened MarketTheorems

  // ------------------------------------------------------------------ prices

  lemma ChargeCovers(tokens: nat, price: nat)
    ensures Covers(Charge(tokens, price), tokens, price)
  {
  }

  /** An amount pays for the tokens exactly when it is at least their charge. */
  lemma PaysIffAtLeastCharge(amount: nat, tokens: nat, price: nat)
    ensures tokens * price <= amount * 1_000_000 <==> Charge(tokens, price) <= amount
  {
    ChargeCovers(tokens, price);
  }

  // ------------------------------------------------------------ welcome credit

  /** A tenant is credited once, the first time it is seen; nobody else's account moves. */
  lemma WelcomeCreditsOnce(s: Db, n: Db, u: Tenant, amount: nat)
    requires n == EnsureUser(s, u, amount)
    ensures Welcome(u) in n.ledger && n == s.(ledger := n.ledger)
    ensures forall t :: Available(n, t) == Available(s, t) + (if t == u && Welcome(u) !in s.ledger then amount else 0)
    ensures EnsureUser(n, u, amount) == n
  {
    SameWork(s, n);
    if Welcome(u) !in s.ledger {
      OneEntry(s, n, Welcome(u), Entry(u, true, amount));
      forall t ensures Available(n, t) == Available(s, t) + (if t == u then amount else 0) {
        assert Balance(n, t) == Balance(s, t) + Share(Entry(u, true, amount), t);
      }
    }
  }

  // -------------------------------------------------------------- settlement

  /** The buyer pays the charge out of what it had reserved, the supplier and the platform receive their shares. */
  ghost predicate Pays(s: Db, n: Db, buyer: Tenant, supplier: Tenant, reserved: nat, e: Evidence) {
    && (forall t :: Balance(n, t) == Balance(s, t) - (if t == buyer then e.charge else 0)
                                     + (if t == supplier then e.credit else 0) + (if t == Platform then e.fee else 0))
    && (forall t :: Held(n, t) == Held(s, t) - (if t == buyer then reserved else 0))
  }

  lemma MovedShares(s: Db, n: Db, buyer: Tenant, supplier: Tenant, reserved: nat, e: Evidence)
    requires forall t :: Balance(n, t) == Balance(s, t) + Moved(buyer, supplier, e, t)
    requires forall t :: Held(n, t) == Held(s, t) - (if t == buyer then reserved else 0)
    ensures Pays(s, n, buyer, supplier, reserved, e)
  {
    forall t ensures Balance(n, t) == Balance(s, t) - (if t == buyer then e.charge else 0)
                                      + (if t == supplier then e.credit else 0) + (if t == Platform then e.fee else 0)
    {
      assert Balance(n, t) == Balance(s, t) + Moved(buyer, supplier, e, t);
    }
  }

  /** A running job, before its reservation expires, whose tokens its reservation pays for. */
  predicate Payable(s: Db, id: nat, tokens: nat, feeBps: nat, dbNow: Time) {
    && id in s.jobs && s.jobs[id].status == JobRunning && s.jobs[id].offer in s.offers
    && s.jobs[id].expires.Some? && dbNow < s.jobs[id].expires.value
    && 1 <= tokens && feeBps <= 5_000
    && tokens * s.offers[s.jobs[id].offer].price <= s.jobs[id].reserved * 1_000_000
  }

  /** Priced by its tokens, split by the fee rate, entered once, paid from the reservation; nothing else changes. */
  ghost predicate JobPaid(s: Db, n: Db, id: nat, tokens: nat, feeBps: nat, digest: nat, now: Time)
    requires id in s.jobs && s.jobs[id].offer in s.offers
  {
    var j, w := s.jobs[id], JobWork(id);
    && w in n.evidence
    && var e := n.evidence[w];
    && e.digest == digest && Covers(e.charge, tokens, s.offers[j.offer].price) && Splits(e, feeBps)
    && Pays(s, n, j.buyer, j.supplier, j.reserved, e)
    && n.jobs == s.jobs[id := j.(status := JobCompleted, charge := Some(e.charge), expires := None, completedAt := Some(now))]
    && n == s.(jobs := n.jobs, ledger := n.ledger, evidence := s.evidence[w := e], usage := s.usage + {w})
  }

  lemma SettledJobPays(s: Db, n: Db, id: nat, tokens: nat, feeBps: nat, digest: nat, now: Time, dbNow: Time)
    requires Settled(s) && CanSettleJob(s, id, tokens, feeBps, dbNow) && n == SettleJob(s, id, tokens, feeBps, digest, now, dbNow)
    ensures JobPaid(s, n, id, tokens, feeBps, digest, now)
  {
    var j := s.jobs[id];
    var e := Settlement(digest, tokens, s.offers[j.offer].price, feeBps);
    SettlementPrices(digest, tokens, s.offers[j.offer].price, feeBps);
    UnsettledIsUnposted(s, JobWork(id));
    PostingBalances(s, n, JobWork(id), j.buyer, j.supplier, e);
    OneJob(s, n, id);
    forall t ensures Held(n, t) == Held(s, t) - (if t == j.buyer then j.reserved else 0) { SettledJobHeld(s, n, id, n.jobs[id], t); }
    MovedShares(s, n, j.buyer, j.supplier, j.reserved, e);
  }

  lemma PayableJobs(s: Db, id: nat, tokens: nat, feeBps: nat, dbNow: Time)
    requires Rows(s) && Money(s)
    ensures CanSettleJob(s, id, tokens, feeBps, dbNow) <==> Payable(s, id, tokens, feeBps, dbNow)
  {
    if id in s.jobs && s.jobs[id].offer in s.offers {
      PaysIffAtLeastCharge(s.jobs[id].reserved, tokens, s.offers[s.jobs[id].offer].price);
      assert 0 <= Available(s, s.jobs[id].buyer);
    }
  }

  /** In every reachable state a completion pays a payable job, exactly, and changes nothing otherwise. */
  lemma JobSettles(steps: seq<Step>, id: nat, tokens: nat, feeBps: nat, digest: nat, now: Time, dbNow: Time)
    ensures var s := Run(EMPTY, steps);
            var n := SettleJob(s, id, tokens, feeBps, digest, now, dbNow);
            if Payable(s, id, tokens, feeBps, dbNow) then JobPaid(s, n, id, tokens, feeBps, digest, now) else n == s
  {
    var s := Run(EMPTY, steps);
    EveryRunIsSafe(steps);
    PayableJobs(s, id, tokens, feeBps, dbNow);
    if Payable(s, id, tokens, feeBps, dbNow) {
      SettledJobPays(s, SettleJob(s, id, tokens, feeBps, digest, now, dbNow), id, tokens, feeBps, digest, now, dbNow);
    }
  }

  // ------------------------------------------------------------ reservations

  /** What a fresh reservation must look like to its buyer. */
  predicate Reserved(s: Db, j: Job, buyer: Tenant, o: nat, revision: nat, idem: nat, tokens: nat, now: Time) {
    && j.buyer == buyer && j.offer == o && j.revision == revision && j.idem == idem
    && o in s.offers && Covers(j.reserved, tokens, s.offers[o].price)
    && j.status == JobReserved && j.created == now && j.expires == Some(now + 120_000)
    && j.charge.None? && j.completedAt.None?
  }

  lemma NewJobIsReserved(s: Db, n: Db, id: nat, buyer: Tenant, o: nat, revision: nat, idem: nat, tokens: nat, now: Time)
    requires CanReserveJob(s, id, buyer, o, revision, idem, tokens, now) && n == ReserveJob(s, id, buyer, o, revision, idem, tokens, now)
    ensures n.jobs == s.jobs[id := n.jobs[id]] && n == s.(jobs := n.jobs)
    ensures Reserved(s, n.jobs[id], buyer, o, revision, idem, tokens, now)
  {
    ChargeCovers(tokens, s.offers[o].price);
  }

  /** An unexpired reservation starts; a started one settles for as many tokens as were reserved, or fewer. */
  ghost predicate Usable(n: Db, id: nat, tokens: nat, until: Time) {
    && id in n.jobs
    && (forall at :: n.jobs[id].status == JobReserved && at < until ==>
          StartJob(n, id, at) == n.(jobs := n.jobs[id := n.jobs[id].(status := JobRunning)]))
    && (forall used: nat, bps: nat, digest, now, at :: n.jobs[id].status == JobRunning && at < until && 1 <= used <= tokens && bps <= 5_000 ==>
          JobComplete(SettleJob(n, id, used, bps, digest, now, at), id))
  }
  predicate JobComplete(n: Db, id: nat) { id in n.jobs && n.jobs[id].status == JobCompleted }

  lemma FewerTokensPay(reserved: nat, used: nat, tokens: nat, price: nat)
    requires used <= tokens && Covers(reserved, tokens, price)
    ensures used * price <= reserved * 1_000_000
  {
    assert used * price <= tokens * price;
  }

  lemma EvolvedIsUsable(m: Db, n: Db, id: nat, tokens: nat, until: Time)
    requires Rows(n) && Money(n) && JobsEvolve(m, n) && Grows(m.offers, n.offers)
    requires id in m.jobs && m.jobs[id].expires == Some(until) && m.jobs[id].offer in m.offers
    requires Covers(m.jobs[id].reserved, tokens, m.offers[m.jobs[id].offer].price)
    ensures Usable(n, id, tokens, until)
  {
    assert JobEvolves(m.jobs[id], n.jobs[id]);
    forall used: nat, bps: nat, digest, now, at | n.jobs[id].status == JobRunning && at < until && 1 <= used <= tokens && bps <= 5_000
      ensures JobComplete(SettleJob(n, id, used, bps, digest, now, at), id)
    {
      FewerTokensPay(m.jobs[id].reserved, used, tokens, m.offers[m.jobs[id].offer].price);
      PayableJobs(n, id, used, bps, at);
      assert Payable(n, id, used, bps, at);
    }
  }

  /**
   A reservation is good for two minutes, whatever anyone does meanwhile: while it
   is still reserved it can be started, and while it is running it can be settled
   for up to the tokens it was made for.
   */
  lemma ReservationsAreUsable(before: seq<Step>, after: seq<Step>, id: nat, buyer: Tenant, o: nat, revision: nat, idem: nat, tokens: nat, now: Time)
    ensures var s := Run(EMPTY, before);
            var m := ReserveJob(s, id, buyer, o, revision, idem, tokens, now);
            id !in s.jobs && id in m.jobs ==> Usable(Run(m, after), id, tokens, now + 120_000)
  {
    var s := Run(EMPTY, before);
    var m := ReserveJob(s, id, buyer, o, revision, idem, tokens, now);
    EveryRunIsSafe(before);
    StepKeeps(s, OnJob(ReserveJobStep(id, buyer, o, revision, idem, tokens, now)));
    if id !in s.jobs && id in m.jobs {
      NewJobIsReserved(s, m, id, buyer, o, revision, idem, tokens, now);
      RunKeeps(m, after);
      RunEvolves(m, after);
      EvolvedIsUsable(m, Run(m, after), id, tokens, now + 120_000);
    }
  }

  // --------------------------------------------------- starting and failing

  /** Starting moves a reserved, unexpired job to running and touches nothing else. */
  lemma StartsWhileReserved(steps: seq<Step>, id: nat, now: Time)
    ensures var s := Run(EMPTY, steps);
            var n := StartJob(s, id, now);
            if id in s.jobs && s.jobs[id].status == JobReserved && s.jobs[id].expires.Some? && now < s.jobs[id].expires.value
            then n == s.(jobs := s.jobs[id := s.jobs[id].(status := JobRunning)]) else n == s
  {
    var s := Run(EMPTY, steps);
    if id in s.jobs { assert s.jobs[id := s.jobs[id]] == s.jobs; }
  }

  /** The job has failed at this instant, without a charge, and its reservation is free again. */
  ghost predicate GivenBack(s: Db, n: Db, id: nat, now: Time)
    requires id in s.jobs
  {
    var j := s.jobs[id];
    && n == s.(jobs := s.jobs[id := j.(status := JobFailed, expires := None, completedAt := Some(now))])
    && (forall t :: Available(n, t) == Available(s, t) + (if t == j.buyer then j.reserved else 0))
    && OfferLoad(n, j.offer) == OfferLoad(s, j.offer) - 1
  }

  lemma FailureGivesBack(s: Db, n: Db, id: nat, now: Time)
    requires id in s.jobs && JobActive(s.jobs[id]) && n == FailJob(s, id, now)
    ensures GivenBack(s, n, id, now)
  {
    OneJob(s, n, id);
    SameLedger(s, n);
    forall t ensures Available(n, t) == Available(s, t) + (if t == s.jobs[id].buyer then s.jobs[id].reserved else 0) {
      SettledJobHeld(s, n, id, n.jobs[id], t);
    }
  }

  /** Failing an active job gives its reservation back; a finished one is left alone. */
  lemma FailsWhileActive(s: Db, id: nat, now: Time)
    ensures var n := FailJob(s, id, now);
            if id in s.jobs && JobActive(s.jobs[id]) then GivenBack(s, n, id, now) else n == s
  {
    if id in s.jobs && JobActive(s.jobs[id]) {
      FailureGivesBack(s, FailJob(s, id, now), id, now);
    } else if id in s.jobs {
      assert s.jobs[id := s.jobs[id]] == s.jobs;
    }
  }

  /** The sweep fails exactly the jobs whose reservation has run out, and leaves every other row as it is. */
  lemma SweepFailsTheExpired(steps: seq<Step>, now: Time, id: nat)
    ensures var s := Run(EMPTY, steps);
            var n := ExpireJobs(s, now);
            && n == s.(jobs := n.jobs) && n.jobs.Keys == s.jobs.Keys
            && (id in s.jobs ==>
                  var j := s.jobs[id];
                  n.jobs[id] == if JobActive(j) && j.expires.Some? && j.expires.value <= now
                                then j.(status := JobFailed, expires := None, completedAt := Some(now)) else j)
  {
    var s := Run(EMPTY, steps);
    EveryRunIsSafe(steps);
    if id in s.jobs { assert JobOk(s.jobs[id]); }
  }
}
