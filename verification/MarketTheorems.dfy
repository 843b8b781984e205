/** What the marketplace promises, over every run of every interleaving. */
module MarketTheorems {
  import opened Totals
  import opened MarketTables
  import opened MarketSteps
  import opened MarketInvariants
  import opened MarketRuns
  import opened MarketEveryRun
  import opened MarketLifecycles
  import opened MarketHistory

  lemma {:induction false} RunInTwoParts(s: Db, a: seq<Step>, b: seq<Step>)
    ensures Run(s, a + b) == Run(Run(s, a), b)
    decreases |a|
  {
    if a == [] {
      assert a + b == b;
    } else {
      assert (a + b)[1..] == a[1..] + b;
      RunInTwoParts(Apply(s, a[0]), a[1..], b);
    }
  }

  /** A run and its continuation: both ends are safe and the second evolves from the first. */
  lemma Continues(before: seq<Step>, after: seq<Step>)
    ensures Inv(Run(EMPTY, before)) && Inv(Run(EMPTY, before + after))
    ensures Evolves(Run(EMPTY, before), Run(EMPTY, before + after))
  {
    RunInTwoParts(EMPTY, before, after);
    EveryRunIsSafe(before);
    EveryRunIsSafe(before + after);
    RunEvolves(Run(EMPTY, before), after);
  }

  // ------------------------------------------------------------------- money

  /** No tenant can spend what it has reserved elsewhere: the balance covers all open reservations. */
  lemma BalanceCoversReservations(steps: seq<Step>, t: Tenant)
    ensures var s := Run(EMPTY, steps); 0 <= Held(s, t) <= Balance(s, t)
  {
    var s := Run(EMPTY, steps);
    EveryRunIsSafe(steps);
    assert 0 <= Available(s, t);
    SumIsNonNegative(ReservedJobColumn(s, t));
    SumIsNonNegative(ReservedTaskColumn(s, t));
  }

  function Holders(s: Db): set<Tenant> { set k | k in s.ledger :: s.ledger[k].tenant }

  ghost function TotalBalance(s: Db, ts: set<Tenant>): int { Sum(map t | t in ts :: Balance(s, t)) }

  function EntriesOf(s: Db, ts: set<Tenant>): map<EntryKey, int> {
    map k | k in s.ledger && s.ledger[k].tenant in ts :: s.ledger[k].Signed()
  }

  lemma PeelTenant(s: Db, ts: set<Tenant>, t: Tenant)
    requires t in ts
    ensures Sum(EntriesOf(s, ts)) == Balance(s, t) + Sum(EntriesOf(s, ts - {t}))
  {
    var m, mine := EntriesOf(s, ts), BalanceColumn(s, t).Keys;
    SumSplits(m, mine);
    assert (map k | k in m && k in mine :: m[k]) == BalanceColumn(s, t);
    assert m - mine == EntriesOf(s, ts - {t});
  }

  lemma {:induction false} BalancesAddUp(s: Db, ts: set<Tenant>)
    ensures TotalBalance(s, ts) == Sum(EntriesOf(s, ts))
    decreases |ts|
  {
    var column := map t | t in ts :: Balance(s, t);
    if ts == {} {
      assert column == map[] && EntriesOf(s, ts) == map[];
    } else {
      var t :| t in ts;
      BalancesAddUp(s, ts - {t});
      SumRemove(column, t);
      assert column - {t} == map u | u in ts - {t} :: Balance(s, u);
      PeelTenant(s, ts, t);
    }
  }

  /** Settlement moves money but never makes or loses any: all balances add up to the credit issued. */
  lemma MoneyIsConserved(steps: seq<Step>)
    ensures var s := Run(EMPTY, steps); TotalBalance(s, Holders(s)) == Sum(IssuedColumn(s))
  {
    var s := Run(EMPTY, steps);
    EveryRunIsSafe(steps);
    BalancesAddUp(s, Holders(s));
    assert EntriesOf(s, Holders(s)) == LedgerColumn(s);
  }

  // -------------------------------------------------------------- settlement

  /** Work that has not been settled has no trace; settled work has exactly its own entries. */
  ghost predicate SettledOnce(s: Db, w: Work, done: bool, buyer: Tenant, supplier: Tenant, charge: Option<nat>, reserved: nat) {
    && (done <==> w in s.evidence) && (done <==> w in s.usage)
    && (done <==> EffectOf(w, Debit) in s.ledger) && (done <==> EffectOf(w, SupplierCredit) in s.ledger)
    && (EffectOf(w, PlatformFee) in s.ledger ==> done)
    && (done ==> Posted(s, w, buyer, supplier, charge) && s.evidence[w].charge <= reserved)
  }

  lemma JobSettledOnce(steps: seq<Step>, id: nat)
    ensures var s := Run(EMPTY, steps);
            id in s.jobs ==>
              var j := s.jobs[id];
              SettledOnce(s, JobWork(id), j.status == JobCompleted, j.buyer, j.supplier, j.charge, j.reserved)
  {
    var s := Run(EMPTY, steps);
    EveryRunIsSafe(steps);
    if id in s.jobs {
      assert JobOk(s.jobs[id]);
      if s.jobs[id].status != JobCompleted { UnsettledIsUnposted(s, JobWork(id)); }
    }
  }

  lemma TaskSettledOnce(steps: seq<Step>, id: nat)
    ensures var s := Run(EMPTY, steps);
            id in s.tasks ==>
              var t := s.tasks[id];
              SettledOnce(s, TaskWork(id), t.status == Completed, t.buyer, t.supplier, t.charge, t.reserved)
  {
    var s := Run(EMPTY, steps);
    EveryRunIsSafe(steps);
    if id in s.tasks {
      assert TaskOk(s.tasks[id]);
      if s.tasks[id].status != Completed { UnsettledIsUnposted(s, TaskWork(id)); }
    }
  }

  /** A settled job is never settled, re-priced or reversed again, whatever races with it. */
  lemma SettlementIsFinal(before: seq<Step>, after: seq<Step>, w: Work)
    ensures var s := Run(EMPTY, before);
            var n := Run(EMPTY, before + after);
            w in s.evidence ==>
              && w in n.evidence && n.evidence[w] == s.evidence[w]
              && forall f :: && (EffectOf(w, f) in s.ledger <==> EffectOf(w, f) in n.ledger)
                             && (EffectOf(w, f) in s.ledger ==> n.ledger[EffectOf(w, f)] == s.ledger[EffectOf(w, f)])
  {
    var s, n := Run(EMPTY, before), Run(EMPTY, before + after);
    Continues(before, after);
    if w in s.evidence {
      SettledEffects(s, w);
      SettledEffects(n, w);
      assert s.evidence[w] == n.evidence[w];
    }
  }

  /** Which effects exist is determined by the evidence alone. */
  lemma SettledEffects(s: Db, w: Work)
    requires Settled(s) && w in s.evidence
    ensures forall f :: EffectOf(w, f) in s.ledger <==> (f != PlatformFee || s.evidence[w].fee != 0)
  {
    assert WorkDone(s, w);
    forall f ensures EffectOf(w, f) in s.ledger <==> (f != PlatformFee || s.evidence[w].fee != 0) {
      match w
      case JobWork(i) => assert Posted(s, w, s.jobs[i].buyer, s.jobs[i].supplier, s.jobs[i].charge);
      case TaskWork(i) => assert Posted(s, w, s.tasks[i].buyer, s.tasks[i].supplier, s.tasks[i].charge);
    }
  }

  /** The completion gate's balance clause never decides: funds were set aside when the job was reserved. */
  lemma JobGateIgnoresBalance(steps: seq<Step>, id: nat, charge: nat, dbNow: Time)
    ensures var s := Run(EMPTY, steps);
            id in s.jobs ==>
              (JobGate(s, id, charge, dbNow) <==>
                (s.jobs[id].status == JobRunning && s.jobs[id].expires.Some? && s.jobs[id].expires.value > dbNow
                 && s.jobs[id].reserved >= charge))
  {
    var s := Run(EMPTY, steps);
    EveryRunIsSafe(steps);
    if id in s.jobs { assert 0 <= Available(s, s.jobs[id].buyer); }
  }

  /** The lease is still held, on the progress that was read. */
  predicate StillHeld(s: Db, r: LeaseRead, dbNow: Time) {
    && r.task in s.tasks && HoldsLease(s.tasks[r.task], r.row.supplier, r.digest, dbNow)
    && s.tasks[r.task].segments == r.row.segments && s.tasks[r.task].totalSegments == r.row.totalSegments
    && s.tasks[r.task].bytes == r.row.bytes && s.tasks[r.task].usage == r.row.usage
  }

  /**
   A task within its token budget never fails to settle for lack of reserved or
   available funds: only a lost lease or changed progress stops it.
   */
  lemma TaskSettlesIffLeaseHeld(steps: seq<Step>, r: LeaseRead, u: Usage, feeBps: nat, dbNow: Time)
    requires feeBps <= 5_000
    ensures var s := Run(EMPTY, steps);
            CompletionAccepted(s, r, u) ==> (CanSettleTask(s, r, u, feeBps, dbNow) <==> StillHeld(s, r, dbNow))
  {
    var s := Run(EMPTY, steps);
    EveryRunIsSafe(steps);
    if CompletionAccepted(s, r, u) { SettlesIffLeaseHeld(s, r, u, dbNow); }
  }

  lemma SettlesIffLeaseHeld(s: Db, r: LeaseRead, u: Usage, dbNow: Time)
    requires Rows(s) && Leases(s) && Money(s) && CompletionAccepted(s, r, u)
    ensures TaskGate(s, r, Charge(u.total, s.offers[r.row.offer].price), dbNow) <==> StillHeld(s, r, dbNow)
  {
    if r.task in s.tasks && HoldsLease(s.tasks[r.task], r.row.supplier, r.digest, dbNow) {
      LeaseIdentity(s, r);
      FundsSetAside(s, r, u);
      assert 0 <= Available(s, s.tasks[r.task].buyer);
    }
  }

  lemma FundsSetAside(s: Db, r: LeaseRead, u: Usage)
    requires Rows(s) && r.task in s.tasks && SameDeal(r.row, s.tasks[r.task]) && r.row.offer in s.offers && u.total <= r.row.maxTotal
    ensures Charge(u.total, s.offers[r.row.offer].price) <= s.tasks[r.task].reserved
  {
    assert TaskRefs(s, s.tasks[r.task]);
    ChargeGrows(u.total, r.row.maxTotal, s.offers[r.row.offer].price);
  }

  // ---------------------------------------------------------------- capacity

  lemma CapacityIsRespected(steps: seq<Step>, o: nat, t: Tenant)
    ensures var s := Run(EMPTY, steps);
            && (o in s.offers ==> OfferLoad(s, o) <= s.offers[o].concurrency)
            && ActiveTasks(s, t) <= 3
  {
    EveryRunIsSafe(steps);
  }

  // ---------------------------------------------------------- authorizations

  lemma ReservedJobsAreCurrent(steps: seq<Step>, id: nat)
    ensures var s := Run(EMPTY, steps);
            id in s.jobs && s.jobs[id].status == JobReserved ==>
              var a := s.jobs[id].auth;
              a in s.auths && s.auths[a].status == Approved && s.auths[a].revision == s.jobs[id].revision
  {
    var s := Run(EMPTY, steps);
    EveryRunIsSafe(steps);
    if id in s.jobs { assert CarriesCurrent(s, s.jobs[id]); }
  }

  ghost predicate NothingRunsUnder(s: Db, a: nat) {
    && RevokedIn(s, a)
    && (forall i :: i in s.jobs && s.jobs[i].auth == a ==> s.jobs[i].status != JobReserved)
    && (forall i :: i in s.tasks && s.tasks[i].auth == a ==>
          s.tasks[i].status != Queued && (Leased(s.tasks[i]) ==> s.tasks[i].cancelAt.Some?))
  }

  lemma RevokedIsQuiescent(s: Db, a: nat)
    requires Authorized(s) && RevokedIn(s, a)
    ensures NothingRunsUnder(s, a)
  {
    forall i | i in s.jobs && s.jobs[i].auth == a ensures s.jobs[i].status != JobReserved {
      assert CarriesCurrent(s, s.jobs[i]);
    }
    forall i | i in s.tasks && s.tasks[i].auth == a
      ensures s.tasks[i].status != Queued && (Leased(s.tasks[i]) ==> s.tasks[i].cancelAt.Some?)
    {
      assert Wound(s, s.tasks[i]);
    }
  }

  /**
   From the moment a revocation commits, for ever: the authorization stays
   revoked, nothing is reserved or queued under it, every lease under it is being
   cancelled, and no artifact task under it is debited that was not debited before.
   */
  lemma RevocationIsFinal(before: seq<Step>, after: seq<Step>, a: nat)
    requires RevokedIn(Run(EMPTY, before), a)
    ensures var s := Run(EMPTY, before);
            var n := Run(EMPTY, before + after);
            && NothingRunsUnder(n, a)
            && forall i :: i in n.tasks && n.tasks[i].auth == a && EffectOf(TaskWork(i), Debit) in n.ledger ==>
                 EffectOf(TaskWork(i), Debit) in s.ledger
  {
    var s, n := Run(EMPTY, before), Run(EMPTY, before + after);
    Continues(before, after);
    RevokedStays(s, n, a);
    RevokedIsQuiescent(n, a);
    forall i | i in n.tasks && n.tasks[i].auth == a && EffectOf(TaskWork(i), Debit) in n.ledger
      ensures EffectOf(TaskWork(i), Debit) in s.ledger
    {
      NoLateDebit(s, n, i);
    }
  }

  lemma NoLateDebit(s: Db, n: Db, i: nat)
    requires Rows(s) && Settled(s) && Authorized(s) && Settled(n) && TasksEvolve(s, n)
    requires i in n.tasks && RevokedIn(s, n.tasks[i].auth) && EffectOf(TaskWork(i), Debit) in n.ledger
    ensures EffectOf(TaskWork(i), Debit) in s.ledger
  {
    assert TaskWork(i) in n.evidence && WorkDone(n, TaskWork(i));
    assert i in s.tasks && TaskEvolves(s.tasks[i], n.tasks[i]) && Wound(s, s.tasks[i]) && TaskOk(s.tasks[i]);
    assert s.tasks[i].status == Completed;
    assert Posted(s, TaskWork(i), s.tasks[i].buyer, s.tasks[i].supplier, s.tasks[i].charge);
  }

  /** A claim on revision r exists exactly when the stored revision has passed r: no orphan claim. */
  lemma NoOrphanLifecycleClaim(steps: seq<Step>, a: nat, r: nat)
    ensures var s := Run(EMPTY, steps);
            TargetKey(a, r) in s.keys <==> (a in s.auths && 1 <= r < s.auths[a].revision)
  {
    EveryRunIsSafe(steps);
  }

  /** Step e of a run moves authorization a away from revision r. */
  ghost predicate Leaves(s: Db, e: Step, a: nat, r: nat) {
    a in s.auths && s.auths[a].revision == r && a in Apply(s, e).auths && Apply(s, e).auths[a].revision != r
  }

  /** Of all the withdrawals, revocations and rotations in a run, at most one ever leaves a given revision. */
  lemma AtMostOneTransition(steps: seq<Step>, i: nat, j: nat, a: nat, r: nat)
    requires i < j < |steps|
    ensures !(Leaves(Run(EMPTY, steps[..i]), steps[i], a, r) && Leaves(Run(EMPTY, steps[..j]), steps[j], a, r))
  {
    var s, m := Run(EMPTY, steps[..i]), Run(EMPTY, steps[..i + 1]);
    assert steps[..i + 1] == steps[..i] + [steps[i]];
    RunInTwoParts(EMPTY, steps[..i], [steps[i]]);
    assert m == Run(s, [steps[i]]) == Apply(s, steps[i]);
    assert steps[..j] == steps[..i + 1] + steps[i + 1..j];
    RunInTwoParts(EMPTY, steps[..i + 1], steps[i + 1..j]);
    EveryRunIsSafe(steps[..i]);
    EveryRunIsSafe(steps[..i + 1]);
    StepEvolves(s, steps[i]);
    RunEvolves(m, steps[i + 1..j]);
    assert a in s.auths ==> AuthEvolves(s.auths[a], m.auths[a]);
    assert a in m.auths ==> AuthEvolves(m.auths[a], Run(m, steps[i + 1..j]).auths[a]);
  }

  /** Still ended at the same revision, and empty. */
  predicate StaysCleared(s: Db, n: Db, a: nat)
    requires a in s.auths
  {
    && a in n.auths && n.auths[a].status == s.auths[a].status && n.auths[a].revision == s.auths[a].revision
    && n.auths[a].sealed.token == "" && n.auths[a].sealed.iv == "" && n.auths[a].digest.None?
  }

  lemma EndedStaysCleared(s: Db, n: Db, a: nat)
    requires Rows(n) && AuthsEvolve(s, n) && a in s.auths && Ended(s.auths[a].status)
    ensures StaysCleared(s, n, a)
  {
    assert AuthEvolves(s.auths[a], n.auths[a]) && AuthOk(n.auths[a]);
  }

  /** Once rejected, withdrawn or revoked, an authorization keeps no credential, for ever. */
  lemma CredentialIsNeverRestored(before: seq<Step>, after: seq<Step>, a: nat)
    ensures var s := Run(EMPTY, before);
            a in s.auths && Ended(s.auths[a].status) ==> StaysCleared(s, Run(EMPTY, before + after), a)
  {
    var s := Run(EMPTY, before);
    Continues(before, after);
    if a in s.auths && Ended(s.auths[a].status) { EndedStaysCleared(s, Run(EMPTY, before + after), a); }
  }

  // ------------------------------------------------------------ cancellation

  /** Cancelled, or still holding both its lease and its reservation; never debited. */
  ghost predicate WindsDown(s: Db, n: Db, i: nat)
    requires i in s.tasks
  {
    && i in n.tasks && n.tasks[i].cancelAt == s.tasks[i].cancelAt
    && (n.tasks[i].status == Cancelled
        || (Leased(n.tasks[i]) && n.tasks[i].lease == s.tasks[i].lease
            && At(ReservedTaskColumn(n, n.tasks[i].buyer), i) == s.tasks[i].reserved))
    && (forall f :: EffectOf(TaskWork(i), f) !in n.ledger)
  }

  lemma CancellationWindsDown(s: Db, n: Db, i: nat)
    requires Rows(s) && Settled(n) && TasksEvolve(s, n) && i in s.tasks && s.tasks[i].cancelAt.Some?
    ensures WindsDown(s, n, i)
  {
    assert TaskEvolves(s.tasks[i], n.tasks[i]) && TaskOk(s.tasks[i]);
    UnsettledIsUnposted(n, TaskWork(i));
  }

  /**
   Once cancellation is requested it stays requested; until the task is
   cancelled it keeps its lease and its reservation; it is never completed,
   failed, queued again or debited.
   */
  lemma CancellationIsFinal(before: seq<Step>, after: seq<Step>, i: nat)
    ensures var s := Run(EMPTY, before);
            i in s.tasks && s.tasks[i].cancelAt.Some? ==> WindsDown(s, Run(EMPTY, before + after), i)
  {
    var s := Run(EMPTY, before);
    Continues(before, after);
    if i in s.tasks && s.tasks[i].cancelAt.Some? {
      CancellationWindsDown(s, Run(EMPTY, before + after), i);
    }
  }

  /** A finished task never becomes active again: its row is frozen. */
  lemma FinishedTasksAreFrozen(before: seq<Step>, after: seq<Step>, i: nat)
    ensures var s := Run(EMPTY, before);
            var n := Run(EMPTY, before + after);
            i in s.tasks && !TaskActive(s.tasks[i]) ==> i in n.tasks && n.tasks[i] == s.tasks[i]
  {
    var s, n := Run(EMPTY, before), Run(EMPTY, before + after);
    Continues(before, after);
    if i in s.tasks {
      assert TaskEvolves(s.tasks[i], n.tasks[i]);
    }
  }
}
