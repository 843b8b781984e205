/** Every step keeps every invariant; hence every run does. */
module MarketSafety {
  import opened Totals
  import opened MarketTables
  import opened MarketSteps
  import opened MarketInvariants

  // ------------------------------------------------ work that only winds down

  /** A job keeps its deal and only starts, fails or stays. */
  predicate QuietJob(a: Job, b: Job) {
    && a.buyer == b.buyer && a.supplier == b.supplier && a.offer == b.offer && a.auth == b.auth
    && a.revision == b.revision && a.reserved == b.reserved && a.charge == b.charge
    && (b.status == a.status || (a.status == JobReserved && b.status == JobRunning)
        || (JobActive(a) && b.status == JobFailed))
    && (JobOk(a) ==> JobOk(b))
  }

  /** A task keeps its deal, gains no lease, is not settled, and never drops a cancellation. */
  predicate QuietTask(a: Task, b: Task) {
    && SameDeal(a, b) && a.charge == b.charge && a.attempt == b.attempt
    && (TaskActive(b) ==> TaskActive(a))
    && (Leased(b) ==> Leased(a) && b.lease == a.lease && b.deadline == a.deadline)
    && (b.status == Completed <==> a.status == Completed)
    && (a.status == Completed ==> b.bytes == a.bytes)
    && (a.cancelAt.Some? ==> b.cancelAt == a.cancelAt)
    && TaskOk(b)
  }


  /** Only unfinished work changes, and only by winding down. */
  ghost predicate Quiet(s: Db, n: Db) {
    && n.ledger == s.ledger && n.evidence == s.evidence && n.usage == s.usage
    && n.jobs.Keys == s.jobs.Keys && (forall i :: i in s.jobs ==> QuietJob(s.jobs[i], n.jobs[i]))
    && n.tasks.Keys == s.tasks.Keys && (forall i :: i in s.tasks ==> QuietTask(s.tasks[i], n.tasks[i]))
    && n.grants == s.grants && n.selected == s.selected && n.offers == s.offers && n.artifacts == s.artifacts
    && (forall i :: i in s.auths ==> i in n.auths)
    && (forall i :: i in n.auths ==> AuthOk(n.auths[i]))
  }

  lemma QuietKeepsRows(s: Db, n: Db)
    requires Rows(s) && Quiet(s, n)
    ensures Rows(n)
  {
    forall i | i in n.jobs ensures JobOk(n.jobs[i]) && JobRefs(n, n.jobs[i]) {
      assert QuietJob(s.jobs[i], n.jobs[i]) && JobRefs(s, s.jobs[i]);
    }
    forall i | i in n.tasks ensures TaskOk(n.tasks[i]) && TaskRefs(n, n.tasks[i]) {
      assert QuietTask(s.tasks[i], n.tasks[i]) && TaskRefs(s, s.tasks[i]);
    }
  }

  lemma QuietKeepsSettled(s: Db, n: Db)
    requires Settled(s) && Quiet(s, n)
    ensures Settled(n)
  {
    forall w | w in n.evidence ensures WorkDone(n, w) {
      assert WorkDone(s, w);
    }
    forall i | i in n.jobs && n.jobs[i].status == JobCompleted
      ensures Posted(n, JobWork(i), n.jobs[i].buyer, n.jobs[i].supplier, n.jobs[i].charge)
    {
      assert QuietJob(s.jobs[i], n.jobs[i]);
    }
    forall i | i in n.tasks && n.tasks[i].status == Completed
      ensures Posted(n, TaskWork(i), n.tasks[i].buyer, n.tasks[i].supplier, n.tasks[i].charge)
    {
      assert QuietTask(s.tasks[i], n.tasks[i]);
    }
  }

  lemma QuietKeepsMoney(s: Db, n: Db)
    requires Money(s) && Quiet(s, n)
    ensures Money(n)
  {
    forall t ensures 0 <= Available(n, t) {
      assert BalanceColumn(n, t) == BalanceColumn(s, t);
      SumShrinks(ReservedJobColumn(s, t), ReservedJobColumn(n, t));
      SumShrinks(ReservedTaskColumn(s, t), ReservedTaskColumn(n, t));
      assert 0 <= Available(s, t);
    }
    assert LedgerColumn(n) == LedgerColumn(s) && IssuedColumn(n) == IssuedColumn(s);
  }

  lemma QuietKeepsCapacity(s: Db, n: Db)
    requires Capacity(s) && Quiet(s, n)
    ensures Capacity(n)
  {
    forall o | o in n.offers ensures OfferLoad(n, o) <= n.offers[o].concurrency {
      SumShrinks(OfferJobColumn(s, o), OfferJobColumn(n, o));
      SumShrinks(OfferTaskColumn(s, o), OfferTaskColumn(n, o));
      assert OfferLoad(s, o) <= s.offers[o].concurrency;
    }
    forall t ensures ActiveTasks(n, t) <= MAXIMUM_ACTIVE_TASKS {
      SumShrinks(ActiveTaskColumn(s, t), ActiveTaskColumn(n, t));
      assert ActiveTasks(s, t) <= MAXIMUM_ACTIVE_TASKS;
    }
  }

  lemma QuietKeepsLeases(s: Db, n: Db)
    requires Leases(s) && Quiet(s, n)
    ensures Leases(n)
  {
    forall i ensures TimesClaimed(n, i) == TimesClaimed(s, i) {
      assert ClaimColumn(n, i) == ClaimColumn(s, i);
    }
    forall d | d in n.grants ensures GrantOk(n, d) {
      assert GrantOk(s, d) && QuietTask(s.tasks[s.grants[d].task], n.tasks[s.grants[d].task]);
    }
    forall i | i in n.tasks ensures LeaseOk(n, i) {
      assert LeaseOk(s, i) && QuietTask(s.tasks[i], n.tasks[i]);
    }
    forall r | r in n.selected ensures ReadOk(n, r) {
      assert ReadOk(s, r) && QuietTask(s.tasks[r.task], n.tasks[r.task]);
    }
  }

  lemma QuietKeeps(s: Db, n: Db)
    requires Inv(s) && Quiet(s, n) && Authorized(n) && Claims(n)
    ensures Inv(n)
  {
    QuietKeepsRows(s, n);
    QuietKeepsSettled(s, n);
    QuietKeepsMoney(s, n);
    QuietKeepsCapacity(s, n);
    QuietKeepsLeases(s, n);
  }

  /** Winding down never disturbs authorization facts while no status or revision moves. */
  lemma QuietAuthorized(s: Db, n: Db)
    requires Rows(s) && Authorized(s) && Quiet(s, n)
    requires forall i :: i in s.auths ==> n.auths[i].status == s.auths[i].status && n.auths[i].revision == s.auths[i].revision
    ensures Authorized(n)
  {
    forall i | i in n.jobs ensures CarriesCurrent(n, n.jobs[i]) {
      assert QuietJob(s.jobs[i], n.jobs[i]) && CarriesCurrent(s, s.jobs[i]);
    }
    forall i | i in n.tasks ensures Wound(n, n.tasks[i]) {
      assert QuietTask(s.tasks[i], n.tasks[i]) && Wound(s, s.tasks[i]) && TaskRefs(s, s.tasks[i]);
    }
  }

  /** The quiet steps that leave authorizations and lifecycle claims alone. */
  lemma QuietStep(s: Db, n: Db)
    requires Inv(s) && Quiet(s, n) && n.auths == s.auths
    requires forall a: nat, r: nat :: TargetKey(a, r) in n.keys <==> TargetKey(a, r) in s.keys
    ensures Inv(n)
  {
    QuietAuthorized(s, n);
    QuietKeeps(s, n);
  }

  // ------------------------------------------------------ one row at a time

  /** Only job `id` differs: every total moves by that row's own contribution. */
  lemma OneJob(s: Db, n: Db, id: nat)
    requires forall i :: i != id ==> (i in s.jobs <==> i in n.jobs)
    requires forall i :: i != id && i in s.jobs ==> s.jobs[i] == n.jobs[i]
    requires n.tasks == s.tasks
    ensures forall t :: Held(n, t) - At(ReservedJobColumn(n, t), id) == Held(s, t) - At(ReservedJobColumn(s, t), id)
    ensures forall o :: OfferLoad(n, o) - At(OfferJobColumn(n, o), id) == OfferLoad(s, o) - At(OfferJobColumn(s, o), id)
    ensures forall t :: ActiveTasks(n, t) == ActiveTasks(s, t)
  {
    forall t ensures Held(n, t) - At(ReservedJobColumn(n, t), id) == Held(s, t) - At(ReservedJobColumn(s, t), id) {
      SumChange(ReservedJobColumn(s, t), ReservedJobColumn(n, t), id);
      assert ReservedTaskColumn(n, t) == ReservedTaskColumn(s, t);
    }
    forall o ensures OfferLoad(n, o) - At(OfferJobColumn(n, o), id) == OfferLoad(s, o) - At(OfferJobColumn(s, o), id) {
      SumChange(OfferJobColumn(s, o), OfferJobColumn(n, o), id);
      assert OfferTaskColumn(n, o) == OfferTaskColumn(s, o);
    }
    forall t ensures ActiveTasks(n, t) == ActiveTasks(s, t) {
      assert ActiveTaskColumn(n, t) == ActiveTaskColumn(s, t);
    }
  }

  /** Only task `id` differs. */
  lemma OneTask(s: Db, n: Db, id: nat)
    requires forall i :: i != id ==> (i in s.tasks <==> i in n.tasks)
    requires forall i :: i != id && i in s.tasks ==> s.tasks[i] == n.tasks[i]
    requires n.jobs == s.jobs
    ensures forall t :: Held(n, t) - At(ReservedTaskColumn(n, t), id) == Held(s, t) - At(ReservedTaskColumn(s, t), id)
    ensures forall o :: OfferLoad(n, o) - At(OfferTaskColumn(n, o), id) == OfferLoad(s, o) - At(OfferTaskColumn(s, o), id)
    ensures forall t :: ActiveTasks(n, t) - At(ActiveTaskColumn(n, t), id) == ActiveTasks(s, t) - At(ActiveTaskColumn(s, t), id)
  {
    forall t ensures Held(n, t) - At(ReservedTaskColumn(n, t), id) == Held(s, t) - At(ReservedTaskColumn(s, t), id) {
      SumChange(ReservedTaskColumn(s, t), ReservedTaskColumn(n, t), id);
      assert ReservedJobColumn(n, t) == ReservedJobColumn(s, t);
    }
    forall o ensures OfferLoad(n, o) - At(OfferTaskColumn(n, o), id) == OfferLoad(s, o) - At(OfferTaskColumn(s, o), id) {
      SumChange(OfferTaskColumn(s, o), OfferTaskColumn(n, o), id);
      assert OfferJobColumn(n, o) == OfferJobColumn(s, o);
    }
    forall t ensures ActiveTasks(n, t) - At(ActiveTaskColumn(n, t), id) == ActiveTasks(s, t) - At(ActiveTaskColumn(s, t), id) {
      SumChange(ActiveTaskColumn(s, t), ActiveTaskColumn(n, t), id);
    }
  }

  function Share(e: Entry, t: Tenant): int { if e.tenant == t then e.Signed() else 0 }

  /** Only a fresh ledger entry differs. */
  lemma OneEntry(s: Db, n: Db, k: EntryKey, e: Entry)
    requires k !in s.ledger && n.ledger == s.ledger[k := e]
    ensures forall t :: Balance(n, t) == Balance(s, t) + Share(e, t)
    ensures Sum(LedgerColumn(n)) == Sum(LedgerColumn(s)) + e.Signed()
    ensures Sum(IssuedColumn(n)) == Sum(IssuedColumn(s)) + (if k.Welcome? then e.Signed() else 0)
  {
    forall t ensures Balance(n, t) == Balance(s, t) + Share(e, t) {
      SumChange(BalanceColumn(s, t), BalanceColumn(n, t), k);
    }
    SumChange(LedgerColumn(s), LedgerColumn(n), k);
    SumChange(IssuedColumn(s), IssuedColumn(n), k);
  }

  lemma SameLedger(s: Db, n: Db)
    requires n.ledger == s.ledger
    ensures forall t :: Balance(n, t) == Balance(s, t)
    ensures Sum(LedgerColumn(n)) == Sum(LedgerColumn(s)) && Sum(IssuedColumn(n)) == Sum(IssuedColumn(s))
  {
    forall t ensures Balance(n, t) == Balance(s, t) {
      assert BalanceColumn(n, t) == BalanceColumn(s, t);
    }
    assert LedgerColumn(n) == LedgerColumn(s) && IssuedColumn(n) == IssuedColumn(s);
  }

  lemma SameWork(s: Db, n: Db)
    requires n.jobs == s.jobs && n.tasks == s.tasks
    ensures forall t :: Held(n, t) == Held(s, t) && ActiveTasks(n, t) == ActiveTasks(s, t)
    ensures forall o :: OfferLoad(n, o) == OfferLoad(s, o)
  {
    OneJob(s, n, 0);
    OneTask(s, n, 0);
    forall t ensures Held(n, t) == Held(s, t) && ActiveTasks(n, t) == ActiveTasks(s, t) {
      assert ReservedJobColumn(n, t) == ReservedJobColumn(s, t) && ReservedTaskColumn(n, t) == ReservedTaskColumn(s, t);
    }
    forall o ensures OfferLoad(n, o) == OfferLoad(s, o) {
      assert OfferJobColumn(n, o) == OfferJobColumn(s, o) && OfferTaskColumn(n, o) == OfferTaskColumn(s, o);
    }
  }

  lemma SameGrants(s: Db, n: Db)
    requires n.grants == s.grants
    ensures forall i :: TimesClaimed(n, i) == TimesClaimed(s, i)
  {
    forall i ensures TimesClaimed(n, i) == TimesClaimed(s, i) {
      assert ClaimColumn(n, i) == ClaimColumn(s, i);
    }
  }

  // ------------------------------------------------------------- settlement

  /** What one settlement moves into (or out of) a tenant's balance. */
  function Moved(buyer: Tenant, supplier: Tenant, e: Evidence, t: Tenant): int {
    Share(Entry(buyer, false, e.charge), t) + Share(Entry(supplier, true, e.credit), t) + Share(Entry(Platform, true, e.fee), t)
  }

  /** A settlement's entries cancel out: buyer out, supplier and platform in. */
  lemma PostingBalances(s: Db, n: Db, w: Work, buyer: Tenant, supplier: Tenant, e: Evidence)
    requires forall f :: EffectOf(w, f) !in s.ledger
    requires e.charge == e.credit + e.fee
    requires n.ledger == PostSettlement(s.ledger, w, buyer, supplier, e)
    ensures forall t :: Balance(n, t) == Balance(s, t) + Moved(buyer, supplier, e, t)
    ensures Sum(LedgerColumn(n)) == Sum(LedgerColumn(s)) && Sum(IssuedColumn(n)) == Sum(IssuedColumn(s))
  {
    var debit, credit, fee := Entry(buyer, false, e.charge), Entry(supplier, true, e.credit), Entry(Platform, true, e.fee);
    var s1 := s.(ledger := s.ledger[EffectOf(w, Debit) := debit]);
    var s2 := s1.(ledger := s1.ledger[EffectOf(w, SupplierCredit) := credit]);
    OneEntry(s, s1, EffectOf(w, Debit), debit);
    OneEntry(s1, s2, EffectOf(w, SupplierCredit), credit);
    if e.fee == 0 {
      SameLedger(s2, n);
    } else {
      OneEntry(s2, n, EffectOf(w, PlatformFee), fee);
    }
    forall t ensures Balance(n, t) == Balance(s, t) + Moved(buyer, supplier, e, t) {
      assert Balance(s1, t) == Balance(s, t) + Share(debit, t);
      assert Balance(s2, t) == Balance(s1, t) + Share(credit, t);
    }
  }

  lemma PostingAddsOnlyItsEffects(l: map<EntryKey, Entry>, w: Work, buyer: Tenant, supplier: Tenant, e: Evidence)
    requires forall f :: EffectOf(w, f) !in l
    ensures var n := PostSettlement(l, w, buyer, supplier, e);
            && (forall k :: k in l ==> k in n && n[k] == l[k])
            && (forall k :: k in n && k !in l ==> k.EffectOf? && k.work == w)
            && EffectOf(w, Debit) in n && n[EffectOf(w, Debit)] == Entry(buyer, false, e.charge)
            && EffectOf(w, SupplierCredit) in n && n[EffectOf(w, SupplierCredit)] == Entry(supplier, true, e.credit)
            && (EffectOf(w, PlatformFee) in n <==> e.fee != 0)
            && (e.fee != 0 ==> n[EffectOf(w, PlatformFee)] == Entry(Platform, true, e.fee))
  {
  }
}
