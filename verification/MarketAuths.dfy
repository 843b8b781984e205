/** Steps on authorizations, offers and reads keep the invariants; then every step does. */
module MarketAuths {
  import opened Totals
  import opened MarketTables
  import opened MarketSteps
  import opened MarketInvariants
  import opened MarketSafety
  import opened MarketRuns

  // ------------------------------------------------------------------- rows

  lemma OneAuthIsQuiet(s: Db, n: Db, id: nat, row: Auth)
    requires Rows(s) && n == s.(auths := s.auths[id := row], keys := n.keys, suppliers := n.suppliers) && AuthOk(row)
    ensures Quiet(s, n)
  {
    assert forall i :: i in s.tasks ==> QuietTask(s.tasks[i], n.tasks[i]);
    assert forall i :: i in s.jobs ==> QuietJob(s.jobs[i], n.jobs[i]);
  }

  lemma AuthsAreQuiet(s: Db, n: Db)
    requires Rows(s) && n == s.(auths := n.auths, jobs := n.jobs) && n.auths.Keys == s.auths.Keys
    requires n.jobs.Keys == s.jobs.Keys && forall i :: i in s.jobs ==> QuietJob(s.jobs[i], n.jobs[i])
    requires forall i :: i in n.auths ==> AuthOk(n.auths[i])
    ensures Quiet(s, n)
  {
    assert forall i :: i in s.tasks ==> QuietTask(s.tasks[i], n.tasks[i]);
  }

  // ------------------------------------------------- who may still be working

  /** Deciding a pending request touches no reservation: none can exist under it. */
  lemma DecidingAuthorized(s: Db, n: Db, id: nat, row: Auth)
    requires Authorized(s) && n == s.(auths := s.auths[id := row], keys := n.keys, suppliers := n.suppliers)
    requires id in s.auths ==> s.auths[id].status == Pending
    requires row.status != Revoked
    ensures Authorized(n)
  {
    forall i | i in n.jobs ensures CarriesCurrent(n, n.jobs[i]) {
      assert CarriesCurrent(s, s.jobs[i]);
    }
    forall i | i in n.tasks ensures Wound(n, n.tasks[i]) {
      assert Wound(s, s.tasks[i]);
    }
  }

  predicate SweptAuth(a: Auth, b: Auth) {
    b.revision == a.revision && (b.status == a.status || (a.status == Pending && b.status == Rejected))
  }

  /** A sweep may reject pending requests and clear credentials, nothing more. */
  lemma SweepAuthorized(s: Db, n: Db)
    requires Rows(s) && Authorized(s) && Quiet(s, n) && n.auths.Keys == s.auths.Keys
    requires forall i :: i in s.auths ==> SweptAuth(s.auths[i], n.auths[i])
    ensures Authorized(n)
  {
    forall i | i in n.jobs ensures CarriesCurrent(n, n.jobs[i]) {
      assert QuietJob(s.jobs[i], n.jobs[i]) && CarriesCurrent(s, s.jobs[i]);
    }
    forall i | i in n.tasks ensures Wound(n, n.tasks[i]) {
      assert QuietTask(s.tasks[i], n.tasks[i]) && Wound(s, s.tasks[i]);
    }
  }

  /** Revocation fails every reservation, ends queued work and asks every lease holder to stop. */
  lemma RevokeAuthorized(s: Db, n: Db, id: nat, now: Time)
    requires Rows(s) && Authorized(s) && id in s.auths && id in n.auths
    requires n.auths == s.auths[id := n.auths[id]]
    requires n.jobs == RevokedJobs(s.jobs, id, now)
    requires n.tasks == RevokedTasks(s.tasks, id, now)
    ensures Authorized(n)
  {
    forall i | i in n.jobs ensures CarriesCurrent(n, n.jobs[i]) {
      assert CarriesCurrent(s, s.jobs[i]);
    }
    forall i | i in n.tasks ensures Wound(n, n.tasks[i]) {
      assert TaskOk(s.tasks[i]) && Wound(s, s.tasks[i]);
    }
  }

  lemma RevokeIsQuiet(s: Db, n: Db, id: nat, now: Time)
    requires Rows(s) && id in s.auths && id in n.auths && AuthOk(n.auths[id])
    requires n == s.(auths := s.auths[id := n.auths[id]], keys := n.keys, suppliers := n.suppliers,
                     jobs := RevokedJobs(s.jobs, id, now),
                     tasks := RevokedTasks(s.tasks, id, now))
    ensures Quiet(s, n)
  {
    forall i | i in s.jobs ensures QuietJob(s.jobs[i], n.jobs[i]) {
      FailJobRowQuiet(s.jobs[i], now);
    }
    forall i | i in s.tasks ensures QuietTask(s.tasks[i], n.tasks[i]) {
      assert TaskOk(s.tasks[i]);
      RevokeRowQuiet(s.tasks[i], id, now);
    }
  }

  lemma RevokeRowQuiet(t: Task, id: nat, now: Time)
    requires TaskOk(t)
    ensures QuietTask(t, RevokeTaskRow(t, id, now))
  {
  }

  /** Rotation fails the reservations of the displaced generation and keeps no other. */
  lemma RotateAuthorized(s: Db, n: Db, id: nat, revision: nat, now: Time)
    requires Authorized(s) && id in s.auths && s.auths[id].status == Approved && s.auths[id].revision == revision
    requires id in n.auths && n.auths == s.auths[id := n.auths[id]] && n.auths[id].status == Approved && n.tasks == s.tasks
    requires n.jobs == RotatedJobs(s.jobs, id, revision, now)
    ensures Authorized(n)
  {
    forall i | i in n.jobs ensures CarriesCurrent(n, n.jobs[i]) {
      assert CarriesCurrent(s, s.jobs[i]);
    }
    forall i | i in n.tasks ensures Wound(n, n.tasks[i]) {
      assert Wound(s, s.tasks[i]);
    }
  }

  lemma RotateIsQuiet(s: Db, n: Db, id: nat, revision: nat, now: Time)
    requires Rows(s) && id in s.auths && id in n.auths && AuthOk(n.auths[id])
    requires n == s.(auths := s.auths[id := n.auths[id]], keys := n.keys,
                     jobs := RotatedJobs(s.jobs, id, revision, now))
    ensures Quiet(s, n)
  {
    forall i | i in s.jobs ensures QuietJob(s.jobs[i], n.jobs[i]) {
      FailJobRowQuiet(s.jobs[i], now);
    }
    assert forall i :: i in s.tasks ==> QuietTask(s.tasks[i], n.tasks[i]);
  }

  // --------------------------------------------------------- lifecycle claims

  /** Leaving a revision writes that revision's claim and no other. */
  lemma ClaimMoves(s: Db, n: Db, id: nat, tenant: Tenant, op: Operation, command: nat, b: Resource, token: nat)
    requires Claims(s) && id in s.auths && op != LifecycleTarget && 1 <= s.auths[id].revision
    requires n.keys == ClaimTarget(s, id, tenant, s.auths[id].revision, op, command, b, token)
    requires id in n.auths && n.auths == s.auths[id := n.auths[id]] && n.auths[id].revision == s.auths[id].revision + 1
    ensures Claims(n)
  {
    forall a: nat, r: nat ensures TargetKey(a, r) in n.keys <==> (a in n.auths && 1 <= r < n.auths[a].revision) {
      assert TargetKey(a, r) in n.keys <==> (TargetKey(a, r) in s.keys || (a == id && r == s.auths[id].revision));
    }
  }

  /** Everything else writes no lifecycle key and moves no revision. */
  lemma ClaimsStay(s: Db, n: Db)
    requires Claims(s)
    requires SameLifecycleKeys(s, n)
    requires forall a :: a in s.auths ==> a in n.auths && n.auths[a].revision == s.auths[a].revision
    requires forall a :: a in n.auths && a !in s.auths ==> n.auths[a].revision == 1
    ensures Claims(n)
  {
    forall a: nat, r: nat ensures TargetKey(a, r) in n.keys <==> (a in n.auths && 1 <= r < n.auths[a].revision) {
      assert TargetKey(a, r).operation == LifecycleTarget;
    }
  }

  // ------------------------------------------------------ authorization steps

  lemma OneAuthKeeps(s: Db, n: Db, id: nat, row: Auth)
    requires Inv(s) && n == s.(auths := s.auths[id := row], keys := n.keys, suppliers := n.suppliers) && AuthOk(row)
    requires Authorized(n) && Claims(n)
    ensures Inv(n)
  {
    OneAuthIsQuiet(s, n, id, row);
    QuietKeeps(s, n);
  }

  lemma DecideKeeps(s: Db, n: Db, id: nat, row: Auth)
    requires Inv(s) && n == s.(auths := s.auths[id := row], keys := n.keys, suppliers := n.suppliers) && AuthOk(row)
    requires id in s.auths ==> s.auths[id].status == Pending && row.revision == s.auths[id].revision
    requires id !in s.auths ==> row.revision == 1
    requires row.status != Revoked
    requires SameLifecycleKeys(s, n)
    ensures Inv(n)
  {
    DecidingAuthorized(s, n, id, row);
    ClaimsStay(s, n);
    OneAuthKeeps(s, n, id, row);
  }

  lemma KeysKeep(s: Db, n: Db)
    requires Inv(s) && n == s.(keys := n.keys, suppliers := n.suppliers)
    requires SameLifecycleKeys(s, n)
    ensures Inv(n)
  {
    StandsStill(s, n);
    FrameAuthorized(s, n);
    ClaimsStay(s, n);
    QuietKeeps(s, n);
  }

  lemma SubmitKeeps(s: Db, id: nat, t: Tenant, provider: nat, until: Time, sealed: Sealed, l: Lookup, now: Time)
    requires Inv(s)
    ensures Inv(SubmitAuth(s, id, t, provider, until, sealed, l, now))
  {
    var n := SubmitAuth(s, id, t, provider, until, sealed, l, now);
    if n != s { DecideKeeps(s, n, id, n.auths[id]); }
  }

  lemma RejectKeeps(s: Db, id: nat, t: Tenant, command: nat, token: nat)
    requires Inv(s)
    ensures Inv(RejectAuth(s, id, t, command, token))
  {
    var n := RejectAuth(s, id, t, command, token);
    if n != s {
      assert AuthOk(s.auths[id]);
      DecideKeeps(s, n, id, n.auths[id]);
    }
  }

  ghost predicate SameLifecycleKeys(s: Db, n: Db) {
    forall k: KeyScope :: k.operation == LifecycleTarget ==> (k in n.keys <==> k in s.keys)
  }

  lemma ApproveKeys(s: Db, n: Db, id: nat, t: Tenant, command: nat, b: Resource, token: nat)
    requires n.keys == ClaimReview(s, id, t, command, b, token).keys
    ensures SameLifecycleKeys(s, n)
  {
  }

  lemma ApproveKeeps(s: Db, n: Db, id: nat, row: Auth)
    requires Inv(s) && id in s.auths && s.auths[id].status == Pending && SameLifecycleKeys(s, n)
    requires row.status == Approved && row.revision == s.auths[id].revision
    requires n == s.(auths := s.auths[id := row], keys := n.keys, suppliers := n.suppliers)
    ensures Inv(n)
  {
    assert AuthOk(s.auths[id]);
    DecideKeeps(s, n, id, row);
  }

  lemma WithdrawKeeps(s: Db, id: nat, t: Tenant, rev: nat, v: nat, command: nat, reason: string, token: nat)
    requires Inv(s)
    ensures Inv(WithdrawAuth(s, id, t, rev, v, command, reason, token))
  {
    var n := WithdrawAuth(s, id, t, rev, v, command, reason, token);
    if n != s {
      assert AuthOk(s.auths[id]);
      DecidingAuthorized(s, n, id, n.auths[id]);
      ClaimMoves(s, n, id, t, Withdraw, command, Binding(id, reason), token);
      OneAuthKeeps(s, n, id, n.auths[id]);
    }
  }

  lemma RevokeShape(s: Db, n: Db, id: nat, t: Tenant, rev: nat, v: nat, command: nat, reason: string, token: nat, now: Time)
    requires n == RevokeAuth(s, id, t, rev, v, command, reason, token, now) && n != s
    ensures id in s.auths && s.auths[id].status == Approved && s.auths[id].revision == rev
    ensures n == s.(auths := s.auths[id := Cleared(s.auths[id]).(status := Revoked, revision := rev + 1)],
                    keys := ClaimTarget(s, id, t, rev, Revoke, command, Binding(id, reason), token), suppliers := n.suppliers,
                    jobs := RevokedJobs(s.jobs, id, now),
                    tasks := RevokedTasks(s.tasks, id, now))
  {
  }

  lemma RevokedRow(a: Auth)
    requires AuthOk(a)
    ensures AuthOk(Cleared(a).(status := Revoked, revision := a.revision + 1))
  {
  }

  lemma RevokeKeeps(s: Db, n: Db, id: nat, row: Auth, now: Time)
    requires Inv(s) && id in s.auths && AuthOk(row) && Claims(n)
    requires n == s.(auths := s.auths[id := row], keys := n.keys, suppliers := n.suppliers,
                     jobs := RevokedJobs(s.jobs, id, now),
                     tasks := RevokedTasks(s.tasks, id, now))
    ensures Inv(n)
  {
    RevokeIsQuiet(s, n, id, now);
    RevokeAuthorized(s, n, id, now);
    QuietKeeps(s, n);
  }

  lemma RotateKeeps(s: Db, n: Db, id: nat, t: Tenant, rev: nat, v: nat, command: nat, reason: string, token: nat,
                    prior: Sealed, sealed: Sealed, l: Lookup, ls: set<Lookup>, legacy: string, now: Time)
    requires Inv(s) && n == RotateAuth(s, id, t, rev, v, command, reason, token, prior, sealed, l, ls, legacy, now)
    ensures Inv(n)
  {
    if n != s {
      assert AuthOk(s.auths[id]);
      RotateIsQuiet(s, n, id, rev, now);
      RotateAuthorized(s, n, id, rev, now);
      ClaimMoves(s, n, id, t, Rotate, command, Binding(id, reason + ":" + legacy), token);
      QuietKeeps(s, n);
    }
  }

  lemma SweptAuthsKeep(s: Db, n: Db)
    requires Inv(s) && n == s.(auths := n.auths, jobs := n.jobs) && n.auths.Keys == s.auths.Keys && n.jobs.Keys == s.jobs.Keys
    requires forall i :: i in s.jobs ==> QuietJob(s.jobs[i], n.jobs[i])
    requires forall i :: i in n.auths ==> AuthOk(n.auths[i])
    requires forall i :: i in s.auths ==> SweptAuth(s.auths[i], n.auths[i])
    ensures Inv(n)
  {
    AuthsAreQuiet(s, n);
    SweepAuthorized(s, n);
    ClaimsStay(s, n);
    QuietKeeps(s, n);
  }

  /** A rewrap replaces ciphertext only where ciphertext was, so a cleared row stays cleared. */
  lemma RewrapRow(a: Auth, prior: Sealed, sealed: Sealed)
    requires AuthOk(a) && a.sealed == prior && prior.token != ""
    ensures AuthOk(a.(sealed := sealed)) && SweptAuth(a, a.(sealed := sealed))
  {
  }

  lemma OneSweptAuthKeeps(s: Db, n: Db, id: nat, row: Auth)
    requires Inv(s) && id in s.auths && AuthOk(row) && SweptAuth(s.auths[id], row) && n == s.(auths := s.auths[id := row])
    ensures Inv(n)
  {
    OneAuthIsQuiet(s, n, id, row);
    SweepAuthorized(s, n);
    ClaimsStay(s, n);
    QuietKeeps(s, n);
  }

  lemma MigrateRows(s: Db, n: Db, ls: set<Lookup>, legacy: string, l: Lookup)
    requires Rows(s) && n == MigrateLookups(s, ls, legacy, l)
    ensures n == s.(auths := n.auths) && n.auths.Keys == s.auths.Keys
    ensures forall i :: i in n.auths ==> AuthOk(n.auths[i])
    ensures forall i :: i in s.auths ==> SweptAuth(s.auths[i], n.auths[i])
  {
    forall i | i in n.auths ensures AuthOk(n.auths[i]) && SweptAuth(s.auths[i], n.auths[i]) {
      assert AuthOk(s.auths[i]);
    }
  }

  lemma MaintainRows(s: Db, n: Db, now: Time)
    requires Rows(s) && n == Maintain(s, now)
    ensures n == s.(auths := n.auths, jobs := n.jobs) && n.auths.Keys == s.auths.Keys && n.jobs.Keys == s.jobs.Keys
    ensures forall i :: i in s.jobs ==> QuietJob(s.jobs[i], n.jobs[i])
    ensures forall i :: i in n.auths ==> AuthOk(n.auths[i])
    ensures forall i :: i in s.auths ==> SweptAuth(s.auths[i], n.auths[i])
  {
    forall i | i in s.jobs ensures QuietJob(s.jobs[i], n.jobs[i]) {
      FailJobRowQuiet(s.jobs[i], now);
    }
    forall i | i in n.auths ensures AuthOk(n.auths[i]) && SweptAuth(s.auths[i], n.auths[i]) {
      assert AuthOk(s.auths[i]);
    }
  }

  // ------------------------------------------------- reads, offers, artifacts

  lemma ReadLeaseLeases(s: Db, n: Db, r: LeaseRead)
    requires Leases(s) && r.task in s.tasks && r.row == s.tasks[r.task] && r.row.lease == Some(r.digest) && r.row.deadline.Some?
    requires n.tasks == s.tasks && n.grants == s.grants && n.selected == s.selected + {r}
    ensures Leases(n)
  {
    SameGrants(s, n);
    assert LeaseOk(s, r.task);
    forall d | d in n.grants ensures GrantOk(n, d) { assert GrantOk(s, d); }
    forall i | i in n.tasks ensures LeaseOk(n, i) { assert LeaseOk(s, i); }
    forall q | q in n.selected ensures ReadOk(n, q) {
      if q in s.selected { assert ReadOk(s, q); }
    }
  }

  lemma ReadLeaseKeeps(s: Db, id: nat, t: Tenant, digest: nat, now: Time)
    requires Inv(s)
    ensures Inv(ReadLease(s, id, t, digest, now))
  {
    if id in s.tasks && HoldsLease(s.tasks[id], t, digest, now) {
      var n := ReadLease(s, id, t, digest, now);
      ReadLeaseLeases(s, n, LeaseRead(id, digest, s.tasks[id]));
      FrameRows(s, n);
      FrameSettled(s, n);
      FrameMoney(s, n);
      FrameCapacity(s, n);
      FrameAuthorized(s, n);
      FrameClaims(s, n);
    }
  }

  /** A new offer starts with no load: every existing row refers to an existing offer. */
  lemma NewOfferUnloaded(s: Db, id: nat)
    requires Rows(s) && id !in s.offers
    ensures OfferLoad(s, id) == 0
  {
    forall i | i in s.jobs ensures s.jobs[i].offer != id { assert JobRefs(s, s.jobs[i]); }
    forall i | i in s.tasks ensures s.tasks[i].offer != id { assert TaskRefs(s, s.tasks[i]); }
    assert OfferJobColumn(s, id) == map[] && OfferTaskColumn(s, id) == map[];
  }

  lemma NewOfferCapacity(s: Db, n: Db, id: nat, o: Offer)
    requires Capacity(s) && OfferLoad(s, id) == 0
    requires n.jobs == s.jobs && n.tasks == s.tasks && n.offers == s.offers[id := o]
    ensures Capacity(n)
  {
    SameWork(s, n);
    forall q | q in n.offers ensures OfferLoad(n, q) <= n.offers[q].concurrency {
      if q != id { assert OfferLoad(s, q) <= s.offers[q].concurrency; }
    }
    forall t ensures ActiveTasks(n, t) <= MAXIMUM_ACTIVE_TASKS { assert ActiveTasks(s, t) <= MAXIMUM_ACTIVE_TASKS; }
  }

  lemma NewOfferRows(s: Db, n: Db, id: nat, o: Offer)
    requires Rows(s) && id !in s.offers && n.jobs == s.jobs && n.tasks == s.tasks
    requires n.auths == s.auths && n.artifacts == s.artifacts && n.offers == s.offers[id := o]
    ensures Rows(n)
  {
    forall i | i in n.jobs ensures JobRefs(n, n.jobs[i]) { assert JobRefs(s, s.jobs[i]); }
    forall i | i in n.tasks ensures TaskRefs(n, n.tasks[i]) { assert TaskRefs(s, s.tasks[i]); }
  }

  lemma NewOfferKeeps(s: Db, n: Db, id: nat, o: Offer)
    requires Inv(s) && id !in s.offers && n == s.(offers := s.offers[id := o])
    ensures Inv(n)
  {
    NewOfferRows(s, n, id, o);
    NewOfferUnloaded(s, id);
    NewOfferCapacity(s, n, id, o);
    FrameSettled(s, n);
    FrameMoney(s, n);
    FrameAuthorized(s, n);
    FrameClaims(s, n);
    FrameLeases(s, n);
  }

  lemma PutArtifactRows(s: Db, n: Db, id: nat, a: Artifact)
    requires Rows(s) && n.jobs == s.jobs && n.tasks == s.tasks && n.auths == s.auths && n.offers == s.offers
    requires n.artifacts == s.artifacts[id := a] && (id in s.artifacts ==> a.size == s.artifacts[id].size)
    ensures Rows(n)
  {
    forall i | i in n.jobs ensures JobRefs(n, n.jobs[i]) { assert JobRefs(s, s.jobs[i]); }
    forall i | i in n.tasks ensures TaskRefs(n, n.tasks[i]) { assert TaskRefs(s, s.tasks[i]); }
  }

  lemma PutArtifactKeeps(s: Db, n: Db, id: nat, a: Artifact)
    requires Inv(s) && (id in s.artifacts ==> a.size == s.artifacts[id].size) && n == s.(artifacts := s.artifacts[id := a])
    ensures Inv(n)
  {
    PutArtifactRows(s, n, id, a);
    FrameSettled(s, n);
    FrameMoney(s, n);
    FrameCapacity(s, n);
    FrameAuthorized(s, n);
    FrameClaims(s, n);
    FrameLeases(s, n);
  }
}
