/**
 What each operation on suppliers, authorizations and offers does for the one who
 calls it, and when: rows column by column, in plain terms.
 */
module MarketCredentials {
  import opened Totals
  import opened MarketTables
  import opened MarketSteps
  import opened MarketInvariants
  import opened MarketRuns
  import opened MarketEveryRun
  import opened MarketStore
  import opened MarketJobs
  import opened MarketEndings

  /** What was agreed when the authorization was submitted. */
  predicate SameTerms(a: Auth, b: Auth) {
    b.tenant == a.tenant && b.provider == a.provider && b.validUntil == a.validUntil && b.created == a.created
  }
  predicate SameCredential(a: Auth, b: Auth) {
    b.sealed == a.sealed && b.digestVersion == a.digestVersion && b.lookupKey == a.lookupKey && b.digest == a.digest
  }

  /** No credential can be read from it or looked up by it. */
  predicate Blank(a: Auth) { a.sealed.token == "" && a.sealed.iv == "" && a.digest.None? }

  /** Authorization i lets this tenant supply at this instant. */
  predicate Serves(auths: map<nat, Auth>, i: nat, t: Tenant, now: Time) {
    && i in auths && auths[i].tenant == t && auths[i].status == Approved && now < auths[i].validUntil
    && auths[i].sealed.token != "" && auths[i].sealed.iv != "" && auths[i].digest.Some?
  }

  /** A valid approved authorization whose stored digest a token's lookups find. */
  predicate Answers(a: Auth, lookups: set<Lookup>, legacy: string) {
    a.digest.Some? && (Lookup(a.digestVersion, a.lookupKey, a.digest.value) in lookups || (a.digestVersion == 1 && a.digest == Some(legacy)))
  }

  predicate OneAuth(s: Db, n: Db, id: nat) {
    id in s.auths && id in n.auths && n.auths == s.auths[id := n.auths[id]] && SameTerms(s.auths[id], n.auths[id])
  }

  /** The operation token took the target, and the command stands for its payload. */
  predicate Took(s: Db, n: Db, target: KeyScope, token: nat, command: KeyScope, payload: Resource) {
    && target !in s.keys && (command in s.keys ==> s.keys[command] == payload)
    && n.keys == s.keys[target := Token(token)][command := payload]
  }

  // ------------------------------------------------------- suppliers, offers

  /** Registering creates an inactive supplier once. */
  lemma RegistersOnce(s: Db, n: Db, t: Tenant)
    requires n == Register(s, t)
    ensures n == s.(suppliers := if t in s.suppliers then s.suppliers else s.suppliers[t := Supplier(false, false, 1)])
    ensures t in n.suppliers && Register(n, t) == n
  {
  }

  /** Supply can always be switched off, and on exactly by an active supplier that still has an authorization that serves. */
  lemma SupplySwitches(s: Db, n: Db, t: Tenant, enabled: bool, now: Time)
    requires n == SetSupply(s, t, enabled, now)
    ensures if t in s.suppliers && (enabled ==> s.suppliers[t].active && exists i :: Serves(s.auths, i, t, now))
            then n == s.(suppliers := s.suppliers[t := Supplier(s.suppliers[t].active, enabled, s.suppliers[t].version)]) else n == s
  {
    UsableMeansServing(s.auths, t, now);
  }

  lemma UsableMeansServing(auths: map<nat, Auth>, t: Tenant, now: Time)
    ensures HasUsableCredential(auths, t, now) <==> exists i :: Serves(auths, i, t, now)
  {
    if HasUsableCredential(auths, t, now) {
      var i :| i in auths && auths[i].tenant == t && auths[i].status == Approved && now < auths[i].validUntil
               && auths[i].sealed.token != "" && auths[i].sealed.iv != "" && auths[i].digest.Some?;
      assert Serves(auths, i, t, now);
    }
    if i :| Serves(auths, i, t, now) { assert auths[i].tenant == t; }
  }

  /** An offer is listed, as it was given, exactly under its tenant's serving authorization at the revision and version that were read. */
  lemma OffersAreListed(s: Db, n: Db, id: nat, o: Offer, revision: nat, version: nat, now: Time)
    requires n == CreateOffer(s, id, o, revision, version, now)
    ensures if && id !in s.offers && 1 <= o.price && Serves(s.auths, o.auth, o.tenant, now)
               && s.auths[o.auth].provider == o.provider && s.auths[o.auth].revision == revision && o.validUntil <= s.auths[o.auth].validUntil
               && o.tenant in s.suppliers && s.suppliers[o.tenant].version == version && s.suppliers[o.tenant].active
            then n == s.(offers := s.offers[id := o]) else n == s
  {
  }

  // ------------------------------------------------------ submission, review

  /** A submission is stored as given, pending, at its first revision. */
  lemma SubmissionsArePending(s: Db, n: Db, id: nat, t: Tenant, provider: nat, validUntil: Time, sealed: Sealed, l: Lookup, now: Time)
    requires n == SubmitAuth(s, id, t, provider, validUntil, sealed, l, now)
    ensures if id !in s.auths && t in s.suppliers
            then n == s.(auths := s.auths[id := n.auths[id]]) && id in n.auths
                 && var a := n.auths[id];
                 && a.tenant == t && a.provider == provider && a.validUntil == validUntil && a.created == now
                 && a.status == Pending && a.revision == 1 && a.review.None?
                 && a.sealed == sealed && a.digestVersion == l.version && a.lookupKey == l.keyId && a.digest == Some(l.digest)
            else n == s
  {
  }

  /** Someone else's pending, undecided request, with an untaken target and a command that is free or already stands for this decision. */
  predicate Reviewable(s: Db, id: nat, reviewer: Tenant, command: nat, decision: string) {
    var k := KeyScope(reviewer, Review, Command(command));
    && id in s.auths && s.auths[id].tenant != reviewer && s.auths[id].status == Pending && s.auths[id].review.None?
    && KeyScope(Platform, ReviewTarget, Subject(id)) !in s.keys && (k in s.keys ==> s.keys[k] == Binding(id, decision))
  }
  predicate Decided(s: Db, n: Db, id: nat, reviewer: Tenant, command: nat, decision: string, token: nat) {
    Took(s, n, KeyScope(Platform, ReviewTarget, Subject(id)), token, KeyScope(reviewer, Review, Command(command)), Binding(id, decision))
  }

  /** A rejection takes effect exactly on what can be reviewed, and leaves no credential behind. */
  lemma RejectionsClear(s: Db, n: Db, id: nat, reviewer: Tenant, command: nat, token: nat)
    requires n == RejectAuth(s, id, reviewer, command, token)
    ensures if Reviewable(s, id, reviewer, command, "reject")
            then OneAuth(s, n, id) && Decided(s, n, id, reviewer, command, "reject", token) && n == s.(auths := n.auths, keys := n.keys)
                 && n.auths[id].status == Rejected && n.auths[id].review == Some(command) && Blank(n.auths[id])
                 && n.auths[id].revision == s.auths[id].revision
            else n == s
  {
  }

  /** An approval under the version that was read keeps the submitted credential and activates the supplier at its next version. */
  lemma ApprovalsActivate(s: Db, n: Db, id: nat, reviewer: Tenant, command: nat, token: nat,
                          lookups: set<Lookup>, legacy: string, version: nat, next: nat, now: Time)
    requires n == ApproveAuth(s, id, reviewer, command, token, lookups, legacy, version, next, now)
    requires id in s.auths && s.auths[id].tenant in s.suppliers && s.suppliers[s.auths[id].tenant].version == version
    ensures var t := s.auths[id].tenant;
            if Reviewable(s, id, reviewer, command, "approve") && |Answering(s.auths, lookups, legacy, now)| < 100
            then OneAuth(s, n, id) && Decided(s, n, id, reviewer, command, "approve", token)
                 && n == s.(auths := n.auths, keys := n.keys, suppliers := s.suppliers[t := Supplier(true, s.suppliers[t].enabled, next)])
                 && n.auths[id].status == Approved && n.auths[id].review == Some(command) && SameCredential(s.auths[id], n.auths[id])
                 && n.auths[id].revision == s.auths[id].revision
            else n == s
  {
    MatchingMeansAnswering(s.auths, lookups, legacy, now);
  }

  /** The valid approved authorizations that a token finds. */
  function Answering(auths: map<nat, Auth>, lookups: set<Lookup>, legacy: string, now: Time): set<nat> {
    set i | i in auths && auths[i].status == Approved && now < auths[i].validUntil && Answers(auths[i], lookups, legacy)
  }

  lemma MatchingMeansAnswering(auths: map<nat, Auth>, lookups: set<Lookup>, legacy: string, now: Time)
    ensures Matching(auths, lookups, legacy, now) == Answering(auths, lookups, legacy, now)
  {
  }

  // -------------------------------------------------------------- lifecycles

  /** The status and revision that were read, under the version that was read, with an untaken target. */
  predicate Claimable(s: Db, id: nat, t: Tenant, status: AuthStatus, revision: nat, version: nat, op: Operation, command: nat, payload: Resource) {
    var k := KeyScope(t, op, Command(command));
    && id in s.auths && s.auths[id].tenant == t && s.auths[id].status == status && s.auths[id].revision == revision
    && t in s.suppliers && s.suppliers[t].version == version
    && KeyScope(Platform, LifecycleTarget, RevisionOf(id, revision)) !in s.keys && (k in s.keys ==> s.keys[k] == payload)
  }
  predicate Moved(s: Db, n: Db, id: nat, t: Tenant, status: AuthStatus, op: Operation, command: nat, payload: Resource, token: nat) {
    && OneAuth(s, n, id) && n.auths[id].status == status && n.auths[id].revision == s.auths[id].revision + 1
    && n.auths[id].review == s.auths[id].review
    && Took(s, n, KeyScope(Platform, LifecycleTarget, RevisionOf(id, s.auths[id].revision)), token, KeyScope(t, op, Command(command)), payload)
  }

  /** A withdrawal takes back exactly the pending request it names. */
  lemma WithdrawalsClear(s: Db, n: Db, id: nat, t: Tenant, revision: nat, version: nat, command: nat, reason: string, token: nat)
    requires n == WithdrawAuth(s, id, t, revision, version, command, reason, token)
    ensures if Claimable(s, id, t, Pending, revision, version, Withdraw, command, Binding(id, reason))
            then Moved(s, n, id, t, Withdrawn, Withdraw, command, Binding(id, reason), token) && Blank(n.auths[id]) && n == s.(auths := n.auths, keys := n.keys)
            else n == s
  {
  }

  /** Reserved jobs of the authorization that `hit` selects fail now; every other job stays as it is. */
  ghost predicate FailsReserved(a: map<nat, Job>, b: map<nat, Job>, id: nat, revision: Option<nat>, now: Time) {
    && b.Keys == a.Keys
    && forall i :: i in a ==>
         b[i] == if a[i].auth == id && a[i].status == JobReserved && (revision.Some? ==> a[i].revision == revision.value)
                 then a[i].(status := JobFailed, expires := None, completedAt := Some(now)) else a[i]
  }

  /** Waiting tasks of the authorization fail, held ones are asked to stop, and every other task stays as it is. */
  ghost predicate WindsTasksDown(a: map<nat, Task>, b: map<nat, Task>, id: nat, now: Time) {
    && b.Keys == a.Keys
    && forall i :: i in a ==>
         if a[i].auth == id && a[i].status == Queued && a[i].cancelAt.None? then Ends(a[i], b[i], Failed, None, now)
         else if a[i].auth == id && Leased(a[i]) && a[i].cancelAt.None? then b[i] == a[i].(cancelAt := Some(now))
         else b[i] == a[i]
  }

  /**
   A revocation takes effect exactly on the valid approved revision it names. It
   leaves no credential, fails what is reserved and waiting under it, asks held
   work to stop, and keeps the supplier enabled exactly if it was and another
   authorization of it still serves.
   */
  lemma RevocationsClear(s: Db, n: Db, id: nat, t: Tenant, revision: nat, version: nat, command: nat, reason: string, token: nat, now: Time)
    requires n == RevokeAuth(s, id, t, revision, version, command, reason, token, now)
    ensures if Claimable(s, id, t, Approved, revision, version, Revoke, command, Binding(id, reason)) && now < s.auths[id].validUntil
            then && Moved(s, n, id, t, Revoked, Revoke, command, Binding(id, reason), token) && Blank(n.auths[id])
                 && FailsReserved(s.jobs, n.jobs, id, None, now) && WindsTasksDown(s.tasks, n.tasks, id, now)
                 && t in n.suppliers && n.suppliers == s.suppliers[t := n.suppliers[t]]
                 && n.suppliers[t].active == s.suppliers[t].active && n.suppliers[t].version == version + 1
                 && (n.suppliers[t].enabled <==> s.suppliers[t].enabled && exists i :: i != id && Serves(s.auths, i, t, now))
                 && n == s.(auths := n.auths, keys := n.keys, jobs := n.jobs, tasks := n.tasks, suppliers := n.suppliers)
            else n == s
  {
    if CanClaimTarget(s, id, t, Approved, revision, version, Revoke, command, Binding(id, reason)) && now < s.auths[id].validUntil {
      UsableMeansServing(n.auths, t, now);
      assert forall i :: Serves(n.auths, i, t, now) <==> i != id && Serves(s.auths, i, t, now);
      CascadeFails(s.tasks, n.tasks, id, now);
    }
  }

  lemma CascadeFails(a: map<nat, Task>, b: map<nat, Task>, id: nat, now: Time)
    requires b == RevokedTasks(a, id, now)
    ensures WindsTasksDown(a, b, id, now)
  {
  }

  /** The valid approved revision that was read, with its ciphertext, when nobody else's authorization answers to the new token. */
  predicate Rotatable(s: Db, id: nat, t: Tenant, revision: nat, version: nat, command: nat, payload: Resource,
                      prior: Sealed, lookups: set<Lookup>, legacy: string, now: Time)
  {
    var others := Answering(s.auths, lookups, legacy, now) - {id};
    && Claimable(s, id, t, Approved, revision, version, Rotate, command, payload)
    && now < s.auths[id].validUntil && s.auths[id].sealed == prior && prior.token != ""
    && (forall i :: i in others ==> s.auths[i].tenant == t) && |others| < 100
  }

  lemma RotatesWhatIsRotatable(s: Db, id: nat, t: Tenant, revision: nat, version: nat, command: nat, payload: Resource,
                               prior: Sealed, lookups: set<Lookup>, legacy: string, now: Time)
    ensures CanRotate(s, id, t, revision, version, command, payload, prior, lookups, legacy, now)
            <==> Rotatable(s, id, t, revision, version, command, payload, prior, lookups, legacy, now)
  {
    MatchingMeansAnswering(s.auths, lookups, legacy, now);
  }

  lemma RotatedJobsFail(a: map<nat, Job>, b: map<nat, Job>, id: nat, revision: nat, now: Time)
    requires b == RotatedJobs(a, id, revision, now)
    ensures FailsReserved(a, b, id, Some(revision), now)
  {
  }

  lemma TargetTaken(s: Db, n: Db, id: nat, t: Tenant, revision: nat, op: Operation, command: nat, payload: Resource, token: nat)
    requires KeyScope(Platform, LifecycleTarget, RevisionOf(id, revision)) !in s.keys && op != LifecycleTarget
    requires CommandFree(s, KeyScope(t, op, Command(command)), payload)
    requires n.keys == ClaimTarget(s, id, t, revision, op, command, payload, token)
    ensures Took(s, n, KeyScope(Platform, LifecycleTarget, RevisionOf(id, revision)), token, KeyScope(t, op, Command(command)), payload)
  {
  }

  /**
   A rotation takes effect exactly on what is rotatable. It installs the given
   ciphertext and lookup, and fails the reservations that carry the displaced revision.
   */
  lemma RotationsInstall(s: Db, n: Db, id: nat, t: Tenant, revision: nat, version: nat, command: nat, reason: string, token: nat,
                         prior: Sealed, sealed: Sealed, active: Lookup, lookups: set<Lookup>, legacy: string, now: Time)
    requires n == RotateAuth(s, id, t, revision, version, command, reason, token, prior, sealed, active, lookups, legacy, now)
    ensures var payload := Binding(id, reason + ":" + legacy);
            if Rotatable(s, id, t, revision, version, command, payload, prior, lookups, legacy, now)
            then && Moved(s, n, id, t, Approved, Rotate, command, payload, token) && n.auths[id].sealed == sealed
                 && n.auths[id].digestVersion == active.version && n.auths[id].lookupKey == active.keyId && n.auths[id].digest == Some(active.digest)
                 && FailsReserved(s.jobs, n.jobs, id, Some(revision), now)
                 && n == s.(auths := n.auths, keys := n.keys, jobs := n.jobs)
            else n == s
  {
    var payload := Binding(id, reason + ":" + legacy);
    RotatesWhatIsRotatable(s, id, t, revision, version, command, payload, prior, lookups, legacy, now);
    if CanRotate(s, id, t, revision, version, command, payload, prior, lookups, legacy, now) {
      TargetTaken(s, n, id, t, revision, Rotate, command, payload, token);
      RotatedJobsFail(s.jobs, n.jobs, id, revision, now);
    }
  }

  /** After a rotation the new token finds the authorization, and an old one no longer does. */
  lemma RotationMovesTheToken(s: Db, n: Db, id: nat, t: Tenant, revision: nat, version: nat, command: nat, reason: string, token: nat,
                              prior: Sealed, sealed: Sealed, active: Lookup, lookups: set<Lookup>, legacy: string, now: Time,
                              stale: set<Lookup>, staleLegacy: string)
    requires n == RotateAuth(s, id, t, revision, version, command, reason, token, prior, sealed, active, lookups, legacy, now) && n != s
    ensures id in Answering(n.auths, {active}, legacy, now)
    ensures active !in stale && active.digest != staleLegacy ==> id !in Answering(n.auths, stale, staleLegacy, now)
  {
    RotationsInstall(s, n, id, t, revision, version, command, reason, token, prior, sealed, active, lookups, legacy, now);
  }

  // ------------------------------------------------------ rewraps, migrations

  /** The compare-and-swaps of one batch name different rows. */
  predicate Distinct(rows: seq<(nat, Sealed, Sealed)>) { forall j, k :: 0 <= j < k < |rows| ==> rows[j].0 != rows[k].0 }

  /** What becomes of one row: the new ciphertext exactly over the one that was read. */
  predicate Swapped(a: Auth, b: Auth, prior: Sealed, sealed: Sealed) {
    if prior.token != "" && a.sealed == prior then b == a.(sealed := sealed) else b == a
  }

  lemma RewrapSwaps(s: Db, n: Db, id: nat, prior: Sealed, sealed: Sealed)
    requires n == Rewrap(s, id, prior, sealed)
    ensures n == s.(auths := n.auths) && n.auths.Keys == s.auths.Keys
    ensures forall i :: i in s.auths && i != id ==> n.auths[i] == s.auths[i]
    ensures id in s.auths ==> Swapped(s.auths[id], n.auths[id], prior, sealed)
  {
    if id in s.auths && prior.token != "" && s.auths[id].sealed == prior {
      assert n.auths == s.auths[id := s.auths[id].(sealed := sealed)];
    } else {
      assert n == s;
    }
  }

  /** A batch rewraps exactly the rows that still hold the ciphertext that was read. */
  lemma {:induction false} BatchSwaps(s: Db, n: Db, rows: seq<(nat, Sealed, Sealed)>)
    requires n == Rewrapped(s, rows) && Distinct(rows)
    ensures n == s.(auths := n.auths) && n.auths.Keys == s.auths.Keys
    ensures forall i :: i in s.auths && (forall k :: 0 <= k < |rows| ==> rows[k].0 != i) ==> n.auths[i] == s.auths[i]
    ensures forall k :: 0 <= k < |rows| && rows[k].0 in s.auths ==> Swapped(s.auths[rows[k].0], n.auths[rows[k].0], rows[k].1, rows[k].2)
    decreases |rows|
  {
    if rows != [] {
      var m := Rewrap(s, rows[0].0, rows[0].1, rows[0].2);
      RewrapSwaps(s, m, rows[0].0, rows[0].1, rows[0].2);
      var rest := rows[1..];
      assert forall k :: 0 <= k < |rest| ==> rest[k] == rows[k + 1];
      BatchSwaps(m, n, rest);
      forall k | 0 <= k < |rows| && rows[k].0 in s.auths
        ensures Swapped(s.auths[rows[k].0], n.auths[rows[k].0], rows[k].1, rows[k].2)
      {
        if k > 0 { assert rest[k - 1] == rows[k]; }
      }
    }
  }

  /** A migration moves exactly the rows the token finds to the active lookup, and nothing else about them. */
  lemma MigrationsMoveLookups(s: Db, n: Db, lookups: set<Lookup>, legacy: string, active: Lookup)
    requires n == MigrateLookups(s, lookups, legacy, active)
    ensures n == s.(auths := n.auths) && n.auths.Keys == s.auths.Keys
    ensures forall i :: i in s.auths ==>
              n.auths[i] == if Answers(s.auths[i], lookups, legacy)
                            then s.auths[i].(digestVersion := active.version, lookupKey := active.keyId, digest := Some(active.digest)) else s.auths[i]
  {
  }

  /** A request still pending after seven days, or past its validity, is turned down. */
  predicate Unreviewed(a: Auth, now: Time) { a.status == Pending && (a.created + 604_800_000 <= now || a.validUntil <= now) }

  /** Maintenance turns down unreviewed requests, empties expired and ended credentials, and leaves every other row alone. */
  lemma MaintenanceClears(steps: seq<Step>, now: Time, id: nat)
    ensures var s := Run(EMPTY, steps);
            var n := Maintain(s, now);
            && n == ExpireJobs(s, now).(auths := n.auths) && n.auths.Keys == s.auths.Keys
            && (id in s.auths ==>
                  var a, b := s.auths[id], n.auths[id];
                  && SameTerms(a, b) && b.revision == a.revision && b.review == a.review
                  && b.status == (if Unreviewed(a, now) then Rejected else a.status)
                  && (if Unreviewed(a, now) || a.validUntil <= now then Blank(b) else b == a))
  {
    var s := Run(EMPTY, steps);
    EveryRunIsSafe(steps);
    if id in s.auths {
      assert AuthOk(s.auths[id]);
      MaintainedRow(s.auths[id], now);
    }
  }

  lemma MaintainedRow(a: Auth, now: Time)
    requires AuthOk(a)
    ensures var b := MaintainAuthRow(a, now);
            && SameTerms(a, b) && b.revision == a.revision && b.review == a.review
            && b.status == (if Unreviewed(a, now) then Rejected else a.status)
            && (if Unreviewed(a, now) || a.validUntil <= now then Blank(b) else b == a)
  {
  }
}
