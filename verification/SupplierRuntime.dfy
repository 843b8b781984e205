/**
 A supplier node across restarts: the nonce guard and the idempotency map forget,
 the journal compacts, processes die mid-write; still no envelope is accepted
 twice and no inference is started twice within its time to live.
 */
module SupplierRuntime {
  import opened Totals
  import opened ReplayRecords
  import opened ReplayJournal

  const WINDOW: nat := 5 * 60_000
  const MAXIMUM_NONCES: nat := 10_000
  const TTL: nat := 15 * 60_000
  const MAXIMUM_IDEMPOTENCY: nat := 1_000

  // -------------------------------------------------------------- histories

  /** Every accepted envelope was inside its window and claimed its nonce until the window closes. */
  predicate AcceptedOk(accepted: seq<Envelope>, h: seq<Claim>, now: Time) {
    forall i :: 0 <= i < |accepted| ==>
      && accepted[i].at <= now && accepted[i].at <= accepted[i].timestamp + WINDOW
      && Claimed(h, NonceRecord(Digest(accepted[i].nonce), accepted[i].timestamp + WINDOW))
  }

  /** No two acceptances carry the same timestamp and nonce. */
  predicate EnvelopesDistinct(accepted: seq<Envelope>) {
    forall i, j :: 0 <= i < j < |accepted| ==> accepted[i].timestamp != accepted[j].timestamp || accepted[i].nonce != accepted[j].nonce
  }

  /** Every started inference was claimed, with its body, for the time to live. */
  predicate ExecutedOk(executed: seq<Execution>, h: seq<Claim>, now: Time) {
    forall i :: 0 <= i < |executed| ==>
      && 0 <= executed[i].at <= now
      && Claimed(h, RequestRecord(Digest(executed[i].id), Keyed(executed[i].body), executed[i].at + TTL))
  }

  /** Two inferences of one request identifier are more than the time to live, fifteen minutes, apart. */
  predicate ExecutionsApart(executed: seq<Execution>) {
    forall i, j :: 0 <= i < j < |executed| && executed[i].id == executed[j].id ==> executed[i].at + 900_000 < executed[j].at
  }

  ghost predicate HistoryOk(disk: Disk, now: Time)
    reads disk`written, disk`accepted, disk`executed
  {
    && AcceptedOk(disk.accepted, disk.written, now) && EnvelopesDistinct(disk.accepted)
    && ExecutedOk(disk.executed, disk.written, now) && ExecutionsApart(disk.executed)
  }

  predicate Grown<T(==)>(a: seq<T>, b: seq<T>) { |a| <= |b| && b[..|a|] == a }

  lemma ClaimedStays(h: seq<Claim>, n: seq<Claim>, r: Record)
    requires Claimed(h, r) && Grown(h, n)
    ensures Claimed(n, r)
  {
    var i :| 0 <= i < |h| && h[i].record == r;
    assert n[i] == n[..|h|][i];
  }

  lemma HistoryStays(a: seq<Envelope>, x: seq<Execution>, h: seq<Claim>, n: seq<Claim>, now: Time, later: Time)
    requires AcceptedOk(a, h, now) && ExecutedOk(x, h, now) && now <= later && Grown(h, n)
    ensures AcceptedOk(a, n, later) && ExecutedOk(x, n, later)
  {
    forall i | 0 <= i < |a| ensures Claimed(n, NonceRecord(Digest(a[i].nonce), a[i].timestamp + WINDOW)) {
      ClaimedStays(h, n, NonceRecord(Digest(a[i].nonce), a[i].timestamp + WINDOW));
    }
    forall i | 0 <= i < |x| ensures Claimed(n, RequestRecord(Digest(x[i].id), Keyed(x[i].body), x[i].at + TTL)) {
      ClaimedStays(h, n, RequestRecord(Digest(x[i].id), Keyed(x[i].body), x[i].at + TTL));
    }
  }

  /** A repeated envelope would still be live: it cannot pass both the window and the journal. */
  lemma EnvelopeIsNew(accepted: seq<Envelope>, h: seq<Claim>, timestamp: nat, nonce: nat, now: Time)
    requires AcceptedOk(accepted, h, now) && now <= timestamp + WINDOW
    requires Free(h, NonceRecord(Digest(nonce), timestamp + WINDOW), now)
    ensures forall i :: 0 <= i < |accepted| ==> accepted[i].timestamp != timestamp || accepted[i].nonce != nonce
  {
    forall i | 0 <= i < |accepted| && accepted[i].nonce == nonce ensures accepted[i].timestamp != timestamp {
      assert Claimed(h, NonceRecord(Digest(nonce), accepted[i].timestamp + WINDOW));
    }
  }

  lemma AcceptingKeeps(accepted: seq<Envelope>, h: seq<Claim>, timestamp: nat, nonce: nat, now: Time)
    requires AcceptedOk(accepted, h, now) && EnvelopesDistinct(accepted) && now <= timestamp + WINDOW
    requires Free(h, NonceRecord(Digest(nonce), timestamp + WINDOW), now)
    ensures var c := Claim(NonceRecord(Digest(nonce), timestamp + WINDOW), now);
            var a := accepted + [Envelope(timestamp, nonce, now)];
            AcceptedOk(a, h + [c], now) && EnvelopesDistinct(a)
  {
    var c := Claim(NonceRecord(Digest(nonce), timestamp + WINDOW), now);
    EnvelopeIsNew(accepted, h, timestamp, nonce, now);
    HistoryStays(accepted, [], h, h + [c], now, now);
    assert (h + [c])[|h|].record == c.record;
  }

  /** A repeated identifier was claimed for its whole time to live: that time has passed. */
  lemma ExecutionIsLate(executed: seq<Execution>, h: seq<Claim>, id: nat, r: Record, now: Time)
    requires ExecutedOk(executed, h, now)
    requires Free(h, r, now) && r.RequestRecord? && r.key == Digest(id)
    ensures forall i :: 0 <= i < |executed| && executed[i].id == id ==> executed[i].at + TTL < now
  {
    forall i | 0 <= i < |executed| && executed[i].id == id ensures executed[i].at + TTL < now {
      assert Claimed(h, RequestRecord(Digest(id), Keyed(executed[i].body), executed[i].at + TTL));
    }
  }

  // ------------------------------------------------------------------ guard

  /** Every nonce remembered was claimed until the expiry that is remembered. */
  ghost predicate SeenOk(seen: map<nat, nat>, h: seq<Claim>) {
    forall n :: n in seen ==> Claimed(h, NonceRecord(Digest(n), seen[n]))
  }

  lemma SeenStays(seen: map<nat, nat>, h: seq<Claim>, n: seq<Claim>)
    requires SeenOk(seen, h) && Grown(h, n)
    ensures SeenOk(seen, n)
  {
    forall k | k in seen ensures Claimed(n, NonceRecord(Digest(k), seen[k])) { ClaimedStays(h, n, NonceRecord(Digest(k), seen[k])); }
  }

  /** What is remembered, and still live, was claimed. */
  lemma RememberedIsLive(seen: map<nat, nat>, h: seq<Claim>, nonce: nat, now: Time)
    requires SeenOk(seen, h)
    ensures nonce in LiveSeen(seen, now) ==>
              exists i :: 0 <= i < |h| && h[i].record.NonceRecord? && h[i].record.key == Digest(nonce) && h[i].record.expires >= now
  {
    if nonce in LiveSeen(seen, now) {
      var i :| 0 <= i < |h| && h[i].record == NonceRecord(Digest(nonce), seen[nonce]);
    }
  }

  lemma SeenAdds(seen: map<nat, nat>, h: seq<Claim>, nonce: nat, e: nat, now: Time)
    requires SeenOk(seen, h)
    ensures SeenOk(seen[nonce := e], h + [Claim(NonceRecord(Digest(nonce), e), now)])
  {
    var n := h + [Claim(NonceRecord(Digest(nonce), e), now)];
    SeenStays(seen, h, n);
    assert n[|h|].record == NonceRecord(Digest(nonce), e);
  }

  datatype Verdict = Passed | Expired | Seen | Full | Down

  /**
   What a verification leaves in the history: the nonce's record when it passed,
   that record or nothing when the journal broke down over it, nothing otherwise.
   */
  predicate Spent(h: seq<Claim>, n: seq<Claim>, r: Record, now: Time, v: Verdict, wasDown: bool) {
    && (v.Passed? ==> n == h + [Claim(r, now)])
    && (v.Down? && !wasDown ==> n == h || n == h + [Claim(r, now)])
    && (!v.Passed? && (!v.Down? || wasDown) ==> n == h)
  }

  function Distance(a: int, b: int): nat { if a >= b then a - b else b - a }

  /** The record that stands for an envelope, and the one that stands for a request. */
  function NonceClaim(nonce: nat, timestamp: nat): Record { NonceRecord(Digest(nonce), timestamp + WINDOW) }
  function RequestClaim(id: nat, body: nat, now: nat): Record { RequestRecord(Digest(id), Keyed(body), now + TTL) }

  function LiveSeen(seen: map<nat, nat>, now: Time): map<nat, nat> { map n | n in seen && seen[n] >= now :: seen[n] }

  class NonceGuard {
    const journal: PersistentJournal
    var seen: map<nat, nat>

    ghost predicate Valid(now: Time)
      reads this, journal, journal.disk
    {
      && journal.Valid(now) && HistoryOk(journal.disk, now)
      && SeenOk(seen, journal.disk.written)
    }

    constructor (j: PersistentJournal, ghost now: Time)
      requires j.Valid(now) && HistoryOk(j.disk, now)
      ensures journal == j && Valid(now) && seen == map[]
    {
      journal, seen := j, map[];
    }

    method Prune(now: Time)
      modifies this`seen
      ensures seen == LiveSeen(old(seen), now)
    {
      var rest := seen.Keys;
      while rest != {}
        invariant rest <= old(seen).Keys
        invariant seen == map n | n in old(seen) && (n in rest || old(seen)[n] >= now) :: old(seen)[n]
        decreases |rest|
      {
        var n :| n in rest;
        if seen[n] < now { seen := seen - {n}; }
        rest := rest - {n};
      }
    }

    /** Remembered by this process. */
    ghost predicate Remembered(nonce: nat, now: Time)
      reads this`seen
    {
      nonce in LiveSeen(seen, now)
    }

    /** No room for another nonce in memory. */
    ghost predicate Brimming(now: Time)
      reads this`seen
    {
      |LiveSeen(seen, now)| >= 10_000
    }

    /** Claims the nonce in the journal first, then remembers it. */
    method Admit(nonce: nat, timestamp: nat, now: Time, fault: Fault) returns (v: Verdict)
      requires Valid(now) && now <= timestamp + WINDOW
      modifies this`seen, journal, journal.disk
      ensures Valid(now) && (v.Passed? || v.Seen? || v.Down?)
      ensures journal.disk.accepted == old(journal.disk.accepted) + (if v.Passed? then [Envelope(timestamp, nonce, now)] else [])
      ensures journal.disk.executed == old(journal.disk.executed)
      ensures v.Seen? <==> !old(journal.failed) && old(journal.LiveNonce(nonce, now))
      ensures v.Down? <==> journal.failed
      ensures old(journal.failed) ==> journal.failed
      ensures v.Passed? ==> !old(journal.LiveNonce(nonce, now)) && journal.Tidy(now)
      ensures fault.NoFault? && !old(journal.failed) && !old(journal.LiveNonce(nonce, now)) ==>
                (v.Passed? <==> old(journal.HasRoom(NonceClaim(nonce, timestamp), now)))
      ensures Spent(old(journal.disk.written), journal.disk.written, NonceClaim(nonce, timestamp), now, v, old(journal.failed))
      ensures v.Passed? ==> LiveBytes(journal.disk.records, now)
                            == old(LiveBytes(journal.disk.records, now)) + Size(NonceClaim(nonce, timestamp))
      ensures seen == if v.Passed? then old(seen)[nonce := timestamp + WINDOW] else old(seen)
      ensures journal.disk.torn ==> old(journal.disk.torn) || fault.WriteTorn?
    {
      ghost var h, a, x := journal.disk.written, journal.disk.accepted, journal.disk.executed;
      var o := journal.ClaimNonce(nonce, timestamp + WINDOW, now, fault);
      HistoryStays(a, x, h, journal.disk.written, now, now);
      SeenStays(seen, h, journal.disk.written);
      v := if o.Replay? then Seen else if o.Accepted? then Passed else Down;
      if o.Accepted? {
        AcceptingKeeps(a, h, timestamp, nonce, now);
        SeenAdds(seen, h, nonce, timestamp + WINDOW, now);
        journal.disk.accepted := journal.disk.accepted + [Envelope(timestamp, nonce, now)];
        seen := seen[nonce := timestamp + WINDOW];
      }
    }

    /**
     Passes only an envelope never accepted before, by any process. Each refusal
     has its own condition on the state before the call; a live nonce is always
     refused, and without a fault a fresh one is, inside the window, refused only
     for want of room or after a failure.
     */
    method VerifyAndRecord(nonce: nat, timestamp: nat, now: Time, fault: Fault) returns (v: Verdict)
      requires Valid(now)
      modifies this`seen, journal, journal.disk
      ensures Valid(now)
      ensures journal.disk.accepted == old(journal.disk.accepted) + (if v.Passed? then [Envelope(timestamp, nonce, now)] else [])
      ensures journal.disk.executed == old(journal.disk.executed)
      ensures v.Expired? <==> timestamp + 300_000 < now || now + 300_000 < timestamp
      ensures v.Seen? <==> !v.Expired? && old(journal.LiveNonce(nonce, now))
                           && (old(Remembered(nonce, now)) || (!old(Brimming(now)) && !old(journal.failed)))
      ensures v.Full? <==> !v.Expired? && !old(Remembered(nonce, now)) && old(Brimming(now))
      ensures v.Down? <==> !v.Expired? && !old(Remembered(nonce, now)) && !old(Brimming(now)) && journal.failed
      ensures old(journal.LiveNonce(nonce, now)) ==> !v.Passed?
      ensures v.Passed? ==> !journal.failed && journal.Tidy(now)
      ensures old(journal.failed) ==> journal.failed
      ensures fault.NoFault? && !v.Expired? && !old(Brimming(now)) && !old(journal.LiveNonce(nonce, now)) ==>
                (v.Passed? <==> !old(journal.failed) && old(journal.HasRoom(NonceClaim(nonce, timestamp), now)))
      ensures Spent(old(journal.disk.written), journal.disk.written, NonceClaim(nonce, timestamp), now, v, old(journal.failed))
      ensures v.Passed? ==> LiveBytes(journal.disk.records, now)
                            == old(LiveBytes(journal.disk.records, now)) + Size(NonceClaim(nonce, timestamp))
      ensures var live := LiveSeen(old(seen), now); seen == if v.Passed? then live[nonce := timestamp + WINDOW] else live
      ensures journal.disk.torn ==> old(journal.disk.torn) || fault.WriteTorn?
    {
      RememberedIsLive(seen, journal.disk.written, nonce, now);
      Prune(now);
      if Distance(now, timestamp) > WINDOW {
        v := Expired;
      } else if nonce in seen {
        v := Seen;
      } else if |seen| >= MAXIMUM_NONCES {
        v := Full;
      } else {
        v := Admit(nonce, timestamp, now, fault);
      }
    }
  }

  // ---------------------------------------------------------------- runtime

  datatype Entry = Entry(body: nat, expires: nat)

  datatype Reply =
    | Draining | Unverified(verdict: Verdict) | Malformed
    | Replayed | BodyConflict | CacheFull | AlreadyClaimed | ProtectionDown | Started

  /** Verification let the call's envelope through. */
  predicate Admitted(r: Reply) { !r.Draining? && !r.Unverified? }

  /** The call was answered by a journal that had broken down. */
  predicate Broken(r: Reply) { r == Unverified(Down) || r.ProtectionDown? }

  /**
   What decides a verified, well-formed call: whether this process remembers the
   identifier, whether its cache is full, and whether the same or another body
   holds a live claim, this process's or an earlier one's.
   */
  predicate Decided(r: Reply, remembered: bool, full: bool, same: bool, other: bool) {
    && (r.BodyConflict? <==> other && (remembered || !full))
    && (r.Replayed? <==> same && remembered)
    && (r.AlreadyClaimed? <==> same && !remembered && !full)
    && (r.CacheFull? <==> !remembered && full)
    && (r.Started? || r.ProtectionDown? <==> !same && !other && !full)
  }

  /** The request's record is in the history when it started, may be when the journal broke down over it. */
  predicate ClaimLeft(h: seq<Claim>, n: seq<Claim>, r: Record, now: Time, reply: Reply) {
    && (reply.Started? ==> n == h + [Claim(r, now)])
    && (reply.ProtectionDown? ==> n == h || n == h + [Claim(r, now)])
    && (!reply.Started? && !reply.ProtectionDown? ==> n == h)
  }

  /** What a whole call leaves in the history: what its reply acknowledges, and at most one record more. */
  predicate CallLeft(h: seq<Claim>, n: seq<Claim>, nonce: Record, request: Record, now: Time, r: Reply, wasDown: bool) {
    if Admitted(r) then ClaimLeft(h + [Claim(nonce, now)], n, request, now, r)
    else n == h || (r == Unverified(Down) && !wasDown && n == h + [Claim(nonce, now)])
  }

  /** Every remembered result belongs to a claim of the same body and expiry. */
  ghost predicate EntriesOk(m: map<nat, Entry>, h: seq<Claim>) {
    forall id :: id in m ==> Claimed(h, RequestRecord(Digest(id), Keyed(m[id].body), m[id].expires))
  }

  lemma EntriesStay(m: map<nat, Entry>, h: seq<Claim>, n: seq<Claim>)
    requires EntriesOk(m, h) && Grown(h, n)
    ensures EntriesOk(m, n)
  {
    forall id | id in m ensures Claimed(n, RequestRecord(Digest(id), Keyed(m[id].body), m[id].expires)) {
      ClaimedStays(h, n, RequestRecord(Digest(id), Keyed(m[id].body), m[id].expires));
    }
  }

  lemma EntriesAdd(m: map<nat, Entry>, h: seq<Claim>, id: nat, body: nat, e: nat, now: Time)
    requires EntriesOk(m, h)
    ensures EntriesOk(m[id := Entry(body, e)], h + [Claim(RequestRecord(Digest(id), Keyed(body), e), now)])
  {
    var n := h + [Claim(RequestRecord(Digest(id), Keyed(body), e), now)];
    EntriesStay(m, h, n);
    assert n[|h|].record == RequestRecord(Digest(id), Keyed(body), e);
  }

  lemma StartingKeeps(executed: seq<Execution>, h: seq<Claim>, id: nat, body: nat, now: nat)
    requires ExecutedOk(executed, h, now) && ExecutionsApart(executed)
    requires Free(h, RequestRecord(Digest(id), Keyed(body), now + TTL), now)
    ensures var c := Claim(RequestRecord(Digest(id), Keyed(body), now + TTL), now);
            var x := executed + [Execution(id, body, now)];
            ExecutedOk(x, h + [c], now) && ExecutionsApart(x)
  {
    var c := Claim(RequestRecord(Digest(id), Keyed(body), now + TTL), now);
    ExecutionIsLate(executed, h, id, c.record, now);
    HistoryStays([], executed, h, h + [c], now, now);
    assert (h + [c])[|h|].record == c.record;
  }

  /** A nonce claim says nothing about requests. */
  lemma NonceSaysNothing(h: seq<Claim>, n: seq<Claim>, r: Record, at: Time, key: Key, c: Commitment, same: bool, now: Time)
    requires r.NonceRecord? && (n == h || n == h + [Claim(r, at)])
    ensures LiveWith(n, key, c, same, now) <==> LiveWith(h, key, c, same, now)
  {
    if LiveWith(h, key, c, same, now) {
      var i :| 0 <= i < |h| && h[i].record.RequestRecord? && h[i].record.key == key && h[i].record.expires >= now
               && (h[i].record.commitment == c <==> same);
      assert n[i] == h[i];
    }
  }

  /** Two live claims of one identifier never disagree about its body: there is only one. */
  lemma OneLiveClaim(h: seq<Claim>, key: Key, c: Commitment, now: Time)
    requires ClaimsDistinct(h, now)
    ensures !(LiveWith(h, key, c, true, now) && LiveWith(h, key, c, false, now))
  {
  }

  /** More claims never disturb what was accepted, started, seen or remembered before. */
  lemma ClaimingKeeps(a: seq<Envelope>, x: seq<Execution>, seen: map<nat, nat>, m: map<nat, Entry>, h: seq<Claim>, n: seq<Claim>, now: Time)
    requires AcceptedOk(a, h, now) && ExecutedOk(x, h, now) && SeenOk(seen, h) && EntriesOk(m, h) && Grown(h, n)
    ensures AcceptedOk(a, n, now) && ExecutedOk(x, n, now) && SeenOk(seen, n) && EntriesOk(m, n)
  {
    HistoryStays(a, x, h, n, now, now);
    SeenStays(seen, h, n);
    EntriesStay(m, h, n);
  }

  function LiveEntries(m: map<nat, Entry>, now: Time): map<nat, Entry> { map id | id in m && m[id].expires >= now :: m[id] }

  /** A live entry tells whose body the live claim of its identifier carries. */
  lemma EntryDecides(m: map<nat, Entry>, h: seq<Claim>, id: nat, body: nat, now: Time)
    requires EntriesOk(m, h) && ClaimsDistinct(h, now) && id in LiveEntries(m, now)
    ensures LiveWith(h, Digest(id), Keyed(body), true, now) <==> m[id].body == body
    ensures LiveWith(h, Digest(id), Keyed(body), false, now) <==> m[id].body != body
  {
    var i :| 0 <= i < |h| && h[i].record == RequestRecord(Digest(id), Keyed(m[id].body), m[id].expires);
    assert LiveWith(h, Digest(id), Keyed(body), m[id].body == body, now);
    OneLiveClaim(h, Digest(id), Keyed(body), now);
  }

  function ReplyTo(o: Outcome): Reply {
    match o
    case Accepted => Started
    case Replay => AlreadyClaimed
    case Conflict => BodyConflict
    case Unavailable => ProtectionDown
  }

  class Node {
    const journal: PersistentJournal
    const guard: NonceGuard
    var idempotency: map<nat, Entry>
    var draining: bool

    ghost predicate Valid(now: Time)
      reads this, guard, journal, journal.disk
    {
      guard.journal == journal && guard.Valid(now) && EntriesOk(idempotency, journal.disk.written)
    }

    constructor (j: PersistentJournal, g: NonceGuard, ghost now: Time)
      requires g.journal == j && g.Valid(now)
      ensures journal == j && guard == g && Valid(now) && !draining && idempotency == map[]
    {
      journal, guard, idempotency, draining := j, g, map[], false;
    }

    method PruneIdempotency(now: Time)
      modifies this`idempotency
      ensures idempotency == LiveEntries(old(idempotency), now)
    {
      var rest := idempotency.Keys;
      while rest != {}
        invariant rest <= old(idempotency).Keys
        invariant idempotency == map id | id in old(idempotency) && (id in rest || old(idempotency)[id].expires >= now) :: old(idempotency)[id]
        decreases |rest|
      {
        var id :| id in rest;
        if idempotency[id].expires < now { idempotency := idempotency - {id}; }
        rest := rest - {id};
      }
    }

    /** An attestation challenge is answered by the guard's rules and spends its nonce, nothing else. */
    method Attest(nonce: nat, timestamp: nat, now: nat, fault: Fault) returns (v: Verdict)
      requires Valid(now)
      modifies guard`seen, journal, journal.disk
      ensures Valid(now)
      ensures journal.disk.accepted == old(journal.disk.accepted) + (if v.Passed? then [Envelope(timestamp, nonce, now)] else [])
      ensures journal.disk.executed == old(journal.disk.executed)
      ensures Spent(old(journal.disk.written), journal.disk.written, NonceClaim(nonce, timestamp), now, v, old(journal.failed))
      ensures old(journal.failed) || v.Down? ==> journal.failed
      ensures v.Expired? <==> Distance(now, timestamp) > WINDOW
      ensures v.Seen? <==> !v.Expired? && old(journal.LiveNonce(nonce, now))
                           && (old(guard.Remembered(nonce, now)) || (!old(guard.Brimming(now)) && !old(journal.failed)))
      ensures v.Full? <==> !v.Expired? && !old(guard.Remembered(nonce, now)) && old(guard.Brimming(now))
      ensures fault.NoFault? && !v.Expired? && !old(guard.Brimming(now)) && !old(journal.LiveNonce(nonce, now)) ==>
                (v.Passed? <==> !old(journal.failed) && old(journal.HasRoom(NonceClaim(nonce, timestamp), now)))
      ensures journal.disk.torn ==> old(journal.disk.torn) || fault.WriteTorn?
    {
      ghost var h := journal.disk.written;
      v := guard.VerifyAndRecord(nonce, timestamp, now, fault);
      EntriesStay(idempotency, h, journal.disk.written);
    }

    /** The timed compactor: a failure is terminal. */
    method CompactNow(now: nat, how: Rename)
      requires Valid(now)
      modifies journal, journal.disk`records
      ensures Valid(now)
      ensures journal.failed <==> old(journal.failed) || !how.Completed?
      ensures !journal.failed ==> journal.Tidy(now)
      ensures !journal.failed ==> Bytes(journal.disk.records) == LiveBytes(journal.disk.records, now) == old(LiveBytes(journal.disk.records, now))
    {
      if !journal.failed {
        var ok := journal.Compact(now, how);
        journal.failed := !ok;
      }
    }

    /** No room for another result in memory. */
    ghost predicate Saturated(now: Time)
      reads this`idempotency
    {
      |LiveEntries(idempotency, now)| >= 1_000
    }

    /** The journal claim; whatever comes of it, nothing remembered is disturbed. */
    method ClaimDurably(id: nat, body: nat, now: nat, fault: Fault) returns (o: Outcome)
      requires Valid(now) && !journal.failed
      modifies journal, journal.disk`records, journal.disk`torn, journal.disk`written
      ensures Valid(now)
      ensures o.Conflict? <==> old(journal.OtherBody(id, body, now))
      ensures o.Replay? <==> old(journal.SameBody(id, body, now))
      ensures o.Unavailable? <==> journal.failed
      ensures fault.NoFault? && !old(journal.SameBody(id, body, now)) && !old(journal.OtherBody(id, body, now)) ==>
                (o.Accepted? <==> old(journal.HasRoom(RequestClaim(id, body, now), now)))
      ensures o.Accepted? ==> Free(old(journal.disk.written), RequestClaim(id, body, now), now) && journal.Tidy(now)
      ensures o.Accepted? ==> journal.disk.written == old(journal.disk.written) + [Claim(RequestClaim(id, body, now), now)]
      ensures o.Replay? || o.Conflict? ==> journal.disk.written == old(journal.disk.written)
      ensures o.Unavailable? ==> journal.disk.written == old(journal.disk.written)
                                 || journal.disk.written == old(journal.disk.written) + [Claim(RequestClaim(id, body, now), now)]
      ensures o.Accepted? ==> LiveBytes(journal.disk.records, now)
                              == old(LiveBytes(journal.disk.records, now)) + Size(RequestClaim(id, body, now))
      ensures journal.disk.torn ==> old(journal.disk.torn) || fault.WriteTorn?
    {
      ghost var h := journal.disk.written;
      o := journal.ClaimRequest(id, body, now + TTL, now, fault);
      ClaimingKeeps(journal.disk.accepted, journal.disk.executed, guard.seen, idempotency, h, journal.disk.written, now);
    }

    /** The journal claim, then the start of the inference. */
    method ClaimAndStart(id: nat, body: nat, now: nat, fault: Fault) returns (r: Reply)
      requires Valid(now) && !journal.failed
      modifies this`idempotency, journal, journal.disk
      ensures Valid(now)
      ensures guard.seen == old(guard.seen)
      ensures journal.disk.accepted == old(journal.disk.accepted)
      ensures journal.disk.executed == old(journal.disk.executed) + (if r.Started? then [Execution(id, body, now)] else [])
      ensures r.Started? || r.AlreadyClaimed? || r.BodyConflict? || r.ProtectionDown?
      ensures r.BodyConflict? <==> old(journal.OtherBody(id, body, now))
      ensures r.AlreadyClaimed? <==> old(journal.SameBody(id, body, now))
      ensures r.ProtectionDown? <==> journal.failed
      ensures fault.NoFault? && !old(journal.SameBody(id, body, now)) && !old(journal.OtherBody(id, body, now)) ==>
                (r.Started? <==> old(journal.HasRoom(RequestClaim(id, body, now), now)))
      ensures idempotency == if r.Started? then old(idempotency)[id := Entry(body, now + TTL)] else old(idempotency)
      ensures ClaimLeft(old(journal.disk.written), journal.disk.written, RequestClaim(id, body, now), now, r)
      ensures r.Started? ==> journal.Tidy(now)
      ensures r.Started? ==> LiveBytes(journal.disk.records, now)
                             == old(LiveBytes(journal.disk.records, now)) + Size(RequestClaim(id, body, now))
      ensures journal.disk.torn ==> old(journal.disk.torn) || fault.WriteTorn?
    {
      ghost var h, x, m := journal.disk.written, journal.disk.executed, idempotency;
      var o := ClaimDurably(id, body, now, fault);
      r := ReplyTo(o);
      if o.Accepted? {
        StartingKeeps(x, h, id, body, now);
        EntriesAdd(m, h, id, body, now + TTL, now);
        journal.disk.executed := journal.disk.executed + [Execution(id, body, now)];
        idempotency := idempotency[id := Entry(body, now + TTL)];
      }
    }

    /** First the idempotency map, then its capacity, then the journal. */
    method Start(id: nat, body: nat, now: nat, fault: Fault) returns (r: Reply)
      requires Valid(now) && !journal.failed
      modifies this`idempotency, journal, journal.disk
      ensures Valid(now)
      ensures guard.seen == old(guard.seen)
      ensures journal.disk.accepted == old(journal.disk.accepted)
      ensures journal.disk.executed == old(journal.disk.executed) + (if r.Started? then [Execution(id, body, now)] else [])
      ensures !r.Draining? && !r.Unverified? && !r.Malformed?
      ensures Decided(r, id in LiveEntries(old(idempotency), now), old(Saturated(now)),
                      old(journal.SameBody(id, body, now)), old(journal.OtherBody(id, body, now)))
      ensures r.ProtectionDown? <==> journal.failed
      ensures fault.NoFault? && !old(journal.SameBody(id, body, now)) && !old(journal.OtherBody(id, body, now)) && !old(Saturated(now)) ==>
                (r.Started? <==> old(journal.HasRoom(RequestClaim(id, body, now), now)))
      ensures var m := LiveEntries(old(idempotency), now); idempotency == if r.Started? then m[id := Entry(body, now + TTL)] else m
      ensures ClaimLeft(old(journal.disk.written), journal.disk.written, RequestClaim(id, body, now), now, r)
      ensures r.Started? ==> journal.Tidy(now)
      ensures r.Started? ==> LiveBytes(journal.disk.records, now)
                             == old(LiveBytes(journal.disk.records, now)) + Size(RequestClaim(id, body, now))
      ensures journal.disk.torn ==> old(journal.disk.torn) || fault.WriteTorn?
    {
      OneLiveClaim(journal.disk.written, Digest(id), Keyed(body), now);
      if id in LiveEntries(idempotency, now) { EntryDecides(idempotency, journal.disk.written, id, body, now); }
      PruneIdempotency(now);
      if id in idempotency {
        r := if idempotency[id].body != body then BodyConflict else Replayed;
      } else if |idempotency| >= MAXIMUM_IDEMPOTENCY {
        r := CacheFull;
      } else {
        r := ClaimAndStart(id, body, now, fault);
      }
    }

    /** Verification lets the envelope through. */
    ghost predicate Verifies(nonce: nat, timestamp: nat, now: Time)
      reads this, guard, journal, journal.disk
    {
      && !draining && Distance(now, timestamp) <= WINDOW
      && !guard.Brimming(now) && !journal.failed
      && !journal.LiveNonce(nonce, now) && journal.HasRoom(NonceClaim(nonce, timestamp), now)
    }

    /** Both claims of one call fit beside the live lines. */
    ghost predicate HasRoomForBoth(id: nat, body: nat, nonce: nat, timestamp: nat, now: nat)
      reads this, journal, journal.disk
    {
      LiveBytes(journal.disk.records, now) + Size(NonceClaim(nonce, timestamp)) + Size(RequestClaim(id, body, now)) <= MAXIMUM_JOURNAL_BYTES
    }

    /** The guard's answer, which leaves what is claimed about requests as it was. */
    method Verify(ghost id: nat, ghost body: nat, nonce: nat, timestamp: nat, now: nat, fault: Fault) returns (v: Verdict)
      requires Valid(now)
      modifies guard`seen, journal, journal.disk
      ensures Valid(now)
      ensures journal.disk.accepted == old(journal.disk.accepted) + (if v.Passed? then [Envelope(timestamp, nonce, now)] else [])
      ensures journal.disk.executed == old(journal.disk.executed)
      ensures journal.SameBody(id, body, now) <==> old(journal.SameBody(id, body, now))
      ensures journal.OtherBody(id, body, now) <==> old(journal.OtherBody(id, body, now))
      ensures v.Expired? <==> Distance(now, timestamp) > WINDOW
      ensures v.Seen? <==> !v.Expired? && old(journal.LiveNonce(nonce, now))
                           && (old(guard.Remembered(nonce, now)) || (!old(guard.Brimming(now)) && !old(journal.failed)))
      ensures v.Full? <==> !v.Expired? && !old(guard.Remembered(nonce, now)) && old(guard.Brimming(now))
      ensures fault.NoFault? && !old(draining) ==> (v.Passed? <==> old(Verifies(nonce, timestamp, now)))
      ensures v.Passed? ==> !journal.failed
      ensures old(journal.failed) || v.Down? ==> journal.failed
      ensures Spent(old(journal.disk.written), journal.disk.written, NonceClaim(nonce, timestamp), now, v, old(journal.failed))
      ensures v.Passed? ==> LiveBytes(journal.disk.records, now)
                            == old(LiveBytes(journal.disk.records, now)) + Size(NonceClaim(nonce, timestamp))
      ensures var live := LiveSeen(old(guard.seen), now); guard.seen == if v.Passed? then live[nonce := timestamp + WINDOW] else live
      ensures journal.disk.torn ==> old(journal.disk.torn) || fault.WriteTorn?
    {
      ghost var h := journal.disk.written;
      RememberedIsLive(guard.seen, h, nonce, now);
      v := guard.VerifyAndRecord(nonce, timestamp, now, fault);
      EntriesStay(idempotency, h, journal.disk.written);
      NonceSaysNothing(h, journal.disk.written, NonceClaim(nonce, timestamp), now, Digest(id), Keyed(body), true, now);
      NonceSaysNothing(h, journal.disk.written, NonceClaim(nonce, timestamp), now, Digest(id), Keyed(body), false, now);
    }

    /**
     One signed inference call, whatever breaks during it. Every answer has its
     condition on the state before the call. In particular another body under a
     live claim is a conflict if and only if this process remembers the identifier
     or still has room to; otherwise the full cache answers first. An inference is
     started only when no claim of its identifier is live, and then, if nothing
     breaks, whenever there is room for its entry and for its two claims.
     */
    method HandleInference(id: nat, body: nat, nonce: nat, timestamp: nat, wellFormed: bool, now: nat, fault: Fault, later: Fault)
      returns (r: Reply)
      requires Valid(now)
      modifies this`idempotency, guard`seen, journal, journal.disk
      ensures Valid(now)
      ensures journal.disk.accepted == old(journal.disk.accepted) + (if Admitted(r) then [Envelope(timestamp, nonce, now)] else [])
      ensures journal.disk.executed == old(journal.disk.executed) + (if r.Started? then [Execution(id, body, now)] else [])
      ensures r.Draining? <==> old(draining)
      ensures r.Unverified? ==> !r.verdict.Passed?
      ensures r == Unverified(Expired) <==> !old(draining) && Distance(now, timestamp) > WINDOW
      ensures r == Unverified(Seen) <==>
                !old(draining) && Distance(now, timestamp) <= WINDOW && old(journal.LiveNonce(nonce, now))
                && (old(guard.Remembered(nonce, now)) || (!old(guard.Brimming(now)) && !old(journal.failed)))
      ensures r == Unverified(Full) <==>
                !old(draining) && Distance(now, timestamp) <= WINDOW && !old(guard.Remembered(nonce, now)) && old(guard.Brimming(now))
      ensures fault.NoFault? ==> (Admitted(r) <==> old(Verifies(nonce, timestamp, now)))
      ensures r.Malformed? <==> Admitted(r) && !wellFormed
      ensures Admitted(r) && wellFormed ==>
                Decided(r, id in LiveEntries(old(idempotency), now), old(Saturated(now)),
                        old(journal.SameBody(id, body, now)), old(journal.OtherBody(id, body, now)))
      ensures Admitted(r) && wellFormed && later.NoFault?
              && !old(journal.SameBody(id, body, now)) && !old(journal.OtherBody(id, body, now)) && !old(Saturated(now)) ==>
                (r.Started? <==> old(HasRoomForBoth(id, body, nonce, timestamp, now)))
      ensures Broken(r) || old(journal.failed) ==> journal.failed
      ensures Admitted(r) ==> !old(journal.failed) && (journal.failed ==> r.ProtectionDown?)
      ensures CallLeft(old(journal.disk.written), journal.disk.written, NonceClaim(nonce, timestamp), RequestClaim(id, body, now), now, r, old(journal.failed))
      ensures journal.disk.torn ==> old(journal.disk.torn) || fault.WriteTorn? || later.WriteTorn?
      ensures var live := LiveEntries(old(idempotency), now);
              idempotency == if r.Started? then live[id := Entry(body, now + TTL)] else if Admitted(r) && wellFormed then live else old(idempotency)
      ensures var live := LiveSeen(old(guard.seen), now);
              guard.seen == if r.Draining? then old(guard.seen) else if Admitted(r) then live[nonce := timestamp + WINDOW] else live
      ensures r.Started? ==> !journal.failed && journal.Tidy(now)
      ensures r.Started? ==> LiveBytes(journal.disk.records, now)
                             == old(LiveBytes(journal.disk.records, now)) + Size(NonceClaim(nonce, timestamp)) + Size(RequestClaim(id, body, now))
    {
      if draining { return Draining; }
      var v := Verify(id, body, nonce, timestamp, now, fault);
      if !v.Passed? {
        r := Unverified(v);
      } else if !wellFormed {
        r := Malformed;
      } else {
        r := Start(id, body, now, later);
      }
    }
  }
}
