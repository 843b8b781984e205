/**
 A conflicting body that is not called a conflict: from an empty file, the run in
 which a full result cache answers before the journal is asked.
 */
module SupplierConflict {
  import opened Totals
  import opened ReplayRecords
  import opened ReplayJournal
  import opened SupplierRuntime
  import opened SupplierRuns

  /** What one call at this clock reading adds to the live lines. */
  function CallSize(now: nat): nat { Size(NonceClaim(0, now)) + Size(RequestClaim(0, 0, now)) }

  /** What n requests of numbers up to n leave behind. */
  predicate Counted(m: map<nat, Entry>, seen: map<nat, nat>, h: seq<Claim>, bytes: nat, n: nat, now: nat) {
    && |m| == n && |seen| == n && bytes <= CallSize(now) * (n + 1)
    && (forall k :: k in m ==> 1 <= k <= n && m[k].expires >= now)
    && (forall k :: k in seen ==> 1 <= k <= n && seen[k] >= now)
    && (forall i :: 0 <= i < |h| ==> h[i].record.key.text <= n)
  }

  lemma NothingExpires(m: map<nat, Entry>, seen: map<nat, nat>, h: seq<Claim>, bytes: nat, n: nat, now: nat)
    requires Counted(m, seen, h, bytes, n, now)
    ensures LiveEntries(m, now) == m && LiveSeen(seen, now) == seen
  {
  }

  lemma CountsOneMore(m: map<nat, Entry>, seen: map<nat, nat>, h: seq<Claim>, bytes: nat, n: nat, now: nat,
                      m': map<nat, Entry>, seen': map<nat, nat>, h': seq<Claim>, bytes': nat)
    requires Counted(m, seen, h, bytes, n, now)
    requires m' == LiveEntries(m, now)[n + 1 := Entry(0, now + TTL)] && seen' == LiveSeen(seen, now)[n + 1 := now + WINDOW]
    requires h' == h + [Claim(NonceClaim(n + 1, now), now)] + [Claim(RequestClaim(n + 1, 0, now), now)]
    requires bytes' == bytes + Size(NonceClaim(n + 1, now)) + Size(RequestClaim(n + 1, 0, now))
    ensures Counted(m', seen', h', bytes', n + 1, now) && Grown(h, h')
  {
    NothingExpires(m, seen, h, bytes, n, now);
    assert bytes' == bytes + CallSize(now);
    assert CallSize(now) * (n + 2) == CallSize(now) * (n + 1) + CallSize(now);
  }

  /** A running process that served n requests, all at one clock reading. */
  ghost predicate Served(node: Node, n: nat, now: nat)
    reads node, node.guard, node.journal, node.journal.disk
  {
    && node.Valid(now) && !node.draining && !node.journal.failed
    && Counted(node.idempotency, node.guard.seen, node.journal.disk.written, LiveBytes(node.journal.disk.records, now), n, now)
  }

  lemma Unclaimed(j: PersistentJournal, n: nat, k: nat, now: nat)
    requires (forall i :: 0 <= i < |j.disk.written| ==> j.disk.written[i].record.key.text <= n) && n < k
    ensures !j.LiveNonce(k, now) && !j.SameBody(k, 0, now) && !j.OtherBody(k, 0, now)
  {
  }

  /** The thousand and two calls of the run below fit into the file. */
  predicate CallsFit(now: nat) { CallSize(now) * (MAXIMUM_IDEMPOTENCY + 2) <= MAXIMUM_JOURNAL_BYTES }

  lemma CallsFitNow()
    ensures CallsFit(0)
  {
    assert Digits(300_000) == 6 && Digits(900_000) == 6 by { assert Digits(300) == 3 && Digits(900) == 3; }
  }

  lemma MoreIsMore(a: nat, b: nat, c: nat)
    requires b <= c
    ensures a * b <= a * c
  {
  }

  lemma RoomLeft(bytes: nat, n: nat, k: nat, now: nat)
    requires CallsFit(now) && bytes <= CallSize(now) * (n + 1) && n <= MAXIMUM_IDEMPOTENCY
    ensures bytes + Size(NonceClaim(k, now)) + Size(RequestClaim(k, 0, now)) <= MAXIMUM_JOURNAL_BYTES
  {
    MoreIsMore(CallSize(now), n + 2, MAXIMUM_IDEMPOTENCY + 2);
    assert CallSize(now) * (n + 2) == CallSize(now) * (n + 1) + CallSize(now);
  }

  lemma LiveWithStays(h: seq<Claim>, n: seq<Claim>, key: Key, c: Commitment, same: bool, now: Time)
    requires LiveWith(h, key, c, same, now) && Grown(h, n)
    ensures LiveWith(n, key, c, same, now)
  {
    var i :| 0 <= i < |h| && h[i].record.RequestRecord? && h[i].record.key == key && h[i].record.expires >= now
             && (h[i].record.commitment == c <==> same);
    assert n[i] == n[..|h|][i];
  }

  /** Undisturbed, a verified request that nobody holds, with room for it, is started. */
  method ServeFresh(node: Node, id: nat, now: nat) returns (r: Reply)
    requires node.Valid(now) && node.Verifies(id, now, now) && node.HasRoomForBoth(id, 0, id, now, now) && !node.Saturated(now)
    requires !node.journal.SameBody(id, 0, now) && !node.journal.OtherBody(id, 0, now)
    modifies node, node.guard, node.journal, node.journal.disk
    ensures node.Valid(now) && !node.draining && !node.journal.failed && r.Started?
    ensures node.idempotency == LiveEntries(old(node.idempotency), now)[id := Entry(0, now + TTL)]
    ensures node.guard.seen == LiveSeen(old(node.guard.seen), now)[id := now + WINDOW]
    ensures node.journal.disk.written == old(node.journal.disk.written) + [Claim(NonceClaim(id, now), now)] + [Claim(RequestClaim(id, 0, now), now)]
    ensures LiveBytes(node.journal.disk.records, now)
            == old(LiveBytes(node.journal.disk.records, now)) + Size(NonceClaim(id, now)) + Size(RequestClaim(id, 0, now))
  {
    r := node.HandleInference(id, 0, id, now, true, now, NoFault, NoFault);
    assert r.Started?;
  }

  method ServeNext(node: Node, n: nat, now: nat)
    requires Served(node, n, now) && n < MAXIMUM_IDEMPOTENCY && CallsFit(now)
    modifies node, node.guard, node.journal, node.journal.disk
    ensures Served(node, n + 1, now) && Grown(old(node.journal.disk.written), node.journal.disk.written)
  {
    ghost var m, seen, h, bytes := node.idempotency, node.guard.seen, node.journal.disk.written, LiveBytes(node.journal.disk.records, now);
    NothingExpires(m, seen, h, bytes, n, now);
    Unclaimed(node.journal, n, n + 1, now);
    RoomLeft(bytes, n, n + 1, now);
    var r := ServeFresh(node, n + 1, now);
    CountsOneMore(m, seen, h, bytes, n, now, node.idempotency, node.guard.seen, node.journal.disk.written, LiveBytes(node.journal.disk.records, now));
  }

  /** One request after another, until the cache is full. */
  method FillCache(node: Node, now: nat)
    requires Served(node, 0, now) && CallsFit(now)
    modifies node, node.guard, node.journal, node.journal.disk
    ensures Served(node, MAXIMUM_IDEMPOTENCY, now) && Grown(old(node.journal.disk.written), node.journal.disk.written)
  {
    for n := 0 to MAXIMUM_IDEMPOTENCY
      invariant Served(node, n, now) && Grown(old(node.journal.disk.written), node.journal.disk.written)
    {
      ghost var h, h0 := node.journal.disk.written, old(node.journal.disk.written);
      ServeNext(node, n, now);
      GrowsOn(h0, h, node.journal.disk.written);
    }
  }

  lemma GrowsOn<T>(a: seq<T>, b: seq<T>, c: seq<T>)
    requires Grown(a, b) && Grown(b, c)
    ensures Grown(a, c)
  {
    assert c[..|a|] == c[..|b|][..|a|];
  }

  /** The other body of request 0, to a process whose cache is full of other requests. */
  method AskAgain(node: Node, now: nat) returns (r: Reply)
    requires Served(node, MAXIMUM_IDEMPOTENCY, now) && node.journal.OtherBody(0, 1, now) && CallsFit(now)
    modifies node, node.guard, node.journal, node.journal.disk
    ensures r.CacheFull? && node.Valid(now) && node.journal.OtherBody(0, 1, now)
  {
    ghost var h, bytes, n := node.journal.disk.written, LiveBytes(node.journal.disk.records, now), MAXIMUM_IDEMPOTENCY;
    NothingExpires(node.idempotency, node.guard.seen, h, bytes, n, now);
    Unclaimed(node.journal, n, n + 1, now);
    RoomLeft(bytes, n, n + 1, now);
    r := node.HandleInference(0, 1, MAXIMUM_IDEMPOTENCY + 1, now, true, now, NoFault, NoFault);
    LiveWithStays(h, node.journal.disk.written, Digest(0), Keyed(1), false, now);
  }

  /** A first process, with nothing behind it. */
  method StartEmpty(now: nat) returns (node: Node)
    ensures fresh(node) && fresh(node.guard) && fresh(node.journal) && fresh(node.journal.disk)
    ensures Served(node, 0, now) && node.journal.disk.written == [] && LiveBytes(node.journal.disk.records, now) == 0
  {
    var disk := new Disk();
    node := StartNode(disk, now, NoFault);
  }

  /** Request 0, to a process that has served nobody. */
  method ServeFirst(node: Node, now: nat) returns (r: Reply)
    requires Served(node, 0, now) && node.journal.disk.written == [] && LiveBytes(node.journal.disk.records, now) == 0 && CallsFit(now)
    modifies node, node.guard, node.journal, node.journal.disk
    ensures node.Valid(now) && !node.journal.failed && r.Started?
    ensures node.journal.disk.written == [] + [Claim(NonceClaim(0, now), now)] + [Claim(RequestClaim(0, 0, now), now)]
    ensures LiveBytes(node.journal.disk.records, now) == CallSize(now)
  {
    NothingExpires(node.idempotency, node.guard.seen, [], 0, 0, now);
    RoomLeft(0, 0, 0, now);
    r := ServeFresh(node, 0, now);
  }

  /** The first process starts request 0. */
  method StartFirst(now: nat) returns (node: Node, first: Reply)
    requires CallsFit(now)
    ensures fresh(node.journal.disk) && node.Valid(now) && !node.journal.failed && first.Started?
    ensures node.journal.disk.written == [] + [Claim(NonceClaim(0, now), now)] + [Claim(RequestClaim(0, 0, now), now)]
    ensures LiveBytes(node.journal.disk.records, now) == CallSize(now)
  {
    node := StartEmpty(now);
    first := ServeFirst(node, now);
  }

  /** Then the node restarts. */
  method StartOver(now: nat) returns (first: Reply, node: Node)
    requires CallsFit(now)
    ensures first.Started? && Served(node, 0, now) && node.journal.OtherBody(0, 1, now)
    ensures fresh(node) && fresh(node.guard) && fresh(node.journal) && fresh(node.journal.disk)
  {
    var before;
    before, first := StartFirst(now);
    assert before.journal.disk.written[1].record == RequestClaim(0, 0, now);
    node := StartNode(before.journal.disk, now, NoFault);
  }

  /**
   From an empty file: request 0 is started, the node restarts and fills its cache
   with a thousand other requests; request 0 with another body, still live in the
   journal, is then answered "capacity exceeded", not "conflict". Any clock reading
   whose digits let the calls fit will do; zero does.
   */
  method FullCacheAnswersFirst(now: nat) returns (first: Reply, node: Node, last: Reply)
    requires CallsFit(now)
    ensures first.Started? && node.Valid(now) && node.journal.OtherBody(0, 1, now) && last.CacheFull?
  {
    first, node := StartOver(now);
    ghost var h := node.journal.disk.written;
    FillCache(node, now);
    LiveWithStays(h, node.journal.disk.written, Digest(0), Keyed(1), false, now);
    last := AskAgain(node, now);
  }
}
