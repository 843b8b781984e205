/**
 One buyer's purge request as the service runs it, on the live tables: claim,
 bounded SELECT, tombstone batch, object delete, exact-generation row deletes,
 finalize. Repeated undisturbed, it finishes in as few bounded calls as possible.
 */
module ChunkStore {
  import opened Totals
  import opened ChunkSteps

  datatype PurgeResult = NowInUse | MoreToDelete | PurgeDone

  /** Bounded batches: how many calls n rows take. */
  function CallsFor(n: nat): nat { if n <= BATCH then 1 else 1 + CallsFor(n - BATCH) }

  function CeilingQuarter(n: nat): nat { (n + BATCH - 1) / BATCH }

  function Max(a: nat, b: nat): nat { if a >= b then a else b }

  lemma {:induction false} CallsForIsCeiling(n: nat)
    ensures CallsFor(n) == Max(1, CeilingQuarter(n))
  {
    if n > BATCH {
      CallsForIsCeiling(n - BATCH);
      assert n + BATCH - 1 == (n - BATCH + BATCH - 1) + BATCH;
    }
  }

  /** The lowest part among some rows of one artifact. */
  method LowestPart(ts: set<Slot>) returns (t: Slot)
    requires ts != {}
    ensures t in ts && forall u :: u in ts ==> t.part <= u.part
  {
    t :| t in ts;
    var rest := ts - {t};
    while rest != {}
      invariant t in ts && rest <= ts && forall u :: u in ts - rest ==> t.part <= u.part
      decreases |rest|
    {
      var u :| u in rest;
      if u.part < t.part { t := u; }
      rest := rest - {u};
    }
  }

  function KeysAt(c: map<Slot, Chunk>, ts: set<Slot>): set<Key> { set t | t in ts && t in c :: c[t].key }

  function Earlier(a: Time, b: Time): Time { if a <= b then a else b }

  /** These keys are due for deletion now, for a day, or since whenever they were due before; no other record changed. */
  ghost predicate Queued(q: map<Key, Deletion>, n: map<Key, Deletion>, ks: set<Key>, now: Time) {
    && n.Keys == q.Keys + ks
    && forall k :: k in n ==>
         n[k] == if k !in ks then q[k]
                 else if k in q then Deletion(Earlier(q[k].next, now), Earlier(q[k].retain, now + 86_400_000))
                 else Deletion(now, now + 86_400_000)
  }

  class ArtifactStore {
    var artifacts: map<nat, Artifact>
    var chunks: map<Slot, Chunk>
    var queue: map<Key, Deletion>
    var bucket: set<Key>
    var tasks: map<nat, Use>

    ghost predicate Used(a: nat)
      reads this`tasks
    {
      exists i :: i in tasks && tasks[i].art == a && tasks[i].active
    }

    /** ORDER BY part_number ASC LIMIT 4. */
    method SelectGenerations(a: nat) returns (rows: map<Slot, Chunk>)
      ensures FirstRows(chunks, a, rows.Keys)
      ensures forall t :: t in rows ==> rows[t] == chunks[t]
      ensures |rows.Keys| == if |RowsOf(chunks, a)| <= BATCH then |RowsOf(chunks, a)| else BATCH
    {
      var all := RowsOf(chunks, a);
      var taken: set<Slot> := {};
      rows := map[];
      while |taken| < BATCH && taken != all
        invariant taken <= all && |taken| <= BATCH && rows.Keys == taken
        invariant forall t :: t in rows ==> rows[t] == chunks[t]
        invariant forall t, u :: t in taken && u in all - taken ==> t.part < u.part
        decreases BATCH - |taken|
      {
        assert all - taken != {} by { assert all == taken + (all - taken); }
        var t := LowestPart(all - taken);
        forall u | u in all - taken - {t} ensures t.part < u.part {
          assert u != t && u.art == t.art;
        }
        taken := taken + {t};
        rows := rows[t := chunks[t]];
      }
      TakenCount(taken, all);
    }

    /** CLAIM_ARTIFACT_PURGE_SQL. */
    method ClaimPurge(a: nat, now: Time) returns (claimed: bool)
      requires a in artifacts
      modifies this`artifacts
      ensures claimed <==> !Used(a)
      ensures artifacts == if claimed then old(artifacts)[a := old(artifacts)[a].(purged := true, expires := now)] else old(artifacts)
    {
      claimed := !(exists i | i in tasks :: tasks[i].art == a && tasks[i].active);
      if claimed { artifacts := artifacts[a := artifacts[a].(purged := true, expires := now)]; }
    }

    /** One exact-generation DELETE per selected row. */
    method DeleteGenerations(rows: map<Slot, Chunk>)
      modifies this`chunks
      ensures chunks == Purged(old(chunks), rows)
    {
      ghost var was := chunks;
      var rest := rows.Keys;
      while rest != {}
        invariant rest <= rows.Keys
        invariant forall t :: t in chunks ==> t in was && chunks[t] == was[t]
        invariant forall t :: t in was ==> (t !in chunks <==> SameGeneration(rows, was, t) && t !in rest)
        decreases |rest|
      {
        var t :| t in rest;
        if t in chunks && chunks[t].key == rows[t].key && chunks[t].at == rows[t].at { chunks := chunks - {t}; }
        rest := rest - {t};
      }
    }

    /**
     One purge request. With no concurrent upload and no failing object delete, it
     removes exactly the lowest parts, at most four, leaves every removed key
     queued and its object gone, and finalizes exactly when nothing is left. An
     artifact deleted before, under which a late upload left rows, stays deleted,
     and the request reports so whether or not four rows were all of them.
     */
    method DeleteArtifactBytes(a: nat, now: Time) returns (r: PurgeResult, ghost gone: set<Slot>)
      requires a in artifacts
      modifies this`artifacts, this`chunks, this`queue, this`bucket
      ensures r.NowInUse? <==> old(Used(a))
      ensures r.NowInUse? ==> artifacts == old(artifacts) && chunks == old(chunks) && bucket == old(bucket) && queue == old(queue)
      ensures !r.NowInUse? ==>
                && FirstRows(old(chunks), a, gone) && chunks == old(chunks) - gone
                && bucket == old(bucket) - KeysAt(old(chunks), gone) && Queued(old(queue), queue, KeysAt(old(chunks), gone), now)
                && |gone| == (if |RowsOf(old(chunks), a)| <= BATCH then |RowsOf(old(chunks), a)| else BATCH)
                && a in artifacts && artifacts == old(artifacts)[a := Artifact(artifacts[a].status, true, old(artifacts)[a].count, now)]
                && (artifacts[a].status == ArtDeleted || artifacts[a].status == old(artifacts)[a].status)
                && (r.PurgeDone? <==> artifacts[a].status == ArtDeleted)
                && (r.PurgeDone? <==> RowsOf(chunks, a) == {} || old(artifacts)[a].status == ArtDeleted)
    {
      gone := {};
      var claimed := ClaimPurge(a, now);
      if !claimed { return NowInUse, gone; }
      var rows := SelectGenerations(a);
      gone := rows.Keys;
      queue := EnqueueAll(queue, KeysOf(rows), now, now + RETENTION);
      chunks := Tombstone(chunks, rows);
      bucket := bucket - KeysOf(rows);
      DeleteGenerations(rows);
      PurgedAway(old(chunks), rows);
      assert KeysOf(rows) == KeysAt(old(chunks), gone);
      artifacts := Finalized(artifacts, chunks, a);
      r := if artifacts[a].status == ArtDeleted then PurgeDone else MoreToDelete;
    }

    /**
     Retried until it reports success, an undisturbed purge of n rows takes
     max(1, ceil(n / 4)) requests and leaves no row. If the artifact was deleted
     before, the first request succeeds and leaves no row exactly when there were
     at most four.
     */
    method PurgeUntilDeleted(a: nat, now: Time) returns (calls: nat)
      requires a in artifacts && !Used(a)
      modifies this`artifacts, this`chunks, this`queue, this`bucket
      ensures a in artifacts && artifacts[a].status == ArtDeleted
      ensures RowsOf(chunks, a) == {} <==> old(artifacts)[a].status != ArtDeleted || |RowsOf(old(chunks), a)| <= BATCH
      ensures forall t :: t in old(chunks) && t !in chunks ==> t.art == a && old(chunks)[t].key in queue
      ensures bucket == old(bucket) - KeysAt(old(chunks), old(chunks).Keys - chunks.Keys)
      ensures artifacts - {a} == old(artifacts) - {a}
      ensures forall t :: t in chunks ==> t in old(chunks) && chunks[t] == old(chunks)[t]
      ensures calls == if old(artifacts)[a].status == ArtDeleted then 1 else Max(1, CeilingQuarter(|RowsOf(old(chunks), a)|))
    {
      if artifacts[a].status == ArtDeleted {
        ghost var was := chunks;
        var r, gone := DeleteArtifactBytes(a, now);
        RowsWithout(was, a, gone);
        return 1;
      }
      calls := PurgeRemaining(a, now);
    }

    method PurgeRemaining(a: nat, now: Time) returns (calls: nat)
      requires a in artifacts && artifacts[a].status != ArtDeleted && !Used(a)
      modifies this`artifacts, this`chunks, this`queue, this`bucket
      ensures a in artifacts && artifacts[a].status == ArtDeleted && RowsOf(chunks, a) == {}
      ensures forall t :: t in old(chunks) && t !in chunks ==> t.art == a && old(chunks)[t].key in queue
      ensures bucket == old(bucket) - KeysAt(old(chunks), old(chunks).Keys - chunks.Keys)
      ensures artifacts - {a} == old(artifacts) - {a}
      ensures forall t :: t in chunks ==> t in old(chunks) && chunks[t] == old(chunks)[t]
      ensures calls == Max(1, CeilingQuarter(|RowsOf(old(chunks), a)|))
    {
      ghost var first := chunks;
      calls := 0;
      CallsForIsCeiling(|RowsOf(chunks, a)|);
      var done := false;
      while !done
        invariant a in artifacts && (done <==> artifacts[a].status == ArtDeleted) && !Used(a)
        invariant done ==> RowsOf(chunks, a) == {}
        invariant calls + (if done then 0 else CallsFor(|RowsOf(chunks, a)|)) == CallsFor(|RowsOf(first, a)|)
        invariant forall t :: t in chunks ==> t in first && chunks[t] == first[t]
        invariant forall t :: t in first && t !in chunks ==> t.art == a && first[t].key in queue
        invariant bucket == old(bucket) - KeysAt(first, first.Keys - chunks.Keys)
        invariant artifacts - {a} == old(artifacts) - {a}
        decreases if done then 0 else 1, |RowsOf(chunks, a)|
      {
        ghost var was := chunks;
        var r, gone := DeleteArtifactBytes(a, now);
        RowsWithout(was, a, gone);
        calls := calls + 1;
        done := r.PurgeDone?;
      }
    }
  }

  lemma TakenCount(taken: set<Slot>, all: set<Slot>)
    requires taken <= all && |taken| <= BATCH && (|taken| == BATCH || taken == all)
    ensures |taken| == if |all| <= BATCH then |all| else BATCH
  {
    assert all == taken + (all - taken);
    assert |all| == |taken| + |all - taken|;
    if |all - taken| == 0 { assert all == taken; }
  }

  lemma PurgedAway(c: map<Slot, Chunk>, rows: map<Slot, Chunk>)
    requires rows.Keys <= c.Keys && forall t :: t in rows ==> rows[t] == c[t]
    ensures Purged(Tombstone(c, rows), rows) == c - rows.Keys
  {
  }

  lemma RowsWithout(c: map<Slot, Chunk>, a: nat, gone: set<Slot>)
    requires gone <= RowsOf(c, a)
    ensures RowsOf(c - gone, a) == RowsOf(c, a) - gone
    ensures |RowsOf(c - gone, a)| == |RowsOf(c, a)| - |gone|
  {
    assert RowsOf(c - gone, a) == RowsOf(c, a) - gone;
    assert RowsOf(c, a) == gone + (RowsOf(c, a) - gone);
  }
}
