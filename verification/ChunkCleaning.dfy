/** What the cleaners of the chunk store achieve when nothing gets in their way, and what they must leave alone. */
module ChunkCleaning {
  import opened Totals
  import opened ChunkSteps
  import opened ChunkInvariants
  import opened ChunkPurges
  import opened ChunkTheorems

  // ------------------------------------------------------------ stale chunks

  /** Ten minutes after its claim an unfinished row is up for sweeping. */
  predicate Stale(s: State, t: Slot) { t in s.chunks && s.chunks[t].status != Ready && s.chunks[t].at + 600_000 <= s.clock }

  /** One sweep: select, claim, delete the object, delete the row. */
  function Swept(s: State, id: nat, t: Slot): State { SweepRow(SweepObject(SweepClaim(SweepSelect(s, id, t), id), id), id) }

  lemma SelectsTheStale(s: State, n: State, id: nat, t: Slot)
    requires id !in s.sweeps && n == SweepSelect(s, id, t)
    ensures n == if Stale(s, t) then s.(sweeps := s.sweeps[id := Sweep(s.chunks[t].key, s.chunks[t].status, Seen)]) else s
  {
  }

  lemma ClaimsTheDeleting(s: State, n: State, id: nat, k: Key)
    requires k in s.uploads && id in s.sweeps && s.sweeps[id] == Sweep(k, Deleting, Seen) && n == SweepClaim(s, id)
    ensures n == s.(sweeps := s.sweeps[id := Sweep(k, Deleting, Won)])
  {
  }
  lemma ClaimsThePending(s: State, n: State, id: nat, k: Key)
    requires k in s.uploads && Look(s, k).Has(Pending) && id in s.sweeps && s.sweeps[id] == Sweep(k, Pending, Seen) && n == SweepClaim(s, id)
    ensures n == s.(chunks := s.chunks[s.uploads[k].slot := Chunk(k, Deleting, s.clock)], sweeps := s.sweeps[id := Sweep(k, Pending, Won)])
  {
  }

  lemma DeletesTheClaimed(s: State, n: State, id: nat, t: Slot)
    requires t in s.chunks && s.chunks[t].status == Deleting && SlotOk(s, t)
    requires id in s.sweeps && s.sweeps[id].pc == Won && s.sweeps[id].key == s.chunks[t].key
    requires n == SweepRow(SweepObject(s, id), id)
    ensures n == s.(chunks := s.chunks - {t}, bucket := s.bucket - {s.chunks[t].key}, sweeps := s.sweeps - {id})
  {
    var m := SweepObject(s, id);
    assert m.sweeps - {id} == s.sweeps - {id};
    assert Look(m, s.sweeps[id].key).Has(Deleting);
  }

  lemma WonIsSwept(s: State, b: State, n: State, id: nat, t: Slot, row: Chunk, seen: ChunkStatus)
    requires t in s.chunks && SlotOk(s, t) && id !in s.sweeps && row.key == s.chunks[t].key && row.status == Deleting
    requires b.chunks == s.chunks[t := row] && b.sweeps == s.sweeps[id := Sweep(row.key, seen, Won)]
    requires b == s.(chunks := b.chunks, sweeps := b.sweeps) && n == SweepRow(SweepObject(b, id), id)
    ensures n == s.(chunks := s.chunks - {t}, bucket := s.bucket - {s.chunks[t].key})
  {
    DeletesTheClaimed(b, n, id, t);
    assert b.chunks - {t} == s.chunks - {t};
    assert b.sweeps - {id} == s.sweeps;
  }

  lemma DeletingIsSwept(s: State, a: State, n: State, id: nat, t: Slot, k: Key)
    requires t in s.chunks && s.chunks[t].status == Deleting && s.chunks[t].key == k && SlotOk(s, t) && id !in s.sweeps
    requires a == s.(sweeps := s.sweeps[id := Sweep(k, Deleting, Seen)]) && n == SweepRow(SweepObject(SweepClaim(a, id), id), id)
    ensures n == s.(chunks := s.chunks - {t}, bucket := s.bucket - {k})
  {
    var b := SweepClaim(a, id);
    ClaimsTheDeleting(a, b, id, k);
    assert b.sweeps == s.sweeps[id := Sweep(k, Deleting, Won)] && s.chunks[t := s.chunks[t]] == s.chunks;
    WonIsSwept(s, b, n, id, t, s.chunks[t], Deleting);
  }

  lemma PendingIsSwept(s: State, a: State, n: State, id: nat, t: Slot, k: Key)
    requires t in s.chunks && s.chunks[t].status == Pending && s.chunks[t].key == k && SlotOk(s, t) && id !in s.sweeps
    requires a == s.(sweeps := s.sweeps[id := Sweep(k, Pending, Seen)]) && n == SweepRow(SweepObject(SweepClaim(a, id), id), id)
    ensures n == s.(chunks := s.chunks - {t}, bucket := s.bucket - {k})
  {
    var b := SweepClaim(a, id);
    assert Look(a, k).Has(Pending);
    ClaimsThePending(a, b, id, k);
    assert b.sweeps == s.sweeps[id := Sweep(k, Pending, Won)];
    WonIsSwept(s, b, n, id, t, Chunk(k, Deleting, s.clock), Pending);
  }

  lemma SweptInOrder(s: State, n: State, id: nat, t: Slot)
    requires Slots(s) && id !in s.sweeps && Stale(s, t) && n == Swept(s, id, t)
    ensures n == s.(chunks := s.chunks - {t}, bucket := s.bucket - {s.chunks[t].key})
  {
    var a, k := SweepSelect(s, id, t), s.chunks[t].key;
    SelectsTheStale(s, a, id, t);
    assert SlotOk(s, t);
    if s.chunks[t].status == Deleting { DeletingIsSwept(s, a, n, id, t, k); } else { PendingIsSwept(s, a, n, id, t, k); }
  }

  /** In every reachable state an undisturbed sweep removes exactly a stale row with its object, and touches no ready or recent one. */
  lemma StaleChunksAreSwept(steps: seq<Step>, id: nat, t: Slot)
    ensures var s := Run(INIT, steps);
            id !in s.sweeps ==>
              if Stale(s, t) then Swept(s, id, t) == s.(chunks := s.chunks - {t}, bucket := s.bucket - {s.chunks[t].key})
              else SweepSelect(s, id, t) == s
  {
    var s := Run(INIT, steps);
    EveryRunIsSafe(steps);
    if id !in s.sweeps {
      if Stale(s, t) { SweptInOrder(s, Swept(s, id, t), id, t); } else { SelectsTheStale(s, SweepSelect(s, id, t), id, t); }
    }
  }

  // ---------------------------------------------------------- deletion queue

  /** Queued keys whose time has come and whose rows are neither pending nor ready. */
  predicate Due(s: State, keys: set<Key>, now: Time) { forall k :: k in keys ==> k in s.queue && s.queue[k].next <= now && !Live(s, k) }

  function KeySet(ks: seq<Key>): set<Key> { set k | k in ks }

  /** A pass deletes these objects one by one. */
  function Deleted(s: State, id: nat, ks: seq<Key>): State
    decreases |ks|
  {
    if ks == [] then s else QueueObject(Deleted(s, id, ks[..|ks| - 1]), id, ks[|ks| - 1])
  }

  lemma {:induction false} DeletesOneByOne(s: State, n: State, id: nat, ks: seq<Key>, p: Pass)
    requires id in s.passes && s.passes[id] == p && p.gone == {} && (forall k :: k in ks ==> k in p.keys) && n == Deleted(s, id, ks)
    ensures n == s.(bucket := s.bucket - KeySet(ks), passes := s.passes[id := p.(gone := KeySet(ks))])
    decreases |ks|
  {
    if ks == [] {
      assert KeySet(ks) == {} && s.passes[id := p] == s.passes;
    } else {
      var short, last := ks[..|ks| - 1], ks[|ks| - 1];
      assert ks == short + [last];
      assert KeySet(ks) == KeySet(short) + {last};
      DeletesOneByOne(s, Deleted(s, id, short), id, short, p);
    }
  }

  /** Past their retention the records go; the others are due again in ten minutes. */
  ghost predicate Settles(q: map<Key, Deletion>, n: map<Key, Deletion>, keys: set<Key>, now: Time) {
    && (forall k :: k in n <==> k in q && !(k in keys && q[k].retain <= now))
    && (forall k :: k in n ==> n[k] == if k in keys then Deletion(now + 600_000, q[k].retain) else q[k])
  }

  lemma CommitSettles(s: State, n: State, id: nat, p: Pass)
    requires id in s.passes && s.passes[id] == p && p.gone == p.keys && n == QueueCommit(s, id)
    ensures n == s.(queue := n.queue, passes := s.passes - {id}) && Settles(s.queue, n.queue, p.keys, p.now)
  {
  }

  /** A pass whose object deletes all return removes every object it selected and settles their records. */
  lemma DueObjectsAreDeleted(s: State, n: State, id: nat, ks: seq<Key>, now: Time)
    requires id !in s.passes && now <= s.clock && Due(s, KeySet(ks), now) && |KeySet(ks)| <= 4
    requires n == QueueCommit(Deleted(QueueSelect(s, id, KeySet(ks), now), id, ks), id)
    ensures n == s.(bucket := s.bucket - KeySet(ks), queue := n.queue) && Settles(s.queue, n.queue, KeySet(ks), now)
  {
    var keys := KeySet(ks);
    var p := Pass(now, keys, {});
    var a := QueueSelect(s, id, keys, now);
    assert a == s.(passes := s.passes[id := p]);
    var b := Deleted(a, id, ks);
    DeletesOneByOne(a, b, id, ks, p);
    CommitSettles(b, n, id, p.(gone := keys));
    assert b.passes - {id} == s.passes;
  }

  /** A pass takes keys that are not due for nothing; one that fails puts its keys off for ten minutes and drops no record. */
  lemma PassesOnlyTakeDueKeys(s: State, id: nat, keys: set<Key>, now: Time)
    ensures id !in s.passes && !(now <= s.clock && |keys| <= 4 && Due(s, keys, now)) ==> QueueSelect(s, id, keys, now) == s
  {
  }

  lemma FailedPassesDropNothing(s: State, n: State, id: nat)
    requires id in s.passes && n == QueueThrows(s, id)
    ensures n == s.(queue := n.queue, passes := s.passes - {id}) && n.queue.Keys == s.queue.Keys
    ensures forall k :: k in s.queue ==>
              n.queue[k] == if k in s.passes[id].keys then Deletion(s.passes[id].now + 600_000, s.queue[k].retain) else s.queue[k]
  {
  }

  // ------------------------------------------------------------------- tasks

  /** A task may take exactly a ready, unpurged, unexpired artifact, and counts as active until it ends. */
  lemma TasksTakeReadyArtifacts(s: State, i: nat, a: nat, now: Time)
    requires i !in s.tasks
    ensures var n := ReserveTask(s, i, a, now);
            if now <= s.clock && a in s.artifacts && s.artifacts[a].status == ArtReady && !s.artifacts[a].purged && now < s.artifacts[a].expires
            then n == s.(tasks := s.tasks[i := Use(a, true)]) && EndTask(n, i) == s.(tasks := s.tasks[i := Use(a, false)]) else n == s
  {
  }
}
