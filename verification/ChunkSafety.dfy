/** Every step keeps the chunk invariants and moves keys, slots and artifacts only forward. */
module ChunkSafety {
  import opened Totals
  import opened ChunkSteps
  import opened ChunkInvariants

  // ------------------------------------------------------- actors in flight

  lemma SweepKept(s: State, n: State, w: Sweep)
    requires SweepOk(s, w) && KeysFate(s, n)
    ensures SweepOk(n, w)
  {
    assert KeyFate(Look(s, w.key), Look(n, w.key), s.clock);
  }

  lemma PassKept(s: State, n: State, p: Pass)
    requires PassOk(s, p) && KeysFate(s, n)
    ensures PassOk(n, p)
  {
    forall k | k in p.keys ensures PassKeyOk(n, p, k) {
      assert PassKeyOk(s, p, k) && KeyFate(Look(s, k), Look(n, k), s.clock);
    }
  }

  lemma PurgeKept(s: State, n: State, p: Purge)
    requires PurgeOk(s, p) && KeysFate(s, n) && ArtsFate(s, n)
    ensures PurgeOk(n, p)
  {
    assert ArtFate(s.artifacts[p.art], n.artifacts[p.art]);
    forall t | t in p.rows ensures ListedOk(n, p, t) {
      assert ListedOk(s, p, t) && KeyFate(Look(s, p.rows[t].key), Look(n, p.rows[t].key), s.clock);
    }
  }

  ghost predicate SameSweeps(s: State, n: State, id: nat) {
    forall i :: i in n.sweeps && i != id ==> i in s.sweeps && n.sweeps[i] == s.sweeps[i]
  }
  ghost predicate SamePasses(s: State, n: State, id: nat) {
    forall i :: i in n.passes && i != id ==> i in s.passes && n.passes[i] == s.passes[i]
  }
  ghost predicate SamePurges(s: State, n: State, id: nat) {
    forall i :: i in n.purges && i != id ==> i in s.purges && n.purges[i] == s.purges[i]
  }

  lemma SweepsStand(s: State, n: State)
    requires Actors(s) && KeysFate(s, n) && n.sweeps == s.sweeps
    ensures forall i :: i in n.sweeps ==> SweepOk(n, n.sweeps[i])
  {
    forall i | i in n.sweeps ensures SweepOk(n, n.sweeps[i]) { SweepKept(s, n, s.sweeps[i]); }
  }

  lemma PassesStand(s: State, n: State)
    requires Actors(s) && KeysFate(s, n) && n.passes == s.passes
    ensures forall i :: i in n.passes ==> PassOk(n, n.passes[i])
  {
    forall i | i in n.passes ensures PassOk(n, n.passes[i]) { PassKept(s, n, s.passes[i]); }
  }

  lemma PurgesStand(s: State, n: State)
    requires Actors(s) && KeysFate(s, n) && ArtsFate(s, n) && n.purges == s.purges
    ensures forall i :: i in n.purges ==> PurgeOk(n, n.purges[i])
  {
    forall i | i in n.purges ensures PurgeOk(n, n.purges[i]) { PurgeKept(s, n, s.purges[i]); }
  }

  lemma ActorsStand(s: State, n: State)
    requires Actors(s) && KeysFate(s, n) && ArtsFate(s, n)
    requires n.sweeps == s.sweeps && n.passes == s.passes && n.purges == s.purges
    ensures Actors(n)
  {
    SweepsStand(s, n);
    PassesStand(s, n);
    PurgesStand(s, n);
  }

  /** Only sweep `id` changed, and it is in order. */
  lemma OneSweep(s: State, n: State, id: nat)
    requires Actors(s) && KeysFate(s, n) && ArtsFate(s, n) && SameSweeps(s, n, id) && n.passes == s.passes && n.purges == s.purges
    requires id in n.sweeps ==> SweepOk(n, n.sweeps[id])
    ensures Actors(n)
  {
    forall i | i in n.sweeps ensures SweepOk(n, n.sweeps[i]) { if i != id { SweepKept(s, n, s.sweeps[i]); } }
    PassesStand(s, n);
    PurgesStand(s, n);
  }

  lemma OnePass(s: State, n: State, id: nat)
    requires Actors(s) && KeysFate(s, n) && ArtsFate(s, n) && SamePasses(s, n, id) && n.sweeps == s.sweeps && n.purges == s.purges
    requires id in n.passes ==> PassOk(n, n.passes[id])
    ensures Actors(n)
  {
    forall i | i in n.passes ensures PassOk(n, n.passes[i]) { if i != id { PassKept(s, n, s.passes[i]); } }
    SweepsStand(s, n);
    PurgesStand(s, n);
  }

  lemma OnePurge(s: State, n: State, id: nat)
    requires Actors(s) && KeysFate(s, n) && ArtsFate(s, n) && SamePurges(s, n, id) && n.sweeps == s.sweeps && n.passes == s.passes
    requires id in n.purges ==> PurgeOk(n, n.purges[id])
    ensures Actors(n)
  {
    forall i | i in n.purges ensures PurgeOk(n, n.purges[i]) { if i != id { PurgeKept(s, n, s.purges[i]); } }
    SweepsStand(s, n);
    PassesStand(s, n);
  }

  // ------------------------------------------------------------ still states

  lemma KeysStill(s: State, n: State)
    requires n.uploads == s.uploads && n.chunks == s.chunks && n.bucket == s.bucket && n.queue == s.queue && s.clock <= n.clock
    ensures KeysFate(s, n) && (Keys(s) ==> Keys(n))
  {
    forall k | k in s.uploads ensures KeyFate(Look(s, k), Look(n, k), s.clock) && Look(n, k) == Look(s, k) {
      assert RowOf(n, k) == RowOf(s, k);
    }
  }

  lemma ArtsStill(s: State, n: State)
    requires n.artifacts == s.artifacts
    ensures ArtsFate(s, n)
  {
  }

  lemma SlotsStill(s: State, n: State)
    requires n.chunks == s.chunks
    ensures SlotsFate(s, n)
  {
  }

  // ------------------------------------------------------- artifacts and uses

  lemma ArtsKept(s: State, n: State)
    requires Arts(s) && SlotsFate(s, n) && n.artifacts == s.artifacts
    ensures Arts(n)
  {
    forall a | a in n.artifacts ensures ArtOk(n, a) {
      assert ArtOk(s, a);
      forall part: nat | n.artifacts[a].status == ArtReady && !n.artifacts[a].purged && 1 <= part <= n.artifacts[a].count ensures PartReady(n, a, part) {
        assert PartReady(s, a, part) && SlotFate(s, n, Slot(a, part));
      }
      forall t | n.artifacts[a].status == ArtDeleted && t in n.chunks && t.art == a ensures n.chunks[t].status == Deleting {
        assert SlotFate(s, n, t);
      }
    }
  }

  lemma UsesKept(s: State, n: State)
    requires Uses(s) && n.tasks == s.tasks && n.artifacts == s.artifacts
    ensures Uses(n)
  {
    forall i | i in n.tasks ensures UseOk(n, n.tasks[i]) { assert UseOk(s, s.tasks[i]); }
  }

  // -------------------------------------------------------------- one key

  /** Only key k, its slot, its object and its queue entry differ. */
  ghost predicate OnlyKey(s: State, n: State, k: Key) {
    && k in s.uploads && k in n.uploads && n.uploads[k].slot == s.uploads[k].slot
    && n.artifacts == s.artifacts && n.tasks == s.tasks && n.clock == s.clock
    && n.uploads == s.uploads[k := n.uploads[k]]
    && n.bucket - {k} == s.bucket - {k} && n.queue - {k} == s.queue - {k}
    && n.chunks - {s.uploads[k].slot} == s.chunks - {s.uploads[k].slot}
    && (n.chunks == s.chunks
        || (&& (s.uploads[k].slot in s.chunks ==> s.chunks[s.uploads[k].slot].key == k)
            && (s.uploads[k].slot in n.chunks ==> n.chunks[s.uploads[k].slot].key == k)))
  }

  lemma OtherKey(s: State, n: State, k: Key, j: Key)
    requires OnlyKey(s, n, k) && j in s.uploads && j != k
    ensures j in n.uploads && Look(n, j) == Look(s, j)
  {
    var t := s.uploads[j].slot;
    assert j in n.bucket <==> j in n.bucket - {k};
    assert j in s.bucket <==> j in s.bucket - {k};
    assert j in n.queue <==> j in n.queue - {k};
    assert j in s.queue <==> j in s.queue - {k};
    if t != s.uploads[k].slot {
      assert t in n.chunks <==> t in n.chunks - {s.uploads[k].slot};
      assert t in s.chunks <==> t in s.chunks - {s.uploads[k].slot};
    }
  }

  lemma OneKeyFate(s: State, n: State, k: Key)
    requires Keys(s) && OnlyKey(s, n, k) && KeyOk(Look(n, k)) && KeyFate(Look(s, k), Look(n, k), s.clock)
    ensures KeysFate(s, n) && Keys(n)
  {
    forall j | j in s.uploads ensures j in n.uploads && KeyFate(Look(s, j), Look(n, j), s.clock) && KeyOk(Look(n, j)) {
      if j != k { OtherKey(s, n, k, j); }
    }
    forall j | j in n.bucket ensures j in n.uploads { if j != k { assert j in s.bucket - {k}; } }
    forall j | j in n.queue ensures j in n.uploads { if j != k { assert j in s.queue - {k}; } }
  }

  lemma OneKeySlots(s: State, n: State, k: Key)
    requires Slots(s) && OnlyKey(s, n, k)
    ensures Slots(n)
  {
    forall t | t in n.chunks ensures SlotOk(n, t) {
      if t != s.uploads[k].slot { assert t in s.chunks - {s.uploads[k].slot} && SlotOk(s, t); } else if n.chunks == s.chunks { assert SlotOk(s, t); }
    }
    forall j | j in n.uploads ensures Declared(n.artifacts, n.uploads[j].slot) {
      assert j in s.uploads && Declared(s.artifacts, s.uploads[j].slot);
    }
  }

  lemma OneKeySlotFate(s: State, n: State, k: Key)
    requires OnlyKey(s, n, k) && SlotFate(s, n, s.uploads[k].slot)
    ensures SlotsFate(s, n)
  {
    forall t ensures SlotFate(s, n, t) {
      if t != s.uploads[k].slot {
        assert t in n.chunks <==> t in n.chunks - {s.uploads[k].slot};
        assert t in s.chunks <==> t in s.chunks - {s.uploads[k].slot};
      }
    }
  }

  /** Key k makes one legal move and nothing else changes. */
  ghost predicate KeyMove(s: State, n: State, k: Key) {
    && OnlyKey(s, n, k) && KeyOk(Look(n, k)) && KeyFate(Look(s, k), Look(n, k), s.clock)
    && SlotFate(s, n, s.uploads[k].slot)
  }

  lemma OneKeyKeeps(s: State, n: State, k: Key)
    requires Core(s) && KeyMove(s, n, k)
    ensures Core(n) && Moves(s, n)
  {
    OneKeyFate(s, n, k);
    OneKeySlots(s, n, k);
    OneKeySlotFate(s, n, k);
    ArtsStill(s, n);
    ArtsKept(s, n);
    UsesKept(s, n);
  }

  lemma UploadKeeps(s: State, n: State, k: Key)
    requires Inv(s) && KeyMove(s, n, k)
    requires n.sweeps == s.sweeps && n.passes == s.passes && n.purges == s.purges
    ensures Inv(n) && Moves(s, n)
  {
    OneKeyKeeps(s, n, k);
    ActorsStand(s, n);
  }

  lemma NothingMoves(s: State)
    ensures Moves(s, s)
  {
    KeysStill(s, s);
    ArtsStill(s, s);
    SlotsStill(s, s);
  }
}
