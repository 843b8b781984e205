/** Step by step: uploads, sweeps, queue passes, purges; then every run. */
module ChunkRuns {
  import opened Totals
  import opened ChunkSteps
  import opened ChunkInvariants
  import opened ChunkSafety

  // ----------------------------------------------------------------- uploads

  /** Claiming: a fresh key in a free slot of an open artifact. */
  lemma ClaimOthers(s: State, n: State, k: Key, t: Slot, now: Time, j: Key)
    requires k !in s.uploads && t !in s.chunks && j in s.uploads
    requires n.chunks == s.chunks[t := Chunk(k, Pending, now)] && n.uploads == s.uploads[k := Upload(t, now, Claimed, false)]
    requires n.bucket == s.bucket && n.queue == s.queue
    ensures j in n.uploads && Look(n, j) == Look(s, j)
  {
  }

  lemma ClaimKeys(s: State, n: State, k: Key, t: Slot, now: Time)
    requires Keys(s) && k !in s.uploads && k !in s.bucket && t !in s.chunks && n.clock == s.clock
    requires n.chunks == s.chunks[t := Chunk(k, Pending, now)] && n.uploads == s.uploads[k := Upload(t, now, Claimed, false)]
    requires n.bucket == s.bucket && n.queue == s.queue
    ensures KeysFate(s, n) && Keys(n)
  {
    forall j | j in s.uploads ensures j in n.uploads && Look(n, j) == Look(s, j) { ClaimOthers(s, n, k, t, now, j); }
    forall j | j in n.uploads ensures KeyOk(Look(n, j)) {
      if j != k { assert KeyOk(Look(s, j)); }
    }
  }

  lemma ClaimSlots(s: State, n: State, k: Key, t: Slot, now: Time)
    requires Slots(s) && k !in s.uploads && t !in s.chunks && Declared(s.artifacts, t) && s.artifacts[t.art].status == ArtUploading
    requires n.chunks == s.chunks[t := Chunk(k, Pending, now)] && n.uploads == s.uploads[k := Upload(t, now, Claimed, false)]
    requires n.artifacts == s.artifacts
    ensures Slots(n) && SlotsFate(s, n)
  {
    forall u | u in n.chunks ensures SlotOk(n, u) { if u != t { assert SlotOk(s, u); } }
  }

  lemma ClaimKeeps(s: State, k: Key, t: Slot, now: Time)
    requires Inv(s)
    ensures Inv(ClaimChunk(s, k, t, now)) && Moves(s, ClaimChunk(s, k, t, now))
  {
    var n := ClaimChunk(s, k, t, now);
    if CanClaimChunk(s, k, t, now) {
      ClaimKeys(s, n, k, t, now);
      ClaimSlots(s, n, k, t, now);
      ArtsStill(s, n);
      ArtsKept(s, n);
      UsesKept(s, n);
      ActorsStand(s, n);
    } else {
      NothingMoves(s);
    }
  }

  lemma EnqueueMoves(s: State, n: State, k: Key)
    requires In(s, k, Claimed) && KeyOk(Look(s, k)) && s.clock < s.uploads[k].at + RETENTION && n == EnqueueUpload(s, k)
    ensures KeyMove(s, n, k)
  {
    assert n.queue - {k} == s.queue - {k};
  }

  lemma EnqueueKeeps(s: State, k: Key)
    requires Inv(s)
    ensures Inv(EnqueueUpload(s, k)) && Moves(s, EnqueueUpload(s, k))
  {
    var n := EnqueueUpload(s, k);
    if In(s, k, Claimed) && s.clock < s.uploads[k].at + RETENTION {
      EnqueueMoves(s, n, k);
      UploadKeeps(s, n, k);
    } else {
      NothingMoves(s);
    }
  }

  lemma LandKeeps(s: State, k: Key)
    requires Inv(s)
    ensures Inv(PutLands(s, k)) && Moves(s, PutLands(s, k))
  {
    var n := PutLands(s, k);
    if k in s.uploads && s.uploads[k].pc != Claimed && !s.uploads[k].landed && k in s.queue && s.clock < s.queue[k].retain {
      LandMoves(s, n, k);
      UploadKeeps(s, n, k);
    } else {
      NothingMoves(s);
    }
  }

  lemma LandMoves(s: State, n: State, k: Key)
    requires k in s.uploads && KeyOk(Look(s, k)) && !s.uploads[k].landed && s.uploads[k].pc != Claimed
    requires k in s.queue && s.clock < s.queue[k].retain
    requires n == s.(bucket := s.bucket + {k}, uploads := s.uploads[k := s.uploads[k].(landed := true)])
    ensures KeyMove(s, n, k)
  {
    assert n.bucket - {k} == s.bucket - {k};
  }

  /** Only the program counter of k moves. */
  lemma PcKeeps(s: State, n: State, k: Key, pc: UploadPc)
    requires Inv(s) && k in s.uploads && n == Goes(s, k, pc)
    requires s.uploads[k].pc != Done && s.uploads[k].pc != Claimed && pc != Claimed
    requires pc == Stored ==> s.uploads[k].landed
    requires pc == Stored ==> s.uploads[k].pc == Enqueued
    requires pc == Enqueued ==> s.uploads[k].pc == Enqueued
    ensures Inv(n) && Moves(s, n)
  {
    PcMoves(s, n, k, pc);
    UploadKeeps(s, n, k);
  }

  lemma PcMoves(s: State, n: State, k: Key, pc: UploadPc)
    requires k in s.uploads && KeyOk(Look(s, k)) && n == Goes(s, k, pc)
    requires s.uploads[k].pc != Done && s.uploads[k].pc != Claimed && pc != Claimed
    requires pc == Stored ==> s.uploads[k].landed
    requires pc == Stored ==> s.uploads[k].pc == Enqueued
    requires pc == Enqueued ==> s.uploads[k].pc == Enqueued
    ensures KeyMove(s, n, k)
  {
  }

  lemma PutReturnsKeeps(s: State, k: Key)
    requires Inv(s)
    ensures Inv(PutSucceeds(s, k)) && Moves(s, PutSucceeds(s, k))
    ensures Inv(PutThrows(s, k)) && Moves(s, PutThrows(s, k))
    ensures Inv(FinalizeThrows(s, k)) && Moves(s, FinalizeThrows(s, k))
  {
    NothingMoves(s);
    if In(s, k, Enqueued) {
      PcKeeps(s, PutThrows(s, k), k, PutFailed);
      if s.uploads[k].landed { PcKeeps(s, PutSucceeds(s, k), k, Stored); }
    }
    if In(s, k, Stored) { PcKeeps(s, FinalizeThrows(s, k), k, Undoing); }
  }

  /** The uploader removes its own unfinished row. */
  lemma DropRowKeeps(s: State, n: State, k: Key)
    requires Inv(s) && k in s.uploads && s.uploads[k].pc != Claimed && s.uploads[k].pc != Done
    requires RowOf(s, k).Some? && !Look(s, k).Has(Ready)
    requires n == Goes(s, k, Done).(chunks := WithoutRow(s, k))
    ensures Inv(n) && Moves(s, n)
  {
    DropMoves(s, n, k);
    UploadKeeps(s, n, k);
  }

  lemma DropMoves(s: State, n: State, k: Key)
    requires k in s.uploads && KeyOk(Look(s, k)) && s.uploads[k].pc != Claimed && s.uploads[k].pc != Done
    requires RowOf(s, k).Some? && !Look(s, k).Has(Ready)
    requires n == Goes(s, k, Done).(chunks := WithoutRow(s, k))
    ensures KeyMove(s, n, k)
  {
    assert n.chunks - {s.uploads[k].slot} == s.chunks - {s.uploads[k].slot};
  }

  lemma DropKeeps(s: State, k: Key)
    requires Inv(s)
    ensures Inv(DropFailed(s, k)) && Moves(s, DropFailed(s, k))
    ensures Inv(UndoRow(s, k)) && Moves(s, UndoRow(s, k))
  {
    NothingMoves(s);
    if In(s, k, PutFailed) {
      if Look(s, k).Has(Pending) { DropRowKeeps(s, DropFailed(s, k), k); } else { PcKeeps(s, DropFailed(s, k), k, Done); }
    }
    if In(s, k, UndoingRow) {
      if Look(s, k).Has(Pending) || Look(s, k).Has(Deleting) { DropRowKeeps(s, UndoRow(s, k), k); } else { PcKeeps(s, UndoRow(s, k), k, Done); }
    }
  }

  lemma FinalizeMoves(s: State, n: State, k: Key)
    requires k in s.uploads && KeyOk(Look(s, k)) && CanFinalize(s, k) && n == Finalize(s, k)
    ensures KeyMove(s, n, k)
  {
    assert n.queue - {k} == s.queue - {k} && n.chunks - {s.uploads[k].slot} == s.chunks - {s.uploads[k].slot};
  }

  lemma FinalizeKeeps(s: State, k: Key)
    requires Inv(s)
    ensures Inv(Finalize(s, k)) && Moves(s, Finalize(s, k))
  {
    var n := Finalize(s, k);
    if CanFinalize(s, k) {
      FinalizeMoves(s, n, k);
      UploadKeeps(s, n, k);
    } else if In(s, k, Stored) {
      PcKeeps(s, n, k, Undoing);
    } else {
      NothingMoves(s);
    }
  }

  lemma UndoObjectMoves(s: State, n: State, k: Key)
    requires In(s, k, Undoing) && KeyOk(Look(s, k)) && n == UndoObject(s, k)
    ensures KeyMove(s, n, k)
  {
    assert n.bucket - {k} == s.bucket - {k};
  }

  lemma UndoObjectKeeps(s: State, k: Key)
    requires Inv(s)
    ensures Inv(UndoObject(s, k)) && Moves(s, UndoObject(s, k))
  {
    var n := UndoObject(s, k);
    if In(s, k, Undoing) {
      UndoObjectMoves(s, n, k);
      UploadKeeps(s, n, k);
    } else {
      NothingMoves(s);
    }
  }

  lemma UndoThrowsMoves(s: State, n: State, k: Key, removed: bool, recorded: bool)
    requires In(s, k, Undoing) && KeyOk(Look(s, k)) && n == UndoThrows(s, k, removed, recorded)
    ensures KeyMove(s, n, k)
  {
    assert n.bucket - {k} == s.bucket - {k} && n.chunks - {s.uploads[k].slot} == s.chunks - {s.uploads[k].slot};
  }

  lemma UndoThrowsKeeps(s: State, k: Key, removed: bool, recorded: bool)
    requires Inv(s)
    ensures Inv(UndoThrows(s, k, removed, recorded)) && Moves(s, UndoThrows(s, k, removed, recorded))
  {
    var n := UndoThrows(s, k, removed, recorded);
    if In(s, k, Undoing) {
      UndoThrowsMoves(s, n, k, removed, recorded);
      UploadKeeps(s, n, k);
    } else {
      NothingMoves(s);
    }
  }

  lemma UploadStepKeeps(s: State, k: Key, e: UploadStep)
    requires Inv(s)
    ensures Inv(ApplyUpload(s, k, e)) && Moves(s, ApplyUpload(s, k, e))
  {
    match e
    case ClaimStep(t, now) => ClaimKeeps(s, k, t, now);
    case EnqueueStep => EnqueueKeeps(s, k);
    case LandStep => LandKeeps(s, k);
    case PutOkStep => PutReturnsKeeps(s, k);
    case PutThrowsStep => PutReturnsKeeps(s, k);
    case DropStep => DropKeeps(s, k);
    case FinalizeStep => FinalizeKeeps(s, k);
    case FinalizeThrowsStep => PutReturnsKeeps(s, k);
    case UndoObjectStep => UndoObjectKeeps(s, k);
    case UndoRowStep => DropKeeps(s, k);
    case UndoThrowsStep(removed, recorded) => UndoThrowsKeeps(s, k, removed, recorded);
  }

  // ------------------------------------------------------------------ sweeps

  lemma StillCore(s: State, n: State)
    requires Core(s) && n.uploads == s.uploads && n.chunks == s.chunks && n.bucket == s.bucket && n.queue == s.queue
    requires s.clock <= n.clock && n.artifacts == s.artifacts && n.tasks == s.tasks
    ensures Core(n) && Moves(s, n)
  {
    KeysStill(s, n);
    SlotsStill(s, n);
    ArtsStill(s, n);
    ArtsKept(s, n);
    UsesKept(s, n);
    assert forall t :: t in n.chunks ==> SlotOk(s, t);
  }

  lemma SelectedSweep(s: State, n: State, id: nat, w: Sweep)
    requires Inv(s) && n == s.(sweeps := s.sweeps[id := w]) && SweepOk(s, w)
    ensures Inv(n) && Moves(s, n)
  {
    StillCore(s, n);
    SweepKept(s, n, w);
    OneSweep(s, n, id);
  }

  lemma SweepSelectKeeps(s: State, id: nat, t: Slot)
    requires Inv(s)
    ensures Inv(SweepSelect(s, id, t)) && Moves(s, SweepSelect(s, id, t))
  {
    if id !in s.sweeps && t in s.chunks && s.chunks[t].status != Ready && s.chunks[t].at <= s.clock - RETRY {
      assert SlotOk(s, t);
      SelectedSweep(s, SweepSelect(s, id, t), id, Sweep(s.chunks[t].key, s.chunks[t].status, Seen));
    } else {
      NothingMoves(s);
    }
  }

  lemma SweepStopsKeeps(s: State, id: nat)
    requires Inv(s)
    ensures Inv(SweepStops(s, id)) && Moves(s, SweepStops(s, id))
  {
    var n := SweepStops(s, id);
    StillCore(s, n);
    OneSweep(s, n, id);
  }

  /** One sweep and the key it owns. */
  lemma SweepActs(s: State, n: State, id: nat, k: Key)
    requires Inv(s) && KeyMove(s, n, k)
    requires n.passes == s.passes && n.purges == s.purges && SameSweeps(s, n, id)
    requires id in n.sweeps ==> n.sweeps[id].key == k && !Live(n, k)
    ensures Inv(n) && Moves(s, n)
  {
    OneKeyKeeps(s, n, k);
    OneSweep(s, n, id);
  }

  lemma SweepWins(s: State, n: State, id: nat, w: Sweep)
    requires Inv(s) && w.key in s.uploads && Look(s, w.key).Has(Pending)
    requires n == s.(chunks := s.chunks[s.uploads[w.key].slot := Chunk(w.key, Deleting, s.clock)], sweeps := s.sweeps[id := w])
    ensures Inv(n) && Moves(s, n)
  {
    WinningMoves(s, n, id, w);
    SweepActs(s, n, id, w.key);
  }

  lemma WinningMoves(s: State, n: State, id: nat, w: Sweep)
    requires w.key in s.uploads && Look(s, w.key).Has(Pending) && KeyOk(Look(s, w.key))
    requires n == s.(chunks := s.chunks[s.uploads[w.key].slot := Chunk(w.key, Deleting, s.clock)], sweeps := s.sweeps[id := w])
    ensures KeyMove(s, n, w.key) && !Live(n, w.key)
  {
    assert n.chunks - {s.uploads[w.key].slot} == s.chunks - {s.uploads[w.key].slot};
  }

  lemma SweepClaims(s: State, n: State, id: nat, w: Sweep)
    requires Inv(s) && SweepOk(s, w) && w.pc == Seen && id in s.sweeps && s.sweeps[id] == w && n == SweepClaim(s, id)
    ensures Inv(n) && Moves(s, n)
  {
    if w.seen == Deleting {
      SelectedSweep(s, n, id, w.(pc := Won));
    } else if Look(s, w.key).Has(Pending) {
      SweepWins(s, n, id, w.(pc := Won));
    } else {
      SweepStopsKeeps(s, id);
    }
  }

  lemma SweepClaimKeeps(s: State, id: nat)
    requires Inv(s)
    ensures Inv(SweepClaim(s, id)) && Moves(s, SweepClaim(s, id))
  {
    if id in s.sweeps && s.sweeps[id].pc == Seen {
      assert SweepOk(s, s.sweeps[id]);
      SweepClaims(s, SweepClaim(s, id), id, s.sweeps[id]);
    } else {
      NothingMoves(s);
    }
  }

  /** Deleting the object of a dead key. */
  lemma DeletingMoves(s: State, n: State, k: Key)
    requires k in s.uploads && KeyOk(Look(s, k)) && !Live(s, k)
    requires n == s.(bucket := s.bucket - {k}, sweeps := n.sweeps, passes := n.passes, purges := n.purges)
    ensures KeyMove(s, n, k) && !Live(n, k)
  {
    assert n.bucket - {k} == s.bucket - {k};
  }

  lemma SweepObjectKeeps(s: State, id: nat)
    requires Inv(s)
    ensures Inv(SweepObject(s, id)) && Moves(s, SweepObject(s, id))
  {
    var n := SweepObject(s, id);
    if id in s.sweeps && s.sweeps[id].pc == Won {
      var k := s.sweeps[id].key;
      assert SweepOk(s, s.sweeps[id]);
      DeletingMoves(s, n, k);
      SweepActs(s, n, id, k);
    } else {
      NothingMoves(s);
    }
  }

  lemma SweptRow(s: State, n: State, id: nat, k: Key)
    requires Inv(s) && k in s.uploads && Look(s, k).Has(Deleting)
    requires n == s.(chunks := WithoutRow(s, k), sweeps := s.sweeps - {id})
    ensures Inv(n) && Moves(s, n)
  {
    SweptRowMoves(s, n, id, k);
    SweepActs(s, n, id, k);
  }

  lemma SweptRowMoves(s: State, n: State, id: nat, k: Key)
    requires k in s.uploads && KeyOk(Look(s, k)) && Look(s, k).Has(Deleting)
    requires n == s.(chunks := WithoutRow(s, k), sweeps := s.sweeps - {id})
    ensures KeyMove(s, n, k)
  {
    assert n.chunks - {s.uploads[k].slot} == s.chunks - {s.uploads[k].slot};
  }

  lemma SweepRowKeeps(s: State, id: nat)
    requires Inv(s)
    ensures Inv(SweepRow(s, id)) && Moves(s, SweepRow(s, id))
  {
    if id in s.sweeps && s.sweeps[id].pc == Removed && s.sweeps[id].key in s.uploads {
      if Look(s, s.sweeps[id].key).Has(Deleting) { SweptRow(s, SweepRow(s, id), id, s.sweeps[id].key); } else { SweepStopsKeeps(s, id); }
    } else {
      NothingMoves(s);
    }
  }

  // ---------------------------------------------------------- deletion queue

  lemma SelectedPass(s: State, n: State, id: nat, p: Pass)
    requires Inv(s) && n == s.(passes := s.passes[id := p]) && PassOk(s, p)
    ensures Inv(n) && Moves(s, n)
  {
    StillCore(s, n);
    PassKept(s, n, p);
    OnePass(s, n, id);
  }

  lemma SelectedKeys(s: State, keys: set<Key>, now: Time)
    requires Keys(s) && now <= s.clock && Selectable(s, keys, now)
    ensures PassOk(s, Pass(now, keys, {}))
  {
    forall k | k in keys ensures PassKeyOk(s, Pass(now, keys, {}), k) {}
  }

  lemma QueueSelectKeeps(s: State, id: nat, keys: set<Key>, now: Time)
    requires Inv(s)
    ensures Inv(QueueSelect(s, id, keys, now)) && Moves(s, QueueSelect(s, id, keys, now))
  {
    if id !in s.passes && now <= s.clock && |keys| <= BATCH && Selectable(s, keys, now) {
      SelectedKeys(s, keys, now);
      SelectedPass(s, QueueSelect(s, id, keys, now), id, Pass(now, keys, {}));
    } else {
      NothingMoves(s);
    }
  }

  lemma PassDeletes(s: State, n: State, id: nat, p: Pass, k: Key)
    requires Inv(s) && PassOk(s, p) && k in p.keys
    requires n == s.(bucket := s.bucket - {k}, passes := s.passes[id := p.(gone := p.gone + {k})])
    ensures Inv(n) && Moves(s, n)
  {
    assert PassKeyOk(s, p, k);
    DeletingMoves(s, n, k);
    OneKeyKeeps(s, n, k);
    PassKept(s, n, p);
    PassGone(n, p, k);
    OnePass(s, n, id);
  }

  lemma PassGone(s: State, p: Pass, k: Key)
    requires PassOk(s, p) && k in p.keys && k !in s.bucket
    ensures PassOk(s, p.(gone := p.gone + {k}))
  {
    forall j | j in p.keys ensures PassKeyOk(s, p.(gone := p.gone + {k}), j) { assert PassKeyOk(s, p, j); }
  }

  lemma QueueObjectKeeps(s: State, id: nat, k: Key)
    requires Inv(s)
    ensures Inv(QueueObject(s, id, k)) && Moves(s, QueueObject(s, id, k))
  {
    if id in s.passes && k in s.passes[id].keys {
      assert PassOk(s, s.passes[id]);
      PassDeletes(s, QueueObject(s, id, k), id, s.passes[id], k);
    } else {
      NothingMoves(s);
    }
  }

  /** A queue pass ends: what it drops from the queue is no longer stored anywhere. */
  ghost predicate QueueShrinks(s: State, n: State) {
    && n.uploads == s.uploads && n.chunks == s.chunks && n.bucket == s.bucket && n.clock == s.clock
    && (forall k :: k in n.queue ==> k in s.queue && n.queue[k].retain == s.queue[k].retain)
    && (forall k :: k in s.queue && k !in n.queue ==> k !in s.bucket)
  }

  lemma QueueShrinksKeys(s: State, n: State)
    requires Keys(s) && QueueShrinks(s, n)
    ensures Keys(n) && KeysFate(s, n)
  {
    forall k | k in s.uploads ensures KeyOk(Look(n, k)) && KeyFate(Look(s, k), Look(n, k), s.clock) {
      assert KeyOk(Look(s, k)) && RowOf(n, k) == RowOf(s, k);
    }
  }

  lemma PassEnds(s: State, n: State, id: nat)
    requires Inv(s) && QueueShrinks(s, n) && n.artifacts == s.artifacts && n.tasks == s.tasks
    requires n.sweeps == s.sweeps && n.purges == s.purges && n.passes == s.passes - {id}
    ensures Inv(n) && Moves(s, n)
  {
    QueueShrinksKeys(s, n);
    SlotsStill(s, n);
    ArtsStill(s, n);
    ArtsKept(s, n);
    UsesKept(s, n);
    assert forall t :: t in n.chunks ==> SlotOk(s, t);
    OnePass(s, n, id);
  }

  lemma QueueCommitKeeps(s: State, id: nat)
    requires Inv(s)
    ensures Inv(QueueCommit(s, id)) && Moves(s, QueueCommit(s, id))
  {
    var n := QueueCommit(s, id);
    if id in s.passes && s.passes[id].gone == s.passes[id].keys {
      assert PassOk(s, s.passes[id]);
      forall k | k in s.queue && k !in n.queue ensures k !in s.bucket { assert PassKeyOk(s, s.passes[id], k); }
      PassEnds(s, n, id);
    } else {
      NothingMoves(s);
    }
  }

  lemma QueueThrowsKeeps(s: State, id: nat)
    requires Inv(s)
    ensures Inv(QueueThrows(s, id)) && Moves(s, QueueThrows(s, id))
  {
    if id in s.passes { PassEnds(s, QueueThrows(s, id), id); } else { NothingMoves(s); }
  }
}
