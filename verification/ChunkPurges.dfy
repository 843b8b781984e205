/** Purge, completion and tasks keep the chunk invariants; hence every run does. */
module ChunkPurges {
  import opened Totals
  import opened ChunkSteps
  import opened ChunkInvariants
  import opened ChunkSafety
  import opened ChunkRuns

  // ------------------------------------------------------------- purge claim

  lemma ClaimedArts(s: State, n: State, a: nat, now: Time)
    requires Arts(s) && a in s.artifacts && n.chunks == s.chunks
    requires n.artifacts == s.artifacts[a := s.artifacts[a].(purged := true, expires := now)]
    ensures Arts(n) && ArtsFate(s, n)
  {
    forall b | b in n.artifacts ensures ArtOk(n, b) {
      assert ArtOk(s, b);
      forall part: nat | n.artifacts[b].status == ArtReady && !n.artifacts[b].purged && 1 <= part <= n.artifacts[b].count
        ensures PartReady(n, b, part) { assert PartReady(s, b, part); }
    }
  }

  lemma ClaimedUses(s: State, n: State, a: nat, now: Time)
    requires Uses(s) && a in s.artifacts && !InUse(s, a) && n.tasks == s.tasks
    requires n.artifacts == s.artifacts[a := s.artifacts[a].(purged := true, expires := now)]
    ensures Uses(n)
  {
    forall i | i in n.tasks ensures UseOk(n, n.tasks[i]) { assert UseOk(s, s.tasks[i]); }
  }

  lemma DeclaredStays(s: State, n: State)
    requires Slots(s) && ArtsFate(s, n) && n.chunks == s.chunks && n.uploads == s.uploads
    ensures Slots(n)
  {
    forall t | t in n.chunks ensures SlotOk(n, t) { assert SlotOk(s, t); }
    forall k | k in n.uploads ensures Declared(n.artifacts, n.uploads[k].slot) {
      assert Declared(s.artifacts, s.uploads[k].slot) && ArtFate(s.artifacts[s.uploads[k].slot.art], n.artifacts[s.uploads[k].slot.art]);
    }
  }

  lemma PurgeClaimKeeps(s: State, id: nat, a: nat, now: Time)
    requires Inv(s)
    ensures Inv(PurgeClaim(s, id, a, now)) && Moves(s, PurgeClaim(s, id, a, now))
  {
    if id !in s.purges && a in s.artifacts && now <= s.clock && !InUse(s, a) {
      var n := PurgeClaim(s, id, a, now);
      KeysStill(s, n);
      SlotsStill(s, n);
      ClaimedArts(s, n, a, now);
      ClaimedUses(s, n, a, now);
      DeclaredStays(s, n);
      OnePurge(s, n, id);
    } else {
      NothingMoves(s);
    }
  }

  // ------------------------------------------------------------ purge select

  lemma SelectedPurge(s: State, n: State, id: nat, p: Purge)
    requires Inv(s) && n == s.(purges := s.purges[id := p]) && PurgeOk(s, p)
    ensures Inv(n) && Moves(s, n)
  {
    StillCore(s, n);
    PurgeKept(s, n, p);
    OnePurge(s, n, id);
  }

  lemma ListedRows(s: State, p: Purge, ts: set<Slot>)
    requires Slots(s) && PurgeOk(s, p) && ts <= RowsOf(s.chunks, p.art)
    ensures PurgeOk(s, p.(rows := map t | t in ts && t in s.chunks :: s.chunks[t], pc := Listed))
  {
    var q := p.(rows := map t | t in ts && t in s.chunks :: s.chunks[t], pc := Listed);
    forall t | t in q.rows ensures ListedOk(s, q, t) { assert SlotOk(s, t); }
  }

  lemma PurgeSelectKeeps(s: State, id: nat, ts: set<Slot>)
    requires Inv(s)
    ensures Inv(PurgeSelect(s, id, ts)) && Moves(s, PurgeSelect(s, id, ts))
  {
    if id in s.purges && s.purges[id].pc == Owned && FirstRows(s.chunks, s.purges[id].art, ts) {
      var n := PurgeSelect(s, id, ts);
      assert PurgeOk(s, s.purges[id]);
      ListedRows(s, s.purges[id], ts);
      SelectedPurge(s, n, id, n.purges[id]);
    } else {
      NothingMoves(s);
    }
  }

  // --------------------------------------------------------- purge tombstone

  ghost predicate Buried(s: State, n: State, p: Purge) {
    && n.uploads == s.uploads && n.bucket == s.bucket && n.clock == s.clock && s.clock < p.now + RETENTION
    && n.queue == EnqueueAll(s.queue, KeysOf(p.rows), p.now, p.now + RETENTION)
    && n.chunks == Tombstone(s.chunks, p.rows)
  }

  /** A tombstoned generation is queued in the same batch, with retention left to run. */
  lemma BuriedKey(s: State, n: State, p: Purge, k: Key)
    requires Buried(s, n, p) && k in s.uploads && KeyOk(Look(s, k))
    ensures KeyOk(Look(n, k)) && KeyFate(Look(s, k), Look(n, k), s.clock)
  {
    var t := s.uploads[k].slot;
    if t in s.chunks && s.chunks[t].key == k && SameGeneration(p.rows, s.chunks, t) {
      assert k in KeysOf(p.rows);
    }
  }

  lemma BuriedKeys(s: State, n: State, p: Purge)
    requires Keys(s) && PurgeOk(s, p) && Buried(s, n, p)
    ensures Keys(n) && KeysFate(s, n)
  {
    forall k | k in s.uploads ensures KeyOk(Look(n, k)) && KeyFate(Look(s, k), Look(n, k), s.clock) { BuriedKey(s, n, p, k); }
    forall k | k in n.queue ensures k in n.uploads {
      if k in KeysOf(p.rows) {
        var t :| t in p.rows && p.rows[t].key == k;
        assert ListedOk(s, p, t);
      }
    }
  }

  lemma BuriedSlots(s: State, n: State, p: Purge)
    requires Slots(s) && PurgeOk(s, p) && Buried(s, n, p) && n.artifacts == s.artifacts
    ensures Slots(n) && SlotsFate(s, n)
  {
    forall t | t in n.chunks ensures SlotOk(n, t) { assert SlotOk(s, t); }
    forall t ensures SlotFate(s, n, t) {
      if SameGeneration(p.rows, s.chunks, t) { assert ListedOk(s, p, t); }
    }
  }

  /** Afterwards every listed key is dead. */
  lemma BuriedPurge(s: State, n: State, p: Purge)
    requires PurgeOk(s, p) && Buried(s, n, p) && n.artifacts == s.artifacts
    ensures PurgeOk(n, p.(pc := Tombstoned))
  {
    var q := p.(pc := Tombstoned);
    forall t | t in q.rows ensures ListedOk(n, q, t) { assert ListedOk(s, p, t); }
  }

  ghost predicate Elsewhere(s: State, n: State) {
    n.artifacts == s.artifacts && n.tasks == s.tasks && n.sweeps == s.sweeps && n.passes == s.passes
  }

  lemma TombstoneShape(s: State, n: State, id: nat)
    requires CanTombstone(s, id) && n == PurgeTombstone(s, id)
    ensures Buried(s, n, s.purges[id]) && Elsewhere(s, n) && n.purges == s.purges[id := s.purges[id].(pc := Tombstoned)]
  {
  }

  lemma BurialCore(s: State, n: State, p: Purge)
    requires Core(s) && PurgeOk(s, p) && Buried(s, n, p) && Elsewhere(s, n)
    ensures Core(n) && Moves(s, n)
  {
    BuriedKeys(s, n, p);
    BuriedSlots(s, n, p);
    ArtsStill(s, n);
    ArtsKept(s, n);
    UsesKept(s, n);
  }

  lemma BurialKeeps(s: State, n: State, id: nat, p: Purge)
    requires Inv(s) && PurgeOk(s, p) && Buried(s, n, p) && Elsewhere(s, n) && n.purges == s.purges[id := p.(pc := Tombstoned)]
    ensures Inv(n) && Moves(s, n)
  {
    BurialCore(s, n, p);
    BuriedPurge(s, n, p);
    OnePurge(s, n, id);
  }

  lemma PurgeInOrder(s: State, id: nat)
    requires Actors(s) && id in s.purges
    ensures PurgeOk(s, s.purges[id])
  {
  }

  // ------------------------------------------------- object delete and commit

  lemma PurgeDeletes(s: State, n: State, id: nat, p: Purge, k: Key)
    requires Inv(s) && PurgeOk(s, p) && p.pc == Tombstoned && k in KeysOf(p.rows)
    requires n == s.(bucket := s.bucket - {k}, purges := s.purges[id := p.(gone := p.gone + {k})])
    ensures Inv(n) && Moves(s, n)
  {
    var t :| t in p.rows && p.rows[t].key == k;
    assert ListedOk(s, p, t);
    DeletingMoves(s, n, k);
    OneKeyKeeps(s, n, k);
    PurgeKept(s, n, p);
    GoneIsBookkeeping(n, p, p.gone + {k});
    OnePurge(s, n, id);
  }

  lemma GoneIsBookkeeping(s: State, p: Purge, gone: set<Key>)
    requires PurgeOk(s, p)
    ensures PurgeOk(s, p.(gone := gone))
  {
    forall t | t in p.rows ensures ListedOk(s, p.(gone := gone), t) { assert ListedOk(s, p, t); }
  }

  lemma PurgeObjectKeeps(s: State, id: nat, k: Key)
    requires Inv(s)
    ensures Inv(PurgeObject(s, id, k)) && Moves(s, PurgeObject(s, id, k))
  {
    if id in s.purges && s.purges[id].pc == Tombstoned && k in KeysOf(s.purges[id].rows) {
      assert PurgeOk(s, s.purges[id]);
      PurgeDeletes(s, PurgeObject(s, id, k), id, s.purges[id], k);
    } else {
      NothingMoves(s);
    }
  }

  /** Only rows of dead generations go. */
  ghost predicate DeadRowsGo(s: State, n: State) {
    && n.uploads == s.uploads && n.bucket == s.bucket && n.clock == s.clock && n.queue == s.queue
    && (forall t :: t in n.chunks ==> t in s.chunks && n.chunks[t] == s.chunks[t])
    && (forall t :: t in s.chunks && t !in n.chunks ==> s.chunks[t].status == Deleting)
  }

  lemma DeadRowsKeys(s: State, n: State)
    requires Keys(s) && DeadRowsGo(s, n)
    ensures Keys(n) && KeysFate(s, n) && SlotsFate(s, n)
  {
    forall k | k in s.uploads ensures KeyOk(Look(n, k)) && KeyFate(Look(s, k), Look(n, k), s.clock) {
      assert KeyOk(Look(s, k));
    }
  }

  lemma PurgedRowsAreDead(s: State, p: Purge, t: Slot)
    requires Slots(s) && PurgeOk(s, p) && p.pc == Tombstoned && SameGeneration(p.rows, s.chunks, t)
    ensures s.chunks[t].status == Deleting
  {
    assert ListedOk(s, p, t) && SlotOk(s, t);
  }

  lemma FinalizedArts(s: State, n: State, a: nat)
    requires Arts(s) && a in s.artifacts && s.artifacts[a].purged && SlotsFate(s, n)
    requires n.artifacts == Finalized(s.artifacts, n.chunks, a) && DeadRowsGo(s, n)
    ensures Arts(n) && ArtsFate(s, n)
  {
    forall b | b in n.artifacts ensures ArtOk(n, b) {
      assert ArtOk(s, b);
      forall part: nat | n.artifacts[b].status == ArtReady && !n.artifacts[b].purged && 1 <= part <= n.artifacts[b].count
        ensures PartReady(n, b, part) { assert PartReady(s, b, part) && SlotFate(s, n, Slot(b, part)); }
      forall t | n.artifacts[b].status == ArtDeleted && t in n.chunks && t.art == b ensures n.chunks[t].status == Deleting {
        assert t in RowsOf(n.chunks, b);
      }
    }
  }

  lemma FinalizedUses(s: State, n: State, a: nat)
    requires Uses(s) && a in s.artifacts && s.artifacts[a].purged && n.tasks == s.tasks
    requires n.artifacts == Finalized(s.artifacts, n.chunks, a)
    ensures Uses(n)
  {
    forall i | i in n.tasks ensures UseOk(n, n.tasks[i]) { assert UseOk(s, s.tasks[i]); }
  }

  lemma FinalizedSlots(s: State, n: State)
    requires Slots(s) && DeadRowsGo(s, n) && ArtsFate(s, n)
    ensures Slots(n)
  {
    forall t | t in n.chunks ensures SlotOk(n, t) { assert SlotOk(s, t); }
    forall k | k in n.uploads ensures Declared(n.artifacts, n.uploads[k].slot) {
      assert Declared(s.artifacts, s.uploads[k].slot) && ArtFate(s.artifacts[s.uploads[k].slot.art], n.artifacts[s.uploads[k].slot.art]);
    }
  }

  lemma CommitKeeps(s: State, n: State, id: nat, p: Purge)
    requires Inv(s) && PurgeOk(s, p) && DeadRowsGo(s, n) && n.artifacts == Finalized(s.artifacts, n.chunks, p.art)
    requires n.tasks == s.tasks && n.sweeps == s.sweeps && n.passes == s.passes && n.purges == s.purges - {id}
    ensures Inv(n) && Moves(s, n)
  {
    DeadRowsKeys(s, n);
    FinalizedArts(s, n, p.art);
    FinalizedUses(s, n, p.art);
    FinalizedSlots(s, n);
    OnePurge(s, n, id);
  }

  lemma PurgeCommitKeeps(s: State, id: nat)
    requires Inv(s)
    ensures Inv(PurgeCommit(s, id)) && Moves(s, PurgeCommit(s, id))
  {
    if id in s.purges && s.purges[id].pc == Tombstoned && s.purges[id].gone == KeysOf(s.purges[id].rows) {
      var n, p := PurgeCommit(s, id), s.purges[id];
      assert PurgeOk(s, p);
      forall t | t in s.chunks && t !in n.chunks ensures s.chunks[t].status == Deleting { PurgedRowsAreDead(s, p, t); }
      CommitKeeps(s, n, id, p);
    } else {
      NothingMoves(s);
    }
  }

  lemma PurgeStopsKeeps(s: State, id: nat)
    requires Inv(s)
    ensures Inv(PurgeStops(s, id)) && Moves(s, PurgeStops(s, id))
  {
    var n := PurgeStops(s, id);
    StillCore(s, n);
    OnePurge(s, n, id);
  }

  lemma CleanStepKeeps(s: State, id: nat, e: CleanStep)
    requires Inv(s)
    ensures Inv(ApplyClean(s, id, e)) && Moves(s, ApplyClean(s, id, e))
  {
    match e
    case SweepSelectStep(t) => SweepSelectKeeps(s, id, t);
    case SweepClaimStep => SweepClaimKeeps(s, id);
    case SweepObjectStep => SweepObjectKeeps(s, id);
    case SweepRowStep => SweepRowKeeps(s, id);
    case SweepStopsStep => SweepStopsKeeps(s, id);
    case QueueSelectStep(keys, now) => QueueSelectKeeps(s, id, keys, now);
    case QueueObjectStep(k) => QueueObjectKeeps(s, id, k);
    case QueueCommitStep => QueueCommitKeeps(s, id);
    case QueueThrowsStep => QueueThrowsKeeps(s, id);
    case PurgeClaimStep(a, now) => PurgeClaimKeeps(s, id, a, now);
    case PurgeSelectStep(ts) => PurgeSelectKeeps(s, id, ts);
    case PurgeTombstoneStep =>
      if CanTombstone(s, id) {
        PurgeInOrder(s, id);
        TombstoneShape(s, PurgeTombstone(s, id), id);
        BurialKeeps(s, PurgeTombstone(s, id), id, s.purges[id]);
      } else {
        NothingMoves(s);
      }
    case PurgeObjectStep(k) => PurgeObjectKeeps(s, id, k);
    case PurgeCommitStep => PurgeCommitKeeps(s, id);
    case PurgeStopsStep => PurgeStopsKeeps(s, id);
  }

  // ------------------------------------------------------ artifacts and tasks

  function Numbered(a: nat, n: nat): (r: set<Slot>)
    ensures forall t :: t in r <==> t.art == a && 1 <= t.part <= n
    ensures |r| == n
  {
    if n == 0 then {} else Numbered(a, n - 1) + {Slot(a, n)}
  }

  lemma FullHouse<T>(xs: set<T>, ys: set<T>)
    requires xs <= ys && |xs| == |ys|
    ensures xs == ys
  {
    assert |ys - xs| == |ys| - |xs| by { assert ys == xs + (ys - xs); }
  }

  /** Counting is enough: as many ready rows as parts means every part is ready. */
  lemma EveryPartReady(s: State, a: nat)
    requires Slots(s) && a in s.artifacts && |ReadyRows(s, a)| == s.artifacts[a].count
    ensures forall part: nat :: 1 <= part <= s.artifacts[a].count ==> PartReady(s, a, part)
  {
    var all := Numbered(a, s.artifacts[a].count);
    forall t | t in ReadyRows(s, a) ensures t in all {
      assert SlotOk(s, t) && Declared(s.artifacts, s.uploads[s.chunks[t].key].slot);
    }
    FullHouse(ReadyRows(s, a), all);
    forall part: nat | 1 <= part <= s.artifacts[a].count ensures PartReady(s, a, part) {
      assert Slot(a, part) in all;
    }
  }

  lemma CompletedArts(s: State, n: State, a: nat)
    requires Arts(s) && Slots(s) && a in s.artifacts && s.artifacts[a].status == ArtUploading
    requires |ReadyRows(s, a)| == s.artifacts[a].count && n.chunks == s.chunks
    requires n.artifacts == s.artifacts[a := s.artifacts[a].(status := ArtReady)]
    ensures Arts(n) && ArtsFate(s, n)
  {
    EveryPartReady(s, a);
    forall b | b in n.artifacts ensures ArtOk(n, b) {
      assert ArtOk(s, b);
      forall part: nat | n.artifacts[b].status == ArtReady && !n.artifacts[b].purged && 1 <= part <= n.artifacts[b].count
        ensures PartReady(n, b, part) { assert PartReady(s, b, part); }
    }
  }

  lemma ArtifactChanges(s: State, n: State)
    requires Inv(s) && Arts(n) && ArtsFate(s, n) && Uses(n) && n == s.(artifacts := n.artifacts)
    ensures Inv(n) && Moves(s, n)
  {
    KeysStill(s, n);
    SlotsStill(s, n);
    DeclaredStays(s, n);
    ActorsStand(s, n);
  }

  lemma CompletedUses(s: State, n: State, a: nat)
    requires Uses(s) && a in s.artifacts && s.artifacts[a].status == ArtUploading && n.tasks == s.tasks
    requires n.artifacts == s.artifacts[a := s.artifacts[a].(status := ArtReady)]
    ensures Uses(n)
  {
    forall i | i in n.tasks ensures UseOk(n, n.tasks[i]) { assert UseOk(s, s.tasks[i]); }
  }

  lemma CompleteKeeps(s: State, a: nat, now: Time)
    requires Inv(s)
    ensures Inv(CompleteUpload(s, a, now)) && Moves(s, CompleteUpload(s, a, now))
  {
    var n := CompleteUpload(s, a, now);
    if CanComplete(s, a, now) {
      CompletedArts(s, n, a);
      CompletedUses(s, n, a);
      ArtifactChanges(s, n);
    } else {
      NothingMoves(s);
    }
  }

  lemma SetExpiryKeeps(s: State, a: nat, expires: Time)
    requires Inv(s)
    ensures Inv(SetExpiry(s, a, expires)) && Moves(s, SetExpiry(s, a, expires))
  {
    var n := SetExpiry(s, a, expires);
    if a in s.artifacts {
      forall b | b in n.artifacts ensures ArtOk(n, b) {
        assert ArtOk(s, b);
        forall part: nat | n.artifacts[b].status == ArtReady && !n.artifacts[b].purged && 1 <= part <= n.artifacts[b].count
          ensures PartReady(n, b, part) { assert PartReady(s, b, part); }
      }
      forall i | i in n.tasks ensures UseOk(n, n.tasks[i]) { assert UseOk(s, s.tasks[i]); }
      ArtifactChanges(s, n);
    } else {
      NothingMoves(s);
    }
  }

  lemma CreateKeeps(s: State, a: nat, count: nat, expires: Time)
    requires Inv(s)
    ensures Inv(Create(s, a, count, expires)) && Moves(s, Create(s, a, count, expires))
  {
    var n := Create(s, a, count, expires);
    if a !in s.artifacts {
      forall b | b in n.artifacts ensures ArtOk(n, b) {
        if b != a {
          assert ArtOk(s, b);
          forall part: nat | n.artifacts[b].status == ArtReady && !n.artifacts[b].purged && 1 <= part <= n.artifacts[b].count
            ensures PartReady(n, b, part) { assert PartReady(s, b, part); }
        }
      }
      forall i | i in n.tasks ensures UseOk(n, n.tasks[i]) { assert UseOk(s, s.tasks[i]); }
      ArtifactChanges(s, n);
    } else {
      NothingMoves(s);
    }
  }

  lemma TasksKeep(s: State, n: State)
    requires Inv(s) && n == s.(tasks := n.tasks) && Uses(n)
    ensures Inv(n) && Moves(s, n)
  {
    KeysStill(s, n);
    SlotsStill(s, n);
    ArtsStill(s, n);
    ArtsKept(s, n);
    DeclaredStays(s, n);
    ActorsStand(s, n);
  }

  lemma ReserveKeeps(s: State, i: nat, a: nat, now: Time)
    requires Inv(s)
    ensures Inv(ReserveTask(s, i, a, now)) && Moves(s, ReserveTask(s, i, a, now))
  {
    var n := ReserveTask(s, i, a, now);
    forall j | j in n.tasks ensures UseOk(n, n.tasks[j]) { if j in s.tasks { assert UseOk(s, s.tasks[j]); } }
    TasksKeep(s, n);
  }

  lemma EndKeeps(s: State, i: nat)
    requires Inv(s)
    ensures Inv(EndTask(s, i)) && Moves(s, EndTask(s, i))
  {
    if i in s.tasks {
      var n := EndTask(s, i);
      forall j | j in n.tasks ensures UseOk(n, n.tasks[j]) { assert UseOk(s, s.tasks[j]); }
      TasksKeep(s, n);
    } else {
      NothingMoves(s);
    }
  }

  lemma TickKeeps(s: State, d: nat)
    requires Inv(s)
    ensures Inv(Tick(s, d)) && Moves(s, Tick(s, d))
  {
    StillCore(s, Tick(s, d));
    ActorsStand(s, Tick(s, d));
  }

  lemma OtherStepKeeps(s: State, e: OtherStep)
    requires Inv(s)
    ensures Inv(ApplyOther(s, e)) && Moves(s, ApplyOther(s, e))
  {
    match e
    case CreateStep(a, count, expires) => CreateKeeps(s, a, count, expires);
    case CompleteStep(a, now) => CompleteKeeps(s, a, now);
    case ExpiryStep(a, expires) => SetExpiryKeeps(s, a, expires);
    case ReserveStep(i, a, now) => ReserveKeeps(s, i, a, now);
    case EndStep(i) => EndKeeps(s, i);
    case TickStep(d) => TickKeeps(s, d);
  }

  // -------------------------------------------------------------------- runs

  lemma StepKeeps(s: State, e: Step)
    requires Inv(s)
    ensures Inv(Apply(s, e)) && Moves(s, Apply(s, e))
  {
    match e
    case Up(k, u) => UploadStepKeeps(s, k, u);
    case Clean(id, c) => CleanStepKeeps(s, id, c);
    case Other(o) => OtherStepKeeps(s, o);
  }

  lemma {:induction false} RunKeeps(s: State, steps: seq<Step>)
    requires Inv(s)
    ensures Inv(Run(s, steps))
    decreases |steps|
  {
    if steps != [] {
      StepKeeps(s, steps[0]);
      RunKeeps(Apply(s, steps[0]), steps[1..]);
    }
  }

  /** Every interleaving of every actor, from empty stores, keeps every invariant. */
  lemma EveryRunIsSafe(steps: seq<Step>)
    ensures Inv(Run(INIT, steps))
  {
    RunKeeps(INIT, steps);
  }
}
