/**
 What each call on the chunk store achieves, and when: an upload that is not
 overtaken is stored, one that is overtaken leaves nothing behind for ever, an
 artifact becomes ready exactly when it is whole, and the cleaners clean.
 */
module ChunkUploads {
  import opened Totals
  import opened ChunkSteps
  import opened ChunkInvariants
  import opened ChunkSafety
  import opened ChunkPurges
  import opened ChunkTheorems

  // ------------------------------------------------------------------ commit

  /** The artifact still takes uploads that began at this instant. */
  predicate Accepts(s: State, a: nat, at: Time) {
    a in s.artifacts && s.artifacts[a].status == ArtUploading && !s.artifacts[a].purged && at < s.artifacts[a].expires
  }

  /** The row of this key, waiting for its upload to be committed. */
  predicate Waits(s: State, k: Key) {
    k in s.uploads && var t := s.uploads[k].slot; t in s.chunks && s.chunks[t].key == k && s.chunks[t].status == Pending
  }

  /** The row is ready, its object is in the bucket and no longer queued for deletion; nothing else changed. */
  predicate Committed(s: State, n: State, k: Key)
    requires k in s.uploads
  {
    var t := s.uploads[k].slot;
    && t in s.chunks && k in s.bucket
    && n == s.(chunks := s.chunks[t := Chunk(k, Ready, s.chunks[t].at)], queue := s.queue - {k},
               uploads := s.uploads[k := s.uploads[k].(pc := Done)])
  }

  /**
   In every reachable state the commit of a stored upload makes its row ready if
   and only if the row still waits and the artifact accepts it; otherwise the
   upload is to be undone and nothing else has changed.
   */
  lemma UploadsAreCommitted(steps: seq<Step>, k: Key)
    ensures var s := Run(INIT, steps);
            var n := Finalize(s, k);
            In(s, k, Stored) ==>
              if Waits(s, k) && Accepts(s, s.uploads[k].slot.art, s.uploads[k].at) then Committed(s, n, k)
              else n == s.(uploads := s.uploads[k := s.uploads[k].(pc := Undoing)])
  {
    var s := Run(INIT, steps);
    EveryRunIsSafe(steps);
    if In(s, k, Stored) { assert KeyOk(Look(s, k)); }
  }

  /** A commit that throws has changed nothing: its upload is to be undone as well. */
  lemma FailedCommitsAreUndone(s: State, k: Key)
    requires In(s, k, Stored)
    ensures FinalizeThrows(s, k) == s.(uploads := s.uploads[k := s.uploads[k].(pc := Undoing)])
  {
  }

  // -------------------------------------------------------------------- undo

  /** Its upload is over and took effect once; neither its row nor its object is left. */
  predicate Gone(s: State, k: Key) {
    k in s.uploads && s.uploads[k].pc == Done && s.uploads[k].landed && k !in s.bucket && RowOf(s, k).None?
  }

  /** Only what this key had is gone. */
  predicate OnlyLost(s: State, n: State, k: Key)
    requires k in s.uploads
  {
    && n.artifacts == s.artifacts && n.tasks == s.tasks && n.queue == s.queue && n.bucket == s.bucket - {k}
    && n.chunks == (if RowOf(s, k).Some? then s.chunks - {s.uploads[k].slot} else s.chunks)
  }

  lemma UndoLeavesNothing(s: State, n: State, k: Key)
    requires In(s, k, Undoing) && s.uploads[k].landed && !Look(s, k).Has(Ready) && n == UndoRow(UndoObject(s, k), k)
    ensures Gone(n, k) && OnlyLost(s, n, k)
  {
    UndoTakesTheObject(s, UndoObject(s, k), k);
    var m := UndoObject(s, k);
    if RowOf(m, k).None? { UndoFindsNoRow(m, n, k); } else { UndoTakesTheRow(m, n, k); }
    NothingIsLeft(UndoObject(s, k), n, k);
  }

  lemma UndoTakesTheObject(s: State, n: State, k: Key)
    requires In(s, k, Undoing) && n == UndoObject(s, k)
    ensures n == s.(bucket := s.bucket - {k}, uploads := s.uploads[k := s.uploads[k].(pc := UndoingRow)])
    ensures In(n, k, UndoingRow) && RowOf(n, k) == RowOf(s, k)
  {
  }
  lemma UndoTakesTheRow(s: State, n: State, k: Key)
    requires In(s, k, UndoingRow) && (Look(s, k).Has(Pending) || Look(s, k).Has(Deleting)) && n == UndoRow(s, k)
    ensures RowOf(s, k).Some? && n == Goes(s, k, Done).(chunks := s.chunks - {s.uploads[k].slot})
  {
  }
  lemma UndoFindsNoRow(s: State, n: State, k: Key)
    requires In(s, k, UndoingRow) && RowOf(s, k).None? && n == UndoRow(s, k)
    ensures n == Goes(s, k, Done)
  {
  }
  lemma NothingIsLeft(s: State, n: State, k: Key)
    requires In(s, k, UndoingRow) && s.uploads[k].landed && k !in s.bucket
    requires n.uploads == s.uploads[k := s.uploads[k].(pc := Done)] && n.bucket == s.bucket
    requires n.chunks == if RowOf(s, k).Some? then s.chunks - {s.uploads[k].slot} else s.chunks
    ensures Gone(n, k)
  {
  }

  lemma LateCommitsFail(s: State, n: State, k: Key)
    requires In(s, k, Stored) && KeyOk(Look(s, k)) && n == Finalize(s, k)
    requires !(Waits(s, k) && Accepts(s, s.uploads[k].slot.art, s.uploads[k].at))
    ensures n == s.(uploads := s.uploads[k := s.uploads[k].(pc := Undoing)])
    ensures In(n, k, Undoing) && n.uploads[k].landed && !Look(n, k).Has(Ready) && RowOf(n, k) == RowOf(s, k)
  {
  }

  /** A commit that comes too late, undone without a failure, leaves neither row nor object, and takes nothing else with it. */
  lemma LateUploadsAreUndone(steps: seq<Step>, k: Key)
    ensures var s := Run(INIT, steps);
            var n := UndoRow(UndoObject(Finalize(s, k), k), k);
            In(s, k, Stored) && !(Waits(s, k) && Accepts(s, s.uploads[k].slot.art, s.uploads[k].at)) ==> Gone(n, k) && OnlyLost(s, n, k)
  {
    var s := Run(INIT, steps);
    EveryRunIsSafe(steps);
    if In(s, k, Stored) && !(Waits(s, k) && Accepts(s, s.uploads[k].slot.art, s.uploads[k].at)) {
      assert KeyOk(Look(s, k));
      LateUploadUndone(s, Finalize(s, k), UndoRow(UndoObject(Finalize(s, k), k), k), k);
    }
  }

  lemma LateUploadUndone(s: State, m: State, n: State, k: Key)
    requires In(s, k, Stored) && KeyOk(Look(s, k)) && !(Waits(s, k) && Accepts(s, s.uploads[k].slot.art, s.uploads[k].at))
    requires m == Finalize(s, k) && n == UndoRow(UndoObject(m, k), k)
    ensures Gone(n, k) && OnlyLost(s, n, k)
  {
    LateCommitsFail(s, m, k);
    UndoLeavesNothing(m, n, k);
  }

  /** Whatever anyone does afterwards, what is gone stays gone. */
  lemma {:induction false} GoneStaysGone(s: State, steps: seq<Step>, k: Key)
    requires Inv(s) && Gone(s, k)
    ensures Gone(Run(s, steps), k)
    decreases |steps|
  {
    if steps != [] {
      var n := Apply(s, steps[0]);
      StepKeeps(s, steps[0]);
      assert KeyFate(Look(s, k), Look(n, k), s.clock);
      GoneStaysGone(n, steps[1..], k);
    }
  }

  /** A late upload that was undone without a failure is gone for ever. */
  lemma LateUploadsNeverReturn(before: seq<Step>, after: seq<Step>, k: Key)
    ensures var s := Run(INIT, before);
            In(s, k, Stored) && !(Waits(s, k) && Accepts(s, s.uploads[k].slot.art, s.uploads[k].at)) ==>
              Gone(Run(s, [Up(k, FinalizeStep), Up(k, UndoObjectStep), Up(k, UndoRowStep)] + after), k)
  {
    var s := Run(INIT, before);
    LateUploadsAreUndone(before, k);
    EveryRunIsSafe(before);
    if In(s, k, Stored) && !(Waits(s, k) && Accepts(s, s.uploads[k].slot.art, s.uploads[k].at)) {
      var undo := [Up(k, FinalizeStep), Up(k, UndoObjectStep), Up(k, UndoRowStep)];
      ThreeSteps(s, k);
      RunKeeps(s, undo);
      RunInTwoParts(s, undo, after);
      GoneStaysGone(Run(s, undo), after, k);
    }
  }

  lemma ThreeSteps(s: State, k: Key)
    ensures Run(s, [Up(k, FinalizeStep), Up(k, UndoObjectStep), Up(k, UndoRowStep)]) == UndoRow(UndoObject(Finalize(s, k), k), k)
  {
    RunOn(s, Up(k, FinalizeStep), [Up(k, UndoObjectStep), Up(k, UndoRowStep)]);
    RunOn(Finalize(s, k), Up(k, UndoObjectStep), [Up(k, UndoRowStep)]);
    RunOn(UndoObject(Finalize(s, k), k), Up(k, UndoRowStep), []);
  }

  /** A PUT that throws takes its waiting row back; an object that lands all the same is in the deletion queue. */
  lemma FailedPutsLeaveNoRow(steps: seq<Step>, k: Key)
    ensures var s := Run(INIT, steps);
            var n := DropFailed(PutThrows(s, k), k);
            In(s, k, Enqueued) && Waits(s, k) ==>
              && n == s.(chunks := s.chunks - {s.uploads[k].slot}, uploads := s.uploads[k := s.uploads[k].(pc := Done)])
              && (k in n.bucket ==> k in n.queue)
  {
    var s := Run(INIT, steps);
    EveryRunIsSafe(steps);
    if In(s, k, Enqueued) && Waits(s, k) {
      assert KeyOk(Look(s, k));
      FailedPutDropsItsRow(s, DropFailed(PutThrows(s, k), k), k);
    }
  }

  lemma FailedPutDropsItsRow(s: State, n: State, k: Key)
    requires In(s, k, Enqueued) && Waits(s, k) && n == DropFailed(PutThrows(s, k), k)
    ensures n == s.(chunks := s.chunks - {s.uploads[k].slot}, uploads := s.uploads[k := s.uploads[k].(pc := Done)])
  {
    var m := PutThrows(s, k);
    assert m == Goes(s, k, PutFailed) && Look(m, k).Has(Pending);
  }

  /** An undo that fails at the object leaves a row for the sweeper, if the slot is its own or free, unless that write fails too. */
  lemma FailedUndosAreRecorded(s: State, k: Key, removed: bool, recorded: bool)
    requires In(s, k, Undoing)
    ensures var n := UndoThrows(s, k, removed, recorded);
            var t := s.uploads[k].slot;
            && n == s.(bucket := n.bucket, chunks := n.chunks, uploads := s.uploads[k := s.uploads[k].(pc := Done)])
            && n.bucket == (if removed then s.bucket - {k} else s.bucket)
            && n.chunks == if recorded && (t !in s.chunks || (s.chunks[t].key == k && s.chunks[t].status != Ready))
                           then s.chunks[t := Chunk(k, Deleting, s.clock)] else s.chunks
  {
  }

  // ------------------------------------------------------ undisturbed uploads

  /** A key nobody has used. */
  predicate Unused(s: State, k: Key) { k !in s.uploads && k !in s.bucket && k !in s.queue }

  /** The five steps of an upload whose PUT succeeds. */
  function PartSteps(k: Key, t: Slot, now: Time): seq<Step> {
    [Up(k, ClaimStep(t, now)), Up(k, EnqueueStep), Up(k, LandStep), Up(k, PutOkStep), Up(k, FinalizeStep)]
  }

  function Uploaded(s: State, k: Key, t: Slot, now: Time): State {
    s.(chunks := s.chunks[t := Chunk(k, Ready, now)], bucket := s.bucket + {k}, uploads := s.uploads[k := Upload(t, now, Done, true)])
  }

  lemma RunOn(s: State, a: Step, rest: seq<Step>)
    ensures Run(s, [a] + rest) == Run(Apply(s, a), rest)
  {
    assert ([a] + rest)[1..] == rest;
  }

  lemma FiveSteps(s: State, k: Key, t: Slot, now: Time)
    ensures Run(s, PartSteps(k, t, now)) == Finalize(PutSucceeds(PutLands(EnqueueUpload(ClaimChunk(s, k, t, now), k), k), k), k)
  {
    var a := ClaimChunk(s, k, t, now);
    var b := EnqueueUpload(a, k);
    var c := PutLands(b, k);
    var d := PutSucceeds(c, k);
    RunOn(s, Up(k, ClaimStep(t, now)), [Up(k, EnqueueStep), Up(k, LandStep), Up(k, PutOkStep), Up(k, FinalizeStep)]);
    RunOn(a, Up(k, EnqueueStep), [Up(k, LandStep), Up(k, PutOkStep), Up(k, FinalizeStep)]);
    RunOn(b, Up(k, LandStep), [Up(k, PutOkStep), Up(k, FinalizeStep)]);
    RunOn(c, Up(k, PutOkStep), [Up(k, FinalizeStep)]);
    RunOn(d, Up(k, FinalizeStep), []);
  }

  lemma ClaimsTheSlot(s: State, n: State, k: Key, t: Slot, now: Time)
    requires Unused(s, k) && t !in s.chunks && Accepts(s, t.art, now) && 1 <= t.part <= s.artifacts[t.art].count && now <= s.clock
    requires n == ClaimChunk(s, k, t, now)
    ensures n == s.(chunks := s.chunks[t := Chunk(k, Pending, now)], uploads := s.uploads[k := Upload(t, now, Claimed, false)])
  {
  }
  lemma QueuesFirst(s: State, n: State, k: Key)
    requires In(s, k, Claimed) && s.clock < s.uploads[k].at + 86_400_000 && k !in s.queue && n == EnqueueUpload(s, k)
    ensures n == s.(uploads := s.uploads[k := s.uploads[k].(pc := Enqueued)],
                    queue := s.queue[k := Deletion(s.uploads[k].at + 600_000, s.uploads[k].at + 86_400_000)])
  {
  }
  lemma PutsTheObject(s: State, n: State, k: Key)
    requires In(s, k, Enqueued) && !s.uploads[k].landed && k in s.queue && s.clock < s.queue[k].retain
    requires n == PutSucceeds(PutLands(s, k), k)
    ensures n == s.(bucket := s.bucket + {k}, uploads := s.uploads[k := s.uploads[k].(pc := Stored, landed := true)])
  {
    var m := PutLands(s, k);
    assert In(m, k, Enqueued) && m.uploads[k].landed;
  }
  lemma CommitsTheRow(s: State, n: State, k: Key)
    requires In(s, k, Stored) && Waits(s, k) && Accepts(s, s.uploads[k].slot.art, s.uploads[k].at) && n == Finalize(s, k)
    ensures n == s.(chunks := s.chunks[s.uploads[k].slot := Chunk(k, Ready, s.chunks[s.uploads[k].slot].at)], queue := s.queue - {k},
                    uploads := s.uploads[k := s.uploads[k].(pc := Done)])
  {
  }

  /** An upload into a free slot of an accepting artifact, undisturbed and within a day, is stored. */
  lemma UndisturbedUploadsAreStored(s: State, k: Key, t: Slot, now: Time)
    requires Unused(s, k) && t !in s.chunks && Accepts(s, t.art, now) && 1 <= t.part <= s.artifacts[t.art].count
    requires now <= s.clock < now + 86_400_000
    ensures Run(s, PartSteps(k, t, now)) == Uploaded(s, k, t, now)
  {
    FiveSteps(s, k, t, now);
    UploadsInFiveSteps(s, Finalize(PutSucceeds(PutLands(EnqueueUpload(ClaimChunk(s, k, t, now), k), k), k), k), k, t, now);
  }

  lemma UploadsInFiveSteps(s: State, n: State, k: Key, t: Slot, now: Time)
    requires Unused(s, k) && t !in s.chunks && Accepts(s, t.art, now) && 1 <= t.part <= s.artifacts[t.art].count
    requires now <= s.clock < now + 86_400_000
    requires n == Finalize(PutSucceeds(PutLands(EnqueueUpload(ClaimChunk(s, k, t, now), k), k), k), k)
    ensures n == Uploaded(s, k, t, now)
  {
    var a := ClaimChunk(s, k, t, now);
    ClaimsTheSlot(s, a, k, t, now);
    QueuesThenCommits(s, a, n, k, t, now);
  }

  lemma QueuesThenCommits(s: State, a: State, n: State, k: Key, t: Slot, now: Time)
    requires Unused(s, k) && Accepts(s, t.art, now) && s.clock < now + 86_400_000
    requires a == s.(chunks := s.chunks[t := Chunk(k, Pending, now)], uploads := s.uploads[k := Upload(t, now, Claimed, false)])
    requires n == Finalize(PutSucceeds(PutLands(EnqueueUpload(a, k), k), k), k)
    ensures n == Uploaded(s, k, t, now)
  {
    var b := EnqueueUpload(a, k);
    ClaimedIsQueued(s, a, b, k, t, now);
    QueuedIsCommitted(s, b, n, k, t, now);
  }

  lemma ClaimedIsQueued(s: State, a: State, b: State, k: Key, t: Slot, now: Time)
    requires Unused(s, k) && s.clock < now + 86_400_000
    requires a == s.(chunks := s.chunks[t := Chunk(k, Pending, now)], uploads := s.uploads[k := Upload(t, now, Claimed, false)])
    requires b == EnqueueUpload(a, k)
    ensures b == s.(chunks := s.chunks[t := Chunk(k, Pending, now)], uploads := s.uploads[k := Upload(t, now, Enqueued, false)],
                    queue := s.queue[k := Deletion(now + 600_000, now + 86_400_000)])
  {
    QueuesFirst(a, b, k);
    assert b.uploads == s.uploads[k := Upload(t, now, Enqueued, false)];
  }

  lemma QueuedIsCommitted(s: State, b: State, n: State, k: Key, t: Slot, now: Time)
    requires Unused(s, k) && Accepts(s, t.art, now) && s.clock < now + 86_400_000
    requires b == s.(chunks := s.chunks[t := Chunk(k, Pending, now)], uploads := s.uploads[k := Upload(t, now, Enqueued, false)],
                     queue := s.queue[k := Deletion(now + 600_000, now + 86_400_000)])
    requires n == Finalize(PutSucceeds(PutLands(b, k), k), k)
    ensures n == Uploaded(s, k, t, now)
  {
    var c := PutSucceeds(PutLands(b, k), k);
    QueuedIsStored(s, b, c, k, t, now);
    StoredIsCommitted(s, c, n, k, t, now);
  }

  lemma QueuedIsStored(s: State, b: State, c: State, k: Key, t: Slot, now: Time)
    requires s.clock < now + 86_400_000 && b.uploads == s.uploads[k := Upload(t, now, Enqueued, false)]
    requires b == s.(chunks := s.chunks[t := Chunk(k, Pending, now)], uploads := b.uploads,
                     queue := s.queue[k := Deletion(now + 600_000, now + 86_400_000)])
    requires c == PutSucceeds(PutLands(b, k), k)
    ensures c.uploads == s.uploads[k := Upload(t, now, Stored, true)] && c == b.(bucket := s.bucket + {k}, uploads := c.uploads)
  {
    PutsTheObject(b, c, k);
  }

  lemma StoredIsCommitted(s: State, c: State, n: State, k: Key, t: Slot, now: Time)
    requires Unused(s, k) && Accepts(s, t.art, now) && c.uploads == s.uploads[k := Upload(t, now, Stored, true)]
    requires c == s.(chunks := s.chunks[t := Chunk(k, Pending, now)], uploads := c.uploads, bucket := s.bucket + {k},
                     queue := s.queue[k := Deletion(now + 600_000, now + 86_400_000)])
    requires n == Finalize(c, k)
    ensures n == Uploaded(s, k, t, now)
  {
    CommitsTheRow(c, n, k);
    assert n.queue == s.queue;
    assert n.uploads == s.uploads[k := Upload(t, now, Done, true)];
    assert n.chunks == s.chunks[t := Chunk(k, Ready, now)];
  }

  // ------------------------------------------------------------- whole files

  /** Every part of the file in order, each under its own key. */
  function FileSteps(a: nat, keys: seq<Key>, now: Time, n: nat): seq<Step>
    requires n <= |keys|
  {
    if n == 0 then [] else FileSteps(a, keys, now, n - 1) + PartSteps(keys[n - 1], Slot(a, n), now)
  }

  predicate UnusedKeys(s: State, keys: seq<Key>) {
    && (forall i :: 0 <= i < |keys| ==> Unused(s, keys[i]))
    && (forall i, j :: 0 <= i < j < |keys| ==> keys[i] != keys[j])
  }

  /** The first n parts are stored, the slots and keys of the others are free. */
  ghost predicate Halfway(s: State, m: State, a: nat, keys: seq<Key>, n: nat) {
    && n <= |keys| && m.artifacts == s.artifacts && m.clock == s.clock
    && (forall part: nat :: 1 <= part <= n ==> PartStored(m, a, part))
    && (forall t :: t in m.chunks && t.art == a ==> 1 <= t.part <= n)
    && (forall i :: n <= i < |keys| ==> Unused(m, keys[i]))
  }

  lemma PartByPart(s: State, m: State, a: nat, keys: seq<Key>, now: Time, n: nat)
    requires Halfway(s, m, a, keys, n) && n < |keys| && (forall i, j :: 0 <= i < j < |keys| ==> keys[i] != keys[j])
    requires Accepts(s, a, now) && s.artifacts[a].count == |keys| && now <= s.clock < now + 86_400_000
    ensures Halfway(s, Run(m, PartSteps(keys[n], Slot(a, n + 1), now)), a, keys, n + 1)
  {
    UndisturbedUploadsAreStored(m, keys[n], Slot(a, n + 1), now);
    var k := Run(m, PartSteps(keys[n], Slot(a, n + 1), now));
    forall part: nat | 1 <= part <= n + 1 ensures PartStored(k, a, part) {
      if part <= n { assert PartStored(m, a, part); }
    }
  }

  lemma NothingYet(s: State, a: nat, keys: seq<Key>)
    requires UnusedKeys(s, keys) && forall t :: t in s.chunks ==> t.art != a
    ensures Halfway(s, s, a, keys, 0)
  {
  }

  lemma FileGrows(s: State, m: State, a: nat, keys: seq<Key>, now: Time, p: nat)
    requires p < |keys| && m == Run(s, FileSteps(a, keys, now, p)) && Halfway(s, m, a, keys, p) && UnusedKeys(s, keys)
    requires Accepts(s, a, now) && s.artifacts[a].count == |keys| && now <= s.clock < now + 86_400_000
    ensures Halfway(s, Run(s, FileSteps(a, keys, now, p + 1)), a, keys, p + 1)
  {
    PartByPart(s, m, a, keys, now, p);
    RunInTwoParts(s, FileSteps(a, keys, now, p), PartSteps(keys[p], Slot(a, p + 1), now));
  }

  lemma {:induction false} FilesAreStored(s: State, a: nat, keys: seq<Key>, now: Time, n: nat)
    requires n <= |keys| && UnusedKeys(s, keys) && (forall t :: t in s.chunks ==> t.art != a)
    requires Accepts(s, a, now) && s.artifacts[a].count == |keys| && now <= s.clock < now + 86_400_000
    ensures Halfway(s, Run(s, FileSteps(a, keys, now, n)), a, keys, n)
  {
    if n == 0 {
      NothingYet(s, a, keys);
    } else {
      FilesAreStored(s, a, keys, now, n - 1);
      FileGrows(s, Run(s, FileSteps(a, keys, now, n - 1)), a, keys, now, n - 1);
    }
  }

  /** Every declared part has a ready row. */
  ghost predicate Whole(s: State, a: nat) {
    a in s.artifacts && forall part: nat :: 1 <= part <= s.artifacts[a].count ==> PartReady(s, a, part)
  }

  lemma WholeCounts(s: State, a: nat)
    requires Slots(s) && Whole(s, a)
    ensures |ReadyRows(s, a)| == s.artifacts[a].count
    ensures forall t :: t in s.chunks && t.art == a ==> s.chunks[t].status == Ready
  {
    var all := Numbered(a, s.artifacts[a].count);
    forall t | t in s.chunks && t.art == a ensures t in all && s.chunks[t].status == Ready {
      assert SlotOk(s, t) && Declared(s.artifacts, s.uploads[s.chunks[t].key].slot);
      assert PartReady(s, a, t.part);
    }
    forall t | t in all ensures t in ReadyRows(s, a) { assert PartReady(s, a, t.part) && t == Slot(a, t.part); }
    assert ReadyRows(s, a) == all;
  }

  lemma CompletionDecides(s: State, n: State, a: nat, now: Time)
    requires Slots(s) && n == CompleteUpload(s, a, now)
    ensures if now <= s.clock && Accepts(s, a, now) && Whole(s, a)
            then n == s.(artifacts := s.artifacts[a := Artifact(ArtReady, false, s.artifacts[a].count, s.artifacts[a].expires)]) else n == s
  {
    if Accepts(s, a, now) && Whole(s, a) { WholeCounts(s, a); }
    if CanComplete(s, a, now) { EveryPartReady(s, a); }
  }

  /** In every reachable state completion makes an artifact ready exactly when it still accepts uploads and is whole. */
  lemma WholeArtifactsBecomeReady(steps: seq<Step>, a: nat, now: Time)
    ensures var s := Run(INIT, steps);
            var n := CompleteUpload(s, a, now);
            if now <= s.clock && Accepts(s, a, now) && Whole(s, a)
            then n == s.(artifacts := s.artifacts[a := Artifact(ArtReady, false, s.artifacts[a].count, s.artifacts[a].expires)]) else n == s
  {
    var s := Run(INIT, steps);
    EveryRunIsSafe(steps);
    CompletionDecides(s, CompleteUpload(s, a, now), a, now);
  }

  /** Declare a new artifact, upload every part, complete. */
  function WholeUpload(a: nat, keys: seq<Key>, expires: Time, now: Time): seq<Step> {
    [Other(CreateStep(a, |keys|, expires))] + (FileSteps(a, keys, now, |keys|) + [Other(CompleteStep(a, now))])
  }

  lemma StartsEmpty(s: State, n: State, a: nat, keys: seq<Key>, expires: Time)
    requires Inv(s) && a !in s.artifacts && UnusedKeys(s, keys) && n == Create(s, a, |keys|, expires)
    ensures n == s.(artifacts := s.artifacts[a := Artifact(ArtUploading, false, |keys|, expires)]) && UnusedKeys(n, keys)
    ensures forall t :: t in n.chunks ==> t.art != a
  {
    forall t | t in n.chunks ensures t.art != a {
      assert SlotOk(s, t) && Declared(s.artifacts, s.uploads[s.chunks[t].key].slot);
    }
  }

  lemma HalfwayIsWhole(s: State, m: State, a: nat, keys: seq<Key>)
    requires Halfway(s, m, a, keys, |keys|) && a in s.artifacts && s.artifacts[a].count == |keys|
    ensures Whole(m, a)
  {
    forall part: nat | 1 <= part <= |keys| ensures PartReady(m, a, part) { assert PartStored(m, a, part); }
  }

  /** From any reachable state, a new file uploaded undisturbed within a day ends up ready, with every part stored. */
  lemma WholeUploadsBecomeReady(before: seq<Step>, a: nat, keys: seq<Key>, expires: Time, now: Time)
    ensures var s := Run(INIT, before);
            a !in s.artifacts && UnusedKeys(s, keys) && now < expires && now <= s.clock < now + 86_400_000 ==>
              var n := Run(s, WholeUpload(a, keys, expires, now));
              && a in n.artifacts && n.artifacts[a] == Artifact(ArtReady, false, |keys|, expires)
              && forall part: nat :: 1 <= part <= |keys| ==> PartStored(n, a, part)
  {
    var s := Run(INIT, before);
    EveryRunIsSafe(before);
    if a !in s.artifacts && UnusedKeys(s, keys) && now < expires && now <= s.clock < now + 86_400_000 {
      UploadsEndReady(s, a, keys, expires, now);
    }
  }

  lemma UploadsEndReady(s: State, a: nat, keys: seq<Key>, expires: Time, now: Time)
    requires Inv(s) && a !in s.artifacts && UnusedKeys(s, keys) && now < expires && now <= s.clock < now + 86_400_000
    ensures var n := Run(s, WholeUpload(a, keys, expires, now));
            && a in n.artifacts && n.artifacts[a] == Artifact(ArtReady, false, |keys|, expires)
            && forall part: nat :: 1 <= part <= |keys| ==> PartStored(n, a, part)
  {
    var c, f, e := Other(CreateStep(a, |keys|, expires)), FileSteps(a, keys, now, |keys|), Other(CompleteStep(a, now));
    var m := Apply(s, c);
    StartsEmpty(s, m, a, keys, expires);
    StepKeeps(s, c);
    FilesAreStored(m, a, keys, now, |keys|);
    RunKeeps(m, f);
    var k := Run(m, f);
    HalfwayIsWhole(m, k, a, keys);
    CompletionDecides(k, Apply(k, e), a, now);
    assert WholeUpload(a, keys, expires, now)[1..] == f + [e];
    RunInTwoParts(m, f, [e]);
    assert Run(k, [e]) == Apply(k, e);
    forall part: nat | 1 <= part <= |keys| ensures PartStored(Apply(k, e), a, part) { assert PartStored(k, a, part); }
  }
}
