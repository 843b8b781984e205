/** What the chunk store promises, over every run of every interleaving. */
module ChunkTheorems {
  import opened Totals
  import opened ChunkSteps
  import opened ChunkInvariants
  import opened ChunkSafety
  import opened ChunkPurges

  lemma {:induction false} RunInTwoParts(s: State, a: seq<Step>, b: seq<Step>)
    ensures Run(s, a + b) == Run(Run(s, a), b)
    decreases |a|
  {
    if a == [] {
      assert a + b == b;
    } else {
      assert (a + b)[1..] == a[1..] + b;
      RunInTwoParts(Apply(s, a[0]), a[1..], b);
    }
  }

  // ------------------------------------------------------------ task inputs

  predicate PartStored(s: State, a: nat, part: nat) {
    PartReady(s, a, part) && s.chunks[Slot(a, part)].key in s.bucket
  }

  /**
   While any task on an artifact is active, the artifact is ready and unpurged and
   every declared part has a ready row whose object is in the bucket.
   */
  lemma ActiveInputIsWhole(steps: seq<Step>, i: nat)
    ensures var s := Run(INIT, steps);
            i in s.tasks && s.tasks[i].active ==>
              var a := s.tasks[i].art;
              && a in s.artifacts && s.artifacts[a].status == ArtReady && !s.artifacts[a].purged
              && forall part: nat :: 1 <= part <= s.artifacts[a].count ==> PartStored(s, a, part)
  {
    var s := Run(INIT, steps);
    EveryRunIsSafe(steps);
    if i in s.tasks && s.tasks[i].active {
      var a := s.tasks[i].art;
      assert UseOk(s, s.tasks[i]) && ArtOk(s, a);
      forall part: nat | 1 <= part <= s.artifacts[a].count ensures PartStored(s, a, part) {
        assert PartReady(s, a, part);
        ReadyIsStored(s, Slot(a, part));
      }
    }
  }

  lemma ReadyIsStored(s: State, t: Slot)
    requires Keys(s) && Slots(s) && t in s.chunks && s.chunks[t].status == Ready
    ensures s.chunks[t].key in s.bucket
  {
    assert SlotOk(s, t) && KeyOk(Look(s, s.chunks[t].key));
  }

  // ------------------------------------------------------------ tracking

  /** Every object in the bucket is under a ready row or in the deletion queue. */
  lemma EveryObjectIsTracked(steps: seq<Step>, k: Key)
    ensures var s := Run(INIT, steps);
            k in s.bucket ==> k in s.uploads && (Look(s, k).Has(Ready) || k in s.queue)
  {
    var s := Run(INIT, steps);
    EveryRunIsSafe(steps);
    if k in s.bucket { assert KeyOk(Look(s, k)); }
  }

  // ---------------------------------------------------- generations only end

  lemma {:induction false} DeadStaysDead(s: State, steps: seq<Step>, k: Key)
    requires Inv(s) && k in s.uploads && !Live(s, k)
    ensures k in Run(s, steps).uploads && !Live(Run(s, steps), k)
    decreases |steps|
  {
    if steps != [] {
      var n := Apply(s, steps[0]);
      StepKeeps(s, steps[0]);
      assert KeyFate(Look(s, k), Look(n, k), s.clock);
      DeadStaysDead(n, steps[1..], k);
    }
  }

  /** Once a storage key has left pending and ready it never becomes live again. */
  lemma GenerationsNeverReturn(before: seq<Step>, after: seq<Step>, k: Key)
    requires k in Run(INIT, before).uploads && !Live(Run(INIT, before), k)
    ensures !Live(Run(INIT, before + after), k)
  {
    RunInTwoParts(INIT, before, after);
    EveryRunIsSafe(before);
    DeadStaysDead(Run(INIT, before), after, k);
  }

  // ------------------------------------------------------- what gets deleted

  lemma UploadTouchesNoArtifact(s: State, j: Key, e: UploadStep)
    ensures ApplyUpload(s, j, e).artifacts == s.artifacts
  {
  }

  lemma OnlyUndoingDeletes(s: State, j: Key, e: UploadStep)
    requires !e.UndoObjectStep? && !e.UndoThrowsStep?
    ensures s.bucket <= ApplyUpload(s, j, e).bucket
  {
  }

  lemma UndoingDeletesItsOwn(s: State, n: State, j: Key, e: UploadStep)
    requires n == ApplyUpload(s, j, e) && (e.UndoObjectStep? || e.UndoThrowsStep?)
    ensures n.bucket == s.bucket || (n.bucket == s.bucket - {j} && In(s, j, Undoing))
  {
  }

  /** An uploader deletes its own object only, and only when undoing. */
  lemma UploaderDeletes(s: State, n: State, j: Key, e: UploadStep, k: Key)
    requires n == ApplyUpload(s, j, e) && k in s.bucket && k !in n.bucket
    ensures k == j && In(s, j, Undoing)
  {
    if e.UndoObjectStep? || e.UndoThrowsStep? { UndoingDeletesItsOwn(s, n, j, e); } else { OnlyUndoingDeletes(s, j, e); }
  }

  /** The three cleaners delete only what they own. */
  predicate Owns(s: State, id: nat, k: Key) {
    || (id in s.sweeps && s.sweeps[id].pc == Won && s.sweeps[id].key == k)
    || (id in s.passes && k in s.passes[id].keys)
    || (id in s.purges && s.purges[id].pc == Tombstoned && k in KeysOf(s.purges[id].rows))
  }

  lemma CleanerDeletes(s: State, n: State, id: nat, e: CleanStep, k: Key)
    requires n == ApplyClean(s, id, e) && k in s.bucket && k !in n.bucket
    ensures Owns(s, id, k)
  {
    match e {
      case SweepObjectStep =>
      case QueueObjectStep(j) =>
      case PurgeObjectStep(j) =>
      case _ =>
    }
  }

  lemma OwnedIsDead(s: State, id: nat, k: Key)
    requires Actors(s) && Owns(s, id, k)
    ensures k in s.uploads && !Live(s, k)
  {
    if id in s.sweeps && s.sweeps[id].pc == Won && s.sweeps[id].key == k {
      assert SweepOk(s, s.sweeps[id]);
    } else if id in s.passes && k in s.passes[id].keys {
      assert PassOk(s, s.passes[id]) && PassKeyOk(s, s.passes[id], k);
    } else {
      assert PurgeOk(s, s.purges[id]);
      var t :| t in s.purges[id].rows && s.purges[id].rows[t].key == k;
      assert ListedOk(s, s.purges[id], t);
    }
  }

  lemma OthersDeleteNothing(s: State, n: State, e: OtherStep)
    requires n == ApplyOther(s, e)
    ensures n.bucket == s.bucket
  {
  }

  lemma OthersFinalizeNothing(s: State, n: State, e: OtherStep, a: nat)
    requires n == ApplyOther(s, e) && a in s.artifacts && s.artifacts[a].status != ArtDeleted
    ensures a in n.artifacts && n.artifacts[a].status != ArtDeleted
  {
  }

  lemma DeletionSparesReady(s: State, n: State, e: Step, k: Key)
    requires Inv(s) && n == Apply(s, e) && k in s.bucket && k !in n.bucket
    ensures k in s.uploads && !Look(s, k).Has(Ready)
  {
    assert KeyOk(Look(s, k));
    match e
    case Up(j, u) => UploaderDeletes(s, n, j, u, k);
    case Clean(id, c) => CleanerDeletes(s, n, id, c, k); OwnedIsDead(s, id, k);
    case Other(o) => OthersDeleteNothing(s, n, o);
  }

  /** No step of any actor, however stale its SELECT, deletes the object of a ready row. */
  lemma NoReadyObjectIsDeleted(steps: seq<Step>, e: Step, k: Key)
    ensures var s := Run(INIT, steps);
            k in s.bucket && k !in Apply(s, e).bucket ==> k in s.uploads && !Look(s, k).Has(Ready)
  {
    var s := Run(INIT, steps);
    EveryRunIsSafe(steps);
    if k in s.bucket && k !in Apply(s, e).bucket { DeletionSparesReady(s, Apply(s, e), e, k); }
  }

  // ------------------------------------------------------------------ purge

  /** An artifact becomes deleted only at a step that leaves it no chunk row. */
  lemma DeletedOnlyWhenEmpty(s: State, e: Step, a: nat)
    ensures var n := Apply(s, e);
            a in s.artifacts && s.artifacts[a].status != ArtDeleted && a in n.artifacts && n.artifacts[a].status == ArtDeleted ==>
              RowsOf(n.chunks, a) == {}
  {
    var n := Apply(s, e);
    if a in s.artifacts && s.artifacts[a].status != ArtDeleted && a in n.artifacts && n.artifacts[a].status == ArtDeleted {
      match e
      case Up(k, u) => UploadTouchesNoArtifact(s, k, u);
      case Clean(id, c) => CleanerFinalizes(s, n, id, c, a);
      case Other(o) => OthersFinalizeNothing(s, n, o, a);
    }
  }

  lemma CleanerFinalizes(s: State, n: State, id: nat, e: CleanStep, a: nat)
    requires n == ApplyClean(s, id, e) && a in s.artifacts && s.artifacts[a].status != ArtDeleted
    requires a in n.artifacts && n.artifacts[a].status == ArtDeleted
    ensures RowsOf(n.chunks, a) == {}
  {
    if !e.PurgeCommitStep? { OthersKeepStatus(s, n, id, e, a); }
  }

  lemma OthersKeepStatus(s: State, n: State, id: nat, e: CleanStep, a: nat)
    requires n == ApplyClean(s, id, e) && !e.PurgeCommitStep? && a in s.artifacts
    ensures a in n.artifacts && n.artifacts[a].status == s.artifacts[a].status
  {
    if e.PurgeClaimStep? { ClaimKeepsStatus(s, n, id, e, a); } else { OthersTouchNoArtifact(s, id, e); }
  }

  lemma ClaimKeepsStatus(s: State, n: State, id: nat, e: CleanStep, a: nat)
    requires n == ApplyClean(s, id, e) && e.PurgeClaimStep? && a in s.artifacts
    ensures a in n.artifacts && n.artifacts[a].status == s.artifacts[a].status
  {
  }

  lemma OthersTouchNoArtifact(s: State, id: nat, e: CleanStep)
    requires !e.PurgeCommitStep? && !e.PurgeClaimStep?
    ensures ApplyClean(s, id, e).artifacts == s.artifacts
  {
    match e {
      case PurgeTombstoneStep => if CanTombstone(s, id) {}
      case _ =>
    }
  }

  /** Whatever a late uploader still inserts under a deleted artifact is only ever awaiting deletion. */
  lemma DeletedArtifactsHoldNoContent(steps: seq<Step>, a: nat, t: Slot)
    ensures var s := Run(INIT, steps);
            a in s.artifacts && s.artifacts[a].status == ArtDeleted && t in s.chunks && t.art == a ==>
              s.artifacts[a].purged && s.chunks[t].status == Deleting
  {
    var s := Run(INIT, steps);
    EveryRunIsSafe(steps);
    if a in s.artifacts { assert ArtOk(s, a); }
  }
}
