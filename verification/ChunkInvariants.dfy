/** What every interleaving of uploads, sweeps, queue passes and purges keeps. */
module ChunkInvariants {
  import opened Totals
  import opened ChunkSteps

  // ------------------------------------------------------------------- keys

  /**
   One key: nothing is stored that did not land; a stored object is under a ready
   row or in the deletion queue; a ready row's object is stored; and while its
   uploader may still finalize, a landed object under a pending row is stored.
   */
  predicate KeyOk(v: View) {
    && (v.stored ==> v.up.landed)
    && (v.up.pc == Claimed ==> !v.up.landed)
    && (v.up.pc == Stored ==> v.up.landed)
    && (v.stored && !v.Has(Ready) ==> v.queued.Some?)
    && (v.Has(Ready) ==> v.up.pc == Done && v.stored)
    && (v.Has(Pending) && v.up.landed && (v.up.pc == Enqueued || v.up.pc == Stored) ==> v.stored)
  }

  ghost predicate Keys(s: State) {
    && (forall k :: k in s.uploads ==> KeyOk(Look(s, k)))
    && (forall k :: k in s.bucket ==> k in s.uploads)
    && (forall k :: k in s.queue ==> k in s.uploads)
  }

  predicate Declared(arts: map<nat, Artifact>, t: Slot) { t.art in arts && 1 <= t.part <= arts[t.art].count }

  /** A row sits in the slot its key was claimed for, within the declared parts. */
  predicate SlotOk(s: State, t: Slot) {
    t in s.chunks ==> s.chunks[t].key in s.uploads && s.uploads[s.chunks[t].key].slot == t
  }
  ghost predicate Slots(s: State) {
    && (forall t :: t in s.chunks ==> SlotOk(s, t))
    && (forall k :: k in s.uploads ==> Declared(s.artifacts, s.uploads[k].slot))
  }

  // ------------------------------------------------------------------ actors

  predicate SweepOk(s: State, w: Sweep) {
    w.key in s.uploads && (w.pc != Seen || w.seen == Deleting ==> !Live(s, w.key))
  }

  predicate PassKeyOk(s: State, p: Pass, k: Key) {
    k in p.keys ==>
      && k in s.uploads && !Live(s, k)
      && (k in p.gone && k in s.bucket ==> k in s.queue && s.queue[k].retain > p.now)
  }
  ghost predicate PassOk(s: State, p: Pass) {
    p.now <= s.clock && p.gone <= p.keys && forall k :: k in p.keys ==> PassKeyOk(s, p, k)
  }

  predicate ListedOk(s: State, p: Purge, t: Slot) {
    t in p.rows ==>
      && p.rows[t].key in s.uploads && s.uploads[p.rows[t].key].slot == t && t.art == p.art
      && (p.pc == Tombstoned ==> !Live(s, p.rows[t].key))
      && (Live(s, p.rows[t].key) ==> t in s.chunks && s.chunks[t].at == p.rows[t].at)
  }
  ghost predicate PurgeOk(s: State, p: Purge) {
    && p.art in s.artifacts && s.artifacts[p.art].purged
    && (forall t :: t in p.rows ==> ListedOk(s, p, t))
  }

  ghost predicate Actors(s: State) {
    && (forall i :: i in s.sweeps ==> SweepOk(s, s.sweeps[i]))
    && (forall i :: i in s.passes ==> PassOk(s, s.passes[i]))
    && (forall i :: i in s.purges ==> PurgeOk(s, s.purges[i]))
  }

  // --------------------------------------------------------------- artifacts

  predicate PartReady(s: State, a: nat, part: nat) { Slot(a, part) in s.chunks && s.chunks[Slot(a, part)].status == Ready }

  ghost predicate ArtOk(s: State, a: nat) {
    a in s.artifacts ==>
      && (s.artifacts[a].status == ArtReady && !s.artifacts[a].purged ==>
            forall part: nat :: 1 <= part <= s.artifacts[a].count ==> PartReady(s, a, part))
      && (s.artifacts[a].status == ArtDeleted ==>
            s.artifacts[a].purged && forall t :: t in s.chunks && t.art == a ==> s.chunks[t].status == Deleting)
  }
  ghost predicate Arts(s: State) { forall a :: a in s.artifacts ==> ArtOk(s, a) }

  predicate UseOk(s: State, u: Use) {
    u.active ==> u.art in s.artifacts && s.artifacts[u.art].status == ArtReady && !s.artifacts[u.art].purged
  }
  ghost predicate Uses(s: State) { forall i :: i in s.tasks ==> UseOk(s, s.tasks[i]) }

  ghost predicate Core(s: State) { Keys(s) && Slots(s) && Arts(s) && Uses(s) }
  ghost predicate Inv(s: State) { Core(s) && Actors(s) }

  // ---------------------------------------------------------- what steps do

  /** A key only moves forward: dead stays dead, and an object appears only with retention left to run. */
  predicate KeyFate(v: View, w: View, clock: Time) {
    && w.up.slot == v.up.slot
    && (!v.Live() ==> !w.Live())
    && (v.Live() && w.Live() ==> w.row.value.at == v.row.value.at)
    && (v.up.pc == Done && v.up.landed ==> w.up == v.up && (v.row.None? ==> w.row.None?) && (!v.stored ==> !w.stored))
    && (w.stored && !v.stored ==> w.queued.Some? && w.queued.value.retain > clock)
    && (!v.Live() && w.stored && v.stored && v.queued.Some? ==>
          w.queued.Some? && (w.queued.value.retain == v.queued.value.retain || w.queued.value.retain > clock))
  }

  predicate SlotFate(s: State, n: State, t: Slot) {
    && (t in s.chunks && s.chunks[t].status == Ready && t.art in n.artifacts && !n.artifacts[t.art].purged ==>
          t in n.chunks && n.chunks[t].status == Ready)
    && (t in n.chunks && n.chunks[t].status != Deleting ==>
          || (t in s.chunks && s.chunks[t].status != Deleting)
          || (t.art in s.artifacts && s.artifacts[t.art].status == ArtUploading))
  }

  predicate ArtFate(a: Artifact, b: Artifact) {
    && b.count == a.count && (a.purged ==> b.purged)
    && (b.status == a.status || (a.status == ArtUploading && b.status == ArtReady) || (b.status == ArtDeleted && b.purged))
  }

  ghost predicate KeysFate(s: State, n: State) {
    s.clock <= n.clock && forall k :: k in s.uploads ==> k in n.uploads && KeyFate(Look(s, k), Look(n, k), s.clock)
  }
  ghost predicate SlotsFate(s: State, n: State) { forall t :: SlotFate(s, n, t) }
  ghost predicate ArtsFate(s: State, n: State) {
    forall a :: a in s.artifacts ==> a in n.artifacts && ArtFate(s.artifacts[a], n.artifacts[a])
  }

  ghost predicate Moves(s: State, n: State) { KeysFate(s, n) && SlotsFate(s, n) && ArtsFate(s, n) }
}
