/**
 Immutable chunk generations across two stores. D1 rows change atomically; R2
 objects change one call at a time; every actor is a small program counter, so
 the gaps between SELECT, object delete and row delete are real steps.
 */
module ChunkSteps {
  import opened Totals

  type Time = int
  type Key = nat

  datatype Slot = Slot(art: nat, part: nat)

  datatype ChunkStatus = Pending | Ready | Deleting
  datatype Chunk = Chunk(key: Key, status: ChunkStatus, at: Time)

  datatype ArtStatus = ArtUploading | ArtReady | ArtDeleted
  datatype Artifact = Artifact(status: ArtStatus, purged: bool, count: nat, expires: Time)

  datatype Deletion = Deletion(next: Time, retain: Time)

  /** Where one upload request stands; `landed` records that its PUT took effect. */
  datatype UploadPc = Claimed | Enqueued | Stored | PutFailed | Undoing | UndoingRow | Done
  datatype Upload = Upload(slot: Slot, at: Time, pc: UploadPc, landed: bool)

  datatype SweepPc = Seen | Won | Removed
  datatype Sweep = Sweep(key: Key, seen: ChunkStatus, pc: SweepPc)

  datatype Pass = Pass(now: Time, keys: set<Key>, gone: set<Key>)

  datatype PurgePc = Owned | Listed | Tombstoned
  datatype Purge = Purge(art: nat, now: Time, rows: map<Slot, Chunk>, gone: set<Key>, pc: PurgePc)

  datatype Use = Use(art: nat, active: bool)

  datatype State = State(
    artifacts: map<nat, Artifact>, chunks: map<Slot, Chunk>, queue: map<Key, Deletion>, bucket: set<Key>,
    uploads: map<Key, Upload>, tasks: map<nat, Use>, clock: Time,
    sweeps: map<nat, Sweep>, passes: map<nat, Pass>, purges: map<nat, Purge>)

  const INIT := State(map[], map[], map[], {}, map[], map[], 0, map[], map[], map[])

  const RETRY: nat := 10 * 60_000
  const RETENTION: nat := 24 * 60 * 60_000
  const BATCH: nat := 4

  // ------------------------------------------------------ one key's own state

  /** Everything the two stores and its uploader know about one storage key. */
  datatype View = View(up: Upload, row: Option<Chunk>, stored: bool, queued: Option<Deletion>) {
    predicate Has(status: ChunkStatus) { row.Some? && row.value.status == status }
    predicate Live() { Has(Pending) || Has(Ready) }
  }

  function RowOf(s: State, k: Key): Option<Chunk>
    requires k in s.uploads
  {
    var t := s.uploads[k].slot;
    if t in s.chunks && s.chunks[t].key == k then Some(s.chunks[t]) else None
  }

  function Look(s: State, k: Key): View
    requires k in s.uploads
  {
    View(s.uploads[k], RowOf(s, k), k in s.bucket, if k in s.queue then Some(s.queue[k]) else None)
  }

  predicate Live(s: State, k: Key) { k in s.uploads && Look(s, k).Live() }

  function Goes(s: State, k: Key, pc: UploadPc): State
    requires k in s.uploads
  {
    s.(uploads := s.uploads[k := s.uploads[k].(pc := pc)])
  }

  predicate In(s: State, k: Key, pc: UploadPc) { k in s.uploads && s.uploads[k].pc == pc }

  predicate Open(s: State, a: nat, now: Time) {
    a in s.artifacts && s.artifacts[a].status == ArtUploading && !s.artifacts[a].purged && s.artifacts[a].expires > now
  }

  function Min(a: int, b: int): int { if a <= b then a else b }

  function Enqueue(q: map<Key, Deletion>, k: Key, next: Time, retain: Time): map<Key, Deletion> {
    q[k := if k in q then Deletion(Min(q[k].next, next), Min(q[k].retain, retain)) else Deletion(next, retain)]
  }

  // ----------------------------------------------------------------- uploads

  function Create(s: State, a: nat, count: nat, expires: Time): State {
    if a in s.artifacts then s else s.(artifacts := s.artifacts[a := Artifact(ArtUploading, false, count, expires)])
  }

  predicate CanClaimChunk(s: State, k: Key, t: Slot, now: Time) {
    && k !in s.uploads && k !in s.bucket && k !in s.queue && t !in s.chunks
    && now <= s.clock && Open(s, t.art, now) && 1 <= t.part <= s.artifacts[t.art].count
  }

  /** The claim: a fresh key takes a free slot of an open artifact. */
  function ClaimChunk(s: State, k: Key, t: Slot, now: Time): (n: State)
    ensures n.artifacts == s.artifacts && n.bucket == s.bucket
  {
    if CanClaimChunk(s, k, t, now)
    then s.(chunks := s.chunks[t := Chunk(k, Pending, now)], uploads := s.uploads[k := Upload(t, now, Claimed, false)])
    else s
  }

  /** The deletion record is durable before the PUT is issued; a request lives less than the retention period. */
  function EnqueueUpload(s: State, k: Key): (n: State)
    ensures n.artifacts == s.artifacts && n.bucket == s.bucket
  {
    if In(s, k, Claimed) && s.clock < s.uploads[k].at + RETENTION
    then Goes(s, k, Enqueued).(queue := Enqueue(s.queue, k, s.uploads[k].at + RETRY, s.uploads[k].at + RETENTION))
    else s
  }

  /** An issued PUT takes effect at most once, before its key's retention deadline, perhaps after its caller gave up. */
  function PutLands(s: State, k: Key): (n: State)
    ensures n.artifacts == s.artifacts && s.bucket <= n.bucket
  {
    if k in s.uploads && s.uploads[k].pc != Claimed && !s.uploads[k].landed && k in s.queue && s.clock < s.queue[k].retain
    then s.(bucket := s.bucket + {k}, uploads := s.uploads[k := s.uploads[k].(landed := true)])
    else s
  }

  function PutSucceeds(s: State, k: Key): (n: State)
    ensures n.artifacts == s.artifacts && n.bucket == s.bucket
  {
    if In(s, k, Enqueued) && s.uploads[k].landed then Goes(s, k, Stored) else s
  }

  function PutThrows(s: State, k: Key): (n: State)
    ensures n.artifacts == s.artifacts && n.bucket == s.bucket
  {
    if In(s, k, Enqueued) then Goes(s, k, PutFailed) else s
  }

  function WithoutRow(s: State, k: Key): map<Slot, Chunk>
    requires k in s.uploads
  {
    s.chunks - {s.uploads[k].slot}
  }

  function DropFailed(s: State, k: Key): (n: State)
    ensures n.artifacts == s.artifacts && n.bucket == s.bucket
  {
    if !In(s, k, PutFailed) then s
    else if Look(s, k).Has(Pending) then Goes(s, k, Done).(chunks := WithoutRow(s, k))
    else Goes(s, k, Done)
  }

  predicate CanFinalize(s: State, k: Key) {
    && In(s, k, Stored) && Look(s, k).Has(Pending) && Open(s, s.uploads[k].slot.art, s.uploads[k].at)
  }

  /** One batch: pending becomes ready and the deletion record goes; otherwise the upload is undone. */
  function Finalize(s: State, k: Key): (n: State)
    ensures n.artifacts == s.artifacts && n.bucket == s.bucket
  {
    if CanFinalize(s, k)
    then Goes(s, k, Done).(chunks := s.chunks[s.uploads[k].slot := Look(s, k).row.value.(status := Ready)], queue := s.queue - {k})
    else if In(s, k, Stored) then Goes(s, k, Undoing) else s
  }

  function FinalizeThrows(s: State, k: Key): (n: State)
    ensures n.artifacts == s.artifacts && n.bucket == s.bucket
  {
    if In(s, k, Stored) then Goes(s, k, Undoing) else s
  }

  function UndoObject(s: State, k: Key): (n: State)
    ensures n.artifacts == s.artifacts
  {
    if In(s, k, Undoing) then Goes(s, k, UndoingRow).(bucket := s.bucket - {k}) else s
  }

  function UndoRow(s: State, k: Key): (n: State)
    ensures n.artifacts == s.artifacts && n.bucket == s.bucket
  {
    if !In(s, k, UndoingRow) then s
    else if Look(s, k).Has(Pending) || Look(s, k).Has(Deleting) then Goes(s, k, Done).(chunks := WithoutRow(s, k))
    else Goes(s, k, Done)
  }

  /**
   The object delete threw, with or without effect. Its handler's batch keeps or
   inserts a `deleting` row for the sweeper, unless that batch fails as well.
   */
  function UndoThrows(s: State, k: Key, removed: bool, recorded: bool): (n: State)
    ensures n.artifacts == s.artifacts
  {
    if !In(s, k, Undoing) then s
    else Goes(s, k, Done).(bucket := if removed then s.bucket - {k} else s.bucket, chunks := if recorded then Recorded(s, k) else s.chunks)
  }

  function Recorded(s: State, k: Key): map<Slot, Chunk>
    requires k in s.uploads
  {
    var t := s.uploads[k].slot;
    if t !in s.chunks || Look(s, k).Has(Pending) || Look(s, k).Has(Deleting) then s.chunks[t := Chunk(k, Deleting, s.clock)] else s.chunks
  }

  // ----------------------------------------------------------- stale chunks

  function SweepSelect(s: State, id: nat, t: Slot): State {
    if id !in s.sweeps && t in s.chunks && s.chunks[t].status != Ready && s.chunks[t].at <= s.clock - RETRY
    then s.(sweeps := s.sweeps[id := Sweep(s.chunks[t].key, s.chunks[t].status, Seen)]) else s
  }

  /** A pending row is claimed by compare-and-swap; a deleting row needs no claim. */
  function SweepClaim(s: State, id: nat): State {
    if !(id in s.sweeps && s.sweeps[id].pc == Seen && s.sweeps[id].key in s.uploads) then s
    else
      var w := s.sweeps[id];
      var t := s.uploads[w.key].slot;
      if w.seen == Deleting then s.(sweeps := s.sweeps[id := w.(pc := Won)])
      else if Look(s, w.key).Has(Pending)
      then s.(chunks := s.chunks[t := Chunk(w.key, Deleting, s.clock)], sweeps := s.sweeps[id := w.(pc := Won)])
      else s.(sweeps := s.sweeps - {id})
  }

  function SweepObject(s: State, id: nat): State {
    if id in s.sweeps && s.sweeps[id].pc == Won
    then s.(bucket := s.bucket - {s.sweeps[id].key}, sweeps := s.sweeps[id := s.sweeps[id].(pc := Removed)]) else s
  }

  function SweepRow(s: State, id: nat): State {
    if !(id in s.sweeps && s.sweeps[id].pc == Removed && s.sweeps[id].key in s.uploads) then s
    else if Look(s, s.sweeps[id].key).Has(Deleting)
    then s.(chunks := WithoutRow(s, s.sweeps[id].key), sweeps := s.sweeps - {id})
    else s.(sweeps := s.sweeps - {id})
  }

  function SweepStops(s: State, id: nat): State { s.(sweeps := s.sweeps - {id}) }

  // -------------------------------------------------------- deletion queue

  predicate Selectable(s: State, keys: set<Key>, now: Time) {
    forall k :: k in keys ==> k in s.queue && s.queue[k].next <= now && !Live(s, k)
  }

  function QueueSelect(s: State, id: nat, keys: set<Key>, now: Time): State {
    if id !in s.passes && now <= s.clock && |keys| <= BATCH
       && Selectable(s, keys, now)
    then s.(passes := s.passes[id := Pass(now, keys, {})]) else s
  }

  function QueueObject(s: State, id: nat, k: Key): State {
    if id in s.passes && k in s.passes[id].keys
    then s.(bucket := s.bucket - {k}, passes := s.passes[id := s.passes[id].(gone := s.passes[id].gone + {k})]) else s
  }

  predicate Expired(s: State, p: Pass, k: Key) { k in p.keys && k in s.queue && s.queue[k].retain <= p.now }

  function Rescheduled(q: map<Key, Deletion>, keys: set<Key>, next: Time): map<Key, Deletion> {
    map k | k in q :: if k in keys then q[k].(next := next) else q[k]
  }

  /** Every object delete returned: rows past their retention go, the others wait ten more minutes. */
  function QueueCommit(s: State, id: nat): State {
    if id in s.passes && s.passes[id].gone == s.passes[id].keys
    then
      var p := s.passes[id];
      s.(queue := Rescheduled(s.queue - (set k | k in p.keys && Expired(s, p, k)), p.keys, p.now + RETRY), passes := s.passes - {id})
    else s
  }

  function QueueThrows(s: State, id: nat): State {
    if id in s.passes
    then s.(queue := Rescheduled(s.queue, s.passes[id].keys, s.passes[id].now + RETRY), passes := s.passes - {id}) else s
  }

  // ------------------------------------------------------------------ purge

  predicate InUse(s: State, a: nat) { exists i :: i in s.tasks && s.tasks[i].art == a && s.tasks[i].active }

  /** CLAIM_ARTIFACT_PURGE_SQL, by the retention sweep or by the buyer. */
  function PurgeClaim(s: State, id: nat, a: nat, now: Time): State {
    if id !in s.purges && a in s.artifacts && now <= s.clock && !InUse(s, a)
    then s.(artifacts := s.artifacts[a := s.artifacts[a].(purged := true, expires := now)],
            purges := s.purges[id := Purge(a, now, map[], {}, Owned)])
    else s
  }

  function RowsOf(c: map<Slot, Chunk>, a: nat): set<Slot> { set t | t in c && t.art == a }

  /** The lowest part numbers first, at most BATCH of them. */
  predicate FirstRows(c: map<Slot, Chunk>, a: nat, ts: set<Slot>) {
    && ts <= RowsOf(c, a) && |ts| <= BATCH && (|ts| == BATCH || ts == RowsOf(c, a))
    && (forall t, u :: t in ts && u in RowsOf(c, a) - ts ==> t.part < u.part)
  }

  function PurgeSelect(s: State, id: nat, ts: set<Slot>): State {
    if id in s.purges && s.purges[id].pc == Owned && FirstRows(s.chunks, s.purges[id].art, ts)
    then s.(purges := s.purges[id := s.purges[id].(rows := map t | t in ts && t in s.chunks :: s.chunks[t], pc := Listed)]) else s
  }

  function KeysOf(rows: map<Slot, Chunk>): set<Key> { set t | t in rows :: rows[t].key }

  predicate SameGeneration(rows: map<Slot, Chunk>, c: map<Slot, Chunk>, t: Slot) {
    t in rows && t in c && rows[t].key == c[t].key && rows[t].at == c[t].at
  }

  function EnqueueAll(q: map<Key, Deletion>, ks: set<Key>, next: Time, retain: Time): map<Key, Deletion> {
    map k | k in q.Keys + ks :: if k in ks then Enqueue(q, k, next, retain)[k] else q[k]
  }
  function Tombstone(c: map<Slot, Chunk>, rows: map<Slot, Chunk>): map<Slot, Chunk> {
    map t | t in c :: if SameGeneration(rows, c, t) then c[t].(status := Deleting) else c[t]
  }

  predicate CanTombstone(s: State, id: nat) {
    id in s.purges && s.purges[id].pc == Listed && s.clock < s.purges[id].now + RETENTION
  }

  /** One batch: every listed generation is queued for deletion and tombstoned. */
  function PurgeTombstone(s: State, id: nat): State {
    if CanTombstone(s, id) then
      var p := s.purges[id];
      s.(queue := EnqueueAll(s.queue, KeysOf(p.rows), p.now, p.now + RETENTION),
         chunks := Tombstone(s.chunks, p.rows),
         purges := s.purges[id := p.(pc := Tombstoned)])
    else s
  }

  function PurgeObject(s: State, id: nat, k: Key): State {
    if id in s.purges && s.purges[id].pc == Tombstoned && k in KeysOf(s.purges[id].rows)
    then s.(bucket := s.bucket - {k}, purges := s.purges[id := s.purges[id].(gone := s.purges[id].gone + {k})]) else s
  }

  function Purged(c: map<Slot, Chunk>, rows: map<Slot, Chunk>): map<Slot, Chunk> {
    map t | t in c && !SameGeneration(rows, c, t) :: c[t]
  }

  /** FINALIZE_ARTIFACT_PURGE_SQL: deleted only when no generation is left. */
  function Finalized(arts: map<nat, Artifact>, c: map<Slot, Chunk>, a: nat): map<nat, Artifact> {
    if a in arts && RowsOf(c, a) == {} then arts[a := arts[a].(status := ArtDeleted, purged := true)] else arts
  }

  function PurgeCommit(s: State, id: nat): State {
    if id in s.purges && s.purges[id].pc == Tombstoned && s.purges[id].gone == KeysOf(s.purges[id].rows)
    then
      var p := s.purges[id];
      var c := Purged(s.chunks, p.rows);
      s.(chunks := c, artifacts := Finalized(s.artifacts, c, p.art), purges := s.purges - {id})
    else s
  }

  function PurgeStops(s: State, id: nat): State { s.(purges := s.purges - {id}) }

  // -------------------------------------------------------- artifact and tasks

  function ReadyRows(s: State, a: nat): set<Slot> { set t | t in s.chunks && t.art == a && s.chunks[t].status == Ready }

  predicate CanComplete(s: State, a: nat, now: Time) {
    && now <= s.clock && Open(s, a, now) && |ReadyRows(s, a)| == s.artifacts[a].count
    && forall t :: t in s.chunks && t.art == a ==> s.chunks[t].status != Pending
  }

  /** As many ready rows as parts, and none pending. */
  function CompleteUpload(s: State, a: nat, now: Time): State {
    if CanComplete(s, a, now)
    then s.(artifacts := s.artifacts[a := s.artifacts[a].(status := ArtReady)]) else s
  }

  function SetExpiry(s: State, a: nat, expires: Time): State {
    if a in s.artifacts then s.(artifacts := s.artifacts[a := s.artifacts[a].(expires := expires)]) else s
  }

  function ReserveTask(s: State, i: nat, a: nat, now: Time): State {
    if i !in s.tasks && now <= s.clock && a in s.artifacts && s.artifacts[a].status == ArtReady
       && !s.artifacts[a].purged && s.artifacts[a].expires > now
    then s.(tasks := s.tasks[i := Use(a, true)]) else s
  }

  /** A finished task never becomes active again. */
  function EndTask(s: State, i: nat): State {
    if i in s.tasks then s.(tasks := s.tasks[i := s.tasks[i].(active := false)]) else s
  }

  function Tick(s: State, d: nat): State { s.(clock := s.clock + d) }

  // -------------------------------------------------------------------- runs

  datatype UploadStep =
    | ClaimStep(t: Slot, now: Time) | EnqueueStep | LandStep | PutOkStep | PutThrowsStep | DropStep
    | FinalizeStep | FinalizeThrowsStep | UndoObjectStep | UndoRowStep | UndoThrowsStep(removed: bool, recorded: bool)

  datatype CleanStep =
    | SweepSelectStep(t: Slot) | SweepClaimStep | SweepObjectStep | SweepRowStep | SweepStopsStep
    | QueueSelectStep(keys: set<Key>, now: Time) | QueueObjectStep(k: Key) | QueueCommitStep | QueueThrowsStep
    | PurgeClaimStep(a: nat, now: Time) | PurgeSelectStep(ts: set<Slot>) | PurgeTombstoneStep
    | PurgeObjectStep(k: Key) | PurgeCommitStep | PurgeStopsStep

  datatype OtherStep =
    | CreateStep(a: nat, count: nat, expires: Time) | CompleteStep(a: nat, now: Time) | ExpiryStep(a: nat, expires: Time)
    | ReserveStep(i: nat, a: nat, now: Time) | EndStep(i: nat) | TickStep(d: nat)

  datatype Step = Up(k: Key, u: UploadStep) | Clean(id: nat, c: CleanStep) | Other(o: OtherStep)

  function ApplyUpload(s: State, k: Key, e: UploadStep): State {
    match e
    case ClaimStep(t, now) => ClaimChunk(s, k, t, now)
    case EnqueueStep => EnqueueUpload(s, k)
    case LandStep => PutLands(s, k)
    case PutOkStep => PutSucceeds(s, k)
    case PutThrowsStep => PutThrows(s, k)
    case DropStep => DropFailed(s, k)
    case FinalizeStep => Finalize(s, k)
    case FinalizeThrowsStep => FinalizeThrows(s, k)
    case UndoObjectStep => UndoObject(s, k)
    case UndoRowStep => UndoRow(s, k)
    case UndoThrowsStep(removed, recorded) => UndoThrows(s, k, removed, recorded)
  }

  function ApplyClean(s: State, id: nat, e: CleanStep): State {
    match e
    case SweepSelectStep(t) => SweepSelect(s, id, t)
    case SweepClaimStep => SweepClaim(s, id)
    case SweepObjectStep => SweepObject(s, id)
    case SweepRowStep => SweepRow(s, id)
    case SweepStopsStep => SweepStops(s, id)
    case QueueSelectStep(keys, now) => QueueSelect(s, id, keys, now)
    case QueueObjectStep(k) => QueueObject(s, id, k)
    case QueueCommitStep => QueueCommit(s, id)
    case QueueThrowsStep => QueueThrows(s, id)
    case PurgeClaimStep(a, now) => PurgeClaim(s, id, a, now)
    case PurgeSelectStep(ts) => PurgeSelect(s, id, ts)
    case PurgeTombstoneStep => PurgeTombstone(s, id)
    case PurgeObjectStep(k) => PurgeObject(s, id, k)
    case PurgeCommitStep => PurgeCommit(s, id)
    case PurgeStopsStep => PurgeStops(s, id)
  }

  function ApplyOther(s: State, e: OtherStep): State {
    match e
    case CreateStep(a, count, expires) => Create(s, a, count, expires)
    case CompleteStep(a, now) => CompleteUpload(s, a, now)
    case ExpiryStep(a, expires) => SetExpiry(s, a, expires)
    case ReserveStep(i, a, now) => ReserveTask(s, i, a, now)
    case EndStep(i) => EndTask(s, i)
    case TickStep(d) => Tick(s, d)
  }

  function Apply(s: State, e: Step): State {
    match e
    case Up(k, u) => ApplyUpload(s, k, u)
    case Clean(id, c) => ApplyClean(s, id, c)
    case Other(o) => ApplyOther(s, o)
  }

  function Run(s: State, steps: seq<Step>): State
    decreases |steps|
  {
    if steps == [] then s else Run(Apply(s, steps[0]), steps[1..])
  }
}
