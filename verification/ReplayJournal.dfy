/**
 The append-only replay journal of a supplier node: claims are durable before
 they are remembered, compaction swaps the file atomically, and any failure
 stops the process from accepting anything more.
 */
module ReplayJournal {
  import opened Totals
  import opened ReplayRecords

  /** A signed envelope that verification let through, and an inference that was started. */
  datatype Envelope = Envelope(timestamp: nat, nonce: nat, at: Time)
  datatype Execution = Execution(id: nat, body: nat, at: Time)

  /** The file, which outlives the process; the histories exist only for the proofs. */
  class Disk {
    var records: seq<Record>
    var torn: bool
    ghost var written: seq<Claim>
    ghost var accepted: seq<Envelope>
    ghost var executed: seq<Execution>

    constructor ()
      ensures records == [] && !torn && written == [] && accepted == [] && executed == []
    {
      records, torn := [], false;
      written, accepted, executed := [], [], [];
    }
  }

  /** How far a compaction gets: all the way, not to its rename, or past the rename but not to its end. */
  datatype Rename = Completed | Unreached | Unfinished

  /** What goes wrong during one call: nothing, a compaction, or the append before, inside or after its line. */
  datatype Fault = NoFault | CompactFails(replaced: bool) | WriteLost | WriteTorn | SyncFails | LateCompactFails(replaced: bool) {
    /** The compaction before the append, or at startup. */
    function Early(): Rename {
      if CompactFails? then (if replaced then Unfinished else Unreached) else Completed
    }

    /** The compaction after the append. */
    function Late(): Rename {
      if LateCompactFails? then (if replaced then Unfinished else Unreached) else Completed
    }
  }

  datatype Outcome = Accepted | Replay | Conflict | Unavailable

  function LiveNonces(m: map<Key, nat>, now: Time): map<Key, nat> { map k | k in m && m[k] >= now :: m[k] }
  function LiveRequests(m: map<Key, Held>, now: Time): map<Key, Held> { map k | k in m && m[k].expires >= now :: m[k] }

  class PersistentJournal {
    const disk: Disk
    const interval: nat
    var nonces: map<Key, nat>
    var requests: map<Key, Held>
    var appended: nat
    var lastCompacted: Time
    var failed: bool

    ghost predicate Valid(now: Time)
      reads this, disk`records, disk`torn, disk`written
    {
      && FileOk(disk.records, disk.written, now)
      && (!failed ==> !disk.torn && MemoryOk(nonces, requests, disk.records, now))
    }

    constructor (d: Disk, i: nat, n: map<Key, nat>, r: map<Key, Held>, now: Time)
      ensures disk == d && interval == i && nonces == n && requests == r && !failed
    {
      disk, interval, nonces, requests := d, i, n, r;
      appended, lastCompacted, failed := 0, now, false;
    }

    /** Startup: refuse a torn or oversized file, load what is live, rewrite the file. */
    static method Open(disk: Disk, interval: nat, now: Time, fault: Fault) returns (j: PersistentJournal?)
      requires FileOk(disk.records, disk.written, now)
      modifies disk`records
      ensures FileOk(disk.records, disk.written, now)
      ensures disk.torn ==> j == null
      ensures !disk.torn && !fault.CompactFails? ==> j != null
      ensures j != null ==> fresh(j) && j.disk == disk && !j.failed && j.Valid(now) && AllLive(j.nonces, j.requests, now)
      ensures j != null ==> forall r: Record :: r.expires >= now ==> (Remembers(j.nonces, j.requests, r) <==> Claimed(disk.written, r))
      ensures j == null && !disk.torn ==> fault.CompactFails?
      ensures j != null ==> Bytes(disk.records) == LiveBytes(disk.records, now) && j.Tidy(now) && j.interval == interval
      ensures LiveBytes(disk.records, now) == old(LiveBytes(disk.records, now))
    {
      j := null;
      if Bytes(disk.records) > MAXIMUM_JOURNAL_BYTES || disk.torn { return; }
      var ok, n, r := Load(disk.records, now);
      if !ok { return; }
      var started := new PersistentJournal(disk, interval, n, r, now);
      var compacted := started.Compact(now, fault.Early());
      if compacted { j := started; }
    }

    /** The live lines in order; a live line whose key is already loaded refuses startup. */
    static method Load(rs: seq<Record>, now: Time) returns (ok: bool, n: map<Key, nat>, r: map<Key, Held>)
      ensures LinesDistinct(rs, now) ==> ok
      ensures ok ==> MemoryOk(n, r, rs, now) && AllLive(n, r, now)
    {
      n, r := map[], map[];
      var i := 0;
      while i < |rs|
        invariant 0 <= i <= |rs| && LoadedTo(n, r, rs, i, now)
      {
        if LinesDistinct(rs, now) && rs[i].expires >= now { NoFalseDuplicate(n, r, rs, i, now); }
        match rs[i] {
          case NonceRecord(k, e) =>
            if e >= now {
              if k in n { return false, n, r; }
              LoadsNext(n, r, rs, i, now);
              n := n[k := e];
            } else {
              Skips(n, r, rs, i, now);
            }
          case RequestRecord(k, c, e) =>
            if e >= now {
              if k in r { return false, n, r; }
              LoadsNext(n, r, rs, i, now);
              r := r[k := Held(c, e)];
            } else {
              Skips(n, r, rs, i, now);
            }
        }
        i := i + 1;
      }
      FullyLoaded(n, r, rs, now);
      ok := true;
    }

    method Prune(now: Time)
      modifies this`nonces, this`requests
      ensures nonces == LiveNonces(old(nonces), now) && requests == LiveRequests(old(requests), now)
    {
      var n, r := nonces.Keys, requests.Keys;
      while n != {}
        invariant n <= old(nonces).Keys && requests == old(requests)
        invariant nonces == map k | k in old(nonces) && (k in n || old(nonces)[k] >= now) :: old(nonces)[k]
        decreases |n|
      {
        var k :| k in n;
        if nonces[k] < now { nonces := nonces - {k}; }
        n := n - {k};
      }
      while r != {}
        invariant r <= old(requests).Keys && nonces == LiveNonces(old(nonces), now)
        invariant requests == map k | k in old(requests) && (k in r || old(requests)[k].expires >= now) :: old(requests)[k]
        decreases |r|
      {
        var k :| k in r;
        if requests[k].expires < now { requests := requests - {k}; }
        r := r - {k};
      }
    }

    /** One line a key, nonces first. */
    method Lines() returns (lines: seq<Record>)
      ensures LinesOf(lines, nonces, requests)
    {
      lines := [];
      var n, r := nonces.Keys, requests.Keys;
      while n != {}
        invariant n <= nonces.Keys
        invariant forall q: Record :: q in lines <==> q.NonceRecord? && q.key in nonces.Keys - n && q.expires == nonces[q.key]
        invariant forall i, j :: 0 <= i < j < |lines| ==> !SameKey(lines[i], lines[j])
        decreases |n|
      {
        var k :| k in n;
        assert forall q: Record :: q in lines ==> q.key != k;
        lines, n := lines + [NonceRecord(k, nonces[k])], n - {k};
      }
      while r != {}
        invariant r <= requests.Keys
        invariant forall q: Record :: q in lines <==>
                    || (q.NonceRecord? && q.key in nonces && q.expires == nonces[q.key])
                    || (q.RequestRecord? && q.key in requests.Keys - r && requests[q.key] == Held(q.commitment, q.expires))
        invariant forall i, j :: 0 <= i < j < |lines| ==> !SameKey(lines[i], lines[j])
        decreases |r|
      {
        var k :| k in r;
        assert forall q: Record :: q in lines && q.RequestRecord? ==> q.key != k;
        lines, r := lines + [RequestRecord(k, requests[k].commitment, requests[k].expires)], r - {k};
      }
    }

    /**
     Rewrites the file from the pruned maps. One that fails leaves the old file or,
     past its rename, the whole new one.
     */
    method Compact(now: Time, how: Rename) returns (ok: bool)
      requires !failed && Valid(now)
      modifies this`nonces, this`requests, this`appended, this`lastCompacted, disk`records
      ensures Valid(now) && AllLive(nonces, requests, now)
      ensures disk.records == old(disk.records) || LinesOf(disk.records, nonces, requests)
      ensures ok <==> how.Completed?
      ensures ok || how.Unfinished? ==> LinesOf(disk.records, nonces, requests)
      ensures how.Unreached? ==> disk.records == old(disk.records)
      ensures LiveBytes(disk.records, now) == old(LiveBytes(disk.records, now))
      ensures ok ==> LiveBytes(disk.records, now) == Bytes(disk.records) && appended == 0 && lastCompacted == now
      ensures forall r: Record :: r.expires >= now ==> (Remembers(nonces, requests, r) <==> Remembers(old(nonces), old(requests), r))
    {
      Prune(now);
      PruneKeeps(old(nonces), old(requests), disk.records, now);
      var lines := Lines();
      LiveLinesFit(lines, nonces, requests, disk.records, disk.written, now);
      if Bytes(lines) > MAXIMUM_JOURNAL_BYTES || how.Unreached? { return false; }
      CompactionKeeps(nonces, requests, disk.records, disk.written, lines, now);
      LiveLinesStay(lines, nonces, requests, disk.records, disk.written, now);
      disk.records := lines;
      if how.Unfinished? { return false; }
      appended, lastCompacted := 0, now;
      ok := true;
    }

    /** The live lines leave room for one more. */
    ghost predicate HasRoom(record: Record, now: Time)
      reads disk`records
    {
      LiveBytes(disk.records, now) + Size(record) <= 16_777_216
    }

    /**
     Makes one record durable. A failure of any kind is terminal, whatever part of
     the line reached the file: none of it, a torn part, or all of it. When nothing
     breaks it fails only for want of room beside the live lines.
     */
    method Append(record: Record, now: Time, fault: Fault) returns (ok: bool, ghost base: seq<Record>)
      requires !failed && Valid(now) && Free(disk.written, record, now)
      modifies this`nonces, this`requests, this`appended, this`lastCompacted, this`failed, disk`records, disk`torn, disk`written
      ensures FileOk(disk.records, disk.written, now) && failed == !ok
      ensures ok ==> disk.written == old(disk.written) + [Claim(record, now)] && disk.records == base + [record] && !disk.torn
      ensures ok ==> FileOk(base, old(disk.written), now) && MemoryOk(nonces, requests, base, now)
      ensures ok ==> LiveBytes(disk.records, now) == old(LiveBytes(disk.records, now)) + LiveSize(record, now)
      ensures !ok ==> disk.written == old(disk.written) || disk.written == old(disk.written) + [Claim(record, now)]
      ensures disk.torn <==> fault.WriteTorn? && old(HasRoom(record, now))
      ensures ok ==> old(HasRoom(record, now))
      ensures fault.NoFault? || fault.LateCompactFails? ==> (ok <==> old(HasRoom(record, now)))
    {
      base := disk.records;
      LiveBytesAgree(base, base, now);
      if Bytes(disk.records) + Size(record) > MAXIMUM_JOURNAL_BYTES {
        var compacted := Compact(now, fault.Early());
        if !compacted { failed := true; return false, base; }
        base := disk.records;
      }
      if Bytes(disk.records) + Size(record) > MAXIMUM_JOURNAL_BYTES { failed := true; return false, base; }
      if fault.WriteLost? { failed := true; return false, base; }
      if fault.WriteTorn? { failed, disk.torn := true, true; return false, base; }
      AppendKeepsFile(disk.records, disk.written, record, now);
      LiveBytesOfOneMore(disk.records, record, now);
      disk.records := disk.records + [record];
      disk.written := disk.written + [Claim(record, now)];
      if fault.SyncFails? { failed := true; return false, base; }
      appended := appended + 1;
      ok := true;
    }

    /**
     Few appends and little time since the last compaction, and no more than eight
     megabytes in the file unless all of it is live.
     */
    ghost predicate Tidy(now: Time)
      reads this`appended, this`lastCompacted, disk`records
    {
      && appended < 1_000 && (interval > 0 ==> now - lastCompacted < interval)
      && (Bytes(disk.records) < 8_388_608 || Bytes(disk.records) == LiveBytes(disk.records, now))
    }

    method MaybeCompact(now: Time, how: Rename) returns (ok: bool)
      requires !failed && Valid(now)
      modifies this`nonces, this`requests, this`appended, this`lastCompacted, this`failed, disk`records
      ensures Valid(now) && failed == !ok
      ensures how.Completed? ==> ok
      ensures ok ==> Tidy(now)
      ensures LiveBytes(disk.records, now) == old(LiveBytes(disk.records, now))
    {
      ok := true;
      if appended >= COMPACTION_APPENDS || now - lastCompacted >= interval || Bytes(disk.records) >= COMPACTION_BYTES {
        ok := Compact(now, how);
      }
      failed := !ok;
    }

    /** Durable first, remembered second, compacted when due. */
    method Persist(record: Record, now: Time, fault: Fault) returns (o: Outcome)
      requires !failed && Valid(now) && Free(disk.written, record, now)
      modifies this`nonces, this`requests, this`appended, this`lastCompacted, this`failed, disk`records, disk`torn, disk`written
      ensures Valid(now) && (o.Accepted? || o.Unavailable?) && (o.Unavailable? <==> failed)
      ensures o.Accepted? ==> disk.written == old(disk.written) + [Claim(record, now)]
      ensures o.Accepted? ==> LiveBytes(disk.records, now) == old(LiveBytes(disk.records, now)) + LiveSize(record, now)
      ensures o.Unavailable? ==> disk.written == old(disk.written) || disk.written == old(disk.written) + [Claim(record, now)]
      ensures disk.torn ==> fault.WriteTorn?
      ensures o.Accepted? ==> old(HasRoom(record, now)) && Tidy(now)
      ensures fault.NoFault? ==> (o.Accepted? <==> old(HasRoom(record, now)))
    {
      var ok, base := Append(record, now, fault);
      if !ok { return Unavailable; }
      AppendKeepsMemory(nonces, requests, base, old(disk.written), record, now);
      match record {
        case NonceRecord(k, e) => nonces := nonces[k := e];
        case RequestRecord(k, c, e) => requests := requests[k := Held(c, e)];
      }
      var compacted := MaybeCompact(now, fault.Late());
      o := if compacted then Accepted else Unavailable;
    }

    ghost predicate LiveNonce(nonce: nat, now: Time)
      reads disk`written
    {
      exists i :: 0 <= i < |disk.written| && disk.written[i].record.NonceRecord?
                  && disk.written[i].record.key == Digest(nonce) && disk.written[i].record.expires >= now
    }

    ghost predicate SameBody(id: nat, body: nat, now: Time)
      reads disk`written
    {
      LiveWith(disk.written, Digest(id), Keyed(body), true, now)
    }
    ghost predicate OtherBody(id: nat, body: nat, now: Time)
      reads disk`written
    {
      LiveWith(disk.written, Digest(id), Keyed(body), false, now)
    }

    /** Refused as a replay exactly when a claim of this nonce, by this or any earlier process, is still live. */
    method ClaimNonce(nonce: nat, expires: nat, now: Time, fault: Fault) returns (o: Outcome)
      requires Valid(now)
      modifies this`nonces, this`requests, this`appended, this`lastCompacted, this`failed, disk`records, disk`torn, disk`written
      ensures Valid(now) && !o.Conflict?
      ensures o.Replay? <==> (!old(failed) && old(LiveNonce(nonce, now)))
      ensures o.Unavailable? <==> failed
      ensures old(failed) ==> failed
      ensures o.Accepted? ==> old(HasRoom(NonceRecord(Digest(nonce), expires), now)) && Tidy(now)
      ensures fault.NoFault? && !old(failed) && !old(LiveNonce(nonce, now)) ==>
                (o.Accepted? <==> old(HasRoom(NonceRecord(Digest(nonce), expires), now)))
      ensures o.Accepted? ==>
                LiveBytes(disk.records, now) == old(LiveBytes(disk.records, now)) + LiveSize(NonceRecord(Digest(nonce), expires), now)
      ensures disk.torn ==> old(disk.torn) || fault.WriteTorn?
      ensures o.Accepted? ==> disk.written == old(disk.written) + [Claim(NonceRecord(Digest(nonce), expires), now)]
      ensures o.Accepted? ==> Free(old(disk.written), NonceRecord(Digest(nonce), expires), now)
      ensures o.Replay? || old(failed) ==> disk.written == old(disk.written)
      ensures o.Unavailable? ==> disk.written == old(disk.written)
                                 || disk.written == old(disk.written) + [Claim(NonceRecord(Digest(nonce), expires), now)]
    {
      if failed { return Unavailable; }
      var key := Digest(nonce);
      PruneKeeps(nonces, requests, disk.records, now);
      Prune(now);
      MemoryDecides(nonces, requests, disk.records, disk.written, key, now);
      if key in nonces && nonces[key] >= now { return Replay; }
      o := Persist(NonceRecord(key, expires), now, fault);
    }

    /** A live claim of the same identifier refuses: as a conflict when its body differs, as a replay otherwise. */
    method ClaimRequest(id: nat, body: nat, expires: nat, now: Time, fault: Fault) returns (o: Outcome)
      requires Valid(now)
      modifies this`nonces, this`requests, this`appended, this`lastCompacted, this`failed, disk`records, disk`torn, disk`written
      ensures Valid(now)
      ensures o.Conflict? <==> !old(failed) && old(OtherBody(id, body, now))
      ensures o.Replay? <==> !old(failed) && old(SameBody(id, body, now))
      ensures o.Unavailable? <==> failed
      ensures old(failed) ==> failed
      ensures o.Accepted? ==> old(HasRoom(RequestRecord(Digest(id), Keyed(body), expires), now)) && Tidy(now)
      ensures fault.NoFault? && !old(failed) && !old(SameBody(id, body, now)) && !old(OtherBody(id, body, now)) ==>
                (o.Accepted? <==> old(HasRoom(RequestRecord(Digest(id), Keyed(body), expires), now)))
      ensures o.Accepted? ==>
                LiveBytes(disk.records, now)
                == old(LiveBytes(disk.records, now)) + LiveSize(RequestRecord(Digest(id), Keyed(body), expires), now)
      ensures disk.torn ==> old(disk.torn) || fault.WriteTorn?
      ensures o.Accepted? ==> disk.written == old(disk.written) + [Claim(RequestRecord(Digest(id), Keyed(body), expires), now)]
      ensures o.Accepted? ==> Free(old(disk.written), RequestRecord(Digest(id), Keyed(body), expires), now)
      ensures o.Replay? || o.Conflict? || old(failed) ==> disk.written == old(disk.written)
      ensures o.Unavailable? ==> disk.written == old(disk.written)
                                 || disk.written == old(disk.written) + [Claim(RequestRecord(Digest(id), Keyed(body), expires), now)]
    {
      if failed { return Unavailable; }
      var key := Digest(id);
      PruneKeeps(nonces, requests, disk.records, now);
      Prune(now);
      MemoryDecides(nonces, requests, disk.records, disk.written, key, now);
      if key in requests && requests[key].expires >= now {
        OneLiveBody(nonces, requests, disk.records, disk.written, key, Keyed(body), now);
        return if requests[key].commitment != Keyed(body) then Conflict else Replay;
      }
      o := Persist(RequestRecord(key, Keyed(body), expires), now, fault);
    }
  }

  /** Some live claim of this request carries this commitment (or another one). */
  predicate LiveWith(h: seq<Claim>, key: Key, c: Commitment, same: bool, now: Time) {
    exists i :: 0 <= i < |h| && h[i].record.RequestRecord? && h[i].record.key == key && h[i].record.expires >= now
                && (h[i].record.commitment == c <==> same)
  }

  /** At most one claim of a key is live at a time, and the map holds it. */
  lemma OneLiveBody(nonces: map<Key, nat>, requests: map<Key, Held>, rs: seq<Record>, h: seq<Claim>, key: Key, c: Commitment, now: Time)
    requires MemoryOk(nonces, requests, rs, now) && FileOk(rs, h, now) && key in requests && requests[key].expires >= now
    ensures LiveWith(h, key, c, true, now) <==> requests[key].commitment == c
    ensures LiveWith(h, key, c, false, now) <==> requests[key].commitment != c
  {
    var held := RequestRecord(key, requests[key].commitment, requests[key].expires);
    assert Claimed(h, held);
    forall i | 0 <= i < |h| && h[i].record.RequestRecord? && h[i].record.key == key && h[i].record.expires >= now
      ensures h[i].record.commitment == requests[key].commitment
    {
      assert h[i].record in rs && Remembers(nonces, requests, h[i].record);
    }
  }

  lemma Skips(n: map<Key, nat>, r: map<Key, Held>, rs: seq<Record>, i: nat, now: Time)
    requires i < |rs| && LoadedTo(n, r, rs, i, now) && rs[i].expires < now
    ensures LoadedTo(n, r, rs, i + 1, now)
  {
  }

  lemma PruneKeeps(n: map<Key, nat>, r: map<Key, Held>, rs: seq<Record>, now: Time)
    requires MemoryOk(n, r, rs, now)
    ensures MemoryOk(LiveNonces(n, now), LiveRequests(r, now), rs, now) && AllLive(LiveNonces(n, now), LiveRequests(r, now), now)
  {
  }

  /** Compaction never runs out of room: live lines are lines the file already holds. */
  lemma LiveLinesFit(lines: seq<Record>, n: map<Key, nat>, r: map<Key, Held>, rs: seq<Record>, h: seq<Claim>, now: Time)
    requires LinesOf(lines, n, r) && MemoryOk(n, r, rs, now) && AllLive(n, r, now) && FileOk(rs, h, now)
    ensures Bytes(lines) <= MAXIMUM_JOURNAL_BYTES
  {
    forall q | q in lines ensures q in rs { assert Remembers(n, r, q); }
    forall i, j | 0 <= i < j < |lines| ensures lines[i] != lines[j] { assert !SameKey(lines[i], lines[j]); }
    SubsetFits(lines, rs);
  }

  /** Compaction drops expired lines only. */
  lemma LiveLinesStay(lines: seq<Record>, n: map<Key, nat>, r: map<Key, Held>, rs: seq<Record>, h: seq<Claim>, now: Time)
    requires LinesOf(lines, n, r) && MemoryOk(n, r, rs, now) && AllLive(n, r, now) && FileOk(rs, h, now)
    ensures LiveBytes(rs, now) == LiveBytes(lines, now) == Bytes(lines)
  {
    forall q: Record | q.expires >= now ensures q in rs <==> q in lines { assert q in lines <==> Remembers(n, r, q); }
    forall q | q in lines ensures q.expires >= now { assert Remembers(n, r, q); }
    LiveBytesAgree(rs, lines, now);
  }
}
