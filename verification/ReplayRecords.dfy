/**
 The supplier node's replay records: what the journal file holds, what the
 process remembers, and how both relate to everything ever claimed. Identifiers,
 bodies and nonces are numbers; digests and keyed commitments are injective.
 */
module ReplayRecords {
  import opened Totals

  type Time = int

  datatype Key = Digest(text: nat)
  datatype Commitment = Keyed(body: nat)

  datatype Record =
    | NonceRecord(key: Key, expires: nat)
    | RequestRecord(key: Key, commitment: Commitment, expires: nat)

  datatype Held = Held(commitment: Commitment, expires: nat)

  /** A record that reached the file in full, and the clock reading of its claim. */
  datatype Claim = Claim(record: Record, at: Time)

  const MAXIMUM_JOURNAL_BYTES: nat := 16 * 1024 * 1024
  const COMPACTION_BYTES: nat := 8 * 1024 * 1024
  const COMPACTION_APPENDS: nat := 1_000

  function Digits(n: nat): (d: nat)
    ensures 1 <= d
  {
    if n < 10 then 1 else 1 + Digits(n / 10)
  }

  /** One line of the file, newline included: the fixed JSON text, two hex digests at most, and the expiry. */
  function Size(r: Record): nat {
    match r
    case NonceRecord(_, e) => 115 + Digits(e)
    case RequestRecord(_, _, e) => 201 + Digits(e)
  }

  function Bytes(rs: seq<Record>): nat {
    if rs == [] then 0 else Bytes(rs[..|rs| - 1]) + Size(rs[|rs| - 1])
  }

  lemma BytesOfOneMore(rs: seq<Record>, r: Record)
    ensures Bytes(rs + [r]) == Bytes(rs) + Size(r)
  {
    assert (rs + [r])[..|rs|] == rs;
  }

  predicate SameKey(a: Record, b: Record) { a.NonceRecord? == b.NonceRecord? && a.key == b.key }

  // -------------------------------------------------------------- the file

  /** A later line of the same key finds every earlier one expired. */
  predicate LinesDistinct(rs: seq<Record>, now: Time) {
    forall i, j :: 0 <= i < j < |rs| && SameKey(rs[i], rs[j]) ==> rs[i].expires < now
  }

  /** Everything ever claimed: times never decrease, and a key is claimed again only after it expired. */
  predicate ClaimsDistinct(h: seq<Claim>, now: Time) {
    && (forall i :: 0 <= i < |h| ==> h[i].at <= now)
    && (forall i, j :: 0 <= i < j < |h| && SameKey(h[i].record, h[j].record) ==> h[i].record.expires < h[j].at)
  }

  predicate Claimed(h: seq<Claim>, r: Record) { exists i :: 0 <= i < |h| && h[i].record == r }

  /** No unexpired claim is missing from the file and nothing else is in it. */
  predicate Complete(rs: seq<Record>, h: seq<Claim>, now: Time) {
    && (forall i :: 0 <= i < |h| && h[i].record.expires >= now ==> h[i].record in rs)
    && (forall r :: r in rs ==> Claimed(h, r))
  }

  predicate FileOk(rs: seq<Record>, h: seq<Claim>, now: Time) {
    LinesDistinct(rs, now) && ClaimsDistinct(h, now) && Complete(rs, h, now) && Bytes(rs) <= MAXIMUM_JOURNAL_BYTES
  }

  // ------------------------------------------------------------- live lines

  /** The lines of the file that have not expired, in order. */
  function LiveLines(rs: seq<Record>, now: Time): seq<Record> {
    if rs == [] then [] else LiveLines(rs[..|rs| - 1], now) + (if rs[|rs| - 1].expires >= now then [rs[|rs| - 1]] else [])
  }

  /** What the live lines alone would take: the least size compaction can reach. */
  function LiveBytes(rs: seq<Record>, now: Time): nat { Bytes(LiveLines(rs, now)) }

  function LiveSize(r: Record, now: Time): nat { if r.expires >= now then Size(r) else 0 }

  lemma LiveBytesOfOneMore(rs: seq<Record>, r: Record, now: Time)
    ensures LiveBytes(rs + [r], now) == LiveBytes(rs, now) + LiveSize(r, now)
  {
    assert (rs + [r])[..|rs|] == rs;
    if r.expires >= now { BytesOfOneMore(LiveLines(rs, now), r); } else { assert LiveLines(rs, now) + [] == LiveLines(rs, now); }
  }

  /** The live lines are the file's unexpired records, each once. */
  lemma {:induction false} LiveLinesAre(rs: seq<Record>, now: Time)
    requires LinesDistinct(rs, now)
    ensures forall r :: r in LiveLines(rs, now) <==> r in rs && r.expires >= now
    ensures forall i, j :: 0 <= i < j < |LiveLines(rs, now)| ==> LiveLines(rs, now)[i] != LiveLines(rs, now)[j]
  {
    if rs != [] {
      var short, last := rs[..|rs| - 1], rs[|rs| - 1];
      LiveLinesAre(short, now);
      assert rs == short + [last];
    }
  }

  /** Distinct lines that all occur in the file are no longer than the file. */
  lemma {:induction false} SubsetFits(lines: seq<Record>, rs: seq<Record>)
    requires forall i, j :: 0 <= i < j < |lines| ==> lines[i] != lines[j]
    requires forall r :: r in lines ==> r in rs
    ensures Bytes(lines) <= Bytes(rs)
    decreases |lines|
  {
    if lines != [] {
      var last, short := lines[|lines| - 1], lines[..|lines| - 1];
      assert last in rs;
      var i :| 0 <= i < |rs| && rs[i] == last;
      BytesWithout(rs, i);
      forall r | r in short ensures r in rs[..i] + rs[i + 1..] { InTheRest(rs, i, r); }
      SubsetFits(short, rs[..i] + rs[i + 1..]);
    }
  }

  lemma InTheRest(rs: seq<Record>, i: nat, r: Record)
    requires i < |rs| && r in rs && r != rs[i]
    ensures r in rs[..i] + rs[i + 1..]
  {
    assert rs == rs[..i] + [rs[i]] + rs[i + 1..];
  }

  lemma {:induction false} BytesWithout(lines: seq<Record>, i: nat)
    requires i < |lines|
    ensures Bytes(lines) == Bytes(lines[..i] + lines[i + 1..]) + Size(lines[i])
    decreases |lines|
  {
    if i == |lines| - 1 {
      assert lines[..i] + lines[i + 1..] == lines[..i];
    } else {
      var short := lines[..|lines| - 1];
      BytesWithout(short, i);
      var rest := lines[..i] + lines[i + 1..];
      assert rest[..|rest| - 1] == short[..i] + short[i + 1..];
    }
  }

  /** Two files with the same unexpired records have the same live size, which no file undercuts. */
  lemma LiveBytesAgree(rs: seq<Record>, lines: seq<Record>, now: Time)
    requires LinesDistinct(rs, now) && LinesDistinct(lines, now)
    requires forall r: Record :: r.expires >= now ==> (r in rs <==> r in lines)
    ensures LiveBytes(rs, now) == LiveBytes(lines, now) <= Bytes(lines)
    ensures (forall r :: r in lines ==> r.expires >= now) ==> LiveBytes(lines, now) == Bytes(lines)
  {
    LiveLinesAre(rs, now);
    LiveLinesAre(lines, now);
    SubsetFits(LiveLines(rs, now), LiveLines(lines, now));
    SubsetFits(LiveLines(lines, now), LiveLines(rs, now));
    SubsetFits(LiveLines(lines, now), lines);
    if forall r :: r in lines ==> r.expires >= now { AllLinesLive(lines, now); }
  }

  lemma {:induction false} AllLinesLive(lines: seq<Record>, now: Time)
    requires forall r :: r in lines ==> r.expires >= now
    ensures LiveLines(lines, now) == lines
  {
    if lines != [] {
      AllLinesLive(lines[..|lines| - 1], now);
      assert lines[|lines| - 1] in lines;
    }
  }

  // ------------------------------------------------------------ the memory

  /** What the maps say about one record. */
  predicate Remembers(nonces: map<Key, nat>, requests: map<Key, Held>, r: Record) {
    match r
    case NonceRecord(k, e) => k in nonces && nonces[k] == e
    case RequestRecord(k, c, e) => k in requests && requests[k] == Held(c, e)
  }

  /** The maps hold exactly the file's live records, and perhaps expired ones. */
  ghost predicate MemoryOk(nonces: map<Key, nat>, requests: map<Key, Held>, rs: seq<Record>, now: Time) {
    && (forall r :: r in rs && r.expires >= now ==> Remembers(nonces, requests, r))
    && (forall k :: k in nonces && nonces[k] >= now ==> NonceRecord(k, nonces[k]) in rs)
    && (forall k :: k in requests && requests[k].expires >= now ==> RequestRecord(k, requests[k].commitment, requests[k].expires) in rs)
  }

  // ----------------------------------------------------------------- appends

  /** No live claim of the same key stands in the way. */
  predicate Free(h: seq<Claim>, r: Record, now: Time) {
    forall i :: 0 <= i < |h| && SameKey(h[i].record, r) ==> h[i].record.expires < now
  }

  lemma AppendKeepsFile(rs: seq<Record>, h: seq<Claim>, r: Record, now: Time)
    requires FileOk(rs, h, now) && Free(h, r, now) && Bytes(rs) + Size(r) <= MAXIMUM_JOURNAL_BYTES
    ensures FileOk(rs + [r], h + [Claim(r, now)], now)
  {
    BytesOfOneMore(rs, r);
    var rs', h' := rs + [r], h + [Claim(r, now)];
    forall i, j | 0 <= i < j < |rs'| && SameKey(rs'[i], rs'[j]) ensures rs'[i].expires < now {
      if j == |rs| { assert rs[i] in rs && Claimed(h, rs[i]); }
    }
    forall q | q in rs' ensures Claimed(h', q) {
      if q in rs {
        var i :| 0 <= i < |h| && h[i].record == q;
        assert h'[i].record == q;
      } else {
        assert h'[|h|].record == q;
      }
    }
  }

  lemma AppendKeepsMemory(nonces: map<Key, nat>, requests: map<Key, Held>, rs: seq<Record>, h: seq<Claim>, r: Record, now: Time)
    requires MemoryOk(nonces, requests, rs, now) && FileOk(rs, h, now) && Free(h, r, now)
    ensures match r
            case NonceRecord(k, e) => MemoryOk(nonces[k := e], requests, rs + [r], now)
            case RequestRecord(k, c, e) => MemoryOk(nonces, requests[k := Held(c, e)], rs + [r], now)
  {
    forall q | q in rs && SameKey(q, r) ensures q.expires < now {
      assert Claimed(h, q);
    }
  }

  /** The check against the map is the check against everything ever claimed. */
  lemma MemoryDecides(nonces: map<Key, nat>, requests: map<Key, Held>, rs: seq<Record>, h: seq<Claim>, k: Key, now: Time)
    requires MemoryOk(nonces, requests, rs, now) && FileOk(rs, h, now)
    ensures (k in nonces && nonces[k] >= now) <==>
            (exists i :: 0 <= i < |h| && h[i].record.NonceRecord? && h[i].record.key == k && h[i].record.expires >= now)
    ensures (k in requests && requests[k].expires >= now) <==>
            (exists i :: 0 <= i < |h| && h[i].record.RequestRecord? && h[i].record.key == k && h[i].record.expires >= now)
    ensures k in requests && requests[k].expires >= now ==> Claimed(h, RequestRecord(k, requests[k].commitment, requests[k].expires))
  {
    if k in nonces && nonces[k] >= now { assert Claimed(h, NonceRecord(k, nonces[k])); }
    if k in requests && requests[k].expires >= now { assert Claimed(h, RequestRecord(k, requests[k].commitment, requests[k].expires)); }
  }

  // ------------------------------------------------------------- compaction

  /** The lines compaction writes: the maps' own content, one line a key. */
  ghost predicate LinesOf(rs: seq<Record>, nonces: map<Key, nat>, requests: map<Key, Held>) {
    && (forall i, j :: 0 <= i < j < |rs| ==> !SameKey(rs[i], rs[j]))
    && (forall r :: r in rs <==> Remembers(nonces, requests, r))
  }

  predicate AllLive(nonces: map<Key, nat>, requests: map<Key, Held>, now: Time) {
    && (forall k :: k in nonces ==> nonces[k] >= now)
    && (forall k :: k in requests ==> requests[k].expires >= now)
  }

  /** Rewriting the file from the pruned maps loses no live claim and keeps the maps in step. */
  lemma CompactionKeeps(nonces: map<Key, nat>, requests: map<Key, Held>, rs: seq<Record>, h: seq<Claim>, lines: seq<Record>, now: Time)
    requires FileOk(rs, h, now) && MemoryOk(nonces, requests, rs, now) && AllLive(nonces, requests, now)
    requires LinesOf(lines, nonces, requests) && Bytes(lines) <= MAXIMUM_JOURNAL_BYTES
    ensures FileOk(lines, h, now) && MemoryOk(nonces, requests, lines, now)
  {
    forall r | r in lines ensures Claimed(h, r) { assert Remembers(nonces, requests, r) && r in rs; }
    forall k | k in nonces ensures NonceRecord(k, nonces[k]) in lines { assert Remembers(nonces, requests, NonceRecord(k, nonces[k])); }
    forall k | k in requests ensures RequestRecord(k, requests[k].commitment, requests[k].expires) in lines {
      assert Remembers(nonces, requests, RequestRecord(k, requests[k].commitment, requests[k].expires));
    }
  }

  // ------------------------------------------------------------------ loading

  /** Loading the first n lines, skipping what has expired. */
  ghost predicate LoadedTo(nonces: map<Key, nat>, requests: map<Key, Held>, rs: seq<Record>, n: nat, now: Time)
    requires n <= |rs|
  {
    && (forall i :: 0 <= i < n && rs[i].expires >= now ==> Remembers(nonces, requests, rs[i]))
    && (forall k :: k in nonces ==> nonces[k] >= now && exists i :: 0 <= i < n && rs[i] == NonceRecord(k, nonces[k]))
    && (forall k :: k in requests ==> requests[k].expires >= now
                                      && exists i :: 0 <= i < n && rs[i] == RequestRecord(k, requests[k].commitment, requests[k].expires))
  }

  /** The duplicate check never fires on a file this node wrote. */
  lemma NoFalseDuplicate(nonces: map<Key, nat>, requests: map<Key, Held>, rs: seq<Record>, n: nat, now: Time)
    requires n < |rs| && LinesDistinct(rs, now) && LoadedTo(nonces, requests, rs, n, now) && rs[n].expires >= now
    ensures rs[n].NonceRecord? ==> rs[n].key !in nonces
    ensures rs[n].RequestRecord? ==> rs[n].key !in requests
  {
  }

  lemma LoadsNext(nonces: map<Key, nat>, requests: map<Key, Held>, rs: seq<Record>, n: nat, now: Time)
    requires n < |rs| && LoadedTo(nonces, requests, rs, n, now)
    requires rs[n].NonceRecord? ==> rs[n].key !in nonces
    requires rs[n].RequestRecord? ==> rs[n].key !in requests
    ensures rs[n].expires < now ==> LoadedTo(nonces, requests, rs, n + 1, now)
    ensures rs[n].expires >= now ==>
              match rs[n]
              case NonceRecord(k, e) => LoadedTo(nonces[k := e], requests, rs, n + 1, now)
              case RequestRecord(k, c, e) => LoadedTo(nonces, requests[k := Held(c, e)], rs, n + 1, now)
  {
    if rs[n].expires >= now {
      match rs[n]
      case NonceRecord(k, e) => assert rs[n] == NonceRecord(k, nonces[k := e][k]);
      case RequestRecord(k, c, e) => assert rs[n] == RequestRecord(k, c, e);
    }
  }

  lemma FullyLoaded(nonces: map<Key, nat>, requests: map<Key, Held>, rs: seq<Record>, now: Time)
    requires LoadedTo(nonces, requests, rs, |rs|, now)
    ensures MemoryOk(nonces, requests, rs, now) && AllLive(nonces, requests, now)
  {
  }
}
