/** Any sequence of calls, failures, crashes and restarts of a supplier node. */
module SupplierRuns {
  import opened Totals
  import opened ReplayRecords
  import opened ReplayJournal
  import opened SupplierRuntime

  datatype Op =
    | Infer(id: nat, body: nat, nonce: nat, timestamp: nat, wellFormed: bool, fault: Fault, later: Fault)
    | Attest(nonce: nat, timestamp: nat, fault: Fault)
    | CompactNow(how: Rename)
    | Drain
    | Restart(fault: Fault)

  datatype Event = Event(op: Op, now: nat)

  /** The event's write can leave part of a line in the file. */
  predicate Tears(e: Event) {
    match e.op
    case Infer(_, _, _, _, _, fault, later) => fault.WriteTorn? || later.WriteTorn?
    case Attest(_, _, fault) => fault.WriteTorn?
    case _ => false
  }

  predicate TearsBefore(es: seq<Event>, n: nat)
    requires n <= |es|
  {
    exists j :: 0 <= j < n && Tears(es[j])
  }

  /** The clock never runs backwards, not even across restarts. */
  predicate ClockOk(events: seq<Event>) { forall i, j :: 0 <= i < j <= |events| ==> ClockAfter(events, i) <= ClockAfter(events, j) }

  /** The clock reading of the last of n events. */
  function ClockAfter(events: seq<Event>, n: nat): nat
    requires n <= |events|
  {
    if n == 0 then 0 else events[n - 1].now
  }

  /** What a started process holds is exactly the live claims of every process before it. */
  ghost predicate Recalls(j: PersistentJournal, now: Time)
    reads j, j.disk
  {
    && AllLive(j.nonces, j.requests, now)
    && forall r: Record :: r.expires >= now ==> (Remembers(j.nonces, j.requests, r) <==> Claimed(j.disk.written, r))
  }

  lemma NodeAges(node: Node, now: Time, later: Time)
    requires node.Valid(now) && now <= later
    ensures node.Valid(later)
  {
  }

  /** A new process: whatever the old one was doing is lost, only the file remains. */
  method StartNode(disk: Disk, now: nat, fault: Fault) returns (node: Node?)
    requires FileOk(disk.records, disk.written, now) && HistoryOk(disk, now)
    modifies disk`records
    ensures FileOk(disk.records, disk.written, now) && HistoryOk(disk, now)
    ensures node != null ==> fresh(node) && fresh(node.guard) && fresh(node.journal) && node.journal.disk == disk && node.Valid(now)
    ensures node != null ==> Recalls(node.journal, now) && !node.journal.failed && !node.draining
    ensures node != null ==> node.idempotency == map[] && node.guard.seen == map[] && node.journal.interval == 300_000
    ensures disk.torn ==> node == null
    ensures node == null && !disk.torn ==> fault.CompactFails?
    ensures !fault.CompactFails? && !disk.torn ==> node != null
    ensures LiveBytes(disk.records, now) == old(LiveBytes(disk.records, now))
  {
    node := null;
    var journal := PersistentJournal.Open(disk, 5 * 60_000, now, fault);
    if journal != null {
      var guard := new NonceGuard(journal, now);
      node := new Node(journal, guard, now);
    }
  }

  // ------------------------------------------------- what the outside observes

  datatype Response =
    | Replied(reply: Reply) | Attested(verdict: Verdict) | Silent
    | Reloaded(nonces: map<Key, nat>, requests: map<Key, Held>) | Refused

  /** The inference a call started, if its reply says so. */
  function Runs(e: Event, r: Response): seq<Execution> {
    if e.op.Infer? && r == Replied(Started) then [Execution(e.op.id, e.op.body, e.now)] else []
  }

  /** The envelope a call spent, if its reply shows that verification passed. */
  function Admits(e: Event, r: Response): seq<Envelope> {
    if e.op.Infer? && r.Replied? && Admitted(r.reply) then [Envelope(e.op.timestamp, e.op.nonce, e.now)]
    else if e.op.Attest? && r == Attested(Passed) then [Envelope(e.op.timestamp, e.op.nonce, e.now)]
    else []
  }

  /** The claims a reply acknowledges. */
  function Acks(e: Event, r: Response): seq<Claim> {
    match e.op
    case Infer(id, body, nonce, timestamp, _, _, _) =>
      if !r.Replied? || !Admitted(r.reply) then []
      else [Claim(NonceClaim(nonce, timestamp), e.now)]
           + (if r.reply.Started? then [Claim(RequestClaim(id, body, e.now), e.now)] else [])
    case Attest(nonce, timestamp, _) => if r == Attested(Passed) then [Claim(NonceClaim(nonce, timestamp), e.now)] else []
    case _ => []
  }

  /** The claim a call was making when the journal broke down. */
  function InFlight(e: Event, r: Response): seq<Claim> {
    match e.op
    case Infer(id, body, nonce, timestamp, _, _, _) =>
      if r == Replied(Unverified(Down)) then [Claim(NonceClaim(nonce, timestamp), e.now)]
      else if r == Replied(ProtectionDown) then [Claim(RequestClaim(id, body, e.now), e.now)]
      else []
    case Attest(nonce, timestamp, _) => if r == Attested(Down) then [Claim(NonceClaim(nonce, timestamp), e.now)] else []
    case _ => []
  }

  function AllRuns(es: seq<Event>, rs: seq<Response>, n: nat): seq<Execution>
    requires n <= |es| && n <= |rs|
  {
    if n == 0 then [] else AllRuns(es, rs, n - 1) + Runs(es[n - 1], rs[n - 1])
  }
  function AllAdmits(es: seq<Event>, rs: seq<Response>, n: nat): seq<Envelope>
    requires n <= |es| && n <= |rs|
  {
    if n == 0 then [] else AllAdmits(es, rs, n - 1) + Admits(es[n - 1], rs[n - 1])
  }
  function AllAcks(es: seq<Event>, rs: seq<Response>, n: nat): seq<Claim>
    requires n <= |es| && n <= |rs|
  {
    if n == 0 then [] else AllAcks(es, rs, n - 1) + Acks(es[n - 1], rs[n - 1])
  }

  /** By its replies, the process in charge after n events has broken down, or there is none. */
  predicate BrokenDown(es: seq<Event>, rs: seq<Response>, n: nat)
    requires n <= |es| && n <= |rs|
  {
    if n == 0 then true
    else if es[n - 1].op.Restart? then !rs[n - 1].Reloaded?
    else BrokenDown(es, rs, n - 1) || InFlight(es[n - 1], rs[n - 1]) != []
  }

  /** The claims that processes were making when they broke down. */
  function Pending(es: seq<Event>, rs: seq<Response>, n: nat): seq<Claim>
    requires n <= |es| && n <= |rs|
  {
    if n == 0 then [] else Pending(es, rs, n - 1) + (if BrokenDown(es, rs, n - 1) then [] else InFlight(es[n - 1], rs[n - 1]))
  }

  /** How many processes came up. */
  function Starts(es: seq<Event>, rs: seq<Response>, n: nat): nat
    requires n <= |es| && n <= |rs|
  {
    if n == 0 then 0 else Starts(es, rs, n - 1) + (if es[n - 1].op.Restart? && rs[n - 1].Reloaded? then 1 else 0)
  }

  /** Every process leaves at most one claim unacknowledged, its last. */
  lemma {:induction false} OnePendingEach(es: seq<Event>, rs: seq<Response>, n: nat)
    requires n <= |es| && n <= |rs|
    ensures |Pending(es, rs, n)| + (if BrokenDown(es, rs, n) then 0 else 1) <= Starts(es, rs, n)
  {
    if n > 0 { OnePendingEach(es, rs, n - 1); }
  }

  /**
   A process that comes up holds every acknowledged claim that is still live, by
   whichever process, and nothing live besides but a claim in flight at a breakdown.
   */
  ghost predicate ReloadOk(es: seq<Event>, rs: seq<Response>, n: nat)
    requires n < |es| && n < |rs|
  {
    rs[n].Reloaded? ==>
      && AllLive(rs[n].nonces, rs[n].requests, es[n].now)
      && forall c: Record :: c.expires >= es[n].now ==>
           && (Claimed(AllAcks(es, rs, n), c) ==> Remembers(rs[n].nonces, rs[n].requests, c))
           && (Remembers(rs[n].nonces, rs[n].requests, c) ==> Claimed(AllAcks(es, rs, n), c) || Claimed(Pending(es, rs, n), c))
  }

  /** A restart is refused only after a write was torn, or because its own compaction broke. */
  predicate RefusalOk(es: seq<Event>, rs: seq<Response>, n: nat)
    requires n < |es| && n < |rs|
  {
    rs[n].Refused? ==> es[n].op.Restart? && (es[n].op.fault.CompactFails? || TearsBefore(es, n))
  }

  lemma {:induction false} LaterResponsesDoNotMatter(es: seq<Event>, rs: seq<Response>, r: Response, n: nat)
    requires n <= |es| && n <= |rs|
    ensures AllRuns(es, rs + [r], n) == AllRuns(es, rs, n) && AllAdmits(es, rs + [r], n) == AllAdmits(es, rs, n)
    ensures AllAcks(es, rs + [r], n) == AllAcks(es, rs, n) && Pending(es, rs + [r], n) == Pending(es, rs, n)
    ensures BrokenDown(es, rs + [r], n) == BrokenDown(es, rs, n)
  {
    if n > 0 { LaterResponsesDoNotMatter(es, rs, r, n - 1); }
  }

  /** The history is what replies acknowledged, and perhaps what was in flight. */
  ghost predicate Accounted(h: seq<Claim>, es: seq<Event>, rs: seq<Response>, n: nat)
    requires n <= |es| && n <= |rs|
  {
    && (forall c :: c in AllAcks(es, rs, n) ==> c in h)
    && (forall c :: c in h ==> c in AllAcks(es, rs, n) || c in Pending(es, rs, n))
  }

  /** What one event leaves in the history. */
  predicate EventLeft(h: seq<Claim>, n: seq<Claim>, e: Event, r: Response, wasDown: bool) {
    n == h + Acks(e, r) || (!wasDown && n == h + Acks(e, r) + InFlight(e, r))
  }

  lemma StaysAccounted(h: seq<Claim>, h': seq<Claim>, es: seq<Event>, rs: seq<Response>, r: Response, n: nat)
    requires n < |es| && |rs| == n && Accounted(h, es, rs, n) && EventLeft(h, h', es[n], r, BrokenDown(es, rs, n))
    ensures Accounted(h', es, rs + [r], n + 1)
  {
    LaterResponsesDoNotMatter(es, rs, r, n);
  }

  lemma ReloadsRight(h: seq<Claim>, es: seq<Event>, rs: seq<Response>, r: Response, n: nat)
    requires n < |es| && |rs| == n && Accounted(h, es, rs, n)
    requires r.Reloaded? ==> AllLive(r.nonces, r.requests, es[n].now)
                             && forall c: Record :: c.expires >= es[n].now ==> (Remembers(r.nonces, r.requests, c) <==> Claimed(h, c))
    ensures ReloadOk(es, rs + [r], n)
  {
    LaterResponsesDoNotMatter(es, rs, r, n);
    var a, p := AllAcks(es, rs, n), Pending(es, rs, n);
    if r.Reloaded? {
      forall c: Record | Claimed(a, c) ensures Claimed(h, c) { ClaimedMoves(a, h, h, c); }
      forall c: Record | Claimed(h, c) ensures Claimed(a, c) || Claimed(p, c) { ClaimedMoves(h, a, p, c); }
    }
  }

  lemma ClaimedMoves(h: seq<Claim>, a: seq<Claim>, b: seq<Claim>, r: Record)
    requires Claimed(h, r) && forall c :: c in h ==> c in a || c in b
    ensures Claimed(a, r) || Claimed(b, r)
  {
    var i :| 0 <= i < |h| && h[i].record == r;
    assert h[i] in h;
  }

  /** Every remembered result that still counts has its claim in the file and, in a healthy process, in memory. */
  ghost predicate EntriesClaimed(node: Node, now: Time)
    reads node, node.journal, node.journal.disk
  {
    forall id :: id in LiveEntries(node.idempotency, now) ==>
      var c := RequestRecord(Digest(id), Keyed(node.idempotency[id].body), node.idempotency[id].expires);
      c in node.journal.disk.records && (!node.journal.failed ==> Remembers(node.journal.nonces, node.journal.requests, c))
  }

  lemma ValidNodesClaim(node: Node, now: Time)
    requires node.Valid(now)
    ensures EntriesClaimed(node, now)
  {
    forall id | id in LiveEntries(node.idempotency, now)
      ensures RequestRecord(Digest(id), Keyed(node.idempotency[id].body), node.idempotency[id].expires) in node.journal.disk.records
    {
      assert Claimed(node.journal.disk.written, RequestRecord(Digest(id), Keyed(node.idempotency[id].body), node.idempotency[id].expires));
    }
  }

  /** One inference call at a running node. */
  method ServeCall(node: Node, e: Event) returns (r: Response)
    requires e.op.Infer? && node.Valid(e.now)
    modifies node`idempotency, node.guard`seen, node.journal, node.journal.disk
    ensures node.Valid(e.now) && r.Replied?
    ensures node.journal.disk.executed == old(node.journal.disk.executed) + Runs(e, r)
    ensures node.journal.disk.accepted == old(node.journal.disk.accepted) + Admits(e, r)
    ensures EventLeft(old(node.journal.disk.written), node.journal.disk.written, e, r, old(node.journal.failed))
    ensures old(node.journal.failed) || InFlight(e, r) != [] ==> node.journal.failed
    ensures node.journal.disk.torn ==> old(node.journal.disk.torn) || Tears(e)
  {
    var reply := node.HandleInference(e.op.id, e.op.body, e.op.nonce, e.op.timestamp, e.op.wellFormed, e.now, e.op.fault, e.op.later);
    r := Replied(reply);
    CallIsAccounted(old(node.journal.disk.written), node.journal.disk.written, e, reply, old(node.journal.failed));
  }

  /** One attestation challenge at a running node. */
  method ServeChallenge(node: Node, e: Event) returns (r: Response)
    requires e.op.Attest? && node.Valid(e.now)
    modifies node.guard`seen, node.journal, node.journal.disk
    ensures node.Valid(e.now) && r.Attested?
    ensures node.journal.disk.executed == old(node.journal.disk.executed) + Runs(e, r)
    ensures node.journal.disk.accepted == old(node.journal.disk.accepted) + Admits(e, r)
    ensures EventLeft(old(node.journal.disk.written), node.journal.disk.written, e, r, old(node.journal.failed))
    ensures old(node.journal.failed) || InFlight(e, r) != [] ==> node.journal.failed
    ensures node.journal.disk.torn ==> old(node.journal.disk.torn) || Tears(e)
  {
    var verdict := node.Attest(e.op.nonce, e.op.timestamp, e.now, e.op.fault);
    r := Attested(verdict);
  }

  /** One event at a running node. */
  method Serve(node: Node, op: Op, now: nat) returns (r: Response)
    requires !op.Restart? && node.Valid(now)
    modifies node, node.guard, node.journal, node.journal.disk
    ensures node.Valid(now) && !r.Reloaded? && !r.Refused?
    ensures node.draining == (old(node.draining) || op.Drain?)
    ensures node.journal.disk.executed == old(node.journal.disk.executed) + Runs(Event(op, now), r)
    ensures node.journal.disk.accepted == old(node.journal.disk.accepted) + Admits(Event(op, now), r)
    ensures EventLeft(old(node.journal.disk.written), node.journal.disk.written, Event(op, now), r, old(node.journal.failed))
    ensures old(node.journal.failed) || InFlight(Event(op, now), r) != [] ==> node.journal.failed
    ensures node.journal.disk.torn ==> old(node.journal.disk.torn) || Tears(Event(op, now))
  {
    match op {
      case Infer(_, _, _, _, _, _, _) => r := ServeCall(node, Event(op, now));
      case Attest(_, _, _) => r := ServeChallenge(node, Event(op, now));
      case CompactNow(how) =>
        node.CompactNow(now, how);
        r := Silent;
      case Drain =>
        node.draining := true;
        r := Silent;
    }
  }

  lemma CallIsAccounted(h: seq<Claim>, n: seq<Claim>, e: Event, r: Reply, wasDown: bool)
    requires e.op.Infer? && (Admitted(r) ==> !wasDown)
    requires CallLeft(h, n, NonceClaim(e.op.nonce, e.op.timestamp), RequestClaim(e.op.id, e.op.body, e.now), e.now, r, wasDown)
    ensures EventLeft(h, n, e, Replied(r), wasDown)
  {
    var a, b := Claim(NonceClaim(e.op.nonce, e.op.timestamp), e.now), Claim(RequestClaim(e.op.id, e.op.body, e.now), e.now);
    assert h + [a] + [b] == h + ([a] + [b]);
  }

  lemma DiskAges(disk: Disk, now: Time, later: Time)
    requires FileOk(disk.records, disk.written, now) && HistoryOk(disk, now) && now <= later
    ensures FileOk(disk.records, disk.written, later) && HistoryOk(disk, later)
  {
  }

  /** The objects of a running process. */
  ghost function Parts(node: Node?): set<object>
    reads node
  {
    if node == null then {} else {node, node.guard, node.journal}
  }

  /** The file and its histories are in order, and a running node works on that file. */
  ghost predicate Sound(disk: Disk, node: Node?, now: Time)
    reads disk, node, Parts(node), if node == null then {} else {node.journal.disk}
  {
    && FileOk(disk.records, disk.written, now) && HistoryOk(disk, now)
    && (node != null ==> node.journal.disk == disk && node.Valid(now))
  }

  lemma SoundAges(disk: Disk, node: Node?, now: Time, later: Time)
    requires Sound(disk, node, now) && now <= later
    ensures Sound(disk, node, later)
  {
    DiskAges(disk, now, later);
    if node != null { NodeAges(node, now, later); }
  }

  /** No process is up, or the one that is has broken down. */
  ghost predicate Failed(node: Node?)
    reads node, Parts(node)
  {
    node == null || node.journal.failed
  }

  /** One event: a restart replaces the process, anything else goes to the running one, if any. */
  method Handle(disk: Disk, node: Node?, e: Event) returns (next: Node?, r: Response)
    requires Sound(disk, node, e.now)
    modifies disk, Parts(node)
    ensures Sound(disk, next, e.now) && (next == node || fresh(Parts(next)))
    ensures disk.executed == old(disk.executed) + Runs(e, r) && disk.accepted == old(disk.accepted) + Admits(e, r)
    ensures EventLeft(old(disk.written), disk.written, e, r, old(Failed(node)))
    ensures !e.op.Restart? && (old(Failed(node)) || InFlight(e, r) != []) ==> Failed(next)
    ensures e.op.Restart? && !r.Reloaded? ==> Failed(next)
    ensures r.Reloaded? ==> AllLive(r.nonces, r.requests, e.now)
                            && forall c: Record :: c.expires >= e.now ==> (Remembers(r.nonces, r.requests, c) <==> Claimed(old(disk.written), c))
    ensures r.Refused? ==> e.op.Restart? && (e.op.fault.CompactFails? || disk.torn)
    ensures disk.torn ==> old(disk.torn) || Tears(e)
  {
    next, r := node, Silent;
    if e.op.Restart? {
      next := StartNode(disk, e.now, e.op.fault);
      r := if next == null then Refused else Reloaded(next.journal.nonces, next.journal.requests);
    } else if node != null {
      r := Serve(node, e.op, e.now);
    }
  }

  /** The histories are what the replies tell. */
  ghost predicate Told(h: seq<Claim>, x: seq<Execution>, a: seq<Envelope>, torn: bool, es: seq<Event>, rs: seq<Response>, n: nat)
    requires n <= |es| && n <= |rs|
  {
    && x == AllRuns(es, rs, n) && a == AllAdmits(es, rs, n)
    && Accounted(h, es, rs, n)
    && (torn ==> TearsBefore(es, n))
  }

  lemma StaysTold(h: seq<Claim>, x: seq<Execution>, a: seq<Envelope>, torn: bool, h': seq<Claim>, torn': bool,
                  es: seq<Event>, rs: seq<Response>, r: Response, n: nat)
    requires n < |es| && |rs| == n && Told(h, x, a, torn, es, rs, n)
    requires EventLeft(h, h', es[n], r, BrokenDown(es, rs, n)) && (torn' ==> torn || Tears(es[n]))
    ensures Told(h', x + Runs(es[n], r), a + Admits(es[n], r), torn', es, rs + [r], n + 1)
  {
    StaysAccounted(h, h', es, rs, r, n);
    OneMoreTold(es, rs, r, n);
    TornIsTold(es, torn, torn', n);
  }

  lemma OneMoreTold(es: seq<Event>, rs: seq<Response>, r: Response, n: nat)
    requires n < |es| && |rs| == n
    ensures AllRuns(es, rs + [r], n + 1) == AllRuns(es, rs, n) + Runs(es[n], r)
    ensures AllAdmits(es, rs + [r], n + 1) == AllAdmits(es, rs, n) + Admits(es[n], r)
  {
    LaterResponsesDoNotMatter(es, rs, r, n);
  }

  lemma TornIsTold(es: seq<Event>, torn: bool, torn': bool, n: nat)
    requires n < |es| && (torn ==> TearsBefore(es, n)) && (torn' ==> torn || Tears(es[n]))
    ensures torn' ==> TearsBefore(es, n + 1)
  {
  }

  /** Everything known of a run after its first events. */
  ghost predicate Tracked(disk: Disk, node: Node?, es: seq<Event>, rs: seq<Response>, now: Time)
    requires |rs| <= |es|
    reads disk, node, Parts(node), if node == null then {} else {node.journal.disk}
  {
    && Sound(disk, node, now)
    && Told(disk.written, disk.executed, disk.accepted, disk.torn, es, rs, |rs|)
    && (BrokenDown(es, rs, |rs|) ==> Failed(node))
  }

  /** Every restart so far reloaded, or was refused, as it should. */
  ghost predicate RestartsOk(es: seq<Event>, rs: seq<Response>)
    requires |rs| <= |es|
  {
    forall j :: 0 <= j < |rs| ==> ReloadOk(es, rs, j) && RefusalOk(es, rs, j)
  }

  lemma OneMoreRestartOk(es: seq<Event>, rs: seq<Response>, r: Response)
    requires |rs| < |es| && RestartsOk(es, rs) && ReloadOk(es, rs + [r], |rs|) && RefusalOk(es, rs + [r], |rs|)
    ensures RestartsOk(es, rs + [r])
  {
    forall j | 0 <= j < |rs| ensures ReloadOk(es, rs + [r], j) && RefusalOk(es, rs + [r], j) {
      LaterResponsesDoNotMatter(es, rs, r, j);
      assert ReloadOk(es, rs, j) && RefusalOk(es, rs, j);
    }
  }

  lemma RunBegins(disk: Disk, es: seq<Event>)
    requires disk.records == [] && !disk.torn && disk.written == [] && disk.accepted == [] && disk.executed == []
    ensures Tracked(disk, null, es, [], 0)
  {
  }

  /** What the outside may conclude from a tracked run. */
  lemma RunEnds(disk: Disk, node: Node?, es: seq<Event>, rs: seq<Response>, now: Time)
    requires |rs| == |es| && Tracked(disk, node, es, rs, now)
    ensures EnvelopesDistinct(AllAdmits(es, rs, |es|)) && ExecutionsApart(AllRuns(es, rs, |es|))
    ensures FileOk(disk.records, disk.written, now)
    ensures node != null ==> EntriesClaimed(node, now)
  {
    if node != null { ValidNodesClaim(node, now); }
  }

  /** The next event of a run. */
  method Advance(es: seq<Event>, rs: seq<Response>, disk: Disk, node: Node?, ghost clock: Time) returns (next: Node?, r: Response)
    requires |rs| < |es| && Tracked(disk, node, es, rs, clock) && RestartsOk(es, rs) && clock <= es[|rs|].now
    modifies disk, Parts(node)
    ensures Tracked(disk, next, es, rs + [r], es[|rs|].now) && RestartsOk(es, rs + [r])
    ensures next == node || fresh(Parts(next))
  {
    ghost var h, x, a, torn, n := disk.written, disk.executed, disk.accepted, disk.torn, |rs|;
    SoundAges(disk, node, clock, es[n].now);
    next, r := Handle(disk, node, es[|rs|]);
    LaterResponsesDoNotMatter(es, rs, r, n);
    StaysTold(h, x, a, torn, disk.written, disk.torn, es, rs, r, n);
    ReloadsRight(h, es, rs, r, n);
    OneMoreRestartOk(es, rs, r);
  }

  /**
   Whatever is sent, whenever writes fail, tear or are cut short, and however often
   the node restarts: no two replies let the same (timestamp, nonce) envelope pass;
   two replies that started an inference of one request identifier are always more
   than the time to live apart; each process that comes up holds exactly the live
   claims acknowledged before, besides at most the one that each process had in
   flight when it broke down (OnePendingEach); a restart is refused only after a
   torn write or a broken compaction; and in the state reached, every live
   remembered result has its live claim.
   */
  method Drive(events: seq<Event>) returns (responses: seq<Response>, disk: Disk, node: Node?)
    requires ClockOk(events)
    ensures |responses| == |events|
    ensures EnvelopesDistinct(AllAdmits(events, responses, |events|))
    ensures ExecutionsApart(AllRuns(events, responses, |events|))
    ensures RestartsOk(events, responses)
    ensures FileOk(disk.records, disk.written, ClockAfter(events, |events|))
    ensures node != null ==> EntriesClaimed(node, ClockAfter(events, |events|))
  {
    disk := new Disk();
    responses, node := [], null;
    RunBegins(disk, events);
    for i := 0 to |events|
      invariant |responses| == i && fresh(disk) && fresh(Parts(node))
      invariant Tracked(disk, node, events, responses, ClockAfter(events, i)) && RestartsOk(events, responses)
    {
      assert ClockAfter(events, i) <= ClockAfter(events, i + 1);
      var r;
      node, r := Advance(events, responses, disk, node, ClockAfter(events, i));
      responses := responses + [r];
    }
    RunEnds(disk, node, events, responses, ClockAfter(events, |events|));
  }
}
