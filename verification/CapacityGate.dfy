/**
 The sliding-window admission gate. It keeps only the last minute, yet over the
 whole history no minute ever admits more than it may.
 */
module CapacityGate {

  type Time = int

  datatype Admission = Admission(at: Time, tokens: nat)

  const MINUTE: nat := 60_000

  function Tokens(h: seq<Admission>): nat {
    if h == [] then 0 else Tokens(h[..|h| - 1]) + h[|h| - 1].tokens
  }

  lemma TokensOfOneMore(h: seq<Admission>, e: Admission)
    ensures Tokens(h + [e]) == Tokens(h) + e.tokens
  {
    assert (h + [e])[..|h|] == h;
  }

  predicate Ordered(h: seq<Admission>) { forall i, j :: 0 <= i < j < |h| ==> h[i].at <= h[j].at }

  /** Admissions i to j, if they span less than a minute, respect both limits. */
  predicate Fits(h: seq<Admission>, i: nat, j: nat, requests: nat, tokens: nat)
    requires i <= j < |h|
  {
    h[i].at > h[j].at - MINUTE ==> j + 1 - i <= requests && Tokens(h[i..j + 1]) <= tokens
  }

  predicate WithinLimits(h: seq<Admission>, requests: nat, tokens: nat) {
    forall i: nat, j: nat :: i <= j < |h| ==> Fits(h, i, j, requests, tokens)
  }

  /** Admissions in order up to now, the first `dropped` of them out of the current minute. */
  predicate HistoryOk(h: seq<Admission>, dropped: nat, now: Time) {
    && dropped <= |h| && Ordered(h)
    && (forall i :: 0 <= i < |h| ==> h[i].at <= now)
    && (forall i :: 0 <= i < dropped ==> h[i].at <= now - MINUTE)
  }

  lemma HistoryGrows(h: seq<Admission>, dropped: nat, e: Admission)
    requires HistoryOk(h, dropped, e.at)
    ensures HistoryOk(h + [e], dropped, e.at) && (h + [e])[dropped..] == h[dropped..] + [e]
  {
  }

  // ------------------------------------------------- windows of the history

  predicate InWindow(e: Admission, end: Time) { end - 60_000 < e.at <= end }

  function RequestsIn(h: seq<Admission>, end: Time): nat {
    if h == [] then 0 else RequestsIn(h[..|h| - 1], end) + if InWindow(h[|h| - 1], end) then 1 else 0
  }

  function TokensIn(h: seq<Admission>, end: Time): nat {
    if h == [] then 0 else TokensIn(h[..|h| - 1], end) + if InWindow(h[|h| - 1], end) then h[|h| - 1].tokens else 0
  }

  /** The part of an ordered history after a point in time is a suffix. */
  lemma {:induction false} WindowIsSuffix(h: seq<Admission>, end: Time) returns (i: nat)
    requires Ordered(h) && (forall e :: e in h ==> e.at <= end)
    ensures i <= |h| && RequestsIn(h, end) == |h| - i && TokensIn(h, end) == Tokens(h[i..])
    ensures i < |h| ==> h[i].at > end - MINUTE
    ensures forall j :: 0 <= j < i ==> h[j].at <= end - MINUTE
  {
    if h == [] {
      i := 0;
    } else {
      var short, last := h[..|h| - 1], h[|h| - 1];
      i := WindowIsSuffix(short, end);
      if last.at <= end - MINUTE {
        assert forall k :: 0 <= k < |short| ==> h[k].at <= last.at;
        i := |h|;
      } else {
        assert h[i..][..|h[i..]| - 1] == short[i..];
      }
    }
  }

  lemma LastMinute(h: seq<Admission>, requests: nat, tokens: nat, end: Time)
    requires Ordered(h) && WithinLimits(h, requests, tokens) && (forall e :: e in h ==> e.at <= end)
    ensures RequestsIn(h, end) <= requests && TokensIn(h, end) <= tokens
  {
    var i := WindowIsSuffix(h, end);
    if i < |h| {
      assert Fits(h, i, |h| - 1, requests, tokens);
      assert h[i..|h| - 1 + 1] == h[i..];
      assert h[|h| - 1] in h;
    }
  }

  /** Every minute of every history the gate admits: at most so many requests, at most so many tokens. */
  lemma {:induction false} EveryMinuteWithinLimits(h: seq<Admission>, requests: nat, tokens: nat, end: Time)
    requires Ordered(h) && WithinLimits(h, requests, tokens)
    ensures RequestsIn(h, end) <= requests && TokensIn(h, end) <= tokens
  {
    if h != [] {
      var last := h[|h| - 1];
      if last.at > end {
        ShorterWithinLimits(h, requests, tokens);
        EveryMinuteWithinLimits(h[..|h| - 1], requests, tokens, end);
      } else {
        forall e | e in h ensures e.at <= end {
          var k :| 0 <= k < |h| && h[k] == e;
          assert k == |h| - 1 || h[k].at <= last.at;
        }
        LastMinute(h, requests, tokens, end);
      }
    }
  }

  lemma ShorterWithinLimits(h: seq<Admission>, requests: nat, tokens: nat)
    requires h != [] && WithinLimits(h, requests, tokens)
    ensures WithinLimits(h[..|h| - 1], requests, tokens)
  {
    var short := h[..|h| - 1];
    forall i: nat, j: nat | i <= j < |short| ensures Fits(short, i, j, requests, tokens) {
      assert Fits(h, i, j, requests, tokens) && short[i..j + 1] == h[i..j + 1];
    }
  }

  lemma NewestFits(h: seq<Admission>, k: nat, e: Admission, i: nat, requests: nat, tokens: nat)
    requires k <= i <= |h| && |h| - k < requests && Tokens(h[k..]) + e.tokens <= tokens
    ensures Fits(h + [e], i, |h|, requests, tokens)
  {
    assert (h + [e])[i..|h| + 1] == h[i..] + [e];
    TokensOfOneMore(h[i..], e);
    SuffixTokens(h[k..], i - k);
    assert h[k..][i - k..] == h[i..];
  }

  /** Admitting one more is safe when the unpruned minute has room. */
  lemma AdmittingKeepsLimits(h: seq<Admission>, k: nat, e: Admission, requests: nat, tokens: nat)
    requires k <= |h| && Ordered(h + [e]) && WithinLimits(h, requests, tokens)
    requires forall j :: 0 <= j < k ==> h[j].at <= e.at - MINUTE
    requires |h| - k < requests && Tokens(h[k..]) + e.tokens <= tokens
    ensures WithinLimits(h + [e], requests, tokens)
  {
    var n := h + [e];
    forall i: nat, j: nat | i <= j < |n| ensures Fits(n, i, j, requests, tokens) {
      if j < |h| {
        assert Fits(h, i, j, requests, tokens) && n[i..j + 1] == h[i..j + 1];
      } else if k <= i {
        NewestFits(h, k, e, i, requests, tokens);
      }
    }
  }

  lemma {:induction false} SuffixTokens(h: seq<Admission>, i: nat)
    requires i <= |h|
    ensures Tokens(h[i..]) <= Tokens(h)
  {
    if i < |h| {
      SuffixTokens(h[..|h| - 1], i);
      assert h[i..][..|h| - i - 1] == h[..|h| - 1][i..];
    }
  }

  // ------------------------------------------------------------------- gate

  /** What acquire hands out: releasing it twice releases it once. */
  class Handle {
    var released: bool
    constructor () ensures !released { released := false; }
  }

  class Gate {
    const requestsPerMinute: nat
    const tokensPerMinute: nat
    const concurrency: nat
    var entries: seq<Admission>
    var active: int
    ghost var history: seq<Admission>
    ghost var dropped: nat
    ghost var open: set<Handle>

    ghost predicate Valid(now: Time)
      reads this, open
    {
      && dropped <= |history| && entries == history[dropped..] && HistoryOk(history, dropped, now)
      && WithinLimits(history, requestsPerMinute, tokensPerMinute)
      && active == |open| && active <= concurrency
      && (forall h :: h in open ==> !h.released)
    }

    constructor (requests: nat, tokens: nat, limit: nat, ghost now: Time)
      ensures Valid(now) && history == [] && open == {}
      ensures requestsPerMinute == requests && tokensPerMinute == tokens && concurrency == limit
    {
      requestsPerMinute, tokensPerMinute, concurrency := requests, tokens, limit;
      entries, active := [], 0;
      history, dropped, open := [], 0, {};
    }

    method Prune(ghost before: Time, now: Time)
      requires Valid(before) && before <= now
      modifies this`entries, this`dropped
      ensures Valid(now)
      ensures entries != [] ==> entries[0].at > now - MINUTE
    {
      while entries != [] && entries[0].at <= now - MINUTE
        invariant Valid(now)
        decreases |entries|
      {
        assert entries[0] == history[dropped];
        assert entries[1..] == history[dropped + 1..];
        entries, dropped := entries[1..], dropped + 1;
      }
    }

    method UsedTokens() returns (sum: nat)
      ensures sum == Tokens(entries)
    {
      sum := 0;
      for i := 0 to |entries|
        invariant sum == Tokens(entries[..i])
      {
        assert entries[..i + 1] == entries[..i] + [entries[i]];
        TokensOfOneMore(entries[..i], entries[i]);
        sum := sum + entries[i].tokens;
      }
      assert entries[..|entries|] == entries;
    }

    /** Refuses exactly when a slot, the minute's requests or the minute's tokens are used up. */
    method Acquire(tokens: nat, ghost before: Time, now: Time) returns (h: Handle?)
      requires Valid(before) && before <= now
      modifies this`entries, this`dropped, this`active, this`history, this`open
      ensures Valid(now)
      ensures h != null ==> fresh(h) && open == old(open) + {h} && history == old(history) + [Admission(now, tokens)]
      ensures h == null ==> open == old(open) && history == old(history)
      ensures h == null <==> old(Full(tokens, now))
    {
      Prune(before, now);
      var used := UsedTokens();
      WindowIsKept(history, dropped, now);
      if active >= concurrency || |entries| >= requestsPerMinute || used + tokens > tokensPerMinute {
        h := null;
      } else {
        h := Admit(tokens, now);
      }
    }

    ghost predicate Full(tokens: nat, now: Time)
      reads this
    {
      || |open| >= concurrency
      || RequestsIn(history, now) >= requestsPerMinute
      || TokensIn(history, now) + tokens > tokensPerMinute
    }

    method Admit(tokens: nat, now: Time) returns (h: Handle)
      requires Valid(now) && (entries != [] ==> entries[0].at > now - MINUTE) && active < concurrency
      requires |entries| < requestsPerMinute && Tokens(entries) + tokens <= tokensPerMinute
      modifies this`entries, this`active, this`history, this`open
      ensures Valid(now) && fresh(h) && open == old(open) + {h} && history == old(history) + [Admission(now, tokens)]
    {
      var e := Admission(now, tokens);
      HistoryGrows(history, dropped, e);
      AdmittingKeepsLimits(history, dropped, e, requestsPerMinute, tokensPerMinute);
      h := new Handle();
      entries, active := entries + [e], active + 1;
      history, open := history + [e], open + {h};
    }

    /** Idempotent: only the first release of a handle gives its slot back. */
    method Release(h: Handle, ghost now: Time)
      requires Valid(now) && (!h.released ==> h in open)
      modifies this`active, this`open, h
      ensures Valid(now) && h.released && open == old(open) - {h}
      ensures history == old(history)
    {
      if !h.released {
        h.released := true;
        active := active - 1;
        open := open - {h};
      }
    }
  }

  /** What survives pruning is exactly the current minute. */
  lemma WindowIsKept(h: seq<Admission>, dropped: nat, now: Time)
    requires Ordered(h) && dropped <= |h| && (forall i :: 0 <= i < |h| ==> h[i].at <= now)
    requires forall i :: 0 <= i < dropped ==> h[i].at <= now - MINUTE
    requires dropped < |h| ==> h[dropped].at > now - MINUTE
    ensures RequestsIn(h, now) == |h[dropped..]| && TokensIn(h, now) == Tokens(h[dropped..])
  {
    forall e | e in h ensures e.at <= now {
      var k :| 0 <= k < |h| && h[k] == e;
    }
    var i := WindowIsSuffix(h, now);
  }
}
