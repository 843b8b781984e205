/**
 Local checkpoints of a supplier agent: sealed files with a lifetime that
 overwriting never extends. Authenticated encryption is an injective seal over
 key, task, lifetime and content.
 */
module CheckpointStore {
  import opened Totals
  import opened CleanupRotation

  type Time = int

  const MAXIMUM_TTL: nat := 6 * 60 * 60_000
  const CLOCK_SKEW: nat := 5 * 60_000

  datatype Seal = Seal(key: nat, task: nat, created: Time, expires: Time, content: nat)
  datatype Envelope = Envelope(created: Time, expires: Time, seal: Seal)

  /** A directory entry; a malformed or oversized file has no envelope. */
  datatype File = File(temporary: bool, envelope: Option<Envelope>)

  /** The lifetime checks of readEnvelope. */
  predicate Usable(e: Envelope, now: Time) {
    && e.created < e.expires && e.expires - e.created <= MAXIMUM_TTL
    && e.created <= now + CLOCK_SKEW && now < e.expires
  }

  predicate Readable(f: File, now: Time) { f.envelope.Some? && Usable(f.envelope.value, now) }

  /** The seal opens under this key and task with the lifetime the envelope shows. */
  predicate Authentic(e: Envelope, key: nat, task: nat) {
    e.seal.key == key && e.seal.task == task && e.seal.created == e.created && e.seal.expires == e.expires
  }

  predicate Trusted(f: File, key: nat, task: nat, now: Time) {
    Readable(f, now) && Authentic(f.envelope.value, key, task)
  }

  /**
   The file was sealed with this content, under this key and for this task, with
   the lifetime it shows; that began at most five minutes ahead, is at most six
   hours long and has not run out.
   */
  predicate HoldsContent(f: File, key: nat, task: nat, content: nat, now: Time) {
    && f.envelope.Some?
    && var e := f.envelope.value;
    && e.seal == Seal(key, task, e.created, e.expires, content)
    && e.created <= now + 300_000 && now < e.expires && e.created < e.expires <= e.created + 21_600_000
  }

  function ContentOf(f: File, key: nat, task: nat, now: Time): Option<nat> {
    if Trusted(f, key, task, now) then Some(f.envelope.value.seal.content) else None
  }

  class Store {
    var files: map<nat, File>
    var cursor: Cursor
    const ttl: nat
    const batch: nat

    constructor (t: nat, b: nat)
      requires 1 <= t <= MAXIMUM_TTL && 1 <= b <= 1_000
      ensures ttl == t && batch == b && files == map[] && cursor == None
    {
      ttl, batch, files, cursor := t, b, map[], None;
    }

    /** Content comes back only from a trusted file before its expiry; an unusable file is removed. */
    method Read(task: nat, key: nat, now: Time) returns (content: Option<nat>)
      modifies this`files
      ensures forall c: nat :: content == Some(c) <==> task in old(files) && HoldsContent(old(files)[task], key, task, c, now)
      ensures files == if content.Some? then old(files) else old(files) - {task}
    {
      content := None;
      if task !in files { assert files == files - {task}; return; }
      if Trusted(files[task], key, task, now) {
        content := Some(files[task].envelope.value.seal.content);
      } else {
        files := files - {task};
      }
    }

    /** The lifetime of a live checkpoint is kept; anything else is discarded first. */
    method AuthenticatedLifetime(task: nat, key: nat, now: Time) returns (lifetime: Option<(Time, Time)>)
      modifies this`files
      ensures lifetime.Some? <==> task in old(files) && Trusted(old(files)[task], key, task, now)
      ensures lifetime.Some? ==> lifetime.value == (old(files)[task].envelope.value.created, old(files)[task].envelope.value.expires)
      ensures files - {task} == old(files) - {task}
    {
      lifetime := None;
      if task in files {
        if Trusted(files[task], key, task, now) {
          lifetime := Some((files[task].envelope.value.created, files[task].envelope.value.expires));
        } else {
          files := files - {task};
        }
      }
    }

    /** Overwriting a live checkpoint never moves its expiry, and no stored lifetime exceeds six hours. */
    method Write(task: nat, key: nat, content: nat, now: Time)
      requires 1 <= ttl <= MAXIMUM_TTL
      modifies this`files
      ensures task in files && files - {task} == old(files) - {task} && !files[task].temporary
      ensures HoldsContent(files[task], key, task, content, now) && Trusted(files[task], key, task, now)
      ensures task in old(files) && Trusted(old(files)[task], key, task, now) ==>
                files[task].envelope.value.expires == old(files)[task].envelope.value.expires
                && files[task].envelope.value.created == old(files)[task].envelope.value.created
      ensures !(task in old(files) && Trusted(old(files)[task], key, task, now)) ==>
                files[task].envelope.value.created == now && files[task].envelope.value.expires == now + ttl
    {
      var lifetime := AuthenticatedLifetime(task, key, now);
      var created := if lifetime.Some? then lifetime.value.0 else now;
      var expires := if lifetime.Some? then lifetime.value.1 else now + ttl;
      files := files[task := File(false, Some(Envelope(created, expires, Seal(key, task, created, expires, content))))];
    }

    /** What was written is read back until its lifetime runs out, under the same key and for the same task only. */
    method ReadBack(task: nat, key: nat, content: nat, now: Time, other: nat, wrong: nat, later: Time) returns (back: Option<nat>)
      requires 1 <= ttl <= MAXIMUM_TTL && now <= later
      requires task in files ==> !Trusted(files[task], key, task, now)
      modifies this`files
      ensures back == if other == task && wrong == key && later < now + ttl then Some(content)
                      else if other != task && other in old(files) then ContentOf(old(files)[other], wrong, other, later) else None
    {
      Write(task, key, content, now);
      ghost var f := files[task];
      assert f.envelope.value.seal == Seal(key, task, now, now + ttl, content) by { assert Trusted(f, key, task, now); }
      assert other != task ==> (other in files <==> other in old(files) - {task}) && (other in files ==> (files - {task})[other] == (old(files) - {task})[other]);
      back := Read(other, wrong, later);
    }

    /** However often a task checkpoints before its first checkpoint expires, that first expiry stands. */
    method KeepWriting(task: nat, key: nat, writes: seq<(nat, Time)>)
      requires 1 <= ttl <= MAXIMUM_TTL && writes != []
      requires forall i, j :: 0 <= i < j < |writes| ==> writes[i].1 <= writes[j].1
      requires forall i :: 0 <= i < |writes| ==> writes[i].1 < writes[0].1 + ttl
      requires task in files ==> !Trusted(files[task], key, task, writes[0].1)
      modifies this`files
      ensures task in files && files[task].envelope.Some?
      ensures files[task].envelope.value.created == writes[0].1 && files[task].envelope.value.expires == writes[0].1 + ttl
      ensures files[task].envelope.value.seal.content == writes[|writes| - 1].0
    {
      Write(task, key, writes[0].0, writes[0].1);
      for i := 1 to |writes|
        invariant task in files && Trusted(files[task], key, task, writes[i - 1].1)
        invariant files[task].envelope.value.created == writes[0].1 && files[task].envelope.value.expires == writes[0].1 + ttl
        invariant files[task].envelope.value.seal.content == writes[i - 1].0
      {
        assert writes[i - 1].1 <= writes[i].1;
        Write(task, key, writes[i].0, writes[i].1);
      }
    }

    /** The directory listing, sorted. */
    method SortedNames() returns (names: seq<nat>)
      ensures Members(names) == files.Keys && forall i, j :: 0 <= i < j < |names| ==> names[i] < names[j]
    {
      names := [];
      var rest := files.Keys;
      while rest != {}
        invariant Sorting(names, rest, files.Keys)
        decreases |rest|
      {
        var n := LeastOf(rest);
        SortingStep(names, rest, files.Keys, n);
        names, rest := names + [n], rest - {n};
      }
    }

    /**
     One bounded cleanup: inspect up to `batch` names from just after the cursor,
     remove temporaries and unusable files among them, and move the cursor on.
     */
    method CleanupExpired(now: Time) returns (ghost inspected: set<nat>)
      requires batch >= 1
      modifies this`files, this`cursor
      ensures inspected == Selected(old(files).Keys, old(cursor), batch)
      ensures CursorAfter(old(files).Keys, old(cursor), batch, cursor)
      ensures files == old(files) - Unsafe(old(files), inspected, now)
    {
      var names := SortedNames();
      var ordered := Rotate(names, cursor);
      RotationOrders(names, cursor);
      FirstAreSelected(cursor, ordered, batch);
      var k := Taken(ordered, batch);
      inspected := Members(ordered[..k]);
      Discard(ordered[..k], now);
      cursor := if k == 0 then None else Some(ordered[k - 1]);
    }

    /**
     Call after call, while others may remove files in between but add none:
     ceil(n / batch) calls leave only finished files that one of the calls found
     within their lifetime, each as it was.
     */
    method CleanUp(times: seq<Time>, gone: seq<set<nat>>) returns (ghost names: seq<set<nat>>, ghost cursors: seq<Cursor>)
      requires batch >= 1 && 1 <= |times| == |gone| && |times| * batch >= |files.Keys|
      modifies this`files, this`cursor
      ensures Unchanged(old(files), files)
      ensures |names| == |cursors| == |times| && forall x :: x in files ==> Inspected(names, cursors, batch, x)
      ensures forall x :: x in files ==> !files[x].temporary && exists i :: 0 <= i < |times| && Readable(files[x], times[i])
    {
      names, cursors := [], [];
      for i := 0 to |times|
        invariant |names| == |cursors| == i && UpToDate(files.Keys, cursor, names, cursors, batch) && (i > 0 ==> names[0] <= old(files).Keys)
        invariant Unchanged(old(files), files) && SurvivedTo(files, names, cursors, batch, times, i)
      {
        names, cursors := CleanAgain(times[i], gone[i], names, cursors, times);
      }
      SubsetSize(names[0], old(files).Keys);
      AllWereInspected(files, names, cursors, batch, times);
    }

    /** Others remove some files, then comes the next call. */
    method CleanAgain(now: Time, gone: set<nat>, ghost names: seq<set<nat>>, ghost cursors: seq<Cursor>, ghost times: seq<Time>)
      returns (ghost ns: seq<set<nat>>, ghost cs: seq<Cursor>)
      requires batch >= 1 && |names| == |cursors| < |times| && now == times[|names|]
      requires UpToDate(files.Keys, cursor, names, cursors, batch) && SurvivedTo(files, names, cursors, batch, times, |names|)
      modifies this`files, this`cursor
      ensures |ns| == |cs| == |names| + 1 && UpToDate(files.Keys, cursor, ns, cs, batch) && Unchanged(old(files), files)
      ensures SurvivedTo(files, ns, cs, batch, times, |ns|) && ns[0] == if names == [] then old(files).Keys - gone else names[0]
    {
      StillSurvived(files, gone, names, cursors, batch, times);
      files := files - gone;
      ghost var f, c := files, cursor;
      var inspected := CleanupExpired(now);
      ns, cs := names + [f.Keys], cursors + [c];
      CallsOneMore(names, cursors, batch, f.Keys, c);
      SurvivesOneMore(f, files, names, cursors, c, inspected, batch, times, |names|);
    }

    method Discard(names: seq<nat>, now: Time)
      modifies this`files
      ensures files == old(files) - Unsafe(old(files), Members(names), now)
    {
      for i := 0 to |names|
        invariant files == old(files) - Unsafe(old(files), Members(names[..i]), now)
      {
        var n := names[i];
        assert names[..i + 1] == names[..i] + [n];
        OneMoreMember(names[..i], n);
        UnsafeOneMore(old(files), Members(names[..i]), n, now);
        if n in files && (files[n].temporary || !Readable(files[n], now)) { files := files - {n}; }
      }
      assert names[..|names|] == names;
    }
  }

  /** What is left is as it was. */
  predicate Unchanged(before: map<nat, File>, after: map<nat, File>) { forall x :: x in after ==> x in before && after[x] == before[x] }

  /** The calls so far, and where the next one starts. */
  predicate UpToDate(keys: set<nat>, cursor: Cursor, names: seq<set<nat>>, cursors: seq<Cursor>, batch: nat)
    requires |names| == |cursors|
  {
    && Calls(names, cursors, batch)
    && (names != [] ==> keys <= names[|names| - 1] && CursorAfter(names[|names| - 1], cursors[|names| - 1], batch, cursor))
  }

  lemma StillSurvived(files: map<nat, File>, gone: set<nat>, names: seq<set<nat>>, cursors: seq<Cursor>, batch: nat, times: seq<Time>)
    requires |names| == |cursors| <= |times| && SurvivedTo(files, names, cursors, batch, times, |names|)
    ensures SurvivedTo(files - gone, names, cursors, batch, times, |names|)
  {
  }

  lemma CallsOneMore(names: seq<set<nat>>, cursors: seq<Cursor>, batch: nat, ks: set<nat>, c: Cursor)
    requires Calls(names, cursors, batch)
    requires names != [] ==> ks <= names[|names| - 1] && CursorAfter(names[|names| - 1], cursors[|names| - 1], batch, c)
    ensures Calls(names + [ks], cursors + [c], batch)
  {
  }

  predicate Sound(f: File, now: Time) { !f.temporary && Readable(f, now) }

  /** Every file still there was listed by each call so far and sound for each that inspected it. */
  predicate SurvivedTo(files: map<nat, File>, names: seq<set<nat>>, cursors: seq<Cursor>, batch: nat, times: seq<Time>, n: nat)
    requires |names| == |cursors| == n <= |times|
  {
    forall x, i :: x in files && 0 <= i < n ==> x in names[i] && (x in Selected(names[i], cursors[i], batch) ==> Sound(files[x], times[i]))
  }

  lemma SurvivesOneMore(f: map<nat, File>, files: map<nat, File>, names: seq<set<nat>>, cursors: seq<Cursor>, c: Cursor,
                        inspected: set<nat>, batch: nat, times: seq<Time>, n: nat)
    requires |names| == |cursors| == n < |times| && SurvivedTo(f, names, cursors, batch, times, n)
    requires inspected == Selected(f.Keys, c, batch) && files == f - Unsafe(f, inspected, times[n])
    ensures SurvivedTo(files, names + [f.Keys], cursors + [c], batch, times, n + 1)
  {
  }

  lemma AllWereInspected(files: map<nat, File>, names: seq<set<nat>>, cursors: seq<Cursor>, batch: nat, times: seq<Time>)
    requires Calls(names, cursors, batch) && batch >= 1 && |names| == |times| >= 1 && |names| * batch >= |names[0]|
    requires SurvivedTo(files, names, cursors, batch, times, |times|)
    ensures forall x :: x in files ==> Inspected(names, cursors, batch, x)
    ensures forall x :: x in files ==> !files[x].temporary && exists i :: 0 <= i < |times| && Readable(files[x], times[i])
  {
    forall x | x in files
      ensures Inspected(names, cursors, batch, x) && !files[x].temporary
      ensures exists i :: 0 <= i < |times| && Readable(files[x], times[i])
    {
      EveryFileIsInspected(names, cursors, batch, x);
      var i :| 0 <= i < |names| && x in Selected(names[i], cursors[i], batch);
      assert Sound(files[x], times[i]);
    }
  }

  /** Temporaries and unusable files among some names. */
  function Unsafe(files: map<nat, File>, names: set<nat>, now: Time): set<nat> {
    set n | n in names && n in files && (files[n].temporary || !Readable(files[n], now))
  }

  lemma UnsafeOneMore(files: map<nat, File>, names: set<nat>, n: nat, now: Time)
    ensures Unsafe(files, names + {n}, now) ==
            Unsafe(files, names, now) + (if n in files && (files[n].temporary || !Readable(files[n], now)) then {n} else {})
  {
  }

  method LeastOf(names: set<nat>) returns (n: nat)
    requires names != {}
    ensures n in names && forall m :: m in names ==> n <= m
  {
    n :| n in names;
    var rest := names - {n};
    while rest != {}
      invariant n in names && rest <= names && forall m :: m in names && m !in rest ==> n <= m
      decreases |rest|
    {
      var m :| m in rest;
      if m < n { n := m; }
      rest := rest - {m};
    }
  }

  /** The names taken so far are in order and below all that remain. */
  ghost predicate Sorting(names: seq<nat>, rest: set<nat>, all: set<nat>) {
    && rest <= all && Members(names) == all - rest
    && (forall i, j :: 0 <= i < j < |names| ==> names[i] < names[j])
    && (forall x, y :: x in Members(names) && y in rest ==> x < y)
  }

  lemma SortingStep(names: seq<nat>, rest: set<nat>, all: set<nat>, n: nat)
    requires Sorting(names, rest, all) && n in rest && forall m :: m in rest ==> n <= m
    ensures Sorting(names + [n], rest - {n}, all)
  {
    OneMoreMember(names, n);
    AllBelow(names, n);
    forall x, y | x in Members(names + [n]) && y in rest - {n} ensures x < y {
      assert x in Members(names) || x == n;
    }
  }

  lemma AllBelow(names: seq<nat>, n: nat)
    requires forall x :: x in Members(names) ==> x < n
    ensures forall i :: 0 <= i < |names| ==> names[i] < n
  {
    forall i | 0 <= i < |names| ensures names[i] < n { assert names[i] in Members(names); }
  }

  lemma OneMoreMember(s: seq<nat>, n: nat)
    ensures Members(s + [n]) == Members(s) + {n}
  {
    forall y | y in Members(s) + {n} ensures y in Members(s + [n]) {
      if y == n { assert (s + [n])[|s|] == n; } else {
        var i :| 0 <= i < |s| && s[i] == y;
        assert (s + [n])[i] == y;
      }
    }
  }

  /** The index of the first name after the cursor, or 0 when there is none. */
  function Start(names: seq<nat>, c: Cursor): (i: nat)
    ensures i <= |names|
  {
    if c.None? then 0 else var f := FirstAfter(names, c.value, 0); if f < |names| then f else 0
  }

  function FirstAfter(names: seq<nat>, c: nat, i: nat): (f: nat)
    requires i <= |names|
    ensures i <= f <= |names| && (f < |names| ==> names[f] > c)
    ensures forall k :: i <= k < f ==> names[k] <= c
    decreases |names| - i
  {
    if i == |names| || names[i] > c then i else FirstAfter(names, c, i + 1)
  }

  function Rotate(names: seq<nat>, c: Cursor): seq<nat> {
    names[Start(names, c)..] + names[..Start(names, c)]
  }

  lemma RotationKeepsMembers(names: seq<nat>, s: nat)
    requires s <= |names|
    ensures Members(names[s..] + names[..s]) == Members(names)
  {
    var r := names[s..] + names[..s];
    forall y | y in Members(names) ensures y in Members(r) {
      var i :| 0 <= i < |names| && names[i] == y;
      assert r[if i >= s then i - s else |names| - s + i] == y;
    }
    forall y | y in Members(r) ensures y in Members(names) {
      var i :| 0 <= i < |r| && r[i] == y;
      assert names[if i < |names| - s then s + i else i - (|names| - s)] == y;
    }
  }

  /** From the start on all names are later than the cursor, or none is. */
  lemma StartSplits(names: seq<nat>, c: Cursor)
    requires forall i, j :: 0 <= i < j < |names| ==> names[i] < names[j]
    ensures forall i :: 0 <= i < |names| ==> (Later(c, names[i]) <==> (c.None? || (i >= Start(names, c) && names[Start(names, c)] > c.value)))
  {
  }

  /** Sorted names rotated to the cursor are the same names in visiting order. */
  lemma RotationOrders(names: seq<nat>, c: Cursor)
    requires forall i, j :: 0 <= i < j < |names| ==> names[i] < names[j]
    ensures OrderedFrom(c, Rotate(names, c)) && Members(Rotate(names, c)) == Members(names)
  {
    var s, r := Start(names, c), Rotate(names, c);
    RotationKeepsMembers(names, s);
    StartSplits(names, c);
    forall i, j | 0 <= i < j < |r| ensures Precedes(c, r[i], r[j]) {
      var a := if i < |names| - s then s + i else i - (|names| - s);
      var b := if j < |names| - s then s + j else j - (|names| - s);
      assert r[i] == names[a] && r[j] == names[b];
    }
  }
}
