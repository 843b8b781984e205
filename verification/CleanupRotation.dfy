/**
 The round-robin order in which a bounded cleanup visits file names: strictly
 after the cursor first, then from the beginning. Names are numbers in their
 sort order.
 */
module CleanupRotation {
  import opened Totals

  type Cursor = Option<nat>

  predicate Later(c: Cursor, x: nat) { c.None? || x > c.value }

  /** y is visited before x when the round starts just after c. */
  predicate Precedes(c: Cursor, y: nat, x: nat) {
    if Later(c, y) == Later(c, x) then y < x else Later(c, y)
  }

  function Before(names: set<nat>, c: Cursor, x: nat): set<nat> { set y | y in names && Precedes(c, y, x) }

  /** The names one call inspects: those with fewer than `batch` others before them. */
  function Selected(names: set<nat>, c: Cursor, batch: nat): set<nat> {
    set y | y in names && |Before(names, c, y)| < batch
  }

  /** The cursor a call leaves behind: the last name it inspected. */
  predicate CursorAfter(names: set<nat>, c: Cursor, batch: nat, next: Cursor) {
    if names == {} then next == None
    else next.Some? && next.value in Selected(names, c, batch)
         && forall y :: y in Selected(names, c, batch) ==> y == next.value || Precedes(c, y, next.value)
  }

  predicate OrderedFrom(c: Cursor, s: seq<nat>) { forall i, j :: 0 <= i < j < |s| ==> Precedes(c, s[i], s[j]) }

  function Members(s: seq<nat>): set<nat> { set i | 0 <= i < |s| :: s[i] }

  /** In visiting order, what precedes the k-th name is the first k names. */
  lemma PrefixPrecedes(c: Cursor, s: seq<nat>, k: nat)
    requires OrderedFrom(c, s) && k < |s|
    ensures Before(Members(s), c, s[k]) == Members(s[..k])
  {
    forall y | y in Before(Members(s), c, s[k]) ensures y in Members(s[..k]) {
      var i :| 0 <= i < |s| && s[i] == y;
      assert i < k ==> s[..k][i] == y;
    }
    forall y | y in Members(s[..k]) ensures y in Before(Members(s), c, s[k]) {
      var i :| 0 <= i < k && s[..k][i] == y;
      assert s[i] == y;
    }
  }

  lemma {:induction false} MembersCount(c: Cursor, s: seq<nat>)
    requires OrderedFrom(c, s)
    ensures |Members(s)| == |s|
  {
    if s != [] {
      var short, last := s[..|s| - 1], s[|s| - 1];
      MembersCount(c, short);
      assert Members(s) == Members(short) + {last} by {
        forall y | y in Members(s) ensures y in Members(short) + {last} {
          var i :| 0 <= i < |s| && s[i] == y;
          assert i < |short| ==> short[i] == y;
        }
        forall y | y in Members(short) ensures y in Members(s) {
          var i :| 0 <= i < |short| && short[i] == y;
          assert s[i] == y;
        }
        assert s[|s| - 1] == last;
      }
      assert last !in Members(short);
    }
  }

  lemma BeforeCount(c: Cursor, s: seq<nat>, i: nat)
    requires OrderedFrom(c, s) && i < |s|
    ensures |Before(Members(s), c, s[i])| == i
  {
    PrefixPrecedes(c, s, i);
    MembersCount(c, s[..i]);
  }

  function Taken(s: seq<nat>, batch: nat): (k: nat)
    ensures k <= |s| && k <= batch
  {
    if |s| <= batch then |s| else batch
  }

  lemma PrefixIsSelected(c: Cursor, s: seq<nat>, batch: nat)
    requires OrderedFrom(c, s)
    ensures Members(s[..Taken(s, batch)]) == Selected(Members(s), c, batch)
  {
    var k := Taken(s, batch);
    forall y | y in Members(s[..k]) ensures y in Selected(Members(s), c, batch) {
      var i :| 0 <= i < k && s[..k][i] == y;
      assert s[i] == y;
      BeforeCount(c, s, i);
    }
    forall y | y in Selected(Members(s), c, batch) ensures y in Members(s[..k]) {
      var i :| 0 <= i < |s| && s[i] == y;
      BeforeCount(c, s, i);
      assert s[..k][i] == y;
    }
  }

  /** The first `batch` names in visiting order are the selected ones, and the last of them is the next cursor. */
  lemma FirstAreSelected(c: Cursor, s: seq<nat>, batch: nat)
    requires OrderedFrom(c, s) && batch >= 1
    ensures Members(s[..Taken(s, batch)]) == Selected(Members(s), c, batch)
    ensures CursorAfter(Members(s), c, batch, if s == [] then None else Some(s[Taken(s, batch) - 1]))
  {
    var k := Taken(s, batch);
    PrefixIsSelected(c, s, batch);
    if s != [] {
      assert s[..k][k - 1] == s[k - 1] && s[k - 1] in Members(s);
      forall y | y in Selected(Members(s), c, batch) ensures y == s[k - 1] || Precedes(c, y, s[k - 1]) {
        var i :| 0 <= i < k && s[..k][i] == y;
        assert s[i] == y;
      }
    }
  }

  // ------------------------------------------------------------- fair rounds

  /** Passing over x costs at least a whole batch of the names that stood before it. */
  lemma PassedOverMovesUp(names: set<nat>, later: set<nat>, c: Cursor, next: Cursor, batch: nat, x: nat)
    requires x in names && later <= names && batch >= 1 && CursorAfter(names, c, batch, next)
    requires x !in Selected(names, c, batch)
    ensures |Before(later, next, x)| + |Selected(names, c, batch)| <= |Before(names, c, x)|
  {
    var chosen := Selected(names, c, batch);
    var l := next.value;
    assert l in chosen;
    forall y | y in chosen ensures y in Before(names, c, x) {
      if !Precedes(c, y, x) {
        BeforeGrows(names, c, x, y);
      }
    }
    forall y | y in Before(later, next, x) ensures y in Before(names, c, x) && y !in chosen {
      assert Precedes(c, l, x);
    }
    var rest := Before(later, next, x);
    assert rest !! chosen && rest + chosen <= Before(names, c, x);
    SubsetSize(rest + chosen, Before(names, c, x));
  }

  lemma BeforeGrows(names: set<nat>, c: Cursor, x: nat, y: nat)
    requires !Precedes(c, y, x)
    ensures |Before(names, c, x)| <= |Before(names, c, y)|
  {
    assert Before(names, c, x) <= Before(names, c, y);
    SubsetSize(Before(names, c, x), Before(names, c, y));
  }

  lemma SubsetSize(a: set<nat>, b: set<nat>)
    requires a <= b
    ensures |a| <= |b|
  {
    assert b == a + (b - a);
  }

  /** A call that leaves something out inspects a full batch. */
  lemma {:induction false} FullBatch(names: set<nat>, c: Cursor, batch: nat, x: nat)
    requires x in names && |Before(names, c, x)| >= batch
    ensures |Selected(names, c, batch)| >= batch
    decreases |Before(names, c, x)|
  {
    var earlier := Before(names, c, x);
    if forall y :: y in earlier ==> |Before(names, c, y)| < batch {
      assert earlier <= Selected(names, c, batch);
      SubsetSize(earlier, Selected(names, c, batch));
    } else {
      var y :| y in earlier && |Before(names, c, y)| >= batch;
      assert Before(names, c, y) < earlier by {
        assert y in earlier && y !in Before(names, c, y);
      }
      SmallerSet(Before(names, c, y), earlier);
      FullBatch(names, c, batch, y);
    }
  }

  lemma SmallerSet(a: set<nat>, b: set<nat>)
    requires a < b
    ensures |a| < |b|
  {
    assert b == a + (b - a) && b - a != {};
  }

  /** Consecutive calls over names that only ever disappear. */
  predicate Calls(names: seq<set<nat>>, cursors: seq<Cursor>, batch: nat) {
    && |cursors| == |names|
    && (forall i :: 0 <= i < |names| - 1 ==> names[i + 1] <= names[i] && CursorAfter(names[i], cursors[i], batch, cursors[i + 1]))
  }

  predicate Inspected(names: seq<set<nat>>, cursors: seq<Cursor>, batch: nat, x: nat)
    requires |cursors| == |names|
  {
    exists i :: 0 <= i < |names| && x in Selected(names[i], cursors[i], batch)
  }

  lemma {:induction false} WaitingShrinks(names: seq<set<nat>>, cursors: seq<Cursor>, batch: nat, x: nat, k: nat)
    requires Calls(names, cursors, batch) && batch >= 1 && k < |names|
    requires forall i :: 0 <= i < |names| ==> x in names[i]
    requires !Inspected(names, cursors, batch, x)
    ensures |Before(names[k], cursors[k], x)| + k * batch <= |Before(names[0], cursors[0], x)|
  {
    if k > 0 {
      WaitingShrinks(names, cursors, batch, x, k - 1);
      assert x !in Selected(names[k - 1], cursors[k - 1], batch);
      PassedOverMovesUp(names[k - 1], names[k], cursors[k - 1], cursors[k], batch, x);
      FullBatch(names[k - 1], cursors[k - 1], batch, x);
      assert k * batch == (k - 1) * batch + batch;
    }
  }

  /**
   With no new names appearing, any ceil(n / batch) consecutive calls inspect every
   file that persists, wherever the cursor stood and whatever else is deleted.
   */
  lemma EveryFileIsInspected(names: seq<set<nat>>, cursors: seq<Cursor>, batch: nat, x: nat)
    requires Calls(names, cursors, batch) && batch >= 1 && |names| >= 1 && |names| * batch >= |names[0]|
    requires forall i :: 0 <= i < |names| ==> x in names[i]
    ensures Inspected(names, cursors, batch, x)
  {
    var k := |names| - 1;
    assert |names| * batch == k * batch + batch;
    if !Inspected(names, cursors, batch, x) {
      WaitingShrinks(names, cursors, batch, x, k);
      assert x !in Selected(names[k], cursors[k], batch);
      assert Before(names[0], cursors[0], x) < names[0] by { assert x in names[0] && x !in Before(names[0], cursors[0], x); }
      SmallerSet(Before(names[0], cursors[0], x), names[0]);
    }
  }
}
