/** Greedy grouping of intermediate results: nothing lost, nothing over the limit, no fewer groups possible. */
module SummaryGroups {

  datatype Summary = Summary(text: nat, bytes: nat)

  const OVERHEAD: nat := 64

  function Weight(s: Summary): nat { s.bytes + OVERHEAD }

  function Total(g: seq<Summary>): nat {
    if g == [] then 0 else Total(g[..|g| - 1]) + Weight(g[|g| - 1])
  }

  function Flatten(groups: seq<seq<Summary>>): seq<Summary> {
    if groups == [] then [] else Flatten(groups[..|groups| - 1]) + groups[|groups| - 1]
  }

  lemma TotalOfOneMore(g: seq<Summary>, s: Summary)
    ensures Total(g + [s]) == Total(g) + Weight(s)
  {
    assert (g + [s])[..|g|] == g;
  }

  lemma FlattenOfOneMore(groups: seq<seq<Summary>>, g: seq<Summary>)
    ensures Flatten(groups + [g]) == Flatten(groups) + g
  {
    assert (groups + [g])[..|groups|] == groups;
  }

  function TextBytes(g: seq<Summary>): nat {
    if g == [] then 0 else TextBytes(g[..|g| - 1]) + g[|g| - 1].bytes
  }

  /** A group weighs its text and sixty-four bytes an item. */
  lemma {:induction false} TotalIsTextAndOverhead(g: seq<Summary>)
    ensures Total(g) == TextBytes(g) + 64 * |g|
  {
    if g != [] { TotalIsTextAndOverhead(g[..|g| - 1]); }
  }

  lemma {:induction false} SuffixIsLighter(g: seq<Summary>, i: nat)
    requires i <= |g|
    ensures Total(g[i..]) <= Total(g)
  {
    if i < |g| {
      SuffixIsLighter(g[..|g| - 1], i);
      assert g[i..][..|g| - i - 1] == g[..|g| - 1][i..];
    }
  }

  /** Contiguous, non-empty groups of the items in order, each within the limit. */
  predicate Partition(groups: seq<seq<Summary>>, items: seq<Summary>, limit: nat) {
    Flatten(groups) == items && forall i :: 0 <= i < |groups| ==> groups[i] != [] && Total(groups[i]) <= limit
  }

  predicate TooLarge(items: seq<Summary>, limit: nat) { exists i :: 0 <= i < |items| && Weight(items[i]) > limit }

  predicate SomePairFits(items: seq<Summary>, limit: nat) {
    exists i :: 0 <= i < |items| - 1 && Weight(items[i]) + Weight(items[i + 1]) <= limit
  }

  // ------------------------------------------------------ greedy stays ahead

  /**
   No partition uses fewer groups than the greedy one, and none that uses as many
   has a shorter last group.
   */
  ghost predicate Ahead(items: seq<Summary>, closed: nat, last: nat, limit: nat) {
    forall p :: Partition(p, items, limit) ==> NoBetter(p, closed, last)
  }

  predicate NoBetter(p: seq<seq<Summary>>, closed: nat, last: nat) {
    |p| >= closed + 1 && (|p| == closed + 1 ==> |p[|p| - 1]| >= last)
  }

  /** q is p without its last item s. */
  predicate Shortened(p: seq<seq<Summary>>, q: seq<seq<Summary>>, s: Summary) {
    && p != [] && p[|p| - 1] != []
    && var last := p[|p| - 1];
    && last[|last| - 1] == s
    && if |last| == 1 then |q| == |p| - 1 else |q| == |p| && q[|q| - 1] == last[..|last| - 1]
  }

  /** What is left of a partition when its last item is taken away. */
  lemma Shorten(p: seq<seq<Summary>>, items: seq<Summary>, s: Summary, limit: nat) returns (q: seq<seq<Summary>>)
    requires Partition(p, items + [s], limit)
    ensures Partition(q, items, limit) && Shortened(p, q, s) && Total(p[|p| - 1]) <= limit
  {
    assert p != [];
    var init, last := p[..|p| - 1], p[|p| - 1];
    assert Flatten(init) + last == items + [s];
    assert last[|last| - 1] == (Flatten(init) + last)[|items|] == s;
    if |last| == 1 {
      q := init;
      assert (Flatten(init) + last)[..|items|] == Flatten(init);
    } else {
      var cut := last[..|last| - 1];
      q := init + [cut];
      FlattenOfOneMore(init, cut);
      assert (Flatten(init) + last)[..|items|] == Flatten(init) + cut;
      assert last == cut + [s];
      TotalOfOneMore(cut, s);
    }
  }

  /** The item still fits: the greedy group grows, and every rival's does too or a group is opened. */
  lemma GrowingStaysAhead(items: seq<Summary>, s: Summary, closed: nat, last: nat, limit: nat)
    requires items != [] && Ahead(items, closed, last, limit)
    ensures Ahead(items + [s], closed, last + 1, limit)
  {
    forall p | Partition(p, items + [s], limit) ensures NoBetter(p, closed, last + 1) {
      var q := Shorten(p, items, s, limit);
      assert NoBetter(q, closed, last);
    }
  }

  /** The item does not fit behind the shortest possible last group, so it fits behind none. */
  lemma OpeningStaysAhead(items: seq<Summary>, current: seq<Summary>, s: Summary, closed: nat, limit: nat)
    requires items != [] && Ahead(items, closed, |current|, limit)
    requires |current| <= |items| && items[|items| - |current|..] == current && Total(current) + Weight(s) > limit
    ensures Ahead(items + [s], closed + 1, 1, limit)
  {
    forall p | Partition(p, items + [s], limit) ensures NoBetter(p, closed + 1, 1) {
      var q := Shorten(p, items, s, limit);
      assert NoBetter(q, closed, |current|);
      RivalOpensToo(items, current, s, closed, limit, p, q);
    }
  }

  lemma RivalOpensToo(items: seq<Summary>, current: seq<Summary>, s: Summary, closed: nat, limit: nat, p: seq<seq<Summary>>, q: seq<seq<Summary>>)
    requires Shortened(p, q, s) && NoBetter(q, closed, |current|) && Flatten(q) == items && Total(p[|p| - 1]) <= limit
    requires |current| <= |items| && items[|items| - |current|..] == current && Total(current) + Weight(s) > limit
    ensures NoBetter(p, closed + 1, 1)
  {
    var last := p[|p| - 1];
    if |last| > 1 && |q| == closed + 1 { RivalOverflows(q, items, current, last, s); }
  }

  lemma RivalOverflows(q: seq<seq<Summary>>, items: seq<Summary>, current: seq<Summary>, last: seq<Summary>, s: Summary)
    requires q != [] && Flatten(q) == items && |q[|q| - 1]| >= |current|
    requires |current| <= |items| && items[|items| - |current|..] == current
    requires |last| > 1 && last[|last| - 1] == s && q[|q| - 1] == last[..|last| - 1]
    ensures Total(last) >= Total(current) + Weight(s)
  {
    RivalIsHeavier(q, items, current);
    assert last == last[..|last| - 1] + [s];
    TotalOfOneMore(last[..|last| - 1], s);
  }

  lemma RivalIsHeavier(q: seq<seq<Summary>>, items: seq<Summary>, current: seq<Summary>)
    requires q != [] && Flatten(q) == items && |q[|q| - 1]| >= |current|
    requires |current| <= |items| && items[|items| - |current|..] == current
    ensures Total(q[|q| - 1]) >= Total(current)
  {
    var last := q[|q| - 1];
    SuffixIsLighter(last, |last| - |current|);
    assert items == Flatten(q[..|q| - 1]) + last;
    assert last[|last| - |current|..] == current;
  }

  lemma FirstItem(s: Summary, limit: nat)
    ensures Ahead([s], 0, 1, limit)
  {
    forall p | Partition(p, [s], limit) ensures NoBetter(p, 0, 1) {
    }
  }

  // ---------------------------------------------------------------- grouping

  lemma GrownPairFits(seen: seq<Summary>, current: seq<Summary>, s: Summary, limit: nat)
    requires 1 <= |current| <= |seen| && seen[|seen| - |current|..] == current && Total(current) + Weight(s) <= limit
    ensures SomePairFits(seen + [s], limit)
  {
    var i := |seen| - 1;
    SuffixIsLighter(current, |current| - 1);
    assert current[|current| - 1..] == [seen[i]];
    assert (seen + [s])[i] == seen[i] && (seen + [s])[i + 1] == s;
    assert Total([seen[i]]) == Weight(seen[i]) by { TotalOfOneMore([], seen[i]); assert [] + [seen[i]] == [seen[i]]; }
  }

  lemma OpenedPair(seen: seq<Summary>, current: seq<Summary>, s: Summary, closed: nat, limit: nat)
    requires 1 <= |current| <= |seen| && seen[|seen| - |current|..] == current && Total(current) + Weight(s) > limit
    requires closed + 1 <= |seen| && (closed + 1 == |seen| <==> !SomePairFits(seen, limit)) && (closed + 1 == |seen| ==> |current| == 1)
    ensures closed + 2 == |seen| + 1 <==> !SomePairFits(seen + [s], limit)
  {
    if SomePairFits(seen, limit) {
      var i :| 0 <= i < |seen| - 1 && Weight(seen[i]) + Weight(seen[i + 1]) <= limit;
      assert (seen + [s])[i] == seen[i] && (seen + [s])[i + 1] == seen[i + 1];
    } else {
      assert current == [seen[|seen| - 1]];
      assert Total(current) == Weight(seen[|seen| - 1]) by { TotalOfOneMore([], seen[|seen| - 1]); assert [] + [seen[|seen| - 1]] == current; }
      forall i | 0 <= i < |seen| ensures Weight((seen + [s])[i]) + Weight((seen + [s])[i + 1]) > limit {
        if i < |seen| - 1 { assert Weight(seen[i]) + Weight(seen[i + 1]) > limit; }
      }
    }
  }

  /** No partition within the limit has fewer groups. */
  ghost predicate Fewest(groups: seq<seq<Summary>>, items: seq<Summary>, limit: nat) {
    forall p :: Partition(p, items, limit) ==> |groups| <= |p|
  }

  lemma NothingToGroup(limit: nat)
    ensures Partition([], [], limit) && Fewest([], [], limit) && !SomePairFits([], limit)
  {
  }

  /** The state of the greedy scan after the items seen so far. */
  ghost predicate Greedy(groups: seq<seq<Summary>>, current: seq<Summary>, seen: seq<Summary>, limit: nat) {
    && Flatten(groups) + current == seen && Total(current) <= limit
    && (forall k :: 0 <= k < |groups| ==> groups[k] != [] && Total(groups[k]) <= limit)
    && (if seen == [] then groups == [] && current == []
        else && current != [] && Ahead(seen, |groups|, |current|, limit) && |groups| + |current| <= |seen|
             && (|groups| + 1 == |seen| <==> !SomePairFits(seen, limit)))
  }

  lemma GreedyStarts(s: Summary, limit: nat)
    requires Weight(s) <= limit
    ensures Greedy([], [s], [s], limit)
  {
    FirstItem(s, limit);
    TotalOfOneMore([], s);
    assert [] + [s] == [s];
  }

  lemma GreedyGrows(groups: seq<seq<Summary>>, current: seq<Summary>, seen: seq<Summary>, s: Summary, limit: nat)
    requires Greedy(groups, current, seen, limit) && seen != [] && Total(current) + Weight(s) <= limit
    ensures Greedy(groups, current + [s], seen + [s], limit)
  {
    assert seen[|seen| - |current|..] == current;
    TotalOfOneMore(current, s);
    GrowingStaysAhead(seen, s, |groups|, |current|, limit);
    GrownPairFits(seen, current, s, limit);
  }

  lemma GreedyOpens(groups: seq<seq<Summary>>, current: seq<Summary>, seen: seq<Summary>, s: Summary, limit: nat)
    requires Greedy(groups, current, seen, limit) && seen != [] && Total(current) + Weight(s) > limit && Weight(s) <= limit
    ensures Greedy(groups + [current], [s], seen + [s], limit)
  {
    assert seen[|seen| - |current|..] == current;
    FlattenOfOneMore(groups, current);
    TotalOfOneMore([], s);
    assert [] + [s] == [s];
    OpeningStaysAhead(seen, current, s, |groups|, limit);
    OpenedPair(seen, current, s, |groups|, limit);
  }

  lemma GreedyEnds(groups: seq<seq<Summary>>, current: seq<Summary>, items: seq<Summary>, limit: nat)
    requires Greedy(groups, current, items, limit) && items != []
    ensures Partition(groups + [current], items, limit) && Fewest(groups + [current], items, limit)
    ensures |groups| + 1 <= |items| && (|groups| + 1 == |items| <==> !SomePairFits(items, limit))
  {
    FlattenOfOneMore(groups, current);
    forall p | Partition(p, items, limit) ensures |groups| + 1 <= |p| { assert NoBetter(p, |groups|, |current|); }
  }

  /**
   Groups in order without loss, each within the limit, as few as any partition
   could; fails exactly when an item is too large or, of several items, no two
   neighbours fit together. So a successful grouping of several items is shorter.
   */
  method GroupSummaries(items: seq<Summary>, limit: nat) returns (ok: bool, groups: seq<seq<Summary>>)
    ensures ok <==> !TooLarge(items, limit) && (|items| > 1 ==> SomePairFits(items, limit))
    ensures ok ==> Partition(groups, items, limit) && Fewest(groups, items, limit)
    ensures ok && |items| > 1 ==> |groups| < |items|
  {
    groups := [];
    var current: seq<Summary>, bytes := [], 0;
    for i := 0 to |items|
      invariant bytes == Total(current) && !TooLarge(items[..i], limit)
      invariant Greedy(groups, current, items[..i], limit)
    {
      var s := items[i];
      assert items[..i + 1] == items[..i] + [s];
      if Weight(s) > limit { return false, groups; }
      StillNotTooLarge(items[..i], s, limit);
      groups, current := Place(groups, current, bytes, s, limit, items[..i]);
      bytes := if |current| == 1 then Weight(s) else bytes + Weight(s);
    }
    assert items[..|items|] == items;
    if |current| > 0 {
      GreedyEnds(groups, current, items, limit);
      groups := groups + [current];
    } else {
      NothingToGroup(limit);
    }
    ok := !(|groups| == |items| && |items| > 1);
  }

  lemma StillNotTooLarge(seen: seq<Summary>, s: Summary, limit: nat)
    requires !TooLarge(seen, limit) && Weight(s) <= limit
    ensures !TooLarge(seen + [s], limit)
  {
    forall i | 0 <= i < |seen + [s]| ensures Weight((seen + [s])[i]) <= limit {
      if i < |seen| { assert Weight(seen[i]) <= limit; }
    }
  }

  /** One item: behind the current group when it fits, else it opens the next one. */
  method Place(closed: seq<seq<Summary>>, current: seq<Summary>, bytes: nat, s: Summary, limit: nat, ghost seen: seq<Summary>)
    returns (groups: seq<seq<Summary>>, open: seq<Summary>)
    requires Greedy(closed, current, seen, limit) && bytes == Total(current) && Weight(s) <= limit
    ensures Greedy(groups, open, seen + [s], limit) && Total(open) == if |open| == 1 then Weight(s) else bytes + Weight(s)
  {
    TotalOfOneMore(current, s);
    TotalOfOneMore([], s);
    assert [] + [s] == [s];
    if |current| > 0 && bytes + Weight(s) > limit {
      GreedyOpens(closed, current, seen, s, limit);
      groups, open := closed + [current], [s];
    } else if |current| > 0 {
      GreedyGrows(closed, current, seen, s, limit);
      groups, open := closed, current + [s];
    } else {
      GreedyStarts(s, limit);
      assert seen + [s] == [s];
      groups, open := closed, [s];
    }
  }
}
