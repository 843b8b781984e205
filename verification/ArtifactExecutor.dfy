/**
 Executing an artifact task: map every segment once, checkpoint after each, then
 reduce. The provider is any deterministic function of what it is asked; decoding
 and prompting are part of it, so a map question is the file's prefix.
 */
module ArtifactExecutor {
  import opened Totals
  import opened ArtifactSegments
  import opened SummaryGroups

  datatype Usage = Usage(input: nat, output: nat)
  datatype Answer = Answer(summary: Summary, id: nat, usage: Usage)

  datatype Question =
    | MapQuestion(prefix: seq<seq<Byte>>, maxOutput: nat)
    | ReduceQuestion(group: seq<Summary>, round: nat, index: nat, groups: nat, maxOutput: nat)

  type Provider = Question -> Option<Answer>

  datatype Limits = Limits(maxTotal: nat, maxOutput: nat, nodeMaxOutput: nat)

  const MAP_OUTPUT: nat := 512
  const MAXIMUM_SUMMARIES: nat := 100_000
  const MAXIMUM_ROUNDS: nat := 32

  /** What a checkpoint holds of the work done so far. */
  datatype Work = Work(completed: nat, processed: nat, summaries: seq<Summary>, ids: seq<nat>, usage: Usage)

  const FRESH := Work(0, 0, [], [], Usage(0, 0))

  function Spent(u: Usage): nat { u.input + u.output }
  function Plus(a: Usage, b: Usage): Usage { Usage(a.input + b.input, a.output + b.output) }

  function Least(a: int, b: int): int { if a <= b then a else b }

  /** The output allowance of the next call, if the budget leaves any. */
  function Allowance(l: Limits, used: Usage, wanted: nat): nat
    requires Spent(used) < l.maxTotal
  {
    var m := Least(wanted, Least(l.maxTotal - Spent(used), l.nodeMaxOutput));
    if m < 1 then 1 else m
  }

  predicate ValidAnswer(a: Answer, allowance: nat) { a.usage.input >= 1 && a.usage.output <= allowance }

  /** An answer that is valid and affordable. */
  function Checked(a: Option<Answer>, allowance: nat, used: Usage, maxTotal: nat): Option<Answer> {
    if a.Some? && ValidAnswer(a.value, allowance) && Spent(Plus(used, a.value.usage)) <= maxTotal then a else None
  }

  function Charge(w: Work, a: Answer): Work {
    w.(usage := Plus(w.usage, a.usage), ids := w.ids + [a.id])
  }

  // --------------------------------------------------------------- map phase

  function Mapped(w: Work, summary: Summary, processed: nat): Work {
    w.(completed := w.completed + 1, processed := processed, summaries := w.summaries + [summary])
  }

  /** One map call and the checkpoint after it; None when the budget, the provider or its answer fails. */
  function MapStep(p: Provider, l: Limits, w: Work, segments: seq<seq<Byte>>): Option<Work>
    requires w.completed < |segments|
  {
    if Spent(w.usage) >= l.maxTotal then None
    else
      var allowance := Allowance(l, w.usage, Least(MAP_OUTPUT, l.maxOutput));
      match Checked(p(MapQuestion(segments[..w.completed + 1], allowance)), allowance, w.usage, l.maxTotal)
      case None => None
      case Some(a) => Some(Mapped(Charge(w, a), a.summary, |Concat(segments[..w.completed + 1])|))
  }

  /** At most n map steps, as far as they succeed. */
  function MapSome(p: Provider, l: Limits, w: Work, segments: seq<seq<Byte>>, n: nat): Work
    decreases n
  {
    if n == 0 || w.completed >= |segments| then w
    else match MapStep(p, l, w, segments)
      case None => w
      case Some(next) => MapSome(p, l, next, segments, n - 1)
  }

  /** The uninterrupted run. */
  function MapAll(p: Provider, l: Limits, w: Work, segments: seq<seq<Byte>>): Work {
    MapSome(p, l, w, segments, |segments|)
  }

  lemma {:induction false} StepsAddUp(p: Provider, l: Limits, w: Work, segments: seq<seq<Byte>>, m: nat, n: nat)
    ensures MapSome(p, l, MapSome(p, l, w, segments, m), segments, n) == MapSome(p, l, w, segments, m + n)
    decreases m
  {
    if m > 0 && w.completed < |segments| {
      match MapStep(p, l, w, segments)
      case None => StuckStays(p, l, w, segments, n);
      case Some(next) => StepsAddUp(p, l, next, segments, m - 1, n);
    }
  }

  lemma StuckStays(p: Provider, l: Limits, w: Work, segments: seq<seq<Byte>>, n: nat)
    requires w.completed < |segments| && MapStep(p, l, w, segments).None?
    ensures MapSome(p, l, w, segments, n) == w
  {
  }

  lemma {:induction false} EnoughSteps(p: Provider, l: Limits, w: Work, segments: seq<seq<Byte>>, n: nat)
    requires w.completed <= |segments| && n >= |segments| - w.completed
    ensures MapSome(p, l, w, segments, n) == MapSome(p, l, w, segments, |segments| - w.completed)
    decreases n
  {
    if n > 0 && w.completed < |segments| {
      match MapStep(p, l, w, segments)
      case None => StuckStays(p, l, w, segments, |segments| - w.completed);
      case Some(next) => EnoughSteps(p, l, next, segments, n - 1);
    }
  }

  /** Stop after any map checkpoint and resume from it: the final work is that of an uninterrupted run. */
  lemma ResumingIsSeamless(p: Provider, l: Limits, w: Work, segments: seq<seq<Byte>>, stop: nat)
    requires w.completed <= |segments|
    ensures MapAll(p, l, MapSome(p, l, w, segments, stop), segments) == MapAll(p, l, w, segments)
  {
    StepsAddUp(p, l, w, segments, stop, |segments|);
    EnoughSteps(p, l, w, segments, stop + |segments|);
    EnoughSteps(p, l, w, segments, |segments|);
  }

  /** What every map checkpoint satisfies. */
  predicate MapWork(w: Work, l: Limits, segments: seq<seq<Byte>>) {
    && w.completed <= |segments| && |w.summaries| == w.completed && |w.ids| == w.completed
    && w.processed == |Concat(segments[..w.completed])| && Spent(w.usage) <= l.maxTotal
  }

  lemma {:induction false} MapSomeIsMapWork(p: Provider, l: Limits, w: Work, segments: seq<seq<Byte>>, n: nat)
    requires MapWork(w, l, segments)
    ensures MapWork(MapSome(p, l, w, segments, n), l, segments)
    ensures w.completed <= MapSome(p, l, w, segments, n).completed
    decreases n
  {
    if n > 0 && w.completed < |segments| && MapStep(p, l, w, segments).Some? {
      MapSomeIsMapWork(p, l, MapStep(p, l, w, segments).value, segments, n - 1);
    }
  }

  /** A finished map phase has processed the whole file, whatever its size. */
  lemma FinishedCoversFile(w: Work, l: Limits, content: seq<Byte>, n: nat)
    requires n > 0 && MapWork(w, l, Cut(content, n)) && w.completed == |Cut(content, n)|
    ensures w.processed == |content| && w.completed == CeilingDivide(|content|, n)
  {
    CutIsExact(content, n);
    assert Cut(content, n)[..w.completed] == Cut(content, n);
  }

  // ------------------------------------------------------------ reduce phase

  /** A round under way: what has been spent, and the summaries of the groups reduced so far. */
  datatype Round = Round(ok: bool, work: Work, reduced: seq<Summary>)

  /** The first n groups of a round, one question each, in order, up to the first failure. */
  function Reduced(p: Provider, l: Limits, w: Work, groups: seq<seq<Summary>>, round: nat, n: nat): (r: Round)
    requires n <= |groups|
    ensures r.ok ==> |r.reduced| == n
  {
    if n == 0 then Round(true, w, [])
    else
      var r := Reduced(p, l, w, groups, round, n - 1);
      if !r.ok || Spent(r.work.usage) >= l.maxTotal then r.(ok := false)
      else
        var allowance := Allowance(l, r.work.usage, l.maxOutput);
        match Checked(p(ReduceQuestion(groups[n - 1], round, n, |groups|, allowance)), allowance, r.work.usage, l.maxTotal)
        case None => r.(ok := false)
        case Some(a) => Round(true, Charge(r.work, a), r.reduced + [a.summary])
  }

  lemma {:induction false} FailureStays(p: Provider, l: Limits, w: Work, groups: seq<seq<Summary>>, round: nat, n: nat, m: nat)
    requires n <= m <= |groups| && !Reduced(p, l, w, groups, round, n).ok
    ensures Reduced(p, l, w, groups, round, m) == Reduced(p, l, w, groups, round, n)
  {
    if n < m { FailureStays(p, l, w, groups, round, n, m - 1); }
  }

  /** A whole round: some grouping, as coarse as any could be, and every group's answer in its place. */
  ghost predicate RoundOf(p: Provider, l: Limits, w: Work, n: Work, groups: seq<seq<Summary>>, round: nat, limit: nat) {
    && Partition(groups, w.summaries, limit) && Fewest(groups, w.summaries, limit)
    && var r := Reduced(p, l, w, groups, round, |groups|);
    r.ok && n == r.work.(summaries := r.reduced)
  }

  /** Consecutive rounds of one reduce phase. */
  ghost predicate Rounds(p: Provider, l: Limits, trace: seq<Work>, limit: nat) {
    trace != [] && forall i :: 0 <= i < |trace| - 1 ==> Follows(p, l, trace, i, limit)
  }
  ghost predicate Follows(p: Provider, l: Limits, trace: seq<Work>, i: nat, limit: nat)
    requires i + 1 < |trace|
  {
    SomeRound(p, l, trace[i], trace[i + 1], i + 1, limit)
  }
  ghost predicate SomeRound(p: Provider, l: Limits, w: Work, n: Work, round: nat, limit: nat) {
    exists groups :: RoundOf(p, l, w, n, groups, round, limit)
  }

  /** Rounds from w0 to w, each of which left fewer summaries. */
  ghost predicate Reducing(p: Provider, l: Limits, trace: seq<Work>, w0: Work, w: Work, limit: nat) {
    && Rounds(p, l, trace, limit) && trace[0] == w0 && trace[|trace| - 1] == w
    && w.completed == w0.completed && 1 <= |w.summaries| && |trace| - 1 + |w.summaries| <= |w0.summaries|
  }

  /** No round follows: an item is too large, no two neighbours fit together, or some group of a fewest grouping got no valid answer. */
  ghost predicate NoRound(p: Provider, l: Limits, w: Work, round: nat, limit: nat) {
    || TooLarge(w.summaries, limit) || !SomePairFits(w.summaries, limit)
    || exists groups :: Unanswered(p, l, w, groups, round, limit)
  }
  ghost predicate Unanswered(p: Provider, l: Limits, w: Work, groups: seq<seq<Summary>>, round: nat, limit: nat) {
    Partition(groups, w.summaries, limit) && Fewest(groups, w.summaries, limit) && !Reduced(p, l, w, groups, round, |groups|).ok
  }

  lemma NoRoundYet(p: Provider, l: Limits, w: Work, limit: nat)
    requires w.summaries != []
    ensures Reducing(p, l, [w], w, w, limit)
  {
  }

  lemma OneMoreRound(p: Provider, l: Limits, trace: seq<Work>, w0: Work, w: Work, n: Work, limit: nat)
    requires Reducing(p, l, trace, w0, w, limit) && SomeRound(p, l, w, n, |trace|, limit)
    requires n.completed == w.completed && 1 <= |n.summaries| < |w.summaries|
    ensures Reducing(p, l, trace + [n], w0, n, limit)
  {
    var longer := trace + [n];
    forall i | 0 <= i < |longer| - 1 ensures Follows(p, l, longer, i, limit) {
      if i < |trace| - 1 { assert Follows(p, l, trace, i, limit); }
    }
  }

  // -------------------------------------------------------------- checkpoints

  datatype Assignment = Assignment(task: nat, manifest: nat, resumeFrom: nat)
  datatype Checkpoint = Checkpoint(task: nat, manifest: nat, total: nat, work: Work)

  /** initialState: a fresh start, the validated checkpoint, or a refusal. */
  function InitialWork(a: Assignment, c: Option<Checkpoint>, total: nat): Option<Work> {
    if c.None? || a.resumeFrom == 0 then Some(FRESH)
    else
      var k := c.value;
      if k.task != a.task || k.manifest != a.manifest || k.work.completed != a.resumeFrom || k.total != total
         || k.work.completed > total || |k.work.summaries| < 1 || |k.work.summaries| > MAXIMUM_SUMMARIES
         || |k.work.ids| < k.work.completed
      then None else Some(k.work)
  }

  lemma FewSegmentsResume(a: Assignment, c: Checkpoint, l: Limits, segments: seq<seq<Byte>>)
    requires |segments| <= MAXIMUM_SUMMARIES
    requires MapWork(c.work, l, segments) && c.task == a.task && c.manifest == a.manifest && c.total == |segments|
    requires a.resumeFrom == c.work.completed
    ensures InitialWork(a, Some(c), |segments|) == Some(if c.work.completed == 0 then FRESH else c.work)
  {
  }

  /** Every map checkpoint of an acceptable assignment can be resumed: the limit on stored summaries is out of its reach. */
  lemma MapCheckpointsResume(a: Assignment, c: Checkpoint, l: Limits, content: seq<Byte>, n: nat)
    requires n >= MINIMUM_SEGMENT_BYTES && |content| <= MAXIMUM_ARTIFACT_BYTES
    requires MapWork(c.work, l, Cut(content, n)) && c.task == a.task && c.manifest == a.manifest && c.total == CeilingDivide(|content|, n)
    requires a.resumeFrom == c.work.completed
    ensures InitialWork(a, Some(c), CeilingDivide(|content|, n)) == Some(if c.work.completed == 0 then FRESH else c.work)
  {
    CutCount(content, n);
    FewSegments(content, n);
    FewSegmentsResume(a, c, l, Cut(content, n));
  }

  /** A checkpoint of another task, another file, another cut or another position than the platform's is refused, never resumed. */
  lemma ForeignCheckpointsAreRefused(a: Assignment, c: Checkpoint, total: nat)
    requires a.resumeFrom > 0
    ensures c.task != a.task || c.manifest != a.manifest || c.total != total || c.work.completed != a.resumeFrom || a.resumeFrom > total ==>
              InitialWork(a, Some(c), total) == None
    ensures InitialWork(a, Some(c), total).Some? ==> InitialWork(a, Some(c), total).value == c.work && |c.work.ids| >= a.resumeFrom
    ensures InitialWork(a, None, total) == Some(Work(0, 0, [], [], Usage(0, 0)))
  {
  }

  // ---------------------------------------------------------------- executor

  datatype Bill = Bill(usage: Usage, ids: seq<nat>)

  /** What the first n answers cost, and their identifiers. */
  function BillOf(answers: seq<Answer>, n: nat): Bill
    requires n <= |answers|
  {
    if n == 0 then Bill(Usage(0, 0), [])
    else
      var b := BillOf(answers, n - 1);
      Bill(Plus(b.usage, answers[n - 1].usage), b.ids + [answers[n - 1].id])
  }

  lemma {:induction false} BillIgnoresLater(answers: seq<Answer>, a: Answer, n: nat)
    requires n <= |answers|
    ensures BillOf(answers + [a], n) == BillOf(answers, n)
  {
    if n > 0 { BillIgnoresLater(answers, a, n - 1); }
  }

  lemma {:induction false} IdsCount(answers: seq<Answer>, n: nat)
    requires n <= |answers|
    ensures |BillOf(answers, n).ids| == n
  {
    if n > 0 { IdsCount(answers, n - 1); }
  }

  /** The work's usage and request identifiers are those of these answers, within the budget. */
  predicate Paid(w: Work, answers: seq<Answer>, l: Limits) {
    BillOf(answers, |answers|) == Bill(w.usage, w.ids) && Spent(w.usage) <= l.maxTotal
  }

  lemma PayingOneMore(w: Work, answers: seq<Answer>, l: Limits, a: Answer)
    requires Paid(w, answers, l) && Spent(Plus(w.usage, a.usage)) <= l.maxTotal
    ensures Paid(Charge(w, a), answers + [a], l)
  {
    BillIgnoresLater(answers, a, |answers|);
  }

  /** first + 1, ..., last */
  function Numbers(first: nat, last: nat): seq<nat>
    requires first <= last
  {
    if first == last then [] else Numbers(first, last - 1) + [last]
  }

  lemma {:induction false} NumbersJoin(a: nat, b: nat, c: nat)
    requires a <= b <= c
    ensures Numbers(a, b) + Numbers(b, c) == Numbers(a, c)
    decreases c
  {
    if b < c {
      NumbersJoin(a, b, c - 1);
      assert Numbers(a, b) + (Numbers(b, c - 1) + [c]) == (Numbers(a, b) + Numbers(b, c - 1)) + [c];
    }
  }

  /** On the way, having asked each segment once: `left` more steps from w end where `patience` steps from w0 do. */
  predicate Along(p: Provider, l: Limits, w0: Work, w: Work, segments: seq<seq<Byte>>, left: nat, patience: nat, asked: seq<nat>) {
    && w0.completed <= w.completed <= |segments| && left + (w.completed - w0.completed) == patience
    && asked == Numbers(w0.completed, w.completed)
    && MapSome(p, l, w, segments, left) == MapSome(p, l, w0, segments, patience)
  }

  datatype Outcome = Finished | Interrupted | Failed

  class Executor {
    const provider: Provider
    const limits: Limits
    var work: Work
    ghost var answers: seq<Answer>
    ghost var asked: seq<nat>

    /** Usage is the sum of everything the provider ever charged, within the budget. */
    ghost predicate Accounted()
      reads this
    {
      Paid(work, answers, limits)
    }

    constructor (p: Provider, l: Limits, w: Work, ghost paid: seq<Answer>)
      requires Paid(w, paid, l)
      ensures provider == p && limits == l && work == w && answers == paid && asked == [] && Accounted()
    {
      provider, limits, work := p, l, w;
      answers, asked := paid, [];
    }

    /** One bounded provider call: no budget, no answer, or an invalid or too costly answer fails. */
    method Invoke(q: Question, allowance: nat) returns (answer: Option<Answer>)
      requires Accounted() && allowance >= 1
      modifies this
      ensures asked == old(asked) && Accounted()
      ensures answer == Checked(provider(q), allowance, old(work).usage, limits.maxTotal)
      ensures answers == old(answers) + (if answer.None? then [] else [answer.value])
      ensures work == if answer.None? then old(work) else Charge(old(work), answer.value)
    {
      answer := Checked(provider(q), allowance, work.usage, limits.maxTotal);
      if answer.Some? {
        PayingOneMore(work, answers, limits, answer.value);
        work := Charge(work, answer.value);
        answers := answers + [answer.value];
      }
    }

    /**
     The map loop over the segment stream: segments of the checkpoint are skipped,
     each other one is asked once and checkpointed. `patience` checkpoints later the
     signal aborts. The work left behind is exactly that many steps of the run.
     */
    method MapPhase(segments: seq<seq<Byte>>, patience: nat) returns (o: Outcome)
      requires Accounted() && work.completed <= |segments|
      modifies this
      ensures Accounted() && old(work).completed <= work.completed <= |segments|
      ensures work == MapSome(provider, limits, old(work), segments, patience)
      ensures o.Finished? <==> work.completed == |segments|
      ensures o.Interrupted? <==> work.completed < |segments| && work.completed == old(work).completed + patience
      ensures o.Failed? ==> work.completed < |segments| && MapStep(provider, limits, work, segments).None?
      ensures asked == old(asked) + Numbers(old(work).completed, work.completed)
    {
      var index, left := 0, patience;
      ghost var w0, log: seq<nat> := work, [];
      while index < |segments|
        invariant 0 <= index <= |segments| && Accounted() && 0 <= left <= patience && asked == old(asked) + log
        invariant Along(provider, limits, w0, work, segments, left, patience, log)
        invariant if index < w0.completed then work == w0 else index == work.completed
      {
        index := index + 1;
        if index <= work.completed { continue; }
        if left == 0 { return Interrupted; }
        var ok := Advance(segments, w0, left, patience, log);
        if !ok { return Failed; }
        left, log := left - 1, log + [work.completed];
      }
      o := Finished;
    }

    method Advance(segments: seq<seq<Byte>>, ghost w0: Work, ghost left: nat, ghost patience: nat, ghost log: seq<nat>) returns (ok: bool)
      requires Accounted() && work.completed < |segments| && left > 0
      requires Along(provider, limits, w0, work, segments, left, patience, log)
      modifies this
      ensures Accounted()
      ensures ok ==> Along(provider, limits, w0, work, segments, left - 1, patience, log + [work.completed])
                     && work.completed == old(work).completed + 1 && asked == old(asked) + [work.completed]
      ensures !ok ==> work == old(work) && asked == old(asked) && work == MapSome(provider, limits, w0, segments, patience)
                      && MapStep(provider, limits, work, segments).None?
    {
      ok := MapOne(segments);
      if !ok { StuckStays(provider, limits, work, segments, left); }
    }

    /** Ask for the next segment; on success the work is the next checkpoint. */
    method MapOne(segments: seq<seq<Byte>>) returns (ok: bool)
      requires Accounted() && work.completed < |segments|
      modifies this
      ensures Accounted()
      ensures ok <==> MapStep(provider, limits, old(work), segments).Some?
      ensures ok ==> work == MapStep(provider, limits, old(work), segments).value && asked == old(asked) + [work.completed]
      ensures !ok ==> work == old(work) && asked == old(asked)
    {
      if Spent(work.usage) >= limits.maxTotal { return false; }
      var allowance := Allowance(limits, work.usage, Least(MAP_OUTPUT, limits.maxOutput));
      var prefix := segments[..work.completed + 1];
      var answer := Invoke(MapQuestion(prefix, allowance), allowance);
      if answer.None? { return false; }
      work := Mapped(work, answer.value.summary, |Concat(prefix)|);
      asked := asked + [work.completed];
      ok := true;
    }

    /**
     The reduce loop. Each round groups what is left, asks once per group and keeps
     the answers in order. A successful round leaves strictly fewer summaries, so
     the loop ends even without its cap on rounds; every call stays in the budget.
     It fails only after thirty-two rounds or where no round follows.
     */
    method ReducePhase(limit: nat) returns (o: Outcome, ghost trace: seq<Work>)
      requires Accounted() && work.summaries != []
      modifies this
      ensures Accounted() && asked == old(asked)
      ensures trace != [] && Reducing(provider, limits, trace, old(work), trace[|trace| - 1], limit)
      ensures o.Finished? <==> |trace[|trace| - 1].summaries| == 1
      ensures o.Finished? ==> work == trace[|trace| - 1]
      ensures !o.Finished? ==> work.summaries == trace[|trace| - 1].summaries && work.completed == old(work).completed
      ensures !o.Finished? ==> |trace| == 33 || NoRound(provider, limits, trace[|trace| - 1], |trace|, limit)
    {
      ghost var w0 := work;
      var rounds := 0;
      trace := [work];
      NoRoundYet(provider, limits, work, limit);
      while |work.summaries| > 1
        invariant Accounted() && asked == old(asked) && rounds == |trace| - 1
        invariant Reducing(provider, limits, trace, w0, work, limit) && rounds <= MAXIMUM_ROUNDS
        decreases |work.summaries|
      {
        rounds := rounds + 1;
        if rounds > MAXIMUM_ROUNDS { return Failed, trace; }
        ghost var w := work;
        var done := ReduceOnce(rounds, limit);
        if !done { return Failed, trace; }
        OneMoreRound(provider, limits, trace, w0, w, work, limit);
        trace := trace + [work];
      }
      o := Finished;
    }

    /** Group, ask, and keep the answers as the next summaries: strictly fewer of them, but not none. */
    method ReduceOnce(round: nat, limit: nat) returns (ok: bool)
      requires Accounted() && |work.summaries| > 1
      modifies this
      ensures Accounted() && asked == old(asked) && work.completed == old(work).completed
      ensures ok ==> SomeRound(provider, limits, old(work), work, round, limit) && 1 <= |work.summaries| < |old(work).summaries|
      ensures !ok ==> work.summaries == old(work).summaries && NoRound(provider, limits, old(work), round, limit)
    {
      var grouped, groups := GroupSummaries(work.summaries, limit);
      if !grouped { return false; }
      PartitionIsNotEmpty(groups, work.summaries, limit);
      var done, reduced := ReduceRound(groups, round);
      if !done {
        assert Unanswered(provider, limits, old(work), groups, round, limit);
        return false;
      }
      work := work.(summaries := reduced);
      assert RoundOf(provider, limits, old(work), work, groups, round, limit);
      ok := true;
    }

    method ReduceRound(groups: seq<seq<Summary>>, round: nat) returns (ok: bool, reduced: seq<Summary>)
      requires Accounted()
      modifies this
      ensures Accounted() && asked == old(asked)
      ensures Round(ok, work, reduced) == Reduced(provider, limits, old(work), groups, round, |groups|)
      ensures work.completed == old(work).completed && work.summaries == old(work).summaries
    {
      ghost var w0 := work;
      ok, reduced := true, [];
      var index := 0;
      while index < |groups|
        invariant 0 <= index <= |groups| && Accounted() && asked == old(asked) && ok
        invariant Round(true, work, reduced) == Reduced(provider, limits, w0, groups, round, index)
        invariant work.completed == w0.completed && work.summaries == w0.summaries
      {
        ok, reduced := AskGroup(groups, index, round, reduced, w0);
        if !ok {
          FailureStays(provider, limits, w0, groups, round, index + 1, |groups|);
          return;
        }
        index := index + 1;
      }
    }

    /** One reduce call: the next group's answer goes behind the others. */
    method AskGroup(groups: seq<seq<Summary>>, index: nat, round: nat, reduced: seq<Summary>, ghost w0: Work)
      returns (ok: bool, longer: seq<Summary>)
      requires Accounted() && index < |groups|
      requires Round(true, work, reduced) == Reduced(provider, limits, w0, groups, round, index)
      modifies this
      ensures Accounted() && asked == old(asked)
      ensures Round(ok, work, longer) == Reduced(provider, limits, w0, groups, round, index + 1)
      ensures work.completed == old(work).completed && work.summaries == old(work).summaries
    {
      if Spent(work.usage) >= limits.maxTotal { return false, reduced; }
      var allowance := Allowance(limits, work.usage, limits.maxOutput);
      var answer := Invoke(ReduceQuestion(groups[index], round, index + 1, |groups|, allowance), allowance);
      if answer.None? { return false, reduced; }
      return true, reduced + [answer.value.summary];
    }
  }

  lemma PartitionIsNotEmpty(groups: seq<seq<Summary>>, items: seq<Summary>, limit: nat)
    requires Partition(groups, items, limit) && items != []
    ensures groups != []
  {
  }

  /** A map checkpoint of the run from the start, the answers paid for, and every segment asked exactly once. */
  predicate OnCourse(p: Provider, l: Limits, segments: seq<seq<Byte>>, start: Work, w: Work, paid: seq<Answer>, asked: seq<nat>) {
    && MapWork(w, l, segments) && Paid(w, paid, l) && asked == Numbers(0, w.completed)
    && MapAll(p, l, w, segments) == MapAll(p, l, start, segments)
  }

  lemma FreshIsMapWork(l: Limits, segments: seq<seq<Byte>>)
    ensures MapWork(FRESH, l, segments) && Paid(FRESH, [], l)
  {
    assert segments[..0] == [];
  }

  lemma StartsOnCourse(p: Provider, l: Limits, segments: seq<seq<Byte>>, start: Work, paid: seq<Answer>, asked: seq<nat>)
    requires MapWork(start, l, segments) && Paid(start, paid, l) && asked == Numbers(0, start.completed)
    ensures OnCourse(p, l, segments, start, start, paid, asked)
  {
  }

  lemma StaysOnCourse(p: Provider, l: Limits, segments: seq<seq<Byte>>, start: Work, w: Work, paid: seq<Answer>, asked: seq<nat>,
                      patience: nat, next: Work, bill: seq<Answer>, more: seq<nat>)
    requires OnCourse(p, l, segments, start, w, paid, asked) && next == MapSome(p, l, w, segments, patience) && Paid(next, bill, l)
    requires w.completed <= next.completed && more == Numbers(w.completed, next.completed)
    ensures OnCourse(p, l, segments, start, next, bill, asked + more)
  {
    ResumingIsSeamless(p, l, w, segments, patience);
    MapSomeIsMapWork(p, l, w, segments, patience);
    NumbersJoin(0, w.completed, next.completed);
  }

  /** A new process validates the checkpoint, skips what it covers and goes on. */
  method ResumeOnce(p: Provider, l: Limits, segments: seq<seq<Byte>>, ghost start: Work, w: Work,
                    ghost paid: seq<Answer>, ghost asked: seq<nat>, patience: nat)
    returns (next: Work, ghost bill: seq<Answer>, ghost log: seq<nat>)
    requires |segments| <= MAXIMUM_SUMMARIES && OnCourse(p, l, segments, start, w, paid, asked)
    ensures OnCourse(p, l, segments, start, next, bill, log) && next == MapSome(p, l, w, segments, patience)
  {
    var checkpoint := Checkpoint(0, 0, |segments|, w);
    FewSegmentsResume(Assignment(0, 0, w.completed), checkpoint, l, segments);
    FreshIsEmpty(w, l, segments, paid);
    var resumed := InitialWork(Assignment(0, 0, w.completed), Some(checkpoint), |segments|);
    var executor := new Executor(p, l, resumed.value, paid);
    var o := executor.MapPhase(segments, patience);
    next, bill, log := executor.work, executor.answers, asked + executor.asked;
    StaysOnCourse(p, l, segments, start, w, paid, asked, patience, next, bill, executor.asked);
  }

  /** Interrupted and resumed from some first work, segment list in hand. */
  method RunFrom(p: Provider, l: Limits, segments: seq<seq<Byte>>, start: Work, stops: seq<nat>, ghost bill: seq<Answer>, ghost log: seq<nat>)
    returns (w: Work, ghost asked: seq<nat>)
    requires |segments| <= MAXIMUM_SUMMARIES && OnCourse(p, l, segments, start, start, bill, log)
    ensures w == MapAll(p, l, start, segments) && asked == Numbers(0, w.completed)
  {
    w, asked := start, log;
    ghost var paid := bill;
    for i := 0 to |stops|
      invariant OnCourse(p, l, segments, start, w, paid, asked)
    {
      w, paid, asked := ResumeOnce(p, l, segments, start, w, paid, asked, stops[i]);
    }
    w, paid, asked := ResumeOnce(p, l, segments, start, w, paid, asked, |segments|);
  }

  method RunSegments(p: Provider, l: Limits, segments: seq<seq<Byte>>, stops: seq<nat>)
    returns (w: Work, ghost asked: seq<nat>)
    requires |segments| <= MAXIMUM_SUMMARIES
    ensures w == MapAll(p, l, FRESH, segments)
    ensures asked == Numbers(0, w.completed)
  {
    FreshIsMapWork(l, segments);
    StartsOnCourse(p, l, segments, FRESH, [], []);
    w, asked := RunFrom(p, l, segments, FRESH, stops, [], []);
  }

  /**
   Any number of interruptions, each followed by a resume from the last map
   checkpoint in a new process: the work ends as in one uninterrupted run and no
   segment is asked twice, for every assignment a node accepts.
   */
  method MapWithInterruptions(p: Provider, l: Limits, content: seq<Byte>, n: nat, stops: seq<nat>)
    returns (w: Work, ghost asked: seq<nat>)
    requires n >= MINIMUM_SEGMENT_BYTES && |content| <= MAXIMUM_ARTIFACT_BYTES
    ensures w == MapAll(p, l, FRESH, Cut(content, n))
    ensures asked == Numbers(0, w.completed)
  {
    FewSegments(content, n);
    w, asked := RunSegments(p, l, Cut(content, n), stops);
  }

  /** Before the first checkpoint there is nothing to resume. */
  lemma FreshIsEmpty(w: Work, l: Limits, segments: seq<seq<Byte>>, paid: seq<Answer>)
    requires MapWork(w, l, segments) && Paid(w, paid, l)
    ensures w.completed == 0 ==> w == FRESH
  {
    if w.completed == 0 {
      assert segments[..0] == [] && w.summaries == [] && w.ids == [];
      IdsCount(paid, |paid|);
    }
  }
}
