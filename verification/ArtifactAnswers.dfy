/**
 What the provider was asked and where its answers went: segment by segment in a
 map phase, group by group in a reduce round, up to the first failure and no sooner.
 */
module ArtifactAnswers {
  import opened Totals
  import opened ArtifactSegments
  import opened SummaryGroups
  import opened ArtifactExecutor

  /** The questions of one phase, in order. */
  datatype Plan = MapPlan(segments: seq<seq<Byte>>) | ReducePlan(groups: seq<seq<Summary>>, round: nat) {
    function Length(): nat { match this case MapPlan(s) => |s| case ReducePlan(g, _) => |g| }

    /** Question i: the file up to segment i, or group i with its place in the round. */
    function Ask(i: nat, allowance: nat): Question
      requires i < Length()
    {
      match this
      case MapPlan(s) => MapQuestion(s[..i + 1], allowance)
      case ReducePlan(g, r) => ReduceQuestion(g[i], r, i + 1, |g|, allowance)
    }

    /** An output length the limits and what is left of the budget allow. */
    predicate Allows(l: Limits, spent: nat, m: nat) {
      m <= l.maxOutput && m <= l.nodeMaxOutput && spent + m <= l.maxTotal && (MapPlan? ==> m <= 512)
    }

    /** The longest output allowed, but at least one token. */
    predicate Grants(l: Limits, spent: nat, m: nat) { 1 <= m && (m == 1 || Allows(l, spent, m)) && !Allows(l, spent, m + 1) }
  }

  function InputOf(answers: seq<Answer>): nat { if answers == [] then 0 else InputOf(answers[..|answers| - 1]) + answers[|answers| - 1].usage.input }
  function OutputOf(answers: seq<Answer>): nat { if answers == [] then 0 else OutputOf(answers[..|answers| - 1]) + answers[|answers| - 1].usage.output }

  function SpentOn(spent: nat, answers: seq<Answer>): nat { spent + InputOf(answers) + OutputOf(answers) }

  function Summaries(answers: seq<Answer>): seq<Summary> { seq(|answers|, i requires 0 <= i < |answers| => answers[i].summary) }
  function Ids(answers: seq<Answer>): seq<nat> { seq(|answers|, i requires 0 <= i < |answers| => answers[i].id) }

  /** This is the provider's answer to question i; it used some input, no more output than it was granted, and stayed in the budget. */
  predicate Answered(p: Provider, l: Limits, plan: Plan, spent: nat, i: nat, a: Answer, m: nat)
    requires i < plan.Length()
  {
    && p(plan.Ask(i, m)) == Some(a)
    && 1 <= a.usage.input && a.usage.output <= m && spent + a.usage.input + a.usage.output <= l.maxTotal
  }

  /** Answer i was given to question i, under the allowance that what came before it left. */
  ghost predicate InPlace(p: Provider, l: Limits, plan: Plan, spent: nat, answers: seq<Answer>, i: nat)
    requires i < |answers| <= plan.Length()
  {
    exists m: nat :: plan.Grants(l, SpentOn(spent, answers[..i]), m) && Answered(p, l, plan, SpentOn(spent, answers[..i]), i, answers[i], m)
  }

  ghost predicate AllInPlace(p: Provider, l: Limits, plan: Plan, spent: nat, answers: seq<Answer>) {
    |answers| <= plan.Length() && forall i: nat :: i < |answers| ==> InPlace(p, l, plan, spent, answers, i)
  }

  /** Everything was answered, the budget is used up, or the next question has no answer that counts. */
  ghost predicate Stops(p: Provider, l: Limits, plan: Plan, spent: nat, answers: seq<Answer>) {
    || |answers| >= plan.Length()
    || SpentOn(spent, answers) >= l.maxTotal
    || forall m: nat, a :: plan.Grants(l, SpentOn(spent, answers), m) ==>
         !Answered(p, l, plan, SpentOn(spent, answers), |answers|, a, m)
  }

  lemma OneMoreCounts(answers: seq<Answer>, a: Answer)
    ensures InputOf(answers + [a]) == InputOf(answers) + a.usage.input && OutputOf(answers + [a]) == OutputOf(answers) + a.usage.output
    ensures Summaries(answers + [a]) == Summaries(answers) + [a.summary] && Ids(answers + [a]) == Ids(answers) + [a.id]
  {
    assert (answers + [a])[..|answers|] == answers;
  }

  lemma StaysInPlace(p: Provider, l: Limits, plan: Plan, spent: nat, answers: seq<Answer>, a: Answer, i: nat)
    requires i < |answers| < plan.Length() && InPlace(p, l, plan, spent, answers, i)
    ensures InPlace(p, l, plan, spent, answers + [a], i)
  {
    assert (answers + [a])[..i] == answers[..i];
  }

  lemma OneMoreAnswer(p: Provider, l: Limits, plan: Plan, spent: nat, answers: seq<Answer>, a: Answer, m: nat)
    requires AllInPlace(p, l, plan, spent, answers) && |answers| < plan.Length()
    requires plan.Grants(l, SpentOn(spent, answers), m) && Answered(p, l, plan, SpentOn(spent, answers), |answers|, a, m)
    ensures AllInPlace(p, l, plan, spent, answers + [a])
  {
    var longer := answers + [a];
    assert longer[..|answers|] == answers;
    forall i: nat | i < |longer| ensures InPlace(p, l, plan, spent, longer, i) {
      if i < |answers| { StaysInPlace(p, l, plan, spent, answers, a, i); }
    }
  }

  lemma AllowanceIsGranted(l: Limits, plan: Plan, used: Usage, wanted: nat)
    requires Spent(used) < l.maxTotal
    requires wanted == if plan.MapPlan? then Least(MAP_OUTPUT, l.maxOutput) else l.maxOutput
    ensures forall m: nat :: plan.Grants(l, Spent(used), m) <==> m == Allowance(l, used, wanted)
  {
  }

  // --------------------------------------------------------------- map phase

  /** The work holds exactly these answers, in the order of the segments, and what they cost. */
  ghost predicate MapHolds(p: Provider, l: Limits, segments: seq<seq<Byte>>, w: Work, answers: seq<Answer>) {
    && AllInPlace(p, l, MapPlan(segments), 0, answers)
    && w.completed == |answers| && w.summaries == Summaries(answers) && w.ids == Ids(answers)
    && w.usage == Usage(InputOf(answers), OutputOf(answers))
    && w.processed == |Concat(segments[..|answers|])|
  }

  lemma FreshHoldsNothing(p: Provider, l: Limits, segments: seq<seq<Byte>>)
    ensures MapHolds(p, l, segments, FRESH, [])
  {
    assert segments[..0] == [];
  }

  /** One map step is one answer more, or a reason to stop. */
  lemma MapStepAnswers(p: Provider, l: Limits, segments: seq<seq<Byte>>, w: Work, answers: seq<Answer>) returns (more: seq<Answer>)
    requires MapHolds(p, l, segments, w, answers) && w.completed < |segments|
    ensures MapStep(p, l, w, segments).Some? ==> MapHolds(p, l, segments, MapStep(p, l, w, segments).value, more)
    ensures MapStep(p, l, w, segments).None? ==> Stops(p, l, MapPlan(segments), 0, answers)
  {
    more := answers;
    var plan := MapPlan(segments);
    if Spent(w.usage) < l.maxTotal {
      var m := Allowance(l, w.usage, Least(MAP_OUTPUT, l.maxOutput));
      AllowanceIsGranted(l, plan, w.usage, Least(MAP_OUTPUT, l.maxOutput));
      assert plan.Ask(|answers|, m) == MapQuestion(segments[..w.completed + 1], m);
      if MapStep(p, l, w, segments).Some? {
        var a := p(plan.Ask(|answers|, m)).value;
        OneMoreAnswer(p, l, plan, 0, answers, a, m);
        OneMoreCounts(answers, a);
        more := answers + [a];
      }
    }
  }

  lemma {:induction false} MapSomeAnswers(p: Provider, l: Limits, segments: seq<seq<Byte>>, w: Work, answers: seq<Answer>, n: nat)
    returns (all: seq<Answer>)
    requires MapHolds(p, l, segments, w, answers)
    ensures MapHolds(p, l, segments, MapSome(p, l, w, segments, n), all)
    ensures |all| < w.completed + n ==> Stops(p, l, MapPlan(segments), 0, all)
    decreases n
  {
    all := answers;
    if n > 0 && w.completed < |segments| {
      var more := MapStepAnswers(p, l, segments, w, answers);
      if MapStep(p, l, w, segments).Some? { all := MapSomeAnswers(p, l, segments, MapStep(p, l, w, segments).value, more, n - 1); }
    }
  }

  /**
   The summaries of a map phase are the provider's answers to the file's prefixes,
   one a segment in the order of the segments, with their identifiers and their
   summed usage, up to the first question that cannot be asked or has no valid answer.
   */
  lemma MapPhaseAnswers(p: Provider, l: Limits, segments: seq<seq<Byte>>) returns (answers: seq<Answer>)
    ensures MapHolds(p, l, segments, MapAll(p, l, FRESH, segments), answers)
    ensures Stops(p, l, MapPlan(segments), 0, answers)
  {
    FreshHoldsNothing(p, l, segments);
    answers := MapSomeAnswers(p, l, segments, FRESH, [], |segments|);
  }

  // ------------------------------------------------------------ reduce rounds

  /** A round that began at w has these answers in the order of the groups; its work carries their cost and nothing else changed. */
  ghost predicate RoundHolds(p: Provider, l: Limits, w: Work, groups: seq<seq<Summary>>, round: nat, r: Round, answers: seq<Answer>) {
    && AllInPlace(p, l, ReducePlan(groups, round), Spent(w.usage), answers) && r.reduced == Summaries(answers)
    && r.work == w.(ids := w.ids + Ids(answers), usage := Usage(w.usage.input + InputOf(answers), w.usage.output + OutputOf(answers)))
  }

  lemma NextGroupAnswers(p: Provider, l: Limits, w: Work, groups: seq<seq<Summary>>, round: nat, r: Round, n: nat, answers: seq<Answer>)
    returns (more: seq<Answer>)
    requires n < |groups| && r == Reduced(p, l, w, groups, round, n) && r.ok && |answers| == n && RoundHolds(p, l, w, groups, round, r, answers)
    ensures var next := Reduced(p, l, w, groups, round, n + 1);
            && RoundHolds(p, l, w, groups, round, next, more) && (next.ok <==> |more| == n + 1) && |more| <= n + 1
            && (!next.ok ==> Stops(p, l, ReducePlan(groups, round), Spent(w.usage), more))
  {
    more := answers;
    var plan := ReducePlan(groups, round);
    if Spent(r.work.usage) < l.maxTotal {
      var m := Allowance(l, r.work.usage, l.maxOutput);
      AllowanceIsGranted(l, plan, r.work.usage, l.maxOutput);
      assert SpentOn(Spent(w.usage), answers) == Spent(r.work.usage);
      assert plan.Ask(n, m) == ReduceQuestion(groups[n], round, n + 1, |groups|, m);
      if Reduced(p, l, w, groups, round, n + 1).ok {
        var a := p(plan.Ask(n, m)).value;
        OneMoreAnswer(p, l, plan, Spent(w.usage), answers, a, m);
        OneMoreCounts(answers, a);
        more := answers + [a];
        assert w.ids + Ids(answers) + [a.id] == w.ids + Ids(more);
      }
    }
  }

  /** The new summaries of a round are the answers to its groups in order; it succeeds exactly when every group was answered. */
  lemma {:induction false} RoundAnswers(p: Provider, l: Limits, w: Work, groups: seq<seq<Summary>>, round: nat, n: nat)
    returns (answers: seq<Answer>)
    requires n <= |groups|
    ensures var r := Reduced(p, l, w, groups, round, n);
            && RoundHolds(p, l, w, groups, round, r, answers) && (r.ok <==> |answers| == n) && |answers| <= n
            && (!r.ok ==> Stops(p, l, ReducePlan(groups, round), Spent(w.usage), answers))
  {
    if n == 0 {
      answers := [];
      assert w.ids + Ids([]) == w.ids;
    } else {
      var before := RoundAnswers(p, l, w, groups, round, n - 1);
      var r := Reduced(p, l, w, groups, round, n - 1);
      if r.ok { answers := NextGroupAnswers(p, l, w, groups, round, r, n - 1, before); } else { answers := before; }
    }
  }
}
