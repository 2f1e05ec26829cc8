/** The rows of an evaluation: how a run is scored, how rows are summed up, and what a checker can recompute. */
module Evaluation {
  import opened Options
  import opened Sorting
  import opened Agent

  datatype Metrics = Metrics(
    arm: Arm, caseId: string, status: Status, correctness: bool, success: bool,
    missing: seq<string>, extra: seq<string>, graphCorrect: bool, seedMistakes: nat, omittedContext: nat,
    staleErrors: nat, missingErrors: nat, revisionErrors: nat, claimErrors: nat,
    visibleCalls: nat, factLoss: nat, trace: seq<Entry>, result: Option<Answer>,
    metadata: Metadata, observed: Option<seq<string>>)

  datatype Row = Row(metrics: Metrics, attempt: nat, run: nat, included: bool, reason: Option<Status>)

  function Flag(b: bool): nat { if b then 1 else 0 }

  // ---------------------------------------------------------------- scoring one run

  function ExpectedGraph(c: Case): string {
    if c.id == "revision-mismatch" then "revision_changed" else c.graphState
  }

  /** The first three distinct entities a ready code graph offers. */
  function Seeds(c: Case): (seeds: seq<string>)
    ensures |seeds| <= 3
  {
    if !c.ready then []
    else
      var entities := Dedup(Filter(c.entities, (e: string) => e != ""));
      entities[..Least(3, |entities|)]
  }

  /** The elements of `xs` that do not stand at the same place in `ys`. */
  function Mismatched(xs: seq<string>, ys: seq<string>): seq<string> {
    if xs == [] then []
    else
      var n := |xs| - 1;
      Mismatched(xs[..n], ys) + if n < |ys| && ys[n] == xs[n] then [] else [xs[n]]
  }

  predicate Called(trace: seq<Entry>, name: string) { exists e :: e in trace && e.name == name }

  function ContextTool(arm: Arm): string { if arm.Baseline? then "wiki_code_context" else "wiki_unified_search" }

  function RunMetrics(c: Case, arm: Arm, model: string, run: Run, observed: Option<seq<string>>): Metrics {
    var facts := if run.answer.Some? then run.answer.value.facts else [];
    var missing, extra := Mismatched(c.facts, facts), Mismatched(facts, c.facts);
    var graphCorrect := run.answer.Some? && run.answer.value.graphState == ExpectedGraph(c);
    var success := run.status.Ok? && missing == [] && extra == [] && graphCorrect;
    var stale := Flag(!graphCorrect && ExpectedGraph(c) == "stale");
    var gone := Flag(!graphCorrect && ExpectedGraph(c) == "missing");
    var moved := Flag(!graphCorrect && c.id == "revision-mismatch");
    Metrics(arm, c.id, run.status, success, success, missing, extra, graphCorrect,
            Flag(Seeds(c) != [] && observed != Some(Seeds(c))),
            Flag(Seeds(c) != [] && !Called(run.trace, ContextTool(arm))),
            stale, gone, moved, stale + gone + moved,
            |run.trace|, |missing|, run.trace, run.answer, MetadataOf(c, arm, model), observed)
  }

  /** The row of a run that could not be carried out. */
  function FailedRunnerMetrics(c: Case, arm: Arm, model: string): Metrics {
    var stale := Flag(ExpectedGraph(c) == "stale");
    var gone := Flag(ExpectedGraph(c) == "missing");
    var moved := Flag(c.id == "revision-mismatch");
    Metrics(arm, c.id, FailedRunner, false, false, c.facts, [], false,
            Flag(Seeds(c) != []), Flag(Seeds(c) != []),
            stale, gone, moved, stale + gone + moved,
            0, |c.facts|, [], None, MetadataOf(c, arm, model), None)
  }

  /** `_row_integrity`: everything derived in a row is derived again from its result and its trace. */
  predicate RowIntegrity(m: Metrics, c: Case) {
    && (m.result.Some? <==> m.status.Ok?)
    && var facts := if m.result.Some? then m.result.value.facts else [];
       var graphCorrect := m.result.Some? && m.result.value.graphState == ExpectedGraph(c);
       var missing, extra := Mismatched(c.facts, facts), Mismatched(facts, c.facts);
       var success := m.status.Ok? && missing == [] && extra == [] && graphCorrect;
       && (forall e :: e in m.trace ==> e.name != "" && e.callId != "" && e.name in ToolNames(m.arm))
       && m.metadata.toolNames == ToolNames(m.arm)
       && m.missing == missing && m.extra == extra && m.graphCorrect == graphCorrect
       && m.success == success && m.correctness == success
       && m.omittedContext == Flag(Seeds(c) != [] && !Called(m.trace, ContextTool(m.arm)))
       && m.staleErrors == Flag(!graphCorrect && ExpectedGraph(c) == "stale")
       && m.missingErrors == Flag(!graphCorrect && ExpectedGraph(c) == "missing")
       && m.revisionErrors == Flag(!graphCorrect && c.id == "revision-mismatch")
       && m.claimErrors == m.staleErrors + m.missingErrors + m.revisionErrors
       && m.factLoss == |missing|
       && (m.observed.Some? ==> |m.observed.value| <= 3)
       && m.seedMistakes == Flag(Seeds(c) != [] && m.observed != Some(Seeds(c)))
       && m.visibleCalls == |m.trace| <= if m.arm.Baseline? then 12 else 4
  }

  /** A row scored from a run passes, whatever the run did. */
  lemma RunRowPasses(c: Case, arm: Arm, model: string, run: Run, observed: Option<seq<string>>)
    requires WellRun(run, arm) && (observed.Some? ==> |observed.value| <= 3)
    ensures RowIntegrity(RunMetrics(c, arm, model, run, observed), c)
  {
    forall e | e in run.trace ensures e.name != "" {
      assert forall n :: n in ToolNames(arm) ==> n != "";
    }
  }

  lemma FailedRowPasses(c: Case, arm: Arm, model: string)
    ensures RowIntegrity(FailedRunnerMetrics(c, arm, model), c)
  {
    AllMissing(c.facts);
  }

  lemma {:induction false} AllMissing(xs: seq<string>)
    ensures Mismatched(xs, []) == xs
  {
    if xs != [] {
      AllMissing(xs[..|xs| - 1]);
    }
  }

  /** A run succeeds exactly when it answers with the expected facts in order and the expected graph state. */
  lemma SuccessIsExact(c: Case, arm: Arm, model: string, run: Run, observed: Option<seq<string>>)
    requires WellRun(run, arm)
    ensures RunMetrics(c, arm, model, run, observed).success <==> run.answer == Some(Answer(c.facts, ExpectedGraph(c)))
  {
    if run.answer.Some? {
      var facts := run.answer.value.facts;
      NothingMismatched(c.facts, facts);
      NothingMismatched(facts, c.facts);
      assert Mismatched(c.facts, facts) == [] && Mismatched(facts, c.facts) == [] <==> facts == c.facts;
      assert run.answer.value == Answer(facts, run.answer.value.graphState);
    }
  }

  lemma {:induction false} NothingMismatched(xs: seq<string>, ys: seq<string>)
    ensures Mismatched(xs, ys) == [] <==> |xs| <= |ys| && forall i :: 0 <= i < |xs| ==> xs[i] == ys[i]
  {
    if xs != [] {
      var n := |xs| - 1;
      NothingMismatched(xs[..n], ys);
      assert forall i :: 0 <= i < n ==> xs[..n][i] == xs[i];
      assert Mismatched(xs, ys) == Mismatched(xs[..n], ys) + if n < |ys| && ys[n] == xs[n] then [] else [xs[n]];
    }
  }

  // ---------------------------------------------------------------- what a row says

  function NonEmpty(): string -> bool { (e: string) => e != "" }

  lemma {:induction false} DedupInOrder(xs: seq<string>)
    ensures forall k, l, i :: 0 <= k < l < |Dedup(xs)| && 0 <= i < |xs| && xs[i] == Dedup(xs)[l] ==> Dedup(xs)[k] in xs[..i]
  {
    if xs != [] {
      var n := |xs| - 1;
      DedupInOrder(xs[..n]);
      DedupMembers(xs[..n]);
      var before, all := Dedup(xs[..n]), Dedup(xs);
      DedupMembers(xs);
      forall k, l, i | 0 <= k < l < |all| && 0 <= i < |xs| && xs[i] == all[l] ensures all[k] in xs[..i] {
        if i == n {
          if l == |before| {
            assert all[k] in before;
          } else {
            assert before[l] in before && before[l] in xs[..n];
            var j :| 0 <= j < n && xs[..n][j] == before[l];
            assert all[k] in xs[..n][..j] && xs[..n][..j] <= xs[..n];
          }
        } else {
          assert xs[i] in xs[..n] && xs[..n][i] == xs[i] && xs[..n][..i] == xs[..i];
        }
      }
    }
  }

  lemma FilteredPlace(xs: seq<string>, i: nat)
    requires i < |xs| && xs[i] != ""
    ensures var kept := Filter(xs, NonEmpty());
            var at := |Filter(xs[..i], NonEmpty())|;
            at < |kept| && kept[at] == xs[i] && kept[..at] == Filter(xs[..i], NonEmpty())
  {
    assert xs == xs[..i] + xs[i..] && xs[i..] == [xs[i]] + xs[i + 1..];
    FilterAppend(xs[..i], xs[i..], NonEmpty());
    FilterAppend([xs[i]], xs[i + 1..], NonEmpty());
  }

  /** The different entities, in the order in which they come. */
  function Different(entities: seq<string>): seq<string> { Dedup(Filter(entities, NonEmpty())) }

  predicate SeenBefore(entities: seq<string>, i: nat, e: string)
    requires i <= |entities|
  {
    e in entities[..i]
  }

  lemma DifferentInOrder(entities: seq<string>, i: nat, k: nat, l: nat)
    requires k < l < |Different(entities)| && i < |entities| && entities[i] == Different(entities)[l]
    ensures SeenBefore(entities, i, Different(entities)[k])
  {
    hide Filter, Dedup;
    var kept := Filter(entities, NonEmpty());
    DedupMembers(kept);
    FilterMembers(entities, NonEmpty());
    DedupInOrder(kept);
    assert Different(entities)[l] in kept;
    FilteredPlace(entities, i);
    FilterMembers(entities[..i], NonEmpty());
  }

  lemma DifferentMembers(entities: seq<string>)
    ensures Distinct(Different(entities)) && forall e :: e in Different(entities) <==> e in entities && e != ""
  {
    hide Filter, Dedup;
    FilterMembers(entities, NonEmpty());
    DedupMembers(Filter(entities, NonEmpty()));
  }

  lemma SeedsAreFirst(c: Case)
    requires c.ready
    ensures Seeds(c) == Different(c.entities)[..Least(3, |Different(c.entities)|)]
  {
    FilterSame(c.entities, NonEmpty(), (e: string) => e != "");
  }

  /** `seeds` are the first three different ones of `entities`, in the order in which they come. */
  ghost predicate FirstThree(seeds: seq<string>, entities: seq<string>) {
    && Distinct(seeds) && |seeds| <= 3 && (forall s :: s in seeds ==> s != "" && s in entities)
    && (forall i, k, l :: 0 <= k < l < |seeds| && 0 <= i < |entities| && entities[i] == seeds[l] ==> SeenBefore(entities, i, seeds[k]))
    && (forall i, k :: 0 <= k < |seeds| && 0 <= i < |entities| && entities[i] != "" && entities[i] !in seeds ==> SeenBefore(entities, i, seeds[k]))
    && (|seeds| < 3 ==> forall e :: e in entities && e != "" ==> e in seeds)
  }

  lemma FirstOfAll(all: seq<string>, seeds: seq<string>, entities: seq<string>)
    requires seeds == all[..Least(3, |all|)] && Distinct(all) && forall e :: e in all <==> e in entities && e != ""
    requires forall i, k, l :: 0 <= k < l < |all| && 0 <= i < |entities| && entities[i] == all[l] ==> SeenBefore(entities, i, all[k])
    ensures FirstThree(seeds, entities)
  {
    hide SeenBefore;
    forall s | s in seeds ensures s in all {
      var k :| 0 <= k < |seeds| && seeds[k] == s;
      assert all[k] == s;
    }
    forall i, k | 0 <= k < |seeds| && 0 <= i < |entities| && entities[i] != "" && entities[i] !in seeds ensures SeenBefore(entities, i, seeds[k]) {
      assert entities[i] in all;
      var l :| 0 <= l < |all| && all[l] == entities[i];
      assert forall x :: 0 <= x < |seeds| ==> seeds[x] in seeds;
      assert seeds[k] == all[k];
    }
    if |seeds| < 3 {
      assert seeds == all;
    }
  }

  /** The seeds are the first three different entities of a ready graph, and none of any other. */
  lemma SeedsMeaning(c: Case)
    ensures if c.ready then FirstThree(Seeds(c), c.entities) else Seeds(c) == []
  {
    if c.ready {
      hide Different, Seeds, SeenBefore, FirstThree;
      var all := Different(c.entities);
      SeedsAreFirst(c);
      DifferentMembers(c.entities);
      forall i, k, l | 0 <= k < l < |all| && 0 <= i < |c.entities| && c.entities[i] == all[l] ensures SeenBefore(c.entities, i, all[k]) {
        DifferentInOrder(c.entities, i, k, l);
      }
      FirstOfAll(all, Seeds(c), c.entities);
    }
  }

  /** How many of the expected facts do not stand in their place. */
  ghost function Misplaced(expected: seq<string>, given: seq<string>): nat {
    |set i | 0 <= i < |expected| && !(i < |given| && given[i] == expected[i])|
  }

  lemma {:induction false} MismatchedMeaning(xs: seq<string>, ys: seq<string>)
    ensures |Mismatched(xs, ys)| == Misplaced(xs, ys)
    ensures forall x :: x in Mismatched(xs, ys) <==> exists i :: 0 <= i < |xs| && xs[i] == x && !(i < |ys| && ys[i] == x)
  {
    if xs != [] {
      var n := |xs| - 1;
      MismatchedMeaning(xs[..n], ys);
      OneMoreMisplaced(xs, ys);
      forall x ensures x in Mismatched(xs, ys) <==> exists i :: 0 <= i < |xs| && xs[i] == x && !(i < |ys| && ys[i] == x) {
        if i :| 0 <= i < |xs[..n]| && xs[..n][i] == x && !(i < |ys| && ys[i] == x) {
          assert xs[i] == x;
        }
        if i :| 0 <= i < |xs| && xs[i] == x && !(i < |ys| && ys[i] == x) {
          assert i < n ==> xs[..n][i] == x;
        }
      }
    }
  }

  lemma OneMoreMisplaced(xs: seq<string>, ys: seq<string>)
    requires xs != []
    ensures var n := |xs| - 1; Misplaced(xs, ys) == Misplaced(xs[..n], ys) + if n < |ys| && ys[n] == xs[n] then 0 else 1
  {
    var n := |xs| - 1;
    var before := set i | 0 <= i < |xs[..n]| && !(i < |ys| && ys[i] == xs[..n][i]);
    var all := set i | 0 <= i < |xs| && !(i < |ys| && ys[i] == xs[i]);
    assert all == if n < |ys| && ys[n] == xs[n] then before else before + {n};
  }

  /** Whether the run called the tool that gives context: its own tool for each arm. */
  predicate AskedForContext(trace: seq<Entry>, arm: Arm) {
    match arm
    case Baseline => exists i :: 0 <= i < |trace| && trace[i].name == "wiki_code_context"
    case Candidate => exists i :: 0 <= i < |trace| && trace[i].name == "wiki_unified_search"
  }

  /** Both arms of a case share prompt, environment and messages; schema and tools are each arm's own, and one of them gives context. */
  lemma ArmsShare(c: Case, arm: Arm, model: string)
    ensures var m := MetadataOf(c, arm, model);
            && m.prompt == Prompt(c.prompt) && m.environment == Environment(c, model) && m.messages == [c.prompt]
            && m.schema == Schema(arm) && m.toolNames == ToolNames(arm)
    ensures ContextTool(arm) in ToolNames(arm)
    ensures forall tool :: tool in ToolNames(Candidate) <==> tool == "wiki_unified_search"
    ensures forall tool :: tool in ToolNames(Baseline) <==> tool == "wiki_search" || tool == "wiki_code_search" || tool == "wiki_code_context"
  {
  }

  /** What the errors and mistakes of a scored run count. */
  lemma RunMetricsMeaning(c: Case, arm: Arm, model: string, run: Run, observed: Option<seq<string>>)
    ensures var m := RunMetrics(c, arm, model, run, observed);
            var facts := if run.answer.Some? then run.answer.value.facts else [];
            var moved := c.id == "revision-mismatch";
            var expected := if moved then "revision_changed" else c.graphState;
            var wrong := run.answer.None? || run.answer.value.graphState != expected;
            && m.arm == arm && m.caseId == c.id && m.status == run.status && m.trace == run.trace && m.result == run.answer
            && m.graphCorrect == !wrong && m.correctness == m.success
            && (m.success <==> run.status.Ok? && facts == c.facts && !wrong)
            && m.factLoss == |m.missing| == Misplaced(c.facts, facts) && |m.extra| == Misplaced(facts, c.facts)
            && (m.seedMistakes == 1 <==> Seeds(c) != [] && observed != Some(Seeds(c))) && m.seedMistakes <= 1
            && (m.omittedContext == 1 <==> Seeds(c) != [] && !AskedForContext(run.trace, arm)) && m.omittedContext <= 1
            && (m.revisionErrors == 1 <==> moved && wrong) && m.revisionErrors <= 1
            && (m.staleErrors == 1 <==> expected == "stale" && wrong) && m.staleErrors <= 1
            && (m.missingErrors == 1 <==> expected == "missing" && wrong) && m.missingErrors <= 1
            && m.claimErrors == (if wrong && (moved || expected == "stale" || expected == "missing") then 1 else 0)
            && m.visibleCalls == |run.trace| && m.observed == observed
  {
    hide Seeds, Mismatched, Misplaced;
    var facts := if run.answer.Some? then run.answer.value.facts else [];
    MismatchedMeaning(c.facts, facts);
    MismatchedMeaning(facts, c.facts);
    NothingMismatched(c.facts, facts);
    NothingMismatched(facts, c.facts);
    assert Mismatched(c.facts, facts) == [] && Mismatched(facts, c.facts) == [] <==> facts == c.facts;
    forall name ensures Called(run.trace, name) <==> exists i :: 0 <= i < |run.trace| && run.trace[i].name == name {
      if i :| 0 <= i < |run.trace| && run.trace[i].name == name {
        assert run.trace[i] in run.trace;
      }
    }
    assert "revision_changed"[0] == 'r' && "stale"[0] == 's' && "missing"[0] == 'm';
  }

  /** What a run may report of itself. */
  ghost predicate Plausible(m: Metrics) {
    && (m.result.Some? <==> m.status.Ok?)
    && (forall e :: e in m.trace ==> e.name in ToolNames(m.arm) && e.callId != "")
    && |m.trace| <= Limit(m.arm)
    && (m.observed.Some? ==> |m.observed.value| <= 3)
  }

  /**
   A row passes the row check if and only if it is what scoring makes of its own status,
   answer, trace and observed seeds, and these are plausible.
   */
  lemma PassingRowsAreScored(m: Metrics, c: Case, model: string)
    requires m.caseId == c.id && m.metadata == MetadataOf(c, m.arm, model)
    ensures RowIntegrity(m, c) <==>
            Plausible(m) && m == RunMetrics(c, m.arm, model, Run(m.trace, m.result, m.status, 1), m.observed)
  {
    hide Seeds, Mismatched, ContextTool, ExpectedGraph;
    assert forall n :: n in ToolNames(m.arm) ==> n != "";
  }

  // ---------------------------------------------------------------- sums over rows

  function Sum(rows: seq<Row>, f: Row -> nat): nat {
    if rows == [] then 0 else Sum(rows[..|rows| - 1], f) + f(rows[|rows| - 1])
  }

  lemma {:induction false} SumAppend(a: seq<Row>, b: seq<Row>, f: Row -> nat)
    ensures Sum(a + b, f) == Sum(a, f) + Sum(b, f)
  {
    if b == [] {
      assert a + b == a;
    } else {
      assert (a + b)[..|a + b| - 1] == a + b[..|b| - 1];
      SumAppend(a, b[..|b| - 1], f);
    }
  }

  /** A sum depends only on which rows there are. */
  lemma {:induction false} SumForgetsOrder(a: seq<Row>, b: seq<Row>, f: Row -> nat)
    requires multiset(a) == multiset(b)
    ensures Sum(a, f) == Sum(b, f)
  {
    if a == [] {
      SameElements(a, b);
    } else {
      var n := |a| - 1;
      assert a == a[..n] + [a[n]];
      assert a[n] in multiset(b);
      var i :| 0 <= i < |b| && b[i] == a[n];
      TakenOut(a, n);
      TakenOut(b, i);
      assert a[..n] + a[n + 1..] == a[..n];
      SumForgetsOrder(a[..n], b[..i] + b[i + 1..], f);
      SumAppend(b[..i], b[i + 1..], f);
      SumAppend(b[..i] + [b[i]], b[i + 1..], f);
      SumAppend(b[..i], [b[i]], f);
    }
  }

  /** Rows of one arm, of any case or only of some. */
  predicate Selected(r: Row, arm: Arm, ids: Option<set<string>>) {
    r.metrics.arm == arm && (ids.Some? ==> r.metrics.caseId in ids.value)
  }

  function Counting(arm: Arm, ids: Option<set<string>>): Row -> nat { (r: Row) => Flag(Selected(r, arm, ids)) }

  function Succeeding(arm: Arm, ids: Option<set<string>>): Row -> nat {
    (r: Row) => Flag(Selected(r, arm, ids) && r.metrics.success)
  }

  function Calling(arm: Arm, ids: Option<set<string>>): Row -> nat {
    (r: Row) => if Selected(r, arm, ids) then r.metrics.visibleCalls else 0
  }

  function Failing(arm: Arm, status: Status): Row -> nat { (r: Row) => Flag(r.metrics.arm == arm && r.metrics.status == status) }

  function Ratio(total: int, count: nat): real { if count == 0 then 0.0 else total as real / count as real }

  datatype ArmStats = ArmStats(total: nat, correct: nat, meanCalls: real, rate: real)

  function StatsOf(rows: seq<Row>, arm: Arm, ids: Option<set<string>>): ArmStats {
    var total := Sum(rows, Counting(arm, ids));
    var correct := Sum(rows, Succeeding(arm, ids));
    ArmStats(total, correct, Ratio(Sum(rows, Calling(arm, ids)), total), Ratio(correct, total))
  }

  lemma StatsForgetOrder(a: seq<Row>, b: seq<Row>, arm: Arm, ids: Option<set<string>>)
    requires multiset(a) == multiset(b)
    ensures StatsOf(a, arm, ids) == StatsOf(b, arm, ids)
  {
    SumForgetsOrder(a, b, Counting(arm, ids));
    SumForgetsOrder(a, b, Succeeding(arm, ids));
    SumForgetsOrder(a, b, Calling(arm, ids));
  }

  datatype CaseStats = CaseStats(candidate: ArmStats, baseline: ArmStats, coordinated: bool)

  datatype Aggregates = Aggregates(
    candidate: ArmStats, baseline: ArmStats, expected: nat, candidateRatio: real, baselineRatio: real,
    coordinatedCandidate: ArmStats, coordinatedBaseline: ArmStats, perCase: map<string, CaseStats>)

  function Ids(cases: seq<Case>): set<string> { set c | c in cases :: c.id }

  function Coordinated(cases: seq<Case>): set<string> { set c | c in cases && c.coordinated :: c.id }

  function CaseStatsOf(rows: seq<Row>, id: string, coordinated: bool): CaseStats {
    CaseStats(StatsOf(rows, Candidate, Some({id})), StatsOf(rows, Baseline, Some({id})), coordinated)
  }

  /** `_aggregate`. */
  function Aggregate(rows: seq<Row>, cases: seq<Case>, runs: nat): Aggregates {
    var candidate, baseline := StatsOf(rows, Candidate, None), StatsOf(rows, Baseline, None);
    var expected := |cases| * runs;
    Aggregates(candidate, baseline, expected, Ratio(candidate.correct, expected), Ratio(baseline.correct, expected),
               StatsOf(rows, Candidate, Some(Coordinated(cases))), StatsOf(rows, Baseline, Some(Coordinated(cases))),
               map id | id in Ids(cases) :: CaseStatsOf(rows, id, id in Coordinated(cases)))
  }

  /** The aggregates depend neither on the order of the rows nor on the order of the cases. */
  lemma AggregateForgetsOrder(a: seq<Row>, b: seq<Row>, cases: seq<Case>, others: seq<Case>, runs: nat)
    requires multiset(a) == multiset(b) && multiset(cases) == multiset(others)
    ensures Aggregate(a, cases, runs) == Aggregate(b, others, runs)
  {
    SameElements(cases, others);
    assert Ids(cases) == Ids(others) && Coordinated(cases) == Coordinated(others);
    StatsForgetOrder(a, b, Candidate, None);
    StatsForgetOrder(a, b, Baseline, None);
    StatsForgetOrder(a, b, Candidate, Some(Coordinated(cases)));
    StatsForgetOrder(a, b, Baseline, Some(Coordinated(cases)));
    forall id | id in Ids(cases)
      ensures CaseStatsOf(a, id, id in Coordinated(cases)) == CaseStatsOf(b, id, id in Coordinated(cases))
    {
      StatsForgetOrder(a, b, Candidate, Some({id}));
      StatsForgetOrder(a, b, Baseline, Some({id}));
    }
    assert Aggregate(a, cases, runs).perCase == Aggregate(b, others, runs).perCase;
  }

  type Failures = map<Arm, map<Status, nat>>

  function FailuresOf(rows: seq<Row>, arm: Arm): map<Status, nat> {
    map s | s in Statuses(rows, arm) :: Sum(rows, Failing(arm, s))
  }

  function Statuses(rows: seq<Row>, arm: Arm): set<Status> {
    set r | r in rows && r.metrics.arm == arm && !r.metrics.status.Ok? :: r.metrics.status
  }

  /** `_failure_counts`. */
  function FailureCounts(rows: seq<Row>): Failures {
    map[Baseline := FailuresOf(rows, Baseline), Candidate := FailuresOf(rows, Candidate)]
  }

  lemma FailuresForgetOrder(a: seq<Row>, b: seq<Row>)
    requires multiset(a) == multiset(b)
    ensures FailureCounts(a) == FailureCounts(b)
  {
    SameElements(a, b);
    forall arm ensures FailuresOf(a, arm) == FailuresOf(b, arm) {
      assert Statuses(a, arm) == Statuses(b, arm);
      forall s | s in Statuses(a, arm) ensures Sum(a, Failing(arm, s)) == Sum(b, Failing(arm, s)) {
        SumForgetsOrder(a, b, Failing(arm, s));
      }
    }
  }

  // ---------------------------------------------------------------- what the sums count

  /** How many of the rows are such. */
  ghost function HowMany(rows: seq<Row>, such: Row -> bool): nat { |set i | 0 <= i < |rows| && such(rows[i])| }

  /** The tool calls of the rows that are such. */
  function CallsAmong(rows: seq<Row>, such: Row -> bool): nat {
    if rows == [] then 0 else (if such(rows[0]) then rows[0].metrics.visibleCalls else 0) + CallsAmong(rows[1..], such)
  }

  lemma {:induction false} SumCounts(rows: seq<Row>, f: Row -> nat, such: Row -> bool)
    requires forall r :: f(r) == if such(r) then 1 else 0
    ensures Sum(rows, f) == HowMany(rows, such)
  {
    if rows != [] {
      var n := |rows| - 1;
      SumCounts(rows[..n], f, such);
      OneMoreSuch(rows, such);
    }
  }

  lemma OneMoreSuch(rows: seq<Row>, such: Row -> bool)
    requires rows != []
    ensures var n := |rows| - 1; HowMany(rows, such) == HowMany(rows[..n], such) + if such(rows[n]) then 1 else 0
  {
    var n := |rows| - 1;
    var before := set i | 0 <= i < |rows[..n]| && such(rows[..n][i]);
    var all := set i | 0 <= i < |rows| && such(rows[i]);
    assert all == if such(rows[n]) then before + {n} else before;
  }

  lemma {:induction false} SumOfCalls(rows: seq<Row>, f: Row -> nat, such: Row -> bool)
    requires forall r :: f(r) == if such(r) then r.metrics.visibleCalls else 0
    ensures Sum(rows, f) == CallsAmong(rows, such)
  {
    if rows != [] {
      SumOfCalls(rows[1..], f, such);
      SumAppend([rows[0]], rows[1..], f);
      assert rows == [rows[0]] + rows[1..];
      assert [rows[0]][..0] == [];
    }
  }

  lemma RatioTimes(total: int, count: nat)
    ensures count > 0 ==> Ratio(total, count) * count as real == total as real
    ensures count == 0 ==> Ratio(total, count) == 0.0
  {
  }

  /** The numbers of one arm count its rows, its successes and its calls. */
  lemma StatsMeaning(rows: seq<Row>, arm: Arm, ids: Option<set<string>>, such: Row -> bool, right: Row -> bool)
    requires forall r :: such(r) <==> r.metrics.arm == arm && (ids == None || r.metrics.caseId in ids.value)
    requires forall r :: right(r) <==> such(r) && r.metrics.success
    ensures var stats := StatsOf(rows, arm, ids);
            && stats.total == HowMany(rows, such) && stats.correct == HowMany(rows, right)
            && stats.rate * stats.total as real == stats.correct as real
            && stats.meanCalls * stats.total as real == CallsAmong(rows, such) as real
  {
    hide Sum, HowMany, CallsAmong, Ratio;
    SumCounts(rows, Counting(arm, ids), such);
    SumCounts(rows, Succeeding(arm, ids), right);
    SumOfCalls(rows, Calling(arm, ids), such);
    var stats := StatsOf(rows, arm, ids);
    RatioTimes(stats.correct, stats.total);
    RatioTimes(CallsAmong(rows, such), stats.total);
    if stats.total == 0 {
      NoneSuch(rows, such, right);
    }
  }

  lemma SomeSuch(rows: seq<Row>, such: Row -> bool)
    ensures HowMany(rows, such) > 0 <==> exists r :: r in rows && such(r)
  {
    var hits := set i | 0 <= i < |rows| && such(rows[i]);
    if r :| r in rows && such(r) {
      var i :| 0 <= i < |rows| && rows[i] == r;
      assert i in hits;
    }
    if hits != {} {
      var i :| i in hits;
      assert rows[i] in rows;
    }
  }

  lemma NoneSuch(rows: seq<Row>, such: Row -> bool, right: Row -> bool)
    requires HowMany(rows, such) == 0 && forall r :: right(r) ==> such(r)
    ensures HowMany(rows, right) == 0 && CallsAmong(rows, such) == 0
  {
    SomeSuch(rows, such);
    SomeSuch(rows, right);
    NoCalls(rows, such);
  }

  lemma {:induction false} NoCalls(rows: seq<Row>, such: Row -> bool)
    requires forall i :: 0 <= i < |rows| ==> !such(rows[i])
    ensures CallsAmong(rows, such) == 0
  {
    if rows != [] {
      NoCalls(rows[1..], such);
    }
  }

  /** The rows of one arm, of all cases or of some. */
  function OfArm(arm: Arm, ids: Option<set<string>>): Row -> bool {
    (r: Row) => r.metrics.arm == arm && (ids == None || r.metrics.caseId in ids.value)
  }

  function Right(arm: Arm, ids: Option<set<string>>): Row -> bool {
    (r: Row) => OfArm(arm, ids)(r) && r.metrics.success
  }

  /** These numbers are those of these rows. */
  ghost predicate Counts(stats: ArmStats, rows: seq<Row>, arm: Arm, ids: Option<set<string>>) {
    && stats.total == HowMany(rows, OfArm(arm, ids)) && stats.correct == HowMany(rows, Right(arm, ids))
    && stats.rate * stats.total as real == stats.correct as real
    && stats.meanCalls * stats.total as real == CallsAmong(rows, OfArm(arm, ids)) as real
  }

  lemma StatsCount(rows: seq<Row>, arm: Arm, ids: Option<set<string>>)
    ensures Counts(StatsOf(rows, arm, ids), rows, arm, ids)
  {
    StatsMeaning(rows, arm, ids, OfArm(arm, ids), Right(arm, ids));
  }

  /** The aggregates: each number counts rows of its own arm, over all cases, the coordinated ones, or one. */
  lemma AggregateMeaning(rows: seq<Row>, cases: seq<Case>, runs: nat)
    requires forall a, b :: a in cases && b in cases && a.id == b.id ==> a == b
    ensures var e := Aggregate(rows, cases, runs);
            && Counts(e.candidate, rows, Candidate, None) && Counts(e.baseline, rows, Baseline, None)
            && e.expected == |cases| * runs
            && e.candidateRatio * e.expected as real == (if e.expected == 0 then 0 else e.candidate.correct) as real
            && e.baselineRatio * e.expected as real == (if e.expected == 0 then 0 else e.baseline.correct) as real
            && (exists ids: set<string> ::
                  && (forall id :: id in ids <==> exists c :: c in cases && c.id == id && c.coordinated)
                  && Counts(e.coordinatedCandidate, rows, Candidate, Some(ids))
                  && Counts(e.coordinatedBaseline, rows, Baseline, Some(ids)))
            && (forall id :: id in e.perCase <==> exists c :: c in cases && c.id == id)
            && (forall c :: c in cases ==>
                  && Counts(e.perCase[c.id].candidate, rows, Candidate, Some({c.id}))
                  && Counts(e.perCase[c.id].baseline, rows, Baseline, Some({c.id}))
                  && e.perCase[c.id].coordinated == c.coordinated)
  {
    hide Counts, StatsOf;
    var e := Aggregate(rows, cases, runs);
    StatsCount(rows, Candidate, None);
    StatsCount(rows, Baseline, None);
    RatioTimes(e.candidate.correct, e.expected);
    RatioTimes(e.baseline.correct, e.expected);
    var ids := Coordinated(cases);
    StatsCount(rows, Candidate, Some(ids));
    StatsCount(rows, Baseline, Some(ids));
    assert forall id :: id in ids <==> exists c :: c in cases && c.id == id && c.coordinated;
    forall c | c in cases
      ensures Counts(e.perCase[c.id].candidate, rows, Candidate, Some({c.id}))
      ensures Counts(e.perCase[c.id].baseline, rows, Baseline, Some({c.id}))
      ensures e.perCase[c.id].coordinated == c.coordinated
    {
      StatsCount(rows, Candidate, Some({c.id}));
      StatsCount(rows, Baseline, Some({c.id}));
    }
  }

  function WithStatus(arm: Arm, status: Status): Row -> bool {
    (r: Row) => r.metrics.arm == arm && r.metrics.status == status
  }

  /** The failures of an arm: how often each status other than `ok` occurs, and no status that does not. */
  lemma FailuresMeaning(rows: seq<Row>, arm: Arm, status: Status)
    ensures arm in FailureCounts(rows)
    ensures status in FailureCounts(rows)[arm] <==> status != Ok && HowMany(rows, WithStatus(arm, status)) > 0
    ensures status in FailureCounts(rows)[arm] ==> FailureCounts(rows)[arm][status] == HowMany(rows, WithStatus(arm, status))
  {
    hide Sum, HowMany;
    SumCounts(rows, Failing(arm, status), WithStatus(arm, status));
    SomeSuch(rows, WithStatus(arm, status));
  }

  // ---------------------------------------------------------------- paired differences

  /** The rows of one attempt, as the dictionary of attempts holds them. */
  datatype Cell = Cell(caseId: string, attempt: nat, candidate: Option<Row>, baseline: Option<Row>)

  function Filled(cell: Cell, r: Row): Cell {
    if r.metrics.arm.Candidate? then cell.(candidate := Some(r)) else cell.(baseline := Some(r))
  }

  /** Put a row into its cell; a new cell goes to the end. */
  function Put(cells: seq<Cell>, r: Row): seq<Cell> {
    if cells == [] then [Filled(Cell(r.metrics.caseId, r.attempt, None, None), r)]
    else if cells[0].caseId == r.metrics.caseId && cells[0].attempt == r.attempt then [Filled(cells[0], r)] + cells[1..]
    else [cells[0]] + Put(cells[1..], r)
  }

  function Cells(rows: seq<Row>): seq<Cell> {
    if rows == [] then [] else Put(Cells(rows[..|rows| - 1]), rows[|rows| - 1])
  }

  function Difference(candidate: Row, baseline: Row): int { Flag(candidate.metrics.success) - Flag(baseline.metrics.success) }

  /** The paired differences of one case, in the order of its attempts. */
  function Differences(cells: seq<Cell>, id: string): seq<int> {
    if cells == [] then []
    else
      var last := cells[|cells| - 1];
      Differences(cells[..|cells| - 1], id)
      + if last.caseId == id && last.candidate.Some? && last.baseline.Some?
        then [Difference(last.candidate.value, last.baseline.value)] else []
  }

  function AllDifferences(cells: seq<Cell>, ids: seq<string>): seq<int> {
    if ids == [] then [] else AllDifferences(cells, ids[..|ids| - 1]) + Differences(cells, ids[|ids| - 1])
  }

  /** The bootstrap bound: deterministic in the differences and the seed, which is a case's own or the common one. */
  type Bound = (seq<int>, Option<string>) -> real

  datatype Quality = Quality(aggregate: real, scenarios: map<string, real>)

  function IdList(cases: seq<Case>): seq<string> {
    if cases == [] then [] else [cases[0].id] + IdList(cases[1..])
  }

  function SortedIds(cases: seq<Case>): seq<string> { Sort(IdList(cases), StringLeq) }

  /** `_quality`. */
  function QualityOf(rows: seq<Row>, cases: seq<Case>, bound: Bound): Quality {
    Quality(bound(AllDifferences(Cells(rows), SortedIds(cases)), None),
            map id | id in Ids(cases) :: bound(Differences(Cells(rows), id), Some(id)))
  }

  lemma {:induction false} IdListAppend(a: seq<Case>, b: seq<Case>)
    ensures IdList(a + b) == IdList(a) + IdList(b)
  {
    if a == [] {
      assert a + b == b;
    } else {
      assert (a + b)[1..] == a[1..] + b;
      IdListAppend(a[1..], b);
    }
  }

  lemma IdListTakenOut(cases: seq<Case>, i: nat)
    requires i < |cases|
    ensures multiset(IdList(cases)) == multiset{cases[i].id} + multiset(IdList(cases[..i] + cases[i + 1..]))
  {
    TakenOut(cases, i);
    IdListAppend(cases[..i] + [cases[i]], cases[i + 1..]);
    IdListAppend(cases[..i], [cases[i]]);
    IdListAppend(cases[..i], cases[i + 1..]);
    assert IdList([cases[i]]) == [cases[i].id];
  }

  lemma {:induction false} IdListForgetsOrder(a: seq<Case>, b: seq<Case>)
    requires multiset(a) == multiset(b)
    ensures multiset(IdList(a)) == multiset(IdList(b))
    decreases |a|
  {
    if a == [] {
      SameElements(a, b);
    } else {
      assert a[0] in multiset(b);
      var i :| 0 <= i < |b| && b[i] == a[0];
      TakenOut(a, 0);
      TakenOut(b, i);
      IdListTakenOut(a, 0);
      IdListTakenOut(b, i);
      IdListForgetsOrder(a[..0] + a[1..], b[..i] + b[i + 1..]);
    }
  }

  lemma SortedIdsForgetOrder(a: seq<Case>, b: seq<Case>)
    requires multiset(a) == multiset(b)
    ensures SortedIds(a) == SortedIds(b)
  {
    IdListForgetsOrder(a, b);
    forall x: string, y: string ensures StringLeq(x, y) || StringLeq(y, x) {
      StringOrder(x, y, "");
    }
    forall x: string, y: string, z: string | StringLeq(x, y) && StringLeq(y, z) ensures StringLeq(x, z) {
      StringOrder(x, y, z);
    }
    forall x, y | x in IdList(a) && y in IdList(a) && StringLeq(x, y) && StringLeq(y, x) ensures x == y {
      StringOrder(x, y, "");
    }
    SortForgetsOrder(IdList(a), IdList(b), StringLeq);
  }

  lemma {:induction false} SameAllDifferences(a: seq<Cell>, b: seq<Cell>, ids: seq<string>)
    requires forall id :: Differences(a, id) == Differences(b, id)
    ensures AllDifferences(a, ids) == AllDifferences(b, ids)
  {
    if ids != [] {
      SameAllDifferences(a, b, ids[..|ids| - 1]);
    }
  }

  /** Equal differences case by case give equal bounds. */
  lemma QualityByCase(a: seq<Row>, b: seq<Row>, cases: seq<Case>, others: seq<Case>, bound: Bound)
    requires multiset(cases) == multiset(others)
    requires forall id :: Differences(Cells(a), id) == Differences(Cells(b), id)
    ensures QualityOf(a, cases, bound) == QualityOf(b, others, bound)
  {
    hide Cells, Differences, AllDifferences, SortedIds;
    SameElements(cases, others);
    SortedIdsForgetOrder(cases, others);
    SameAllDifferences(Cells(a), Cells(b), SortedIds(cases));
    assert Ids(cases) == Ids(others);
  }
}
