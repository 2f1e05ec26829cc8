/** A paired evaluation: the runner that samples attempts, and the checker that accepts what it retained. */
module Workflow {
  import opened Options
  import opened Sorting
  import opened Agent
  import opened Evaluation

  const REQUIRED_PAIRS: nat := 20
  const MAX_ATTEMPTS: nat := 30

  /** One attempt: both arms once, in alternating order. */
  datatype Attempt = Attempt(
    caseId: string, attempt: nat, order: seq<Arm>, included: bool, reason: Option<Status>, rows: seq<Row>)

  /** How the run of one arm goes: it cannot even be started or scored, or it is carried out over some transport. */
  datatype Trial = Impossible | Carried(transport: Transport)

  type Trials = (string, Arm, nat) -> Trial

  function Order(attempt: nat): seq<Arm> {
    if attempt % 2 == 1 then [Baseline, Candidate] else [Candidate, Baseline]
  }

  predicate TransportFailed(rows: seq<Row>) { exists r :: r in rows && r.metrics.status.FailedTransport? }

  function Reason(included: bool): Option<Status> { if included then None else Some(FailedTransport) }

  /** The included ones of the first `n` attempts. */
  function PairsBefore(items: seq<Attempt>, n: nat): nat
    requires n <= |items|
  {
    if n == 0 then 0 else PairsBefore(items, n - 1) + Flag(items[n - 1].included)
  }

  function Pairs(items: seq<Attempt>): nat { PairsBefore(items, |items|) }

  function Excluded(items: seq<Attempt>): nat {
    if items == [] then 0 else Excluded(items[..|items| - 1]) + Flag(!items[|items| - 1].included)
  }

  /** The rows of the attempts, or only of the included ones. */
  function RowsOf(items: seq<Attempt>, all: bool): seq<Row> {
    if items == [] then []
    else
      var last := items[|items| - 1];
      RowsOf(items[..|items| - 1], all) + if all || last.included then last.rows else []
  }

  // ---------------------------------------------------------------- what the checker demands

  predicate RowRetained(r: Row, arm: Arm, number: nat, run: nat, included: bool, c: Case, model: string) {
    && r.metrics.arm == arm && r.metrics.caseId == c.id && r.attempt == number && r.run == run
    && RowIntegrity(r.metrics, c) && r.metrics.metadata == MetadataOf(c, arm, model)
    && r.included == included && r.reason == Reason(included)
  }

  predicate ItemRetained(item: Attempt, number: nat, run: nat, c: Case, model: string) {
    && item.caseId == c.id && item.attempt == number && item.order == Order(number) && |item.rows| == 2
    && item.included == !TransportFailed(item.rows) && item.reason == Reason(item.included)
    && RowRetained(item.rows[0], Order(number)[0], number, run, item.included, c, model)
    && RowRetained(item.rows[1], Order(number)[1], number, run, item.included, c, model)
    && item.rows[0].metrics.metadata.prompt == item.rows[1].metrics.metadata.prompt
    && item.rows[0].metrics.metadata.environment == item.rows[1].metrics.metadata.environment
    && item.rows[0].metrics.metadata.messages == item.rows[1].metrics.metadata.messages
  }

  /** A test of one attempt, given its number and its run number. */
  type ItemTest = (Attempt, nat, nat) -> bool

  function RetainedTest(c: Case, model: string): ItemTest {
    (item: Attempt, number: nat, run: nat) => ItemRetained(item, number, run, c, model)
  }

  /** Numbered from one, each run number one more than the pairs before. */
  predicate AllItems(items: seq<Attempt>, n: nat, test: ItemTest)
    requires n <= |items|
  {
    n > 0 ==> AllItems(items, n - 1, test) && test(items[n - 1], n, PairsBefore(items, n - 1) + 1)
  }

  predicate Retained(items: seq<Attempt>, c: Case, model: string) { AllItems(items, |items|, RetainedTest(c, model)) }

  /** The sampling of one case stops at the last required pair. */
  predicate CaseRetained(items: seq<Attempt>, c: Case, model: string) {
    && REQUIRED_PAIRS <= |items| <= MAX_ATTEMPTS && Retained(items, c, model) && Pairs(items) == REQUIRED_PAIRS
    && forall n :: 0 < n < |items| ==> !(items[n - 1].included && PairsBefore(items, n) == REQUIRED_PAIRS)
  }

  // ---------------------------------------------------------------- the evidence

  datatype CaseCounts = CaseCounts(total: nat, included: nat, excluded: nat)

  /** `excludedByTransport` stands for the dictionary of exclusion reasons, which has no other key. */
  datatype Counts = Counts(total: nat, included: nat, excluded: int, perCase: map<string, CaseCounts>, excludedByTransport: nat)

  datatype Sampling = Sampling(required: nat, complete: bool, perCase: map<string, nat>)

  datatype ToolCalls = ToolCalls(
    candidateMean: real, baselineMean: real, meanDifference: real,
    excludedCandidate: nat, excludedBaseline: nat, excludedCandidateMean: real, excludedBaselineMean: real, excluded: nat)

  datatype Evidence = Evidence(
    model: string, attempts: seq<Attempt>, results: seq<Row>, aggregates: Aggregates, sampling: Sampling, counts: Counts,
    quality: Quality, failures: Failures, toolCalls: ToolCalls, prompts: set<Digest>, environments: set<Digest>)

  function OfCase(id: string): Attempt -> bool { (a: Attempt) => a.caseId == id }

  function Of(attempts: seq<Attempt>, id: string): seq<Attempt> { Filter(attempts, OfCase(id)) }

  function Prompts(rows: seq<Row>): set<Digest> { set r | r in rows :: r.metrics.metadata.prompt }

  function Environments(rows: seq<Row>): set<Digest> { set r | r in rows :: r.metrics.metadata.environment }

  function CountsOf(items: seq<Attempt>): CaseCounts { CaseCounts(|items|, Pairs(items), Excluded(items)) }

  function PerCase(attempts: seq<Attempt>, cases: seq<Case>): map<string, CaseCounts> {
    map id | id in Ids(cases) :: CountsOf(Of(attempts, id))
  }

  function VisibleCalls(rows: seq<Row>, arm: Arm): nat { Sum(rows, Calling(arm, None)) }

  /** The calls of one arm over the included, or over the excluded attempts. */
  function CallsOf(items: seq<Attempt>, arm: Arm, included: bool): nat {
    if items == [] then 0
    else
      var last := items[|items| - 1];
      CallsOf(items[..|items| - 1], arm, included) + if last.included == included then VisibleCalls(last.rows, arm) else 0
  }

  /** `_tool_calls`. */
  function ToolCallsOf(items: seq<Attempt>): ToolCalls {
    var pairs, excluded := Pairs(items), Excluded(items);
    var candidate, baseline := CallsOf(items, Candidate, true), CallsOf(items, Baseline, true);
    var lostCandidate, lostBaseline := CallsOf(items, Candidate, false), CallsOf(items, Baseline, false);
    ToolCalls(Ratio(candidate, pairs), Ratio(baseline, pairs), Ratio(candidate - baseline, pairs),
              lostCandidate, lostBaseline,
              Ratio(lostCandidate, excluded), Ratio(lostBaseline, excluded), excluded)
  }

  function AttemptLeq(): (Attempt, Attempt) -> bool {
    (a: Attempt, b: Attempt) => if a.caseId == b.caseId then a.attempt <= b.attempt else StringLeq(a.caseId, b.caseId)
  }

  function RowLeq(): (Row, Row) -> bool {
    (a: Row, b: Row) =>
      if a.metrics.caseId != b.metrics.caseId then StringLeq(a.metrics.caseId, b.metrics.caseId)
      else if a.attempt != b.attempt then a.attempt < b.attempt
      else a.metrics.arm.Baseline? || b.metrics.arm.Candidate?
  }

  function ById(): (Case, Case) -> bool { (a: Case, b: Case) => StringLeq(a.id, b.id) }

  /** What the runner reports about the attempts it made. */
  function Report(attempts: seq<Attempt>, cases: seq<Case>, runs: nat, model: string, bound: Bound): Evidence {
    var included := RowsOf(attempts, false);
    var results := Sort(included, RowLeq());
    var pairs := map id | id in Ids(cases) :: Pairs(Of(attempts, id));
    Evidence(model, attempts, results, Aggregate(results, cases, runs),
             Sampling(runs, forall id :: id in pairs ==> pairs[id] >= runs, pairs),
             Counts(|attempts|, Pairs(attempts), Excluded(attempts), PerCase(attempts, cases), Excluded(attempts)),
             QualityOf(results, cases, bound), FailureCounts(RowsOf(attempts, true)), ToolCallsOf(attempts),
             Prompts(results), Environments(results))
  }

  /** The attempts case by case, in the order of the cases. */
  function Regroup(attempts: seq<Attempt>, cases: seq<Case>): seq<Attempt> {
    if cases == [] then []
    else Regroup(attempts, cases[..|cases| - 1]) + Of(attempts, cases[|cases| - 1].id)
  }

  /** Every total is computed again from the regrouped attempts. */
  predicate Recomputed(e: Evidence, cases: seq<Case>, bound: Bound) {
    var items := Regroup(e.attempts, cases);
    var included, all := RowsOf(items, false), RowsOf(items, true);
    && e.counts == Counts(|e.attempts|, |included| / 2, |e.attempts| - |included| / 2, PerCase(e.attempts, cases), Excluded(items))
    && multiset(e.results) == multiset(included)
    && e.prompts == Prompts(included) && e.environments == Environments(included)
    && e.aggregates == Aggregate(included, cases, REQUIRED_PAIRS)
    && e.quality == QualityOf(included, cases, bound)
    && e.failures == FailureCounts(all)
    && e.toolCalls == ToolCallsOf(e.attempts)
  }

  /** `_retained_integrity`: every attempt and row is checked, and every total is computed again. */
  ghost predicate Integrity(e: Evidence, cases: seq<Case>, bound: Bound) {
    && (forall a :: a in e.attempts ==> a.caseId in Ids(cases))
    && (forall c :: c in cases ==> CaseRetained(Of(e.attempts, c.id), c, e.model))
    && e.sampling.perCase == (map id | id in Ids(cases) :: REQUIRED_PAIRS)
    && Recomputed(e, cases, bound)
  }

  // ---------------------------------------------------------------- the runner

  /** The seeds a context call was made with: composed for the candidate, the last ones observed for the baseline. */
  function SeedsSeen(c: Case, arm: Arm, observed: seq<seq<string>>): Option<seq<string>> {
    if arm.Candidate? then (if Seeds(c) == [] then None else Some(Seeds(c)))
    else if observed == [] then None else Some(observed[|observed| - 1])
  }

  /** The metrics of a run that this transport explains. */
  ghost predicate ScoredRun(m: Metrics, c: Case, arm: Arm, model: string, transport: Transport,
                            run: Run, n: nat, seeds: Option<seq<string>>)
  {
    && WellRun(run, arm) && Explained(run, arm, transport, n)
    && seeds == SeedsSeen(c, arm, Observed(arm, transport, run.calls))
    && m == RunMetrics(c, arm, model, run, seeds)
  }

  /** The metrics say what happened in the trial. */
  ghost predicate Scored(m: Metrics, c: Case, arm: Arm, model: string, trial: Trial) {
    match trial
    case Impossible => m == FailedRunnerMetrics(c, arm, model)
    case Carried(transport) => exists run, n, seeds :: ScoredRun(m, c, arm, model, transport, run, n, seeds)
  }

  method RunArm(c: Case, arm: Arm, model: string, trial: Trial) returns (m: Metrics)
    ensures RowIntegrity(m, c) && m.arm == arm && m.caseId == c.id && m.metadata == MetadataOf(c, arm, model)
    ensures Scored(m, c, arm, model, trial)
  {
    hide Explained, WellRun, RowIntegrity;
    match trial {
      case Impossible =>
        FailedRowPasses(c, arm, model);
        m := FailedRunnerMetrics(c, arm, model);
      case Carried(transport) =>
        var run, observed, n := RunAgentCase(arm, transport);
        var seeds := SeedsSeen(c, arm, observed);
        ObservedShort(arm, transport, run.calls);
        RunRowPasses(c, arm, model, run, seeds);
        m := RunMetrics(c, arm, model, run, seeds);
        assert ScoredRun(m, c, arm, model, transport, run, n, seeds);
    }
  }

  /** Both rows of an attempt come from its own trials. */
  ghost predicate FromTrials(item: Attempt, c: Case, model: string, trials: Trials) {
    && item.caseId == c.id && |item.rows| == 2 && item.attempt > 0
    && forall k :: 0 <= k < 2 ==>
         Scored(item.rows[k].metrics, c, Order(item.attempt)[k], model, trials(c.id, Order(item.attempt)[k], item.attempt - 1))
  }

  method SamplePair(c: Case, number: nat, run: nat, model: string, trials: Trials) returns (item: Attempt)
    requires number > 0
    ensures ItemRetained(item, number, run, c, model) && FromTrials(item, c, model, trials)
  {
    hide Scored, RowIntegrity;
    var order := Order(number);
    var first := RunArm(c, order[0], model, trials(c.id, order[0], number - 1));
    var second := RunArm(c, order[1], model, trials(c.id, order[1], number - 1));
    var excluded := first.status.FailedTransport? || second.status.FailedTransport?;
    var rows := [Row(first, number, run, !excluded, Reason(!excluded)), Row(second, number, run, !excluded, Reason(!excluded))];
    assert TransportFailed(rows) == excluded by {
      assert rows[0] in rows && rows[1] in rows;
    }
    item := Attempt(c.id, number, order, !excluded, Reason(!excluded), rows);
  }

  /** Sampling stops at the first moment there are enough pairs, or at the cap. */
  predicate Sampled(items: seq<Attempt>, c: Case, runs: nat, model: string) {
    && |items| <= MAX_ATTEMPTS && Retained(items, c, model) && Pairs(items) <= runs
    && (items != [] ==> PairsBefore(items, |items| - 1) < runs)
    && (Pairs(items) < runs ==> |items| == MAX_ATTEMPTS)
  }

  lemma OneMoreItem(items: seq<Attempt>, item: Attempt, test: ItemTest)
    requires AllItems(items, |items|, test) && test(item, |items| + 1, Pairs(items) + 1)
    ensures AllItems(items + [item], |items| + 1, test)
    ensures PairsBefore(items + [item], |items|) == Pairs(items)
  {
    SameItems(items, items + [item], |items|, test);
    SamePairsBefore(items, items + [item], |items|);
  }

  lemma {:induction false} SameItems(a: seq<Attempt>, b: seq<Attempt>, n: nat, test: ItemTest)
    requires n <= |a| && a <= b
    ensures AllItems(a, n, test) == AllItems(b, n, test)
  {
    if n > 0 {
      SameItems(a, b, n - 1, test);
      SamePairsBefore(a, b, n - 1);
    }
  }

  lemma {:induction false} SamePairsBefore(a: seq<Attempt>, b: seq<Attempt>, n: nat)
    requires n <= |a| && a <= b
    ensures PairsBefore(a, n) == PairsBefore(b, n)
  {
    if n > 0 {
      SamePairsBefore(a, b, n - 1);
    }
  }

  method SampleCase(c: Case, runs: nat, model: string, trials: Trials) returns (items: seq<Attempt>)
    ensures Sampled(items, c, runs, model) && |items| <= 30
    ensures forall a :: a in items ==> FromTrials(a, c, model, trials)
  {
    hide RowIntegrity, ItemRetained, FromTrials;
    items := [];
    var included := 0;
    for number := 1 to MAX_ATTEMPTS + 1
      invariant |items| == number - 1 && included == Pairs(items) <= runs
      invariant Retained(items, c, model) && (items != [] ==> PairsBefore(items, |items| - 1) < runs)
      invariant forall a :: a in items ==> FromTrials(a, c, model, trials)
    {
      if included >= runs {
        return;
      }
      var item := SamplePair(c, number, included + 1, model, trials);
      OneMoreItem(items, item, RetainedTest(c, model));
      items := items + [item];
      if item.included {
        included := included + 1;
      }
    }
  }

  ghost predicate DistinctCases(cases: seq<Case>) {
    forall i, j :: 0 <= i < j < |cases| ==> cases[i].id != cases[j].id
  }

  /** A test of all the attempts of one case. */
  type CaseTest = (seq<Attempt>, Case) -> bool

  function SampledTest(runs: nat, model: string): CaseTest {
    (items: seq<Attempt>, c: Case) => Sampled(items, c, runs, model)
  }

  ghost predicate AllCases(attempts: seq<Attempt>, cases: seq<Case>, test: CaseTest) {
    forall c :: c in cases ==> test(Of(attempts, c.id), c)
  }

  /** The attempts of a whole run: every case sampled, in the order of identifiers and attempt numbers. */
  ghost predicate Generated(attempts: seq<Attempt>, cases: seq<Case>, runs: nat, model: string) {
    && (forall a :: a in attempts ==> a.caseId in Ids(cases))
    && AllCases(attempts, cases, SampledTest(runs, model))
    && InOrder(attempts)
  }

  ghost predicate InOrder(attempts: seq<Attempt>) {
    forall i, j :: 0 <= i < j < |attempts| ==> AttemptBefore(attempts[i], attempts[j])
  }

  predicate AttemptBefore(a: Attempt, b: Attempt) {
    if a.caseId == b.caseId then a.attempt < b.attempt else StringLeq(a.caseId, b.caseId)
  }

  /** Cases in the strict order of their identifiers. */
  ghost predicate CasesInOrder(cases: seq<Case>) {
    forall i, j :: 0 <= i < j < |cases| ==> cases[i].id != cases[j].id && StringLeq(cases[i].id, cases[j].id)
  }

  method SampleAll(caseList: seq<Case>, runs: nat, model: string, trials: Trials) returns (attempts: seq<Attempt>)
    requires CasesInOrder(caseList)
    ensures Generated(attempts, caseList, runs, model)
    ensures forall a :: a in attempts ==> exists c :: c in caseList && FromTrials(a, c, model, trials)
  {
    hide Generated, FromTrials, Sampled;
    attempts := [];
    NothingGenerated(caseList, runs, model);
    for n := 0 to |caseList|
      invariant Generated(attempts, caseList[..n], runs, model)
      invariant forall a :: a in attempts ==> exists c :: c in caseList && FromTrials(a, c, model, trials)
    {
      assert caseList[n] in caseList;
      var items := SampleCase(caseList[n], runs, model, trials);
      CaseSampled(attempts, caseList, n, items, runs, model);
      attempts := attempts + items;
    }
    assert caseList[..|caseList|] == caseList;
  }

  lemma NothingGenerated(cases: seq<Case>, runs: nat, model: string)
    ensures Generated([], cases[..0], runs, model)
  {
  }

  /** `run_workflow`. */
  method RunWorkflow(cases: seq<Case>, runs: nat, model: string, trials: Trials, bound: Bound) returns (e: Evidence)
    requires DistinctCases(cases)
    ensures Generated(e.attempts, cases, runs, model)
    ensures e == Report(e.attempts, Sort(cases, ById()), runs, model, bound)
    ensures forall a :: a in e.attempts ==> exists c :: c in cases && FromTrials(a, c, model, trials)
  {
    hide FromTrials, Report, AllCases, InOrder;
    var caseList := Sort(cases, ById());
    SortedCases(cases);
    var attempts := SampleAll(caseList, runs, model, trials);
    AlreadySorted(attempts);
    GeneratedByAny(attempts, caseList, cases, runs, model);
    SameElements(cases, caseList);
    e := Report(Sort(attempts, AttemptLeq()), caseList, runs, model, bound);
    ReportsAttempts(Sort(attempts, AttemptLeq()), caseList, runs, model, bound);
  }

  lemma ReportsAttempts(attempts: seq<Attempt>, cases: seq<Case>, runs: nat, model: string, bound: Bound)
    ensures Report(attempts, cases, runs, model, bound).attempts == attempts
  {
  }

  lemma GeneratedByAny(attempts: seq<Attempt>, cases: seq<Case>, others: seq<Case>, runs: nat, model: string)
    requires Generated(attempts, cases, runs, model) && multiset(cases) == multiset(others)
    ensures Generated(attempts, others, runs, model)
  {
    hide Sampled;
    SameElements(cases, others);
    assert Ids(cases) == Ids(others);
  }

  lemma CaseOrder()
    ensures TotalPreorder(ById())
    ensures forall a: Case, b: Case :: ById()(a, b) && ById()(b, a) ==> a.id == b.id
  {
    forall a: Case, b: Case ensures ById()(a, b) || ById()(b, a) {
      StringOrder(a.id, b.id, "");
    }
    forall a: Case, b: Case, c: Case | ById()(a, b) && ById()(b, c) ensures ById()(a, c) {
      StringOrder(a.id, b.id, c.id);
    }
    forall a: Case, b: Case | ById()(a, b) && ById()(b, a) ensures a.id == b.id {
      StringOrder(a.id, b.id, "");
    }
  }

  lemma SortedCases(cases: seq<Case>)
    requires DistinctCases(cases)
    ensures CasesInOrder(Sort(cases, ById()))
  {
    var s := Sort(cases, ById());
    CaseOrder();
    SortSorted(cases, ById());
    DistinctByCount(cases, s);
    SameElements(cases, s);
    forall i, j | 0 <= i < j < |s| ensures s[i].id != s[j].id && StringLeq(s[i].id, s[j].id) {
      assert s[i] in cases && s[j] in cases && s[i] != s[j];
      assert ById()(s[i], s[j]);
    }
  }

  lemma CaseSampled(attempts: seq<Attempt>, cases: seq<Case>, n: nat, items: seq<Attempt>, runs: nat, model: string)
    requires CasesInOrder(cases) && n < |cases|
    requires Generated(attempts, cases[..n], runs, model) && Sampled(items, cases[n], runs, model)
    ensures Generated(attempts + items, cases[..n + 1], runs, model)
  {
    hide RowIntegrity, ItemRetained, AllItems;
    Numbered(items, cases[n], model);
    OneMoreCase(attempts, cases[..n], cases[n], items, SampledTest(runs, model));
    assert cases[..n + 1] == cases[..n] + [cases[n]];
  }

  lemma OneMoreCase(attempts: seq<Attempt>, cases: seq<Case>, c: Case, items: seq<Attempt>, test: CaseTest)
    requires (forall a :: a in attempts ==> a.caseId in Ids(cases)) && AllCases(attempts, cases, test) && InOrder(attempts)
    requires forall d :: d in cases ==> d.id != c.id && StringLeq(d.id, c.id)
    requires test(items, c) && forall i :: 0 <= i < |items| ==> items[i].caseId == c.id && items[i].attempt == i + 1
    ensures forall a :: a in attempts + items ==> a.caseId in Ids(cases + [c])
    ensures AllCases(attempts + items, cases + [c], test) && InOrder(attempts + items)
  {
    assert Ids(cases + [c]) == Ids(cases) + {c.id};
    forall d | d in cases + [c] ensures test(Of(attempts + items, d.id), d) {
      FilterAppend(attempts, items, OfCase(d.id));
      if d in cases {
        FilterNone(items, OfCase(d.id));
        assert Of(attempts + items, d.id) == Of(attempts, d.id);
      } else {
        FilterNone(attempts, OfCase(d.id));
        FilterAll(items, OfCase(d.id));
        assert Of(attempts + items, d.id) == items;
      }
    }
    JoinInOrder(attempts, items, c);
  }

  lemma {:induction false} ItemAt(items: seq<Attempt>, n: nat, i: nat, test: ItemTest)
    requires i < n <= |items| && AllItems(items, n, test)
    ensures test(items[i], i + 1, PairsBefore(items, i) + 1)
  {
    if i < n - 1 {
      ItemAt(items, n - 1, i, test);
    }
  }

  lemma Numbered(items: seq<Attempt>, c: Case, model: string)
    requires Retained(items, c, model)
    ensures forall i :: 0 <= i < |items| ==> items[i].caseId == c.id && items[i].attempt == i + 1 && |items[i].rows| == 2
  {
    hide RowIntegrity;
    forall i | 0 <= i < |items| ensures items[i].caseId == c.id && items[i].attempt == i + 1 && |items[i].rows| == 2 {
      ItemAt(items, |items|, i, RetainedTest(c, model));
    }
  }

  lemma JoinInOrder(attempts: seq<Attempt>, items: seq<Attempt>, c: Case)
    requires InOrder(attempts) && forall a :: a in attempts ==> a.caseId != c.id && StringLeq(a.caseId, c.id)
    requires forall i :: 0 <= i < |items| ==> items[i].caseId == c.id && items[i].attempt == i + 1
    ensures InOrder(attempts + items)
  {
    var all := attempts + items;
    forall i, j | 0 <= i < j < |all| ensures AttemptBefore(all[i], all[j]) {
      if i < |attempts| <= j {
        assert attempts[i] in attempts;
      }
    }
  }

  lemma AlreadySorted(attempts: seq<Attempt>)
    requires InOrder(attempts)
    ensures Sort(attempts, AttemptLeq()) == attempts
  {
    forall a: Attempt, b: Attempt ensures AttemptLeq()(a, b) || AttemptLeq()(b, a) {
      StringOrder(a.caseId, b.caseId, "");
    }
    forall a: Attempt, b: Attempt, c: Attempt | AttemptLeq()(a, b) && AttemptLeq()(b, c) ensures AttemptLeq()(a, c) {
      StringOrder(a.caseId, b.caseId, c.caseId);
      StringOrder(b.caseId, c.caseId, a.caseId);
    }
    forall a, b | a in attempts && b in attempts && AttemptLeq()(a, b) && AttemptLeq()(b, a) ensures a == b {
      StringOrder(a.caseId, b.caseId, "");
      var i :| 0 <= i < |attempts| && attempts[i] == a;
      var j :| 0 <= j < |attempts| && attempts[j] == b;
    }
    SortedFixed(attempts, AttemptLeq());
  }

  // ---------------------------------------------------------------- regrouping loses nothing

  function NotOf(id: string): Attempt -> bool { (a: Attempt) => a.caseId != id }

  lemma {:induction false} SplitByCase(attempts: seq<Attempt>, id: string)
    ensures multiset(attempts) == multiset(Of(attempts, id)) + multiset(Filter(attempts, NotOf(id)))
  {
    if attempts != [] {
      SplitByCase(attempts[1..], id);
      assert attempts == [attempts[0]] + attempts[1..];
    }
  }

  lemma {:induction false} OfTheRest(attempts: seq<Attempt>, id: string, other: string)
    requires id != other
    ensures Of(Filter(attempts, NotOf(other)), id) == Of(attempts, id)
  {
    if attempts != [] {
      OfTheRest(attempts[1..], id, other);
      var rest := Filter(attempts[1..], NotOf(other));
      if attempts[0].caseId != other {
        assert ([attempts[0]] + rest)[1..] == rest;
      } else {
        assert Filter(attempts, NotOf(other)) == rest;
      }
    }
  }

  lemma {:induction false} RegroupTheRest(attempts: seq<Attempt>, cases: seq<Case>, other: string)
    requires forall c :: c in cases ==> c.id != other
    ensures Regroup(Filter(attempts, NotOf(other)), cases) == Regroup(attempts, cases)
  {
    if cases != [] {
      var n := |cases| - 1;
      RegroupTheRest(attempts, cases[..n], other);
      OfTheRest(attempts, cases[n].id, other);
    }
  }

  /** Case by case the attempts are the same ones. */
  lemma {:induction false} RegroupKeepsAll(attempts: seq<Attempt>, cases: seq<Case>)
    requires DistinctCases(cases) && forall a :: a in attempts ==> a.caseId in Ids(cases)
    ensures multiset(Regroup(attempts, cases)) == multiset(attempts)
    decreases |cases|
  {
    if cases == [] {
      assert forall a :: a in multiset(attempts) ==> a in attempts;
      assert multiset(attempts) == multiset{};
    } else {
      var n := |cases| - 1;
      var last := cases[n];
      var rest := Filter(attempts, NotOf(last.id));
      FilterMembers(attempts, NotOf(last.id));
      forall a | a in rest ensures a.caseId in Ids(cases[..n]) {
        var c :| c in cases && c.id == a.caseId;
        assert c in cases[..n];
      }
      RegroupKeepsAll(rest, cases[..n]);
      RegroupTheRest(attempts, cases[..n], last.id);
      SplitByCase(attempts, last.id);
    }
  }

  /** And every case finds its own attempts again. */
  lemma {:induction false} OfRegrouped(attempts: seq<Attempt>, cases: seq<Case>, id: string)
    requires DistinctCases(cases)
    ensures Of(Regroup(attempts, cases), id) == if id in Ids(cases) then Of(attempts, id) else []
  {
    if cases != [] {
      var n := |cases| - 1;
      OfRegrouped(attempts, cases[..n], id);
      FilterAppend(Regroup(attempts, cases[..n]), Of(attempts, cases[n].id), OfCase(id));
      FilterMembers(attempts, OfCase(cases[n].id));
      assert cases == cases[..n] + [cases[n]];
      if cases[n].id == id {
        FilterAll(Of(attempts, id), OfCase(id));
        assert id !in Ids(cases[..n]);
      } else {
        FilterNone(Of(attempts, cases[n].id), OfCase(id));
        assert id in Ids(cases) <==> id in Ids(cases[..n]);
      }
    }
  }

  // ---------------------------------------------------------------- totals depend only on which attempts there are

  lemma {:induction false} RowsAppend(a: seq<Attempt>, b: seq<Attempt>, all: bool)
    ensures RowsOf(a + b, all) == RowsOf(a, all) + RowsOf(b, all)
  {
    if b == [] {
      assert a + b == a;
    } else {
      var n := |b| - 1;
      assert (a + b)[..|a + b| - 1] == a + b[..n];
      RowsAppend(a, b[..n], all);
    }
  }

  lemma RowsTakenOut(items: seq<Attempt>, i: nat, all: bool)
    requires i < |items|
    ensures multiset(RowsOf(items, all)) ==
            multiset(RowsOf([items[i]], all)) + multiset(RowsOf(items[..i] + items[i + 1..], all))
  {
    TakenOut(items, i);
    RowsAppend(items[..i] + [items[i]], items[i + 1..], all);
    RowsAppend(items[..i], [items[i]], all);
    RowsAppend(items[..i], items[i + 1..], all);
  }

  lemma {:induction false} RowsForgetOrder(a: seq<Attempt>, b: seq<Attempt>, all: bool)
    requires multiset(a) == multiset(b)
    ensures multiset(RowsOf(a, all)) == multiset(RowsOf(b, all))
    decreases |a|
  {
    if a == [] {
      SameElements(a, b);
    } else {
      assert a[0] in multiset(b);
      var i :| 0 <= i < |b| && b[i] == a[0];
      TakenOut(a, 0);
      TakenOut(b, i);
      RowsTakenOut(a, 0, all);
      RowsTakenOut(b, i, all);
      RowsForgetOrder(a[..0] + a[1..], b[..i] + b[i + 1..], all);
    }
  }

  /** Two rows an attempt: the rows count the pairs. */
  lemma {:induction false} RowsCountPairs(items: seq<Attempt>)
    requires forall i :: 0 <= i < |items| ==> |items[i].rows| == 2
    ensures |RowsOf(items, false)| == 2 * Pairs(items) && |RowsOf(items, true)| == 2 * |items|
    ensures Pairs(items) + Excluded(items) == |items|
  {
    if items != [] {
      var n := |items| - 1;
      RowsCountPairs(items[..n]);
      SamePairsBefore(items[..n], items, n);
    }
  }

  // ---------------------------------------------------------------- paired differences, attempt by attempt

  /** An attempt as the runner and the checker leave it: two rows of its own, one an arm. */
  predicate Paired(item: Attempt) {
    && |item.rows| == 2 && item.rows[0].metrics.arm != item.rows[1].metrics.arm
    && item.rows[0].metrics.caseId == item.rows[1].metrics.caseId == item.caseId
    && item.rows[0].attempt == item.rows[1].attempt == item.attempt
  }

  predicate AllPaired(items: seq<Attempt>) { forall a :: a in items ==> Paired(a) }

  /** No two attempts share case and number. */
  predicate Keyed(items: seq<Attempt>) {
    forall i, j :: 0 <= i < j < |items| ==> items[i].caseId != items[j].caseId || items[i].attempt != items[j].attempt
  }

  function CellOf(item: Attempt): Cell
    requires Paired(item)
  {
    var first := item.rows[0].metrics.arm.Candidate?;
    Cell(item.caseId, item.attempt,
         Some(if first then item.rows[0] else item.rows[1]), Some(if first then item.rows[1] else item.rows[0]))
  }

  /** The cells of the included attempts. */
  function CellsOf(items: seq<Attempt>): (cells: seq<Cell>)
    requires AllPaired(items)
  {
    if items == [] then []
    else
      var last := items[|items| - 1];
      CellsOf(items[..|items| - 1]) + if last.included then [CellOf(last)] else []
  }

  lemma {:induction false} CellsFrom(items: seq<Attempt>)
    requires AllPaired(items)
    ensures forall c :: c in CellsOf(items) ==> exists i :: 0 <= i < |items| && items[i].caseId == c.caseId && items[i].attempt == c.attempt
  {
    if items != [] {
      var n := |items| - 1;
      CellsFrom(items[..n]);
      forall c | c in CellsOf(items)
        ensures exists i :: 0 <= i < |items| && items[i].caseId == c.caseId && items[i].attempt == c.attempt
      {
        if c in CellsOf(items[..n]) {
          var i :| 0 <= i < |items[..n]| && items[..n][i].caseId == c.caseId && items[..n][i].attempt == c.attempt;
          assert items[i] == items[..n][i];
        } else {
          assert c == CellOf(items[n]);
        }
      }
    }
  }

  lemma {:induction false} PutFresh(cells: seq<Cell>, r: Row)
    requires forall c :: c in cells ==> c.caseId != r.metrics.caseId || c.attempt != r.attempt
    ensures Put(cells, r) == cells + [Filled(Cell(r.metrics.caseId, r.attempt, None, None), r)]
  {
    if cells != [] {
      assert cells[0] in cells;
      PutFresh(cells[1..], r);
    }
  }

  lemma {:induction false} PutLast(cells: seq<Cell>, cell: Cell, r: Row)
    requires forall c :: c in cells ==> c.caseId != r.metrics.caseId || c.attempt != r.attempt
    requires cell.caseId == r.metrics.caseId && cell.attempt == r.attempt
    ensures Put(cells + [cell], r) == cells + [Filled(cell, r)]
  {
    if cells == [] {
      assert cells + [cell] == [cell];
    } else {
      assert cells[0] in cells && (cells + [cell])[1..] == cells[1..] + [cell];
      PutLast(cells[1..], cell, r);
    }
  }

  lemma PutBoth(cells: seq<Cell>, item: Attempt)
    requires Paired(item) && forall c :: c in cells ==> c.caseId != item.caseId || c.attempt != item.attempt
    ensures Put(Put(cells, item.rows[0]), item.rows[1]) == cells + [CellOf(item)]
  {
    var r, s := item.rows[0], item.rows[1];
    PutFresh(cells, r);
    PutLast(cells, Filled(Cell(item.caseId, item.attempt, None, None), r), s);
  }

  /** The dictionary of attempts, built row by row, holds the included attempts in order. */
  lemma {:induction false} CellsByAttempt(items: seq<Attempt>)
    requires AllPaired(items) && Keyed(items)
    ensures Cells(RowsOf(items, false)) == CellsOf(items)
  {
    if items != [] {
      var n := |items| - 1;
      var last := items[n];
      CellsByAttempt(items[..n]);
      if last.included {
        var before := RowsOf(items[..n], false);
        CellsFrom(items[..n]);
        forall c | c in CellsOf(items[..n]) ensures c.caseId != last.caseId || c.attempt != last.attempt {
          var i :| 0 <= i < n && items[..n][i].caseId == c.caseId && items[..n][i].attempt == c.attempt;
        }
        PutBoth(CellsOf(items[..n]), last);
        CellsOfTwo(before, last.rows[0], last.rows[1]);
        assert last.rows == [last.rows[0], last.rows[1]];
      } else {
        assert RowsOf(items, false) == RowsOf(items[..n], false);
      }
    }
  }

  lemma CellsOfTwo(rows: seq<Row>, r: Row, s: Row)
    ensures Cells(rows + [r, s]) == Put(Put(Cells(rows), r), s)
  {
    var all := rows + [r, s];
    assert all[..|all| - 1] == rows + [r];
    assert (rows + [r])[..|rows|] == rows;
  }

  /** The paired differences of one case, read off the attempts. */
  function DifferencesOf(items: seq<Attempt>, id: string): seq<int>
    requires AllPaired(items)
  {
    if items == [] then []
    else
      var last := items[|items| - 1];
      DifferencesOf(items[..|items| - 1], id)
      + if last.included && last.caseId == id then [Difference(CellOf(last).candidate.value, CellOf(last).baseline.value)] else []
  }

  lemma {:induction false} DifferencesByAttempt(items: seq<Attempt>, id: string)
    requires AllPaired(items)
    ensures Differences(CellsOf(items), id) == DifferencesOf(items, id)
  {
    if items != [] {
      var n := |items| - 1;
      DifferencesByAttempt(items[..n], id);
      var before := CellsOf(items[..n]);
      if items[n].included {
        assert (before + [CellOf(items[n])])[..|before|] == before;
      } else {
        assert CellsOf(items) == before;
      }
    }
  }

  /** The differences of one case see only the attempts of that case. */
  lemma {:induction false} DifferencesOfCase(items: seq<Attempt>, id: string)
    requires AllPaired(items)
    ensures AllPaired(Of(items, id)) && DifferencesOf(items, id) == DifferencesOf(Of(items, id), id)
  {
    FilterMembers(items, OfCase(id));
    if items != [] {
      var n := |items| - 1;
      DifferencesOfCase(items[..n], id);
      FilterLast(items, OfCase(id));
      var mine := Of(items[..n], id);
      if items[n].caseId == id {
        assert (mine + [items[n]])[..|mine|] == mine;
      } else {
        assert Of(items, id) == mine;
      }
    }
  }

  // ---------------------------------------------------------------- the reported rows are the included ones, in order

  function Arranged(item: Attempt): Attempt
    requires Paired(item)
  {
    if item.rows[0].metrics.arm.Baseline? then item else item.(rows := [item.rows[1], item.rows[0]])
  }

  function AllArranged(items: seq<Attempt>): (r: seq<Attempt>)
    requires AllPaired(items)
    ensures |r| == |items| && forall i :: 0 <= i < |r| ==> Paired(items[i]) && r[i] == Arranged(items[i])
  {
    if items == [] then [] else AllArranged(items[..|items| - 1]) + [Arranged(items[|items| - 1])]
  }

  lemma ArrangedSame(item: Attempt)
    requires Paired(item)
    ensures Paired(Arranged(item)) && CellOf(Arranged(item)) == CellOf(item)
    ensures multiset(Arranged(item).rows) == multiset(item.rows)
  {
    assert item.rows == [item.rows[0], item.rows[1]];
  }

  lemma {:induction false} ArrangedRows(items: seq<Attempt>)
    requires AllPaired(items)
    ensures multiset(RowsOf(AllArranged(items), false)) == multiset(RowsOf(items, false))
  {
    if items != [] {
      var n := |items| - 1;
      assert items[n] in items;
      ArrangedRows(items[..n]);
      ArrangedSame(items[n]);
      assert AllArranged(items)[..n] == AllArranged(items[..n]);
    }
  }

  lemma {:induction false} ArrangedCells(items: seq<Attempt>)
    requires AllPaired(items) && AllPaired(AllArranged(items))
    ensures CellsOf(AllArranged(items)) == CellsOf(items)
  {
    if items != [] {
      var n := |items| - 1;
      assert items[n] in items;
      var before := AllArranged(items[..n]);
      assert AllArranged(items)[..n] == before;
      assert forall a :: a in before ==> a in AllArranged(items);
      ArrangedCells(items[..n]);
      ArrangedSame(items[n]);
    }
  }

  lemma {:induction false} RowsFrom(items: seq<Attempt>, r: Row)
    requires r in RowsOf(items, false)
    ensures exists i :: 0 <= i < |items| && r in items[i].rows
  {
    var n := |items| - 1;
    if r in RowsOf(items[..n], false) {
      RowsFrom(items[..n], r);
      var i :| 0 <= i < n && r in items[..n][i].rows;
      assert r in items[i].rows;
    } else {
      assert r in items[n].rows;
    }
  }

  lemma RowOrder()
    ensures TotalPreorder(RowLeq())
  {
    forall a: Row, b: Row ensures RowLeq()(a, b) || RowLeq()(b, a) {
      StringOrder(a.metrics.caseId, b.metrics.caseId, "");
    }
    forall a: Row, b: Row, c: Row | RowLeq()(a, b) && RowLeq()(b, c) ensures RowLeq()(a, c) {
      StringOrder(a.metrics.caseId, b.metrics.caseId, c.metrics.caseId);
      StringOrder(b.metrics.caseId, c.metrics.caseId, a.metrics.caseId);
    }
  }

  /** Rows of an earlier attempt come strictly before rows of a later one. */
  lemma RowsApart(a: Attempt, b: Attempt, r: Row, s: Row)
    requires Paired(a) && Paired(b) && AttemptBefore(a, b) && r in a.rows && s in b.rows
    ensures RowLeq()(r, s) && !RowLeq()(s, r)
  {
    StringOrder(a.caseId, b.caseId, "");
  }

  /** Baseline first. */
  predicate BaselineFirst(items: seq<Attempt>) {
    forall a :: a in items ==> Paired(a) && a.rows[0].metrics.arm.Baseline?
  }

  lemma {:induction false} ArrangedRowsSorted(items: seq<Attempt>)
    requires BaselineFirst(items) && InOrder(items)
    ensures Sorted(RowsOf(items, false), RowLeq())
  {
    if items != [] {
      var n := |items| - 1;
      ArrangedRowsSorted(items[..n]);
      var before := RowsOf(items[..n], false);
      assert items[n] in items;
      forall r, t | r in before && t in items[n].rows ensures RowLeq()(r, t) {
        RowsFrom(items[..n], r);
        var i :| 0 <= i < n && r in items[..n][i].rows;
        assert items[i] in items;
        RowsApart(items[i], items[n], r, t);
      }
      SortedAppend(before, items[n].rows, RowLeq());
      assert RowsOf(items, false) == before || RowsOf(items, false) == before + items[n].rows;
    }
  }

  lemma RowsTieFree(items: seq<Attempt>)
    requires AllPaired(items) && InOrder(items)
    ensures TieFree(RowsOf(items, false), RowLeq())
  {
    var rows := RowsOf(items, false);
    forall r, s | r in rows && s in rows && RowLeq()(r, s) && RowLeq()(s, r) ensures r == s {
      RowsFrom(items, r);
      RowsFrom(items, s);
      var i :| 0 <= i < |items| && r in items[i].rows;
      var j :| 0 <= j < |items| && s in items[j].rows;
      TiedRows(items, i, j, r, s);
    }
  }

  lemma TiedRows(items: seq<Attempt>, i: nat, j: nat, r: Row, s: Row)
    requires AllPaired(items) && InOrder(items) && i < |items| && j < |items|
    requires r in items[i].rows && s in items[j].rows && RowLeq()(r, s) && RowLeq()(s, r)
    ensures r == s
  {
    assert items[i] in items && items[j] in items;
    if i < j {
      RowsApart(items[i], items[j], r, s);
    } else if j < i {
      RowsApart(items[j], items[i], s, r);
    } else {
      assert items[i].rows == [items[i].rows[0], items[i].rows[1]];
    }
  }

  lemma ArrangedInOrder(items: seq<Attempt>)
    requires AllPaired(items) && InOrder(items)
    ensures BaselineFirst(AllArranged(items)) && InOrder(AllArranged(items))
  {
    hide AllArranged, StringLeq;
    var arranged := AllArranged(items);
    forall a | a in arranged ensures Paired(a) && a.rows[0].metrics.arm.Baseline? {
      var i :| 0 <= i < |arranged| && arranged[i] == a;
      assert items[i] in items;
    }
    forall i, j | 0 <= i < j < |arranged| ensures AttemptBefore(arranged[i], arranged[j]) {
      assert items[i] in items && items[j] in items && AttemptBefore(items[i], items[j]);
    }
  }

  /** Sorting the included rows only turns the pairs of even attempts around. */
  lemma SortedResults(items: seq<Attempt>)
    requires AllPaired(items) && InOrder(items)
    ensures Sort(RowsOf(items, false), RowLeq()) == RowsOf(AllArranged(items), false)
  {
    RowOrder();
    ArrangedRows(items);
    ArrangedInOrder(items);
    ArrangedRowsSorted(AllArranged(items));
    RowsTieFree(AllArranged(items));
    SortedOnce(RowsOf(AllArranged(items), false), RowsOf(items, false));
  }

  lemma SortedOnce(sorted: seq<Row>, rows: seq<Row>)
    requires TotalPreorder(RowLeq()) && Sorted(sorted, RowLeq()) && TieFree(sorted, RowLeq())
    requires multiset(sorted) == multiset(rows)
    ensures Sort(rows, RowLeq()) == sorted
  {
    SortSorted(rows, RowLeq());
    SortedUnique(sorted, Sort(rows, RowLeq()), RowLeq());
  }

  // ---------------------------------------------------------------- the checker accepts exactly the complete samples

  lemma RetainedIsPaired(item: Attempt, number: nat, run: nat, c: Case, model: string)
    requires ItemRetained(item, number, run, c, model)
    ensures Paired(item) && item.caseId == c.id && item.attempt == number
  {
  }

  lemma GeneratedIsPaired(attempts: seq<Attempt>, cases: seq<Case>, runs: nat, model: string)
    requires Generated(attempts, cases, runs, model)
    ensures AllPaired(attempts)
  {
    forall a | a in attempts ensures Paired(a) {
      var c :| c in cases && c.id == a.caseId;
      assert SampledTest(runs, model)(Of(attempts, c.id), c);
      FilterMembers(attempts, OfCase(c.id));
      SampledIsPaired(Of(attempts, c.id), c, runs, model, a);
    }
  }

  lemma SampledIsPaired(items: seq<Attempt>, c: Case, runs: nat, model: string, a: Attempt)
    requires Sampled(items, c, runs, model) && a in items
    ensures Paired(a)
  {
    hide RowIntegrity, ItemRetained;
    var i :| 0 <= i < |items| && items[i] == a;
    ItemAt(items, |items|, i, RetainedTest(c, model));
    RetainedIsPaired(a, i + 1, PairsBefore(items, i) + 1, c, model);
  }

  lemma {:induction false} PairsGrow(items: seq<Attempt>, i: nat, j: nat)
    requires i <= j <= |items|
    ensures PairsBefore(items, i) <= PairsBefore(items, j) <= j
  {
    if j > 0 {
      PairsGrow(items, if i < j then i else j - 1, j - 1);
    }
  }

  /** A sampled case passes exactly when it has all its pairs. */
  lemma CompleteCase(items: seq<Attempt>, c: Case, model: string)
    requires Sampled(items, c, REQUIRED_PAIRS, model)
    ensures CaseRetained(items, c, model) <==> Pairs(items) >= REQUIRED_PAIRS
  {
    hide RowIntegrity, ItemRetained, AllItems;
    PairsGrow(items, 0, |items|);
    forall n | 0 < n < |items| ensures PairsBefore(items, n) < REQUIRED_PAIRS {
      PairsGrow(items, n, |items| - 1);
    }
  }

  lemma InOrderIsKeyed(items: seq<Attempt>)
    requires InOrder(items)
    ensures Keyed(items) && Distinct(items)
  {
    forall i, j | 0 <= i < j < |items| ensures items[i].caseId != items[j].caseId || items[i].attempt != items[j].attempt {
      assert AttemptBefore(items[i], items[j]);
    }
  }

  /** The same attempts in another order still have distinct keys. */
  lemma KeyedForgetsOrder(a: seq<Attempt>, b: seq<Attempt>)
    requires Keyed(a) && Distinct(a) && multiset(a) == multiset(b)
    ensures Keyed(b)
  {
    DistinctByCount(a, b);
    SameElements(a, b);
    forall i, j | 0 <= i < j < |b| ensures b[i].caseId != b[j].caseId || b[i].attempt != b[j].attempt {
      assert b[i] in a && b[j] in a && b[i] != b[j];
    }
  }

  /** The reported rows and the regrouped rows have the same paired differences. */
  lemma SameDifferences(attempts: seq<Attempt>, cases: seq<Case>, id: string)
    requires DistinctCases(cases) && (forall a :: a in attempts ==> a.caseId in Ids(cases))
    requires AllPaired(attempts) && InOrder(attempts)
    ensures Differences(Cells(Sort(RowsOf(attempts, false), RowLeq())), id) ==
            Differences(Cells(RowsOf(Regroup(attempts, cases), false)), id)
  {
    ReportedDifferences(attempts, id);
    RegroupedDifferences(attempts, cases, id);
    DifferencesOfCase(attempts, id);
    if id !in Ids(cases) {
      FilterNone(attempts, OfCase(id));
    }
  }

  lemma ReportedDifferences(attempts: seq<Attempt>, id: string)
    requires AllPaired(attempts) && InOrder(attempts)
    ensures Differences(Cells(Sort(RowsOf(attempts, false), RowLeq())), id) == DifferencesOf(attempts, id)
  {
    SortedResults(attempts);
    ArrangedInOrder(attempts);
    InOrderIsKeyed(AllArranged(attempts));
    CellsByAttempt(AllArranged(attempts));
    ArrangedCells(attempts);
    DifferencesByAttempt(attempts, id);
  }

  lemma RegroupedDifferences(attempts: seq<Attempt>, cases: seq<Case>, id: string)
    requires DistinctCases(cases) && (forall a :: a in attempts ==> a.caseId in Ids(cases))
    requires AllPaired(attempts) && InOrder(attempts)
    ensures var mine := if id in Ids(cases) then Of(attempts, id) else [];
            AllPaired(mine) && Differences(Cells(RowsOf(Regroup(attempts, cases), false)), id) == DifferencesOf(mine, id)
  {
    var items := Regroup(attempts, cases);
    RegroupKeepsAll(attempts, cases);
    SameElements(attempts, items);
    InOrderIsKeyed(attempts);
    KeyedForgetsOrder(attempts, items);
    CellsByAttempt(items);
    DifferencesByAttempt(items, id);
    DifferencesOfCase(items, id);
    OfRegrouped(attempts, cases, id);
  }

  lemma SameCounts(attempts: seq<Attempt>, items: seq<Attempt>)
    requires multiset(attempts) == multiset(items) && AllPaired(attempts)
    ensures |RowsOf(items, false)| / 2 == Pairs(attempts) && Excluded(items) == Excluded(attempts)
    ensures Pairs(attempts) + Excluded(attempts) == |attempts|
  {
    SameElements(attempts, items);
    RowsForgetOrder(attempts, items, false);
    assert |multiset(RowsOf(attempts, false))| == |RowsOf(attempts, false)|;
    assert |multiset(RowsOf(items, false))| == |RowsOf(items, false)|;
    PairedRows(attempts);
    PairedRows(items);
    hide *;
  }

  lemma PairedRows(items: seq<Attempt>)
    requires AllPaired(items)
    ensures |RowsOf(items, false)| == 2 * Pairs(items) && Pairs(items) + Excluded(items) == |items|
  {
    forall i | 0 <= i < |items| ensures |items[i].rows| == 2 {
      assert items[i] in items;
    }
    RowsCountPairs(items);
  }

  lemma SameQuality(attempts: seq<Attempt>, cases: seq<Case>, bound: Bound)
    requires DistinctCases(cases) && (forall a :: a in attempts ==> a.caseId in Ids(cases))
    requires AllPaired(attempts) && InOrder(attempts)
    ensures QualityOf(Sort(RowsOf(attempts, false), RowLeq()), Sort(cases, ById()), bound) ==
            QualityOf(RowsOf(Regroup(attempts, cases), false), cases, bound)
  {
    var results, included := Sort(RowsOf(attempts, false), RowLeq()), RowsOf(Regroup(attempts, cases), false);
    forall id ensures Differences(Cells(results), id) == Differences(Cells(included), id) {
      SameDifferences(attempts, cases, id);
    }
    QualityByCase(results, included, Sort(cases, ById()), cases, bound);
  }

  lemma SameTotals(results: seq<Row>, included: seq<Row>, attempts: seq<Attempt>, sorted: seq<Case>, cases: seq<Case>)
    requires multiset(results) == multiset(included) && multiset(sorted) == multiset(cases)
    ensures Prompts(results) == Prompts(included) && Environments(results) == Environments(included)
    ensures Aggregate(results, sorted, REQUIRED_PAIRS) == Aggregate(included, cases, REQUIRED_PAIRS)
    ensures Ids(cases) == Ids(sorted) && PerCase(attempts, cases) == PerCase(attempts, sorted)
  {
    SameElements(results, included);
    SameElements(cases, sorted);
    assert Ids(cases) == Ids(sorted);
    AggregateForgetsOrder(results, included, sorted, cases, REQUIRED_PAIRS);
  }

  /** What the runner reports is what the checker computes. */
  lemma ReportRecomputed(attempts: seq<Attempt>, cases: seq<Case>, model: string, bound: Bound)
    requires DistinctCases(cases) && (forall a :: a in attempts ==> a.caseId in Ids(cases))
    requires AllPaired(attempts) && InOrder(attempts)
    ensures Recomputed(Report(attempts, Sort(cases, ById()), REQUIRED_PAIRS, model, bound), cases, bound)
  {
    hide RowsOf, Pairs, Excluded, PerCase, Aggregate, QualityOf, FailureCounts, ToolCallsOf, Regroup, AllPaired, InOrder,
      Sort, Prompts, Environments, Ids;
    var items := Regroup(attempts, cases);
    var results := Sort(RowsOf(attempts, false), RowLeq());
    RegroupKeepsAll(attempts, cases);
    SameCounts(attempts, items);
    RowsForgetOrder(attempts, items, false);
    RowsForgetOrder(attempts, items, true);
    SameTotals(results, RowsOf(items, false), attempts, Sort(cases, ById()), cases);
    FailuresForgetOrder(RowsOf(attempts, true), RowsOf(items, true));
    SameQuality(attempts, cases, bound);
  }

  /** Whatever the transport did, the checker accepts the evidence of a workflow exactly when its sampling is complete. */
  lemma CheckerAcceptsComplete(e: Evidence, cases: seq<Case>, bound: Bound)
    requires DistinctCases(cases) && Generated(e.attempts, cases, REQUIRED_PAIRS, e.model)
    requires e == Report(e.attempts, Sort(cases, ById()), REQUIRED_PAIRS, e.model, bound)
    ensures Integrity(e, cases, bound) <==> e.sampling.complete
  {
    hide Recomputed, CaseRetained, Sort, Pairs, AllCases, InOrder, AllPaired, Aggregate, QualityOf, RowsOf, FailureCounts,
      ToolCallsOf, PerCase, Prompts, Environments, Excluded;
    GeneratedIsPaired(e.attempts, cases, REQUIRED_PAIRS, e.model);
    ReportRecomputed(e.attempts, cases, e.model, bound);
    CompleteCases(e, cases);
    CompleteSampling(e.attempts, cases, Sort(cases, ById()), e.sampling);
  }

  /** The sampling counts say the same as the counts case by case. */
  lemma CompleteSampling(attempts: seq<Attempt>, cases: seq<Case>, sorted: seq<Case>, sampling: Sampling)
    requires multiset(cases) == multiset(sorted)
    requires var pairs := map id | id in Ids(sorted) :: Pairs(Of(attempts, id));
             sampling == Sampling(REQUIRED_PAIRS, forall id :: id in pairs ==> pairs[id] >= REQUIRED_PAIRS, pairs)
    ensures sampling.complete <==> forall id :: id in Ids(cases) ==> Pairs(Of(attempts, id)) >= REQUIRED_PAIRS
    ensures (forall id :: id in Ids(cases) ==> Pairs(Of(attempts, id)) == REQUIRED_PAIRS) <==>
            sampling.perCase == map id | id in Ids(cases) :: REQUIRED_PAIRS
  {
    hide Pairs;
    SameElements(cases, sorted);
    assert Ids(cases) == Ids(sorted);
    assert forall id :: id in Ids(cases) ==> sampling.perCase[id] == Pairs(Of(attempts, id));
  }

  lemma CompleteCases(e: Evidence, cases: seq<Case>)
    requires Generated(e.attempts, cases, REQUIRED_PAIRS, e.model)
    ensures (forall c :: c in cases ==> CaseRetained(Of(e.attempts, c.id), c, e.model)) <==>
            forall id :: id in Ids(cases) ==> Pairs(Of(e.attempts, id)) >= REQUIRED_PAIRS
    ensures forall id :: id in Ids(cases) ==> Pairs(Of(e.attempts, id)) <= REQUIRED_PAIRS
  {
    hide RowIntegrity, ItemRetained, AllItems;
    forall c | c in cases
      ensures CaseRetained(Of(e.attempts, c.id), c, e.model) <==> Pairs(Of(e.attempts, c.id)) >= REQUIRED_PAIRS
      ensures Pairs(Of(e.attempts, c.id)) <= REQUIRED_PAIRS
    {
      assert SampledTest(REQUIRED_PAIRS, e.model)(Of(e.attempts, c.id), c);
      CompleteCase(Of(e.attempts, c.id), c, e.model);
    }
  }

  /** A workflow of any other number of runs is refused: its expected totals are not the protocol's. */
  lemma OtherRunsRefused(e: Evidence, cases: seq<Case>, runs: nat, bound: Bound)
    requires cases != [] && runs != REQUIRED_PAIRS
    requires e == Report(e.attempts, Sort(cases, ById()), runs, e.model, bound)
    ensures !Integrity(e, cases, bound)
  {
    assert e.aggregates.expected == |cases| * runs;
    Unequal(|cases|, runs, REQUIRED_PAIRS);
  }

  lemma Unequal(n: nat, a: nat, b: nat)
    requires n > 0 && a != b
    ensures n * a != n * b
  {
    if a < b {
      assert n * b == n * a + n * (b - a);
    } else {
      assert n * a == n * b + n * (a - b);
    }
  }

  lemma CaseIsPaired(items: seq<Attempt>, c: Case, model: string, a: Attempt)
    requires CaseRetained(items, c, model) && a in items
    ensures Paired(a)
  {
    hide RowIntegrity, ItemRetained;
    var i :| 0 <= i < |items| && items[i] == a;
    ItemAt(items, |items|, i, RetainedTest(c, model));
    RetainedIsPaired(a, i + 1, PairsBefore(items, i) + 1, c, model);
  }

  lemma AcceptedIsPaired(e: Evidence, cases: seq<Case>, bound: Bound)
    requires Integrity(e, cases, bound)
    ensures AllPaired(e.attempts)
  {
    hide Recomputed, CaseRetained, Paired;
    forall a | a in e.attempts ensures Paired(a) {
      var c :| c in cases && c.id == a.caseId;
      assert CaseRetained(Of(e.attempts, c.id), c, e.model);
      FilterMembers(e.attempts, OfCase(c.id));
      CaseIsPaired(Of(e.attempts, c.id), c, e.model, a);
    }
  }

  lemma AcceptedSampling(e: Evidence, cases: seq<Case>, sorted: seq<Case>, bound: Bound)
    requires Integrity(e, cases, bound) && multiset(sorted) == multiset(cases)
    ensures e.sampling.perCase == map id | id in Ids(sorted) :: Pairs(Of(e.attempts, id))
  {
    hide Recomputed, ItemRetained, Pairs;
    SameElements(sorted, cases);
    assert Ids(sorted) == Ids(cases);
    forall id | id in Ids(cases) ensures Pairs(Of(e.attempts, id)) == REQUIRED_PAIRS {
      var c :| c in cases && c.id == id;
      assert CaseRetained(Of(e.attempts, c.id), c, e.model);
    }
  }

  /**
   No figure can be altered: whatever evidence the checker accepts for attempts in order
   has the counts, rows, digests, aggregates, bounds, failures and call figures that the
   runner reports for these attempts.
   */
  lemma AcceptedIsReported(e: Evidence, cases: seq<Case>, bound: Bound)
    requires DistinctCases(cases) && Integrity(e, cases, bound) && InOrder(e.attempts)
    ensures var r := Report(e.attempts, Sort(cases, ById()), REQUIRED_PAIRS, e.model, bound);
            && e.counts == r.counts && multiset(e.results) == multiset(r.results)
            && e.prompts == r.prompts && e.environments == r.environments
            && e.aggregates == r.aggregates && e.quality == r.quality
            && e.failures == r.failures && e.toolCalls == r.toolCalls && e.sampling.perCase == r.sampling.perCase
  {
    hide RowsOf, Pairs, Excluded, PerCase, Aggregate, QualityOf, FailureCounts, ToolCallsOf, Regroup, CaseRetained, InOrder, AllPaired,
      Sort, Prompts, Environments, Ids;
    AcceptedIsPaired(e, cases, bound);
    ReportRecomputed(e.attempts, cases, e.model, bound);
    AcceptedSampling(e, cases, Sort(cases, ById()), bound);
  }

  // ---------------------------------------------------------------- what the evidence says about the attempts

  /** The run of one arm of the attempt succeeded. */
  predicate Won(item: Attempt, arm: Arm) { exists r :: r in item.rows && r.metrics.arm == arm && r.metrics.success }

  /** For each attempt 1 if the candidate alone succeeded, -1 if the baseline alone did, else 0. */
  ghost predicate OutcomesOf(ds: seq<int>, items: seq<Attempt>) {
    && |ds| == |items|
    && forall i :: 0 <= i < |ds| ==>
         && (ds[i] == 1 <==> Won(items[i], Candidate) && !Won(items[i], Baseline))
         && (ds[i] == -1 <==> Won(items[i], Baseline) && !Won(items[i], Candidate))
         && -1 <= ds[i] <= 1
  }

  function Kept(): Attempt -> bool { (a: Attempt) => a.included }

  function KeptOf(id: string): Attempt -> bool { (a: Attempt) => a.included && a.caseId == id }

  function Total(ds: seq<int>): int {
    if ds == [] then 0 else Total(ds[..|ds| - 1]) + ds[|ds| - 1]
  }

  lemma OneOutcome(item: Attempt)
    requires Paired(item)
    ensures OutcomesOf([Difference(CellOf(item).candidate.value, CellOf(item).baseline.value)], [item])
  {
    assert item.rows == [item.rows[0], item.rows[1]];
    forall arm ensures Won(item, arm) <==> (item.rows[0].metrics.arm == arm && item.rows[0].metrics.success)
                                           || (item.rows[1].metrics.arm == arm && item.rows[1].metrics.success) {
      assert item.rows[0] in item.rows && item.rows[1] in item.rows;
    }
  }

  lemma OutcomesAppend(ds: seq<int>, items: seq<Attempt>, more: seq<int>, others: seq<Attempt>)
    requires OutcomesOf(ds, items) && OutcomesOf(more, others)
    ensures OutcomesOf(ds + more, items + others)
  {
  }

  lemma {:induction false} DifferencesAreOutcomes(items: seq<Attempt>, id: string)
    requires AllPaired(items)
    ensures OutcomesOf(DifferencesOf(items, id), Filter(items, KeptOf(id)))
  {
    if items != [] {
      hide OutcomesOf, Paired;
      var n := |items| - 1;
      assert items[n] in items;
      DifferencesAreOutcomes(items[..n], id);
      FilterLast(items, KeptOf(id));
      if items[n].included && items[n].caseId == id {
        OneOutcome(items[n]);
        OutcomesAppend(DifferencesOf(items[..n], id), Filter(items[..n], KeptOf(id)),
                       [Difference(CellOf(items[n]).candidate.value, CellOf(items[n]).baseline.value)], [items[n]]);
      } else {
        assert Filter(items, KeptOf(id)) == Filter(items[..n], KeptOf(id)) + [];
      }
    }
  }

  lemma OneTotal(item: Attempt, id: string)
    requires Paired(item)
    ensures Sum(item.rows, Succeeding(Candidate, Some({id}))) - Sum(item.rows, Succeeding(Baseline, Some({id}))) ==
            if item.caseId == id then Difference(CellOf(item).candidate.value, CellOf(item).baseline.value) else 0
  {
    var r, t := item.rows[0], item.rows[1];
    assert item.rows == [r] + [t] && [r][..0] == [] && [t][..0] == [];
    SumAppend([r], [t], Succeeding(Candidate, Some({id})));
    SumAppend([r], [t], Succeeding(Baseline, Some({id})));
  }

  /** The differences of a case add up to the candidate's successes minus the baseline's. */
  lemma {:induction false} DifferencesAddUp(items: seq<Attempt>, id: string)
    requires AllPaired(items)
    ensures Total(DifferencesOf(items, id)) ==
            Sum(RowsOf(items, false), Succeeding(Candidate, Some({id}))) - Sum(RowsOf(items, false), Succeeding(Baseline, Some({id})))
  {
    if items != [] {
      hide Difference, CellOf, Paired, Succeeding, Sum;
      var n := |items| - 1;
      assert items[n] in items;
      DifferencesAddUp(items[..n], id);
      var ds, rows := DifferencesOf(items[..n], id), RowsOf(items[..n], false);
      OneTotal(items[n], id);
      if items[n].included {
        SumAppend(rows, items[n].rows, Succeeding(Candidate, Some({id})));
        SumAppend(rows, items[n].rows, Succeeding(Baseline, Some({id})));
        if items[n].caseId == id {
          var last := Difference(CellOf(items[n]).candidate.value, CellOf(items[n]).baseline.value);
          assert (ds + [last])[..|ds|] == ds;
        } else {
          assert DifferencesOf(items, id) == ds;
        }
      } else {
        assert DifferencesOf(items, id) == ds && RowsOf(items, false) == rows;
      }
    }
  }

  /**
   The bound of a case is taken of the outcomes of its included attempts, in order; they
   add up to the candidate's correct rows of that case minus the baseline's.
   */
  lemma CaseQuality(attempts: seq<Attempt>, cases: seq<Case>, runs: nat, model: string, bound: Bound, c: Case) returns (ds: seq<int>)
    requires AllPaired(attempts) && InOrder(attempts) && c in cases
    ensures var e := Report(attempts, cases, runs, model, bound);
            && c.id in e.quality.scenarios && c.id in e.aggregates.perCase
            && e.quality.scenarios[c.id] == bound(ds, Some(c.id))
            && OutcomesOf(ds, Filter(attempts, KeptOf(c.id)))
            && Total(ds) == e.aggregates.perCase[c.id].candidate.correct - e.aggregates.perCase[c.id].baseline.correct
  {
    hide Cells, Differences, DifferencesOf, OutcomesOf, Sum, AllPaired, InOrder, Sort, FailureCounts, ToolCallsOf;
    ds := DifferencesOf(attempts, c.id);
    ReportedDifferences(attempts, c.id);
    DifferencesAreOutcomes(attempts, c.id);
    DifferencesAddUp(attempts, c.id);
    var results := Sort(RowsOf(attempts, false), RowLeq());
    SumForgetsOrder(RowsOf(attempts, false), results, Succeeding(Candidate, Some({c.id})));
    SumForgetsOrder(RowsOf(attempts, false), results, Succeeding(Baseline, Some({c.id})));
  }

  // ---------------------------------------------------------------- the aggregate bound

  /** Strictly increasing identifiers. */
  ghost predicate Increasing(ids: seq<string>) {
    forall i, j :: 0 <= i < j < |ids| ==> ids[i] != ids[j] && StringLeq(ids[i], ids[j])
  }

  lemma NoneYet(attempts: seq<Attempt>, last: string)
    requires InOrder(attempts) && attempts != [] && forall a :: a in attempts ==> StringLeq(a.caseId, last)
    requires attempts[|attempts| - 1].caseId != last
    ensures forall a :: a in attempts ==> a.caseId != last
  {
    hide StringLeq;
    var n := |attempts| - 1;
    forall a | a in attempts ensures a.caseId != last {
      var i :| 0 <= i <= n && attempts[i] == a;
      if i < n && a.caseId == last {
        assert AttemptBefore(attempts[i], attempts[n]) && attempts[n] in attempts;
        StringOrder(last, attempts[n].caseId, last);
      }
    }
  }

  /** In a list of attempts in order, those of the greatest case come last. */
  lemma {:induction false} GreatestLast(attempts: seq<Attempt>, last: string)
    requires InOrder(attempts) && forall a :: a in attempts ==> StringLeq(a.caseId, last)
    ensures attempts == Filter(attempts, NotOf(last)) + Of(attempts, last)
  {
    if attempts != [] {
      hide StringLeq, AttemptBefore, Filter;
      var n := |attempts| - 1;
      if attempts[n].caseId != last {
        NoneYet(attempts, last);
        FilterNone(attempts, OfCase(last));
        FilterAll(attempts, NotOf(last));
        assert attempts + [] == attempts;
      } else {
        GreatestLast(attempts[..n], last);
        FilterLast(attempts, NotOf(last));
        FilterLast(attempts, OfCase(last));
        assert attempts == attempts[..n] + [attempts[n]];
        assert Filter(attempts, NotOf(last)) == Filter(attempts[..n], NotOf(last));
      }
    }
  }

  lemma {:induction false} FilterInOrder(attempts: seq<Attempt>, keep: Attempt -> bool)
    requires InOrder(attempts)
    ensures InOrder(Filter(attempts, keep))
  {
    if attempts != [] {
      var n := |attempts| - 1;
      FilterInOrder(attempts[..n], keep);
      FilterLast(attempts, keep);
      FilterMembers(attempts[..n], keep);
      var before := Filter(attempts[..n], keep);
      forall i | 0 <= i < |before| ensures AttemptBefore(before[i], attempts[n]) {
        assert before[i] in attempts[..n];
        var k :| 0 <= k < n && attempts[k] == before[i];
      }
    }
  }

  function AllDifferencesOf(items: seq<Attempt>, ids: seq<string>): seq<int>
    requires AllPaired(items)
  {
    if ids == [] then [] else AllDifferencesOf(items, ids[..|ids| - 1]) + DifferencesOf(items, ids[|ids| - 1])
  }

  lemma {:induction false} DifferencesWithout(items: seq<Attempt>, id: string, other: string)
    requires AllPaired(items) && id != other
    ensures AllPaired(Filter(items, NotOf(other))) && DifferencesOf(Filter(items, NotOf(other)), id) == DifferencesOf(items, id)
  {
    FilterMembers(items, NotOf(other));
    if items != [] {
      var n := |items| - 1;
      DifferencesWithout(items[..n], id, other);
      FilterLast(items, NotOf(other));
      var rest := Filter(items[..n], NotOf(other));
      if items[n].caseId != other {
        assert (rest + [items[n]])[..|rest|] == rest;
      } else {
        assert Filter(items, NotOf(other)) == rest;
      }
    }
  }

  lemma {:induction false} AllDifferencesWithout(items: seq<Attempt>, ids: seq<string>, other: string)
    requires AllPaired(items) && other !in ids
    ensures AllPaired(Filter(items, NotOf(other))) && AllDifferencesOf(Filter(items, NotOf(other)), ids) == AllDifferencesOf(items, ids)
  {
    FilterMembers(items, NotOf(other));
    if ids != [] {
      AllDifferencesWithout(items, ids[..|ids| - 1], other);
      DifferencesWithout(items, ids[|ids| - 1], other);
    }
  }

  lemma {:induction false} KeptOfCase(items: seq<Attempt>, id: string)
    ensures Filter(Of(items, id), Kept()) == Filter(items, KeptOf(id))
  {
    if items != [] {
      KeptOfCase(items[1..], id);
      if items[0].caseId == id {
        assert ([items[0]] + Of(items[1..], id))[1..] == Of(items[1..], id);
      } else {
        assert Of(items, id) == Of(items[1..], id);
      }
    }
  }

  lemma UpToLast(attempts: seq<Attempt>, ids: seq<string>)
    requires Increasing(ids) && ids != [] && forall a :: a in attempts ==> a.caseId in ids
    ensures var init, last := ids[..|ids| - 1], ids[|ids| - 1];
            && Increasing(init) && last !in init
            && forall a :: a in attempts ==> StringLeq(a.caseId, last) && (a.caseId != last ==> a.caseId in init)
  {
    hide StringLeq;
    var init, last := ids[..|ids| - 1], ids[|ids| - 1];
    StringOrder(last, last, last);
    forall a | a in attempts ensures StringLeq(a.caseId, last) && (a.caseId != last ==> a.caseId in init) {
      var i :| 0 <= i < |ids| && ids[i] == a.caseId;
      assert i < |init| ==> init[i] == ids[i];
    }
  }

  /** Case by case in the order of the identifiers is attempt by attempt in their own order. */
  lemma {:induction false} AllOutcomes(attempts: seq<Attempt>, ids: seq<string>)
    requires AllPaired(attempts) && InOrder(attempts) && Increasing(ids) && forall a :: a in attempts ==> a.caseId in ids
    ensures OutcomesOf(AllDifferencesOf(attempts, ids), Filter(attempts, Kept()))
    decreases |ids|
  {
    if ids == [] {
      assert attempts != [] ==> attempts[0] in attempts;
    } else {
      hide OutcomesOf, DifferencesOf, Paired, InOrder, Filter, StringLeq, Increasing;
      var init, last := ids[..|ids| - 1], ids[|ids| - 1];
      var rest := Filter(attempts, NotOf(last));
      FilterMembers(attempts, NotOf(last));
      UpToLast(attempts, ids);
      GreatestLast(attempts, last);
      FilterInOrder(attempts, NotOf(last));
      AllOutcomes(rest, init);
      AllDifferencesWithout(attempts, init, last);
      DifferencesAreOutcomes(attempts, last);
      KeptOfCase(attempts, last);
      FilterAppend(rest, Of(attempts, last), Kept());
      OutcomesAppend(AllDifferencesOf(attempts, init), Filter(rest, Kept()), DifferencesOf(attempts, last), Filter(attempts, KeptOf(last)));
    }
  }

  lemma {:induction false} AllReported(attempts: seq<Attempt>, cells: seq<Cell>, ids: seq<string>)
    requires AllPaired(attempts) && forall id :: Differences(cells, id) == DifferencesOf(attempts, id)
    ensures AllDifferences(cells, ids) == AllDifferencesOf(attempts, ids)
  {
    if ids != [] {
      AllReported(attempts, cells, ids[..|ids| - 1]);
    }
  }

  lemma {:induction false} IdListOf(cases: seq<Case>)
    ensures |IdList(cases)| == |cases| && forall i :: 0 <= i < |cases| ==> IdList(cases)[i] == cases[i].id
  {
    if cases != [] {
      IdListOf(cases[1..]);
    }
  }

  lemma SortedIdsIncrease(cases: seq<Case>)
    requires DistinctCases(cases)
    ensures Increasing(SortedIds(cases)) && forall id :: id in SortedIds(cases) <==> id in Ids(cases)
  {
    var ids := IdList(cases);
    IdListOf(cases);
    forall x: string, y: string ensures StringLeq(x, y) || StringLeq(y, x) {
      StringOrder(x, y, "");
    }
    forall x: string, y: string, z: string | StringLeq(x, y) && StringLeq(y, z) ensures StringLeq(x, z) {
      StringOrder(x, y, z);
    }
    SortSorted(ids, StringLeq);
    DistinctByCount(ids, SortedIds(cases));
    SameElements(ids, SortedIds(cases));
    forall id ensures id in ids <==> id in Ids(cases) {
      if id in ids {
        var i :| 0 <= i < |ids| && ids[i] == id;
        assert cases[i] in cases;
      }
      if id in Ids(cases) {
        var c :| c in cases && c.id == id;
        var i :| 0 <= i < |cases| && cases[i] == c;
        assert ids[i] == id;
      }
    }
  }

  /** The aggregate bound is taken of the outcomes of all included attempts, in order. */
  lemma AggregateQuality(attempts: seq<Attempt>, cases: seq<Case>, runs: nat, model: string, bound: Bound) returns (ds: seq<int>)
    requires AllPaired(attempts) && InOrder(attempts) && DistinctCases(cases)
    requires forall a :: a in attempts ==> a.caseId in Ids(cases)
    ensures Report(attempts, cases, runs, model, bound).quality.aggregate == bound(ds, None)
    ensures OutcomesOf(ds, Filter(attempts, Kept()))
  {
    hide Cells, Differences, DifferencesOf, OutcomesOf, AllPaired, InOrder, Sort, Aggregate, FailureCounts, ToolCallsOf, SortedIds, AllDifferences;
    ds := AllDifferencesOf(attempts, SortedIds(cases));
    SortedIdsIncrease(cases);
    forall id {
      ReportedDifferences(attempts, id);
    }
    AllReported(attempts, Cells(Sort(RowsOf(attempts, false), RowLeq())), SortedIds(cases));
    AllOutcomes(attempts, SortedIds(cases));
  }

  // ---------------------------------------------------------------- what the checker demands of an attempt

  /** A row of an attempt: its place in the sampling, and the scoring of a run of its arm. */
  ghost predicate RowSays(r: Row, arm: Arm, number: nat, run: nat, excluded: bool, c: Case, model: string) {
    && r.metrics.arm == arm && r.metrics.caseId == c.id && r.metrics.metadata == MetadataOf(c, arm, model)
    && r.attempt == number && r.run == run && r.included == !excluded
    && r.reason == (if excluded then Some(FailedTransport) else None)
    && Plausible(r.metrics)
    && r.metrics == RunMetrics(c, arm, model, Run(r.metrics.trace, r.metrics.result, r.metrics.status, 1), r.metrics.observed)
  }

  /**
   What a retained attempt looks like: two rows that are scorings, the baseline's first at
   odd numbers, excluded if and only if one of them is a failed transport.
   */
  lemma RetainedMeaning(item: Attempt, number: nat, run: nat, c: Case, model: string)
    ensures ItemRetained(item, number, run, c, model) <==>
            && item.caseId == c.id && item.attempt == number && |item.rows| == 2
            && item.order == (if number % 2 == 1 then [Baseline, Candidate] else [Candidate, Baseline])
            && var excluded := item.rows[0].metrics.status == FailedTransport || item.rows[1].metrics.status == FailedTransport;
               && item.included == !excluded && item.reason == (if excluded then Some(FailedTransport) else None)
               && RowSays(item.rows[0], if number % 2 == 1 then Baseline else Candidate, number, run, excluded, c, model)
               && RowSays(item.rows[1], if number % 2 == 1 then Candidate else Baseline, number, run, excluded, c, model)
  {
    hide RowIntegrity, RunMetrics, Plausible;
    if |item.rows| == 2 {
      assert item.rows == [item.rows[0], item.rows[1]] && item.rows[0] in item.rows && item.rows[1] in item.rows;
      forall k | 0 <= k < 2 && item.rows[k].metrics.caseId == c.id
                 && item.rows[k].metrics.metadata == MetadataOf(c, item.rows[k].metrics.arm, model)
        ensures var m := item.rows[k].metrics;
                RowIntegrity(m, c) <==> Plausible(m) && m == RunMetrics(c, m.arm, model, Run(m.trace, m.result, m.status, 1), m.observed)
      {
        PassingRowsAreScored(item.rows[k].metrics, c, model);
      }
    }
  }

  /** A candidate never mistakes the seeds; a baseline does exactly when the last ones it asked with are not those on offer. */
  lemma SeedMistakes(c: Case, model: string, run: Run, observed: seq<seq<string>>)
    ensures RunMetrics(c, Candidate, model, run, SeedsSeen(c, Candidate, observed)).seedMistakes == 0
    ensures RunMetrics(c, Baseline, model, run, SeedsSeen(c, Baseline, observed)).seedMistakes == 1 <==>
            Seeds(c) != [] && (observed == [] || observed[|observed| - 1] != Seeds(c))
  {
  }

  /** The evidence names exactly the prompts and environments of its rows, and lists the attempts' rows. */
  lemma EvidenceNames(attempts: seq<Attempt>, cases: seq<Case>, runs: nat, model: string, bound: Bound, digest: Digest)
    ensures var e := Report(attempts, cases, runs, model, bound);
            && e.model == model && e.attempts == attempts
            && (digest in e.prompts <==> exists i :: 0 <= i < |e.results| && e.results[i].metrics.metadata.prompt == digest)
            && (digest in e.environments <==> exists i :: 0 <= i < |e.results| && e.results[i].metrics.metadata.environment == digest)
            && e.aggregates == Aggregate(e.results, cases, runs)
            && multiset(e.results) == multiset(RowsOf(attempts, false))
  {
    hide Aggregate, QualityOf, FailureCounts, ToolCallsOf, RowsOf, Sort, Pairs, Excluded, PerCase;
    var e := Report(attempts, cases, runs, model, bound);
    if r :| r in e.results && r.metrics.metadata.prompt == digest {
      var i :| 0 <= i < |e.results| && e.results[i] == r;
    }
    if r :| r in e.results && r.metrics.metadata.environment == digest {
      var i :| 0 <= i < |e.results| && e.results[i] == r;
    }
    assert forall i :: 0 <= i < |e.results| ==> e.results[i] in e.results;
  }

  // ---------------------------------------------------------------- counts and calls

  function Lost(): Attempt -> bool { (a: Attempt) => !a.included }

  /** The tool calls of one arm over some attempts. */
  function CallsIn(items: seq<Attempt>, arm: Arm): nat {
    if items == [] then 0 else CallsAmong(items[0].rows, OfArm(arm, None)) + CallsIn(items[1..], arm)
  }

  lemma {:induction false} CallsInAppend(a: seq<Attempt>, b: seq<Attempt>, arm: Arm)
    ensures CallsIn(a + b, arm) == CallsIn(a, arm) + CallsIn(b, arm)
  {
    if a == [] {
      assert a + b == b;
    } else {
      assert (a + b)[1..] == a[1..] + b;
      CallsInAppend(a[1..], b, arm);
    }
  }

  lemma OneAttempt(item: Attempt, arm: Arm)
    ensures VisibleCalls(item.rows, arm) == CallsIn([item], arm)
  {
    SumOfCalls(item.rows, Calling(arm, None), OfArm(arm, None));
    assert [item][1..] == [] && CallsIn([], arm) == 0;
  }

  lemma {:induction false} CallsCounted(items: seq<Attempt>, arm: Arm)
    ensures CallsOf(items, arm, true) == CallsIn(Filter(items, Kept()), arm)
    ensures CallsOf(items, arm, false) == CallsIn(Filter(items, Lost()), arm)
    ensures Pairs(items) == |Filter(items, Kept())| && Excluded(items) == |Filter(items, Lost())|
  {
    if items != [] {
      hide CallsIn, VisibleCalls, Filter;
      var n := |items| - 1;
      CallsCounted(items[..n], arm);
      FilterLast(items, Kept());
      FilterLast(items, Lost());
      SamePairsBefore(items[..n], items, n);
      CallsInAppend(Filter(items[..n], Kept()), [items[n]], arm);
      CallsInAppend(Filter(items[..n], Lost()), [items[n]], arm);
      OneAttempt(items[n], arm);
      if items[n].included {
        assert Filter(items, Lost()) == Filter(items[..n], Lost());
      } else {
        assert Filter(items, Kept()) == Filter(items[..n], Kept());
      }
    }
  }

  /** The call figures: totals and means of each arm, over the included and over the excluded attempts. */
  lemma ToolCallsMeaning(items: seq<Attempt>)
    ensures var calls := ToolCallsOf(items);
            var kept, lost := Filter(items, Kept()), Filter(items, Lost());
            && calls.excluded == |lost|
            && calls.excludedCandidate == CallsIn(lost, Candidate) && calls.excludedBaseline == CallsIn(lost, Baseline)
            && (kept != [] ==>
                  && calls.candidateMean * |kept| as real == CallsIn(kept, Candidate) as real
                  && calls.baselineMean * |kept| as real == CallsIn(kept, Baseline) as real
                  && calls.meanDifference * |kept| as real == CallsIn(kept, Candidate) as real - CallsIn(kept, Baseline) as real)
            && (lost != [] ==>
                  && calls.excludedCandidateMean * |lost| as real == CallsIn(lost, Candidate) as real
                  && calls.excludedBaselineMean * |lost| as real == CallsIn(lost, Baseline) as real)
  {
    hide CallsOf, CallsIn, Pairs, Excluded, Ratio, Filter;
    var kept, lost := Filter(items, Kept()), Filter(items, Lost());
    CallsCounted(items, Candidate);
    CallsCounted(items, Baseline);
    RatioTimes(CallsIn(kept, Candidate), |kept|);
    RatioTimes(CallsIn(kept, Baseline), |kept|);
    RatioTimes(CallsIn(kept, Candidate) - CallsIn(kept, Baseline), |kept|);
    RatioTimes(CallsIn(lost, Candidate), |lost|);
    RatioTimes(CallsIn(lost, Baseline), |lost|);
  }

  /** The counts of the evidence, over all attempts and case by case. */
  lemma CountsMeaning(attempts: seq<Attempt>, cases: seq<Case>, runs: nat, model: string, bound: Bound, id: string)
    ensures var e := Report(attempts, cases, runs, model, bound);
            var mine := Filter(attempts, (a: Attempt) => a.caseId == id);
            && e.counts.total == |attempts|
            && e.counts.included == |Filter(attempts, Kept())|
            && e.counts.excluded == e.counts.excludedByTransport == |Filter(attempts, Lost())|
            && (id in e.counts.perCase <==> exists c :: c in cases && c.id == id)
            && (id in e.counts.perCase ==>
                  e.counts.perCase[id] == CaseCounts(|mine|, |Filter(mine, Kept())|, |Filter(mine, Lost())|))
            && (id in e.sampling.perCase <==> id in e.counts.perCase)
            && (id in e.sampling.perCase ==> e.sampling.perCase[id] == |Filter(mine, Kept())|)
            && e.sampling.required == runs
            && (e.sampling.complete <==> forall i :: i in e.sampling.perCase ==> e.sampling.perCase[i] >= runs)
  {
    hide Pairs, Excluded, Aggregate, QualityOf, FailureCounts, ToolCallsOf, RowsOf, Sort;
    CallsCounted(attempts, Candidate);
    CallsCounted(Of(attempts, id), Candidate);
    FilterSame(attempts, OfCase(id), (a: Attempt) => a.caseId == id);
  }

  // ---------------------------------------------------------------- the checker's loops

  method CheckCase(items: seq<Attempt>, c: Case, model: string) returns (ok: bool)
    ensures ok <==> CaseRetained(items, c, model)
  {
    hide ItemRetained;
    if !(REQUIRED_PAIRS <= |items| <= MAX_ATTEMPTS) {
      return false;
    }
    var included := 0;
    for n := 0 to |items|
      invariant included == PairsBefore(items, n) && AllItems(items, n, RetainedTest(c, model))
      invariant forall k :: 0 < k <= n && k < |items| ==> !(items[k - 1].included && PairsBefore(items, k) == REQUIRED_PAIRS)
    {
      if !ItemRetained(items[n], n + 1, included + 1, c, model) {
        NotAllItems(items, n, |items|, RetainedTest(c, model));
        return false;
      }
      if items[n].included {
        included := included + 1;
        if included == REQUIRED_PAIRS && n + 1 < |items| {
          assert items[n + 1 - 1].included && PairsBefore(items, n + 1) == REQUIRED_PAIRS;
          return false;
        }
      }
    }
    ok := included == REQUIRED_PAIRS;
  }

  lemma {:induction false} NotAllItems(items: seq<Attempt>, i: nat, n: nat, test: ItemTest)
    requires i < n <= |items| && !test(items[i], i + 1, PairsBefore(items, i) + 1)
    ensures !AllItems(items, n, test)
  {
    if i < n - 1 {
      NotAllItems(items, i, n - 1, test);
    }
  }

  method GroupByCase(attempts: seq<Attempt>, cases: seq<Case>) returns (byCase: Option<map<string, seq<Attempt>>>)
    ensures byCase.Some? <==> forall a :: a in attempts ==> a.caseId in Ids(cases)
    ensures byCase.Some? ==> forall id :: Of(attempts, id) == if id in byCase.value then byCase.value[id] else []
  {
    var groups: map<string, seq<Attempt>> := map[];
    for i := 0 to |attempts|
      invariant forall a :: a in attempts[..i] ==> a.caseId in Ids(cases)
      invariant forall id :: Of(attempts[..i], id) == if id in groups then groups[id] else []
    {
      var item := attempts[i];
      assert item in attempts;
      if item.caseId !in Ids(cases) {
        return None;
      }
      assert attempts[..i + 1] == attempts[..i] + [item];
      forall id ensures Of(attempts[..i + 1], id) == Of(attempts[..i], id) + if item.caseId == id then [item] else [] {
        FilterAppend(attempts[..i], [item], OfCase(id));
      }
      groups := groups[item.caseId := (if item.caseId in groups then groups[item.caseId] else []) + [item]];
    }
    assert attempts[..|attempts|] == attempts;
    byCase := Some(groups);
  }

  /** `_retained_integrity`. */
  method CheckRetained(e: Evidence, cases: seq<Case>, bound: Bound) returns (ok: bool)
    ensures ok <==> Integrity(e, cases, bound)
  {
    hide Recomputed, CaseRetained;
    var byCase := GroupByCase(e.attempts, cases);
    if byCase.None? {
      return false;
    }
    for n := 0 to |cases|
      invariant forall c :: c in cases[..n] ==> CaseRetained(Of(e.attempts, c.id), c, e.model)
    {
      assert cases[..n + 1] == cases[..n] + [cases[n]] && cases[n] in cases;
      var items := if cases[n].id in byCase.value then byCase.value[cases[n].id] else [];
      var retained := CheckCase(items, cases[n], e.model);
      if !retained {
        return false;
      }
    }
    assert cases[..|cases|] == cases;
    ok := e.sampling.perCase == (map id | id in Ids(cases) :: REQUIRED_PAIRS) && Recomputed(e, cases, bound);
  }

  /** Evidence without any sampling. */
  function Blocked(runs: nat, model: string, bound: Bound): Evidence {
    Report([], [], runs, model, bound).(sampling := Sampling(runs, false, map[]))
  }

  /** `build_evidence`, and the verdict on what was retained: accepted exactly when a full protocol run completed. */
  method Evaluate(cases: seq<Case>, runs: nat, model: string, preflight: bool, trials: Trials, bound: Bound)
    returns (e: Evidence, accepted: bool)
    requires DistinctCases(cases) && cases != []
    ensures accepted <==> model != "" && preflight && runs == 20 && e.sampling.complete
    ensures model == "" || !preflight ==> e.attempts == [] && !e.sampling.complete
  {
    hide Integrity, Generated;
    if model == "" || !preflight {
      e := Blocked(runs, model, bound);
      NothingRetained(e, cases, bound);
    } else {
      e := RunWorkflow(cases, runs, model, trials, bound);
      if runs == REQUIRED_PAIRS {
        CheckerAcceptsComplete(e, cases, bound);
      } else {
        OtherRunsRefused(e, cases, runs, bound);
      }
    }
    accepted := CheckRetained(e, cases, bound);
  }

  lemma NothingRetained(e: Evidence, cases: seq<Case>, bound: Bound)
    requires e.attempts == [] && cases != []
    ensures !Integrity(e, cases, bound)
  {
    assert Of([], cases[0].id) == [] && cases[0] in cases;
    assert !CaseRetained([], cases[0], e.model);
  }
}
