/** The specification projection of one domain: a canonical form of its pages and evidence. */
module Projection {
  import opened Options
  import opened Sorting

  type Slug = string
  type ScenarioId = string
  type Digest = string

  datatype PageSnapshot = PageSnapshot(slug: Slug, markdown: string, revision: Option<string>)

  datatype PhaseItem = PhaseItem(phase: string, role: string, name: string)

  datatype SpecBinding = SpecBinding(
    id: string, relation: string, phase: Option<string>, selectorKind: string, selector: string)

  datatype Scenario = Scenario(
    domain: string, id: ScenarioId, title: string, slug: Slug, heading: string, anchor: string,
    sourceHash: Digest, items: seq<PhaseItem>, bindings: seq<SpecBinding>)

  datatype Location = Location(slug: Slug, heading: string, anchor: string)

  datatype Finding = Finding(
    kind: string, slug: Option<Slug>, heading: Option<string>, scenarioId: Option<ScenarioId>,
    reason: Option<string>, missing: seq<string>, locations: seq<Location>)

  datatype Parsed = Parsed(scenarios: seq<Scenario>, findings: seq<Finding>)

  /** The page grammar, which this module does not look into. */
  datatype Parser = Parser(isSpecification: string -> bool, parse: (Slug, string) -> Parsed)

  datatype ScenarioRecord = ScenarioRecord(
    domain: string, id: ScenarioId, title: string, slug: Slug, heading: string, anchor: string,
    sourceHash: Digest, items: seq<PhaseItem>, pageRevision: Option<string>)

  datatype BindingRecord = BindingRecord(
    id: string, domain: string, scenarioId: ScenarioId, relation: string,
    phase: Option<string>, selectorKind: string, selector: string)
  {
    function Key(): Key { (domain, scenarioId, id) }
  }

  type Key = (string, ScenarioId, string)

  datatype Resolution = Resolved | Ambiguous | Unresolved | GraphUnavailable

  datatype Attempt = Attempt(
    bindingId: string, domain: string, scenarioId: ScenarioId, state: Resolution, targets: seq<string>,
    unresolvedReference: Option<string>, graphRevision: Option<string>, graphStateFingerprint: GraphState,
    sourceHash: Digest, checkedAt: string, reason: Option<string>)
  {
    function Key(): Key { (domain, scenarioId, bindingId) }
  }

  /** A graph status reduced to its public fields; its fingerprint is an injective digest of them. */
  datatype GraphState = GraphState(state: string, reason: Option<string>, revision: Option<string>)

  datatype Revision = Supplied(revision: string) | DigestOf(pages: seq<PageSnapshot>)

  datatype DomainProjection = DomainProjection(
    domain: string, markdownRevision: Revision, scenarios: seq<ScenarioRecord>,
    bindings: seq<BindingRecord>, evidence: seq<Attempt>, findings: seq<Finding>)

  // ---------------------------------------------------------------- orders

  predicate SlugLeq(a: PageSnapshot, b: PageSnapshot) { StringLeq(a.slug, b.slug) }

  /** Tuples of strings, compared component by component. */
  predicate TupleLeq(a: seq<string>, b: seq<string>) {
    a == [] || (b != [] && if a[0] == b[0] then TupleLeq(a[1..], b[1..]) else StringLeq(a[0], b[0]))
  }

  predicate ScenarioLeq(a: ScenarioRecord, b: ScenarioRecord) {
    TupleLeq([a.domain, a.id, a.slug, a.heading], [b.domain, b.id, b.slug, b.heading])
  }

  predicate BindingLeq(a: BindingRecord, b: BindingRecord) {
    TupleLeq([a.domain, a.scenarioId, a.id], [b.domain, b.scenarioId, b.id])
  }

  predicate AttemptLeq(a: Attempt, b: Attempt) {
    TupleLeq([a.domain, a.scenarioId, a.bindingId, a.checkedAt], [b.domain, b.scenarioId, b.bindingId, b.checkedAt])
  }

  predicate LocationLeq(a: Location, b: Location) {
    TupleLeq([a.slug, a.heading, a.anchor], [b.slug, b.heading, b.anchor])
  }

  function OrEmpty(s: Option<string>): string { if s.Some? then s.value else "" }

  predicate LocationsLeq(a: seq<Location>, b: seq<Location>) {
    a == [] || (b != [] && if a[0] == b[0] then LocationsLeq(a[1..], b[1..]) else LocationLeq(a[0], b[0]))
  }

  predicate FindingLeq(a: Finding, b: Finding) {
    var x := [a.kind, OrEmpty(a.scenarioId), OrEmpty(a.slug), OrEmpty(a.heading), OrEmpty(a.reason)];
    var y := [b.kind, OrEmpty(b.scenarioId), OrEmpty(b.slug), OrEmpty(b.heading), OrEmpty(b.reason)];
    if x != y then TupleLeq(x, y)
    else if a.missing != b.missing then TupleLeq(a.missing, b.missing)
    else LocationsLeq(a.locations, b.locations)
  }

  lemma {:induction false} TupleOrder(a: seq<string>, b: seq<string>, c: seq<string>)
    ensures TupleLeq(a, b) || TupleLeq(b, a)
    ensures TupleLeq(a, b) && TupleLeq(b, a) ==> a == b
    ensures TupleLeq(a, b) && TupleLeq(b, c) ==> TupleLeq(a, c)
    decreases |a|
  {
    if a != [] && b != [] {
      var c0 := if c == [] then "" else c[0];
      var cs := if c == [] then [] else c[1..];
      StringOrder(a[0], b[0], c0);
      StringOrder(b[0], c0, a[0]);
      TupleOrder(a[1..], b[1..], cs);
      assert a == [a[0]] + a[1..] && b == [b[0]] + b[1..];
    }
  }

  // ---------------------------------------------------------------- the projection, declaratively

  /** A parsed scenario with the revision of its page. */
  datatype Dated = Dated(scenario: Scenario, revision: Option<string>)

  function DatedOf(parsed: Parsed, page: PageSnapshot): seq<Dated> {
    seq(|parsed.scenarios|, i requires 0 <= i < |parsed.scenarios| => Dated(parsed.scenarios[i], page.revision))
  }

  function ParsedScenarios(parser: Parser, pages: seq<PageSnapshot>): seq<Dated> {
    if pages == [] then []
    else
      var page := pages[|pages| - 1];
      ParsedScenarios(parser, pages[..|pages| - 1])
      + (if parser.isSpecification(page.markdown) then DatedOf(parser.parse(page.slug, page.markdown), page) else [])
  }

  function ParserFindings(parser: Parser, pages: seq<PageSnapshot>): seq<Finding> {
    if pages == [] then []
    else
      var page := pages[|pages| - 1];
      ParserFindings(parser, pages[..|pages| - 1])
      + (if parser.isSpecification(page.markdown) then parser.parse(page.slug, page.markdown).findings else [])
  }

  function OrElse(s: Option<string>, default: string): string { if OrEmpty(s) != "" then OrEmpty(s) else default }

  /** The scenarios of one page whose bindings the parser found incomplete. */
  function IncompleteIn(findings: seq<Finding>, page: PageSnapshot): set<(ScenarioId, Slug, string)> {
    set f | f in findings && f.kind == "incomplete_bindings" && OrEmpty(f.scenarioId) != "" ::
      (OrEmpty(f.scenarioId), OrElse(f.slug, page.slug), OrEmpty(f.heading))
  }

  function Incomplete(parser: Parser, pages: seq<PageSnapshot>): set<(ScenarioId, Slug, string)> {
    if pages == [] then {}
    else
      var page := pages[|pages| - 1];
      Incomplete(parser, pages[..|pages| - 1])
      + (if parser.isSpecification(page.markdown) then IncompleteIn(parser.parse(page.slug, page.markdown).findings, page) else {})
  }

  /** The occurrences of one id, in page order. */
  function WithId(all: seq<Dated>, id: ScenarioId): seq<Dated> { Filter(all, (d: Dated) => d.scenario.id == id) }

  predicate Unique(all: seq<Dated>, id: ScenarioId) { |WithId(all, id)| == 1 }

  /** The ids, each at its first occurrence. */
  function Ids(all: seq<Dated>): seq<ScenarioId> {
    if all == [] then []
    else
      var init, id := Ids(all[..|all| - 1]), all[|all| - 1].scenario.id;
      if id in init then init else init + [id]
  }

  function LocationsOf(ds: seq<Dated>): seq<Location> {
    seq(|ds|, i requires 0 <= i < |ds| => Location(ds[i].scenario.slug, ds[i].scenario.heading, ds[i].scenario.anchor))
  }

  function DuplicateFinding(all: seq<Dated>, id: ScenarioId): Finding {
    Finding("duplicate_scenario_id", None, None, Some(id), None, [], Sort(LocationsOf(WithId(all, id)), LocationLeq))
  }

  /** One finding for each of `ids` that occurs more than once. */
  function DuplicateFindings(all: seq<Dated>, ids: seq<ScenarioId>): seq<Finding> {
    if ids == [] then []
    else
      DuplicateFindings(all, ids[..|ids| - 1])
      + (if Unique(all, ids[|ids| - 1]) then [] else [DuplicateFinding(all, ids[|ids| - 1])])
  }

  predicate Keeps(all: seq<Dated>, incomplete: set<(ScenarioId, Slug, string)>, d: Dated) {
    Unique(all, d.scenario.id) && (d.scenario.id, d.scenario.slug, d.scenario.heading) !in incomplete
  }

  function ToRecord(d: Dated): ScenarioRecord {
    ScenarioRecord(d.scenario.domain, d.scenario.id, d.scenario.title, d.scenario.slug, d.scenario.heading,
                   d.scenario.anchor, d.scenario.sourceHash, d.scenario.items, d.revision)
  }

  function ToBindings(d: Dated): seq<BindingRecord> {
    var bs := d.scenario.bindings;
    seq(|bs|, i requires 0 <= i < |bs| =>
      BindingRecord(bs[i].id, d.scenario.domain, d.scenario.id, bs[i].relation, bs[i].phase, bs[i].selectorKind, bs[i].selector))
  }

  function KeptScenarios(all: seq<Dated>, incomplete: set<(ScenarioId, Slug, string)>, part: seq<Dated>): seq<ScenarioRecord> {
    if part == [] then []
    else
      KeptScenarios(all, incomplete, part[..|part| - 1])
      + (if Keeps(all, incomplete, part[|part| - 1]) then [ToRecord(part[|part| - 1])] else [])
  }

  function KeptBindings(all: seq<Dated>, incomplete: set<(ScenarioId, Slug, string)>, part: seq<Dated>): seq<BindingRecord> {
    if part == [] then []
    else
      KeptBindings(all, incomplete, part[..|part| - 1])
      + (if Keeps(all, incomplete, part[|part| - 1]) then ToBindings(part[|part| - 1]) else [])
  }

  /** The source hash of each kept scenario; a later one would win. */
  function Hashes(scenarios: seq<ScenarioRecord>): map<(string, ScenarioId), Digest> {
    if scenarios == [] then map[]
    else
      var s := scenarios[|scenarios| - 1];
      Hashes(scenarios[..|scenarios| - 1])[(s.domain, s.id) := s.sourceHash]
  }

  function BindingKeys(bindings: seq<BindingRecord>): set<Key> { set b | b in bindings :: b.Key() }

  /** Evidence still says something: its binding is kept and the scenario's source is unchanged. */
  predicate Eligible(hashes: map<(string, ScenarioId), Digest>, keys: set<Key>, a: Attempt) {
    a.Key() in keys && Lookup(hashes, (a.domain, a.scenarioId)) == Some(a.sourceHash)
  }

  predicate Later(a: Attempt, b: Attempt) { StringLeq(b.checkedAt, a.checkedAt) && a.checkedAt != b.checkedAt }

  /** An insertion-ordered dictionary from key to latest attempt, updated by one attempt. */
  function Note(latest: seq<Attempt>, a: Attempt): seq<Attempt> {
    if latest == [] then [a]
    else if latest[0].Key() == a.Key() then
      if Later(a, latest[0]) then [a] + latest[1..] else latest
    else [latest[0]] + Note(latest[1..], a)
  }

  function Latest(hashes: map<(string, ScenarioId), Digest>, keys: set<Key>, previous: seq<Attempt>): seq<Attempt> {
    if previous == [] then []
    else
      var latest, a := Latest(hashes, keys, previous[..|previous| - 1]), previous[|previous| - 1];
      if Eligible(hashes, keys, a) then Note(latest, a) else latest
  }

  /** The projection of pages that are already in slug order. */
  function ProjectOrdered(parser: Parser, domain: string, ordered: seq<PageSnapshot>, previous: seq<Attempt>, supplied: Option<string>): DomainProjection {
    var all := ParsedScenarios(parser, ordered);
    var incomplete := Incomplete(parser, ordered);
    var scenarios := Sort(KeptScenarios(all, incomplete, all), ScenarioLeq);
    var bindings := Sort(KeptBindings(all, incomplete, all), BindingLeq);
    DomainProjection(
      domain,
      if supplied.Some? then Supplied(supplied.value) else DigestOf(ordered),
      scenarios,
      bindings,
      Sort(Latest(Hashes(scenarios), BindingKeys(bindings), previous), AttemptLeq),
      Sort(ParserFindings(parser, ordered) + DuplicateFindings(all, Sort(Ids(all), StringLeq)), FindingLeq))
  }

  function Project(parser: Parser, domain: string, pages: seq<PageSnapshot>, previous: seq<Attempt>, supplied: Option<string>): DomainProjection {
    ProjectOrdered(parser, domain, Sort(pages, SlugLeq), previous, supplied)
  }

  // ---------------------------------------------------------------- the projection, as the loops compute it

  method ParsePages(parser: Parser, ordered: seq<PageSnapshot>)
    returns (all: seq<Dated>, findings: seq<Finding>, incomplete: set<(ScenarioId, Slug, string)>)
    ensures all == ParsedScenarios(parser, ordered)
    ensures findings == ParserFindings(parser, ordered)
    ensures incomplete == Incomplete(parser, ordered)
  {
    all, findings, incomplete := [], [], {};
    for i := 0 to |ordered|
      invariant all == ParsedScenarios(parser, ordered[..i])
      invariant findings == ParserFindings(parser, ordered[..i])
      invariant incomplete == Incomplete(parser, ordered[..i])
    {
      var page := ordered[i];
      assert ordered[..i + 1][..i] == ordered[..i];
      if parser.isSpecification(page.markdown) {
        var parsed := parser.parse(page.slug, page.markdown);
        findings := findings + parsed.findings;
        incomplete := incomplete + IncompleteIn(parsed.findings, page);
        all := all + DatedOf(parsed, page);
      }
    }
    assert ordered[..|ordered|] == ordered;
  }

  method ReportDuplicates(all: seq<Dated>, ids: seq<ScenarioId>) returns (findings: seq<Finding>)
    ensures findings == DuplicateFindings(all, ids)
  {
    hide DuplicateFinding, Unique;
    findings := [];
    for i := 0 to |ids|
      invariant findings == DuplicateFindings(all, ids[..i])
    {
      assert ids[..i + 1][..i] == ids[..i];
      if !Unique(all, ids[i]) {
        findings := findings + [DuplicateFinding(all, ids[i])];
      }
    }
    assert ids[..|ids|] == ids;
  }

  method KeepScenarios(all: seq<Dated>, incomplete: set<(ScenarioId, Slug, string)>)
    returns (scenarios: seq<ScenarioRecord>, bindings: seq<BindingRecord>)
    ensures scenarios == KeptScenarios(all, incomplete, all)
    ensures bindings == KeptBindings(all, incomplete, all)
  {
    scenarios, bindings := [], [];
    for i := 0 to |all|
      invariant scenarios == KeptScenarios(all, incomplete, all[..i])
      invariant bindings == KeptBindings(all, incomplete, all[..i])
    {
      assert all[..i + 1][..i] == all[..i];
      if Keeps(all, incomplete, all[i]) {
        scenarios := scenarios + [ToRecord(all[i])];
        bindings := bindings + ToBindings(all[i]);
      }
    }
    assert all[..|all|] == all;
  }

  method KeepLatest(hashes: map<(string, ScenarioId), Digest>, keys: set<Key>, previous: seq<Attempt>) returns (latest: seq<Attempt>)
    ensures latest == Latest(hashes, keys, previous)
  {
    latest := [];
    for i := 0 to |previous|
      invariant latest == Latest(hashes, keys, previous[..i])
    {
      assert previous[..i + 1][..i] == previous[..i];
      if Eligible(hashes, keys, previous[i]) {
        latest := Note(latest, previous[i]);
      }
    }
    assert previous[..|previous|] == previous;
  }

  method AssembleProjection(parser: Parser, domain: string, pages: seq<PageSnapshot>, previous: seq<Attempt>, supplied: Option<string>)
    returns (projection: DomainProjection)
    ensures projection == Project(parser, domain, pages, previous, supplied)
  {
    var ordered := Sort(pages, SlugLeq);
    var all, findings, incomplete := ParsePages(parser, ordered);
    var duplicates := ReportDuplicates(all, Sort(Ids(all), StringLeq));
    var scenarios, bindings := KeepScenarios(all, incomplete);
    scenarios, bindings := Sort(scenarios, ScenarioLeq), Sort(bindings, BindingLeq);
    var latest := KeepLatest(Hashes(scenarios), BindingKeys(bindings), previous);
    var revision := if supplied.Some? then Supplied(supplied.value) else DigestOf(ordered);
    projection := DomainProjection(domain, revision, scenarios, bindings, Sort(latest, AttemptLeq), Sort(findings + duplicates, FindingLeq));
  }

  // ---------------------------------------------------------------- the latest evidence

  ghost predicate DistinctAttemptKeys(s: seq<Attempt>) {
    forall i, j :: 0 <= i < j < |s| ==> s[i].Key() != s[j].Key()
  }

  predicate NoLater(a: Attempt, b: Attempt) { StringLeq(a.checkedAt, b.checkedAt) }

  /** `a` is eligible and nothing eligible for its binding is later. */
  ghost predicate Newest(hashes: map<(string, ScenarioId), Digest>, keys: set<Key>, previous: seq<Attempt>, a: Attempt) {
    && a in previous && Eligible(hashes, keys, a)
    && forall b :: b in previous && Eligible(hashes, keys, b) && b.Key() == a.Key() ==> NoLater(b, a)
  }

  ghost predicate HasKey(s: seq<Attempt>, k: Key) { exists a :: a in s && a.Key() == k }

  /** No two different attempts of one binding carry the same time. */
  ghost predicate DistinctTimes(previous: seq<Attempt>) {
    forall a, b :: a in previous && b in previous && a.Key() == b.Key() && a.checkedAt == b.checkedAt ==> a == b
  }

  /** The dictionary's entry for one key. */
  function At(latest: seq<Attempt>, k: Key): Option<Attempt> {
    if latest == [] then None else if latest[0].Key() == k then Some(latest[0]) else At(latest[1..], k)
  }

  lemma {:induction false} AtFinds(latest: seq<Attempt>, k: Key)
    ensures At(latest, k).Some? <==> HasKey(latest, k)
    ensures At(latest, k).Some? ==> At(latest, k).value in latest && At(latest, k).value.Key() == k
    ensures DistinctAttemptKeys(latest) ==> forall a :: a in latest && a.Key() == k ==> At(latest, k) == Some(a)
  {
    if latest != [] {
      assert latest == [latest[0]] + latest[1..];
      AtFinds(latest[1..], k);
    }
  }

  lemma {:induction false} NoteAt(latest: seq<Attempt>, a: Attempt, k: Key)
    ensures At(Note(latest, a), k) ==
            if k != a.Key() then At(latest, k)
            else if At(latest, k).Some? && !Later(a, At(latest, k).value) then At(latest, k)
            else Some(a)
  {
    if latest != [] {
      if latest[0].Key() != a.Key() {
        NoteAt(latest[1..], a, k);
        assert ([latest[0]] + Note(latest[1..], a))[1..] == Note(latest[1..], a);
      } else {
        assert ([a] + latest[1..])[1..] == latest[1..];
      }
    }
  }

  lemma {:induction false} NoteKeepsKeysDistinct(latest: seq<Attempt>, a: Attempt)
    requires DistinctAttemptKeys(latest)
    ensures DistinctAttemptKeys(Note(latest, a))
    ensures forall k :: HasKey(Note(latest, a), k) ==> k == a.Key() || HasKey(latest, k)
  {
    if latest != [] {
      assert latest == [latest[0]] + latest[1..];
      assert latest[0] in latest;
      if latest[0].Key() != a.Key() {
        NoteKeepsKeysDistinct(latest[1..], a);
        var t := Note(latest[1..], a);
        forall i | 0 <= i < |t| ensures t[i].Key() != latest[0].Key() {
          assert HasKey(t, t[i].Key());
        }
        forall k | HasKey(Note(latest, a), k) ensures k == a.Key() || HasKey(latest, k) {
          var x :| x in [latest[0]] + t && x.Key() == k;
          assert x in t ==> HasKey(t, k);
        }
      }
    }
  }

  lemma {:induction false} LatestIsNewest(hashes: map<(string, ScenarioId), Digest>, keys: set<Key>, previous: seq<Attempt>, k: Key)
    ensures DistinctAttemptKeys(Latest(hashes, keys, previous))
    ensures match At(Latest(hashes, keys, previous), k)
            case None => forall a :: a in previous && a.Key() == k ==> !Eligible(hashes, keys, a)
            case Some(a) => a.Key() == k && Newest(hashes, keys, previous, a)
  {
    if previous != [] {
      var init, a := previous[..|previous| - 1], previous[|previous| - 1];
      assert previous == init + [a];
      LatestIsNewest(hashes, keys, init, k);
      var latest := Latest(hashes, keys, init);
      NoteAt(latest, a, k);
      NoteKeepsKeysDistinct(latest, a);
      forall b, c ensures NoLater(b, c) || NoLater(c, b)
                  ensures NoLater(a, b) && NoLater(b, c) ==> NoLater(a, c)
                  ensures NoLater(b, c) && NoLater(c, a) ==> NoLater(b, a) {
        StringOrder(b.checkedAt, c.checkedAt, a.checkedAt);
        StringOrder(a.checkedAt, b.checkedAt, c.checkedAt);
      }
    }
  }

  /** The evidence kept is exactly the newest eligible attempt of each binding. */
  lemma EvidenceIsNewest(hashes: map<(string, ScenarioId), Digest>, keys: set<Key>, previous: seq<Attempt>, a: Attempt)
    requires DistinctTimes(previous)
    ensures a in Latest(hashes, keys, previous) <==> Newest(hashes, keys, previous, a)
  {
    var latest := Latest(hashes, keys, previous);
    LatestIsNewest(hashes, keys, previous, a.Key());
    AtFinds(latest, a.Key());
    if Newest(hashes, keys, previous, a) {
      var b := At(latest, a.Key()).value;
      assert NoLater(a, b) && NoLater(b, a);
      StringOrder(a.checkedAt, b.checkedAt, []);
    }
  }

  lemma LatestTieFree(hashes: map<(string, ScenarioId), Digest>, keys: set<Key>, previous: seq<Attempt>)
    ensures TieFree(Latest(hashes, keys, previous), AttemptLeq)
    ensures Distinct(Latest(hashes, keys, previous))
  {
    var latest := Latest(hashes, keys, previous);
    forall a, b | a in latest && b in latest && AttemptLeq(a, b) && AttemptLeq(b, a) ensures a == b {
      TupleOrder([a.domain, a.scenarioId, a.bindingId, a.checkedAt], [b.domain, b.scenarioId, b.bindingId, b.checkedAt], []);
      assert [a.domain, a.scenarioId, a.bindingId, a.checkedAt][0] == a.domain;
      assert [a.domain, a.scenarioId, a.bindingId, a.checkedAt][1] == a.scenarioId;
      assert [a.domain, a.scenarioId, a.bindingId, a.checkedAt][2] == a.bindingId;
      LatestIsNewest(hashes, keys, previous, a.Key());
      AtFinds(latest, a.Key());
    }
    LatestIsNewest(hashes, keys, previous, ("", "", ""));
  }

  lemma AttemptOrder()
    ensures TotalPreorder(AttemptLeq)
  {
    forall a: Attempt, b: Attempt, c: Attempt
      ensures AttemptLeq(a, b) || AttemptLeq(b, a)
      ensures AttemptLeq(a, b) && AttemptLeq(b, c) ==> AttemptLeq(a, c)
    {
      TupleOrder([a.domain, a.scenarioId, a.bindingId, a.checkedAt], [b.domain, b.scenarioId, b.bindingId, b.checkedAt],
                 [c.domain, c.scenarioId, c.bindingId, c.checkedAt]);
    }
  }

  /** Evidence in any order gives the same evidence list. */
  lemma EvidenceForgetsOrder(hashes: map<(string, ScenarioId), Digest>, keys: set<Key>, p: seq<Attempt>, q: seq<Attempt>)
    requires multiset(p) == multiset(q) && DistinctTimes(p)
    ensures Sort(Latest(hashes, keys, p), AttemptLeq) == Sort(Latest(hashes, keys, q), AttemptLeq)
  {
    SameElements(p, q);
    forall a ensures a in Latest(hashes, keys, p) <==> a in Latest(hashes, keys, q) {
      EvidenceIsNewest(hashes, keys, p, a);
      EvidenceIsNewest(hashes, keys, q, a);
    }
    EvidenceSameSet(hashes, keys, p, q);
  }

  lemma EvidenceSameSet(hashes: map<(string, ScenarioId), Digest>, keys: set<Key>, p: seq<Attempt>, q: seq<Attempt>)
    requires forall a :: a in Latest(hashes, keys, p) <==> a in Latest(hashes, keys, q)
    ensures Sort(Latest(hashes, keys, p), AttemptLeq) == Sort(Latest(hashes, keys, q), AttemptLeq)
  {
    LatestTieFree(hashes, keys, p);
    LatestTieFree(hashes, keys, q);
    SameMembersSameCounts(Latest(hashes, keys, p), Latest(hashes, keys, q));
    AttemptOrder();
    SortForgetsOrder(Latest(hashes, keys, p), Latest(hashes, keys, q), AttemptLeq);
  }

  // ---------------------------------------------------------------- canonical form

  ghost predicate DistinctSlugs(pages: seq<PageSnapshot>) {
    forall a, b :: a in pages && b in pages && a.slug == b.slug ==> a == b
  }

  /** Neither the order of the pages nor the order of the evidence matters. */
  lemma ProjectionForgetsOrder(parser: Parser, domain: string, pages: seq<PageSnapshot>, pages': seq<PageSnapshot>,
                               previous: seq<Attempt>, previous': seq<Attempt>, supplied: Option<string>)
    requires multiset(pages) == multiset(pages') && DistinctSlugs(pages)
    requires multiset(previous) == multiset(previous') && DistinctTimes(previous)
    ensures Project(parser, domain, pages, previous, supplied) == Project(parser, domain, pages', previous', supplied)
  {
    PageOrder();
    assert TieFree(pages, SlugLeq) by {
      forall a, b | SlugLeq(a, b) && SlugLeq(b, a) ensures a.slug == b.slug {
        StringOrder(a.slug, b.slug, []);
      }
    }
    SortForgetsOrder(pages, pages', SlugLeq);
    var projection := Project(parser, domain, pages, previous, supplied);
    EvidenceForgetsOrder(Hashes(projection.scenarios), BindingKeys(projection.bindings), previous, previous');
  }

  lemma PageOrder()
    ensures TotalPreorder(SlugLeq)
  {
    forall a: PageSnapshot, b: PageSnapshot, c: PageSnapshot
      ensures SlugLeq(a, b) || SlugLeq(b, a)
      ensures SlugLeq(a, b) && SlugLeq(b, c) ==> SlugLeq(a, c)
    {
      StringOrder(a.slug, b.slug, c.slug);
    }
  }

  /** Keeping the newest evidence a second time changes nothing. */
  lemma NewestOfNewest(hashes: map<(string, ScenarioId), Digest>, keys: set<Key>, previous: seq<Attempt>)
    ensures var evidence := Sort(Latest(hashes, keys, previous), AttemptLeq);
            Sort(Latest(hashes, keys, evidence), AttemptLeq) == evidence
  {
    var latest := Latest(hashes, keys, previous);
    var evidence := Sort(latest, AttemptLeq);
    SameElements(latest, evidence);
    forall a | a in latest
      ensures Eligible(hashes, keys, a)
      ensures forall b :: b in latest && b.Key() == a.Key() ==> b == a
    {
      LatestIsNewest(hashes, keys, previous, a.Key());
      AtFinds(latest, a.Key());
    }
    forall a ensures a in Latest(hashes, keys, evidence) <==> a in latest {
      EvidenceIsNewest(hashes, keys, evidence, a);
      StringOrder(a.checkedAt, a.checkedAt, []);
    }
    EvidenceSameSet(hashes, keys, evidence, previous);
  }

  /** A projection fed its own evidence comes out the same. */
  lemma ProjectionIsIdempotent(parser: Parser, domain: string, pages: seq<PageSnapshot>, previous: seq<Attempt>, supplied: Option<string>)
    ensures var projection := Project(parser, domain, pages, previous, supplied);
            Project(parser, domain, pages, projection.evidence, supplied) == projection
  {
    var projection := Project(parser, domain, pages, previous, supplied);
    NewestOfNewest(Hashes(projection.scenarios), BindingKeys(projection.bindings), previous);
  }

  // ---------------------------------------------------------------- what is kept

  lemma WithIdMember(part: seq<Dated>, d: Dated)
    requires d in part
    ensures |WithId(part, d.scenario.id)| >= 1
  {
    var i :| 0 <= i < |part| && part[i] == d;
    var mine := (x: Dated) => x.scenario.id == d.scenario.id;
    assert part == part[..i] + ([d] + part[i + 1..]);
    FilterAppend(part[..i], [d] + part[i + 1..], mine);
    FilterAppend([d], part[i + 1..], mine);
  }

  /** An id that occurs at two places of the pages is not unique. */
  lemma TwoOccurrences(all: seq<Dated>, n: nat, d: Dated)
    requires n < |all| && d in all[..n] && d.scenario.id == all[n].scenario.id
    ensures !Unique(all, d.scenario.id)
  {
    var mine := (x: Dated) => x.scenario.id == d.scenario.id;
    assert all == all[..n] + all[n..];
    FilterAppend(all[..n], all[n..], mine);
    WithIdMember(all[..n], d);
    WithIdMember(all[n..], all[n]);
  }

  ghost predicate DistinctIds(scenarios: seq<ScenarioRecord>) {
    forall i, j :: 0 <= i < j < |scenarios| ==> scenarios[i].id != scenarios[j].id
  }

  lemma {:induction false} KeptPrefix(all: seq<Dated>, incomplete: set<(ScenarioId, Slug, string)>, n: nat)
    requires n <= |all|
    ensures var kept := KeptScenarios(all, incomplete, all[..n]);
            && DistinctIds(kept)
            && (forall r :: r in kept <==> exists d :: d in all[..n] && Keeps(all, incomplete, d) && r == ToRecord(d))
    ensures forall b :: b in KeptBindings(all, incomplete, all[..n]) <==>
                          exists d :: d in all[..n] && Keeps(all, incomplete, d) && b in ToBindings(d)
  {
    if n > 0 {
      hide Keeps;
      KeptPrefix(all, incomplete, n - 1);
      assert all[..n][..n - 1] == all[..n - 1];
      assert all[..n] == all[..n - 1] + [all[n - 1]];
      var kept := KeptScenarios(all, incomplete, all[..n - 1]);
      if Keeps(all, incomplete, all[n - 1]) {
        forall i | 0 <= i < |kept| ensures kept[i].id != all[n - 1].scenario.id {
          assert kept[i] in kept;
          var d :| d in all[..n - 1] && Keeps(all, incomplete, d) && kept[i] == ToRecord(d);
          if d.scenario.id == all[n - 1].scenario.id {
            TwoOccurrences(all, n - 1, d);
          }
        }
      }
    }
  }

  lemma SortedScenarios(all: seq<Dated>, incomplete: set<(ScenarioId, Slug, string)>, scenarios: seq<ScenarioRecord>, r: ScenarioRecord)
    requires multiset(scenarios) == multiset(KeptScenarios(all, incomplete, all))
    ensures DistinctIds(scenarios)
    ensures r in scenarios <==> exists d :: d in all && Keeps(all, incomplete, d) && r == ToRecord(d)
  {
    KeptPrefix(all, incomplete, |all|);
    assert all[..|all|] == all;
    SameElements(KeptScenarios(all, incomplete, all), scenarios);
    DistinctIdsByCount(KeptScenarios(all, incomplete, all), scenarios);
  }

  lemma SortedBindings(all: seq<Dated>, incomplete: set<(ScenarioId, Slug, string)>, bindings: seq<BindingRecord>, b: BindingRecord)
    requires multiset(bindings) == multiset(KeptBindings(all, incomplete, all))
    ensures b in bindings <==> exists d :: d in all && Keeps(all, incomplete, d) && b in ToBindings(d)
  {
    KeptPrefix(all, incomplete, |all|);
    assert all[..|all|] == all;
    SameElements(KeptBindings(all, incomplete, all), bindings);
  }

  lemma DistinctIdsByCount(a: seq<ScenarioRecord>, b: seq<ScenarioRecord>)
    requires multiset(a) == multiset(b) && DistinctIds(a)
    ensures DistinctIds(b)
  {
    SameElements(a, b);
    DistinctByCount(a, b);
    forall i, j | 0 <= i < j < |b| ensures b[i].id != b[j].id {
      assert b[i] in a && b[j] in a;
    }
  }

  lemma {:induction false} HashesFind(scenarios: seq<ScenarioRecord>, k: (string, ScenarioId), h: Digest)
    requires DistinctIds(scenarios)
    ensures Lookup(Hashes(scenarios), k) == Some(h) <==>
            exists s :: s in scenarios && (s.domain, s.id) == k && s.sourceHash == h
  {
    if scenarios != [] {
      var init, s := scenarios[..|scenarios| - 1], scenarios[|scenarios| - 1];
      assert scenarios == init + [s];
      HashesFind(init, k, h);
      assert forall x :: x in init ==> x.id != s.id;
    }
  }

  /** An attempt still speaks about a kept binding of a kept scenario whose source it saw. */
  ghost predicate StillSpeaks(scenarios: seq<ScenarioRecord>, bindings: seq<BindingRecord>, a: Attempt) {
    && (exists b :: b in bindings && b.Key() == a.Key())
    && (exists s :: s in scenarios && (s.domain, s.id) == (a.domain, a.scenarioId) && s.sourceHash == a.sourceHash)
  }

  lemma EvidenceSpeaks(scenarios: seq<ScenarioRecord>, bindings: seq<BindingRecord>, previous: seq<Attempt>, a: Attempt)
    requires DistinctIds(scenarios) && DistinctTimes(previous)
    ensures a in Sort(Latest(Hashes(scenarios), BindingKeys(bindings), previous), AttemptLeq) <==>
            && a in previous && StillSpeaks(scenarios, bindings, a)
            && forall b :: b in previous && StillSpeaks(scenarios, bindings, b) && b.Key() == a.Key() ==> NoLater(b, a)
  {
    var hashes, keys := Hashes(scenarios), BindingKeys(bindings);
    forall b: Attempt ensures Eligible(hashes, keys, b) <==> StillSpeaks(scenarios, bindings, b) {
      HashesFind(scenarios, (b.domain, b.scenarioId), b.sourceHash);
    }
    EvidenceIsNewest(hashes, keys, previous, a);
    SameElements(Latest(hashes, keys, previous), Sort(Latest(hashes, keys, previous), AttemptLeq));
  }

  /** The parts of a projection, named by what they are sorted from. */
  lemma Shape(parser: Parser, domain: string, pages: seq<PageSnapshot>, previous: seq<Attempt>, supplied: Option<string>,
              all: seq<Dated>, incomplete: set<(ScenarioId, Slug, string)>, projection: DomainProjection)
    requires all == ParsedScenarios(parser, Sort(pages, SlugLeq)) && incomplete == Incomplete(parser, Sort(pages, SlugLeq))
    requires projection == Project(parser, domain, pages, previous, supplied)
    ensures multiset(projection.scenarios) == multiset(KeptScenarios(all, incomplete, all))
    ensures multiset(projection.bindings) == multiset(KeptBindings(all, incomplete, all))
    ensures projection.evidence == Sort(Latest(Hashes(projection.scenarios), BindingKeys(projection.bindings), previous), AttemptLeq)
  {
  }

  lemma KeepsGiven(all: seq<Dated>, incomplete: set<(ScenarioId, Slug, string)>, projection: DomainProjection, previous: seq<Attempt>,
                   r: ScenarioRecord, b: BindingRecord, a: Attempt)
    requires multiset(projection.scenarios) == multiset(KeptScenarios(all, incomplete, all))
    requires multiset(projection.bindings) == multiset(KeptBindings(all, incomplete, all))
    requires projection.evidence == Sort(Latest(Hashes(projection.scenarios), BindingKeys(projection.bindings), previous), AttemptLeq)
    ensures DistinctIds(projection.scenarios)
    ensures r in projection.scenarios <==> exists d :: d in all && Keeps(all, incomplete, d) && r == ToRecord(d)
    ensures b in projection.bindings <==> exists d :: d in all && Keeps(all, incomplete, d) && b in ToBindings(d)
    ensures b in projection.bindings ==> exists s :: s in projection.scenarios && (s.domain, s.id) == (b.domain, b.scenarioId)
    ensures DistinctTimes(previous) ==>
              (a in projection.evidence <==>
               && a in previous && StillSpeaks(projection.scenarios, projection.bindings, a)
               && forall e :: e in previous && StillSpeaks(projection.scenarios, projection.bindings, e) && e.Key() == a.Key() ==> NoLater(e, a))
  {
    SortedScenarios(all, incomplete, projection.scenarios, r);
    SortedBindings(all, incomplete, projection.bindings, b);
    if d :| d in all && Keeps(all, incomplete, d) && b in ToBindings(d) {
      SortedScenarios(all, incomplete, projection.scenarios, ToRecord(d));
    }
    if DistinctTimes(previous) {
      EvidenceSpeaks(projection.scenarios, projection.bindings, previous, a);
    }
  }

  /**
   What a projection keeps. A scenario is kept when its id occurs once and its bindings
   are complete, so ids are unique and a colliding id is dropped everywhere it occurs;
   the bindings are those of the kept scenarios; and each binding keeps exactly its
   latest attempt that still speaks about it.
   */
  lemma ProjectionKeeps(parser: Parser, domain: string, pages: seq<PageSnapshot>, previous: seq<Attempt>, supplied: Option<string>,
                        all: seq<Dated>, incomplete: set<(ScenarioId, Slug, string)>, projection: DomainProjection,
                        r: ScenarioRecord, b: BindingRecord, a: Attempt)
    requires all == ParsedScenarios(parser, Sort(pages, SlugLeq)) && incomplete == Incomplete(parser, Sort(pages, SlugLeq))
    requires projection == Project(parser, domain, pages, previous, supplied)
    ensures DistinctIds(projection.scenarios)
    ensures r in projection.scenarios <==> exists d :: d in all && Keeps(all, incomplete, d) && r == ToRecord(d)
    ensures b in projection.bindings <==> exists d :: d in all && Keeps(all, incomplete, d) && b in ToBindings(d)
    ensures b in projection.bindings ==> exists s :: s in projection.scenarios && (s.domain, s.id) == (b.domain, b.scenarioId)
    ensures DistinctTimes(previous) ==>
              (a in projection.evidence <==>
               && a in previous && StillSpeaks(projection.scenarios, projection.bindings, a)
               && forall e :: e in previous && StillSpeaks(projection.scenarios, projection.bindings, e) && e.Key() == a.Key() ==> NoLater(e, a))
  {
    Shape(parser, domain, pages, previous, supplied, all, incomplete, projection);
    KeepsGiven(all, incomplete, projection, previous, r, b, a);
  }

  // ---------------------------------------------------------------- what is kept, over the pages alone

  /** A specification page of the domain. */
  predicate IsSpec(parser: Parser, pages: seq<PageSnapshot>, page: PageSnapshot) {
    page in pages && parser.isSpecification(page.markdown)
  }

  /** What the parser makes of a page. */
  function ParseOf(parser: Parser, page: PageSnapshot): Parsed { parser.parse(page.slug, page.markdown) }

  function OfId(id: ScenarioId): Scenario -> bool { (s: Scenario) => s.id == id }

  /** How often the specification pages use an id. */
  function Occurrences(parser: Parser, pages: seq<PageSnapshot>, id: ScenarioId): nat {
    if pages == [] then 0
    else
      (if parser.isSpecification(pages[0].markdown) then |Filter(ParseOf(parser, pages[0]).scenarios, OfId(id))| else 0)
      + Occurrences(parser, pages[1..], id)
  }

  /** Where the specification pages use an id. */
  function Places(parser: Parser, pages: seq<PageSnapshot>, id: ScenarioId): multiset<Location> {
    if pages == [] then multiset{}
    else
      (if parser.isSpecification(pages[0].markdown) then PlacesIn(ParseOf(parser, pages[0]).scenarios, id) else multiset{})
      + Places(parser, pages[1..], id)
  }

  function PlacesIn(scenarios: seq<Scenario>, id: ScenarioId): multiset<Location> {
    if scenarios == [] then multiset{}
    else
      (if scenarios[0].id == id then multiset{Location(scenarios[0].slug, scenarios[0].heading, scenarios[0].anchor)} else multiset{})
      + PlacesIn(scenarios[1..], id)
  }

  /** All findings of the parser. */
  function Reported(parser: Parser, pages: seq<PageSnapshot>): multiset<Finding> {
    if pages == [] then multiset{}
    else
      (if parser.isSpecification(pages[0].markdown) then multiset(ParseOf(parser, pages[0]).findings) else multiset{})
      + Reported(parser, pages[1..])
  }

  /** A finding of a specification page says that the bindings of this scenario are incomplete. */
  ghost predicate SaysIncomplete(parser: Parser, pages: seq<PageSnapshot>, id: ScenarioId, slug: Slug, heading: string) {
    exists page, f :: IsSpec(parser, pages, page) && f in ParseOf(parser, page).findings && AboutBindings(f, page, id, slug, heading)
  }

  /** It names the scenario; a slug or a heading that it leaves out is the slug of its page, or none. */
  predicate AboutBindings(f: Finding, page: PageSnapshot, id: ScenarioId, slug: Slug, heading: string) {
    && f.kind == "incomplete_bindings" && f.scenarioId == Some(id) && id != ""
    && (slug == if f.slug.Some? && f.slug.value != "" then f.slug.value else page.slug)
    && (heading == if f.heading.Some? then f.heading.value else "")
  }

  /** The record of a scenario on a page. */
  predicate Records(r: ScenarioRecord, s: Scenario, page: PageSnapshot) {
    && r.domain == s.domain && r.id == s.id && r.title == s.title && r.slug == s.slug && r.heading == s.heading
    && r.anchor == s.anchor && r.sourceHash == s.sourceHash && r.items == s.items && r.pageRevision == page.revision
  }

  /** The record of a binding of a scenario. */
  predicate RecordsBinding(b: BindingRecord, s: Scenario, binding: SpecBinding) {
    && b.id == binding.id && b.domain == s.domain && b.scenarioId == s.id && b.relation == binding.relation
    && b.phase == binding.phase && b.selectorKind == binding.selectorKind && b.selector == binding.selector
  }

  /** A scenario of the pages that the projection keeps. */
  ghost predicate KeptOn(parser: Parser, pages: seq<PageSnapshot>, page: PageSnapshot, s: Scenario) {
    && IsSpec(parser, pages, page) && s in ParseOf(parser, page).scenarios
    && Occurrences(parser, pages, s.id) == 1 && !SaysIncomplete(parser, pages, s.id, s.slug, s.heading)
  }

  lemma {:induction false} ParsedFrom(parser: Parser, pages: seq<PageSnapshot>, d: Dated)
    ensures d in ParsedScenarios(parser, pages) <==>
            exists page :: IsSpec(parser, pages, page) && d.scenario in ParseOf(parser, page).scenarios && d.revision == page.revision
  {
    if pages != [] {
      var init, page := pages[..|pages| - 1], pages[|pages| - 1];
      ParsedFrom(parser, init, d);
      assert pages == init + [page];
      assert forall p :: IsSpec(parser, pages, p) <==> IsSpec(parser, init, p) || (p == page && parser.isSpecification(page.markdown));
      DatedFrom(ParseOf(parser, page), page, d);
    }
  }

  lemma DatedFrom(parsed: Parsed, page: PageSnapshot, d: Dated)
    ensures d in DatedOf(parsed, page) <==> d.scenario in parsed.scenarios && d.revision == page.revision
  {
    if d.scenario in parsed.scenarios && d.revision == page.revision {
      var i :| 0 <= i < |parsed.scenarios| && parsed.scenarios[i] == d.scenario;
      assert DatedOf(parsed, page)[i] == d;
    }
  }

  lemma {:induction false} IncompleteFrom(parser: Parser, pages: seq<PageSnapshot>, id: ScenarioId, slug: Slug, heading: string)
    ensures (id, slug, heading) in Incomplete(parser, pages) <==> SaysIncomplete(parser, pages, id, slug, heading)
  {
    if pages != [] {
      var init, page := pages[..|pages| - 1], pages[|pages| - 1];
      IncompleteFrom(parser, init, id, slug, heading);
      assert pages == init + [page];
      assert forall p :: IsSpec(parser, pages, p) <==> IsSpec(parser, init, p) || (p == page && parser.isSpecification(page.markdown));
      IncompleteOnPage(ParseOf(parser, page).findings, page, id, slug, heading);
    }
  }

  lemma IncompleteOnPage(findings: seq<Finding>, page: PageSnapshot, id: ScenarioId, slug: Slug, heading: string)
    ensures (id, slug, heading) in IncompleteIn(findings, page) <==>
            exists f :: f in findings && AboutBindings(f, page, id, slug, heading)
  {
    forall f ensures AboutBindings(f, page, id, slug, heading) <==>
                     && f.kind == "incomplete_bindings" && OrEmpty(f.scenarioId) != ""
                     && (OrEmpty(f.scenarioId), OrElse(f.slug, page.slug), OrEmpty(f.heading)) == (id, slug, heading) {
    }
  }

  lemma {:induction false} OccurrencesAppend(parser: Parser, a: seq<PageSnapshot>, b: seq<PageSnapshot>, id: ScenarioId)
    ensures Occurrences(parser, a + b, id) == Occurrences(parser, a, id) + Occurrences(parser, b, id)
    ensures Places(parser, a + b, id) == Places(parser, a, id) + Places(parser, b, id)
    ensures Reported(parser, a + b) == Reported(parser, a) + Reported(parser, b)
  {
    if a == [] {
      assert a + b == b;
    } else {
      assert (a + b)[1..] == a[1..] + b;
      OccurrencesAppend(parser, a[1..], b, id);
    }
  }

  /** What the pages contain does not depend on their order. */
  lemma {:induction false} SortedPages(parser: Parser, pages: seq<PageSnapshot>, id: ScenarioId)
    ensures var sorted := Sort(pages, SlugLeq);
            && Occurrences(parser, sorted, id) == Occurrences(parser, pages, id)
            && Places(parser, sorted, id) == Places(parser, pages, id)
            && Reported(parser, sorted) == Reported(parser, pages)
  {
    hide Occurrences, Places, Reported, SlugLeq, Insert;
    if pages != [] {
      SortedPages(parser, pages[1..], id);
      InsertedPage(parser, pages[0], Sort(pages[1..], SlugLeq), id);
      assert [pages[0]] + pages[1..] == pages;
      OccurrencesAppend(parser, [pages[0]], pages[1..], id);
    }
  }

  lemma {:induction false} InsertedPage(parser: Parser, page: PageSnapshot, pages: seq<PageSnapshot>, id: ScenarioId)
    ensures var more := Insert(page, pages, SlugLeq);
            && Occurrences(parser, more, id) == Occurrences(parser, [page], id) + Occurrences(parser, pages, id)
            && Places(parser, more, id) == Places(parser, [page], id) + Places(parser, pages, id)
            && Reported(parser, more) == Reported(parser, [page]) + Reported(parser, pages)
  {
    hide Occurrences, Places, Reported, SlugLeq;
    if pages == [] || SlugLeq(page, pages[0]) {
      OccurrencesAppend(parser, [page], pages, id);
    } else {
      InsertedPage(parser, page, pages[1..], id);
      assert pages == [pages[0]] + pages[1..];
      OccurrencesAppend(parser, [pages[0]], pages[1..], id);
      OccurrencesAppend(parser, [pages[0]], Insert(page, pages[1..], SlugLeq), id);
    }
  }

  lemma {:induction false} CountOnPage(parsed: Parsed, page: PageSnapshot, id: ScenarioId)
    ensures |WithId(DatedOf(parsed, page), id)| == |Filter(parsed.scenarios, OfId(id))|
    ensures multiset(LocationsOf(WithId(DatedOf(parsed, page), id))) == PlacesIn(parsed.scenarios, id)
    decreases |parsed.scenarios|
  {
    if parsed.scenarios != [] {
      var rest := Parsed(parsed.scenarios[1..], parsed.findings);
      CountOnPage(rest, page, id);
      var d, ds := DatedOf(parsed, page)[0], DatedOf(rest, page);
      assert DatedOf(parsed, page) == [d] + ds;
      var mine := (x: Dated) => x.scenario.id == id;
      FilterAppend([d], ds, mine);
      assert Filter([d], mine) == if d.scenario.id == id then [d] else [];
      LocationsAppend(Filter([d], mine), Filter(ds, mine));
    }
  }

  lemma LocationsAppend(a: seq<Dated>, b: seq<Dated>)
    ensures LocationsOf(a + b) == LocationsOf(a) + LocationsOf(b)
  {
  }

  lemma OneMorePage(parser: Parser, init: seq<PageSnapshot>, page: PageSnapshot, id: ScenarioId)
    ensures var spec := parser.isSpecification(page.markdown);
            var parsed := ParseOf(parser, page);
            && ParsedScenarios(parser, init + [page]) == ParsedScenarios(parser, init) + (if spec then DatedOf(parsed, page) else [])
            && ParserFindings(parser, init + [page]) == ParserFindings(parser, init) + (if spec then parsed.findings else [])
            && Occurrences(parser, init + [page], id) == Occurrences(parser, init, id) + (if spec then |Filter(parsed.scenarios, OfId(id))| else 0)
            && Places(parser, init + [page], id) == Places(parser, init, id) + (if spec then PlacesIn(parsed.scenarios, id) else multiset{})
            && Reported(parser, init + [page]) == Reported(parser, init) + (if spec then multiset(parsed.findings) else multiset{})
  {
    hide DatedOf, PlacesIn, Filter;
    OccurrencesAppend(parser, init, [page], id);
    assert (init + [page])[..|init|] == init && [page][1..] == [];
  }

  lemma {:induction false} CountOccurrences(parser: Parser, pages: seq<PageSnapshot>, id: ScenarioId)
    ensures |WithId(ParsedScenarios(parser, pages), id)| == Occurrences(parser, pages, id)
    ensures multiset(LocationsOf(WithId(ParsedScenarios(parser, pages), id))) == Places(parser, pages, id)
    ensures multiset(ParserFindings(parser, pages)) == Reported(parser, pages)
  {
    if pages != [] {
      var init, page := pages[..|pages| - 1], pages[|pages| - 1];
      CountOccurrences(parser, init, id);
      assert pages == init + [page];
      CountOneMore(parser, init, page, id);
    } else {
      assert LocationsOf([]) == [];
    }
  }

  lemma CountOneMore(parser: Parser, init: seq<PageSnapshot>, page: PageSnapshot, id: ScenarioId)
    requires |WithId(ParsedScenarios(parser, init), id)| == Occurrences(parser, init, id)
    requires multiset(LocationsOf(WithId(ParsedScenarios(parser, init), id))) == Places(parser, init, id)
    requires multiset(ParserFindings(parser, init)) == Reported(parser, init)
    ensures |WithId(ParsedScenarios(parser, init + [page]), id)| == Occurrences(parser, init + [page], id)
    ensures multiset(LocationsOf(WithId(ParsedScenarios(parser, init + [page]), id))) == Places(parser, init + [page], id)
    ensures multiset(ParserFindings(parser, init + [page])) == Reported(parser, init + [page])
  {
    hide *;
    OneMorePage(parser, init, page, id);
    if parser.isSpecification(page.markdown) {
      CountOnPage(ParseOf(parser, page), page, id);
      WithIdAppend(ParsedScenarios(parser, init), DatedOf(ParseOf(parser, page), page), id);
    } else {
      assert ParsedScenarios(parser, init) + [] == ParsedScenarios(parser, init);
    }
  }

  lemma WithIdAppend(a: seq<Dated>, b: seq<Dated>, id: ScenarioId)
    ensures |WithId(a + b, id)| == |WithId(a, id)| + |WithId(b, id)|
    ensures multiset(LocationsOf(WithId(a + b, id))) == multiset(LocationsOf(WithId(a, id))) + multiset(LocationsOf(WithId(b, id)))
  {
    FilterAppend(a, b, (d: Dated) => d.scenario.id == id);
    LocationsAppend(WithId(a, id), WithId(b, id));
  }

  /** A parsed scenario is kept exactly when it is one that the pages keep. */
  lemma KeptIsKept(parser: Parser, pages: seq<PageSnapshot>, d: Dated)
    ensures var ordered := Sort(pages, SlugLeq);
            var all := ParsedScenarios(parser, ordered);
            d in all && Keeps(all, Incomplete(parser, ordered), d) <==>
            exists page :: KeptOn(parser, pages, page, d.scenario) && d.revision == page.revision
  {
    hide Occurrences, SaysIncomplete, Incomplete, ParsedScenarios, WithId;
    var ordered := Sort(pages, SlugLeq);
    var id, slug, heading := d.scenario.id, d.scenario.slug, d.scenario.heading;
    SameElements(pages, ordered);
    ParsedFrom(parser, ordered, d);
    forall page ensures IsSpec(parser, ordered, page) <==> IsSpec(parser, pages, page) {
    }
    IncompleteFrom(parser, ordered, id, slug, heading);
    SameIncomplete(parser, pages, ordered, id, slug, heading);
    CountOccurrences(parser, ordered, id);
    SortedPages(parser, pages, id);
    if exists page :: KeptOn(parser, pages, page, d.scenario) && d.revision == page.revision {
      var page :| KeptOn(parser, pages, page, d.scenario) && d.revision == page.revision;
      assert IsSpec(parser, ordered, page);
    }
    if d in ParsedScenarios(parser, ordered) && Keeps(ParsedScenarios(parser, ordered), Incomplete(parser, ordered), d) {
      var page :| IsSpec(parser, ordered, page) && d.scenario in ParseOf(parser, page).scenarios && d.revision == page.revision;
      assert KeptOn(parser, pages, page, d.scenario);
    }
  }

  lemma SameIncomplete(parser: Parser, pages: seq<PageSnapshot>, ordered: seq<PageSnapshot>, id: ScenarioId, slug: Slug, heading: string)
    requires forall page :: IsSpec(parser, ordered, page) <==> IsSpec(parser, pages, page)
    ensures SaysIncomplete(parser, ordered, id, slug, heading) <==> SaysIncomplete(parser, pages, id, slug, heading)
  {
  }

  /**
   A projection, over its pages alone: a scenario is kept if and only if some specification
   page parses to it, its id is used once on all of them, and none of their findings calls
   its bindings incomplete; the bindings are those of the kept scenarios.
   */
  lemma ProjectionOfPages(parser: Parser, domain: string, pages: seq<PageSnapshot>, previous: seq<Attempt>, supplied: Option<string>,
                          projection: DomainProjection, r: ScenarioRecord, b: BindingRecord)
    requires projection == Project(parser, domain, pages, previous, supplied)
    ensures r in projection.scenarios <==> exists page, s :: KeptOn(parser, pages, page, s) && Records(r, s, page)
    ensures b in projection.bindings <==>
            exists page, s, i :: KeptOn(parser, pages, page, s) && 0 <= i < |s.bindings| && RecordsBinding(b, s, s.bindings[i])
  {
    hide KeptOn, Keeps, ParsedScenarios, Incomplete, Project;
    var ordered := Sort(pages, SlugLeq);
    var all, incomplete := ParsedScenarios(parser, ordered), Incomplete(parser, ordered);
    Shape(parser, domain, pages, previous, supplied, all, incomplete, projection);
    SortedScenarios(all, incomplete, projection.scenarios, r);
    SortedBindings(all, incomplete, projection.bindings, b);
    forall d ensures d in all && Keeps(all, incomplete, d) <==>
                     exists page :: KeptOn(parser, pages, page, d.scenario) && d.revision == page.revision {
      KeptIsKept(parser, pages, d);
    }
    KeptRecords(parser, pages, all, incomplete, r);
    KeptBindingRecords(parser, pages, all, incomplete, b);
  }

  lemma KeptRecords(parser: Parser, pages: seq<PageSnapshot>, all: seq<Dated>, incomplete: set<(ScenarioId, Slug, string)>, r: ScenarioRecord)
    requires forall d :: d in all && Keeps(all, incomplete, d) <==>
                         exists page :: KeptOn(parser, pages, page, d.scenario) && d.revision == page.revision
    ensures (exists d :: d in all && Keeps(all, incomplete, d) && r == ToRecord(d)) <==>
            exists page, s :: KeptOn(parser, pages, page, s) && Records(r, s, page)
  {
    hide KeptOn, Keeps;
    if d :| d in all && Keeps(all, incomplete, d) && r == ToRecord(d) {
      var page :| KeptOn(parser, pages, page, d.scenario) && d.revision == page.revision;
      assert Records(r, d.scenario, page);
    }
    if page, s :| KeptOn(parser, pages, page, s) && Records(r, s, page) {
      var d := Dated(s, page.revision);
      assert d in all && Keeps(all, incomplete, d) && r == ToRecord(d);
    }
  }

  lemma KeptBindingRecords(parser: Parser, pages: seq<PageSnapshot>, all: seq<Dated>, incomplete: set<(ScenarioId, Slug, string)>, b: BindingRecord)
    requires forall d :: d in all && Keeps(all, incomplete, d) <==>
                         exists page :: KeptOn(parser, pages, page, d.scenario) && d.revision == page.revision
    ensures (exists d :: d in all && Keeps(all, incomplete, d) && b in ToBindings(d)) <==>
            exists page, s, i :: KeptOn(parser, pages, page, s) && 0 <= i < |s.bindings| && RecordsBinding(b, s, s.bindings[i])
  {
    hide KeptOn, Keeps;
    if d :| d in all && Keeps(all, incomplete, d) && b in ToBindings(d) {
      var page :| KeptOn(parser, pages, page, d.scenario) && d.revision == page.revision;
      var i :| 0 <= i < |ToBindings(d)| && ToBindings(d)[i] == b;
      assert RecordsBinding(b, d.scenario, d.scenario.bindings[i]);
    }
    if page, s, i :| KeptOn(parser, pages, page, s) && 0 <= i < |s.bindings| && RecordsBinding(b, s, s.bindings[i]) {
      var d := Dated(s, page.revision);
      assert d in all && Keeps(all, incomplete, d) && b == ToBindings(d)[i];
    }
  }

  // ---------------------------------------------------------------- the findings, over the pages alone

  /** The finding for an id that is used more than once: all its places, in order, and nothing else. */
  ghost predicate ReportsDuplicate(f: Finding, parser: Parser, pages: seq<PageSnapshot>, id: ScenarioId) {
    && f.kind == "duplicate_scenario_id" && f.scenarioId == Some(id)
    && f.slug == f.heading == f.reason == None && f.missing == []
    && Occurrences(parser, pages, id) > 1
    && multiset(f.locations) == Places(parser, pages, id) && Sorted(f.locations, LocationLeq)
  }

  /** `duplicates` holds exactly one finding for each id used more than once. */
  ghost predicate AllDuplicates(duplicates: seq<Finding>, parser: Parser, pages: seq<PageSnapshot>) {
    && (forall i :: 0 <= i < |duplicates| ==>
          duplicates[i].scenarioId.Some? && ReportsDuplicate(duplicates[i], parser, pages, duplicates[i].scenarioId.value))
    && (forall i, j :: 0 <= i < j < |duplicates| ==> duplicates[i].scenarioId != duplicates[j].scenarioId)
    && (forall id :: Occurrences(parser, pages, id) > 1 ==> exists f :: f in duplicates && f.scenarioId == Some(id))
  }

  lemma LocationOrder()
    ensures TotalPreorder(LocationLeq)
  {
    forall a: Location, b: Location, c: Location
      ensures LocationLeq(a, b) || LocationLeq(b, a)
      ensures LocationLeq(a, b) && LocationLeq(b, c) ==> LocationLeq(a, c)
    {
      TupleOrder([a.slug, a.heading, a.anchor], [b.slug, b.heading, b.anchor], [c.slug, c.heading, c.anchor]);
    }
  }

  lemma {:induction false} IdsOf(all: seq<Dated>, id: ScenarioId)
    ensures Distinct(Ids(all)) && (id in Ids(all) <==> |WithId(all, id)| > 0)
  {
    if all != [] {
      var init, last := all[..|all| - 1], all[|all| - 1];
      IdsOf(init, id);
      IdsOf(init, last.scenario.id);
      assert all == init + [last];
      FilterAppend(init, [last], (d: Dated) => d.scenario.id == id);
    }
  }

  lemma DuplicateIsReported(parser: Parser, pages: seq<PageSnapshot>, all: seq<Dated>, id: ScenarioId)
    requires |WithId(all, id)| == Occurrences(parser, pages, id) && multiset(LocationsOf(WithId(all, id))) == Places(parser, pages, id)
    requires id in Ids(all)
    ensures Unique(all, id) <==> Occurrences(parser, pages, id) <= 1
    ensures Occurrences(parser, pages, id) > 1 ==> ReportsDuplicate(DuplicateFinding(all, id), parser, pages, id)
  {
    hide Occurrences, Places, LocationsOf, Ids;
    IdsOf(all, id);
    LocationOrder();
    SortSorted(LocationsOf(WithId(all, id)), LocationLeq);
  }

  /** One finding for each of `ids` that is used more than once, and no other. */
  ghost predicate DuplicatesAmong(ds: seq<Finding>, parser: Parser, pages: seq<PageSnapshot>, ids: seq<ScenarioId>) {
    && (forall i :: 0 <= i < |ds| ==> ds[i].scenarioId.Some? && ds[i].scenarioId.value in ids
                                      && ReportsDuplicate(ds[i], parser, pages, ds[i].scenarioId.value))
    && (forall i, j :: 0 <= i < j < |ds| ==> ds[i].scenarioId != ds[j].scenarioId)
    && (forall id :: id in ids && Occurrences(parser, pages, id) > 1 ==> exists f :: f in ds && f.scenarioId == Some(id))
  }

  lemma OneMoreDuplicate(ds: seq<Finding>, parser: Parser, pages: seq<PageSnapshot>, ids: seq<ScenarioId>, id: ScenarioId, f: Finding)
    requires DuplicatesAmong(ds, parser, pages, ids) && id !in ids
    requires Occurrences(parser, pages, id) > 1 ==> f.scenarioId == Some(id) && ReportsDuplicate(f, parser, pages, id)
    ensures DuplicatesAmong(ds + if Occurrences(parser, pages, id) > 1 then [f] else [], parser, pages, ids + [id])
  {
    hide Occurrences, ReportsDuplicate;
    var more := ds + if Occurrences(parser, pages, id) > 1 then [f] else [];
    forall x | x in ids + [id] && Occurrences(parser, pages, x) > 1 ensures exists g :: g in more && g.scenarioId == Some(x) {
      if x in ids {
        var g :| g in ds && g.scenarioId == Some(x);
        assert g in more;
      } else {
        assert f in more;
      }
    }
  }

  lemma {:induction false} DuplicatesOf(parser: Parser, pages: seq<PageSnapshot>, all: seq<Dated>, ids: seq<ScenarioId>)
    requires forall id :: |WithId(all, id)| == Occurrences(parser, pages, id) && multiset(LocationsOf(WithId(all, id))) == Places(parser, pages, id)
    requires Distinct(ids) && forall id :: id in ids ==> id in Ids(all)
    ensures DuplicatesAmong(DuplicateFindings(all, ids), parser, pages, ids)
  {
    if ids != [] {
      hide Occurrences, Places, LocationsOf, Ids, ReportsDuplicate, WithId, Unique, DuplicatesAmong;
      var init, last := ids[..|ids| - 1], ids[|ids| - 1];
      assert ids == init + [last];
      DuplicatesOf(parser, pages, all, init);
      DuplicateIsReported(parser, pages, all, last);
      OneMoreDuplicate(DuplicateFindings(all, init), parser, pages, init, last, DuplicateFinding(all, last));
    }
  }

  lemma FindingsShape(parser: Parser, domain: string, pages: seq<PageSnapshot>, previous: seq<Attempt>, supplied: Option<string>, all: seq<Dated>)
    requires all == ParsedScenarios(parser, Sort(pages, SlugLeq))
    ensures multiset(Project(parser, domain, pages, previous, supplied).findings) ==
            multiset(ParserFindings(parser, Sort(pages, SlugLeq))) + multiset(DuplicateFindings(all, Sort(Ids(all), StringLeq)))
  {
  }

  lemma AllAmong(ds: seq<Finding>, parser: Parser, pages: seq<PageSnapshot>, ids: seq<ScenarioId>)
    requires DuplicatesAmong(ds, parser, pages, ids) && forall id :: Occurrences(parser, pages, id) > 0 ==> id in ids
    ensures AllDuplicates(ds, parser, pages)
  {
    hide Occurrences, ReportsDuplicate;
  }

  /** The findings are exactly those of the parser and one for each id used more than once. */
  lemma FindingsOfPages(parser: Parser, domain: string, pages: seq<PageSnapshot>, previous: seq<Attempt>, supplied: Option<string>)
    returns (duplicates: seq<Finding>)
    ensures AllDuplicates(duplicates, parser, pages)
    ensures multiset(Project(parser, domain, pages, previous, supplied).findings) == Reported(parser, pages) + multiset(duplicates)
  {
    hide *;
    var ordered := Sort(pages, SlugLeq);
    var all := ParsedScenarios(parser, ordered);
    var ids := Sort(Ids(all), StringLeq);
    duplicates := DuplicateFindings(all, ids);
    forall id ensures |WithId(all, id)| == Occurrences(parser, pages, id)
              ensures multiset(LocationsOf(WithId(all, id))) == Places(parser, pages, id)
              ensures Distinct(Ids(all)) && (id in Ids(all) <==> |WithId(all, id)| > 0) {
      CountOccurrences(parser, ordered, id);
      SortedPages(parser, pages, id);
      IdsOf(all, id);
    }
    IdsOf(all, "");
    CountOccurrences(parser, ordered, "");
    SortedPages(parser, pages, "");
    SameElements(Ids(all), ids);
    DistinctByCount(Ids(all), ids);
    DuplicatesOf(parser, pages, all, ids);
    AllAmong(duplicates, parser, pages, ids);
    FindingsShape(parser, domain, pages, previous, supplied, all);
  }

  // ---------------------------------------------------------------- the order of the lists

  /** At the first place where two tuples differ, the former has the lesser string; or it ends there. */
  ghost predicate Lexicographic(a: seq<string>, b: seq<string>) {
    || a <= b
    || exists k :: 0 <= k < |a| && k < |b| && a[..k] == b[..k] && a[k] != b[k] && StringLeq(a[k], b[k])
  }

  lemma {:induction false} TuplesAreLexicographic(a: seq<string>, b: seq<string>)
    requires TupleLeq(a, b)
    ensures Lexicographic(a, b)
  {
    if a != [] {
      if a[0] != b[0] {
        assert a[..0] == b[..0];
      } else {
        TuplesAreLexicographic(a[1..], b[1..]);
        assert a == [a[0]] + a[1..] && b == [b[0]] + b[1..];
        if !(a[1..] <= b[1..]) {
          var k :| 0 <= k < |a[1..]| && k < |b[1..]| && a[1..][..k] == b[1..][..k] && a[1..][k] != b[1..][k] && StringLeq(a[1..][k], b[1..][k]);
          assert a[..k + 1] == [a[0]] + a[1..][..k] && b[..k + 1] == [b[0]] + b[1..][..k];
          assert a[k + 1] == a[1..][k] && b[k + 1] == b[1..][k];
        } else {
          assert [a[0]] + a[1..] <= [b[0]] + b[1..];
        }
      }
    }
  }

  function ScenarioKey(r: ScenarioRecord): seq<string> { [r.domain, r.id, r.slug, r.heading] }

  function BindingKey(b: BindingRecord): seq<string> { [b.domain, b.scenarioId, b.id] }

  function AttemptKey(a: Attempt): seq<string> { [a.domain, a.scenarioId, a.bindingId, a.checkedAt] }

  function LocationKey(l: Location): seq<string> { [l.slug, l.heading, l.anchor] }

  /** What a finding is ordered by first; an absent part counts as the empty string. */
  function FindingKey(f: Finding): seq<string> {
    [f.kind, if f.scenarioId.Some? then f.scenarioId.value else "", if f.slug.Some? then f.slug.value else "",
     if f.heading.Some? then f.heading.value else "", if f.reason.Some? then f.reason.value else ""]
  }

  /** The lists of a projection are ordered by their keys. */
  lemma ProjectionIsOrdered(parser: Parser, domain: string, pages: seq<PageSnapshot>, previous: seq<Attempt>, supplied: Option<string>,
                            projection: DomainProjection, i: nat, j: nat)
    requires projection == Project(parser, domain, pages, previous, supplied) && i < j
    ensures j < |projection.scenarios| ==> Lexicographic(ScenarioKey(projection.scenarios[i]), ScenarioKey(projection.scenarios[j]))
    ensures j < |projection.bindings| ==> Lexicographic(BindingKey(projection.bindings[i]), BindingKey(projection.bindings[j]))
    ensures j < |projection.evidence| ==> Lexicographic(AttemptKey(projection.evidence[i]), AttemptKey(projection.evidence[j]))
    ensures j < |projection.findings| ==>
              var f, g := projection.findings[i], projection.findings[j];
              && Lexicographic(FindingKey(f), FindingKey(g))
              && (FindingKey(f) == FindingKey(g) ==> Lexicographic(f.missing, g.missing))
              && (FindingKey(f) == FindingKey(g) && f.missing == g.missing ==> LocationsInOrder(f.locations, g.locations))
  {
    hide Project, Lexicographic, LocationsInOrder, ScenarioLeq, BindingLeq, AttemptLeq, FindingLeq;
    SortedParts(parser, domain, pages, previous, supplied, projection);
    if j < |projection.scenarios| {
      ScenariosInOrder(projection.scenarios[i], projection.scenarios[j]);
    }
    if j < |projection.bindings| {
      BindingsInOrder(projection.bindings[i], projection.bindings[j]);
    }
    if j < |projection.evidence| {
      AttemptsInOrder(projection.evidence[i], projection.evidence[j]);
    }
    if j < |projection.findings| {
      FindingsInOrder(projection.findings[i], projection.findings[j]);
    }
  }

  /** As for tuples: decided by the first location that differs. */
  ghost predicate LocationsInOrder(a: seq<Location>, b: seq<Location>) {
    || a <= b
    || exists k :: 0 <= k < |a| && k < |b| && a[..k] == b[..k] && a[k] != b[k] && Lexicographic(LocationKey(a[k]), LocationKey(b[k]))
  }

  lemma {:induction false} LocationsAreInOrder(a: seq<Location>, b: seq<Location>)
    requires LocationsLeq(a, b)
    ensures LocationsInOrder(a, b)
  {
    if a != [] {
      if a[0] != b[0] {
        assert a[..0] == b[..0];
        TuplesAreLexicographic(LocationKey(a[0]), LocationKey(b[0]));
      } else {
        LocationsAreInOrder(a[1..], b[1..]);
        assert a == [a[0]] + a[1..] && b == [b[0]] + b[1..];
        if !(a[1..] <= b[1..]) {
          var k :| 0 <= k < |a[1..]| && k < |b[1..]| && a[1..][..k] == b[1..][..k] && a[1..][k] != b[1..][k]
                   && Lexicographic(LocationKey(a[1..][k]), LocationKey(b[1..][k]));
          assert a[..k + 1] == [a[0]] + a[1..][..k] && b[..k + 1] == [b[0]] + b[1..][..k];
          assert a[k + 1] == a[1..][k] && b[k + 1] == b[1..][k];
        } else {
          assert [a[0]] + a[1..] <= [b[0]] + b[1..];
        }
      }
    }
  }

  lemma ScenariosInOrder(a: ScenarioRecord, b: ScenarioRecord)
    requires ScenarioLeq(a, b)
    ensures Lexicographic(ScenarioKey(a), ScenarioKey(b))
  {
    TuplesAreLexicographic(ScenarioKey(a), ScenarioKey(b));
  }

  lemma BindingsInOrder(a: BindingRecord, b: BindingRecord)
    requires BindingLeq(a, b)
    ensures Lexicographic(BindingKey(a), BindingKey(b))
  {
    TuplesAreLexicographic(BindingKey(a), BindingKey(b));
  }

  lemma AttemptsInOrder(a: Attempt, b: Attempt)
    requires AttemptLeq(a, b)
    ensures Lexicographic(AttemptKey(a), AttemptKey(b))
  {
    TuplesAreLexicographic(AttemptKey(a), AttemptKey(b));
  }

  lemma FindingsInOrder(f: Finding, g: Finding)
    requires FindingLeq(f, g)
    ensures Lexicographic(FindingKey(f), FindingKey(g))
    ensures FindingKey(f) == FindingKey(g) ==> Lexicographic(f.missing, g.missing)
    ensures FindingKey(f) == FindingKey(g) && f.missing == g.missing ==> LocationsInOrder(f.locations, g.locations)
  {
    hide Lexicographic, LocationsInOrder, TupleLeq, LocationsLeq;
    assert FindingKey(f) == [f.kind, OrEmpty(f.scenarioId), OrEmpty(f.slug), OrEmpty(f.heading), OrEmpty(f.reason)];
    assert FindingKey(g) == [g.kind, OrEmpty(g.scenarioId), OrEmpty(g.slug), OrEmpty(g.heading), OrEmpty(g.reason)];
    if FindingKey(f) != FindingKey(g) {
      TuplesAreLexicographic(FindingKey(f), FindingKey(g));
    } else {
      SameTuple(FindingKey(f));
      if f.missing != g.missing {
        TuplesAreLexicographic(f.missing, g.missing);
      } else {
        SameTuple(f.missing);
        LocationsAreInOrder(f.locations, g.locations);
      }
    }
  }

  lemma SameTuple(a: seq<string>)
    ensures Lexicographic(a, a)
  {
  }

  lemma {:induction false} LocationsOrder(a: seq<Location>, b: seq<Location>, c: seq<Location>)
    ensures LocationsLeq(a, b) || LocationsLeq(b, a)
    ensures LocationsLeq(a, b) && LocationsLeq(b, a) ==> a == b
    ensures LocationsLeq(a, b) && LocationsLeq(b, c) ==> LocationsLeq(a, c)
    decreases |a|
  {
    if a != [] && b != [] {
      var c0 := if c == [] then Location("", "", "") else c[0];
      var cs := if c == [] then [] else c[1..];
      LocationTotal(a[0], b[0], c0);
      LocationTotal(b[0], c0, a[0]);
      LocationsOrder(a[1..], b[1..], cs);
      assert a == [a[0]] + a[1..] && b == [b[0]] + b[1..];
    }
  }

  lemma LocationTotal(a: Location, b: Location, c: Location)
    ensures LocationLeq(a, b) || LocationLeq(b, a)
    ensures LocationLeq(a, b) && LocationLeq(b, a) ==> a == b
    ensures LocationLeq(a, b) && LocationLeq(b, c) ==> LocationLeq(a, c)
  {
    TupleOrder(LocationKey(a), LocationKey(b), LocationKey(c));
    assert LocationKey(a) == LocationKey(b) ==> LocationKey(a)[0] == LocationKey(b)[0] && LocationKey(a)[1] == LocationKey(b)[1] && LocationKey(a)[2] == LocationKey(b)[2];
  }

  lemma FindingTotal(a: Finding, b: Finding, c: Finding)
    ensures FindingLeq(a, b) || FindingLeq(b, a)
    ensures FindingLeq(a, b) && FindingLeq(b, c) ==> FindingLeq(a, c)
  {
    hide TupleLeq, LocationsLeq;
    var x := [a.kind, OrEmpty(a.scenarioId), OrEmpty(a.slug), OrEmpty(a.heading), OrEmpty(a.reason)];
    var y := [b.kind, OrEmpty(b.scenarioId), OrEmpty(b.slug), OrEmpty(b.heading), OrEmpty(b.reason)];
    var z := [c.kind, OrEmpty(c.scenarioId), OrEmpty(c.slug), OrEmpty(c.heading), OrEmpty(c.reason)];
    hide OrEmpty;
    TupleOrder(x, y, z);
    TupleOrder(y, z, x);
    TupleOrder(a.missing, b.missing, c.missing);
    TupleOrder(b.missing, c.missing, a.missing);
    LocationsOrder(a.locations, b.locations, c.locations);
  }

  lemma SortedParts(parser: Parser, domain: string, pages: seq<PageSnapshot>, previous: seq<Attempt>, supplied: Option<string>,
                    projection: DomainProjection)
    requires projection == Project(parser, domain, pages, previous, supplied)
    ensures Sorted(projection.scenarios, ScenarioLeq) && Sorted(projection.bindings, BindingLeq)
    ensures Sorted(projection.evidence, AttemptLeq) && Sorted(projection.findings, FindingLeq)
  {
    hide *;
    KeyOrders();
    var ordered := Sort(pages, SlugLeq);
    var all, incomplete := ParsedScenarios(parser, ordered), Incomplete(parser, ordered);
    SortSorted(KeptScenarios(all, incomplete, all), ScenarioLeq);
    SortSorted(KeptBindings(all, incomplete, all), BindingLeq);
    SortSorted(Latest(Hashes(projection.scenarios), BindingKeys(projection.bindings), previous), AttemptLeq);
    SortSorted(ParserFindings(parser, ordered) + DuplicateFindings(all, Sort(Ids(all), StringLeq)), FindingLeq);
    Parts(parser, domain, pages, previous, supplied, projection);
  }

  lemma Parts(parser: Parser, domain: string, pages: seq<PageSnapshot>, previous: seq<Attempt>, supplied: Option<string>,
              projection: DomainProjection)
    requires projection == Project(parser, domain, pages, previous, supplied)
    ensures var ordered := Sort(pages, SlugLeq);
            var all, incomplete := ParsedScenarios(parser, ordered), Incomplete(parser, ordered);
            && projection.scenarios == Sort(KeptScenarios(all, incomplete, all), ScenarioLeq)
            && projection.bindings == Sort(KeptBindings(all, incomplete, all), BindingLeq)
            && projection.evidence == Sort(Latest(Hashes(projection.scenarios), BindingKeys(projection.bindings), previous), AttemptLeq)
            && projection.findings == Sort(ParserFindings(parser, ordered) + DuplicateFindings(all, Sort(Ids(all), StringLeq)), FindingLeq)
  {
  }

  lemma KeyOrders()
    ensures TotalPreorder(ScenarioLeq) && TotalPreorder(BindingLeq) && TotalPreorder(AttemptLeq) && TotalPreorder(FindingLeq)
  {
    hide TupleLeq, FindingLeq;
    AttemptOrder();
    forall a: ScenarioRecord, b: ScenarioRecord, c: ScenarioRecord
      ensures ScenarioLeq(a, b) || ScenarioLeq(b, a)
      ensures ScenarioLeq(a, b) && ScenarioLeq(b, c) ==> ScenarioLeq(a, c)
    {
      TupleOrder(ScenarioKey(a), ScenarioKey(b), ScenarioKey(c));
    }
    forall a: BindingRecord, b: BindingRecord, c: BindingRecord
      ensures BindingLeq(a, b) || BindingLeq(b, a)
      ensures BindingLeq(a, b) && BindingLeq(b, c) ==> BindingLeq(a, c)
    {
      TupleOrder(BindingKey(a), BindingKey(b), BindingKey(c));
    }
    forall a: Finding, b: Finding, c: Finding
      ensures FindingLeq(a, b) || FindingLeq(b, a)
      ensures FindingLeq(a, b) && FindingLeq(b, c) ==> FindingLeq(a, c)
    {
      FindingTotal(a, b, c);
    }
  }
}
