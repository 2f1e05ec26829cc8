/** Resolving a scenario's bindings against a moving code graph, and reading the evidence back. */
module Resolution {
  import opened Options
  import opened Projection

  // ---------------------------------------------------------------- graph status

  const STATE_CODES: set<string> := {
    "ready", "not_configured", "disabled", "missing", "dirty", "rebuilding", "failed",
    "stale_graph", "source_unavailable", "not_primary"}

  const REASON_CODES: set<string> := (STATE_CODES - {"ready"}) + {"revision_changed"}

  const ALIASES: map<string, string> := map[
    "missing_snapshot" := "missing", "stale_snapshot" := "stale_graph", "busy" := "rebuilding",
    "invalid_config" := "failed", "rebuild_failed" := "failed"]

  /** What a resolver reports about itself. */
  datatype Status = Status(
    state: Option<string>, isFresh: Option<bool>, reason: Option<string>,
    code: Option<string>, error: Option<string>, revision: Option<string>)

  predicate AlphaNumeric(c: char) { 'A' <= c <= 'Z' || 'a' <= c <= 'z' || '0' <= c <= '9' }

  predicate SafeRevision(r: string) {
    && 1 <= |r| <= 256 && AlphaNumeric(r[0])
    && forall i :: 1 <= i < |r| ==> AlphaNumeric(r[i]) || r[i] in {':', '.', '_', '-'}
  }

  function Safe(r: Option<string>): Option<string> { if r.Some? && SafeRevision(r.value) then r else None }

  function GraphReason(value: Option<string>): string {
    if value.None? then "failed"
    else if value.value in REASON_CODES then value.value
    else if value.value in ALIASES then ALIASES[value.value]
    else "failed"
  }

  /** The first candidate that names a reason; an unknown one counts as `failed` only if nothing better follows. */
  function FirstReason(candidates: seq<Option<string>>, sofar: Option<string>): Option<string> {
    if candidates == [] then sofar
    else if candidates[0].None? then FirstReason(candidates[1..], sofar)
    else
      var reason := GraphReason(candidates[0]);
      if reason != "failed" || candidates[0].value == "failed" then Some(reason)
      else FirstReason(candidates[1..], Some(reason))
  }

  /** `normalized_graph_state`; `None` is a resolver that raised. */
  function Normalized(status: Option<Status>): GraphState {
    match status
    case None => GraphState("failed", Some("failed"), None)
    case Some(s) =>
      if s.state == Some("ready") && s.isFresh != Some(false) && Safe(s.revision).Some? then
        GraphState("ready", None, Safe(s.revision))
      else
        var reason := FirstReason([s.reason, s.code, s.error, s.state], None);
        var r := if reason.Some? then reason.value else "failed";
        GraphState(r, Some(r), Safe(s.revision))
  }

  /** `graph_state_fingerprint`: the allowed fields, before an injective digest. */
  function Fingerprint(g: GraphState): GraphState {
    GraphState(
      if g.state in STATE_CODES then g.state else "failed",
      if g.reason.None? || g.reason.value in REASON_CODES then g.reason else Some("failed"),
      Safe(g.revision))
  }

  // ---------------------------------------------------------------- freshness

  datatype Freshness = NotChecked | Fresh | StaleSpec | StaleGraph

  function EvidenceFreshness(attempt: Option<Attempt>, sourceHash: Digest, now: GraphState): Freshness {
    match attempt
    case None => NotChecked
    case Some(a) =>
      if a.sourceHash != sourceHash then StaleSpec
      else if a.state.GraphUnavailable? then
        if now.state == "ready" then StaleGraph
        else if a.graphStateFingerprint != Fingerprint(now) then StaleGraph
        else Fresh
      else if now.state != "ready" || a.graphRevision != now.revision then StaleGraph
      else Fresh
  }

  // ---------------------------------------------------------------- one resolution

  datatype ScenarioContext = ScenarioContext(scenario: ScenarioRecord, bindings: seq<BindingRecord>, evidence: seq<Attempt>)

  datatype Snapshot = NoSnapshot | SnapshotRaised | Ready(revision: string)

  /** What the world answers during one call, in the order the call asks. */
  datatype Answers = Answers(
    first: Option<ScenarioContext>,
    statusBefore: Option<Status>,
    snapshot: Snapshot,
    second: Option<ScenarioContext>,
    statusAfter: Option<Status>)

  /** The targets a selector has in one graph revision, sorted and without repeats. */
  type Linker = (string, BindingRecord) -> seq<string>

  datatype ResolveResult = NotFound | SourceChanged | PersistenceUnavailable | Resolution(graphRevision: Option<string>, evidence: seq<Attempt>)

  function UnavailableAttempt(c: ScenarioContext, b: BindingRecord, g: GraphState, checkedAt: string, reason: string): Attempt {
    Attempt(b.id, b.domain, b.scenarioId, GraphUnavailable, [], Some(b.selector), None,
            Fingerprint(GraphState(reason, Some(reason), g.revision)), c.scenario.sourceHash, checkedAt, Some(reason))
  }

  function LinkedAttempt(c: ScenarioContext, b: BindingRecord, g: GraphState, revision: string, checkedAt: string, linker: Linker): Attempt {
    var targets := linker(revision, b);
    Attempt(b.id, b.domain, b.scenarioId,
            if |targets| == 0 then Unresolved else if |targets| == 1 then Resolved else Ambiguous,
            targets, if |targets| == 0 then Some(b.selector) else None, Some(revision),
            Fingerprint(g), c.scenario.sourceHash, checkedAt, None)
  }

  /** The evidence for one binding, as a function of what the world answered. */
  function AttemptFor(c: ScenarioContext, b: BindingRecord, before: GraphState, snapshot: Snapshot, after: GraphState, checkedAt: string, linker: Linker): Attempt {
    var asked := before.state == "ready";
    if !asked || snapshot.NoSnapshot? then UnavailableAttempt(c, b, before, checkedAt, GraphReason(before.reason))
    else if snapshot.SnapshotRaised? then UnavailableAttempt(c, b, GraphState("failed", Some("failed"), None), checkedAt, "failed")
    else if after.state != "ready" || after.revision != Some(snapshot.revision) then
      UnavailableAttempt(c, b, after, checkedAt,
                         if after.revision != Some(snapshot.revision) then "revision_changed" else GraphReason(after.reason))
    else if before.revision != Some(snapshot.revision) then UnavailableAttempt(c, b, before, checkedAt, "revision_changed")
    else LinkedAttempt(c, b, before, snapshot.revision, checkedAt, linker)
  }

  ghost predicate AllAttempts(attempts: seq<Attempt>, c: ScenarioContext, before: GraphState, snapshot: Snapshot,
                              after: GraphState, checkedAt: string, linker: Linker)
  {
    && |attempts| == |c.bindings|
    && forall i :: 0 <= i < |attempts| ==>
         attempts[i] == AttemptFor(c, c.bindings[i], before, snapshot, after, checkedAt, linker)
  }

  class SpecificationService {
    /** The persisted evidence, one attempt per binding. */
    var evidence: map<Key, Attempt>
    const batchWrites: bool

    constructor (batchWrites: bool)
      ensures this.batchWrites == batchWrites && evidence == map[]
    {
      this.batchWrites, evidence := batchWrites, map[];
    }

    method UnavailableAttempts(c: ScenarioContext, g: GraphState, checkedAt: string, reason: string) returns (attempts: seq<Attempt>)
      ensures |attempts| == |c.bindings|
      ensures forall i :: 0 <= i < |attempts| ==> attempts[i] == UnavailableAttempt(c, c.bindings[i], g, checkedAt, reason)
    {
      attempts := [];
      for i := 0 to |c.bindings|
        invariant |attempts| == i
        invariant forall k :: 0 <= k < i ==> attempts[k] == UnavailableAttempt(c, c.bindings[k], g, checkedAt, reason)
      {
        attempts := attempts + [UnavailableAttempt(c, c.bindings[i], g, checkedAt, reason)];
      }
    }

    method Persist(attempts: seq<Attempt>) returns (ok: bool)
      modifies this
      ensures ok <==> batchWrites || |attempts| == 1
      ensures !ok ==> evidence == old(evidence)
      ensures ok ==> Stored(attempts, old(evidence), evidence)
    {
      ok := batchWrites || |attempts| == 1;
      if ok {
        var before := evidence;
        for i := 0 to |attempts|
          invariant Stored(attempts[..i], before, evidence)
        {
          assert attempts[..i + 1] == attempts[..i] + [attempts[i]];
          evidence := evidence[attempts[i].Key() := attempts[i]];
        }
        assert attempts[..|attempts|] == attempts;
      }
    }

    /** The attempts of the first pass: `held` is the snapshot they were linked in, if there was one. */
    method Gather(c: ScenarioContext, before: GraphState, snapshot: Snapshot, checkedAt: string, linker: Linker)
      returns (held: Snapshot, attempts: seq<Attempt>)
      ensures held == (if before.state == "ready" && snapshot.Ready? then snapshot else NoSnapshot)
      ensures AllAttempts(attempts, c, before, snapshot,
                          if held.Ready? then GraphState("ready", None, Some(held.revision)) else before, checkedAt, linker)
    {
      held := NoSnapshot;
      var state := before;
      if before.state == "ready" {
        if snapshot.SnapshotRaised? {
          state := GraphState("failed", Some("failed"), None);
        } else {
          held := snapshot;
        }
      }
      if !held.Ready? {
        attempts := UnavailableAttempts(c, state, checkedAt, GraphReason(state.reason));
      } else if Some(held.revision) != state.revision {
        attempts := UnavailableAttempts(c, state, checkedAt, "revision_changed");
      } else {
        attempts := [];
        for i := 0 to |c.bindings|
          invariant |attempts| == i
          invariant forall k :: 0 <= k < i ==>
                      attempts[k] == LinkedAttempt(c, c.bindings[k], state, held.revision, checkedAt, linker)
        {
          attempts := attempts + [LinkedAttempt(c, c.bindings[i], state, held.revision, checkedAt, linker)];
        }
      }
    }

    /** The attempts after the graph was asked again: a snapshot that no longer stands takes its links with it. */
    method Recheck(c: ScenarioContext, before: GraphState, snapshot: Snapshot, after: GraphState, checkedAt: string, linker: Linker)
      returns (held: Snapshot, attempts: seq<Attempt>)
      ensures held == (if before.state == "ready" && snapshot.Ready? then snapshot else NoSnapshot)
      ensures AllAttempts(attempts, c, before, snapshot, after, checkedAt, linker)
    {
      held, attempts := Gather(c, before, snapshot, checkedAt, linker);
      if held.Ready? && (after.state != "ready" || after.revision != Some(held.revision)) {
        var reason := if after.revision != Some(held.revision) then "revision_changed" else GraphReason(after.reason);
        attempts := UnavailableAttempts(c, after, checkedAt, reason);
      }
    }

    /** Read, resolve, read again, persist. */
    method Resolve(world: Answers, checkedAt: string, linker: Linker) returns (r: ResolveResult)
      modifies this
      ensures r.NotFound? <==> world.first.None?
      ensures r.SourceChanged? <==>
                && world.first.Some?
                && (world.second.None? || world.second.value.scenario.sourceHash != world.first.value.scenario.sourceHash)
      ensures !r.Resolution? ==> evidence == old(evidence)
      ensures r.Resolution? ==>
                && AllAttempts(r.evidence, world.first.value, Normalized(world.statusBefore), world.snapshot,
                               Normalized(world.statusAfter), checkedAt, linker)
                && Stored(r.evidence, old(evidence), evidence)
                && (r.graphRevision.Some? <==>
                      && Normalized(world.statusBefore).state == "ready" && world.snapshot.Ready?
                      && forall a :: a in r.evidence ==> !a.state.GraphUnavailable?)
                && (r.graphRevision.Some? ==> world.snapshot == Ready(r.graphRevision.value))
      ensures r.PersistenceUnavailable? <==>
                && world.first.Some? && world.second.Some?
                && world.second.value.scenario.sourceHash == world.first.value.scenario.sourceHash
                && !batchWrites && |world.first.value.bindings| != 1
    {
      if world.first.None? {
        return NotFound;
      }
      var context := world.first.value;
      var held, attempts := Recheck(context, Normalized(world.statusBefore), world.snapshot,
                                    Normalized(world.statusAfter), checkedAt, linker);
      if world.second.None? || world.second.value.scenario.sourceHash != context.scenario.sourceHash {
        return SourceChanged;
      }
      var ok := Persist(attempts);
      if !ok {
        return PersistenceUnavailable;
      }
      r := Resolution(
        if held.Ready? && forall a :: a in attempts ==> !a.state.GraphUnavailable? then Some(held.revision) else None,
        attempts);
    }

    /** `context`: the freshness of every binding of a scenario. */
    method ContextFreshness(c: ScenarioContext, now: GraphState) returns (freshness: seq<(string, Freshness)>)
      ensures |freshness| == |c.bindings|
      ensures forall i :: 0 <= i < |freshness| ==>
                freshness[i] == (c.bindings[i].id, EvidenceFreshness(Lookup(ByKey(c.evidence), c.bindings[i].Key()), c.scenario.sourceHash, now))
    {
      var evidence := ByKey(c.evidence);
      freshness := [];
      for i := 0 to |c.bindings|
        invariant |freshness| == i
        invariant forall k :: 0 <= k < i ==>
                    freshness[k] == (c.bindings[k].id, EvidenceFreshness(Lookup(evidence, c.bindings[k].Key()), c.scenario.sourceHash, now))
      {
        var b := c.bindings[i];
        freshness := freshness + [(b.id, EvidenceFreshness(Lookup(evidence, b.Key()), c.scenario.sourceHash, now))];
      }
    }
  }

  function ByKey(attempts: seq<Attempt>): map<Key, Attempt> {
    if attempts == [] then map[]
    else ByKey(attempts[..|attempts| - 1])[attempts[|attempts| - 1].Key() := attempts[|attempts| - 1]]
  }

  /** Every attempt of the batch is stored, the last one of a binding, and nothing else changed. */
  ghost predicate Stored(attempts: seq<Attempt>, before: map<Key, Attempt>, after: map<Key, Attempt>) {
    && (forall k :: (forall a :: a in attempts ==> a.Key() != k) ==> Lookup(after, k) == Lookup(before, k))
    && (forall a :: a in attempts ==> a.Key() in after && after[a.Key()] in attempts && after[a.Key()].Key() == a.Key())
  }

  // ---------------------------------------------------------------- resolution and freshness agree

  lemma NormalizedShape(status: Option<Status>)
    ensures var g := Normalized(status);
            && (g.state == "ready" ==> g.reason.None? && g.revision.Some? && SafeRevision(g.revision.value))
            && (g.state != "ready" ==> g.reason == Some(g.state) && g.state in REASON_CODES)
            && Safe(g.revision) == g.revision
  {
    if status.Some? {
      var s := status.value;
      FirstReasonIsAllowed([s.reason, s.code, s.error, s.state], None);
    }
  }

  lemma {:induction false} FirstReasonIsAllowed(candidates: seq<Option<string>>, sofar: Option<string>)
    requires sofar.Some? ==> sofar.value in REASON_CODES
    ensures var r := FirstReason(candidates, sofar); r.Some? ==> r.value in REASON_CODES
  {
    if candidates != [] {
      assert GraphReason(candidates[0]) in REASON_CODES;
      FirstReasonIsAllowed(candidates[1..], if candidates[0].None? then sofar else Some(GraphReason(candidates[0])));
    }
  }

  const UPPER := "ABCDEFGHIJKLMNOPQRSTUVWXYZ"
  const LOWER := "abcdefghijklmnopqrstuvwxyz"
  const DIGITS := "0123456789"

  lemma UpperMeaning(c: char)
    ensures 'A' <= c <= 'Z' <==> c in UPPER
  {
    if 'A' <= c <= 'Z' {
      assert UPPER[c as int - 'A' as int] == c;
    }
  }

  lemma LowerMeaning(c: char)
    ensures 'a' <= c <= 'z' <==> c in LOWER
  {
    if 'a' <= c <= 'z' {
      assert LOWER[c as int - 'a' as int] == c;
    }
  }

  lemma DigitMeaning(c: char)
    ensures '0' <= c <= '9' <==> c in DIGITS
  {
    if '0' <= c <= '9' {
      assert DIGITS[c as int - '0' as int] == c;
    }
  }

  predicate LetterOrDigit(c: char) { c in UPPER || c in LOWER || c in DIGITS }

  lemma AlphaNumericMeaning(c: char)
    ensures AlphaNumeric(c) <==> LetterOrDigit(c)
  {
    UpperMeaning(c);
    LowerMeaning(c);
    DigitMeaning(c);
  }

  /** A revision that may be shown: up to 256 letters, digits and the marks `:._-`, and no mark first. */
  lemma SafeRevisionMeaning(r: string)
    ensures SafeRevision(r) <==>
            && r != "" && |r| < 257 && LetterOrDigit(r[0])
            && forall c :: c in r ==> LetterOrDigit(c) || c in ":._-"
  {
    hide AlphaNumeric, LetterOrDigit;
    forall c ensures AlphaNumeric(c) <==> LetterOrDigit(c)
             ensures c in ":._-" <==> c in {':', '.', '_', '-'} {
      AlphaNumericMeaning(c);
      assert ":._-" == [':', '.', '_', '-'];
    }
    if SafeRevision(r) {
      forall c | c in r ensures LetterOrDigit(c) || c in ":._-" {
        var i :| 0 <= i < |r| && r[i] == c;
      }
    }
    assert forall i :: 0 <= i < |r| ==> r[i] in r;
  }

  /** What a resolver may say about itself, in the order in which it is believed. */
  function Hints(s: Status): seq<Option<string>> { [s.reason, s.code, s.error, s.state] }

  /** A hint that names a reason, rather than standing for any failure. */
  predicate Decisive(hint: Option<string>) {
    hint.Some? && (hint.value == "failed" || GraphReason(hint) != "failed")
  }

  lemma {:induction false} FirstDecisive(hints: seq<Option<string>>, sofar: Option<string>)
    requires sofar in {None, Some("failed")}
    ensures var r := FirstReason(hints, sofar);
            && (forall i :: 0 <= i < |hints| && Decisive(hints[i]) && (forall j :: 0 <= j < i ==> !Decisive(hints[j])) ==>
                  r == Some(GraphReason(hints[i])))
            && ((forall i :: 0 <= i < |hints| ==> !Decisive(hints[i])) ==> r in {None, Some("failed")})
  {
    if hints != [] {
      hide GraphReason;
      var next := if hints[0].None? then sofar else Some("failed");
      FirstDecisive(hints[1..], next);
      assert hints == [hints[0]] + hints[1..];
      if !Decisive(hints[0]) {
        assert FirstReason(hints, sofar) == FirstReason(hints[1..], next);
        forall i | 0 <= i < |hints| && Decisive(hints[i]) && (forall j :: 0 <= j < i ==> !Decisive(hints[j]))
          ensures FirstReason(hints, sofar) == Some(GraphReason(hints[i]))
        {
          assert i > 0 && hints[1..][i - 1] == hints[i];
          assert forall j :: 0 <= j < i - 1 ==> hints[1..][j] == hints[j + 1];
        }
        assert forall i :: 0 <= i < |hints[1..]| ==> hints[1..][i] == hints[i + 1];
      }
    }
  }

  /**
   A state is ready exactly when the resolver says so, is not stale, and names a safe
   revision; otherwise it is the reason of the first hint that names one, else `failed`.
   */
  lemma NormalizedMeaning(s: Status)
    ensures var g := Normalized(Some(s));
            && (g.state == "ready" <==>
                  s.state == Some("ready") && s.isFresh != Some(false) && s.revision.Some? && SafeRevision(s.revision.value))
            && (g.revision == s.revision || g.revision == None)
            && (g.revision == None <==> s.revision == None || !SafeRevision(s.revision.value))
            && (g.state != "ready" ==>
                  forall i :: 0 <= i < 4 && Decisive(Hints(s)[i]) && (forall j :: 0 <= j < i ==> !Decisive(Hints(s)[j])) ==>
                    g.state == GraphReason(Hints(s)[i]))
            && (g.state != "ready" && (forall i :: 0 <= i < 4 ==> !Decisive(Hints(s)[i])) ==> g.state == "failed")
    ensures Normalized(None) == GraphState("failed", Some("failed"), None)
  {
    hide SafeRevision, GraphReason;
    NormalizedShape(Some(s));
    FirstDecisive(Hints(s), None);
  }

  /** The public fields of any state: unknown codes become `failed`, and an unsafe revision none. */
  lemma FingerprintMeaning(g: GraphState)
    ensures Fingerprint(g).state == g.state || (g.state !in STATE_CODES && Fingerprint(g).state == "failed")
    ensures Fingerprint(g).state in STATE_CODES
    ensures Fingerprint(g).reason == g.reason
            || (g.reason.Some? && g.reason.value !in REASON_CODES && Fingerprint(g).reason == Some("failed"))
    ensures Fingerprint(g).reason.Some? ==> Fingerprint(g).reason.value in REASON_CODES
    ensures Fingerprint(g).revision == g.revision || (Fingerprint(g).revision.None? && !SafeRevision(g.revision.value))
    ensures Fingerprint(g).revision.Some? ==> SafeRevision(g.revision.value)
  {
  }

  /** The dictionary of evidence finds the last attempt of a binding. */
  lemma {:induction false} ByKeyFindsLast(attempts: seq<Attempt>, k: Key)
    ensures k in ByKey(attempts) <==> exists a :: a in attempts && a.Key() == k
    ensures k in ByKey(attempts) ==>
              exists i :: && 0 <= i < |attempts| && ByKey(attempts)[k] == attempts[i] && attempts[i].Key() == k
                          && forall j :: i < j < |attempts| ==> attempts[j].Key() != k
  {
    if attempts != [] {
      var init, last := attempts[..|attempts| - 1], attempts[|attempts| - 1];
      assert attempts == init + [last];
      ByKeyFindsLast(init, k);
      if last.Key() == k {
        assert attempts[|init|].Key() == k;
      } else if k in ByKey(init) {
        var i :| 0 <= i < |init| && ByKey(init)[k] == init[i] && init[i].Key() == k && forall j :: i < j < |init| ==> init[j].Key() != k;
        assert attempts[i] == init[i];
      }
    }
  }

  /** On the states a service can observe, the fingerprint loses nothing. */
  lemma FingerprintIsInjective(a: Option<Status>, b: Option<Status>)
    requires Fingerprint(Normalized(a)) == Fingerprint(Normalized(b))
    ensures Normalized(a) == Normalized(b)
  {
    NormalizedShape(a);
    NormalizedShape(b);
  }

  /** Linked evidence names a revision that was ready, and the same, before and after. */
  lemma LinkedNamesReadyRevision(c: ScenarioContext, b: BindingRecord, before: Option<Status>, snapshot: Snapshot, after: Option<Status>, checkedAt: string, linker: Linker)
    ensures var a := AttemptFor(c, b, Normalized(before), snapshot, Normalized(after), checkedAt, linker);
            !a.state.GraphUnavailable? <==>
            && Normalized(before).state == "ready" && Normalized(after).state == "ready" && snapshot.Ready?
            && Normalized(before).revision == Normalized(after).revision == Some(snapshot.revision)
    ensures var a := AttemptFor(c, b, Normalized(before), snapshot, Normalized(after), checkedAt, linker);
            !a.state.GraphUnavailable? ==> a.graphRevision == Some(snapshot.revision) && a.targets == linker(snapshot.revision, b)
    ensures var a := AttemptFor(c, b, Normalized(before), snapshot, Normalized(after), checkedAt, linker);
            a.Key() == b.Key() && a.sourceHash == c.scenario.sourceHash
  {
  }

  /** Linked evidence is resolved, ambiguous or unresolved for one, several or no targets; only the last names the selector. */
  lemma LinkedState(c: ScenarioContext, b: BindingRecord, before: Option<Status>, snapshot: Snapshot, after: Option<Status>, checkedAt: string, linker: Linker)
    requires snapshot.Ready? && Normalized(before).state == "ready" && Normalized(after).state == "ready"
    requires Normalized(before).revision == Normalized(after).revision == Some(snapshot.revision)
    ensures var a := AttemptFor(c, b, Normalized(before), snapshot, Normalized(after), checkedAt, linker);
            var targets := linker(snapshot.revision, b);
            && (a.state.Resolved? <==> exists t :: targets == [t])
            && (a.state.Ambiguous? <==> |targets| > 1)
            && (a.state.Unresolved? <==> targets == [])
            && (a.unresolvedReference == Some(b.selector) <==> targets == [])
            && (a.unresolvedReference.None? <==> targets != [])
            && a.reason.None? && a.checkedAt == checkedAt
  {
    var targets := linker(snapshot.revision, b);
    if |targets| == 1 {
      assert targets == [targets[0]];
    }
  }

  /** Evidence without links has no target and no revision, and names the selector and why. */
  lemma UnlinkedState(c: ScenarioContext, b: BindingRecord, before: Option<Status>, snapshot: Snapshot, after: Option<Status>, checkedAt: string, linker: Linker)
    requires Unlinked(Normalized(before), snapshot, Normalized(after))
    ensures var a := AttemptFor(c, b, Normalized(before), snapshot, Normalized(after), checkedAt, linker);
            && a.state.GraphUnavailable? && a.targets == [] && a.graphRevision.None?
            && a.unresolvedReference == Some(b.selector) && a.checkedAt == checkedAt
            && a.reason.Some? && a.reason.value in REASON_CODES
  {
    NormalizedShape(before);
    NormalizedShape(after);
  }

  /** Linked evidence is fresh exactly while its source hash and its ready revision stand. */
  lemma LinkedFreshness(c: ScenarioContext, b: BindingRecord, before: Option<Status>, snapshot: Snapshot, after: Option<Status>,
                        checkedAt: string, linker: Linker, hash: Digest, now: Option<Status>)
    requires snapshot.Ready? && Normalized(before).state == "ready" && Normalized(after).state == "ready"
    requires Normalized(before).revision == Normalized(after).revision == Some(snapshot.revision)
    ensures var a := AttemptFor(c, b, Normalized(before), snapshot, Normalized(after), checkedAt, linker);
            var f := EvidenceFreshness(Some(a), hash, Normalized(now));
            && (f == Fresh <==> hash == c.scenario.sourceHash && Normalized(now) == Normalized(after))
            && (f == StaleSpec <==> hash != c.scenario.sourceHash)
  {
    NormalizedShape(now);
    NormalizedShape(after);
    LinkedNamesReadyRevision(c, b, before, snapshot, after, checkedAt, linker);
  }

  /** The binding could not be linked. */
  predicate Unlinked(before: GraphState, snapshot: Snapshot, after: GraphState) {
    !(before.state == "ready" && after.state == "ready" && snapshot.Ready?
      && before.revision == after.revision == Some(snapshot.revision))
  }

  /** The state that evidence without links records. */
  function Recorded(before: GraphState, snapshot: Snapshot, after: GraphState): GraphState {
    if before.state != "ready" then before
    else if snapshot.NoSnapshot? then GraphState("failed", Some("failed"), before.revision)
    else if snapshot.SnapshotRaised? then GraphState("failed", Some("failed"), None)
    else if after.revision != Some(snapshot.revision) then GraphState("revision_changed", Some("revision_changed"), after.revision)
    else if after.state != "ready" then after
    else GraphState("revision_changed", Some("revision_changed"), before.revision)
  }

  /** Evidence without links reads fresh exactly while the source stands and the graph shows the recorded state. */
  lemma UnlinkedFreshness(c: ScenarioContext, b: BindingRecord, before: Option<Status>, snapshot: Snapshot, after: Option<Status>,
                          checkedAt: string, linker: Linker, hash: Digest, now: Option<Status>)
    requires Unlinked(Normalized(before), snapshot, Normalized(after))
    ensures var a := AttemptFor(c, b, Normalized(before), snapshot, Normalized(after), checkedAt, linker);
            && a.state.GraphUnavailable?
            && a.reason == Recorded(Normalized(before), snapshot, Normalized(after)).reason
            && (EvidenceFreshness(Some(a), hash, Normalized(now)) == Fresh <==>
                hash == c.scenario.sourceHash && Normalized(now) == Recorded(Normalized(before), snapshot, Normalized(after)))
  {
    NormalizedShape(before);
    NormalizedShape(after);
    NormalizedShape(now);
  }

  /** A graph that was not ready when asked reads back fresh exactly until its state or the source changes. */
  lemma UnreadyFreshness(c: ScenarioContext, b: BindingRecord, before: Option<Status>, snapshot: Snapshot, after: Option<Status>,
                         checkedAt: string, linker: Linker, hash: Digest, now: Option<Status>)
    requires Normalized(before).state != "ready"
    ensures var a := AttemptFor(c, b, Normalized(before), snapshot, Normalized(after), checkedAt, linker);
            && a.state.GraphUnavailable?
            && (EvidenceFreshness(Some(a), hash, Normalized(now)) == Fresh <==>
                hash == c.scenario.sourceHash && Normalized(now) == Normalized(before))
  {
    UnlinkedFreshness(c, b, before, snapshot, after, checkedAt, linker, hash, now);
  }

  /** The branches in which evidence reads fresh at the very state the call saw last. */
  predicate FreshAtLastLook(before: GraphState, snapshot: Snapshot, after: GraphState) {
    if before.state != "ready" then after == before
    else if snapshot.NoSnapshot? then after.state == "failed" && after.revision == before.revision
    else if snapshot.SnapshotRaised? then after.state == "failed" && after.revision.None?
    else if after.revision != Some(snapshot.revision) then after.state == "revision_changed"
    else after.state != "ready" || before.revision == after.revision
  }

  /** Whether evidence reads fresh at the state seen last, for everything the two looks at the graph may have found. */
  lemma LastLookFreshness(c: ScenarioContext, b: BindingRecord, before: Option<Status>, snapshot: Snapshot, after: Option<Status>,
                          checkedAt: string, linker: Linker)
    ensures var a := AttemptFor(c, b, Normalized(before), snapshot, Normalized(after), checkedAt, linker);
            EvidenceFreshness(Some(a), c.scenario.sourceHash, Normalized(after)) == Fresh <==>
            FreshAtLastLook(Normalized(before), snapshot, Normalized(after))
  {
    NormalizedShape(before);
    NormalizedShape(after);
    if Unlinked(Normalized(before), snapshot, Normalized(after)) {
      UnlinkedFreshness(c, b, before, snapshot, after, checkedAt, linker, c.scenario.sourceHash, after);
    } else {
      LinkedFreshness(c, b, before, snapshot, after, checkedAt, linker, c.scenario.sourceHash, after);
    }
  }

  /** A ready graph that turns out missing, and reports no revision, leaves evidence that is stale at once. */
  lemma LostGraphIsStaleAtOnce(c: ScenarioContext, b: BindingRecord, checkedAt: string, linker: Linker)
    ensures var ready := Status(Some("ready"), None, None, None, None, Some("r1"));
            var gone := Status(Some("missing"), Some(false), None, None, Some("missing_snapshot"), None);
            var a := AttemptFor(c, b, Normalized(Some(ready)), Ready("r1"), Normalized(Some(gone)), checkedAt, linker);
            && a.state.GraphUnavailable? && a.reason == Some("revision_changed")
            && Normalized(Some(gone)).state == "missing"
            && EvidenceFreshness(Some(a), c.scenario.sourceHash, Normalized(Some(gone))) == StaleGraph
  {
    var ready := Status(Some("ready"), None, None, None, None, Some("r1"));
    var gone := Status(Some("missing"), Some(false), None, None, Some("missing_snapshot"), None);
    assert SafeRevision("r1") && Normalized(Some(ready)).revision == Some("r1");
    MissingIsMissing(gone);
    LastLookFreshness(c, b, Some(ready), Ready("r1"), Some(gone), checkedAt, linker);
  }

  lemma MissingIsMissing(gone: Status)
    requires gone == Status(Some("missing"), Some(false), None, None, Some("missing_snapshot"), None)
    ensures Normalized(Some(gone)) == GraphState("missing", Some("missing"), None)
  {
    assert GraphReason(Some("missing_snapshot")) == "missing";
    var candidates := [None, None, Some("missing_snapshot"), Some("missing")];
    assert candidates[1..] == [None, Some("missing_snapshot"), Some("missing")];
    assert candidates[1..][1..] == [Some("missing_snapshot"), Some("missing")];
    assert FirstReason(candidates[1..][1..], None) == Some("missing");
    assert FirstReason(candidates[1..], None) == Some("missing");
    assert FirstReason(candidates, None) == Some("missing");
  }

  /** What a call stored for a binding is what a later read of that binding's evidence finds. */
  lemma ReadsBack(attempts: seq<Attempt>, c: ScenarioContext, before: GraphState, snapshot: Snapshot, after: GraphState,
                  checkedAt: string, linker: Linker, was: map<Key, Attempt>, now: map<Key, Attempt>, i: nat)
    requires AllAttempts(attempts, c, before, snapshot, after, checkedAt, linker)
    requires Stored(attempts, was, now)
    requires forall j, k :: 0 <= j < k < |c.bindings| ==> c.bindings[j].Key() != c.bindings[k].Key()
    requires i < |c.bindings|
    ensures Lookup(now, c.bindings[i].Key()) ==
            Some(AttemptFor(c, c.bindings[i], before, snapshot, after, checkedAt, linker))
  {
    forall j | 0 <= j < |attempts| ensures attempts[j].Key() == c.bindings[j].Key() {
    }
    assert attempts[i] in attempts;
    var found := now[attempts[i].Key()];
    var j :| 0 <= j < |attempts| && attempts[j] == found;
    assert found.Key() == attempts[i].Key();
  }
}
