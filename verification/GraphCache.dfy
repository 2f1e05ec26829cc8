/**
 The derived link graph of the wiki's domains, and the protocol that decides when it
 may be trusted instead of reading Markdown again.

 A `World` holds the Markdown, as Git and editors see it, and the cache's two tables.
 Editors and other server processes act between any two statements (`Elsewhere`); only
 editors act inside a database transaction (`Edits`). Of the other processes it is
 assumed that they run this same program: they delete no row and leave no domain out of
 step that was in step.
 */
module GraphCache {
  import opened Options

  type Domain = string
  type File = string
  type Content = string

  const RESERVED: set<File> := {"index.md", "log.md"}

  /** How the freshness fingerprint sees one file; the object id and the hash determine the bytes. */
  datatype Identity = Tracked(content: Content) | InWorktree(content: Content)

  type Identities = map<File, Identity>

  /** The fingerprint column: empty for a domain never indexed, else an injective digest. */
  datatype Fingerprint = Empty | Of(ids: Identities)

  datatype Freshness = Freshness(value: Fingerprint, indexedCommit: Option<nat>)

  datatype State = Ready | Dirty | Rebuilding

  datatype Row = Row(indexedCommit: Option<nat>, fingerprint: Fingerprint, state: State)

  type Rows = map<Domain, Row>
  type Pages = map<Domain, map<File, Content>>

  function Contents(ids: Identities): map<File, Content> { map f | f in ids :: ids[f].content }

  function Or<K, V>(m: map<K, V>, k: K, default: V): V { if k in m then m[k] else default }

  /** The cached pages of a domain are exactly those of its recorded fingerprint, trusted or not. */
  predicate MatchedAt(rows: Rows, pages: Pages, d: Domain) { d in rows ==> Faithful(rows[d], Or(pages, d, map[])) }

  predicate Matched(rows: Rows, pages: Pages) { forall d :: d in rows ==> MatchedAt(rows, pages, d) }

  /** Outside `except`, whatever matched before matches after. */
  predicate Keeps(rows: Rows, pages: Pages, rows': Rows, pages': Pages, except: set<Domain>) {
    forall d :: d in rows' && d !in except && MatchedAt(rows, pages, d) ==> MatchedAt(rows', pages', d)
  }

  predicate Faithful(row: Row, cached: map<File, Content>) {
    match row.fingerprint
    case Empty => !row.state.Ready?
    case Of(ids) => cached == Contents(ids)
  }

  /** Rewriting one domain keeps the cache matched exactly when the new row is faithful. */
  lemma RewriteMatched(rows: Rows, pages: Pages, d: Domain, row: Row, pages': Pages)
    requires forall e :: e in rows && e != d ==> MatchedAt(rows, pages, e)
    requires forall e :: e != d ==> Or(pages', e, map[]) == Or(pages, e, map[])
    ensures Matched(rows[d := row], pages') <==> Faithful(row, Or(pages', d, map[]))
  {
    var rows' := rows[d := row];
    forall e | e in rows' && e != d ensures MatchedAt(rows', pages', e) {
      assert MatchedAt(rows, pages, e) && Or(pages', e, map[]) == Or(pages, e, map[]);
    }
    assert MatchedAt(rows', pages', d) <==> Faithful(row, Or(pages', d, map[]));
  }

  /** The replacement and deletion of one batch of page rows. */
  function RefreshRows(rows: map<File, Content>, refreshed: map<File, Content>, deleted: set<File>): map<File, Content> {
    (rows - (deleted + (refreshed.Keys * RESERVED))) + (refreshed - RESERVED)
  }

  /** One file of a domain after a batch: read anew, gone, or as it was. Reserved files have no row. */
  predicate ChangedFile(before: map<File, Content>, read: map<File, Content>, deleted: set<File>, after: map<File, Content>, f: File) {
    if f in read && f !in RESERVED then f in after && after[f] == read[f]
    else if f in read || f in deleted then f !in after
    else Lookup(after, f) == Lookup(before, f)
  }

  ghost predicate Changed(before: map<File, Content>, read: map<File, Content>, deleted: set<File>, after: map<File, Content>) {
    forall f :: ChangedFile(before, read, deleted, after, f)
  }

  /** The refreshed rows are exactly those in which every file is as the batch says. */
  lemma RefreshedRows(before: map<File, Content>, read: map<File, Content>, deleted: set<File>, after: map<File, Content>)
    ensures Changed(before, read, deleted, after) <==> after == RefreshRows(before, read, deleted)
  {
    var rows := RefreshRows(before, read, deleted);
    forall f ensures ChangedFile(before, read, deleted, rows, f) {
    }
    if Changed(before, read, deleted, after) {
      forall f ensures Lookup(after, f) == Lookup(rows, f) {
        assert ChangedFile(before, read, deleted, after, f) && ChangedFile(before, read, deleted, rows, f);
      }
      SameByLookup(after, rows);
    }
  }

  lemma SameByLookup<K, V>(a: map<K, V>, b: map<K, V>)
    requires forall k :: Lookup(a, k) == Lookup(b, k)
    ensures a == b
  {
    forall k ensures (k in a <==> k in b) && (k in a ==> a[k] == b[k]) {
      assert Lookup(a, k) == Lookup(b, k);
    }
    assert a.Keys == b.Keys;
  }

  /** Making the same batch of changes again changes nothing more. */
  lemma RefreshTwice(rows: map<File, Content>, read: map<File, Content>, deleted: set<File>)
    ensures RefreshRows(RefreshRows(rows, read, deleted), read, deleted) == RefreshRows(rows, read, deleted)
  {
  }

  /** What reading `files` of a domain gives, if they are all there. */
  function ReadOf(ids: Identities, files: seq<File>): map<File, Content> {
    map f | f in files && f in ids :: ids[f].content
  }

  predicate AllThere(ids: Identities, files: seq<File>) { forall f :: f in files ==> f in ids }

  /** The row a batch may start from: ready, and at the expected or the present fingerprint. */
  predicate StartsFrom(rows: Rows, d: Domain, expected: Option<Fingerprint>, present: Fingerprint) {
    d in rows && rows[d].state.Ready? && (expected.Some? ==> rows[d].fingerprint in {expected.value, present})
  }

  /**
   A domain can be published from the world `t`: its row may be started from, every file
   to refresh is there, and the cached pages so changed are exactly the present content.
   */
  ghost predicate Publishable(t: Tables, d: Domain, expected: Option<Fingerprint>, files: seq<File>, deleted: set<File>) {
    var ids := Or(t.markdown, d, map[]);
    && StartsFrom(t.rows, d, expected, Of(ids)) && AllThere(ids, files)
    && Changed(Or(t.pages, d, map[]), ReadOf(ids, files), deleted, Contents(ids))
  }

  class GraphMutation {
    const domain: Domain
    const hasStore: bool
    var expected: Option<Fingerprint>
    var available: bool
    var staged: Option<Fingerprint>

    constructor (domain: Domain, hasStore: bool, expected: Option<Fingerprint>, available: bool)
      ensures this.domain == domain && this.hasStore == hasStore && this.expected == expected
      ensures this.available == available && staged == None
    {
      this.domain, this.hasStore, this.expected, this.available, this.staged := domain, hasStore, expected, available, None;
    }
  }

  datatype PageId = PageId(domain: Domain, file: File)

  /** The pages one page links to, as the link parser sees them. */
  type Links = (Domain, Content) -> set<PageId>

  /** A provider is fixed to the fingerprints it was made for. */
  datatype ScopedGraph = ScopedGraph(expected: map<Domain, Identities>) {
    function Generation(): Pages { map d | d in expected :: Contents(expected[d]) }
  }

  /** Linked and linking pages of `p` inside the scope. */
  function NeighborsIn(links: Links, scope: set<Domain>, pages: Pages, p: PageId): set<PageId> {
    if p.domain !in scope || p.file !in Or(pages, p.domain, map[]) then {}
    else
      (set t | t in links(p.domain, Or(pages, p.domain, map[])[p.file]) && t.domain in scope && t.file in Or(pages, t.domain, map[]))
      + (set d, f | d in scope && f in Or(pages, d, map[]) && p in links(d, Or(pages, d, map[])[f]) :: PageId(d, f))
  }

  /** Being neighbours is mutual: two pages of the scope of which one links to the other. */
  lemma NeighborsAreLinked(links: Links, scope: set<Domain>, pages: Pages, p: PageId, q: PageId)
    ensures q in NeighborsIn(links, scope, pages, p) <==> p in NeighborsIn(links, scope, pages, q)
    ensures q in NeighborsIn(links, scope, pages, p) <==>
            && InScope(scope, pages, p) && InScope(scope, pages, q)
            && (LinksTo(links, pages, p, q) || LinksTo(links, pages, q, p))
  {
  }

  predicate InScope(scope: set<Domain>, pages: Pages, p: PageId) { p.domain in scope && p.file in Or(pages, p.domain, map[]) }

  predicate LinksTo(links: Links, pages: Pages, p: PageId, q: PageId)
    requires p.file in Or(pages, p.domain, map[])
  {
    q in links(p.domain, Or(pages, p.domain, map[])[p.file])
  }

  lemma NeighborsCongruence(links: Links, scope: set<Domain>, a: Pages, b: Pages, p: PageId)
    requires forall d :: d in scope ==> Or(a, d, map[]) == Or(b, d, map[])
    ensures NeighborsIn(links, scope, a, p) == NeighborsIn(links, scope, b, p)
  {
  }

  datatype BatchResult = Published | Fallback | CannotInvalidate

  /** Markdown and both tables at one moment. */
  datatype Tables = Tables(markdown: map<Domain, Identities>, commit: Option<nat>, rows: Rows, pages: Pages)

  /** Who else acts in a world: anyone at any time; nobody at the wrong moment (`Unchecked`, `ReadDomain`); nobody. */
  datatype Company = Anyone | Careful | Nobody

  /** What `ScopedGraph` and `_inspect_domains` accept: the row names the current Markdown and is ready. */
  predicate TrustedIn(t: Tables, d: Domain) { Names(t.rows, d, Or(t.markdown, d, map[])) }

  predicate Names(rows: Rows, d: Domain, ids: Identities) {
    d in rows && rows[d].fingerprint == Of(ids) && rows[d].state.Ready?
  }

  // ---------------------------------------------------------------- invalidating a batch

  /**
   What the world does to one invalidation: whether its write goes through, which of its
   checks get an answer, and what others do before each reading of Markdown or of a row,
   and before the end.
   */
  datatype Invalidation = Invalidation(wrote: bool, answered: seq<bool>, acts: seq<Option<Tables>>)

  predicate Fits(w: Invalidation, n: nat) { |w.answered| == n && |w.acts| == 2 * n + 1 }

  predicate Quiet(acts: seq<Option<Tables>>) { forall i :: 0 <= i < |acts| ==> acts[i].None? }

  /** Others leave recorded fingerprints and cached pages in agreement. */
  predicate Rely(acts: seq<Option<Tables>>) {
    forall i :: 0 <= i < |acts| && acts[i].Some? ==> Matched(acts[i].value.rows, acts[i].value.pages)
  }

  function After(t: Tables, acts: seq<Option<Tables>>): Tables {
    if acts == [] then t
    else if acts[|acts| - 1].Some? then acts[|acts| - 1].value
    else After(t, acts[..|acts| - 1])
  }

  lemma AfterStep(t: Tables, acts: seq<Option<Tables>>, i: nat)
    requires i < |acts|
    ensures After(t, acts[..i + 1]) == if acts[i].Some? then acts[i].value else After(t, acts[..i])
  {
    assert acts[..i + 1][..i] == acts[..i];
  }

  lemma AfterNone(t: Tables)
    ensures After(t, []) == t
  {
  }

  function Dirtied(t: Tables, ms: seq<GraphMutation>, wrote: bool): Tables {
    if wrote && exists m :: m in ms && m.hasStore then t.(rows := DirtyAll(t.rows, ms)) else t
  }

  /** Check `i` sees a ready row that names the Markdown it has just read. */
  predicate FoundReady(start: Tables, acts: seq<Option<Tables>>, i: nat, d: Domain)
    requires 2 * i + 2 <= |acts|
  {
    Names(After(start, acts[..2 * i + 2]).rows, d, Or(After(start, acts[..2 * i + 1]).markdown, d, map[]))
  }

  /** Every check that got an answer found its domain untrusted. */
  predicate Unavailable(start: Tables, ms: seq<GraphMutation>, w: Invalidation)
    requires Fits(w, |ms|)
  {
    forall i :: 0 <= i < |ms| && ms[i].hasStore && w.answered[i] ==> !FoundReady(start, w.acts, i, ms[i].domain)
  }

  /** Every domain with a store handle got an answer. */
  predicate AllAsked(ms: seq<GraphMutation>, answered: seq<bool>)
    requires |answered| == |ms|
  {
    forall i :: 0 <= i < |ms| && ms[i].hasStore ==>
      exists j :: 0 <= j < |ms| && ms[j].hasStore && answered[j] && ms[j].domain == ms[i].domain
  }

  lemma {:induction false} QuietAfter(t: Tables, acts: seq<Option<Tables>>)
    requires Quiet(acts)
    ensures After(t, acts) == t
  {
    if acts != [] {
      QuietAfter(t, acts[..|acts| - 1]);
    }
  }

  /** The fallback's promise for one world: a batch reported unavailable has no trusted domain. */
  predicate KeepsPromise(t: Tables, ms: seq<GraphMutation>, w: Invalidation)
    requires Fits(w, |ms|)
  {
    var start := Dirtied(t, ms, w.wrote);
    Unavailable(start, ms, w) ==> forall m :: m in ms && m.hasStore ==> !TrustedIn(After(start, w.acts), m.domain)
  }

  /** With nobody about, a check finds its domain ready exactly when it is trusted. */
  lemma QuietCheck(start: Tables, ms: seq<GraphMutation>, w: Invalidation, i: nat)
    requires Fits(w, |ms|) && Quiet(w.acts) && i < |ms|
    ensures FoundReady(start, w.acts, i, ms[i].domain) <==> TrustedIn(start, ms[i].domain)
  {
    QuietAfter(start, w.acts[..2 * i + 1]);
    QuietAfter(start, w.acts[..2 * i + 2]);
  }

  /** With nobody about, the checks speak of the world that the write left. */
  lemma QuietChecks(start: Tables, ms: seq<GraphMutation>, w: Invalidation)
    requires Fits(w, |ms|) && Quiet(w.acts)
    ensures Unavailable(start, ms, w) <==>
              forall i :: 0 <= i < |ms| && ms[i].hasStore && w.answered[i] ==> !TrustedIn(start, ms[i].domain)
  {
    hide FoundReady, TrustedIn;
    forall i | 0 <= i < |ms| ensures FoundReady(start, w.acts, i, ms[i].domain) <==> TrustedIn(start, ms[i].domain) {
      QuietCheck(start, ms, w, i);
    }
  }

  lemma DirtiedUntrusted(t: Tables, ms: seq<GraphMutation>, m: GraphMutation)
    requires m in ms && m.hasStore
    ensures !TrustedIn(Dirtied(t, ms, true), m.domain)
  {
  }

  lemma QuietInvalidation(t: Tables, ms: seq<GraphMutation>, w: Invalidation)
    requires Fits(w, |ms|) && Quiet(w.acts)
    ensures var start := Dirtied(t, ms, w.wrote);
            && After(start, w.acts) == start
            && (w.wrote ==> Unavailable(start, ms, w) && forall m :: m in ms && m.hasStore ==> !TrustedIn(start, m.domain))
            && (AllAsked(ms, w.answered) && Unavailable(start, ms, w) ==> forall m :: m in ms && m.hasStore ==> !TrustedIn(start, m.domain))
            && (!Unavailable(start, ms, w) ==> exists m :: m in ms && m.hasStore && TrustedIn(start, m.domain))
  {
    hide Unavailable, Dirtied, TrustedIn, After;
    var start := Dirtied(t, ms, w.wrote);
    QuietAfter(start, w.acts);
    QuietChecks(start, ms, w);
    if w.wrote {
      forall m | m in ms && m.hasStore ensures !TrustedIn(start, m.domain) {
        DirtiedUntrusted(t, ms, m);
      }
    }
    if AllAsked(ms, w.answered) && Unavailable(start, ms, w) {
      forall m | m in ms && m.hasStore ensures !TrustedIn(start, m.domain) {
        var i :| 0 <= i < |ms| && ms[i] == m;
        var j :| 0 <= j < |ms| && ms[j].hasStore && w.answered[j] && ms[j].domain == ms[i].domain;
      }
    }
  }

  /**
   When nobody else acts, the fallback leaves no domain with a store handle trusted,
   whatever the world was, if and only if its write went through or every such domain
   got an answer.
   */
  lemma FallbackPromise(ms: seq<GraphMutation>, w: Invalidation)
    requires Fits(w, |ms|) && Quiet(w.acts)
    ensures (forall t: Tables :: KeepsPromise(t, ms, w)) <==> w.wrote || AllAsked(ms, w.answered)
  {
    forall t: Tables | w.wrote || AllAsked(ms, w.answered) ensures KeepsPromise(t, ms, w) {
      QuietInvalidation(t, ms, w);
    }
    if !w.wrote && !AllAsked(ms, w.answered) {
      var i :| 0 <= i < |ms| && ms[i].hasStore
               && !exists j :: 0 <= j < |ms| && ms[j].hasStore && w.answered[j] && ms[j].domain == ms[i].domain;
      var d := ms[i].domain;
      var t := Tables(map[], None, map[d := Row(None, Of(map[]), Ready)], map[]);
      QuietInvalidation(t, ms, w);
      QuietChecks(t, ms, w);
      assert TrustedIn(t, d) && forall e :: e != d ==> !TrustedIn(t, e);
      assert !KeepsPromise(t, ms, w);
    }
  }

  lemma InvalidationKeeps(t: Tables, ms: seq<GraphMutation>, w: Invalidation)
    requires Rely(w.acts)
    ensures Matched(t.rows, t.pages) ==> var after := After(Dirtied(t, ms, w.wrote), w.acts); Matched(after.rows, after.pages)
  {
    if Matched(t.rows, t.pages) {
      DirtyAllMatched(t.rows, t.pages, ms);
      ActsKeep(Dirtied(t, ms, w.wrote), w.acts);
    }
  }

  lemma {:induction false} ActsKeep(t: Tables, acts: seq<Option<Tables>>)
    requires Matched(t.rows, t.pages) && Rely(acts)
    ensures Matched(After(t, acts).rows, After(t, acts).pages)
  {
    if acts != [] && acts[|acts| - 1].None? {
      ActsKeep(t, acts[..|acts| - 1]);
    }
  }

  class World {
    var markdown: map<Domain, Identities>
    var commit: Option<nat>
    var rows: Rows
    var pages: Pages
    const others: Company
    /** Hypothesis switch: no edit of content lands, or is undone, at a moment that the program leaves unchecked. */
    const steady: bool := !others.Anyone?
    /** Hypothesis switch: nobody else acts at all, and the database answers (`Invalidation` says this of a batch). */
    const alone: bool := others.Nobody?

    constructor (markdown: map<Domain, Identities>, others: Company)
      ensures this.markdown == markdown && commit == None && rows == map[] && pages == map[]
      ensures this.others == others && Matched(rows, pages)
    {
      this.markdown, this.commit, this.rows, this.pages, this.others := markdown, None, map[], map[], others;
    }

    function Now(): Tables
      reads this
    {
      Tables(markdown, commit, rows, pages)
    }

    function Current(d: Domain): Freshness
      reads this
    {
      Freshness(Of(Or(markdown, d, map[])), commit)
    }

    predicate Trusted(d: Domain)
      reads this
    {
      TrustedIn(Now(), d)
    }

    // -------------------------------------------------------------- the environment

    /** Editors change Markdown or commit. */
    method Edits()
      modifies `markdown, `commit
      ensures alone ==> markdown == old(markdown) && commit == old(commit)
    {
      if !alone {
        markdown, commit := *, *;
      }
    }

    /** Editors, or other server processes running this same program on the cache. */
    method Elsewhere()
      modifies `markdown, `commit, `rows, `pages
      ensures alone ==> Now() == old(Now())
      ensures Keeps(old(rows), old(pages), rows, pages, {}) && old(rows).Keys <= rows.Keys
    {
      Edits();
      var rows': Rows, pages': Pages := *, *;
      if !alone && Keeps(rows, pages, rows', pages', {}) && rows.Keys <= rows'.Keys {
        rows, pages := rows', pages';
      }
    }

    /**
     `build_domain_snapshot`: every file as it is when its turn comes, while others act
     until the fingerprint is taken again. Steady: when something else was read than what
     the fingerprint names, the edit that did it is still there.
     */
    method ReadDomain(d: Domain, fingerprint: Freshness) returns (read: map<File, Content>)
      modifies `markdown, `commit, `rows, `pages
      ensures alone ==> Now() == old(Now()) && read == Contents(Or(markdown, d, map[]))
      ensures Keeps(old(rows), old(pages), rows, pages, {})
      ensures steady && fingerprint.value.Of? && read != Contents(fingerprint.value.ids) ==> Current(d).value != fingerprint.value
    {
      Elsewhere();
      read := *;
      if alone || (steady && Current(d).value == fingerprint.value) {
        read := Contents(Or(markdown, d, map[]));
      }
    }

    /**
     A gap in which nothing checks that Markdown still holds `content`. Steady: it does at
     the end of the gap, and whoever publishes the domain meanwhile publishes that content.
     */
    method Unchecked(d: Domain, content: map<File, Content>)
      requires alone ==> Contents(Or(markdown, d, map[])) == content
      modifies `markdown, `commit, `rows, `pages
      ensures alone ==> Now() == old(Now())
      ensures Keeps(old(rows), old(pages), rows, pages, {}) && old(rows).Keys <= rows.Keys
      ensures steady ==> Contents(Or(markdown, d, map[])) == content
      ensures steady && old(Or(pages, d, map[])) == content ==> Or(pages, d, map[]) == content
    {
      var rows0, pages0 := rows, pages;
      Elsewhere();
      if !alone && steady {
        if Contents(Or(markdown, d, map[])) != content {
          var ids := map f | f in content :: InWorktree(content[f]);
          assert Contents(ids) == content;
          markdown := markdown[d := ids];
        }
        if Or(pages0, d, map[]) == content && Or(pages, d, map[]) != content {
          rows, pages := rows0, pages0;
        }
      }
    }

    /** Whether the database or the file system answers this time. */
    method Answers() returns (ok: bool)
      ensures alone ==> ok
    {
      ok := *;
      if alone {
        ok := true;
      }
    }

    // -------------------------------------------------------------- store primitives

    method SetState(d: Domain, state: State) returns (ok: bool)
      requires !state.Ready?
      modifies `rows
      ensures ok ==> rows == old(rows)[d := Or(old(rows), d, Row(None, Empty, state)).(state := state)]
      ensures !ok ==> rows == old(rows)
      ensures alone ==> ok
      ensures Keeps(old(rows), pages, rows, pages, {})
    {
      ok := Answers();
      if ok {
        rows := rows[d := Or(rows, d, Row(None, Empty, state)).(state := state)];
      }
    }

    /** `read_text` of each file, `None` when one is missing. */
    method ReadFiles(d: Domain, files: seq<File>) returns (content: Option<map<File, Content>>)
      ensures content.Some? <==> AllThere(Or(markdown, d, map[]), files)
      ensures content.Some? ==> content.value == ReadOf(Or(markdown, d, map[]), files)
    {
      var ids := Or(markdown, d, map[]);
      var read: map<File, Content> := map[];
      for i := 0 to |files|
        invariant AllThere(ids, files[..i]) && read == ReadOf(ids, files[..i])
      {
        if files[i] !in ids {
          return None;
        }
        assert files[..i + 1] == files[..i] + [files[i]];
        read := read[files[i] := ids[files[i]].content];
      }
      assert files[..|files|] == files;
      content := Some(read);
    }

    // -------------------------------------------------------------- rebuild

    /** The write transaction of `rebuild_domain`. */
    method PublishRebuild(d: Domain, fingerprint: Freshness, snapshot: map<File, Content>) returns (ok: bool)
      modifies `rows, `pages
      ensures !ok ==> rows == old(rows) && pages == old(pages)
      ensures ok ==> Trusted(d) && rows[d].fingerprint == fingerprint.value && Or(pages, d, map[]) == snapshot
      ensures ok && fingerprint.value.Of? ==> (MatchedAt(rows, pages, d) <==> snapshot == Contents(fingerprint.value.ids))
      ensures rows - {d} == old(rows) - {d}
      ensures Keeps(old(rows), old(pages), rows, pages, {d})
      ensures alone && Current(d).value == fingerprint.value ==> ok
    {
      ok := Answers();
      if ok && Current(d).value == fingerprint.value {
        pages := pages[d := snapshot];
        rows := rows[d := Row(fingerprint.indexedCommit, fingerprint.value, Ready)];
      } else {
        ok := false;
      }
    }

    method ReadAndPublish(d: Domain, fingerprint: Freshness) returns (ok: bool, ghost read: map<File, Content>)
      modifies `markdown, `commit, `rows, `pages
      ensures Keeps(old(rows), old(pages), rows, pages, if ok then {d} else {})
      ensures ok && fingerprint.value.Of? ==> (MatchedAt(rows, pages, d) <==> read == Contents(fingerprint.value.ids))
      ensures ok ==> Trusted(d) && rows[d].fingerprint == fingerprint.value && Or(pages, d, map[]) == read
      ensures steady && ok && fingerprint.value.Of? ==> read == Contents(fingerprint.value.ids)
      ensures alone ==> markdown == old(markdown) && commit == old(commit) && rows - {d} == old(rows) - {d}
      ensures alone && old(Current(d)).value == fingerprint.value ==> ok
    {
      hide Faithful, Contents;
      var snapshot := ReadDomain(d, fingerprint);
      read := snapshot;
      ok := PublishRebuild(d, fingerprint, snapshot);
    }

    /**
     `rebuild_domain`: the rows are built from one reading of the files and published
     only if the fingerprint is afterwards still the one taken before. That check does
     not see an edit that was undone in between: the cache stays matched exactly when
     what was `read` is what the fingerprint names. Every other edit may land meanwhile.
     */
    method RebuildDomain(d: Domain, fingerprint: Freshness) returns (ok: bool, ghost read: map<File, Content>)
      modifies `markdown, `commit, `rows, `pages
      ensures old(Matched(rows, pages)) && !ok ==> Matched(rows, pages)
      ensures old(Matched(rows, pages)) && ok && fingerprint.value.Of? ==>
                (Matched(rows, pages) <==> read == Contents(fingerprint.value.ids))
      ensures ok ==> Trusted(d) && rows[d].fingerprint == fingerprint.value && Or(pages, d, map[]) == read
      ensures steady && ok && fingerprint.value.Of? ==> read == Contents(fingerprint.value.ids)
      ensures Keeps(old(rows), old(pages), rows, pages, {d})
      ensures alone ==> markdown == old(markdown) && commit == old(commit) && rows - {d} == old(rows) - {d}
      ensures alone && old(Current(d)).value == fingerprint.value ==> ok
    {
      hide Faithful, Contents;
      read := map[];
      Elsewhere();
      ok := SetState(d, Rebuilding);
      assert alone ==> rows - {d} == old(rows) - {d};
      if ok {
        ok, read := ReadAndPublish(d, fingerprint);
      }
      if !ok {
        var _ := SetState(d, Dirty);
      }
    }

    /**
     `_inspect_domains`: the current fingerprint of each trusted domain, and the domains
     that are stale. Each answer is of its own moment; of the last domain looked at,
     and so of the only one, it is still the answer at the end.
     */
    method InspectDomains(domains: set<Domain>) returns (current: map<Domain, Identities>, stale: set<Domain>)
      modifies `markdown, `commit, `rows, `pages
      ensures Keeps(old(rows), old(pages), rows, pages, {})
      ensures stale <= domains && current.Keys == domains - stale
      ensures forall d :: domains == {d} && d in current ==> Names(rows, d, current[d])
      ensures alone ==> Now() == old(Now())
      ensures alone ==> forall d :: d in domains ==> (d in stale <==> !Trusted(d)) && (d in current ==> current[d] == Or(markdown, d, map[]))
    {
      current, stale := map[], {};
      var rest := domains;
      while rest != {}
        invariant rest <= domains && stale <= domains && current.Keys == domains - rest - stale && stale !! rest
        invariant Keeps(old(rows), old(pages), rows, pages, {})
        invariant forall d :: domains == {d} && d in current ==> Names(rows, d, current[d])
        invariant alone ==> Now() == old(Now())
        invariant alone ==> forall d :: d in domains - rest ==> (d in stale <==> !Trusted(d)) && (d in current ==> current[d] == Or(markdown, d, map[]))
      {
        var d :| d in rest;
        var ids := Or(markdown, d, map[]);
        Elsewhere();
        if Names(rows, d, ids) {
          current := current[d := ids];
        } else {
          stale := stale + {d};
        }
        rest := rest - {d};
      }
    }

    /** `_rebuild_locked` over the stale domains. */
    method RebuildDomains(domains: set<Domain>) returns (ok: bool)
      modifies `markdown, `commit, `rows, `pages
      ensures steady && old(Matched(rows, pages)) ==> Matched(rows, pages)
      ensures Keeps(old(rows), old(pages), rows, pages, domains)
      ensures alone ==> rows - domains == old(rows) - domains
      ensures alone ==> ok && markdown == old(markdown) && commit == old(commit) && forall d :: d in domains ==> Trusted(d)
    {
      var rest := domains;
      while rest != {}
        invariant rest <= domains
        invariant steady && old(Matched(rows, pages)) ==> Matched(rows, pages)
        invariant Keeps(old(rows), old(pages), rows, pages, domains)
        invariant alone ==> rows - domains == old(rows) - domains
        invariant alone ==> markdown == old(markdown) && commit == old(commit) && forall d :: d in domains - rest ==> Trusted(d)
      {
        var d :| d in rest;
        ghost var read, rows0 := map[], rows;
        ok, read := RebuildDomain(d, Current(d));
        if alone {
          assert rows - domains == (rows - {d}) - domains == (rows0 - {d}) - domains == rows0 - domains;
          SameElsewhere(rows0, rows, d);
          assert forall e :: e in domains - rest ==> e != d && Names(rows0, e, Or(markdown, e, map[]));
        }
        if !ok {
          return;
        }
        rest := rest - {d};
      }
      ok := true;
    }

    /** `scoped_graph`: a provider over fresh domains, rebuilding stale ones first, or `None` for Markdown fallback. */
    method ScopedGraphFor(domains: set<Domain>) returns (g: Option<ScopedGraph>)
      modifies `markdown, `commit, `rows, `pages
      ensures steady && old(Matched(rows, pages)) ==> Matched(rows, pages)
      ensures Keeps(old(rows), old(pages), rows, pages, domains)
      ensures g.Some? ==> g.value.expected.Keys == domains && domains != {}
      ensures forall d :: g.Some? && domains == {d} ==> Names(rows, d, g.value.expected[d])
      ensures alone ==> markdown == old(markdown) && commit == old(commit) && (g.Some? <==> domains != {})
      ensures g.Some? && alone ==> forall d :: d in domains ==> Trusted(d) && g.value.expected[d] == Or(markdown, d, map[])
    {
      if domains == {} {
        return None;
      }
      var current, stale := InspectDomains(domains);
      if stale == {} {
        return Some(ScopedGraph(current));
      }
      while stale != {}
        invariant Keeps(old(rows), old(pages), rows, pages, {})
        invariant alone ==> markdown == old(markdown) && commit == old(commit)
      {
        var d :| d in stale;
        var _ := SetState(d, Dirty);
        stale := stale - {d};
      }
      Elsewhere();
      var locked := Answers();
      if !locked {
        return None;
      }
      current, stale := InspectDomains(domains);
      if stale != {} {
        ghost var rows0 := rows;
        var ok := RebuildDomains(stale);
        if !ok {
          return None;
        }
        assert alone ==> forall d :: d in domains && d !in stale ==> d in rows0 - stale && (rows0 - stale)[d] == rows0[d];
        current, stale := InspectDomains(domains);
      }
      g := if stale == {} then Some(ScopedGraph(current)) else None;
    }

    // -------------------------------------------------------------- queries

    /** `ScopedGraph.neighbors`: one read transaction that first checks every domain of the scope. */
    method Neighbors(g: ScopedGraph, links: Links, p: PageId) returns (r: Option<set<PageId>>)
      ensures Matched(rows, pages) && r.Some? ==> r.value == NeighborsIn(links, g.expected.Keys, g.Generation(), p)
      ensures r.Some? && p.domain in g.expected ==>
                forall d :: d in g.expected ==> Names(rows, d, g.expected[d])
    {
      if p.domain !in g.expected {
        return Some({});
      }
      var answered := Answers();
      if !answered || exists d :: d in g.expected && !Names(rows, d, g.expected[d]) {
        return None;
      }
      r := Some(NeighborsIn(links, g.expected.Keys, pages, p));
      if Matched(rows, pages) {
        forall d | d in g.expected ensures Or(pages, d, map[]) == Or(g.Generation(), d, map[]) {
          assert MatchedAt(rows, pages, d);
        }
        NeighborsCongruence(links, g.expected.Keys, pages, g.Generation(), p);
      }
    }

    // -------------------------------------------------------------- staging

    /** `_graph_failed` */
    method GraphFailed(m: GraphMutation)
      modifies `rows, m`available, m`staged
      ensures !m.available && m.staged == None
      ensures Keeps(old(rows), pages, rows, pages, {})
      ensures alone ==> rows == if m.hasStore then old(rows)[m.domain := Or(old(rows), m.domain, Row(None, Empty, Dirty)).(state := Dirty)] else old(rows)
    {
      m.available, m.staged := false, None;
      if m.hasStore {
        var _ := SetState(m.domain, Dirty);
      }
    }

    /** The write transaction of `stage_graph_pages`; it rolls back unless fingerprint and content both hold. */
    method RefreshTransaction(m: GraphMutation, read: map<File, Content>, delete: set<File>, expected: Freshness) returns (ok: bool)
      modifies `markdown, `commit, `rows, `pages, m`staged
      ensures old(Matched(rows, pages)) ==> Matched(rows, pages)
      ensures ok ==>
                && m.staged == Some(Current(m.domain).value)
                && m.domain in rows && rows[m.domain].fingerprint == Current(m.domain).value && rows[m.domain].state.Dirty?
                && Or(pages, m.domain, map[]) == Contents(Or(markdown, m.domain, map[]))
      ensures alone ==> (ok <==>
                && old(Current(m.domain)) == expected && m.domain in old(rows)
                && Changed(old(Or(pages, m.domain, map[])), read, delete, Contents(old(Or(markdown, m.domain, map[])))))
    {
      var d := m.domain;
      RefreshedRows(Or(pages, d, map[]), read, delete, Contents(Or(markdown, d, map[])));
      var refreshed := RefreshRows(Or(pages, d, map[]), read, delete);
      Edits();
      var recheck := Current(d);
      var committed := Answers();
      if recheck != expected || refreshed != Contents(Or(markdown, d, map[])) || !committed || d !in rows {
        return false;
      }
      m.staged := Some(recheck.value);
      ghost var rows0, pages0 := rows, pages;
      pages := pages[d := refreshed];
      rows := rows[d := Row(recheck.indexedCommit, recheck.value, Dirty)];
      if Matched(rows0, pages0) {
        RewriteMatched(rows0, pages0, d, rows[d], pages);
      }
      ok := true;
    }

    /** Refreshes the affected pages, leaving the domain untrusted; no warning means staged. */
    method StagePages(m: GraphMutation, refresh: seq<File>, delete: set<File>) returns (warning: bool)
      modifies `markdown, `commit, `rows, `pages, m`available, m`staged
      ensures old(Matched(rows, pages)) ==> Matched(rows, pages)
      ensures warning ==> m.staged in {None, old(m.staged)}
      ensures !warning ==>
                && m.staged == Some(Current(m.domain).value)
                && m.domain in rows && rows[m.domain].fingerprint == Current(m.domain).value && rows[m.domain].state.Dirty?
                && Or(pages, m.domain, map[]) == Contents(Or(markdown, m.domain, map[]))
      ensures alone && warning && old(m.available) && m.hasStore ==> !Trusted(m.domain)
      // With nobody about, exactly when the row is as expected and the changes make the cached pages the present ones.
      ensures alone ==> (!warning <==>
                var ids := old(Or(markdown, m.domain, map[]));
                && old(m.available) && m.hasStore
                && m.domain in old(rows) && old(rows)[m.domain].state.Ready?
                && (old(m.expected) == Some(old(rows)[m.domain].fingerprint) || old(rows)[m.domain].fingerprint == Of(ids))
                && AllThere(ids, refresh)
                && Changed(old(Or(pages, m.domain, map[])), ReadOf(ids, refresh), delete, Contents(ids)))
    {
      var d := m.domain;
      if !m.available || !m.hasStore {
        return true;
      }
      var current := Current(d);
      Elsewhere();
      var ok := d in rows && rows[d].state.Ready? && (m.expected == Some(rows[d].fingerprint) || rows[d].fingerprint == current.value);
      if ok {
        Elsewhere();
        ok := SetState(d, Dirty);
      }
      if ok {
        Elsewhere();
        var read := ReadFiles(d, refresh);
        Elsewhere();
        ok := read.Some?;
        if ok {
          ok := RefreshTransaction(m, read.value, delete, current);
        }
      }
      if !ok {
        GraphFailed(m);
      }
      warning := !ok;
    }

    /**
     `stage_graph_rebuild`: gets the domain rebuilt, then records the fingerprint it reads
     afterwards without comparing content. The cache is coherent exactly when that
     fingerprint names the content `published` last, as the cached pages hold it.
     */
    method StageRebuild(m: GraphMutation) returns (warning: bool, ghost published: map<File, Content>)
      modifies `markdown, `commit, `rows, `pages, m`available, m`staged
      ensures !warning ==> m.staged.Some? && m.staged.value.Of? && published == Or(pages, m.domain, map[])
      ensures old(Matched(rows, pages)) && !warning ==>
                (Matched(rows, pages) <==> published == Contents(m.staged.value.ids))
      ensures steady && old(Matched(rows, pages)) ==> Matched(rows, pages)
      ensures Keeps(old(rows), old(pages), rows, pages, {m.domain})
      ensures !warning ==> m.domain in rows && m.staged == Some(rows[m.domain].fingerprint) && rows[m.domain].state.Dirty?
      ensures !warning ==> m.available && m.hasStore
      ensures warning ==> m.staged in {None, old(m.staged)}
      ensures alone ==> markdown == old(markdown) && commit == old(commit)
      ensures alone && old(m.available) && m.hasStore ==> !warning
      ensures alone && !warning ==> m.staged == Some(Current(m.domain).value)
    {
      var d := m.domain;
      published := map[];
      if !m.available || !m.hasStore {
        return true, published;
      }
      var ok := SetState(d, Dirty);
      if ok {
        Elsewhere();
        var g := ScopedGraphFor({d});
        ok := g.Some?;
        if ok {
          ok, published := RecordRebuild(m, g.value.expected[d]);
        }
      }
      if !ok {
        GraphFailed(m);
      }
      warning := !ok;
    }

    /** The second half of `stage_graph_rebuild`, after a provider over `provided`. */
    method RecordRebuild(m: GraphMutation, provided: Identities) returns (ok: bool, ghost published: map<File, Content>)
      requires Names(rows, m.domain, provided)
      requires alone ==> provided == Or(markdown, m.domain, map[])
      modifies `markdown, `commit, `rows, `pages, m`staged
      ensures ok ==> m.staged.Some? && m.staged.value.Of? && published == Or(pages, m.domain, map[])
      ensures ok && (forall e :: e in old(rows) && e != m.domain ==> old(MatchedAt(rows, pages, e))) ==>
                (Matched(rows, pages) <==> published == Contents(m.staged.value.ids))
      ensures steady && old(Matched(rows, pages)) ==> Matched(rows, pages)
      ensures ok ==> m.domain in rows && m.staged == Some(rows[m.domain].fingerprint) && rows[m.domain].state.Dirty?
      ensures Keeps(old(rows), old(pages), rows, pages, if ok then {m.domain} else {})
      ensures !ok ==> m.staged == old(m.staged)
      ensures alone ==> markdown == old(markdown) && commit == old(commit) && ok
      ensures alone && ok ==> m.staged == Some(Current(m.domain).value)
    {
      hide Contents;
      var d, content := m.domain, Contents(provided);
      published := map[];
      assert old(Matched(rows, pages)) ==> MatchedAt(rows, pages, d);
      Unchecked(d, content);
      var fingerprint := Current(d);
      Unchecked(d, content);
      ok := SetState(d, Dirty);
      if ok {
        Unchecked(d, content);
        ok := Answers();
      }
      if ok {
        published := Or(pages, d, map[]);
        WriteStaged(m, fingerprint);
      }
    }

    /** `_set_staged_graph_fingerprint`: the cached pages are not looked at. */
    method WriteStaged(m: GraphMutation, fingerprint: Freshness)
      requires fingerprint.value.Of?
      modifies `rows, m`staged
      ensures m.staged == Some(fingerprint.value)
      ensures rows == old(rows)[m.domain := Row(fingerprint.indexedCommit, fingerprint.value, Dirty)]
      ensures Keeps(old(rows), pages, rows, pages, {m.domain})
      ensures (forall e :: e in old(rows) && e != m.domain ==> MatchedAt(old(rows), pages, e)) ==>
                (Matched(rows, pages) <==> Or(pages, m.domain, map[]) == Contents(fingerprint.value.ids))
    {
      m.staged := Some(fingerprint.value);
      rows := rows[m.domain := Row(fingerprint.indexedCommit, fingerprint.value, Dirty)];
      if forall e :: e in old(rows) && e != m.domain ==> MatchedAt(old(rows), pages, e) {
        RewriteMatched(old(rows), pages, m.domain, rows[m.domain], pages);
      }
    }

    // -------------------------------------------------------------- publishing one domain

    /**
     `finalize_graph_mutation`: publishes by metadata alone. It checks that the row is
     still the staged one and that Markdown holds still while it looks, but not that
     Markdown still is what was staged: that is exactly what coherence then depends on.
     */
    method FinalizeMutation(m: GraphMutation) returns (warning: bool, ghost republished: bool)
      modifies `markdown, `commit, `rows, `pages, m`available, m`staged
      ensures !warning ==> m.domain in rows && rows[m.domain].state.Ready? && (alone ==> Trusted(m.domain))
      ensures old(Matched(rows, pages)) && !republished ==> Matched(rows, pages)
      ensures republished ==> !warning && Trusted(m.domain) && Current(m.domain) == old(Current(m.domain))
      ensures old(Matched(rows, pages)) && republished && old(m.staged).Some? && old(m.staged).value.Of? ==>
                (Matched(rows, pages) <==> Contents(Or(markdown, m.domain, map[])) == Contents(old(m.staged).value.ids))
      ensures republished ==> old(m.staged).Some?
      ensures alone && warning && old(m.available) && m.hasStore && old(m.staged).Some? ==> !Trusted(m.domain)
      // With nobody about, publication hangs on the guards alone, and they do not look at content.
      ensures alone ==> markdown == old(markdown) && pages == old(pages)
      ensures alone && !old(Trusted(m.domain)) ==>
                (republished <==>
                 && old(m.available) && m.hasStore && old(m.staged).Some?
                 && m.domain in old(rows) && old(rows)[m.domain].state.Dirty? && Some(old(rows)[m.domain].fingerprint) == old(m.staged))
    {
      var d := m.domain;
      republished := false;
      if !m.available || !m.hasStore || m.staged.None? {
        return true, false;
      }
      var fingerprint := Current(d);
      Elsewhere();
      var answered := Answers();
      if answered && d in rows {
        if rows[d].fingerprint == fingerprint.value && rows[d].state.Ready? {
          return false, false;
        }
        if Some(rows[d].fingerprint) == m.staged && rows[d].state.Dirty? {
          Edits();
          var rechecked := Current(d);
          if rechecked == fingerprint {
            ghost var rows0 := rows;
            rows := rows[d := Row(rechecked.indexedCommit, rechecked.value, Ready)];
            if Matched(rows0, pages) {
              assert MatchedAt(rows0, pages, d);
              RewriteMatched(rows0, pages, d, rows[d], pages);
            }
            return false, true;
          }
        }
      }
      GraphFailed(m);
      warning := true;
    }

    // -------------------------------------------------------------- publishing a batch

    /** What someone else does between two statements. */
    method Act(act: Option<Tables>)
      modifies `markdown, `commit, `rows, `pages
      ensures Now() == if act.Some? then act.value else old(Now())
    {
      if act.Some? {
        markdown, commit, rows, pages := act.value.markdown, act.value.commit, act.value.rows, act.value.pages;
      }
    }

    /** What others may do, and the database answer, while a batch is invalidated. */
    method AnyInvalidation(n: nat) returns (w: Invalidation)
      ensures Fits(w, n) && Rely(w.acts) && (alone ==> Quiet(w.acts))
    {
      w := *;
      if !Fits(w, n) || !Rely(w.acts) || alone {
        var wrote: bool := *;
        var answered: seq<bool> := *;
        if |answered| != n {
          answered := seq(n, _ => false);
        }
        w := Invalidation(wrote, answered, seq(2 * n + 1, _ => None));
      }
    }

    /** The second half of `_invalidate_graph_batch`: looks at every domain in turn. */
    method CheckBatch(ms: seq<GraphMutation>, w: Invalidation) returns (unavailable: bool)
      requires Fits(w, |ms|)
      modifies `markdown, `commit, `rows, `pages, (set m | m in ms)`available, (set m | m in ms)`staged
      ensures Now() == After(old(Now()), w.acts)
      ensures unavailable <==> Unavailable(old(Now()), ms, w)
      ensures forall m :: m in ms ==> !m.available && m.staged == None
    {
      hide After, Names;
      ghost var start := Now();
      AfterNone(start);
      unavailable := true;
      for i := 0 to |ms|
        invariant Now() == After(start, w.acts[..2 * i])
        invariant unavailable <==> forall k :: 0 <= k < i && ms[k].hasStore && w.answered[k] ==> !FoundReady(start, w.acts, k, ms[k].domain)
        invariant forall k :: 0 <= k < i ==> !ms[k].available && ms[k].staged == None
      {
        var m := ms[i];
        m.available, m.staged := false, None;
        AfterStep(start, w.acts, 2 * i);
        AfterStep(start, w.acts, 2 * i + 1);
        Act(w.acts[2 * i]);
        var current := Or(markdown, m.domain, map[]);
        Act(w.acts[2 * i + 1]);
        if m.hasStore && w.answered[i] && Names(rows, m.domain, current) {
          unavailable := false;
        }
      }
      AfterStep(start, w.acts, 2 * |ms|);
      Act(w.acts[2 * |ms|]);
      assert w.acts[..2 * |ms| + 1] == w.acts;
    }

    /**
     `_invalidate_graph_batch`: makes every domain of the batch dirty, then looks whether
     one is still trusted. A check without an answer counts as an untrusted domain.
     */
    method InvalidateBatch(ms: seq<GraphMutation>, w: Invalidation) returns (unavailable: bool)
      requires Fits(w, |ms|)
      modifies `markdown, `commit, `rows, `pages, (set m | m in ms)`available, (set m | m in ms)`staged
      ensures Now() == After(Dirtied(old(Now()), ms, w.wrote), w.acts)
      ensures unavailable <==> Unavailable(Dirtied(old(Now()), ms, w.wrote), ms, w)
      ensures forall m :: m in ms ==> !m.available && m.staged == None
    {
      hide After, Unavailable, DirtyAll;
      if w.wrote && exists m :: m in ms && m.hasStore {
        rows := DirtyAll(rows, ms);
      }
      unavailable := CheckBatch(ms, w);
    }

    /** Reads the fingerprint and the pages to refresh of every domain of the batch. */
    method PrepareBatch(ms: seq<GraphMutation>, refresh: map<Domain, seq<File>>)
      returns (ok: bool, fingerprints: map<Domain, Freshness>, prepared: map<Domain, map<File, Content>>)
      modifies `markdown, `commit, `rows, `pages
      ensures Keeps(old(rows), old(pages), rows, pages, {})
      ensures alone ==> Now() == old(Now())
      ensures ok ==> forall m :: m in ms ==> m.domain in fingerprints && m.domain in prepared
      ensures alone ==> (ok <==> forall m :: m in ms ==> AllThere(Or(markdown, m.domain, map[]), Or(refresh, m.domain, [])))
      ensures alone && ok ==> forall m :: m in ms ==>
                && fingerprints[m.domain] == Current(m.domain)
                && prepared[m.domain] == ReadOf(Or(markdown, m.domain, map[]), Or(refresh, m.domain, []))
    {
      fingerprints, prepared := map[], map[];
      for i := 0 to |ms|
        invariant Keeps(old(rows), old(pages), rows, pages, {})
        invariant alone ==> Now() == old(Now())
        invariant forall k :: 0 <= k < i ==> ms[k].domain in fingerprints && ms[k].domain in prepared
        invariant alone ==> forall k :: 0 <= k < i ==>
                    && AllThere(Or(markdown, ms[k].domain, map[]), Or(refresh, ms[k].domain, []))
                    && fingerprints[ms[k].domain] == Current(ms[k].domain)
                    && prepared[ms[k].domain] == ReadOf(Or(markdown, ms[k].domain, map[]), Or(refresh, ms[k].domain, []))
      {
        var d := ms[i].domain;
        fingerprints := fingerprints[d := Current(d)];
        Elsewhere();
        var read := ReadFiles(d, Or(refresh, d, []));
        Elsewhere();
        if read.None? {
          return false, fingerprints, prepared;
        }
        prepared := prepared[d := read.value];
      }
      ok := true;
    }

    /** Refreshes the page rows of every domain of the batch, inside the open transaction. */
    method RefreshBatch(ms: seq<GraphMutation>, fingerprints: map<Domain, Freshness>, prepared: map<Domain, map<File, Content>>, delete: map<Domain, set<File>>)
      returns (ok: bool, open: Pages)
      requires forall m :: m in ms ==> m.domain in fingerprints && m.domain in prepared
      ensures ok <==> forall m :: m in ms ==> StartsFrom(rows, m.domain, m.expected, fingerprints[m.domain].value)
      ensures ok ==> forall m :: m in ms ==>
                Or(open, m.domain, map[]) == RefreshRows(Or(pages, m.domain, map[]), prepared[m.domain], Or(delete, m.domain, {}))
      ensures forall e :: (forall m :: m in ms ==> m.domain != e) ==> Or(open, e, map[]) == Or(pages, e, map[])
    {
      hide RefreshRows;
      open := pages;
      for i := 0 to |ms|
        invariant forall k :: 0 <= k < i ==> StartsFrom(rows, ms[k].domain, ms[k].expected, fingerprints[ms[k].domain].value)
        invariant forall k :: 0 <= k < i ==>
                    Or(open, ms[k].domain, map[]) == RefreshRows(Or(pages, ms[k].domain, map[]), prepared[ms[k].domain], Or(delete, ms[k].domain, {}))
        invariant forall e :: (forall k :: 0 <= k < i ==> ms[k].domain != e) ==> Or(open, e, map[]) == Or(pages, e, map[])
      {
        var m := ms[i];
        var d := m.domain;
        if d !in rows || !rows[d].state.Ready?
           || (m.expected.Some? && rows[d].fingerprint != m.expected.value && rows[d].fingerprint != fingerprints[d].value) {
          return false, open;
        }
        RefreshTwice(Or(pages, d, map[]), prepared[d], Or(delete, d, {}));
        open := open[d := RefreshRows(Or(open, d, map[]), prepared[d], Or(delete, d, {}))];
      }
      ok := true;
    }

    /** The batch transaction: all domains are published together, or the tables stay as they were. */
    method BatchTransaction(ms: seq<GraphMutation>, fingerprints: map<Domain, Freshness>, prepared: map<Domain, map<File, Content>>, delete: map<Domain, set<File>>)
      returns (ok: bool)
      requires forall m :: m in ms ==> m.domain in fingerprints && m.domain in prepared
      modifies `markdown, `commit, `rows, `pages
      ensures old(Matched(rows, pages)) ==> Matched(rows, pages)
      ensures !ok ==> rows == old(rows) && pages == old(pages)
      ensures alone ==> markdown == old(markdown) && commit == old(commit)
      ensures ok ==> forall m :: m in ms ==> Publishes(rows, pages, m.domain) && (alone ==> Trusted(m.domain))
      ensures alone ==> (ok <==> forall m :: m in ms ==>
                && StartsFrom(old(rows), m.domain, m.expected, fingerprints[m.domain].value)
                && fingerprints[m.domain] == old(Current(m.domain))
                && RefreshRows(old(Or(pages, m.domain, map[])), prepared[m.domain], Or(delete, m.domain, {})) == Contents(old(Or(markdown, m.domain, map[]))))
    {
      hide RefreshRows;
      var open;
      ok, open := RefreshBatch(ms, fingerprints, prepared, delete);
      if !ok {
        return;
      }
      var openRows := rows;
      for i := 0 to |ms|
        invariant rows == old(rows) && pages == old(pages)
        invariant alone ==> markdown == old(markdown) && commit == old(commit)
        invariant forall e :: e in openRows ==>
                    || (e in rows && openRows[e] == rows[e])
                    || Publishes(openRows, open, e)
        invariant forall k :: 0 <= k < i ==>
                    && Publishes(openRows, open, ms[k].domain)
                    && (alone ==> openRows[ms[k].domain].fingerprint == Of(Or(markdown, ms[k].domain, map[])))
                    && (alone ==> fingerprints[ms[k].domain] == Current(ms[k].domain) && Or(open, ms[k].domain, map[]) == Contents(Or(markdown, ms[k].domain, map[])))
        invariant forall e :: e in openRows && !Publishes(openRows, open, e) ==> e in rows && openRows[e] == rows[e]
      {
        var d := ms[i].domain;
        Edits();
        var rechecked := Current(d);
        if rechecked != fingerprints[d] || Or(open, d, map[]) != Contents(Or(markdown, d, map[])) {
          return false;
        }
        openRows := openRows[d := Row(rechecked.indexedCommit, rechecked.value, Ready)];
      }
      ok := Answers();
      if ok {
        if Matched(rows, pages) {
          forall e | e in openRows ensures MatchedAt(openRows, open, e) {
            if !Publishes(openRows, open, e) {
              assert forall m :: m in ms ==> m.domain != e;
              assert MatchedAt(rows, pages, e);
            }
          }
        }
        rows, pages := openRows, open;
      }
    }

    /** The first half of `finalize_graph_batch`: read, and publish all domains or none. */
    method PublishBatch(ms: seq<GraphMutation>, refresh: map<Domain, seq<File>>, delete: map<Domain, set<File>>) returns (ok: bool)
      modifies `markdown, `commit, `rows, `pages
      ensures old(Matched(rows, pages)) ==> Matched(rows, pages)
      ensures ok ==> forall m :: m in ms ==> Publishes(rows, pages, m.domain) && (alone ==> Trusted(m.domain))
      ensures alone && !ok ==> Now() == old(Now())
      ensures alone ==> (ok <==> forall m :: m in ms ==>
                Publishable(old(Now()), m.domain, m.expected, Or(refresh, m.domain, []), Or(delete, m.domain, {})))
    {
      hide RefreshRows, Changed, Publishes, StartsFrom, AllThere, TrustedIn;
      if ms == [] {
        return true;
      }
      var fingerprints, prepared;
      ok, fingerprints, prepared := PrepareBatch(ms, refresh);
      Elsewhere();
      if ok {
        forall m | m in ms {
          RefreshedRows(Or(pages, m.domain, map[]), prepared[m.domain], Or(delete, m.domain, {}), Contents(Or(markdown, m.domain, map[])));
        }
        ok := BatchTransaction(ms, fingerprints, prepared, delete);
      }
    }

    /**
     `finalize_graph_batch`: every affected domain is published from content that was
     rechecked, or none is, and the batch is invalidated from the world it finds then (`found`).
     */
    method FinalizeBatch(ms: seq<GraphMutation>, refresh: map<Domain, seq<File>>, delete: map<Domain, set<File>>, w: Invalidation)
      returns (r: BatchResult, ghost found: Tables)
      requires Fits(w, |ms|) && (alone ==> Quiet(w.acts))
      modifies `markdown, `commit, `rows, `pages, (set m | m in ms)`available, (set m | m in ms)`staged
      ensures old(Matched(rows, pages)) && Rely(w.acts) ==> Matched(rows, pages)
      ensures r.Published? ==> forall m :: m in ms ==> old(m.available) && m.hasStore
      ensures r.Published? ==> forall m :: m in ms ==> Publishes(rows, pages, m.domain) && (alone ==> Trusted(m.domain))
      ensures !r.Published? ==> Now() == After(Dirtied(found, ms, w.wrote), w.acts)
      ensures !r.Published? ==> (r.Fallback? <==> Unavailable(Dirtied(found, ms, w.wrote), ms, w))
      ensures !r.Published? && Quiet(w.acts) && w.wrote ==> r.Fallback? && forall m :: m in ms && m.hasStore ==> !Trusted(m.domain)
      ensures r.Fallback? && Quiet(w.acts) && AllAsked(ms, w.answered) ==> forall m :: m in ms && m.hasStore ==> !Trusted(m.domain)
      ensures r.CannotInvalidate? && Quiet(w.acts) ==> exists m :: m in ms && m.hasStore && Trusted(m.domain)
      ensures alone && !r.Published? ==> found == old(Now())
      // With nobody about, the batch is published exactly when every domain can start and ends at the present content.
      ensures alone ==> (r.Published? <==> forall m :: m in ms ==>
                && old(m.available) && m.hasStore
                && Publishable(old(Now()), m.domain, old(m.expected), Or(refresh, m.domain, []), Or(delete, m.domain, {})))
    {
      hide Publishable, Unavailable, AllAsked, Matched, TrustedIn, Publishes;
      found := Now();
      var ok := forall m :: m in ms ==> m.available && m.hasStore;
      if ok {
        ok := PublishBatch(ms, refresh, delete);
        if ok {
          return Published, found;
        }
      }
      found := Now();
      var unavailable := InvalidateBatch(ms, w);
      r := if unavailable then Fallback else CannotInvalidate;
      if Rely(w.acts) {
        InvalidationKeeps(found, ms, w);
      }
      if Quiet(w.acts) {
        QuietInvalidation(found, ms, w);
      }
    }

    // -------------------------------------------------------------- whole mutations

    /** `prepare_graph_mutation`: the fingerprint the mutation expects to find, or an unavailable one. */
    method PrepareMutation(d: Domain, wholeDomain: bool) returns (m: GraphMutation)
      modifies `markdown, `commit, `rows, `pages
      ensures steady && old(Matched(rows, pages)) ==> Matched(rows, pages)
      ensures fresh(m) && m.domain == d && m.staged == None
      ensures alone ==> m.available && m.hasStore && m.expected == if wholeDomain then None else Some(Current(d).value)
      ensures alone && !wholeDomain ==> Trusted(d)
    {
      if wholeDomain {
        m := new GraphMutation(d, true, None, true);
        return;
      }
      var provider := ScopedGraphFor({d});
      if provider.None? {
        m := new GraphMutation(d, false, None, false);
      } else {
        m := new GraphMutation(d, true, Some(Of(provider.value.expected[d])), true);
      }
    }

    /** One page or whole-domain mutation: prepare, write and commit, stage, publish. */
    method Mutate(d: Domain, wholeDomain: bool, refresh: seq<File>, delete: set<File>) returns (warning: bool)
      modifies `markdown, `commit, `rows, `pages
      ensures steady && old(Matched(rows, pages)) ==> Matched(rows, pages)
      ensures alone && wholeDomain ==> !warning && Trusted(d)
    {
      var m := PrepareMutation(d, wholeDomain);
      // Here the pages are written and committed, by this program or by anyone.
      Elsewhere();
      if wholeDomain {
        ghost var published;
        warning, published := StageRebuild(m);
      } else {
        warning := StagePages(m, refresh, delete);
      }
      if warning {
        return;
      }
      Unchecked(d, Contents(m.staged.value.ids));
      ghost var republished;
      warning, republished := FinalizeMutation(m);
    }

    /** Any interleaving of mutations, batches, rebuilds and edits keeps the cache matched. */
    method Run(operations: seq<Operation>)
      modifies `markdown, `commit, `rows, `pages
      ensures steady && old(Matched(rows, pages)) ==> Matched(rows, pages)
    {
      for i := 0 to |operations|
        invariant steady && old(Matched(rows, pages)) ==> Matched(rows, pages)
      {
        Elsewhere();
        match operations[i] {
          case Page(d, refresh, delete) =>
            var _ := Mutate(d, false, refresh, delete);
          case Whole(d) =>
            var _ := Mutate(d, true, [], {});
          case Query(domains) =>
            var _ := ScopedGraphFor(domains);
          case Batch(domains, refresh, delete) =>
            var ms: seq<GraphMutation> := [];
            for k := 0 to |domains|
              invariant forall m :: m in ms ==> fresh(m)
              invariant steady && old(Matched(rows, pages)) ==> Matched(rows, pages)
            {
              var m := PrepareMutation(domains[k], false);
              ms := ms + [m];
            }
            var w := AnyInvalidation(|ms|);
            var _, _ := FinalizeBatch(ms, refresh, delete, w);
        }
      }
    }
  }

  datatype Operation =
    | Page(domain: Domain, refresh: seq<File>, delete: set<File>)
    | Whole(domain: Domain)
    | Query(domains: set<Domain>)
    | Batch(batch: seq<Domain>, toRefresh: map<Domain, seq<File>>, toDelete: map<Domain, set<File>>)

  /**
   Publishing by metadata alone is coherent exactly when Markdown still has the staged
   content. The row checks pass either way, so nothing in the protocol tells the cases apart.
   */
  lemma PublishByMetadata(rows: Rows, pages: Pages, d: Domain, staged: Identities, now: Identities, commit: Option<nat>)
    requires Matched(rows, pages)
    requires d in rows && rows[d].fingerprint == Of(staged) && rows[d].state.Dirty?
    ensures Matched(rows[d := Row(commit, Of(now), Ready)], pages) <==> Contents(now) == Contents(staged)
  {
    RewriteMatched(rows, pages, d, Row(commit, Of(now), Ready), pages);
    assert Faithful(rows[d], Or(pages, d, map[]));
  }

  /**
   A page edited between staging and publishing: with nobody else about, staging and
   publication both report success and leave a trusted row over stale pages.
   */
  method EditedAfterStaging() returns (world: World, succeeded: bool)
    ensures fresh(world) && world.alone && succeeded
    ensures world.Trusted("docs") && !Matched(world.rows, world.pages)
  {
    var before: Identities := map["a.md" := InWorktree("old")];
    var after: Identities := map["a.md" := InWorktree("new")];
    world := new World(map["docs" := before], Nobody);
    var m := new GraphMutation("docs", true, None, true);
    ghost var published;
    var stageFailed, publishFailed;
    stageFailed, published := world.StageRebuild(m);
    world.markdown := map["docs" := after];
    assert Contents(after)["a.md"] != Contents(before)["a.md"];
    ghost var republished;
    publishFailed, republished := world.FinalizeMutation(m);
    succeeded := !stageFailed && !publishFailed;
  }

  /** The write fails, the check gets no answer: the fallback is reported over a domain that is still trusted. */
  method FallbackOverTrusted() returns (world: World, r: BatchResult)
    ensures fresh(world) && world.alone && r.Fallback? && world.Trusted("docs")
  {
    var ids: Identities := map["a.md" := InWorktree("text")];
    world := new World(map["docs" := ids], Nobody);
    world.rows, world.pages := map["docs" := Row(None, Of(ids), Ready)], map["docs" := Contents(ids)];
    var m := new GraphMutation("docs", true, None, false);
    ghost var found;
    var w := Invalidation(false, [false], [None, None, None]);
    r, found := world.FinalizeBatch([m], map[], map[], w);
    assert m in [m];
    QuietAfter(found, w.acts);
  }

  /** A ready row whose pages are the content of its fingerprint. */
  predicate Publishes(rows: Rows, pages: Pages, d: Domain) {
    d in rows && rows[d].state.Ready? && rows[d].fingerprint.Of? && Or(pages, d, map[]) == Contents(rows[d].fingerprint.ids)
  }

  /** The upsert that makes every domain of a batch dirty. */
  function DirtyAll(rows: Rows, ms: seq<GraphMutation>): (r: Rows)
    ensures forall d :: d in r <==> d in rows || exists m :: m in ms && m.domain == d
    ensures forall d :: d in r ==> if exists m :: m in ms && m.domain == d
                                   then r[d] == Or(rows, d, Row(None, Empty, Dirty)).(state := Dirty)
                                   else r[d] == rows[d]
  {
    if ms == [] then rows
    else
      var init, last := ms[..|ms| - 1], ms[|ms| - 1];
      assert ms == init + [last];
      var r := DirtyAll(rows, init);
      r[last.domain := Or(r, last.domain, Row(None, Empty, Dirty)).(state := Dirty)]
  }

  lemma SameElsewhere(a: Rows, b: Rows, d: Domain)
    requires a - {d} == b - {d}
    ensures forall e :: e != d ==> (e in a <==> e in b) && (e in a ==> a[e] == b[e])
  {
    forall e | e != d ensures (e in a <==> e in b) && (e in a ==> a[e] == b[e]) {
      assert (e in a - {d} <==> e in a) && (e in b - {d} <==> e in b);
      assert e in a ==> (a - {d})[e] == a[e] && (b - {d})[e] == b[e];
    }
  }

  lemma DirtyAllMatched(rows: Rows, pages: Pages, ms: seq<GraphMutation>)
    requires Matched(rows, pages)
    ensures Matched(DirtyAll(rows, ms), pages)
  {
  }
}
