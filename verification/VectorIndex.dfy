/** The incremental vector index of one domain, against the rebuild it saves. */
module VectorIndex {
  import opened Options
  import opened Sorting

  const SCHEMA_VERSION := 2
  /** Machine-written artefacts that are never indexed. */
  const RESERVED: set<string> := {"index.md", "log.md"}

  type Vector = seq<real>

  /** A digest of a chunk's text, taken to be injective. */
  datatype Hash = HashOf(text: string)

  /** The int8 form of a vector, as a function of the vector. */
  datatype Quantized = Quantize(of: Vector)

  datatype Chunk = Chunk(
    file: string, heading: string, chunk: int, text: string,
    kind: string, pageType: Option<string>, tags: seq<string>, ordinal: int)
  {
    function Id(): string { file + "#" + heading }
    function Key(): (string, int) { (Id(), chunk) }
  }

  datatype Record = Record(
    id: string, file: string, heading: string, chunk: int, hash: Hash, dim: nat, vector: Quantized,
    kind: string, pageType: Option<string>, tags: seq<string>, ordinal: int, v: nat)
  {
    function Key(): (string, int) { (id, chunk) }
  }

  /** The model in use: its dimension and what it makes of a text. */
  datatype Config = Config(dimensions: nat, embed: string -> Vector)

  datatype Page = Page(file: string, content: string)

  datatype Stats = Stats(indexedChunks: nat, reused: nat, embedded: nat)

  datatype Result = Indexed(stats: Stats) | EmbedError

  function MakeRecord(c: Chunk, vector: Vector): Record {
    Record(c.Id(), c.file, c.heading, c.chunk, HashOf(c.text), |vector|, Quantize(vector),
           c.kind, c.pageType, c.tags, c.ordinal, SCHEMA_VERSION)
  }

  /** The record a run without any history makes. */
  function FreshRecord(cfg: Config, c: Chunk): Record { MakeRecord(c, cfg.embed(c.text)) }

  /** (file, heading, chunk), as tuples compare. */
  predicate RecordLeq(a: Record, b: Record) {
    if a.file != b.file then StringLeq(a.file, b.file)
    else if a.heading != b.heading then StringLeq(a.heading, b.heading)
    else a.chunk <= b.chunk
  }

  /** `embed_texts`, zipped with the chunks it embedded. */
  function EmbedAll(cfg: Config, chunks: seq<Chunk>): (r: seq<Record>)
    ensures |r| == |chunks| && forall i :: 0 <= i < |chunks| ==> r[i] == FreshRecord(cfg, chunks[i])
  {
    seq(|chunks|, i requires 0 <= i < |chunks| => FreshRecord(cfg, chunks[i]))
  }

  /** The index of a run that starts from an empty store. */
  function Rebuild(cfg: Config, chunks: seq<Chunk>): seq<Record> {
    Sort(EmbedAll(cfg, chunks), RecordLeq)
  }

  function ChunksOf(chunker: Page -> seq<Chunk>, pages: seq<Page>): seq<Chunk> {
    if pages == [] then []
    else
      var last := pages[|pages| - 1];
      ChunksOf(chunker, pages[..|pages| - 1]) + (if last.file in RESERVED then [] else chunker(last))
  }

  /** The stored records by key; of several with one key the last counts. */
  function ByKey(records: seq<Record>): map<(string, int), Record> {
    if records == [] then map[]
    else ByKey(records[..|records| - 1])[records[|records| - 1].Key() := records[|records| - 1]]
  }

  lemma {:induction false} ByKeyFinds(records: seq<Record>, k: (string, int))
    ensures k in ByKey(records) <==> exists r :: r in records && r.Key() == k
    ensures k in ByKey(records) ==> ByKey(records)[k] in records && ByKey(records)[k].Key() == k
  {
    if records != [] {
      var init, last := records[..|records| - 1], records[|records| - 1];
      assert records == init + [last];
      ByKeyFinds(init, k);
    }
  }

  predicate Reusable(cfg: Config, existing: map<(string, int), Record>, c: Chunk) {
    && c.Key() in existing
    && existing[c.Key()].hash == HashOf(c.text)
    && existing[c.Key()].dim == cfg.dimensions
    && existing[c.Key()].v == SCHEMA_VERSION
  }

  /** A reused record keeps its vector and takes the chunk's facets. */
  function Refresh(r: Record, c: Chunk): Record {
    r.(pageType := c.pageType, tags := c.tags, ordinal := c.ordinal)
  }

  /** What the loop has collected: reused records, and chunks still to embed. */
  function Collect(cfg: Config, existing: map<(string, int), Record>, chunks: seq<Chunk>): (r: (seq<Record>, seq<Chunk>))
    ensures |r.0| + |r.1| == |chunks|
  {
    if chunks == [] then ([], [])
    else
      var (kept, toEmbed) := Collect(cfg, existing, chunks[..|chunks| - 1]);
      var c := chunks[|chunks| - 1];
      if Reusable(cfg, existing, c) then (kept + [Refresh(existing[c.Key()], c)], toEmbed)
      else (kept, toEmbed + [c])
  }

  /** The store after one run over `chunks`. */
  function Reindex(cfg: Config, records: seq<Record>, chunks: seq<Chunk>): seq<Record> {
    var collected := Collect(cfg, ByKey(records), chunks);
    Sort(collected.0 + EmbedAll(cfg, collected.1), RecordLeq)
  }

  function EmbeddedCount(cfg: Config, records: seq<Record>, chunks: seq<Chunk>): nat {
    |Collect(cfg, ByKey(records), chunks).1|
  }

  /** One run's report and the store it leaves. */
  predicate IndexOutcome(cfg: Config, before: seq<Record>, chunks: seq<Chunk>, embedderUp: bool, r: Result, after: seq<Record>) {
    var embedded := EmbeddedCount(cfg, before, chunks);
    if embedded > 0 && !embedderUp then r == EmbedError && after == before
    else
      && after == Reindex(cfg, before, chunks)
      && embedded <= |chunks|
      && r == Indexed(Stats(|chunks|, |chunks| - embedded, embedded))
  }

  class VectorStore {
    var records: seq<Record>

    constructor ()
      ensures records == []
    {
      records := [];
    }

    method ReadChunks(chunker: Page -> seq<Chunk>, pages: seq<Page>) returns (chunks: seq<Chunk>)
      ensures chunks == ChunksOf(chunker, pages)
    {
      chunks := [];
      for i := 0 to |pages|
        invariant chunks == ChunksOf(chunker, pages[..i])
      {
        assert pages[..i + 1][..i] == pages[..i];
        if pages[i].file !in RESERVED {
          chunks := chunks + chunker(pages[i]);
        }
      }
      assert pages[..|pages|] == pages;
    }

    /** The loop that decides, chunk by chunk, between reuse and embedding. */
    method CollectChunks(cfg: Config, existing: map<(string, int), Record>, chunks: seq<Chunk>)
      returns (kept: seq<Record>, reused: nat, toEmbed: seq<Chunk>)
      ensures (kept, toEmbed) == Collect(cfg, existing, chunks) && reused == |kept|
    {
      kept, reused, toEmbed := [], 0, [];
      for i := 0 to |chunks|
        invariant (kept, toEmbed) == Collect(cfg, existing, chunks[..i]) && reused == |kept|
      {
        var c := chunks[i];
        assert chunks[..i + 1][..i] == chunks[..i];
        if Reusable(cfg, existing, c) {
          kept := kept + [Refresh(existing[c.Key()], c)];
          reused := reused + 1;
        } else {
          toEmbed := toEmbed + [c];
        }
      }
      assert chunks[..|chunks|] == chunks;
    }

    /** `index_domain` over the sorted pages of one domain. A failing embedder leaves the store alone. */
    method IndexDomain(cfg: Config, chunker: Page -> seq<Chunk>, pages: seq<Page>, embedderUp: bool) returns (r: Result)
      modifies this
      ensures IndexOutcome(cfg, old(records), ChunksOf(chunker, pages), embedderUp, r, records)
    {
      hide RecordLeq, Collect, ByKey, Sort;
      var existing := ByKey(records);
      var chunks := ReadChunks(chunker, pages);
      var kept, reused, toEmbed := CollectChunks(cfg, existing, chunks);
      if toEmbed != [] && !embedderUp {
        return EmbedError;
      }
      var all := Sort(kept + EmbedAll(cfg, toEmbed), RecordLeq);
      r := Indexed(Stats(|all|, reused, |toEmbed|));
      assert all == Reindex(cfg, records, chunks);
      records := all;
    }
  }

  // ---------------------------------------------------------------- hypotheses

  ghost predicate DistinctKeys(chunks: seq<Chunk>) {
    forall i, j :: 0 <= i < j < |chunks| ==> chunks[i].Key() != chunks[j].Key()
  }

  /** Chunks that agree on key and text come from one place in one page. */
  ghost predicate Lawful(made: Chunk -> bool) {
    forall a, b :: made(a) && made(b) && a.Key() == b.Key() && a.text == b.text ==>
      a.file == b.file && a.heading == b.heading && a.kind == b.kind
  }

  /** Current-schema records were made by this model from chunks of this chunker. */
  ghost predicate Sound(cfg: Config, made: Chunk -> bool, records: seq<Record>) {
    forall r :: r in records && r.v == SCHEMA_VERSION ==> exists c :: made(c) && r == FreshRecord(cfg, c)
  }

  ghost predicate AllMade(made: Chunk -> bool, chunks: seq<Chunk>) {
    forall c :: c in chunks ==> made(c)
  }

  // ---------------------------------------------------------------- incremental equals rebuild

  lemma RecordTie(a: Record, b: Record)
    requires RecordLeq(a, b) && RecordLeq(b, a)
    ensures a.file == b.file && a.heading == b.heading && a.chunk == b.chunk
  {
    StringOrder(a.file, b.file, []);
    StringOrder(a.heading, b.heading, []);
  }

  lemma RecordOrder()
    ensures TotalPreorder(RecordLeq)
  {
    forall a, b, c
      ensures RecordLeq(a, b) || RecordLeq(b, a)
      ensures RecordLeq(a, b) && RecordLeq(b, c) ==> RecordLeq(a, c)
    {
      StringOrder(a.file, b.file, c.file);
      StringOrder(b.file, c.file, a.file);
      StringOrder(a.heading, b.heading, c.heading);
    }
  }

  lemma RebuiltTieFree(cfg: Config, chunks: seq<Chunk>)
    requires DistinctKeys(chunks)
    ensures TieFree(EmbedAll(cfg, chunks), RecordLeq)
  {
    var all := EmbedAll(cfg, chunks);
    forall a, b | a in all && b in all && RecordLeq(a, b) && RecordLeq(b, a) ensures a == b {
      RecordTie(a, b);
      var i :| 0 <= i < |all| && all[i] == a;
      var j :| 0 <= j < |all| && all[j] == b;
      assert chunks[i].Key() == chunks[j].Key();
    }
  }

  lemma ReuseIsFresh(cfg: Config, made: Chunk -> bool, records: seq<Record>, c: Chunk)
    requires Lawful(made) && Sound(cfg, made, records) && made(c)
    requires Reusable(cfg, ByKey(records), c)
    ensures Refresh(ByKey(records)[c.Key()], c) == FreshRecord(cfg, c)
  {
    var r := ByKey(records)[c.Key()];
    ByKeyFinds(records, c.Key());
    var origin :| made(origin) && r == FreshRecord(cfg, origin);
    assert origin.Key() == c.Key() && origin.text == c.text;
  }

  lemma {:induction false} CollectIsPermutation(cfg: Config, made: Chunk -> bool, records: seq<Record>, chunks: seq<Chunk>)
    requires Lawful(made) && Sound(cfg, made, records) && AllMade(made, chunks)
    ensures var (reused, toEmbed) := Collect(cfg, ByKey(records), chunks);
            multiset(reused + EmbedAll(cfg, toEmbed)) == multiset(EmbedAll(cfg, chunks))
  {
    if chunks != [] {
      var init, c := chunks[..|chunks| - 1], chunks[|chunks| - 1];
      assert chunks == init + [c];
      CollectIsPermutation(cfg, made, records, init);
      var (reused, toEmbed) := Collect(cfg, ByKey(records), init);
      assert EmbedAll(cfg, chunks) == EmbedAll(cfg, init) + [FreshRecord(cfg, c)];
      if Reusable(cfg, ByKey(records), c) {
        ReuseIsFresh(cfg, made, records, c);
      } else {
        assert EmbedAll(cfg, toEmbed + [c]) == EmbedAll(cfg, toEmbed) + [FreshRecord(cfg, c)];
      }
    }
  }

  /** Reusing vectors saves exactly the index a run from nothing would save. */
  lemma ReindexIsRebuild(cfg: Config, made: Chunk -> bool, records: seq<Record>, chunks: seq<Chunk>)
    requires Lawful(made) && Sound(cfg, made, records) && AllMade(made, chunks)
    requires DistinctKeys(chunks)
    ensures Reindex(cfg, records, chunks) == Rebuild(cfg, chunks)
    ensures Sound(cfg, made, Rebuild(cfg, chunks))
  {
    var (reused, toEmbed) := Collect(cfg, ByKey(records), chunks);
    CollectIsPermutation(cfg, made, records, chunks);
    RebuiltTieFree(cfg, chunks);
    RecordOrder();
    SortForgetsOrder(EmbedAll(cfg, chunks), reused + EmbedAll(cfg, toEmbed), RecordLeq);
    RebuildSound(cfg, made, chunks);
  }

  lemma RebuildSound(cfg: Config, made: Chunk -> bool, chunks: seq<Chunk>)
    requires AllMade(made, chunks)
    ensures Sound(cfg, made, Rebuild(cfg, chunks))
  {
    SameElements(EmbedAll(cfg, chunks), Rebuild(cfg, chunks));
  }

  /** A record says of its chunk where it is, what it is, and what it means. */
  ghost predicate Describes(r: Record, cfg: Config, c: Chunk) {
    && r.file == c.file && r.heading == c.heading && r.chunk == c.chunk && r.id == c.file + "#" + c.heading
    && r.hash == HashOf(c.text) && r.vector == Quantize(cfg.embed(c.text)) && r.dim == |cfg.embed(c.text)|
    && r.kind == c.kind && r.pageType == c.pageType && r.tags == c.tags && r.ordinal == c.ordinal && r.v == SCHEMA_VERSION
  }

  /** The saved list has one record for each chunk, describing it, in the order of file, heading and number. */
  lemma RebuildDescribes(cfg: Config, chunks: seq<Chunk>)
    ensures |Rebuild(cfg, chunks)| == |chunks|
    ensures forall r :: r in Rebuild(cfg, chunks) ==> exists c :: c in chunks && Describes(r, cfg, c)
    ensures forall c :: c in chunks ==> exists r :: r in Rebuild(cfg, chunks) && Describes(r, cfg, c)
    ensures Sorted(Rebuild(cfg, chunks), RecordLeq)
  {
    var embedded := EmbedAll(cfg, chunks);
    SameElements(embedded, Rebuild(cfg, chunks));
    RecordOrder();
    SortSorted(embedded, RecordLeq);
    forall r | r in Rebuild(cfg, chunks) ensures exists c :: c in chunks && Describes(r, cfg, c) {
      var i :| 0 <= i < |chunks| && embedded[i] == r;
      assert Describes(r, cfg, chunks[i]);
    }
    forall c | c in chunks ensures exists r :: r in Rebuild(cfg, chunks) && Describes(r, cfg, c) {
      var i :| 0 <= i < |chunks| && chunks[i] == c;
      assert embedded[i] in embedded && Describes(embedded[i], cfg, c);
    }
  }

  /** The store after a whole history of runs. */
  function History(cfg: Config, records: seq<Record>, runs: seq<seq<Chunk>>): seq<Record> {
    if runs == [] then records else Reindex(cfg, History(cfg, records, runs[..|runs| - 1]), runs[|runs| - 1])
  }

  /** Whatever was indexed before, the last run saves the rebuild of its own pages. */
  lemma {:induction false} HistoryIsForgotten(cfg: Config, made: Chunk -> bool, records: seq<Record>, runs: seq<seq<Chunk>>)
    requires Lawful(made) && Sound(cfg, made, records)
    requires forall chunks :: chunks in runs ==> AllMade(made, chunks) && DistinctKeys(chunks)
    ensures Sound(cfg, made, History(cfg, records, runs))
    ensures runs != [] ==> History(cfg, records, runs) == Rebuild(cfg, runs[|runs| - 1])
  {
    if runs != [] {
      HistoryIsForgotten(cfg, made, records, runs[..|runs| - 1]);
      assert runs[|runs| - 1] in runs;
      ReindexIsRebuild(cfg, made, History(cfg, records, runs[..|runs| - 1]), runs[|runs| - 1]);
    }
  }

  lemma {:induction false} CollectedAreFiltered(cfg: Config, existing: map<(string, int), Record>, chunks: seq<Chunk>, wanted: Chunk -> bool)
    requires forall c :: c in chunks ==> (wanted(c) <==> !Reusable(cfg, existing, c))
    ensures Collect(cfg, existing, chunks).1 == Filter(chunks, wanted)
  {
    if chunks != [] {
      var init, c := chunks[..|chunks| - 1], chunks[|chunks| - 1];
      assert chunks == init + [c];
      CollectedAreFiltered(cfg, existing, init, wanted);
      FilterLast(chunks, wanted);
    }
  }

  /** The model does not answer this chunk with the configured dimension. */
  function Missized(cfg: Config): Chunk -> bool { (c: Chunk) => |cfg.embed(c.text)| != cfg.dimensions }

  /**
   An immediate second run embeds again exactly the chunks that the model does not answer
   with the configured dimension, and so nothing exactly when there are none.
   */
  lemma SecondRunEmbeds(cfg: Config, chunks: seq<Chunk>)
    requires DistinctKeys(chunks)
    ensures Collect(cfg, ByKey(Rebuild(cfg, chunks)), chunks).1 == Filter(chunks, Missized(cfg))
    ensures EmbeddedCount(cfg, Rebuild(cfg, chunks), chunks) == 0 <==>
            forall c :: c in chunks ==> |cfg.embed(c.text)| == cfg.dimensions
  {
    var saved := Rebuild(cfg, chunks);
    SameElements(EmbedAll(cfg, chunks), saved);
    forall c | c in chunks
      ensures Reusable(cfg, ByKey(saved), c) <==> !Missized(cfg)(c)
    {
      var i :| 0 <= i < |chunks| && chunks[i] == c;
      assert EmbedAll(cfg, chunks)[i] in saved;
      ByKeyFinds(saved, c.Key());
      var r := ByKey(saved)[c.Key()];
      assert r in EmbedAll(cfg, chunks);
      var j :| 0 <= j < |chunks| && EmbedAll(cfg, chunks)[j] == r;
      assert chunks[j].Key() == c.Key();
      assert j == i;
    }
    CollectedAreFiltered(cfg, ByKey(saved), chunks, Missized(cfg));
    FilterMembers(chunks, Missized(cfg));
    if Filter(chunks, Missized(cfg)) != [] {
      assert Filter(chunks, Missized(cfg))[0] in Filter(chunks, Missized(cfg));
    }
  }

  /** A model of one dimension configured as two: the same single chunk is embedded by every run. */
  lemma MismatchEmbedsAgain()
    ensures var cfg := Config(2, (text: string) => [0.5]);
            var chunk := Chunk("a.md", "", 0, "text", "page", None, [], 0);
            EmbeddedCount(cfg, Rebuild(cfg, [chunk]), [chunk]) == 1
  {
    var cfg := Config(2, (text: string) => [0.5]);
    var chunk := Chunk("a.md", "", 0, "text", "page", None, [], 0);
    assert Missized(cfg)(chunk);
    SecondRunEmbeds(cfg, [chunk]);
    FilterAll([chunk], Missized(cfg));
  }
}
