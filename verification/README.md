# iwiki: a Dafny verification project

This project models the parts of the iwiki MCP server, and of its evaluation
harness, whose correctness rests on a protocol rather than on one function, and
proves what they promise.

| module | models |
|---|---|
| `Journal`, `CrossDomain` | the durable journal of cross-domain mutations: snapshots, manifests, edits, commit, recovery, with a failure or a crash possible at every primitive |
| `VectorIndex` | the incremental vector index against a rebuild from nothing |
| `GraphCache` | the derived link graph: when a cached row may be trusted while editors and other processes act |
| `Projection`, `Resolution` | the canonical specification projection, and evidence resolved against a moving code graph |
| `Sessions`, `HostedScope` | the hosted session table, and the domain scope of a session and of each request |
| `SpecTransaction` | the Git transaction around a page, its index and the specification projection |
| `Metrics`, `Quota`, `Rrf` | nDCG, the quota ranking with the fan-out cap, reciprocal rank fusion |
| `Agent`, `Evaluation`, `Workflow` | the paired evaluation: the tool loop, the rows, the runner, and the integrity check of what it retained |
| `Sorting`, `Options` | stable sorting by a preorder, filtering, optional values |

Run `dafny verify dfyconfig.toml` to check everything.

## How it is modelled

State that the program updates in place is a class with methods (`Base`, `World`,
`VectorStore`, `SpecificationService`, `SessionBindings`, `BindingState`); loops are
loops with invariants, proved against functions; what those functions mean is proved
as lemmas. Everything the program does not decide is left open: in `CrossDomain`
each primitive is done, raised (with or without effect) or cut by a crash; in
`GraphCache` editors and other processes act between any two statements; in
`SpecTransaction`, `Resolution` and `Workflow` the answers of Git, of the graph and
of the transports are arbitrary parameters. SHA-256 and the Markdown fingerprint are
injective constructors, and scores are real numbers.

Hypotheses that a result needs are named where it is stated:

- `CrossDomain.Base.faultless` says that every call to the operating system, Git and the
  graph store works, `mends` that at most the planned edits fail; with them the contracts
  say exactly when recovery and a mutation succeed. `Valid` says that nobody else writes the journal, HEAD or a
  tracked path; transaction ids are fresh (`!HeadCarries`). `Context` is the ghost
  record of the mutation that last held the journal.
- `GraphCache` relies on other processes: they delete no row, and a domain whose
  recorded fingerprint and cached pages agree still agrees after they acted, as their
  own rebuilds and publications leave it. Editors may do anything. On top of that,
  `World.steady` says that an edit around the reading of a rebuild is not undone before
  the fingerprint is checked again, and that the content of a domain is the same at both
  ends of the gaps that nothing checks, and so in whatever another process publishes in
  them: from provider to recorded fingerprint, and from staging to publication. `World.alone` says that nobody else acts. Results without a
  mention of either need only the rely.
- `VectorIndex` takes chunk keys to be distinct within a run and the embedder to be
  deterministic (`DistinctKeys`, `Lawful`, `Sound`).
- `Projection` takes slugs, and the times of one binding's evidence, to be distinct.
- `Quota.FuseCandidateSignals` takes the engine's fusion to list no identity twice.
- `Metrics` holds for every positive non-increasing discount.
- `Workflow` holds for every list of cases with distinct identifiers, which the fixed
  cases (eval/unified_search/fixtures.py:120-138) are; the bootstrap bound is an
  arbitrary function of the differences and the seed.

## What the proofs brought out

- A mutation whose id HEAD already carries is not rolled back: recovery takes it for a
  finished commit and leaves the edits made so far, uncommitted and without a record
  (`Journal.RollBackNeedsFreshId`, `CrossDomain.ReusedIdIsNotRolledBack`). Ids are random
  tokens, so this needs a repeated token.
- `recover_pending_transactions` says that it stops without mutation on ambiguous
  state (src/iwiki_mcp/cross_domain.py:325). With one directory that is so; with
  several, earlier ones may already have been recovered. The invariant that at most
  one is ever pending is what makes the sentence true.
- A crash before the first manifest is written, or in the middle of removing a
  directory, leaves one without a manifest, and recovery then stops.
- `mutation_failed` can be reported although Git moved HEAD (a commit that timed out
  after the fact). The disk is then exactly the state after the mutation.
- `finalize_graph_mutation` has no content check: it is coherent exactly when content
  still is what was staged (`GraphCache.PublishByMetadata`), and
  `GraphCache.EditedAfterStaging` runs the edit that breaks it. `stage_graph_rebuild`
  likewise records a fingerprint that nothing compares with what was published, and a
  rebuild does not see an edit made and undone around its reading.
- `_invalidate_graph_batch` takes a check that fails for an answer that the domain is
  untrusted. Its fallback keeps the promise that nothing is left trusted exactly when its
  write went through or every domain got an answer (`GraphCache.FallbackPromise`);
  `GraphCache.FallbackOverTrusted` gives the input that breaks it.
- Evidence of a graph that was lost between the two looks need not read fresh even while
  the graph stays as it was: the reason recorded is `revision_changed` when the second look
  reports another revision or none (`Resolution.LostGraphIsStaleAtOnce`; in general
  `Resolution.LastLookFreshness`).
- An immediate second reindex embeds nothing only if the model answers with the
  configured dimension; otherwise every run embeds those chunks again
  (`VectorIndex.SecondRunEmbeds`, `VectorIndex.MismatchEmbedsAgain`).
- `_execute_git_specification_transaction` reports `rolled_back` even when an undo
  step fails, and without a prior commit it cannot take HEAD back.
- nDCG without the rule for repeats can exceed 1: repeating the only relevant item does
  so under every discount (`Metrics.RepeatsBeatTheIdeal`). It stays within [0, 1] under
  every discount exactly when no prefix of the ranking earns more than as many ideal ranks
  (`Metrics.PlainScoreWithinOne`), and agrees with the other score exactly when no
  positively graded item is repeated (`Metrics.ScoresAgree`).
- In the evaluation a baseline reply that the seed capture cannot read counts as a
  transport failure, so the pair is excluded, while the same reply of the candidate
  is a retained failure (`Agent.MalformedFirstReply`).

## Model

| member | source | states |
|---|---|---|
| Journal.DecisionIsRight | src/iwiki_mcp/cross_domain.py:320-356 | from every disk that a mutation cut at any point can leave, the decision taken from manifest state, HEAD and trailer rolls back exactly when nothing was committed and goes forward (or discards) exactly when the commit stands |
| Journal.DecideMeaning | src/iwiki_mcp/cross_domain.py:335-356 | for any manifest at any HEAD: a trailer counts as the commit, a recorded commit only while HEAD is that commit, and an unfinished mutation is undone only at the HEAD it started from |
| Journal.RollBackNeedsFreshId | src/iwiki_mcp/cross_domain.py:335-355 | of all disks on which a pending mutation has committed nothing, those are rolled back whose HEAD did not carry the id when the mutation started; for a reused id recovery goes forward instead, on a disk where nothing has landed |
| CrossDomain.ReusedIdIsNotRolledBack | src/iwiki_mcp/cross_domain.py:320-356 | for any reused id and any edited path under a sound record, recovery leaves the uncommitted bytes in place and HEAD where it was, and then drops the record |
| Journal.JournalInvariant | src/iwiki_mcp/cross_domain.py:217-238 | on every recoverable disk at most one transaction directory is pending, and a manifest past `applied` implies that HEAD moved and carries its trailer |
| Journal.LandedKeepsJournal | src/iwiki_mcp/cross_domain.py:345-354 | trimming the directory or moving its manifest forward never loses the commit |
| Journal.RestoreStep | src/iwiki_mcp/cross_domain.py:295-309 | writing one recorded path back, or not, keeps rollback possible, so an interrupted restore can be restarted |
| Journal.LastEditWins | src/iwiki_mcp/cross_domain.py:541-546 | after any list of edits a path holds what the last edit of that path says, or its old bytes |
| Journal.SortedEditsSameEffect | src/iwiki_mcp/cross_domain.py:541-546 | making the edits in (domain, file) order has the effect of making them in plan order |
| Journal.EditsInOrder | src/iwiki_mcp/cross_domain.py:541-543 | the edits are made domain by domain and file by file |
| Journal.AffectedMeaning | src/iwiki_mcp/cross_domain.py:399-404 | exactly the files of the edits and the index and log of each domain may be written |
| CrossDomain.Base.AtomicWrite | src/iwiki_mcp/cross_domain.py:102-120 | the target afterwards has either its old or exactly the new bytes, whether the call returned, raised or was cut |
| CrossDomain.Base.WriteManifest | src/iwiki_mcp/cross_domain.py:157-159 | a manifest is only ever replaced by one whose state is further on |
| CrossDomain.Base.RemoveDirectory | src/iwiki_mcp/cross_domain.py:241-250 | a cut removal leaves any part of that one directory; nothing in it changes and no other directory is touched |
| CrossDomain.Base.CreateTransaction | src/iwiki_mcp/cross_domain.py:162-214 | the directory it reports records every tracked path with sound and complete snapshots under a prepared manifest; however it ends, the files and HEAD are untouched and recovery still applies |
| CrossDomain.Base.Transition | src/iwiki_mcp/cross_domain.py:217-238 | only the next state is accepted; afterwards the manifest is the old one or the old one with that state |
| CrossDomain.Base.FinalizeTransaction | src/iwiki_mcp/cross_domain.py:253-259 | refuses an uncommitted manifest without effect; otherwise the directory is gone or still holds a manifest at least as far on |
| CrossDomain.Base.RestoreFiles | src/iwiki_mcp/cross_domain.py:293-309 | after any prefix of edits and any index rewrite the files become exactly the old ones, byte for byte or absent, and when nothing fails they do exactly if the snapshots are complete; cut anywhere, rollback is still possible |
| CrossDomain.Base.CheckRestored | src/iwiki_mcp/cross_domain.py:310-316 | passes if and only if every recorded path is as its record says |
| CrossDomain.Base.RestoreTransaction | src/iwiki_mcp/cross_domain.py:293-317 | rollback inverts any prefix of a mutation and drops its directory last |
| CrossDomain.Base.RollForward | src/iwiki_mcp/cross_domain.py:345-352 | finishes a transaction whose commit stands without losing it, and only once the affected graphs are untrusted |
| CrossDomain.Base.RecoverOne | src/iwiki_mcp/cross_domain.py:262-282 | a directory without a readable manifest, or one recovery cannot decide on, stops with nothing changed; an unfinished one is restored exactly unless HEAD carries its id, and then its files stay; a normal return has removed it and every cut stays recoverable; when nothing fails it returns normally exactly for a readable directory that, with nothing committed, has all its snapshots |
| CrossDomain.Base.RecoverPending | src/iwiki_mcp/cross_domain.py:320-356 | a normal return leaves no journal and exactly the disk before or exactly the disk after the mutation; when nothing fails it returns normally if and only if every pending directory can be read and, with nothing committed, has all its snapshots; a single ambiguous directory stops the call with nothing changed |
| CrossDomain.Base.ApplyEdit | src/iwiki_mcp/cross_domain.py:443-450 | the edit happens entirely or not at all |
| CrossDomain.Base.RestoreManifestFile | src/iwiki_mcp/cross_domain.py:453-470 | puts one recorded path back to its old bytes or absence and touches no other; it succeeds unless some call other than a planned edit fails |
| CrossDomain.Base.ApplyEdits | src/iwiki_mcp/cross_domain.py:540-551 | afterwards every path holds its planned bytes except exactly the put-back ones, which hold their old bytes; those are fail-soft, and there are none unless a failure was reported; when only edits can fail and all are fail-soft, it ends well; rollback stays possible throughout |
| CrossDomain.Base.IndexDomains | src/iwiki_mcp/cross_domain.py:553-555 | reindexing touches only the index files, so the edits stay in place |
| CrossDomain.Base.CommitAndFinalize | src/iwiki_mcp/cross_domain.py:556-599 | once a commit is reported the mutation has landed, whatever fails afterwards; when nothing fails it lands exactly if there is something to commit |
| CrossDomain.Base.RunTransaction | src/iwiki_mcp/cross_domain.py:532-608 | a normal return has the edits in place but for the fail-soft paths that were put back, in the commit at HEAD, with nothing pending; `mutation_failed` means a settled disk, and exactly the old one unless Git moved HEAD without reporting it |
| CrossDomain.Base.ValidatePlan | src/iwiki_mcp/cross_domain.py:371-396 | refuses nothing if and only if the scope and the paths allow the plan and it was made for exactly this HEAD and these file contents |
| CrossDomain.Base.ExecutePlan | src/iwiki_mcp/cross_domain.py:473-608 | reported outcome agrees with the disk: success is the planned edits committed over a disk they fitted, each path at its planned bytes unless it is one of the put-back fail-soft paths; every other refusal leaves the disk of the initial recovery; every end, crashes included, is a disk that recovery settles; and when nothing fails it succeeds if and only if nothing refuses the plan, the domains are well named and the edited working copy differs from HEAD |
| CrossDomain.PlannedChangeIsCommitted | src/iwiki_mcp/cross_domain.py:443-450 | a plan that changes one path against HEAD has something to commit, so when nothing fails and nothing refuses it, it succeeds |
| CrossDomain.CommittableMeaning | src/iwiki_mcp/sync.py:96-106 | there is something to commit if and only if one of the paths differs from HEAD |
| CrossDomain.FirstMutation | src/iwiki_mcp/cross_domain.py:473-608 | one new file in a fresh wiki, with nothing failing or refused: the mutation succeeds, file and commit are there, nothing is pending |
| CrossDomain.Base.RestartRecovery | src/iwiki_mcp/cross_domain.py:320-356 | recovery may itself be cut and rerun any number of times; once it returns normally the disk is exactly one side of the mutation |
| CrossDomain.Base.Run | src/iwiki_mcp/cross_domain.py:493-497 | over any sequence of mutations and recoveries, each failing or cut anywhere, the journal invariant holds |
| CrossDomain.RestoredIsBefore | src/iwiki_mcp/cross_domain.py:293-317 | restoring every recorded path restores the whole working copy, because every path a mutation writes is recorded |
| CrossDomain.WriteKeepsRecord | src/iwiki_mcp/cross_domain.py:399-404 | any bytes may be written to any path of the affected set without losing the way back |
| CrossDomain.EditStep | src/iwiki_mcp/cross_domain.py:541-551 | one edit, made or put back: the paths with old bytes are exactly those whose last edit was put back |
| CrossDomain.CommitLands | src/iwiki_mcp/cross_domain.py:556-569 | the commit turns a recorded, edited working copy into a landed mutation: its tree has the working copy on the tracked paths and its parent elsewhere |
| CrossDomain.RecoveredIsSettled | src/iwiki_mcp/cross_domain.py:320-356 | with nothing pending the disk is exactly before or exactly after, never a mixture |
| VectorIndex.VectorStore.CollectChunks | src/iwiki_mcp/indexer.py:60-72 | the loop reuses exactly the stored vectors whose text, dimension and schema match and leaves the other chunks to embed |
| VectorIndex.VectorStore.IndexDomain | src/iwiki_mcp/indexer.py:43-80 | the saved records are the reuse of the old ones over the current chunks, reused + embedded = indexed chunks, and a failing embedder leaves the store alone |
| VectorIndex.ReuseIsFresh | src/iwiki_mcp/indexer.py:61-70 | a reused record with its refreshed facets is the record that embedding anew would make |
| VectorIndex.CollectIsPermutation | src/iwiki_mcp/indexer.py:60-76 | reused and newly embedded records are together the records of a rebuild |
| VectorIndex.ReindexIsRebuild | src/iwiki_mcp/indexer.py:43-80 | from any sound store the incremental run saves the same sorted list as a run from nothing |
| VectorIndex.RebuildDescribes | src/iwiki_mcp/indexer.py:43-80 | the saved list has one record for each chunk, in the order of file, heading and number, and every field of it is that of the chunk |
| VectorIndex.HistoryIsForgotten | src/iwiki_mcp/indexer.py:43-80 | over any sequence of page edits and reindexes the last run saves the rebuild of its own pages |
| VectorIndex.SecondRunEmbeds | src/iwiki_mcp/indexer.py:43-80 | an immediate second run embeds again exactly the chunks that the model does not answer with the configured dimension, and nothing if and only if there are none |
| VectorIndex.MismatchEmbedsAgain | src/iwiki_mcp/indexer.py:61-72 | a model of one dimension configured as two: the same single chunk is embedded by the second run as well |
| GraphCache.RewriteMatched | src/iwiki_mcp/graph.py:359-371 | rewriting one row keeps recorded fingerprints and cached pages in agreement exactly when the new row is faithful |
| GraphCache.World.RebuildDomain | src/iwiki_mcp/engine/graph_store.py:328-376 | whatever is edited meanwhile, publishes only under an unchanged fingerprint; the cache is then coherent exactly when the files read are the ones the fingerprint names, which fails only if an edit was made and undone around the reading |
| GraphCache.World.InspectDomains | src/iwiki_mcp/graph.py:359-371 | when nobody else acts, a domain is current exactly when its row names the present Markdown and is ready, else it is stale; in any company this still holds at the end for a scope of one domain found current |
| GraphCache.World.ScopedGraphFor | src/iwiki_mcp/graph.py:657-703 | when nobody else acts, a provider over trusted domains at their present fingerprints; in any company it covers the whole scope, or the caller gets the Markdown fallback, domains outside the scope stay coherent, and a provider over one domain names its ready row |
| GraphCache.World.Neighbors | src/iwiki_mcp/graph.py:153-201 | every answer of one provider is computed from the one generation of pages its fingerprints name |
| GraphCache.NeighborsAreLinked | src/iwiki_mcp/graph.py:153-201 | two pages of the scope are neighbours if and only if one links to the other, so being neighbours is mutual |
| GraphCache.World.StagePages | src/iwiki_mcp/indexer.py:184-224 | staging leaves the domain untrusted with exactly the current content, or undoes itself; coherence survives any interleaved edits; with nobody about it succeeds if and only if the row is ready and as expected, the files to read exist, and the cached pages so changed are the present content |
| GraphCache.World.StageRebuild | src/iwiki_mcp/indexer.py:227-246 | coherent if and only if the fingerprint recorded last names the content that was published last; domains other than the rebuilt one stay coherent whatever is edited |
| GraphCache.World.FinalizeMutation | src/iwiki_mcp/indexer.py:249-292 | publishing one domain by metadata alone is coherent if and only if Markdown still has the staged content; with nobody about it publishes exactly for a dirty row at the staged fingerprint, and a refused publication leaves the domain untrusted |
| GraphCache.World.InvalidateBatch | src/iwiki_mcp/indexer.py:295-332 | for any outcome of the write and of each check and anything others do in between: unavailable if and only if every check that got an answer found its domain untrusted at its moment |
| GraphCache.World.BatchTransaction | src/iwiki_mcp/indexer.py:335-400 | all domains are published at their rechecked fingerprints with exactly the current pages, or both tables stay as they were |
| GraphCache.World.FinalizeBatch | src/iwiki_mcp/indexer.py:335-419 | all-or-none: every affected domain is published, or both tables are invalidated from where they were; with nobody about it publishes if and only if every handle is available, every row may be started from, every file to refresh exists and the cached pages so changed are the present content; a write that goes through, or an answer for every domain, leaves none trusted; the call raises because one is still trusted |
| GraphCache.RefreshedRows | src/iwiki_mcp/engine/graph_store.py:467-487 | file by file: a read page holds the read bytes, a deleted or reserved one is gone, and every other is as it was |
| GraphCache.FallbackPromise | src/iwiki_mcp/indexer.py:295-332 | with nobody else about, the fallback leaves no domain with a store handle trusted, for every state of the cache, if and only if the invalidating write went through or every such domain got an answer |
| GraphCache.FallbackOverTrusted | src/iwiki_mcp/indexer.py:295-332 | the write fails and the check gets no answer: the fallback is reported over a domain that is still trusted |
| GraphCache.World.Mutate | src/iwiki_mcp/indexer.py:83-292 | prepare, write, stage and publish keep the cache coherent, if no edit is undone around a reading and content stands still between provider, staging and publication; with nobody about a whole-domain mutation ends published and trusted |
| GraphCache.World.Run | src/iwiki_mcp/indexer.py:83-419 | over any sequence of stages, publications, batches, rebuilds and queries, with editors and processes that keep coherence acting anywhere, a trusted row stands over exactly the pages it names; the hypothesis (`steady`) is that no edit is undone around the reading of a rebuild, and that content stands still from the provider to the recording and from staging to publication |
| GraphCache.PublishByMetadata | src/iwiki_mcp/indexer.py:249-292 | the metadata checks pass either way: coherence after publication holds exactly when content equals staged content |
| GraphCache.EditedAfterStaging | src/iwiki_mcp/indexer.py:249-292 | a run with nobody else about: stage, edit one page, publish; both calls report success and a trusted row stands over stale pages |
| Projection.ParsePages | src/iwiki_mcp/specifications.py:197-211 | collects scenarios, findings and incomplete bindings of the specification pages in slug order |
| Projection.ReportDuplicates | src/iwiki_mcp/specifications.py:213-230 | one finding for each id that occurs more than once, with all its locations |
| Projection.KeepScenarios | src/iwiki_mcp/specifications.py:232-259 | keeps exactly the scenarios whose id is unique and whose bindings are complete |
| Projection.KeepLatest | src/iwiki_mcp/specifications.py:275-289 | the loop over evidence computes the latest-attempt dictionary |
| Projection.AssembleProjection | src/iwiki_mcp/specifications.py:185-302 | the loops compute the projection that ProjectionOfPages and FindingsOfPages characterise over the pages and the parser alone |
| Projection.ProjectionOfPages | src/iwiki_mcp/specifications.py:197-259 | a scenario is kept, with every field, if and only if a specification page parses to it, its id is used once on all specification pages, and no finding of theirs calls its bindings incomplete; the bindings are exactly those of the kept scenarios |
| Projection.FindingsOfPages | src/iwiki_mcp/specifications.py:197-230 | the findings are exactly those of the parser and one for each id used more than once, with all its places in order |
| Projection.ProjectionIsOrdered | src/iwiki_mcp/specifications.py:261-301 | scenarios, bindings, evidence and findings stand in the lexicographic order of their keys, findings then by what is missing and by their places |
| Projection.LatestIsNewest | src/iwiki_mcp/specifications.py:275-289 | the dictionary holds one attempt for each binding that has eligible evidence, and none of that evidence is later |
| Projection.EvidenceIsNewest | src/iwiki_mcp/specifications.py:275-289 | evidence is kept if and only if it is the newest eligible attempt of its binding |
| Projection.EvidenceForgetsOrder | src/iwiki_mcp/specifications.py:275-292 | evidence in any order gives the same evidence list |
| Projection.ProjectionForgetsOrder | src/iwiki_mcp/specifications.py:185-302 | the projection does not depend on page order (distinct slugs) or evidence order (distinct times per binding) |
| Projection.ProjectionIsIdempotent | src/iwiki_mcp/specifications.py:275-302 | a projection fed its own evidence comes out the same |
| Projection.ProjectionKeeps | src/iwiki_mcp/specifications.py:213-302 | scenario ids are unique with colliding ids dropped everywhere, bindings are exactly those of kept scenarios, and each binding keeps exactly its latest attempt whose source hash still matches |
| Resolution.NormalizedShape | src/iwiki_mcp/specifications.py:518-538 | a normalised state is ready with a safe revision and no reason, or carries a known reason as its state |
| Resolution.NormalizedMeaning | src/iwiki_mcp/specifications.py:518-538 | ready exactly when the resolver says so, is not stale and names a safe revision; otherwise the reason of the first hint that names one, else failed |
| Resolution.SafeRevisionMeaning | src/iwiki_mcp/specifications.py:501-502 | a safe revision has up to 256 letters, digits and marks, and no mark first |
| Resolution.FingerprintMeaning | src/iwiki_mcp/specifications.py:465-498 | unknown codes become failed and an unsafe revision none; everything else is kept |
| Resolution.FingerprintIsInjective | src/iwiki_mcp/specifications.py:465-498 | two observable graph states with one fingerprint are the same state |
| Resolution.SpecificationService.Persist | src/iwiki_mcp/specifications.py:642-652 | stores every attempt of a batch or refuses without effect |
| Resolution.SpecificationService.Recheck | src/iwiki_mcp/specifications.py:661-730 | the attempts after both looks at the graph, attempt by attempt |
| Resolution.SpecificationService.Resolve | src/iwiki_mcp/specifications.py:654-746 | not found, changed source and missing batch support store nothing, and each is reported exactly when it is so; otherwise every binding gets the evidence both looks at the graph justify, and a revision is named if and only if the graph was ready with a snapshot and all of the evidence is linked |
| Resolution.SpecificationService.ContextFreshness | src/iwiki_mcp/specifications.py:438-462 | one freshness for each binding, from the evidence stored for that binding |
| Resolution.ByKeyFindsLast | src/iwiki_mcp/specifications.py:438-462 | the dictionary of evidence finds the last attempt of a binding, if there is one |
| Resolution.LinkedNamesReadyRevision | src/iwiki_mcp/specifications.py:682-730 | evidence is resolved, ambiguous or unresolved if and only if one same revision was ready before and after and was the snapshot linked in |
| Resolution.LinkedState | src/iwiki_mcp/specifications.py:682-715 | one target is resolved, several are ambiguous, none is unresolved and names the selector |
| Resolution.UnlinkedState | src/iwiki_mcp/specifications.py:661-730 | evidence that is not linked has no target and no revision, names the selector, and gives a known reason |
| Resolution.LinkedFreshness | src/iwiki_mcp/specifications.py:415-435 | linked evidence reads fresh exactly while its source hash and its ready revision stand |
| Resolution.UnreadyFreshness | src/iwiki_mcp/specifications.py:415-435 | evidence of a graph that was not ready reads fresh exactly until the state or the source changes |
| Resolution.UnlinkedFreshness | src/iwiki_mcp/specifications.py:661-730 | evidence that is not linked, for whatever the looks and the snapshot gave, reads fresh if and only if the source stands and the graph shows the state the call recorded |
| Resolution.LastLookFreshness | src/iwiki_mcp/specifications.py:720-730 | for everything the two looks may have found: in exactly which cases the evidence reads fresh at the very state the call saw last |
| Resolution.LostGraphIsStaleAtOnce | src/iwiki_mcp/specifications.py:720-730 | a ready graph that turns out missing and reports no revision leaves evidence that is stale at the next read of the same missing graph |
| Resolution.ReadsBack | src/iwiki_mcp/specifications.py:438-462 | what a call stored for a binding is what a later read of that binding finds |
| Sessions.SessionBindings.Prune | src/iwiki_mcp/http.py:100-120 | idle entries go; if more than 1000 remain, exactly the excess goes and no evicted entry is more recent than a survivor; nothing else changes |
| Sessions.SessionBindings.OldestKeys | src/iwiki_mcp/http.py:108-115 | the excess entries chosen are not more recent than any other |
| Sessions.SessionBindings.Resolve | src/iwiki_mcp/http.py:122-141 | prunes exactly the idle entries and the excess of least recent ones, and returns the last state stored under the id by the same token and wiki since its last removal, expiry or eviction, marking it as used; nothing otherwise |
| Sessions.SessionBindings.Store | src/iwiki_mcp/http.py:143-161 | prunes exactly the idle entries and the excess of least recent ones; refused exactly when someone else then holds the id; the table is the pruned one with the new entry |
| Sessions.SessionBindings.Remove | src/iwiki_mcp/http.py:163-183 | drops an entry only for its owner, and no other entry |
| Sessions.SessionBindings.IsForeign | src/iwiki_mcp/http.py:185-203 | true exactly when the id is held by someone else |
| Sessions.OwnerUnchanged | src/iwiki_mcp/http.py:143-161 | over any run the owner of an entry changes only after the entry has left the table |
| HostedScope.EffectiveScope | src/iwiki_mcp/http.py:364-383 | whatever was selected, a request sees exactly what the token still grants: write within read, a primary exactly when something is writable |
| HostedScope.EffectiveKeepsGranted | src/iwiki_mcp/http.py:364-383 | a well-formed selection that is fully granted comes through untouched |
| HostedScope.BindingState.BeginRequest | src/iwiki_mcp/http.py:623-653 | installs the effective scope and reports a substituted primary exactly when the selected one is not writable |
| HostedScope.BindingState.Bind | src/iwiki_mcp/server.py:5155-5240 | a selection succeeds if and only if it is well scoped, within the token grants and over existing domains, whatever was selected before; a refusal changes nothing |
| HostedScope.AskFillsIn | src/iwiki_mcp/server.py:5171-5200 | what a selection leaves out stays as it is, except that a primary no longer writable gives way to the first writable domain |
| HostedScope.BindingState.ExpandDomain | src/iwiki_mcp/server.py:326-357 | a created domain joins selection and request as their primary and keeps both well scoped |
| HostedScope.BindingState.Serve | src/iwiki_mcp/http.py:618-731 | at the start of a request, and after each of its calls, the scope is well formed and within the grants plus the domains the calls so far created |
| HostedScope.BindingState.Run | src/iwiki_mcp/http.py:618-731 | over any run of requests, selections, domain creations and grant changes every request starts within its grants |
| HostedScope.BindingState.SelectAgain | src/iwiki_mcp/server.py:5171-5200 | after any run, however narrow, any granted scope over existing domains can be selected again and is what the next request sees |
| SpecTransaction.Base.RestoreFiles | src/iwiki_mcp/server.py:2822-2831 | every file of a snapshot is put back, or its absence, and no other file is touched |
| SpecTransaction.Base.PublishProjection | src/iwiki_mcp/server.py:2939-2950 | a soft publication failure leaves the projection at its old bytes; any other failure is passed on |
| SpecTransaction.Base.TrySteps | src/iwiki_mcp/server.py:2936-2961 | raises exactly when mutation, index, a fatal publication or the commit fails |
| SpecTransaction.Base.Undo | src/iwiki_mcp/server.py:2962-2981 | HEAD and every snapshotted file return to their earlier values when the undo steps work |
| SpecTransaction.Base.Execute | src/iwiki_mcp/server.py:2879-3024 | from any failure point a rolled-back result has all files as before, and HEAD as before if and only if there was a prior commit or none was made; success has exactly the written bytes; a failed publication alone is forgiven exactly when it is soft and can be repaired |
| SpecTransaction.OnlyTheProjectionIsStale | src/iwiki_mcp/server.py:2939-2950 | after a soft failure only the projection keeps its old bytes |
| Metrics.IdealScore | eval/search_pipeline/metrics.py:50-54 | the ideal score is the discounted gain of the best grades |
| Metrics.NdcgAtK | eval/search_pipeline/metrics.py:34-55 | the score is the discounted gain of first occurrences over the ideal and lies in [0, 1] for every ranking, repeats and irrelevant items included, every k and every grade map |
| Metrics.GainDoubles | eval/search_pipeline/metrics.py:38-39 | one grade more is worth twice the gain and one, from nothing for grade 0 |
| Metrics.PowerAdds | eval/search_pipeline/metrics.py:38-39 | the powers behind the gain multiply as exponents add, from 2 |
| Metrics.OneItemScore | eval/search_pipeline/metrics.py:34-55 | one item at rank one scores the gain of its grade over the gain of the best grade, under every discount and with either rule for repeats |
| Metrics.LesserItemScoresAThird | eval/search_pipeline/metrics.py:34-55 | of two items at grades 2 and 1, the lesser alone scores one third |
| Metrics.PlainNdcgAtK | eval/reranker/experiment.py:7-20 | without the rule for repeats the score is not negative, and at most 1 when no prefix of the ranking earns more than as many ideal ranks, so also when no graded item repeats |
| Metrics.PlainScoreWithinOne | eval/reranker/experiment.py:7-20 | the plain score lies in [0, 1] under every discount if and only if no prefix of the ranking earns more than as many ideal ranks |
| Metrics.DominatedExactly | eval/search_pipeline/metrics.py:34-55 | one list of gains earns at most what another does under every discount if and only if its prefix sums are dominated |
| Metrics.Abel | eval/search_pipeline/metrics.py:34-55 | summation by parts: dominating prefix sums keep their lead under any non-increasing positive discount |
| Metrics.FirstEarnMost | eval/search_pipeline/metrics.py:50-54 | no choice of n distinct judged items earns more than the n best |
| Metrics.PrefixAtMostIdeal | eval/search_pipeline/metrics.py:41-54 | every prefix of a ranking earns at most what the ideal earns in as many ranks |
| Metrics.AtMostIdeal | eval/search_pipeline/metrics.py:34-55 | a ranking earns between nothing and the ideal |
| Metrics.ScoresAgree | eval/search_pipeline/metrics.py:41-48 | both scores agree if and only if no positively graded item is repeated |
| Metrics.RepeatsBeatTheIdeal | eval/reranker/experiment.py:7-20 | without the rule a repeated relevant item scores above the ideal, under every discount |
| Metrics.IdealRankingScoresOne | eval/search_pipeline/metrics.py:50-55 | the bound is met: ranking by grade scores exactly the ideal |
| Quota.CapFanout | eval/search_pipeline/selection.py:171-179 | the counter loop keeps the hits with fewer than `cap` earlier ones of their file |
| Quota.CapPerFile | eval/search_pipeline/selection.py:171-179 | of every file the cap keeps exactly the first hits, in order |
| Quota.TransformSignals | eval/search_pipeline/selection.py:163-181 | only broad signals are capped |
| Quota.DirectSignals | eval/search_pipeline/selection.py:27-28 | the direct signals are the chunk signals and then the section signals, and none of them is ever capped |
| Quota.BroadSignals | eval/search_pipeline/selection.py:163-181 | page and graph signals are capped, and no other |
| Quota.AllIdsMeaning | eval/search_pipeline/selection.py:249-254 | the limit of the direct ranking counts the identities of the hits of the direct signals |
| Quota.QuotaRanking | eval/search_pipeline/selection.py:192-219 | the delete-and-append loop computes the closed form of the quota |
| Quota.KeepStep | eval/search_pipeline/selection.py:209-214 | deleting one more unreserved hit commutes with the reserved hits already appended |
| Quota.KeepIsACut | eval/search_pipeline/selection.py:209-214 | the deleted hits are exactly the unreserved ones below some rank |
| Quota.NothingRepeated | eval/search_pipeline/selection.py:192-219 | the output lists no identity twice |
| Quota.IdentitiesKept | eval/search_pipeline/selection.py:192-219 | its identities are exactly the fused and the reserved ones |
| Quota.ReservedComeFirst | eval/search_pipeline/selection.py:192-219 | every reserved hit is among the first final_k |
| Quota.Layout | eval/search_pipeline/selection.py:192-219 | exactly the lowest unreserved hits of the old top are displaced, behind the missing reserved ones, and all other order is kept |
| Quota.FuseCandidateSignals | eval/search_pipeline/selection.py:222-255 | without a quota the fused list; with one, the quota ranking with every direct winner among the first final_k |
| Rrf.Fuse | eval/reranker/experiment.py:34-45 | lists every ranked item once, by score and then discovery |
| Rrf.AddRanking | eval/reranker/experiment.py:37-44 | one ranking adds to each item the share of its first occurrence and nothing for repeats |
| Rrf.ShareIsReciprocal | eval/reranker/experiment.py:37-44 | the share of a rank is the reciprocal of rank and constant together |
| Rrf.UnanimousScores | eval/reranker/experiment.py:34-45 | an item that precedes another wherever that is ranked scores strictly higher |
| Rrf.Unanimity | eval/reranker/experiment.py:34-45 | what all rankings agree on, the fused ranking keeps |
| Agent.Capture | eval/unified_search/runner.py:437-452 | a reply reaches the loop unchanged exactly when the seed capture can read it, else as a transport failure; the seeds read are those of the context calls before it stopped |
| Agent.AcceptedOnce | eval/unified_search/agent.py:185-188 | no tool is executed twice with the same arguments |
| Agent.RefusalMeaning | eval/unified_search/agent.py:170-200 | which calls are executed, and exactly which calls each refusal is given to |
| Agent.Execute | eval/unified_search/agent.py:170-200 | calls are executed in order up to the first refused one, whose refusal is the status |
| Agent.Round | eval/unified_search/agent.py:148-212 | a reply ends the run with the status it deserves, or all of its calls are executed within the limit |
| Agent.MalformedFirstReply | eval/unified_search/runner.py:437-452 | the same malformed first reply ends a baseline run as an excluded transport failure and a candidate run as a retained failure |
| Agent.RunAgentCase | eval/unified_search/agent.py:134-212 | for any transport the trace holds only declared tools, at most 12 calls or 4, within four rounds, the status says why the run ended and after which calls; an answer is present exactly for `ok` |
| Evaluation.RunRowPasses | eval/unified_search/runner.py:105-137 | the row of any run satisfies every recomputation of the row check |
| Evaluation.FailedRowPasses | eval/unified_search/runner.py:321-336 | so does the row of a run that could not be carried out |
| Evaluation.SuccessIsExact | eval/unified_search/runner.py:113-120 | a row is a success exactly for the expected facts in order and the expected graph state |
| Evaluation.RunMetricsMeaning | eval/unified_search/runner.py:105-137 | what every error, mistake and loss of a scored run counts |
| Evaluation.SeedsMeaning | eval/unified_search/runner.py:33-43 | the seeds are the first three different entities, in order, of a ready graph |
| Evaluation.PassingRowsAreScored | eval/unified_search/runner.py:251-305 | a row passes the row check if and only if it is what scoring makes of its own status, answer, trace and seeds, and these are plausible |
| Evaluation.ArmsShare | eval/unified_search/runner.py:308-318 | both arms of a case share prompt, environment and messages, and each has its own tools, one of which gives context |
| Evaluation.AggregateForgetsOrder | eval/unified_search/runner.py:140-176 | aggregates depend neither on row order nor on case order |
| Evaluation.StatsMeaning | eval/unified_search/runner.py:140-176 | the numbers of one arm are the number of its rows, of its successes, their ratio and the mean of its calls |
| Evaluation.AggregateMeaning | eval/unified_search/runner.py:140-176 | each aggregate counts the rows of its own arm, over all cases, over the coordinated ones, or over one case |
| Evaluation.FailuresMeaning | eval/unified_search/runner.py:201-209 | a status is counted for an arm if and only if it is not ok and occurs, and as often as it occurs |
| Evaluation.FailuresForgetOrder | eval/unified_search/runner.py:201-209 | failure counts do not depend on row order |
| Evaluation.QualityByCase | eval/unified_search/runner.py:212-226 | bounds depend only on the paired differences case by case |
| Workflow.RunArm | eval/unified_search/runner.py:468-481 | the row of a trial is the scoring of a run its transport explains, or the row of a failed runner, and passes the row check |
| Workflow.SamplePair | eval/unified_search/runner.py:466-488 | one attempt has both arms in alternating order and is excluded exactly for a transport failure |
| Workflow.RetainedMeaning | eval/unified_search/runner.py:356-393 | the checker retains an attempt if and only if it has two rows that are scorings of runs of their arms, in alternating order, excluded exactly for a failed transport |
| Workflow.SeedMistakes | eval/unified_search/runner.py:468-481 | a candidate never mistakes the seeds; a baseline does exactly when the last ones it asked with are not those on offer |
| Workflow.SampleCase | eval/unified_search/runner.py:461-493 | attempts are numbered from one, at most 30, and sampling stops exactly with the last required pair |
| Workflow.RunWorkflow | eval/unified_search/runner.py:455-518 | the evidence reports exactly the attempts made, in case and attempt order, and every row comes from its own trial |
| Workflow.CaseQuality | eval/unified_search/runner.py:212-226 | the bound of a case is taken of +1, -1 or 0 for each included attempt in order, as the candidate alone, the baseline alone, or both or neither succeeded; these add up to the difference of the correct rows reported for the case |
| Workflow.AggregateQuality | eval/unified_search/runner.py:212-226 | the aggregate bound is taken of the same outcomes over all included attempts in order |
| Workflow.ToolCallsMeaning | eval/unified_search/runner.py:229-250 | totals and means of the calls of each arm, over the included and over the excluded attempts |
| Workflow.CountsMeaning | eval/unified_search/runner.py:494-518 | the counts and the sampling are those of the attempts, over all and case by case |
| Workflow.EvidenceNames | eval/unified_search/runner.py:494-518 | prompts and environments are exactly those of the reported rows, which are the rows of the included attempts |
| Workflow.RegroupKeepsAll | eval/unified_search/runner.py:344-357 | grouping attempts by case loses and invents none |
| Workflow.SortedResults | eval/unified_search/runner.py:494 | sorting the included rows only turns the pairs of even attempts around |
| Workflow.CellsByAttempt | eval/unified_search/runner.py:214-219 | the dictionary built row by row holds the included attempts in order |
| Workflow.SameDifferences | eval/unified_search/runner.py:212-223 | reported and regrouped rows have the same paired differences |
| Workflow.CompleteCase | eval/unified_search/runner.py:356-397 | a sampled case passes exactly when it has all its pairs |
| Workflow.ReportRecomputed | eval/unified_search/runner.py:400-421 | counts, rows, hashes, aggregates, bounds, failures and tool calls are recomputed to what was reported |
| Workflow.CheckerAcceptsComplete | eval/unified_search/runner.py:339-423 | whatever the transports did, the retained evidence is accepted if and only if the sampling is complete |
| Workflow.AcceptedIsReported | eval/unified_search/runner.py:339-423 | no figure can be altered: whatever evidence is accepted for attempts in order has the counts, rows, digests, aggregates, bounds, failures and call figures that the runner reports for them |
| Workflow.OtherRunsRefused | eval/unified_search/runner.py:339-423 | evidence of any other number of runs is refused |
| Workflow.CheckCase | eval/unified_search/runner.py:356-399 | the loop accepts a case exactly when numbering, order, rows, flags and stopping point are right |
| Workflow.CheckRetained | eval/unified_search/runner.py:339-423 | the loops decide the integrity predicate |
| Workflow.Evaluate | eval/unified_search/runner.py:556-577 | evidence is accepted if and only if there is a model, the preflight passed, twenty runs were asked for and the sampling is complete |

## Left out

- CrossDomain.Base.ValidatePlan: path syntax, symbolic links, special files and the caller's scope are parameters (`Surroundings`) that do not change during a call.
- CrossDomain.Base.CreateTransaction: recorded paths are in no particular order, since nothing depends on it.
- CrossDomain.Base.AtomicWrite: the temporary file that a crash leaves beside the target (src/iwiki_mcp/cross_domain.py:104-112) is not modelled, so "the disk before" speaks of the targets; such a file counts as an unrelated change and makes later plans for the domain refuse.
- CrossDomain.Base.CommitLocked: the index, file modes and the content of ignored files are not modelled; reading HEAD and its trailer is taken to succeed.
- GraphCache.World.Neighbors: link parsing and ranking are an arbitrary function of a page's bytes.
- GraphCache.World.PublishRebuild: SQLite transactions are atomic; replacing a corrupt store file is not modelled.
- VectorIndex.VectorStore.IndexDomain: the quantised form in which vectors are stored and the chunker are arbitrary functions.
- Projection.AssembleProjection: the page grammar is an arbitrary function of slug and Markdown.
- Resolution.SpecificationService.Resolve: selector linking is an arbitrary function of revision and binding.
- Sessions.SessionBindings.Evict: which of several equally old entries goes is left open.
- HostedScope.BindingState.Bind: the syntax of domain names and the project policy are not modelled.
- SpecTransaction.Base.Execute: empty directories, staging and the push after the commit are not modelled.
- Metrics.PlainNdcgAtK: a negative k, for which Python slices from the end, is not modelled.
- Agent.RunAgentCase: JSON, the schemas and the message list are reduced to what decides the branch taken.
- Workflow.RunWorkflow: the evidence leaves out raw parity, protocol and registry fields, which the integrity check does not read.
- Recall, reciprocal rank, intent coverage and source mix (eval/search_pipeline/metrics.py:15-31, 58-80): one-line definitions with no property beyond them.
- Candidate grids and their validation (eval/search_pipeline/selection.py:63-160): enumeration.
- The retry and lock layer (src/iwiki_mcp/lock.py:33-48): mutual exclusion is taken as given.
- HTTP and JSON-RPC plumbing, the admin commands, push and fetch, embedding, reranking and chat calls: input and output.
