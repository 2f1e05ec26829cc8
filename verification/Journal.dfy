/**
 The durable journal behind a mutation of several wiki files, and its recovery.

 A `Base` is the wiki's disk: the files, the Git history, and one directory per
 pending transaction. Every primitive ends in one of three ways, and which one is
 not under the program's control: it is `Done`; it `Raised`, in which case its
 effect may or may not have happened; or the process `Crashed` there, which no
 handler catches. A run can therefore be cut between any two primitives, and
 inside recovery too.
 */
module Journal {
  import opened Options
  import opened Sorting

  datatype Path = Path(domain: string, file: string)
  type Bytes = string
  type Files = map<Path, Bytes>
  type TransactionId = string
  type CommitId = nat

  /** A digest, taken to be injective. */
  datatype Hash = Sha256(of: Bytes)

  datatype State = Prepared | Applied | Committed | Finalized

  function Rank(s: State): nat {
    match s case Prepared => 0 case Applied => 1 case Committed => 2 case Finalized => 3
  }

  datatype FileSnapshot = FileSnapshot(path: Path, existed: bool, sha256: Option<Hash>)

  datatype Manifest = Manifest(
    id: TransactionId,
    state: State,
    baseHead: Option<CommitId>,
    commitHead: Option<CommitId>,
    domains: set<string>,
    files: seq<FileSnapshot>)

  /** One transaction directory. The manifest is absent before it is first written. */
  datatype Directory = Directory(manifest: Option<Manifest>, snapshots: map<nat, Bytes>)

  datatype Commit = Commit(trailer: Option<TransactionId>, parent: Option<CommitId>, tree: Files)

  datatype PlannedEdit = PlannedEdit(domain: string, file: string, beforeHash: Option<Hash>, after: Option<Bytes>)

  datatype Plan = Plan(id: TransactionId, baseHead: Option<CommitId>, edits: seq<PlannedEdit>, domains: set<string>)

  /** What a caller may add to a plan once the lock is held. */
  datatype Extension = Extension(edits: seq<PlannedEdit>, failSoft: set<Path>, refused: bool)

  datatype Error =
    | MutationFailed | ManualRecoveryRequired | InvalidPath | SourceChanged
    | TargetCollision | WriteScopeBlocked | OsError | ExtensionRefused

  datatype Outcome = Done | Raised(error: Error) | Crashed {
    predicate IsFailure() { !Done? }
    function PropagateFailure(): Outcome requires IsFailure() { this }
  }

  /** Everything that survives a crash. */
  datatype Disk = Disk(
    files: Files,
    head: Option<CommitId>,
    commits: map<CommitId, Commit>,
    journal: map<TransactionId, Directory>)

  function PathOf(e: PlannedEdit): Path { Path(e.domain, e.file) }

  function IndexPath(domain: string): Path { Path(domain, "index.jsonl") }

  function LogPath(domain: string): Path { Path(domain, "log.jsonl") }

  /** Every path a mutation may write. */
  function AffectedFiles(edits: seq<PlannedEdit>, domains: set<string>): set<Path> {
    (set e | e in edits :: PathOf(e)) + (set d | d in domains :: IndexPath(d)) + (set d | d in domains :: LogPath(d))
  }

  function ApplyOne(files: Files, e: PlannedEdit): Files {
    if e.after.Some? then files[PathOf(e) := e.after.value] else files - {PathOf(e)}
  }

  /** The files once every edit has been made. */
  function ApplyAll(files: Files, edits: seq<PlannedEdit>): Files {
    if edits == [] then files else ApplyOne(ApplyAll(files, edits[..|edits| - 1]), edits[|edits| - 1])
  }

  function HeadTrailer(d: Disk): Option<TransactionId> {
    if d.head.Some? && d.head.value in d.commits then d.commits[d.head.value].trailer else None
  }

  predicate HeadCarries(d: Disk, id: TransactionId) { HeadTrailer(d) == Some(id) }

  function HeadTree(d: Disk): Files {
    if d.head.Some? && d.head.value in d.commits then d.commits[d.head.value].tree else map[]
  }

  /** `git commit -- paths`: the old tree with the working copy of `paths`. */
  function Overlay(tree: Files, files: Files, paths: set<Path>): Files {
    (tree - paths) + (files - (files.Keys - paths))
  }

  // ---------------------------------------------------------------- recovery's decision

  datatype Decision = Discard | RollForward | RollBack | Stop

  function Decide(m: Manifest, head: Option<CommitId>, trailerMatches: bool): Decision {
    if m.state.Finalized? then Discard
    else if m.state.Committed? && head != m.commitHead && !trailerMatches then Stop
    else if m.state.Committed? || trailerMatches then RollForward
    else if head != m.baseHead then Stop
    else RollBack
  }

  /**
   When recovery decides what, for any manifest at any HEAD: a trailer at HEAD counts as
   the commit, a recorded commit only while HEAD is that commit, and an unfinished mutation
   is undone only at the HEAD it started from.
   */
  lemma DecideMeaning(m: Manifest, head: Option<CommitId>, trailerMatches: bool)
    ensures var decision := Decide(m, head, trailerMatches);
            var stands := trailerMatches || (m.state == Committed && head == m.commitHead);
            && (decision == Discard <==> m.state == Finalized)
            && (decision == RollForward <==> m.state != Finalized && stands)
            && (decision == RollBack <==> m.state in {Prepared, Applied} && !trailerMatches && head == m.baseHead)
            && (decision == Stop <==>
                  && m.state != Finalized && !stands
                  && (m.state == Committed || head != m.baseHead))
  {
  }

  /** A mutation may write the files of its edits, and the index and the log of its domains. */
  lemma AffectedMeaning(edits: seq<PlannedEdit>, domains: set<string>, p: Path)
    ensures p in AffectedFiles(edits, domains) <==>
            || (exists i :: 0 <= i < |edits| && edits[i].domain == p.domain && edits[i].file == p.file)
            || (p.domain in domains && (p.file == "index.jsonl" || p.file == "log.jsonl"))
  {
    if i :| 0 <= i < |edits| && edits[i].domain == p.domain && edits[i].file == p.file {
      assert edits[i] in edits && PathOf(edits[i]) == p;
    }
    if p.domain in domains && p.file == "index.jsonl" {
      assert p == IndexPath(p.domain);
    }
    if p.domain in domains && p.file == "log.jsonl" {
      assert p == LogPath(p.domain);
    }
    if e :| e in edits && PathOf(e) == p {
      var i :| 0 <= i < |edits| && edits[i] == e;
    }
  }

  // ---------------------------------------------------------------- what a run may leave

  /**
   The mutation a pending directory belongs to, and the disk it started from. `putBack`
   holds the fail-soft paths whose last edit failed and was undone.
   */
  datatype Context = Context(
    id: TransactionId,
    tracked: set<Path>,
    domains: set<string>,
    edits: seq<PlannedEdit>,
    putBack: set<Path>,
    before: Disk)

  ghost predicate WellFormed(t: Context) {
    && t.before.journal == map[]
    && (t.before.head.Some? ==> t.before.head.value in t.before.commits)
    && !HeadCarries(t.before, t.id)
    && t.tracked == AffectedFiles(t.edits, t.domains)
  }

  predicate Describes(s: FileSnapshot, files: Files) {
    if s.path in files then s.existed && s.sha256 == Some(Sha256(files[s.path]))
    else !s.existed && s.sha256 == None
  }

  ghost predicate Records(m: Manifest, t: Context) {
    && m.id == t.id && m.baseHead == t.before.head
    && (forall i :: 0 <= i < |m.files| ==> m.files[i].path in t.tracked && Describes(m.files[i], t.before.files))
    && (forall i, j :: 0 <= i < j < |m.files| ==> m.files[i].path != m.files[j].path)
    && (forall p :: p in t.tracked ==> exists i :: 0 <= i < |m.files| && m.files[i].path == p)
  }

  ghost predicate SnapshotsSound(m: Manifest, snapshots: map<nat, Bytes>, files: Files) {
    forall i :: i in snapshots && i < |m.files| ==>
      m.files[i].path in files && snapshots[i] == files[m.files[i].path]
  }

  ghost predicate SnapshotsComplete(m: Manifest, snapshots: map<nat, Bytes>) {
    forall i :: 0 <= i < |m.files| && m.files[i].existed ==> i in snapshots
  }

  ghost predicate SameOff(a: Files, b: Files, tracked: set<Path>) {
    forall p :: p !in tracked ==> Lookup(a, p) == Lookup(b, p)
  }

  ghost predicate SameOn(a: Files, b: Files, tracked: set<Path>) {
    forall p :: p in tracked ==> Lookup(a, p) == Lookup(b, p)
  }

  /** Every path holds its planned bytes, or, if it was put back, its old ones. Index files are free. */
  ghost predicate EditsInPlace(t: Context, files: Files) {
    forall p :: (forall d :: d in t.domains ==> p != IndexPath(d)) ==>
      Lookup(files, p) == Lookup(if p in t.putBack then t.before.files else ApplyAll(t.before.files, t.edits), p)
  }

  /** HEAD has not moved, and rolling back is possible or already over. */
  ghost predicate NotCommitted(t: Context, d: Disk) {
    && d.head == t.before.head && d.commits == t.before.commits
    && d.journal.Keys <= {t.id}
    && SameOff(d.files, t.before.files, t.tracked)
    && if t.id in d.journal && d.journal[t.id].manifest.Some? then
         var m := d.journal[t.id].manifest.value;
         && Records(m, t) && Rank(m.state) <= 1
         && SnapshotsSound(m, d.journal[t.id].snapshots, t.before.files)
         && (SnapshotsComplete(m, d.journal[t.id].snapshots) || d.files == t.before.files)
       else
         d.files == t.before.files
  }

  /** HEAD is the commit this mutation made; it changes tracked paths only, to what the working copy holds. */
  ghost predicate Landed(t: Context, d: Disk) {
    && d.head.Some? && d.head.value !in t.before.commits
    && d.commits == t.before.commits[d.head.value := Commit(Some(t.id), t.before.head, HeadTree(d))]
    && SameOn(HeadTree(d), d.files, t.tracked) && SameOff(HeadTree(d), HeadTree(t.before), t.tracked)
    && d.journal.Keys <= {t.id}
    && SameOff(d.files, t.before.files, t.tracked)
    && EditsInPlace(t, d.files)
    && (t.id in d.journal && d.journal[t.id].manifest.Some? ==>
          d.journal[t.id].manifest.value.id == t.id && Rank(d.journal[t.id].manifest.value.state) >= 1)
  }

  /** Every disk an interrupted mutation can leave behind. */
  ghost predicate Recoverable(t: Context, d: Disk) {
    WellFormed(t) && (NotCommitted(t, d) || Landed(t, d))
  }

  /** Nothing pending: exactly the disk before the mutation, or exactly the one after it. */
  ghost predicate Settled(t: Context, d: Disk) {
    WellFormed(t) && d.journal == map[] && (d == t.before || Landed(t, d))
  }

  // ---------------------------------------------------------------- facts about the decision

  /** Recovery goes the right way from every disk an interrupted mutation can leave. */
  lemma DecisionIsRight(t: Context, d: Disk)
    requires Recoverable(t, d)
    requires t.id in d.journal && d.journal[t.id].manifest.Some?
    ensures var decision := Decide(d.journal[t.id].manifest.value, d.head, HeadCarries(d, t.id));
            && (decision == RollBack <==> NotCommitted(t, d))
            && (decision in {RollForward, Discard} <==> Landed(t, d))
  {
    if Landed(t, d) {
      assert HeadCarries(d, t.id);
    }
  }

  /**
   A mutation that has committed nothing is rolled back exactly when HEAD did not carry its
   id when it started. A reused id is rolled forward instead, as if it had landed.
   */
  lemma RollBackNeedsFreshId(t: Context, d: Disk)
    requires NotCommitted(t, d)
    requires t.id in d.journal && d.journal[t.id].manifest.Some?
    ensures var decision := Decide(d.journal[t.id].manifest.value, d.head, HeadCarries(d, t.id));
            && (decision == RollBack <==> !HeadCarries(t.before, t.id))
            && (decision == RollForward <==> HeadCarries(t.before, t.id))
            && (decision == RollForward ==> !Landed(t, d))
  {
    assert HeadTrailer(d) == HeadTrailer(t.before);
  }

  /** At most one directory is pending, and a manifest past `applied` implies its commit. */
  lemma JournalInvariant(t: Context, d: Disk)
    requires Recoverable(t, d)
    ensures |d.journal| <= 1
    ensures forall id :: id in d.journal && d.journal[id].manifest.Some? && Rank(d.journal[id].manifest.value.state) >= 2 ==>
              d.head.Some? && d.head != t.before.head && HeadCarries(d, id)
  {
    assert |d.journal.Keys| <= |{t.id}| by { SubsetSize(d.journal.Keys, {t.id}); }
  }

  /** The journal directory may be trimmed, or its manifest moved forward, without losing the commit. */
  lemma LandedKeepsJournal(t: Context, d: Disk, j: map<TransactionId, Directory>)
    requires Landed(t, d)
    requires j.Keys <= {t.id}
    requires t.id in j && j[t.id].manifest.Some? ==>
               j[t.id].manifest.value.id == t.id && Rank(j[t.id].manifest.value.state) >= 1
    ensures Landed(t, d.(journal := j))
  {
    assert HeadTree(d.(journal := j)) == HeadTree(d);
  }

  /** Writing one recorded path back to its old content keeps rollback possible. */
  lemma RestoreStep(t: Context, d: Disk, m: Manifest, i: nat, files: Files)
    requires NotCommitted(t, d)
    requires t.id in d.journal && d.journal[t.id].manifest == Some(m) && i < |m.files|
    requires forall p :: p != m.files[i].path ==> Lookup(files, p) == Lookup(d.files, p)
    requires var p := m.files[i].path;
             || Lookup(files, p) == Lookup(d.files, p)
             || (Lookup(files, p) == Lookup(t.before.files, p))
    ensures NotCommitted(t, d.(files := files))
  {
    if d.files == t.before.files {
      LookupExtensional(files, t.before.files);
    }
  }

  lemma SubsetSize<T>(a: set<T>, b: set<T>)
    requires a <= b
    ensures |a| <= |b|
  {
    if a != {} {
      var x :| x in a;
      SubsetSize(a - {x}, b - {x});
    }
  }

  // ---------------------------------------------------------------- the order of edits

  predicate EditLeq(a: PlannedEdit, b: PlannedEdit) {
    if a.domain == b.domain then StringLeq(a.file, b.file) else StringLeq(a.domain, b.domain)
  }

  /** Only the last edit of a path decides what the path holds. */
  lemma {:induction false} LastEditWins(files: Files, edits: seq<PlannedEdit>, p: Path, mine: PlannedEdit -> bool)
    requires forall e :: mine(e) <==> PathOf(e) == p
    ensures Lookup(ApplyAll(files, edits), p) ==
            var es := Filter(edits, mine);
            if es == [] then Lookup(files, p) else es[|es| - 1].after
  {
    if edits != [] {
      var init, last := edits[..|edits| - 1], edits[|edits| - 1];
      LastEditWins(files, init, p, mine);
      FilterLast(edits, mine);
    }
  }

  /** Making the edits in (domain, file) order has the effect of making them in plan order. */
  lemma SortedEditsSameEffect(files: Files, edits: seq<PlannedEdit>)
    ensures ApplyAll(files, Sort(edits, EditLeq)) == ApplyAll(files, edits)
  {
    var sorted := Sort(edits, EditLeq);
    forall p ensures Lookup(ApplyAll(files, sorted), p) == Lookup(ApplyAll(files, edits), p) {
      var mine := (e: PlannedEdit) => PathOf(e) == p;
      forall a, b | mine(a) && mine(b) ensures EditLeq(a, b) {
        StringOrder(a.file, b.file, []);
      }
      SortStable(edits, EditLeq, mine);
      LastEditWins(files, sorted, p, mine);
      LastEditWins(files, edits, p, mine);
    }
    LookupExtensional(ApplyAll(files, sorted), ApplyAll(files, edits));
  }

  /** The edits are made domain by domain, and file by file within a domain. */
  lemma EditsInOrder(edits: seq<PlannedEdit>, i: nat, j: nat)
    requires i < j < |edits|
    ensures var sorted := Sort(edits, EditLeq);
            && StringLeq(sorted[i].domain, sorted[j].domain)
            && (sorted[i].domain == sorted[j].domain ==> StringLeq(sorted[i].file, sorted[j].file))
  {
    forall a: PlannedEdit, b: PlannedEdit, c: PlannedEdit
      ensures EditLeq(a, b) || EditLeq(b, a)
      ensures EditLeq(a, b) && EditLeq(b, c) ==> EditLeq(a, c)
    {
      StringOrder(a.domain, b.domain, c.domain);
      StringOrder(b.domain, c.domain, a.domain);
      StringOrder(a.file, b.file, c.file);
    }
    SortSorted(edits, EditLeq);
    var sorted := Sort(edits, EditLeq);
    assert EditLeq(sorted[i], sorted[j]);
    StringOrder(sorted[i].domain, sorted[j].domain, []);
  }

  lemma LookupExtensional<K, V>(a: map<K, V>, b: map<K, V>)
    requires forall k :: Lookup(a, k) == Lookup(b, k)
    ensures a == b
  {
    forall k ensures (k in a <==> k in b) && (k in a ==> a[k] == b[k]) {
      assert Lookup(a, k) == Lookup(b, k);
    }
    assert a.Keys == b.Keys;
  }
}
