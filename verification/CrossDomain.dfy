/** The journaled mutation and its recovery, statement by statement, over a disk that may fail at any of them. */
module CrossDomain {
  import opened Options
  import opened Sorting
  import opened Journal

  predicate ValidDomain(domain: string) {
    domain != "" && domain[0] != '.' && '/' !in domain && '\\' !in domain
  }

  predicate MatchesBefore(e: PlannedEdit, files: Files) {
    match e.beforeHash
    case None => PathOf(e) !in files
    case Some(hash) => PathOf(e) in files && Sha256(files[PathOf(e)]) == hash
  }

  /** The plan was made for exactly this disk. */
  predicate Fits(plan: Plan, d: Disk) {
    d.head == plan.baseHead && forall e :: e in plan.edits ==> e.domain in plan.domains && MatchesBefore(e, d.files)
  }

  /** Recovery refuses to choose a direction for this directory. */
  predicate Ambiguous(d: Disk, id: TransactionId)
    requires id in d.journal
  {
    var manifest := d.journal[id].manifest;
    || manifest.None?
    || manifest.value.id != id
    || Decide(manifest.value, d.head, HeadCarries(d, id)).Stop?
  }

  /** A path is as its record says. */
  predicate Holds(s: FileSnapshot, files: Files) {
    if s.existed then s.path in files && s.sha256 == Some(Sha256(files[s.path])) else s.path !in files
  }

  /** Every path holds what the edits so far say, or, if it was put back, its old bytes. */
  ghost predicate EditedSoFar(before: Files, target: Files, putBack: set<Path>, files: Files) {
    forall p :: Lookup(files, p) == Lookup(if p in putBack then before else target, p)
  }

  /** A readable manifest short of its commit, at the HEAD it started from. */
  predicate Unfinished(d: Disk, id: TransactionId) {
    && id in d.journal && d.journal[id].manifest.Some?
    && var m := d.journal[id].manifest.value; m.id == id && Rank(m.state) <= 1 && d.head == m.baseHead
  }

  /** What recovery makes of an unfinished directory: it keeps the files as they are if HEAD carries the id, else it restores them. */
  predicate Treated(d: Disk, id: TransactionId, o: Outcome, files: Files)
    requires Unfinished(d, id)
  {
    if HeadCarries(d, id) then files == d.files
    else o.Done? ==> var m := d.journal[id].manifest.value; forall i :: 0 <= i < |m.files| ==> Holds(m.files[i], files)
  }

  /** What stands around a plan besides the disk: the binding, the file system, Git's ignore rules and index. */
  datatype Surroundings = Surroundings(inScope: bool, invalid: set<Path>, ignored: bool, unrelated: bool, staged: bool)

  /** `_validate_plan` has nothing to refuse. */
  predicate Admits(around: Surroundings, plan: Plan, d: Disk) {
    around.inScope && Fits(plan, d) && forall e :: e in plan.edits ==> PathOf(e) !in around.invalid
  }

  function Extended(plan: Plan, prepare: Option<Extension>): Plan {
    plan.(edits := plan.edits + (if prepare.Some? then prepare.value.edits else []))
  }

  /** Nothing between recovery and the guarded body refuses the plan. */
  predicate Unrefused(around: Surroundings, plan: Plan, prepare: Option<Extension>, d: Disk) {
    && around.ignored && !around.unrelated && !around.staged
    && (prepare.Some? ==> !prepare.value.refused)
    && Admits(around, Extended(plan, prepare), d)
  }

  /** Anything may fail; only the planned edits may, by raising; or nothing may. */
  datatype Faults = AnyCall | OnlyEdits | NoCall

  /** Git finds something to commit among `paths`. */
  predicate Committable(d: Disk, paths: set<Path>) { Overlay(HeadTree(d), d.files, paths) != HeadTree(d) }

  /** Every pending directory can be read, and holds all its snapshots if nothing was committed. */
  ghost predicate Restartable(t: Context, d: Disk) {
    forall id :: id in d.journal ==>
      && d.journal[id].manifest.Some?
      && (NotCommitted(t, d) ==> SnapshotsComplete(d.journal[id].manifest.value, d.journal[id].snapshots))
  }

  /** The mutation that a plan makes of a disk. */
  ghost function ContextOf(plan: Plan, d: Disk): Context {
    Context(plan.id, AffectedFiles(plan.edits, plan.domains), plan.domains, plan.edits, {}, d)
  }

  class Base {
    /** Hypothesis switch: which calls to the operating system, to Git and to the graph store may fail. */
    const faults: Faults
    const faultless: bool := faults.NoCall?
    const mends: bool := !faults.AnyCall?
    var files: Files
    var head: Option<CommitId>
    var commits: map<CommitId, Commit>
    var journal: map<TransactionId, Directory>
    /** The mutation that last held the journal. */
    ghost var pending: Context

    /** A wiki without files or history. */
    constructor (faults: Faults)
      ensures this.faults == faults && Now() == Disk(map[], None, map[], map[]) == pending.before && Valid()
    {
      this.faults, files, head, commits, journal := faults, map[], None, map[], map[];
      pending := Context("", {}, {}, [], {}, Disk(map[], None, map[], map[]));
      new;
      assert AffectedFiles([], {}) == {};
    }

    ghost function Now(): Disk
      reads this
    {
      Disk(files, head, commits, journal)
    }

    /** The disk is one this program can leave: nobody else wrote the journal, HEAD or a tracked path. */
    ghost predicate Valid()
      reads this
    {
      Recoverable(pending, Now())
    }

    // -------------------------------------------------------------- primitives

    /** The operating system's answer to one call. */
    method Syscall() returns (o: Outcome, happened: bool)
      ensures o.Done? ==> happened
      ensures o.Raised? ==> o.error == OsError
      ensures mends ==> o.Done?
    {
      var crashed: bool, failed: bool := *, *;
      happened := *;
      if mends {
        o, happened := Done, true;
      } else if crashed {
        o := Crashed;
      } else if failed {
        o := Raised(OsError);
      } else {
        o, happened := Done, true;
      }
    }

    method AtomicWrite(p: Path, payload: Bytes) returns (o: Outcome)
      modifies `files
      ensures files == old(files) || files == old(files)[p := payload]
      ensures o.Done? ==> files == old(files)[p := payload]
      ensures o.Raised? ==> o.error == OsError
      ensures mends ==> o.Done?
    {
      var happened;
      o, happened := Syscall();
      if happened {
        files := files[p := payload];
      }
    }

    method Unlink(p: Path) returns (o: Outcome)
      modifies `files
      ensures files == old(files) || files == old(files) - {p}
      ensures o.Done? ==> files == old(files) - {p}
      ensures o.Raised? ==> o.error == OsError
      ensures mends ==> o.Done?
    {
      var happened;
      o, happened := Syscall();
      if happened {
        files := files - {p};
      }
    }

    method MakeDirectory(id: TransactionId) returns (o: Outcome)
      modifies `journal
      ensures journal == old(journal) || (id !in old(journal) && journal == old(journal)[id := Directory(None, map[])])
      ensures o.Done? ==> id !in old(journal) && id in journal
      ensures o.Raised? ==> o.error == OsError
      ensures mends ==> (o.Done? <==> id !in old(journal))
    {
      if id in journal {
        return Raised(OsError);
      }
      var happened;
      o, happened := Syscall();
      if happened {
        journal := journal[id := Directory(None, map[])];
      }
    }

    method WriteSnapshot(id: TransactionId, index: nat, payload: Bytes) returns (o: Outcome)
      requires id in journal
      modifies `journal
      ensures journal == old(journal) || journal == old(journal)[id := old(journal)[id].(snapshots := old(journal)[id].snapshots[index := payload])]
      ensures o.Done? ==> journal == old(journal)[id := old(journal)[id].(snapshots := old(journal)[id].snapshots[index := payload])]
      ensures mends ==> o.Done?
    {
      var happened;
      o, happened := Syscall();
      if happened {
        journal := journal[id := journal[id].(snapshots := journal[id].snapshots[index := payload])];
      }
    }

    /** Writes a manifest. The precondition is the rule that a manifest's state only moves forward. */
    method WriteManifest(m: Manifest) returns (o: Outcome)
      requires m.id in journal
      requires journal[m.id].manifest.Some? ==> Rank(journal[m.id].manifest.value.state) < Rank(m.state)
      modifies `journal
      ensures journal == old(journal) || journal == old(journal)[m.id := old(journal)[m.id].(manifest := Some(m))]
      ensures o.Done? ==> journal == old(journal)[m.id := old(journal)[m.id].(manifest := Some(m))]
      ensures o.Raised? ==> o.error == OsError
      ensures mends ==> o.Done?
    {
      var happened;
      o, happened := Syscall();
      if happened {
        journal := journal[m.id := journal[m.id].(manifest := Some(m))];
      }
    }

    /** Deletes a directory entry by entry, in no particular order; a cut leaves any part of it. */
    method RemoveDirectory(id: TransactionId) returns (o: Outcome)
      modifies `journal
      ensures journal - {id} == old(journal) - {id} && journal.Keys <= old(journal).Keys
      ensures id in journal && journal[id].manifest.Some? ==> journal[id].manifest == old(journal)[id].manifest
      ensures id in journal ==> forall i :: i in journal[id].snapshots ==>
                i in old(journal)[id].snapshots && journal[id].snapshots[i] == old(journal)[id].snapshots[i]
      ensures o.Done? ==> journal == old(journal) - {id}
      ensures o.Raised? ==> o.error == OsError
      ensures mends ==> o.Done?
    {
      var happened;
      o, happened := Syscall();
      if happened {
        journal := journal - {id};
      } else if id in journal {
        var lost: set<nat>, manifestLost: bool := *, *;
        journal := journal[id := Directory(if manifestLost then None else journal[id].manifest, journal[id].snapshots - lost)];
      }
    }

    method ReadSnapshot(id: TransactionId, index: nat) returns (payload: Option<Bytes>)
      requires id in journal
      ensures payload.Some? ==> index in journal[id].snapshots && payload.value == journal[id].snapshots[index]
      ensures mends ==> payload == Lookup(journal[id].snapshots, index)
    {
      var failed: bool := *;
      payload := if failed && !mends then None else Lookup(journal[id].snapshots, index);
    }

    /** `index_domain`: replaces one index file by bytes of its own choosing, or raises. */
    method IndexDomain(domain: string) returns (o: Outcome)
      modifies `files
      ensures files == old(files)
              || (IndexPath(domain) in files && files == old(files)[IndexPath(domain) := files[IndexPath(domain)]])
      ensures mends ==> o.Done?
    {
      var payload: Bytes := *;
      o := AtomicWrite(IndexPath(domain), payload);
    }

    /**
     `commit_locked`: it may report failure although Git moved HEAD (a timeout after the
     fact), but never reports a commit that was not made.
     */
    method CommitLocked(id: TransactionId, paths: set<Path>) returns (o: Outcome, committed: bool)
      modifies `head, `commits
      ensures committed ==> head != old(head)
      ensures head == old(head) ==> commits == old(commits)
      ensures head != old(head) ==>
                && head.Some? && head.value !in old(commits)
                && commits == old(commits)[head.value := Commit(Some(id), old(head), Overlay(HeadTree(old(Now())), files, paths))]
      ensures !o.Raised?
      ensures mends ==> o.Done? && (committed <==> Committable(old(Now()), paths)) && (committed || head == old(head))
    {
      var moved: bool, crashed: bool := *, *;
      committed := false;
      if mends {
        if Committable(Disk(files, head, commits, journal), paths) {
          var next := FreshCommit(commits.Keys + (if head.Some? then {head.value} else {}));
          commits := commits[next := Commit(Some(id), head, Overlay(HeadTree(Disk(files, head, commits, journal)), files, paths))];
          head, committed := Some(next), true;
        }
        return Done, committed;
      }
      if moved {
        var next: CommitId := *;
        if next !in commits && head != Some(next) {
          commits := commits[next := Commit(Some(id), head, Overlay(HeadTree(Disk(files, head, commits, journal)), files, paths))];
          head := Some(next);
          committed := *;
        }
      }
      o := if crashed then Crashed else Done;
    }

    /** `finalize_committed`: whether the affected graphs have been made untrusted. */
    method GraphSafe(domains: set<string>) returns (safe: bool)
      ensures mends ==> safe
    {
      safe := *;
      if mends {
        safe := true;
      }
    }

    // -------------------------------------------------------------- transitions

    method Transition(m: Manifest, state: State, commitHead: Option<CommitId>) returns (o: Outcome, updated: Manifest)
      requires m.id in journal && journal[m.id].manifest == Some(m)
      modifies `journal
      ensures Rank(state) != Rank(m.state) + 1 ==> o == Raised(MutationFailed) && journal == old(journal)
      ensures o.Done? ==> updated == m.(state := state, commitHead := if state.Committed? then commitHead else m.commitHead)
                          && journal == old(journal)[m.id := old(journal)[m.id].(manifest := Some(updated))]
      ensures journal == old(journal)
              || (Rank(state) == Rank(m.state) + 1 && journal == old(journal)[m.id := old(journal)[m.id].(manifest := Some(
                 m.(state := state, commitHead := if state.Committed? then commitHead else m.commitHead)))])
      ensures Rank(state) == Rank(m.state) + 1 && o.Raised? ==> o.error == OsError
      ensures mends && Rank(state) == Rank(m.state) + 1 ==> o.Done?
    {
      updated := m;
      if Rank(state) != Rank(m.state) + 1 {
        return Raised(MutationFailed), m;
      }
      updated := m.(state := state, commitHead := if state.Committed? then commitHead else m.commitHead);
      o := WriteManifest(updated);
    }

    method FinalizeTransaction(m: Manifest) returns (o: Outcome)
      requires m.id in journal && journal[m.id].manifest == Some(m)
      modifies `journal
      ensures !m.state.Committed? && !m.state.Finalized? ==> o == Raised(MutationFailed) && journal == old(journal)
      ensures o.Done? ==> journal == old(journal) - {m.id}
      ensures journal - {m.id} == old(journal) - {m.id} && journal.Keys <= old(journal).Keys
      ensures m.id in journal && journal[m.id].manifest.Some? ==>
                journal[m.id].manifest.value.id == m.id && Rank(m.state) <= Rank(journal[m.id].manifest.value.state)
      ensures (m.state.Committed? || m.state.Finalized?) && o.Raised? ==> o.error == OsError
      ensures mends && (m.state.Committed? || m.state.Finalized?) ==> o.Done?
    {
      if !m.state.Finalized? {
        if !m.state.Committed? {
          return Raised(MutationFailed);
        }
        var _ :- Transition(m, Finalized, None);
      }
      o := RemoveDirectory(m.id);
    }

    // -------------------------------------------------------------- rollback

    /** The manifest is the pending mutation's, which has committed nothing. */
    ghost predicate Restorable(m: Manifest)
      reads this
    {
      WellFormed(pending) && m.id == pending.id && NotCommitted(pending, Now())
    }

    /** One recorded path goes back to its snapshot, or goes away. */
    method RestoreOne(m: Manifest, i: nat) returns (o: Outcome)
      requires m.id in journal && journal[m.id].manifest == Some(m) && i < |m.files|
      modifies `files
      ensures old(Restorable(m)) ==>
                && Restorable(m) && (o.Done? ==> Lookup(files, m.files[i].path) == Lookup(pending.before.files, m.files[i].path))
                && (mends ==> (o.Done? <==> (m.files[i].existed ==> i in journal[m.id].snapshots)))
      ensures forall p :: p != m.files[i].path ==> Lookup(files, p) == Lookup(old(files), p)
      ensures o.Done? && m.files[i].existed ==> i in journal[m.id].snapshots
      ensures mends ==> !o.Crashed?
      ensures o.Raised? ==> o.error.ManualRecoveryRequired? || o.error.OsError?
    {
      hide SameOff, SnapshotsComplete;
      var item := m.files[i];
      ghost var ours := Restorable(m);
      assert ours ==> Describes(item, pending.before.files);
      if item.existed {
        var payload := ReadSnapshot(m.id, i);
        if payload.None? || item.sha256 != Some(Sha256(payload.value)) {
          return Raised(ManualRecoveryRequired);
        }
        o := AtomicWrite(item.path, payload.value);
      } else if item.path in files {
        o := Unlink(item.path);
      } else {
        o := Done;
      }
      if ours {
        RestoreStep(pending, old(Now()), m, i, files);
      }
    }

    method RestoreFiles(m: Manifest) returns (o: Outcome)
      requires m.id in journal && journal[m.id].manifest == Some(m)
      modifies `files
      ensures old(Restorable(m)) ==> NotCommitted(pending, Now()) && (o.Done? ==> files == pending.before.files)
      ensures mends && old(Restorable(m)) ==> (o.Done? <==> SnapshotsComplete(m, journal[m.id].snapshots))
      ensures mends ==> !o.Crashed?
      ensures o.Raised? ==> o.error.ManualRecoveryRequired? || o.error.OsError?
    {
      hide SameOff, SnapshotsComplete, NotCommitted, WellFormed;
      ghost var ours := Restorable(m);
      Complete(m, journal[m.id].snapshots);
      var i := 0;
      while i < |m.files|
        invariant 0 <= i <= |m.files|
        invariant ours ==> Restorable(m)
        invariant ours ==> forall k :: 0 <= k < i ==> Lookup(files, m.files[k].path) == Lookup(pending.before.files, m.files[k].path)
        invariant forall k :: 0 <= k < i && m.files[k].existed ==> k in journal[m.id].snapshots
      {
        o := RestoreOne(m, i);
        if o.IsFailure() {
          return;
        }
        i := i + 1;
      }
      o := Done;
      if ours {
        RestoredDisk(pending, Now(), m);
      }
    }

    method CheckRestored(m: Manifest) returns (o: Outcome)
      ensures o.Done? <==> forall i :: 0 <= i < |m.files| ==> Holds(m.files[i], files)
      ensures !o.Done? ==> o == Raised(ManualRecoveryRequired)
      ensures o.Raised? ==> o.error.ManualRecoveryRequired? || o.error.OsError?
    {
      var i := 0;
      while i < |m.files|
        invariant 0 <= i <= |m.files|
        invariant forall k :: 0 <= k < i ==> Holds(m.files[k], files)
      {
        var item := m.files[i];
        if item.existed {
          if item.path !in files || item.sha256 != Some(Sha256(files[item.path])) {
            return Raised(ManualRecoveryRequired);
          }
        } else if item.path in files {
          return Raised(ManualRecoveryRequired);
        }
        i := i + 1;
      }
      o := Done;
    }

    /**
     Puts every recorded path back from its snapshot and drops the directory. Cut and
     rerun at any point it converges on the recorded bytes, because each restored file
     is written whole and the snapshots stay until every file has been checked.
     */
    method RestoreTransaction(m: Manifest) returns (o: Outcome)
      requires m.id in journal && journal[m.id].manifest == Some(m)
      modifies `files, `journal
      ensures o.Done? ==> journal == old(journal) - {m.id}
      ensures o.Done? ==> forall i :: 0 <= i < |m.files| ==> Holds(m.files[i], files)
      ensures old(Restorable(m)) ==>
                NotCommitted(pending, Now()) && (o.Done? ==> files == pending.before.files)
      ensures mends && old(Restorable(m)) ==>
                (o.Done? <==> SnapshotsComplete(m, old(journal)[m.id].snapshots))
      ensures mends ==> !o.Crashed?
      ensures o.Raised? ==> o.error.ManualRecoveryRequired? || o.error.OsError?
    {
      o := RestoreFiles(m);
      if o.IsFailure() {
        return;
      }
      if old(Restorable(m)) {
        OldFilesHold(pending, m);
      }
      :- CheckRestored(m);
      o := RemoveDirectory(m.id);
    }

    // -------------------------------------------------------------- recovery

    /** Finishes a transaction whose commit stands, once the affected graphs are untrusted. */
    method RollForward(manifest: Manifest) returns (o: Outcome, ghost safe: bool)
      requires manifest.id in journal && journal[manifest.id].manifest == Some(manifest)
      requires !manifest.state.Finalized?
      modifies `journal
      ensures o.Done? ==> safe && journal == old(journal) - {manifest.id}
      ensures !safe ==> o == Raised(ManualRecoveryRequired) && journal == old(journal)
      ensures old(Landed(pending, Now())) ==> Landed(pending, Now())
      ensures mends ==> o.Done?
      ensures o.Raised? ==> o.error.ManualRecoveryRequired? || o.error.OsError?
    {
      var m := manifest;
      ghost var landed := Landed(pending, Now());
      var untrusted := GraphSafe(m.domains);
      safe := untrusted;
      if !untrusted {
        return Raised(ManualRecoveryRequired), safe;
      }
      if !m.state.Committed? {
        m := m.(state := Committed, commitHead := head);
        o := WriteManifest(m);
        if landed {
          LandedKeepsJournal(pending, old(Now()), journal);
        }
        if o.IsFailure() {
          return;
        }
      }
      o := FinalizeTransaction(m);
      if landed {
        LandedKeepsJournal(pending, old(Now()), journal);
      }
    }

    /** One directory: discard, roll forward, roll back, or stop. */
    method RecoverOne(id: TransactionId) returns (o: Outcome)
      requires id in journal
      modifies `files, `journal
      ensures o.Done? ==> journal == old(journal) - {id}
      ensures old(Ambiguous(Now(), id)) ==> o == Raised(ManualRecoveryRequired) && Now() == old(Now())
      ensures Unfinished(old(Now()), id) ==> Treated(old(Now()), id, o, files)
      ensures old(Valid()) ==> Valid()
      ensures mends && old(Valid()) ==> (o.Done? <==> Restartable(old(pending), old(Now())))
      ensures mends ==> !o.Crashed?
      ensures o.Raised? ==> o.error.ManualRecoveryRequired? || o.error.OsError?
    {
      var directory := journal[id];
      if directory.manifest.None? || directory.manifest.value.id != id {
        return Raised(ManualRecoveryRequired);
      }
      var m := directory.manifest.value;
      var trailerMatches := HeadCarries(Disk(files, head, commits, journal), id);
      if old(Valid()) {
        DecisionIsRight(pending, Now());
      }
      match Decide(m, head, trailerMatches)
      case Discard =>
        o := RemoveDirectory(id);
        if old(Valid()) {
          LandedKeepsJournal(pending, old(Now()), journal);
        }
      case Stop =>
        o := Raised(ManualRecoveryRequired);
      case RollBack =>
        o := RestoreTransaction(m);
      case RollForward =>
        ghost var safe;
        o, safe := RollForward(m);
    }

    /** Every pending directory in turn; a normal return leaves none. */
    method RecoverPending() returns (o: Outcome)
      modifies `files, `journal
      ensures o.Done? ==> journal == map[]
      ensures old(Valid()) ==> Valid()
      ensures old(Valid()) && o.Done? ==> Settled(pending, Now())
      ensures forall id :: old(journal).Keys == {id} && old(Ambiguous(Now(), id)) ==>
                o == Raised(ManualRecoveryRequired) && Now() == old(Now())
      ensures forall id :: old(journal).Keys == {id} && Unfinished(old(Now()), id) ==> Treated(old(Now()), id, o, files)
      // When nothing fails, recovery ends exactly if the directory can be read and, with nothing committed, is complete.
      ensures mends && old(Valid()) ==> (o.Done? <==> Restartable(old(pending), old(Now())))
      ensures mends ==> !o.Crashed?
      ensures o.Raised? ==> o.error.ManualRecoveryRequired? || o.error.OsError?
    {
      var ids := journal.Keys;
      while ids != {}
        invariant journal.Keys == ids
        invariant old(Valid()) ==> Valid()
        invariant Now() == old(Now()) || old(journal).Keys != ids
        invariant forall id :: old(journal).Keys == {id} && old(Ambiguous(Now(), id)) ==> Now() == old(Now())
        invariant forall id :: old(journal).Keys == {id} && Unfinished(old(Now()), id) ==>
                    if id in ids then Now() == old(Now()) else Treated(old(Now()), id, Done, files)
        invariant mends && old(Valid()) && ids != old(journal).Keys ==> ids == {} && Restartable(old(pending), old(Now()))
      {
        var id :| id in ids;
        :- RecoverOne(id);
        ids := ids - {id};
      }
      o := Done;
      if old(Valid()) {
        RecoveredIsSettled(pending, Now());
      }
    }

    // -------------------------------------------------------------- a new transaction

    /** The pending context describes a mutation that has not started. */
    ghost predicate Fresh()
      reads this
    {
      WellFormed(pending) && pending.before == Now()
    }

    /** Copies every path that exists into the new directory, and records every path. */
    method SnapshotFiles(id: TransactionId, paths: set<Path>) returns (o: Outcome, records: seq<FileSnapshot>)
      requires id in journal && journal[id] == Directory(None, map[])
      modifies `journal
      ensures journal - {id} == old(journal) - {id} && journal.Keys == old(journal).Keys
      ensures journal[id].manifest == None
      ensures o.Done? ==> Snapshotted(records, journal[id].snapshots, files, paths)
      ensures mends ==> o.Done?
    {
      hide Snapshotted;
      records := [];
      var rest := paths;
      NothingSnapshotted(files);
      assert paths - rest == {};
      while rest != {}
        invariant rest <= paths
        invariant journal - {id} == old(journal) - {id} && journal.Keys == old(journal).Keys
        invariant journal[id].manifest == None
        invariant Snapshotted(records, journal[id].snapshots, files, paths - rest)
      {
        var p :| p in rest;
        OneMoreSnapshot(records, journal[id].snapshots, files, paths - rest, p);
        if p in files {
          :- WriteSnapshot(id, |records|, files[p]);
          records := records + [FileSnapshot(p, true, Some(Sha256(files[p])))];
        } else {
          records := records + [FileSnapshot(p, false, None)];
        }
        assert paths - rest + {p} == paths - (rest - {p});
        rest := rest - {p};
      }
      assert paths - rest == paths;
      o := Done;
    }

    /** Snapshots every mutable path and persists a prepared manifest, or cleans up and raises. */
    method CreateTransaction(baseHead: Option<CommitId>, domains: set<string>, paths: set<Path>, id: TransactionId)
      returns (o: Outcome, m: Manifest)
      requires Fresh() && id == pending.id && paths == pending.tracked && baseHead == head
      modifies `journal
      ensures NotCommitted(pending, Now())
      ensures o.Done? ==>
                && m == Manifest(id, Prepared, baseHead, None, domains, m.files)
                && id in journal && journal[id].manifest == Some(m)
                && SnapshotsComplete(m, journal[id].snapshots)
      ensures mends ==> (o.Done? <==> forall d :: d in domains ==> ValidDomain(d))
      ensures mends && !o.Done? ==> o.Raised? && journal == map[]
    {
      hide ValidDomain, HeadTree, AffectedFiles, Snapshotted, Records, SnapshotsComplete;
      m := Manifest(id, Prepared, baseHead, None, domains, []);
      :- MakeDirectory(id);
      var records;
      o, records := SnapshotFiles(id, paths);
      if o.Done? && exists d :: d in domains && !ValidDomain(d) {
        o := Raised(InvalidPath);
      }
      if o.Done? {
        m := m.(files := records);
        SnapshotsRecord(pending, m, journal[id].snapshots);
        o := WriteManifest(m);
      }
      if o.Raised? {
        var cleanup := RemoveDirectory(id);
        if cleanup.Crashed? {
          return Crashed, m;
        }
      }
    }

    // -------------------------------------------------------------- applying the edits

    /** The journal holds a complete record of this mutation. */
    ghost predicate Recorded(m: Manifest)
      reads this
    {
      && WellFormed(pending) && NotCommitted(pending, Now())
      && pending.id in journal && journal[pending.id].manifest == Some(m)
      && SnapshotsComplete(m, journal[pending.id].snapshots)
    }

    method ApplyEdit(e: PlannedEdit) returns (o: Outcome)
      modifies `files
      ensures files == old(files) || files == ApplyOne(old(files), e)
      ensures o.Done? ==> files == ApplyOne(old(files), e)
      ensures faultless ==> o.Done?
      ensures mends ==> !o.Crashed?
    {
      var fails: bool, happened: bool := *, *;
      if faults.OnlyEdits? && fails {
        files := if happened then ApplyOne(files, e) else files;
        return Raised(OsError);
      }
      if e.after.Some? {
        o := AtomicWrite(PathOf(e), e.after.value);
      } else if PathOf(e) in files {
        o := Unlink(PathOf(e));
      } else {
        o := Done;
        assert files - {PathOf(e)} == files;
      }
    }

    /** Puts one fail-soft path back. */
    method RestoreManifestFile(m: Manifest, p: Path) returns (o: Outcome)
      requires Recorded(m) && p in pending.tracked
      modifies `files
      ensures Recorded(m)
      ensures forall q :: q != p ==> Lookup(files, q) == Lookup(old(files), q)
      ensures o.Done? ==> Lookup(files, p) == Lookup(pending.before.files, p)
      ensures mends ==> o.Done?
    {
      var i := 0;
      while i < |m.files|
        invariant 0 <= i <= |m.files|
        invariant forall k :: 0 <= k < i ==> m.files[k].path != p
      {
        var item := m.files[i];
        if item.path == p {
          assert Describes(item, pending.before.files);
          if item.existed {
            var payload := ReadSnapshot(m.id, i);
            if payload.None? {
              return Raised(OsError);
            }
            if item.sha256 != Some(Sha256(payload.value)) {
              return Raised(ManualRecoveryRequired);
            }
            o := AtomicWrite(p, payload.value);
          } else if p in files {
            o := Unlink(p);
          } else {
            o := Done;
          }
          RestoreStep(pending, old(Now()), m, i, files);
          return;
        }
        i := i + 1;
      }
      o := Raised(ManualRecoveryRequired);
    }

    /** One edit; when it fails and is fail-soft, its file is put back and the failure reported aside. */
    method ApplyOrPutBack(m: Manifest, e: PlannedEdit, failSoft: set<Path>) returns (o: Outcome, softFailed: bool)
      requires Recorded(m) && PathOf(e) in pending.tracked
      modifies `files
      ensures Recorded(m)
      ensures o.Done? && !softFailed ==> files == ApplyOne(old(files), e)
      ensures o.Done? && softFailed ==>
                && PathOf(e) in failSoft && Lookup(files, PathOf(e)) == Lookup(pending.before.files, PathOf(e))
                && forall q :: q != PathOf(e) ==> Lookup(files, q) == Lookup(old(files), q)
      ensures faultless ==> o.Done? && !softFailed
      ensures mends ==> if PathOf(e) in failSoft then o.Done? else !o.Crashed? && !softFailed
    {
      ghost var earlier := Now();
      softFailed := false;
      o := ApplyEdit(e);
      WriteKeepsRecord(pending, earlier, m, PathOf(e), files);
      if o.Raised? && PathOf(e) in failSoft {
        softFailed := true;
        o := RestoreManifestFile(m, PathOf(e));
      }
    }

    /** Makes the edits in (domain, file) order; `putBack` are the paths whose last edit failed softly. */
    method ApplyEdits(m: Manifest, edits: seq<PlannedEdit>, failSoft: set<Path>)
      returns (o: Outcome, softFailed: bool, ghost putBack: set<Path>)
      requires Recorded(m) && files == pending.before.files
      requires edits == pending.edits
      modifies `files
      ensures Recorded(m)
      ensures o.Done? ==> EditedSoFar(pending.before.files, ApplyAll(pending.before.files, edits), putBack, files)
      ensures putBack <= failSoft && (!softFailed ==> putBack == {})
      ensures faultless ==> o.Done? && !softFailed
      // When nothing but an edit can fail, the edits end well unless one of them is not fail-soft.
      ensures mends && (forall e :: e in edits ==> PathOf(e) in failSoft) ==> o.Done?
    {
      hide NotCommitted, SnapshotsComplete, Sort, EditLeq;
      ghost var before := pending.before.files;
      var todo := Sort(edits, EditLeq);
      SameElements(todo, edits);
      softFailed, putBack := false, {};
      var i := 0;
      while i < |todo|
        invariant 0 <= i <= |todo|
        invariant Recorded(m)
        invariant EditedSoFar(before, ApplyAll(before, todo[..i]), putBack, files)
        invariant putBack <= failSoft && (!softFailed ==> putBack == {})
        invariant faultless ==> !softFailed
      {
        assert todo[i] in edits;
        ghost var earlier := files;
        var failed;
        o, failed := ApplyOrPutBack(m, todo[i], failSoft);
        if o.IsFailure() {
          return;
        }
        ApplyAllStep(before, todo, i);
        EditStep(before, ApplyAll(before, todo[..i]), putBack, earlier, files, todo[i], failed);
        softFailed := softFailed || failed;
        putBack := AfterEdit(putBack, todo[i], failed);
        i := i + 1;
      }
      o := Done;
      assert todo[..i] == todo;
      SortedEditsSameEffect(before, edits);
    }

    /** Reindexes every affected domain. */
    method IndexDomains(m: Manifest, domains: set<string>) returns (o: Outcome)
      requires Recorded(m) && domains == pending.domains && EditsInPlace(pending, files)
      modifies `files
      ensures Recorded(m) && EditsInPlace(pending, files)
      ensures mends ==> o.Done?
    {
      var rest := domains;
      while rest != {}
        invariant rest <= domains
        invariant Recorded(m) && EditsInPlace(pending, files)
      {
        var d :| d in rest;
        ghost var earlier := Now();
        o := IndexDomain(d);
        assert IndexPath(d) in pending.tracked;
        WriteKeepsRecord(pending, earlier, m, IndexPath(d), files);
        if o.IsFailure() {
          return;
        }
        rest := rest - {d};
      }
      o := Done;
    }

    // -------------------------------------------------------------- the mutation

    /** The first half of the guarded body: snapshot, edit, index. */
    method PrepareCommit(baseHead: Option<CommitId>, edits: seq<PlannedEdit>, domains: set<string>, failSoft: set<Path>, id: TransactionId)
      returns (o: Outcome, m: Manifest, softFailed: bool)
      requires Fresh() && baseHead == head
      requires id == pending.id && edits == pending.edits && domains == pending.domains && pending.putBack == {}
      modifies `files, `journal, `pending
      ensures pending == old(pending).(putBack := pending.putBack) && WellFormed(pending) && NotCommitted(pending, Now())
      ensures pending.putBack <= failSoft && (!softFailed ==> pending.putBack == {})
      ensures o.Done? ==> Recorded(m) && m.state == Applied && EditsInPlace(pending, files)
      ensures faultless ==> !softFailed && (o.Done? <==> forall d :: d in domains ==> ValidDomain(d))
      ensures faultless && !o.Done? ==> o.Raised? && journal == map[]
    {
      softFailed := false;
      m :- CreateTransaction(baseHead, domains, AffectedFiles(edits, domains), id);
      ghost var putBack;
      o, softFailed, putBack := ApplyEdits(m, edits, failSoft);
      PutBackAside(pending, putBack, Now());
      pending := pending.(putBack := putBack);
      if o.IsFailure() {
        return;
      }
      ghost var edited, prepared := Now(), m;
      o, m := Transition(m, Applied, None);
      AdvanceKeepsRecord(pending, edited, prepared, journal);
      if o.IsFailure() {
        return;
      }
      o := IndexDomains(m, domains);
    }

    /** The second half: commit, record the commit, finalize. */
    method CommitAndFinalize(manifest: Manifest, paths: set<Path>) returns (o: Outcome, committed: bool)
      requires Recorded(manifest) && manifest.state == Applied && EditsInPlace(pending, files)
      requires paths == pending.tracked
      modifies `journal, `head, `commits
      ensures Valid()
      ensures committed ==> Landed(pending, Now())
      ensures o.Done? ==> committed && journal == map[]
      ensures mends ==> (o.Done? <==> Committable(old(Now()), paths)) && (!o.Done? ==> o.Raised? && !committed && Now() == old(Now()))
    {
      ghost var uncommitted := Now();
      o, committed := CommitLocked(manifest.id, paths);
      if head != uncommitted.head {
        CommitLands(pending, uncommitted, Now());
      }
      if o.IsFailure() {
        return;
      }
      if !committed {
        return Raised(MutationFailed), false;
      }
      ghost var landed := Now();
      var m;
      o, m := Transition(manifest, Committed, head);
      LandedKeepsJournal(pending, landed, journal);
      if o.IsFailure() {
        return;
      }
      o := FinalizeTransaction(m);
      LandedKeepsJournal(pending, landed, journal);
    }

    /** The body that `execute_plan` guards. */
    method TryTransaction(baseHead: Option<CommitId>, edits: seq<PlannedEdit>, domains: set<string>, failSoft: set<Path>, id: TransactionId)
      returns (o: Outcome, committed: bool, softFailed: bool, ghost tried: Files)
      requires Fresh() && baseHead == head
      requires id == pending.id && edits == pending.edits && domains == pending.domains && pending.putBack == {}
      modifies this
      ensures Valid()
      ensures pending == old(pending).(putBack := pending.putBack)
      ensures pending.putBack <= failSoft && (!softFailed ==> pending.putBack == {})
      ensures committed ==> Landed(pending, Now())
      ensures o.Done? ==> committed && journal == map[]
      ensures faultless ==> !softFailed && (o.Done? <==> Succeeds(old(pending), tried))
      ensures faultless && (forall d :: d in domains ==> ValidDomain(d)) ==> EditsInPlace(old(pending), tried)
      ensures faultless && !o.Done? ==> o.Raised? && !committed && Restartable(pending, Now())
    {
      hide Committable;
      committed := false;
      var m;
      o, m, softFailed := PrepareCommit(baseHead, edits, domains, failSoft, id);
      tried := files;
      if o.Done? {
        SameCommittable(old(pending), Now());
        o, committed := CommitAndFinalize(m, AffectedFiles(edits, domains));
      }
    }

    /**
     The guarded body and its handler. A normal return means the edits are in place,
     recorded in the commit at HEAD, and nothing is pending. `MutationFailed` means
     nothing is pending and the disk is exactly the old one, unless Git moved HEAD
     while reporting that it had not.
     */
    method RunTransaction(baseHead: Option<CommitId>, edits: seq<PlannedEdit>, domains: set<string>, failSoft: set<Path>, id: TransactionId)
      returns (o: Outcome, softFailed: bool, ghost tried: Files)
      requires Fresh() && baseHead == head
      requires id == pending.id && edits == pending.edits && domains == pending.domains && pending.putBack == {}
      modifies this
      ensures Valid()
      ensures pending == old(pending).(putBack := pending.putBack)
      ensures pending.putBack <= failSoft && (!softFailed ==> pending.putBack == {})
      ensures o.Done? ==> journal == map[] && Landed(pending, Now())
      ensures o.Raised? ==> o.error in {MutationFailed, ManualRecoveryRequired}
      ensures o == Raised(MutationFailed) ==> Settled(pending, Now())
      ensures o == Raised(MutationFailed) && head == pending.before.head ==> Now() == pending.before
      ensures faultless ==> !softFailed && o == if Succeeds(old(pending), tried) then Done else Raised(MutationFailed)
      ensures faultless && (forall d :: d in domains ==> ValidDomain(d)) ==> EditsInPlace(old(pending), tried)
    {
      hide Succeeds;
      var committed;
      o, committed, softFailed, tried := TryTransaction(baseHead, edits, domains, failSoft, id);
      if o.Raised? {
        if committed {
          return Raised(ManualRecoveryRequired), softFailed, tried;
        }
        o := RecoverPending();
        if o.Done? {
          var reset, _ := Syscall();
          o := if reset.Done? then Raised(MutationFailed) else if reset.Crashed? then Crashed else Raised(ManualRecoveryRequired);
        } else if o.Raised? {
          o := Raised(ManualRecoveryRequired);
        }
      }
    }

    /** `_validate_plan`. */
    method ValidatePlan(plan: Plan, around: Surroundings) returns (refusal: Option<Error>)
      ensures refusal == None <==> Admits(around, plan, Now())
      ensures refusal in {None, Some(WriteScopeBlocked), Some(InvalidPath), Some(SourceChanged), Some(MutationFailed), Some(TargetCollision)}
      ensures refusal == Some(WriteScopeBlocked) <==> !around.inScope
      ensures Fits(plan, Now()) ==> refusal in {None, Some(WriteScopeBlocked), Some(InvalidPath)}
    {
      if !around.inScope {
        return Some(WriteScopeBlocked);
      }
      if head != plan.baseHead {
        return Some(SourceChanged);
      }
      var i := 0;
      while i < |plan.edits|
        invariant 0 <= i <= |plan.edits|
        invariant forall k :: 0 <= k < i ==>
                    plan.edits[k].domain in plan.domains && PathOf(plan.edits[k]) !in around.invalid && MatchesBefore(plan.edits[k], files)
      {
        var e := plan.edits[i];
        if e.domain !in plan.domains {
          return Some(MutationFailed);
        }
        if PathOf(e) in around.invalid {
          return Some(InvalidPath);
        }
        if e.beforeHash.None? {
          if PathOf(e) in files {
            return Some(TargetCollision);
          }
        } else if PathOf(e) !in files || Sha256(files[PathOf(e)]) != e.beforeHash.value {
          return Some(SourceChanged);
        }
        i := i + 1;
      }
      refusal := None;
    }

    /** Everything between recovery and the guarded body; it only reads. */
    method PrepareLocked(plan: Plan, prepare: Option<Extension>, around: Surroundings) returns (refusal: Option<Error>, active: Plan)
      ensures refusal == None <==> Unrefused(around, plan, prepare, Now())
      ensures refusal == None ==> active == Extended(plan, prepare)
    {
      active := plan;
      if !around.ignored {
        return Some(MutationFailed), plan;
      }
      if prepare.Some? {
        if prepare.value.refused {
          return Some(ExtensionRefused), plan;
        }
        active := plan.(edits := plan.edits + prepare.value.edits);
        refusal := ValidatePlan(active, around);
        if refusal.Some? {
          return;
        }
      }
      if around.unrelated || around.staged {
        return Some(MutationFailed), active;
      }
      refusal := ValidatePlan(active, around);
    }

    /**
     `execute_plan` up to the commit. `recovered` is the disk after the initial recovery,
     if that ended, and `tried` the working copy that the commit was asked to record.
     However the call ends, the disk is again one that recovery settles.
     */
    method ExecutePlan(plan: Plan, prepare: Option<Extension>, around: Surroundings)
      returns (o: Outcome, softFailed: bool, ghost recovered: Option<Disk>, ghost tried: Files)
      requires Valid() && !HeadCarries(Now(), plan.id)
      modifies this
      ensures Valid()
      ensures recovered.Some? ==>
                Settled(old(pending), recovered.value) && recovered.value.head == old(head) && recovered.value.commits == old(commits)
      // Success: the plan fitted the recovered disk, its edits but those put back are in place and committed, nothing is pending.
      ensures o.Done? ==>
                && recovered.Some? && Fits(plan, recovered.value)
                && pending == ContextOf(Extended(plan, prepare), recovered.value).(putBack := pending.putBack)
                && journal == map[] && Landed(pending, Now())
                && pending.putBack <= (if prepare.Some? then prepare.value.failSoft else {})
                && (!softFailed ==> pending.putBack == {})
      // A refusal or a failed mutation leaves the disk it found, unless Git moved HEAD unreported.
      ensures o.Raised? && o.error !in {ManualRecoveryRequired, OsError} ==>
                match recovered
                case None => Now() == old(Now())
                case Some(start) => journal == map[] && (head == start.head ==> Now() == start)
      // When nothing fails, exactly what can be refused or has nothing to commit does not succeed.
      ensures faultless ==> !softFailed
      ensures faultless ==>
                (recovered.Some? <==> Admits(around, plan, old(Now())) && Restartable(old(pending), old(Now())))
      ensures faultless && recovered.Some? ==>
                (o.Done? <==>
                 && Unrefused(around, plan, prepare, recovered.value)
                 && Succeeds(ContextOf(Extended(plan, prepare), recovered.value), tried))
      ensures faultless && recovered.Some? && Unrefused(around, plan, prepare, recovered.value)
              && (forall d :: d in plan.domains ==> ValidDomain(d)) ==>
                EditsInPlace(ContextOf(Extended(plan, prepare), recovered.value), tried)
    {
      hide Admits, Succeeds;
      recovered, softFailed, tried := None, false, files;
      var refusal := ValidatePlan(plan, around);
      if refusal.Some? {
        return Raised(refusal.value), softFailed, recovered, tried;
      }
      o := RecoverPending();
      if o.IsFailure() {
        return;
      }
      recovered := Some(Now());
      assert Settled(old(pending), recovered.value);
      var active;
      refusal, active := PrepareLocked(plan, prepare, around);
      if refusal.Some? {
        return Raised(refusal.value), softFailed, recovered, tried;
      }
      AdmittedFits(around, active, plan, Now());
      var failSoft := if prepare.Some? then prepare.value.failSoft else {};
      pending := ContextOf(active, Now());
      o, softFailed, tried := RunTransaction(plan.baseHead, active.edits, active.domains, failSoft, plan.id);
    }

    /** Recovery restarted after each crash, any number of times. */
    method RestartRecovery(reruns: nat) returns (o: Outcome)
      requires Valid()
      modifies `files, `journal
      ensures Valid()
      ensures o.Done? ==> Settled(pending, Now())
      ensures mends && reruns > 0 ==> (o.Done? <==> Restartable(old(pending), old(Now())))
    {
      o := Crashed;
      var left := reruns;
      while o.Crashed? && left > 0
        invariant Valid()
        invariant o.Done? ==> Settled(pending, Now())
        invariant left <= reruns && (left == reruns ==> o.Crashed? && Now() == old(Now()))
        invariant mends && left < reruns ==> !o.Crashed? && (o.Done? <==> Restartable(old(pending), old(Now())))
      {
        o := RecoverPending();
        left := left - 1;
      }
    }

    /** Any sequence of mutations and recoveries, each of which may fail or crash anywhere. */
    method Run(commands: seq<Command>)
      requires Valid()
      modifies this
      ensures Valid()
      ensures |journal| <= 1
      ensures forall id :: id in journal && journal[id].manifest.Some? && Rank(journal[id].manifest.value.state) >= 2 ==> HeadCarries(Now(), id)
    {
      var i := 0;
      while i < |commands|
        invariant Valid()
      {
        match commands[i] {
          case Recover =>
            var _ := RecoverPending();
          case Execute(plan, prepare, around) =>
            // Transaction ids are freshly drawn random tokens.
            if !HeadCarries(Disk(files, head, commits, journal), plan.id) {
              var _, _, _, _ := ExecutePlan(plan, prepare, around);
            }
        }
        i := i + 1;
      }
      JournalInvariant(pending, Now());
    }
  }

  datatype Command = Execute(plan: Plan, prepare: Option<Extension>, around: Surroundings) | Recover

  /** With nothing failing: the domains are named well, and the edited working copy differs from HEAD. */
  ghost predicate Succeeds(t: Context, tried: Files) {
    (forall d :: d in t.domains ==> ValidDomain(d)) && Committable(t.before.(files := tried), t.tracked)
  }

  /** There is something to commit exactly when one of the paths differs from HEAD. */
  lemma CommittableMeaning(d: Disk, paths: set<Path>)
    ensures Committable(d, paths) <==> exists p :: p in paths && Lookup(d.files, p) != Lookup(HeadTree(d), p)
  {
    var tree := HeadTree(d);
    var next := Overlay(tree, d.files, paths);
    forall p ensures Lookup(next, p) == if p in paths then Lookup(d.files, p) else Lookup(tree, p) {
    }
    if forall p :: p in paths ==> Lookup(d.files, p) == Lookup(tree, p) {
      LookupExtensional(next, tree);
    }
  }

  /** A domain is named by one component of a path that is not hidden. */
  lemma ValidDomainMeaning(domain: string)
    ensures ValidDomain(domain) <==>
            |domain| > 0 && !([domain[0]] == ".") && forall i :: 0 <= i < |domain| ==> domain[i] != '/' && domain[i] != '\\'
  {
  }

  lemma SameCommittable(t: Context, d: Disk)
    requires NotCommitted(t.(putBack := {}), d) || NotCommitted(t, d)
    ensures Committable(d, t.tracked) == Committable(t.before.(files := d.files), t.tracked)
  {
    assert HeadTree(d) == HeadTree(t.before.(files := d.files));
  }

  lemma AdmittedFits(around: Surroundings, active: Plan, plan: Plan, d: Disk)
    requires Admits(around, active, d) && plan.edits <= active.edits && active == plan.(edits := active.edits)
    ensures Fits(plan, d) && Fits(active, d)
  {
    forall e | e in plan.edits ensures e in active.edits {
      var i :| 0 <= i < |plan.edits| && plan.edits[i] == e;
      assert active.edits[i] == e;
    }
  }

  /** A planned change of a committable path, other than an index file, is something to commit. */
  lemma PlannedChangeIsCommitted(t: Context, tried: Files, p: Path)
    requires EditsInPlace(t, tried) && p in t.tracked && t.putBack == {}
    requires forall d :: d in t.domains ==> ValidDomain(d) && p != IndexPath(d)
    requires Lookup(ApplyAll(t.before.files, t.edits), p) != Lookup(HeadTree(t.before), p)
    ensures Succeeds(t, tried)
  {
    var d := t.before.(files := tried);
    assert Lookup(Overlay(HeadTree(d), tried, t.tracked), p) == Lookup(tried, p);
    assert HeadTree(d) == HeadTree(t.before);
  }

  /** One record for each of `paths`, saying how it is, and one snapshot for each that exists. */
  ghost predicate Snapshotted(records: seq<FileSnapshot>, snapshots: map<nat, Bytes>, files: Files, paths: set<Path>) {
    && (forall i :: 0 <= i < |records| ==> records[i].path in paths && Describes(records[i], files))
    && (forall i, j :: 0 <= i < j < |records| ==> records[i].path != records[j].path)
    && (forall p :: p in paths ==> exists i :: 0 <= i < |records| && records[i].path == p)
    && (forall i :: i in snapshots <==> 0 <= i < |records| && records[i].existed)
    && (forall i :: i in snapshots ==> snapshots[i] == files[records[i].path])
  }

  lemma SnapshotsRecord(t: Context, m: Manifest, snapshots: map<nat, Bytes>)
    requires Snapshotted(m.files, snapshots, t.before.files, t.tracked) && m.id == t.id && m.baseHead == t.before.head
    ensures Records(m, t) && SnapshotsSound(m, snapshots, t.before.files) && SnapshotsComplete(m, snapshots)
  {
  }

  lemma NothingSnapshotted(files: Files)
    ensures Snapshotted([], map[], files, {})
  {
  }

  lemma OneMoreSnapshot(records: seq<FileSnapshot>, snapshots: map<nat, Bytes>, files: Files, paths: set<Path>, p: Path)
    requires Snapshotted(records, snapshots, files, paths) && p !in paths
    ensures p in files ==>
              Snapshotted(records + [FileSnapshot(p, true, Some(Sha256(files[p])))], snapshots[|records| := files[p]], files, paths + {p})
    ensures p !in files ==> Snapshotted(records + [FileSnapshot(p, false, None)], snapshots, files, paths + {p})
  {
    var more := records + [if p in files then FileSnapshot(p, true, Some(Sha256(files[p]))) else FileSnapshot(p, false, None)];
    assert more[|records|].path == p;
    assert forall i :: 0 <= i < |records| ==> more[i] == records[i];
  }

  lemma RestoredDisk(t: Context, d: Disk, m: Manifest)
    requires NotCommitted(t, d) && t.id in d.journal && d.journal[t.id].manifest == Some(m)
    requires forall i :: 0 <= i < |m.files| ==> Lookup(d.files, m.files[i].path) == Lookup(t.before.files, m.files[i].path)
    ensures d.files == t.before.files
  {
    RestoredIsBefore(t, m, d.files);
  }

  lemma Complete(m: Manifest, snapshots: map<nat, Bytes>)
    ensures SnapshotsComplete(m, snapshots) <==> forall i :: 0 <= i < |m.files| && m.files[i].existed ==> i in snapshots
  {
  }

  /** The old files are as the manifest says. */
  lemma OldFilesHold(t: Context, m: Manifest)
    requires Records(m, t)
    ensures forall i :: 0 <= i < |m.files| ==> Holds(m.files[i], t.before.files)
  {
    forall i | 0 <= i < |m.files| ensures Holds(m.files[i], t.before.files) {
      assert Describes(m.files[i], t.before.files);
    }
  }

  /** Commit ids never run out. */
  lemma BoundOf(used: set<CommitId>) returns (bound: CommitId)
    ensures forall n :: n in used ==> n < bound
  {
    bound := 0;
    if used != {} {
      var last :| last in used;
      var rest := BoundOf(used - {last});
      bound := if last < rest then rest else last + 1;
      assert forall n :: n in used ==> n == last || n in used - {last};
    }
  }

  method FreshCommit(used: set<CommitId>) returns (next: CommitId)
    ensures next !in used
  {
    ghost var bound := BoundOf(used);
    next := 0;
    while next in used
      invariant next <= bound
      decreases bound - next
    {
      next := next + 1;
    }
  }

  /**
   The first mutation of a fresh wiki, with nothing failing and nothing to refuse it: one
   new file. It succeeds, the file and the commit are there, and nothing is pending.
   */
  method FirstMutation(id: TransactionId, domain: string, file: string, text: Bytes) returns (base: Base, o: Outcome)
    requires ValidDomain(domain) && Path(domain, file) != IndexPath(domain)
    ensures fresh(base) && o.Done? && base.journal == map[]
    ensures Lookup(base.files, Path(domain, file)) == Some(text)
    ensures HeadCarries(Disk(base.files, base.head, base.commits, base.journal), id)
    ensures Lookup(HeadTree(Disk(base.files, base.head, base.commits, base.journal)), Path(domain, file)) == Some(text)
  {
    hide Landed, Succeeds, EditsInPlace, Settled, NotCommitted, WellFormed, HeadTree, ApplyAll, AffectedFiles;
    base := new Base(NoCall);
    var p := Path(domain, file);
    var plan := Plan(id, None, [PlannedEdit(domain, file, None, Some(text))], {domain});
    var around := Surroundings(true, {}, true, false, false);
    ghost var start := base.Now();
    var softFailed;
    ghost var recovered, tried;
    ghost var idle := base.pending;
    o, softFailed, recovered, tried := base.ExecutePlan(plan, None, around);
    OnlyBefore(idle, recovered.value);
    assert Extended(plan, None) == plan;
    FirstSucceeds(plan, start, tried, p, text);
    FirstLanded(base.pending, base.Now(), p, text);
  }

  lemma OnlyBefore(t: Context, d: Disk)
    requires Settled(t, d) && d.head.None?
    ensures d == t.before
  {
  }

  lemma FirstLanded(t: Context, d: Disk, p: Path, text: Bytes)
    requires Landed(t, d) && WellFormed(t) && t.putBack == {} && t.before.files == map[] && t.domains == {p.domain}
    requires t.edits == [PlannedEdit(p.domain, p.file, None, Some(text))] && p != IndexPath(p.domain)
    ensures Lookup(d.files, p) == Some(text) && Lookup(HeadTree(d), p) == Some(text) && HeadCarries(d, t.id)
  {
    assert t.edits[..0] == [] && t.edits[0] in t.edits;
    assert Lookup(ApplyAll(t.before.files, t.edits), p) == Some(text);
  }

  lemma FirstSucceeds(plan: Plan, start: Disk, tried: Files, p: Path, text: Bytes)
    requires plan.edits == [PlannedEdit(p.domain, p.file, None, Some(text))] && plan.domains == {p.domain}
    requires start == Disk(map[], None, map[], map[]) && ValidDomain(p.domain) && p != IndexPath(p.domain)
    requires EditsInPlace(ContextOf(plan, start), tried)
    ensures Succeeds(ContextOf(plan, start), tried)
    ensures Lookup(ApplyAll(map[], plan.edits), p) == Some(text) && p in AffectedFiles(plan.edits, plan.domains)
  {
    assert plan.edits[..0] == [] && plan.edits[0] in plan.edits;
    PlannedChangeIsCommitted(ContextOf(plan, start), tried, p);
  }

  /** Any content may be written to one tracked path of a completely recorded mutation. */
  lemma WriteKeepsRecord(t: Context, d: Disk, m: Manifest, p: Path, files: Files)
    requires NotCommitted(t, d) && t.id in d.journal && d.journal[t.id].manifest == Some(m)
    requires SnapshotsComplete(m, d.journal[t.id].snapshots)
    requires p in t.tracked && forall q :: q != p ==> Lookup(files, q) == Lookup(d.files, q)
    ensures NotCommitted(t, d.(files := files))
  {
  }

  /** The prepared manifest may become the applied one. */
  lemma AdvanceKeepsRecord(t: Context, d: Disk, m: Manifest, j: map<TransactionId, Directory>)
    requires NotCommitted(t, d) && t.id in d.journal && d.journal[t.id].manifest == Some(m)
    requires SnapshotsComplete(m, d.journal[t.id].snapshots)
    requires j == d.journal || j == d.journal[t.id := d.journal[t.id].(manifest := Some(m.(state := Applied)))]
    ensures NotCommitted(t, d.(journal := j))
    ensures SnapshotsComplete(j[t.id].manifest.value, j[t.id].snapshots)
  {
  }

  lemma ApplyAllStep(before: Files, edits: seq<PlannedEdit>, i: nat)
    requires i < |edits|
    ensures ApplyAll(before, edits[..i + 1]) == ApplyOne(ApplyAll(before, edits[..i]), edits[i])
  {
    assert edits[..i + 1][..i] == edits[..i];
  }

  ghost function AfterEdit(putBack: set<Path>, e: PlannedEdit, failed: bool): set<Path> {
    if failed then putBack + {PathOf(e)} else putBack - {PathOf(e)}
  }

  /** One more edit, made or put back: only the paths whose last edit was put back hold old bytes. */
  lemma EditStep(before: Files, target: Files, putBack: set<Path>, earlier: Files, files: Files, e: PlannedEdit, failed: bool)
    requires EditedSoFar(before, target, putBack, earlier)
    requires !failed ==> files == ApplyOne(earlier, e)
    requires failed ==>
               && Lookup(files, PathOf(e)) == Lookup(before, PathOf(e))
               && forall q :: q != PathOf(e) ==> Lookup(files, q) == Lookup(earlier, q)
    ensures EditedSoFar(before, ApplyOne(target, e), AfterEdit(putBack, e, failed), files)
  {
    forall p ensures Lookup(files, p) == Lookup(if p in AfterEdit(putBack, e, failed) then before else ApplyOne(target, e), p) {
      if p != PathOf(e) {
        assert Lookup(ApplyOne(target, e), p) == Lookup(target, p);
      }
    }
  }

  /** Which paths were put back does not matter before the commit. */
  lemma PutBackAside(t: Context, putBack: set<Path>, d: Disk)
    requires WellFormed(t) && NotCommitted(t, d)
    ensures WellFormed(t.(putBack := putBack)) && NotCommitted(t.(putBack := putBack), d)
  {
    var u := t.(putBack := putBack);
    if t.id in d.journal && d.journal[t.id].manifest.Some? {
      assert Records(d.journal[t.id].manifest.value, u);
    }
  }

  /**
   A reused id: HEAD already carries it, one path has been edited under a prepared
   manifest with a sound snapshot, and nothing was committed. Recovery leaves the edited
   bytes in place and HEAD as it was; when it returns normally the record is gone too.
   */
  method ReusedIdIsNotRolledBack(id: TransactionId, p: Path, before: Bytes, edited: Bytes) returns (base: Base, o: Outcome)
    ensures fresh(base)
    ensures base.files == map[p := edited] && (o.Done? ==> base.journal == map[])
    ensures base.head == Some(0) && base.commits == map[0 := Commit(Some(id), None, map[p := before])]
  {
    base := new Base(AnyCall);
    var record := FileSnapshot(p, true, Some(Sha256(before)));
    var m := Manifest(id, Prepared, Some(0), None, {p.domain}, [record]);
    base.files, base.head := map[p := edited], Some(0);
    base.commits := map[0 := Commit(Some(id), None, map[p := before])];
    base.journal := map[id := Directory(Some(m), map[0 := before])];
    assert Unfinished(base.Now(), id) && HeadCarries(base.Now(), id);
    o := base.RecoverPending();
  }

  /** The commit turns a recorded mutation into a landed one. */
  lemma CommitLands(t: Context, d: Disk, after: Disk)
    requires WellFormed(t) && NotCommitted(t, d) && EditsInPlace(t, d.files)
    requires t.id in d.journal && d.journal[t.id].manifest.Some? && d.journal[t.id].manifest.value.state == Applied
    requires after.files == d.files && after.journal == d.journal
    requires after.head.Some? && after.head.value !in d.commits
    requires after.commits == d.commits[after.head.value := Commit(Some(t.id), d.head, Overlay(HeadTree(d), d.files, t.tracked))]
    ensures Landed(t, after)
  {
  }

  /** Once every recorded path matches its record, the files are the old files. */
  lemma RestoredIsBefore(t: Context, m: Manifest, files: Files)
    requires Records(m, t) && SameOff(files, t.before.files, t.tracked)
    requires forall i :: 0 <= i < |m.files| ==>
               Lookup(files, m.files[i].path) == Lookup(t.before.files, m.files[i].path)
    ensures files == t.before.files
  {
    forall p ensures Lookup(files, p) == Lookup(t.before.files, p) {
      if p in t.tracked {
        var i :| 0 <= i < |m.files| && m.files[i].path == p;
      }
    }
    LookupExtensional(files, t.before.files);
  }

  /** A disk with nothing pending is exactly one side of the mutation. */
  lemma RecoveredIsSettled(t: Context, d: Disk)
    requires Recoverable(t, d) && d.journal == map[]
    ensures Settled(t, d)
  {
  }
}
