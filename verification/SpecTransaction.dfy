/** The Git transaction that writes a page, its index and the specification projection together. */
module SpecTransaction {
  import opened Options
  import opened Sorting

  type Files = map<string, string>

  /** The files of one transaction; without a page there is nothing but a rebuild. */
  datatype Paths = Paths(page: Option<string>, index: string, log: string, projection: string) {
    function All(): seq<string> {
      Dedup((if page.Some? then [page.value] else []) + [index, log, projection])
    }

    /** What `mutate_page` may write. */
    function Mutable(): set<string> { (if page.Some? then {page.value} else {}) + {log} }
  }

  /** What one step leaves behind, and whether it raised. */
  datatype Effect = Effect(writes: map<string, Option<string>>, raises: bool)

  datatype Report = Committed | NothingToCommit | OtherWarning | CommitRaised

  /** The specification as resolved under the lock. */
  datatype Resolved = ResolveRaised | Rejected | Absent | Projected(prepared: bool, failSoft: bool)

  /** Everything the transaction does not decide itself. */
  datatype World = World(
    unrelatedChanges: bool,
    resolved: Resolved,
    snapshotRaises: bool,
    mutate: Effect,
    index: Effect,
    publish: Effect,
    report: Report,
    commit: Option<string>,
    /** How much of the undo works: whether HEAD can be reset, and how many files can be restored. */
    resets: bool,
    restores: nat,
    /** How many files the fail-soft branch can restore. */
    softRestores: nat)

  datatype Result = Refused | RolledBack | Succeeded(published: bool, warned: bool, committed: bool)

  /** Steps write only their own files. */
  ghost predicate Honest(w: World, paths: Paths) {
    && w.mutate.writes.Keys <= paths.Mutable()
    && w.index.writes.Keys <= {paths.index}
    && w.publish.writes.Keys <= {paths.projection}
  }

  function Applied(files: Files, writes: map<string, Option<string>>): Files {
    map p | p in files.Keys + writes.Keys && (p !in writes || writes[p].Some?) ::
      if p in writes then writes[p].value else files[p]
  }

  /** The run reaches the commit: everything before it went through, or failed softly. */
  predicate ReachesCommit(w: World, isRebuild: bool) {
    && (isRebuild || !w.unrelatedChanges) && !w.snapshotRaises
    && (w.resolved.Absent? || w.resolved.Projected?)
    && !w.mutate.raises && !w.index.raises
    && !PublishFatal(w)
  }

  /** Publication raised, and it was not soft or its own repair raised. */
  predicate PublishFatal(w: World) {
    w.resolved.Projected? && w.resolved.prepared && w.publish.raises && (!w.resolved.failSoft || w.softRestores == 0)
  }

  predicate CommitFails(w: World) { w.report.CommitRaised? || w.report.OtherWarning? }

  class Base {
    var files: Files
    var head: Option<string>
    const isRepo: bool

    constructor (files: Files, head: Option<string>, isRepo: bool)
      ensures this.files == files && this.head == head && this.isRepo == isRepo
    {
      this.files, this.head, this.isRepo := files, head, isRepo;
    }

    method SnapshotFiles(paths: seq<string>) returns (snapshot: map<string, Option<string>>)
      ensures snapshot.Keys == (set p | p in paths)
      ensures forall p :: p in snapshot ==> snapshot[p] == Lookup(files, p)
    {
      snapshot := map[];
      for i := 0 to |paths|
        invariant snapshot.Keys == set p | p in paths[..i]
        invariant forall p :: p in snapshot ==> snapshot[p] == Lookup(files, p)
      {
        assert paths[..i + 1] == paths[..i] + [paths[i]];
        snapshot := snapshot[paths[i] := Lookup(files, paths[i])];
      }
      assert paths[..|paths|] == paths;
    }

    /** Put every file of the snapshot back, or its absence; `limit` files can be restored. */
    method RestoreFiles(snapshot: map<string, Option<string>>, order: seq<string>, limit: nat) returns (raised: bool)
      requires forall p :: p in order <==> p in snapshot
      modifies this`files
      ensures raised <==> limit < |order|
      ensures forall p :: p !in snapshot ==> Lookup(files, p) == Lookup(old(files), p)
      ensures !raised ==> forall p :: p in snapshot ==> Lookup(files, p) == snapshot[p]
    {
      for i := 0 to |order|
        invariant i <= limit
        invariant forall p :: p !in snapshot ==> Lookup(files, p) == Lookup(old(files), p)
        invariant forall p :: p in order[..i] ==> Lookup(files, p) == snapshot[p]
      {
        if i == limit {
          return true;
        }
        assert order[..i + 1] == order[..i] + [order[i]];
        var path := order[i];
        files := if snapshot[path].Some? then files[path := snapshot[path].value] else files - {path};
      }
      assert order[..|order|] == order;
      raised := false;
    }

    method Take(effect: Effect) returns (raised: bool)
      modifies this`files
      ensures files == Applied(old(files), effect.writes) && raised == effect.raises
    {
      files := Applied(files, effect.writes);
      raised := effect.raises;
    }

    method CommitLocked(w: World) returns (report: Report)
      modifies this`head
      ensures report == w.report && head == if w.commit.Some? then w.commit else old(head)
    {
      if w.commit.Some? {
        head := w.commit;
      }
      report := w.report;
    }

    /** Publish the prepared projection; a soft failure puts the old projection back. */
    method PublishProjection(paths: Paths, w: World, snapshot: map<string, Option<string>>)
      returns (raised: bool, published: bool)
      requires Honest(w, paths) && w.resolved.Projected? && w.resolved.prepared
      requires paths.projection in snapshot
      modifies this`files
      ensures raised <==> PublishFatal(w)
      ensures forall p :: p != paths.projection ==> Lookup(files, p) == Lookup(old(files), p)
      ensures !raised ==> published == !w.publish.raises
      ensures published ==> files == Applied(old(files), w.publish.writes)
      ensures !raised && !published ==> Lookup(files, paths.projection) == snapshot[paths.projection]
    {
      raised := Take(w.publish);
      published := !raised;
      if raised && w.resolved.failSoft {
        raised := RestoreFiles(map[paths.projection := snapshot[paths.projection]], [paths.projection], w.softRestores);
      }
    }

    /** The guarded part: mutate, index, publish, commit. */
    method TrySteps(paths: Paths, w: World, snapshot: map<string, Option<string>>)
      returns (raised: bool, published: bool, warned: bool, report: Report)
      requires Honest(w, paths)
      requires w.resolved.Absent? || w.resolved.Projected?
      requires paths.projection in snapshot && snapshot[paths.projection] == Lookup(files, paths.projection)
      requires paths.projection !in paths.Mutable() + {paths.index}
      modifies this
      ensures forall p :: p !in paths.All() ==> Lookup(files, p) == Lookup(old(files), p)
      ensures raised <==> w.mutate.raises || w.index.raises || PublishFatal(w) || (isRepo && CommitFails(w)) || w.report.CommitRaised?
      ensures head == if !w.mutate.raises && !w.index.raises && !PublishFatal(w) && w.commit.Some? then w.commit else old(head)
      ensures !raised ==>
                && report == w.report
                && published == (w.resolved.Projected? && w.resolved.prepared && !w.publish.raises)
                && warned == (w.resolved.Projected? && !published)
                && files == Expected(old(files), w, published)
    {
      published, warned, report := false, w.resolved.Projected? && !w.resolved.prepared, w.report;
      PathsCovered(paths);
      ghost var start := files;
      raised := Take(w.mutate);
      if raised {
        return;
      }
      raised := Take(w.index);
      if raised {
        return;
      }
      ghost var indexed := files;
      if w.resolved.Projected? && w.resolved.prepared {
        raised, published := PublishProjection(paths, w, snapshot);
        if raised {
          return;
        }
        warned := !published;
        if !published {
          assert files == indexed by {
            SameFiles(files, indexed);
          }
        }
      }
      report := CommitLocked(w);
      raised := report.CommitRaised? || (isRepo && !report.Committed? && !report.NothingToCommit?);
    }

    /** Undo after a failure: reset HEAD if it moved, then put the files back. */
    method Undo(paths: Paths, w: World, snapshot: map<string, Option<string>>, headBefore: Option<string>)
      requires snapshot.Keys == (set p | p in paths.All())
      modifies this
      ensures head == if headBefore.Some? && w.resets then headBefore else old(head)
      ensures forall p :: p !in snapshot ==> Lookup(files, p) == Lookup(old(files), p)
      ensures w.restores >= |paths.All()| ==> forall p :: p in snapshot ==> Lookup(files, p) == snapshot[p]
    {
      if headBefore.Some? && head != headBefore && w.resets {
        head := headBefore;
      }
      var _ := RestoreFiles(snapshot, paths.All(), w.restores);
    }

    /** `_execute_git_specification_transaction`, up to publishing the commit. */
    method Execute(paths: Paths, isRebuild: bool, w: World) returns (r: Result)
      requires Honest(w, paths) && paths.projection !in paths.Mutable() + {paths.index}
      modifies this
      ensures r.Refused? <==> (isRebuild || !w.unrelatedChanges) && w.resolved.Rejected?
      ensures r.Refused? ==> files == old(files) && head == old(head)
      ensures r.Succeeded? <==> ReachesCommit(w, isRebuild) && !w.report.CommitRaised? && !(isRepo && CommitFails(w))
      ensures r.RolledBack? && w.restores >= |paths.All()| ==> files == old(files)
      ensures r.RolledBack? && w.resets && w.restores >= |paths.All()| ==>
                (head == old(head) <==> old(head).Some? || !ReachesCommit(w, isRebuild) || w.commit.None?)
      ensures r.Succeeded? ==>
                && r.published == (w.resolved.Projected? && w.resolved.prepared && !w.publish.raises)
                && r.warned == (w.resolved.Projected? && !r.published)
                && r.committed == w.report.Committed?
                && files == Expected(old(files), w, r.published)
                && head == if w.commit.Some? then w.commit else old(head)
      // A failed publication by itself: forgiven for an optional specification whose projection can be put back, else undone.
      ensures PublishAloneFails(w, isRebuild) ==>
                r == if w.resolved.failSoft && w.softRestores > 0 then Succeeded(false, true, true) else RolledBack
      // With nothing failing at all.
      ensures NothingFails(w, isRebuild) ==> r == Succeeded(w.resolved.Projected? && w.resolved.prepared, w.resolved.Projected? && !w.resolved.prepared, true)
    {
      if !isRebuild && w.unrelatedChanges {
        return RolledBack;
      }
      match w.resolved {
        case ResolveRaised => return RolledBack;
        case Rejected => return Refused;
        case _ =>
      }
      if w.snapshotRaises {
        return RolledBack;
      }
      PathsCovered(paths);
      var snapshot := SnapshotFiles(paths.All());
      var headBefore := head;
      var raised, published, warned, report := TrySteps(paths, w, snapshot);
      if raised {
        Undo(paths, w, snapshot, headBefore);
        if w.restores >= |paths.All()| {
          SameFiles(files, old(files));
        }
        return RolledBack;
      }
      r := Succeeded(published, warned, report.Committed?);
    }
  }

  /** Every step before and after the publication works, and it commits. */
  predicate OthersWork(w: World, isRebuild: bool) {
    && (isRebuild || !w.unrelatedChanges) && !w.snapshotRaises && !w.mutate.raises && !w.index.raises && w.report.Committed?
  }

  predicate PublishAloneFails(w: World, isRebuild: bool) {
    OthersWork(w, isRebuild) && w.resolved.Projected? && w.resolved.prepared && w.publish.raises
  }

  predicate NothingFails(w: World, isRebuild: bool) {
    OthersWork(w, isRebuild) && (w.resolved.Absent? || w.resolved.Projected?) && !w.publish.raises
  }

  /** The files after success: a projection that could not be published keeps its old bytes. */
  function Expected(files: Files, w: World, published: bool): Files {
    var indexed := Applied(Applied(files, w.mutate.writes), w.index.writes);
    if published then Applied(indexed, w.publish.writes) else indexed
  }

  lemma SameFiles(a: Files, b: Files)
    requires forall p :: Lookup(a, p) == Lookup(b, p)
    ensures a == b
  {
    assert forall p :: p in a <==> Lookup(a, p).Some?;
    assert forall p :: p in b <==> Lookup(b, p).Some?;
  }

  lemma PathsCovered(paths: Paths)
    ensures forall p :: p in paths.All() <==> p in paths.Mutable() + {paths.index, paths.projection}
  {
    DedupMembers((if paths.page.Some? then [paths.page.value] else []) + [paths.index, paths.log, paths.projection]);
  }

  /** On a soft failure the projection keeps its old bytes, and it is the only file of the transaction that must. */
  lemma OnlyTheProjectionIsStale(files: Files, w: World, paths: Paths)
    requires Honest(w, paths) && paths.projection !in paths.Mutable() + {paths.index}
    ensures Lookup(Expected(files, w, false), paths.projection) == Lookup(files, paths.projection)
    ensures forall p :: p != paths.projection ==>
              Lookup(Expected(files, w, false), p) == Lookup(Expected(files, w, true), p)
    ensures forall p :: p in w.index.writes ==> Lookup(Expected(files, w, false), p) == w.index.writes[p]
    ensures forall p :: p in w.mutate.writes && p !in w.index.writes ==>
              Lookup(Expected(files, w, false), p) == w.mutate.writes[p]
    ensures forall p :: p !in paths.All() ==> Lookup(Expected(files, w, true), p) == Lookup(files, p)
  {
    PathsCovered(paths);
  }
}
