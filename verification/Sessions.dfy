/** The hosted session table: who may see which selection, and for how long. */
module Sessions {
  import opened Options
  import opened Sorting

  const IDLE_SECONDS: real := 86400.0
  const MAX_ENTRIES: nat := 1000

  /** The token and wiki on whose behalf a request runs. */
  datatype Owner = Owner(token: string, wiki: string)

  datatype Record<S> = Record(owner: Owner, state: S, lastSeen: real)

  datatype Cause = Removed(remover: Owner) | Expired | Evicted

  /** Something that happened to the table. */
  datatype Event<S> = Stored(id: string, owner: Owner, state: S) | Dropped(id: string, cause: Cause)

  datatype Log<S> = Start | After(before: Log<S>, last: Event<S>)

  /** For each identifier, what was last stored under it and has not been dropped since. */
  ghost function Held<S>(log: Log<S>): map<string, (Owner, S)> {
    match log
    case Start => map[]
    case After(before, Stored(id, owner, state)) => Held(before)[id := (owner, state)]
    case After(before, Dropped(id, _)) => Held(before) - {id}
  }

  /** Only the owner of an entry stores under it or removes it, and only an entry in the table leaves it. */
  ghost predicate Rightful<S>(held: map<string, (Owner, S)>, e: Event<S>) {
    match e
    case Stored(id, owner, _) => id in held ==> held[id].0 == owner
    case Dropped(id, Removed(remover)) => id in held && held[id].0 == remover
    case Dropped(id, _) => id in held
  }

  ghost predicate OwnersSteady<S>(log: Log<S>) {
    log.After? ==> OwnersSteady(log.before) && Rightful(Held(log.before), log.last)
  }

  ghost function Dropping<S>(log: Log<S>, ids: seq<string>, cause: Cause): Log<S> {
    if ids == [] then log else After(Dropping(log, ids[..|ids| - 1], cause), Dropped(ids[|ids| - 1], cause))
  }

  ghost function Shown<S>(records: map<string, Record<S>>): map<string, (Owner, S)> {
    map id | id in records :: (records[id].owner, records[id].state)
  }

  /** `after` is `before` without the entries in `ids`. */
  ghost predicate Without<S>(before: map<string, Record<S>>, after: map<string, Record<S>>, ids: seq<string>) {
    && (forall id :: id in after <==> id in before && id !in ids)
    && (forall id :: id in after ==> after[id] == before[id])
  }

  /**
   What pruning leaves: exactly the idle entries have expired, and only if the rest was
   over capacity have entries been evicted, as many as were too many and none more recent
   than one that stays. The entries that stay are unchanged.
   */
  ghost predicate Pruned<S>(before: map<string, Record<S>>, after: map<string, Record<S>>,
                            expired: seq<string>, evicted: seq<string>, now: real) {
    && |after| <= MAX_ENTRIES && Without(before, after, expired + evicted)
    && (forall id :: id in expired <==> id in before && now - before[id].lastSeen >= IDLE_SECONDS)
    && Distinct(evicted) && (evicted != [] ==> |after| == MAX_ENTRIES)
    && (forall id :: id in evicted ==> id in before && id !in expired)
    && (forall id, kept :: id in evicted && kept in after ==> Seen(before, id) <= after[kept].lastSeen)
  }

  lemma NextDrop<S>(ids: seq<string>, n: nat, cause: Cause, log: Log<S>)
    requires n < |ids| && Distinct(ids)
    ensures ids[n] !in ids[..n]
    ensures forall id :: id in ids[..n + 1] <==> id in ids[..n] || id == ids[n]
    ensures Dropping(log, ids[..n + 1], cause) == After(Dropping(log, ids[..n], cause), Dropped(ids[n], cause))
  {
    assert ids[..n + 1][..n] == ids[..n];
    assert ids[..n + 1] == ids[..n] + [ids[n]];
  }

  predicate Idle<S>(r: Record<S>, now: real) { now - r.lastSeen >= IDLE_SECONDS }

  function Seen<S>(records: map<string, Record<S>>, id: string): real {
    if id in records then records[id].lastSeen else 0.0
  }

  function BySeen<S>(records: map<string, Record<S>>): (string, string) -> bool {
    (a, b) => Seen(records, a) <= Seen(records, b)
  }

  ghost predicate Foreign<S>(held: map<string, (Owner, S)>, session: Option<string>, who: Owner) {
    session.Some? && session.value in held && held[session.value].0 != who
  }

  lemma {:induction false} DistinctSize<T>(s: seq<T>, members: set<T>)
    requires Distinct(s) && forall x :: x in s <==> x in members
    ensures |s| == |members|
  {
    if s == [] {
      assert members == {};
    } else {
      assert s == [s[0]] + s[1..];
      DistinctSize(s[1..], members - {s[0]});
    }
  }

  lemma SizeOfUpdate<S>(records: map<string, Record<S>>, id: string, r: Record<S>)
    ensures |records[id := r]| == |records| + if id in records then 0 else 1
  {
    assert records[id := r].Keys == records.Keys + {id};
    assert |records.Keys| == |records| && |records[id := r].Keys| == |records[id := r]|;
  }

  ghost predicate Extends<S>(log: Log<S>, start: Log<S>, id: string) {
    log == start || (log.After? && !(log.last.Dropped? && log.last.id == id) && Extends(log.before, start, id))
  }

  /** The owner of an entry cannot change without the entry leaving the table in between. */
  lemma {:induction false} OwnerUnchanged<S>(log: Log<S>, start: Log<S>, id: string)
    requires OwnersSteady(log) && Extends(log, start, id) && id in Held(start)
    ensures id in Held(log) && Held(log)[id].0 == Held(start)[id].0
  {
    if log != start {
      OwnerUnchanged(log.before, start, id);
    }
  }

  lemma {:induction false} SizeWithout<S>(before: map<string, Record<S>>, after: map<string, Record<S>>, ids: seq<string>)
    requires Without(before, after, ids) && Distinct(ids) && forall id :: id in ids ==> id in before
    ensures |after| == |before| - |ids|
  {
    DistinctSize(ids, before.Keys - after.Keys);
    assert after.Keys <= before.Keys;
    assert |before.Keys - after.Keys| == |before.Keys| - |after.Keys|;
    assert |after.Keys| == |after| && |before.Keys| == |before|;
  }

  class SessionBindings<S> {
    var records: map<string, Record<S>>
    ghost var log: Log<S>

    /** The table is what the log says it should be, and never holds more than one entry too many. */
    ghost predicate Valid()
      reads this
    {
      && Shown(records) == Held(log)
      && OwnersSteady(log)
      && |records| <= MAX_ENTRIES + 1
    }

    constructor ()
      ensures Valid() && records == map[] && log == Start
    {
      records, log := map[], Start;
    }

    method Keys() returns (ids: seq<string>)
      ensures Distinct(ids) && forall id :: id in ids <==> id in records
      ensures |ids| == |records|
    {
      ids := [];
      var rest := records.Keys;
      while rest != {}
        invariant rest <= records.Keys && Distinct(ids)
        invariant forall id :: id in ids <==> id in records.Keys - rest
        decreases |rest|
      {
        var id :| id in rest;
        assert id !in ids;
        ids, rest := ids + [id], rest - {id};
      }
      DistinctSize(ids, records.Keys);
    }

    method Pop(id: string, ghost cause: Cause)
      requires Valid() && id in records && (cause.Removed? ==> cause.remover == records[id].owner)
      modifies this
      ensures Valid() && records == old(records) - {id} && log == After(old(log), Dropped(id, cause))
    {
      records := records - {id};
      log := After(log, Dropped(id, cause));
      assert Shown(records) == Shown(old(records)) - {id};
    }

    /** The entries in `ids` leave the table, all for one cause. */
    method PopAll(ids: seq<string>, ghost cause: Cause)
      requires Valid() && Distinct(ids) && (forall id :: id in ids ==> id in records) && !cause.Removed?
      modifies this
      ensures Valid() && Without(old(records), records, ids)
      ensures log == Dropping(old(log), ids, cause)
    {
      for n := 0 to |ids|
        invariant Valid() && Without(old(records), records, ids[..n])
        invariant log == Dropping(old(log), ids[..n], cause)
      {
        NextDrop(ids, n, cause, old(log));
        Pop(ids[n], cause);
      }
      assert ids[..|ids|] == ids;
    }

    method IdleKeys(now: real) returns (idle: seq<string>)
      ensures Distinct(idle) && forall id :: id in idle <==> id in records && Idle(records[id], now)
    {
      var ids := Keys();
      idle := [];
      for n := 0 to |ids|
        invariant Distinct(idle)
        invariant forall id :: id in idle <==> id in ids[..n] && Idle(records[id], now)
      {
        assert ids[..n + 1] == ids[..n] + [ids[n]] && ids[n] !in ids[..n];
        if Idle(records[ids[n]], now) {
          idle := idle + [ids[n]];
        }
      }
      assert ids[..|ids|] == ids;
    }

    /** The least recently used entries, as many as are over capacity. */
    method OldestKeys() returns (oldest: seq<string>)
      requires |records| > MAX_ENTRIES
      ensures Distinct(oldest) && forall id :: id in oldest ==> id in records
      ensures |oldest| == |records| - MAX_ENTRIES
      ensures forall id, kept :: id in oldest && kept in records && kept !in oldest ==>
                records[id].lastSeen <= records[kept].lastSeen
    {
      var ids := Keys();
      var excess := |records| - MAX_ENTRIES;
      FirstAreLeast(ids, BySeen(records), excess);
      oldest := Sort(ids, BySeen(records))[..excess];
      forall id, kept | id in oldest && kept in records && kept !in oldest
        ensures records[id].lastSeen <= records[kept].lastSeen
      {
        assert kept in ids && BySeen(records)(id, kept);
      }
    }

    /** Idle entries go; if the table is still over capacity, the least recently used go too. */
    method Prune(now: real) returns (ghost expired: seq<string>, ghost evicted: seq<string>)
      requires Valid()
      modifies this
      ensures Valid() && Pruned(old(records), records, expired, evicted, now)
      ensures log == Dropping(Dropping(old(log), expired, Expired), evicted, Evicted)
    {
      var idle := IdleKeys(now);
      PopAll(idle, Expired);
      expired, evicted := idle, [];
      if |records| > MAX_ENTRIES {
        evicted := Evict();
      }
    }

    /** Down to capacity again, least recently used first. */
    method Evict() returns (ghost evicted: seq<string>)
      requires Valid() && |records| > MAX_ENTRIES
      modifies this
      ensures Valid() && |records| == MAX_ENTRIES
      ensures log == Dropping(old(log), evicted, Evicted)
      ensures Distinct(evicted) && Without(old(records), records, evicted) && forall id :: id in evicted ==> id in old(records)
      ensures forall id, kept :: id in evicted && kept in records ==>
                id in old(records) && old(records)[id].lastSeen <= records[kept].lastSeen
    {
      var oldest := OldestKeys();
      PopAll(oldest, Evicted);
      evicted := oldest;
      SizeWithout(old(records), records, oldest);
    }

    /**
     The last state stored under the identifier by the same owner, if it is still there
     once the table has been `pruned`; finding it counts as using it.
     */
    method Resolve(session: Option<string>, who: Owner, now: real)
      returns (found: Option<S>, ghost expired: seq<string>, ghost evicted: seq<string>, ghost pruned: map<string, Record<S>>)
      requires Valid()
      modifies this
      ensures Valid() && log == Dropping(Dropping(old(log), expired, Expired), evicted, Evicted)
      ensures session.None? ==> found.None? && records == old(records) && log == old(log)
      ensures session.Some? ==>
                && Pruned(old(records), pruned, expired, evicted, now)
                && records == (if found.Some? then pruned[session.value := Record(who, found.value, now)] else pruned)
                && found == if session.value in Held(log) && Held(log)[session.value].0 == who
                            then Some(Held(log)[session.value].1) else None
    {
      if session.None? {
        return None, [], [], records;
      }
      expired, evicted := Prune(now);
      pruned := records;
      if session.value !in records || records[session.value].owner != who {
        return None, expired, evicted, pruned;
      }
      var record := records[session.value];
      found := Some(record.state);
      SizeOfUpdate(records, session.value, Record(record.owner, record.state, now));
      label L:
      records := records[session.value := Record(record.owner, record.state, now)];
      assert Shown(records) == Shown(old@L(records));
    }

    /** Store under the identifier, unless someone else holds it once the table has been `pruned`. */
    method Store(session: string, who: Owner, state: S, now: real)
      returns (ok: bool, ghost expired: seq<string>, ghost evicted: seq<string>, ghost pruned: map<string, Record<S>>)
      requires Valid()
      modifies this
      ensures Valid() && Pruned(old(records), pruned, expired, evicted, now)
      ensures var kept := Dropping(Dropping(old(log), expired, Expired), evicted, Evicted);
              && ok == !Foreign(Held(kept), Some(session), who)
              && log == if ok then After(kept, Stored(session, who, state)) else kept
      ensures records == if ok then pruned[session := Record(who, state, now)] else pruned
      ensures !Foreign(Held(old(log)), Some(session), who) ==> ok
    {
      expired, evicted := Prune(now);
      pruned := records;
      if session in records && records[session].owner != who {
        return false, expired, evicted, pruned;
      }
      SizeOfUpdate(records, session, Record(who, state, now));
      label L:
      records := records[session := Record(who, state, now)];
      log := After(log, Stored(session, who, state));
      assert Shown(records) == Shown(old@L(records))[session := (who, state)];
      ok := true;
    }

    /** Drop an entry, but only for its owner; no other entry is touched. */
    method Remove(session: Option<string>, who: Owner) returns (removed: bool)
      requires Valid()
      modifies this
      ensures Valid()
      ensures removed == (session.Some? && session.value in old(records) && !Foreign(Held(old(log)), session, who))
      ensures removed ==> records == old(records) - {session.value} && log == After(old(log), Dropped(session.value, Removed(who)))
      ensures !removed ==> records == old(records) && log == old(log)
    {
      assert session.Some? && session.value in records ==> session.value in Shown(records);
      if session.None? || session.value !in records || records[session.value].owner != who {
        return false;
      }
      Pop(session.value, Removed(who));
      removed := true;
    }

    method IsForeign(session: Option<string>, who: Owner) returns (foreign: bool)
      requires Valid()
      ensures foreign == Foreign(Held(log), session, who)
    {
      foreign := session.Some? && session.value in records && records[session.value].owner != who;
      assert session.Some? ==> (session.value in records <==> session.value in Shown(records));
    }
  }
}
