/** Candidate signals, the fan-out cap, and a ranking that reserves places for direct hits. */
module Quota {
  import opened Options
  import opened Sorting

  /** A search hit: what identifies it, the file of its domain that it belongs to, and the rest. */
  datatype Hit = Hit(id: string, file: string, payload: string)

  datatype Signal = Signal(name: string, hits: seq<Hit>)

  datatype Candidate = Candidate(rrfK: nat, multiplier: real, quota: nat, cap: Option<nat>)

  const DIRECT_SIGNALS: seq<string> := ["semantic_chunk", "lexical_section"]

  const BROAD_SIGNALS: set<string> := {"semantic_page", "lexical_page", "graph_page"}

  /** The engine's fusion of ranked signals: signals, limit, weight of the direct ones, and rank constant. */
  type Fusion = (seq<Signal>, nat, real, nat) -> seq<Hit>

  ghost predicate DistinctIds(hits: seq<Hit>) {
    forall i, j :: 0 <= i < j < |hits| ==> hits[i].id != hits[j].id
  }

  function Ids(hits: seq<Hit>): set<string> { set h | h in hits :: h.id }

  function Least(a: nat, b: nat): nat { if a < b then a else b }

  function In(ids: set<string>): Hit -> bool { (h: Hit) => h.id in ids }

  function NotIn(ids: set<string>): Hit -> bool { (h: Hit) => h.id !in ids }

  // ---------------------------------------------------------------- the specification

  /** The first hit of every identity. */
  function FirstHits(hits: seq<Hit>): seq<Hit> {
    if hits == [] then []
    else
      var before := FirstHits(hits[..|hits| - 1]);
      if hits[|hits| - 1].id in Ids(hits[..|hits| - 1]) then before else before + [hits[|hits| - 1]]
  }

  /** `top` without its last `n` hits outside `reserved`. */
  function Keep(top: seq<Hit>, reserved: set<string>, n: nat): seq<Hit> {
    if top == [] || n == 0 then top
    else
      var m := |top| - 1;
      if top[m].id in reserved then Keep(top[..m], reserved, n) + [top[m]] else Keep(top[..m], reserved, n - 1)
  }

  function Reserved(direct: seq<Hit>, k: nat): seq<Hit> { FirstHits(direct)[..Least(k, |FirstHits(direct)|)] }

  function Missing(fused: seq<Hit>, direct: seq<Hit>, k: nat): seq<Hit> {
    Filter(Reserved(direct, k), NotIn(Ids(fused[..Least(k, |fused|)])))
  }

  function Top(fused: seq<Hit>, direct: seq<Hit>, k: nat): seq<Hit> {
    Keep(fused[..Least(k, |fused|)], Ids(Reserved(direct, k)), |Missing(fused, direct, k)|) + Missing(fused, direct, k)
  }

  /** The ranking with a quota: the missing reserved hits take the places of the lowest unreserved ones. */
  function WithQuota(fused: seq<Hit>, direct: seq<Hit>, k: nat): seq<Hit> {
    Top(fused, direct, k) + Filter(fused, NotIn(Ids(Top(fused, direct, k))))
  }

  /** How many hits of the same file come before position `i`. */
  function Earlier(hits: seq<Hit>, file: string, i: nat): nat
    requires i <= |hits|
  {
    if i == 0 then 0 else Earlier(hits, file, i - 1) + if hits[i - 1].file == file then 1 else 0
  }

  /** The first `cap` hits of every file, in order. */
  function Capped(hits: seq<Hit>, cap: nat): seq<Hit> {
    if hits == [] then []
    else
      var n := |hits| - 1;
      Capped(hits[..n], cap) + if Earlier(hits, hits[n].file, n) < cap then [hits[n]] else []
  }

  function TransformedSignal(s: Signal, cap: Option<nat>): Signal {
    if cap.Some? && s.name in BROAD_SIGNALS then Signal(s.name, Capped(s.hits, cap.value)) else s
  }

  function Transformed(signals: seq<Signal>, cap: Option<nat>): seq<Signal> {
    if signals == [] then [] else Transformed(signals[..|signals| - 1], cap) + [TransformedSignal(signals[|signals| - 1], cap)]
  }

  function Named(name: string): Signal -> bool { (s: Signal) => s.name == name }

  /** The direct signals, in the order in which their names are listed. */
  function DirectOf(signals: seq<Signal>, names: seq<string> := DIRECT_SIGNALS): seq<Signal> {
    if names == [] then [] else Filter(signals, Named(names[0])) + DirectOf(signals, names[1..])
  }

  function AllIds(signals: seq<Signal>): set<string> {
    if signals == [] then {} else AllIds(signals[..|signals| - 1]) + Ids(signals[|signals| - 1].hits)
  }

  /** The direct signals are the chunk signals and then the section signals; none of them is ever capped. */
  lemma DirectSignals(signals: seq<Signal>, cap: Option<nat>)
    ensures DirectOf(signals) == Filter(signals, Named("semantic_chunk")) + Filter(signals, Named("lexical_section"))
    ensures forall s :: s in DirectOf(signals) ==> s in signals && TransformedSignal(s, cap) == s
  {
    var names := DIRECT_SIGNALS;
    assert names[1..] == ["lexical_section"] && names[1..][1..] == [];
    assert DirectOf(signals, names[1..]) == Filter(signals, Named("lexical_section")) + DirectOf(signals, names[1..][1..]);
    FilterMembers(signals, Named("semantic_chunk"));
    FilterMembers(signals, Named("lexical_section"));
    assert "semantic_chunk"[9] == 'c' && "semantic_page"[9] == 'p' && "lexical_section"[8] == 's' && "lexical_page"[8] == 'p';
    assert "graph_page"[0] == 'g' && "semantic_chunk"[0] == 's' && "lexical_section"[0] == 'l';
  }

  /** The page and graph signals are capped, and no other. */
  lemma BroadSignals(s: Signal, cap: nat)
    ensures TransformedSignal(s, Some(cap)) ==
            if s.name == "semantic_page" || s.name == "lexical_page" || s.name == "graph_page" then Signal(s.name, Capped(s.hits, cap)) else s
    ensures TransformedSignal(s, None) == s
  {
  }

  /** The identities of some signals are those of their hits. */
  lemma {:induction false} AllIdsMeaning(signals: seq<Signal>, id: string)
    ensures id in AllIds(signals) <==>
            exists i, k :: 0 <= i < |signals| && 0 <= k < |signals[i].hits| && signals[i].hits[k].id == id
  {
    if signals != [] {
      var n := |signals| - 1;
      AllIdsMeaning(signals[..n], id);
      if i, k :| 0 <= i < n && 0 <= k < |signals[..n][i].hits| && signals[..n][i].hits[k].id == id {
        assert signals[i].hits[k].id == id;
      }
      if i, k :| 0 <= i < |signals| && 0 <= k < |signals[i].hits| && signals[i].hits[k].id == id {
        assert i < n ==> signals[..n][i].hits[k].id == id;
      }
      if id in Ids(signals[n].hits) {
        var h :| h in signals[n].hits && h.id == id;
        var k :| 0 <= k < |signals[n].hits| && signals[n].hits[k] == h;
      }
    }
  }

  // ---------------------------------------------------------------- the loops of the benchmark

  method CapFanout(hits: seq<Hit>, cap: nat) returns (capped: seq<Hit>)
    ensures capped == Capped(hits, cap)
  {
    capped := [];
    var seen: map<string, nat> := map[];
    for i := 0 to |hits|
      invariant capped == Capped(hits[..i], cap)
      invariant forall file :: (if file in seen then seen[file] else 0) == Earlier(hits, file, i)
    {
      var file := hits[i].file;
      seen := seen[file := (if file in seen then seen[file] else 0) + 1];
      if seen[file] <= cap {
        capped := capped + [hits[i]];
      }
      assert hits[..i + 1][..i] == hits[..i];
      EarlierPrefix(hits, i + 1, file, i);
    }
    assert hits[..|hits|] == hits;
  }

  lemma {:induction false} EarlierPrefix(hits: seq<Hit>, n: nat, file: string, i: nat)
    requires i <= n <= |hits|
    ensures Earlier(hits[..n], file, i) == Earlier(hits, file, i)
  {
    if i > 0 {
      EarlierPrefix(hits, n, file, i - 1);
    }
  }

  method TransformSignals(signals: seq<Signal>, cap: Option<nat>) returns (transformed: seq<Signal>)
    ensures transformed == Transformed(signals, cap)
  {
    transformed := [];
    for i := 0 to |signals|
      invariant transformed == Transformed(signals[..i], cap)
    {
      var copied := signals[i].hits;
      if cap.Some? && signals[i].name in BROAD_SIGNALS {
        copied := CapFanout(copied, cap.value);
      }
      transformed := transformed + [Signal(signals[i].name, copied)];
      assert signals[..i + 1][..i] == signals[..i];
    }
    assert signals[..|signals|] == signals;
  }

  method ReserveHits(direct: seq<Hit>, k: nat) returns (reserved: seq<Hit>)
    ensures reserved == Reserved(direct, k)
  {
    reserved := [];
    var identities: set<string> := {};
    for i := 0 to |direct|
      invariant reserved == FirstHits(direct[..i])
      invariant identities == Ids(direct[..i])
    {
      assert direct[..i + 1][..i] == direct[..i];
      assert direct[..i + 1] == direct[..i] + [direct[i]];
      if direct[i].id !in identities {
        identities := identities + {direct[i].id};
        reserved := reserved + [direct[i]];
      }
    }
    assert direct[..|direct|] == direct;
    reserved := reserved[..Least(k, |reserved|)];
  }

  /** One place is made by deleting the last unreserved hit, if there is one. */
  method MakeRoom(top: seq<Hit>, reserved: set<string>) returns (r: seq<Hit>)
    ensures r == Keep(top, reserved, 1)
  {
    var index := |top|;
    assert top[..index] == top;
    while index > 0
      invariant 0 <= index <= |top|
      invariant Keep(top, reserved, 1) == Keep(top[..index], reserved, 1) + top[index..]
    {
      index := index - 1;
      assert top[..index + 1][..index] == top[..index];
      if top[index].id !in reserved {
        assert Keep(top[..index], reserved, 0) == top[..index];
        return top[..index] + top[index + 1..];
      }
      assert [top[index]] + top[index + 1..] == top[index..];
    }
    r := top;
  }

  lemma KeepNone(top: seq<Hit>, reserved: set<string>)
    ensures Keep(top, reserved, 0) == top
  {
  }

  /** `_quota_ranking`. */
  method QuotaRanking(fused: seq<Hit>, direct: seq<Hit>, k: nat) returns (ordered: seq<Hit>)
    ensures ordered == WithQuota(fused, direct, k)
  {
    hide Filter, Keep;
    var reserved := ReserveHits(direct, k);
    var reservedIds := Ids(reserved);
    var first := fused[..Least(k, |fused|)];
    var missing := Filter(reserved, NotIn(Ids(first)));
    FilterMembers(reserved, NotIn(Ids(first)));
    var top := first;
    KeepNone(first, reservedIds);
    for i := 0 to |missing|
      invariant top == Keep(first, reservedIds, i) + missing[..i]
    {
      KeepStep(first, missing[..i], reservedIds, i);
      top := MakeRoom(top, reservedIds);
      top := top + [missing[i]];
      assert missing[..i + 1] == missing[..i] + [missing[i]];
    }
    assert missing[..|missing|] == missing;
    ordered := top + Filter(fused, NotIn(Ids(top)));
  }

  /** Deleting one more unreserved hit, with reserved hits already appended. */
  lemma {:induction false} KeepStep(top: seq<Hit>, appended: seq<Hit>, reserved: set<string>, n: nat)
    requires forall h :: h in appended ==> h.id in reserved
    ensures Keep(Keep(top, reserved, n) + appended, reserved, 1) == Keep(top, reserved, n + 1) + appended
    decreases |appended|, |top|
  {
    if appended == [] {
      assert Keep(top, reserved, n) + appended == Keep(top, reserved, n);
      KeepOneMore(top, reserved, n);
      assert Keep(top, reserved, n + 1) + appended == Keep(top, reserved, n + 1);
    } else {
      var m := |appended| - 1;
      assert appended == appended[..m] + [appended[m]] && appended[m] in appended;
      KeepStep(top, appended[..m], reserved, n);
      KeepReserved(Keep(top, reserved, n) + appended[..m], appended[m], reserved);
      assert Keep(top, reserved, n) + appended == Keep(top, reserved, n) + appended[..m] + [appended[m]];
      assert Keep(top, reserved, n + 1) + appended == Keep(top, reserved, n + 1) + appended[..m] + [appended[m]];
    }
  }

  /** A reserved hit at the end is kept. */
  lemma KeepReserved(hits: seq<Hit>, last: Hit, reserved: set<string>)
    requires last.id in reserved
    ensures Keep(hits + [last], reserved, 1) == Keep(hits, reserved, 1) + [last]
  {
    assert (hits + [last])[..|hits|] == hits;
  }

  lemma {:induction false} KeepOneMore(top: seq<Hit>, reserved: set<string>, n: nat)
    ensures Keep(Keep(top, reserved, n), reserved, 1) == Keep(top, reserved, n + 1)
  {
    if top != [] {
      var m := |top| - 1;
      if top[m].id in reserved {
        KeepOneMore(top[..m], reserved, n);
        if n > 0 {
          var kept := Keep(top[..m], reserved, n);
          assert (kept + [top[m]])[..|kept|] == kept;
        } else {
          assert Keep(top[..m], reserved, 0) == top[..m];
        }
      } else if n > 0 {
        KeepOneMore(top[..m], reserved, n - 1);
      } else {
        assert Keep(top[..m], reserved, 0) == top[..m];
      }
    }
  }

  /** `fuse_candidate_signals`, over an engine that never lists an identity twice. */
  method FuseCandidateSignals(signals: seq<Signal>, candidate: Candidate, limit: nat, k: nat, fuse: Fusion) returns (ranking: seq<Hit>)
    requires forall s, l, w, c :: DistinctIds(fuse(s, l, w, c))
    ensures var transformed := Transformed(signals, candidate.cap);
            var fused := fuse(transformed, limit, candidate.multiplier, candidate.rrfK);
            var direct := DirectOf(transformed);
            var best := fuse(direct, |AllIds(direct)|, candidate.multiplier, candidate.rrfK);
            if candidate.quota == 0 then ranking == fused
            else
              && ranking == WithQuota(fused, best[..Least(candidate.quota, |best|)], k)
              && DistinctIds(ranking)
              && forall i :: 0 <= i < |best| && i < candidate.quota && i < k ==>
                   best[i].id in Ids(ranking[..Least(k, |ranking|)])
  {
    var transformed := TransformSignals(signals, candidate.cap);
    var fused := fuse(transformed, limit, candidate.multiplier, candidate.rrfK);
    if candidate.quota == 0 {
      return fused;
    }
    var direct := DirectOf(transformed);
    var best := fuse(direct, |AllIds(direct)|, candidate.multiplier, candidate.rrfK);
    var hits := best[..Least(candidate.quota, |best|)];
    ranking := QuotaRanking(fused, hits, k);
    NothingRepeated(fused, hits, k);
    ReservedComeFirst(fused, hits, k);
    DistinctAreFirst(hits);
    forall i | 0 <= i < |best| && i < candidate.quota && i < k
      ensures best[i].id in Ids(ranking[..Least(k, |ranking|)])
    {
      assert best[i] == Reserved(hits, k)[i];
      assert Reserved(hits, k)[i] in Reserved(hits, k);
    }
  }

  lemma {:induction false} DistinctAreFirst(hits: seq<Hit>)
    requires DistinctIds(hits)
    ensures FirstHits(hits) == hits
  {
    if hits != [] {
      var m := |hits| - 1;
      DistinctAreFirst(hits[..m]);
      assert hits[m].id !in Ids(hits[..m]);
      assert hits == hits[..m] + [hits[m]];
    }
  }

  // ---------------------------------------------------------------- what the quota does to a ranking

  lemma IdsAppend(a: seq<Hit>, b: seq<Hit>)
    ensures Ids(a + b) == Ids(a) + Ids(b)
  {
    assert forall h :: h in a + b <==> h in a || h in b;
  }

  lemma {:induction false} FirstHitsDistinct(hits: seq<Hit>)
    ensures DistinctIds(FirstHits(hits)) && Ids(FirstHits(hits)) == Ids(hits)
  {
    if hits != [] {
      var m := |hits| - 1;
      FirstHitsDistinct(hits[..m]);
      assert hits == hits[..m] + [hits[m]];
      IdsAppend(hits[..m], [hits[m]]);
      IdsAppend(FirstHits(hits[..m]), [hits[m]]);
      assert Ids([hits[m]]) == {hits[m].id};
    }
  }

  function Unreserved(hits: seq<Hit>, reserved: set<string>): nat { |Filter(hits, NotIn(reserved))| }

  /** What is deleted are exactly the unreserved hits below some rank. */
  lemma {:induction false} KeepIsACut(top: seq<Hit>, reserved: set<string>, n: nat) returns (above: seq<Hit>, below: seq<Hit>)
    ensures top == above + below
    ensures Keep(top, reserved, n) == above + Filter(below, In(reserved))
    ensures Unreserved(below, reserved) == Least(n, Unreserved(top, reserved))
  {
    if top == [] || n == 0 {
      above, below := top, [];
    } else {
      var m := |top| - 1;
      var lower: seq<Hit>;
      above, lower := KeepIsACut(top[..m], reserved, if top[m].id in reserved then n else n - 1);
      below := lower + [top[m]];
      OneMore(lower, top[m], reserved);
      OneMore(top[..m], top[m], reserved);
      assert top == top[..m] + [top[m]];
    }
  }

  lemma OneMore(hits: seq<Hit>, last: Hit, reserved: set<string>)
    ensures Filter(hits + [last], In(reserved)) == Filter(hits, In(reserved)) + (if last.id in reserved then [last] else [])
    ensures Unreserved(hits + [last], reserved) == Unreserved(hits, reserved) + (if last.id in reserved then 0 else 1)
  {
    FilterAppend(hits, [last], In(reserved));
    FilterAppend(hits, [last], NotIn(reserved));
  }

  lemma {:induction false} FilterKeepsDistinct(hits: seq<Hit>, keep: Hit -> bool)
    requires DistinctIds(hits)
    ensures DistinctIds(Filter(hits, keep))
  {
    if hits != [] {
      FilterKeepsDistinct(hits[1..], keep);
      FilterMembers(hits[1..], keep);
      assert forall h :: h in Filter(hits[1..], keep) ==> h.id != hits[0].id;
    }
  }

  lemma {:induction false} KeepFrom(top: seq<Hit>, reserved: set<string>, n: nat)
    ensures forall h :: h in Keep(top, reserved, n) ==> h in top
    ensures forall h :: h in top && h.id in reserved ==> h in Keep(top, reserved, n)
    ensures DistinctIds(top) ==> DistinctIds(Keep(top, reserved, n))
    ensures |Keep(top, reserved, n)| == |top| - Least(n, Unreserved(top, reserved))
  {
    if top != [] && n != 0 {
      var m := |top| - 1;
      assert top == top[..m] + [top[m]];
      FilterAppend(top[..m], [top[m]], NotIn(reserved));
      KeepFrom(top[..m], reserved, if top[m].id in reserved then n else n - 1);
    }
  }

  /** No identity is listed twice. */
  lemma NothingRepeated(fused: seq<Hit>, direct: seq<Hit>, k: nat)
    requires DistinctIds(fused)
    ensures DistinctIds(WithQuota(fused, direct, k))
  {
    hide Filter, FirstHits, Keep;
    var first := fused[..Least(k, |fused|)];
    var missing := Missing(fused, direct, k);
    FirstHitsDistinct(direct);
    FilterKeepsDistinct(Reserved(direct, k), NotIn(Ids(first)));
    FilterMembers(Reserved(direct, k), NotIn(Ids(first)));
    KeepFrom(first, Ids(Reserved(direct, k)), |missing|);
    var kept := Keep(first, Ids(Reserved(direct, k)), |missing|);
    assert forall h, g :: h in kept && g in missing ==> h.id in Ids(first) && g.id !in Ids(first);
    JoinDistinct(kept, missing);
    var top := Top(fused, direct, k);
    FilterKeepsDistinct(fused, NotIn(Ids(top)));
    FilterMembers(fused, NotIn(Ids(top)));
    JoinDistinct(top, Filter(fused, NotIn(Ids(top))));
  }

  lemma JoinDistinct(a: seq<Hit>, b: seq<Hit>)
    requires DistinctIds(a) && DistinctIds(b)
    requires forall h, g :: h in a && g in b ==> h.id != g.id
    ensures DistinctIds(a + b)
  {
  }

  /** Nothing is lost and nothing but the reserved hits is added. */
  lemma IdentitiesKept(fused: seq<Hit>, direct: seq<Hit>, k: nat)
    ensures Ids(WithQuota(fused, direct, k)) == Ids(fused) + Ids(Reserved(direct, k))
  {
    var first := fused[..Least(k, |fused|)];
    var missing := Missing(fused, direct, k);
    var top := Top(fused, direct, k);
    assert fused == first + fused[|first|..];
    FilterMembers(Reserved(direct, k), NotIn(Ids(first)));
    KeepFrom(first, Ids(Reserved(direct, k)), |missing|);
    FilterMembers(fused, NotIn(Ids(top)));
    forall id | id in Ids(fused) + Ids(Reserved(direct, k)) ensures id in Ids(WithQuota(fused, direct, k)) {
      if id in Ids(fused) && id !in Ids(top) {
        var h :| h in fused && h.id == id;
        assert h in Filter(fused, NotIn(Ids(top)));
      } else if id !in Ids(fused) {
        var h :| h in Reserved(direct, k) && h.id == id;
        assert h in missing;
      }
    }
  }

  /** Every reserved hit is among the first `k`. */
  lemma ReservedComeFirst(fused: seq<Hit>, direct: seq<Hit>, k: nat)
    requires DistinctIds(fused)
    ensures var ranking := WithQuota(fused, direct, k);
            forall h :: h in Reserved(direct, k) ==> h.id in Ids(ranking[..Least(k, |ranking|)])
  {
    var ranking := WithQuota(fused, direct, k);
    var top := Top(fused, direct, k);
    TopFits(fused, direct, k);
    ReservedInTop(fused, direct, k);
    forall h | h in Reserved(direct, k) ensures h.id in Ids(ranking[..Least(k, |ranking|)]) {
      assert h.id in Ids(top);
      var g :| g in top && g.id == h.id;
      assert ranking[..Least(k, |ranking|)][..|top|] == top;
      assert g in ranking[..Least(k, |ranking|)];
    }
  }

  lemma ReservedInTop(fused: seq<Hit>, direct: seq<Hit>, k: nat)
    ensures Ids(Reserved(direct, k)) <= Ids(Top(fused, direct, k))
  {
    var first := fused[..Least(k, |fused|)];
    FilterMembers(Reserved(direct, k), NotIn(Ids(first)));
    KeepFrom(first, Ids(Reserved(direct, k)), |Missing(fused, direct, k)|);
    forall h | h in Reserved(direct, k) ensures h.id in Ids(Top(fused, direct, k)) {
      if h.id in Ids(first) {
        var g :| g in first && g.id == h.id;
        assert g in Top(fused, direct, k);
      } else {
        assert h in Missing(fused, direct, k);
      }
    }
  }

  /** The rearranged top still has at most `k` hits. */
  lemma TopFits(fused: seq<Hit>, direct: seq<Hit>, k: nat)
    requires DistinctIds(fused)
    ensures |Top(fused, direct, k)| <= k
  {
    var first := fused[..Least(k, |fused|)];
    var reserved := Reserved(direct, k);
    var missing := Missing(fused, direct, k);
    KeepFrom(first, Ids(reserved), |missing|);
    if |missing| > Unreserved(first, Ids(reserved)) {
      var there := Filter(first, In(Ids(reserved)));
      Partition(first, Ids(reserved));
      FirstHitsDistinct(direct);
      FilterKeepsDistinct(first, In(Ids(reserved)));
      FilterKeepsDistinct(reserved, NotIn(Ids(first)));
      FilterMembers(first, In(Ids(reserved)));
      FilterMembers(reserved, NotIn(Ids(first)));
      JoinDistinct(there, missing);
      FewerDistinct(there + missing, reserved);
    }
  }

  lemma {:induction false} Partition(hits: seq<Hit>, ids: set<string>)
    ensures |hits| == |Filter(hits, In(ids))| + |Filter(hits, NotIn(ids))|
  {
    if hits != [] {
      Partition(hits[1..], ids);
    }
  }

  lemma {:induction false} SizeOfIds(hits: seq<Hit>)
    requires DistinctIds(hits)
    ensures |Ids(hits)| == |hits|
  {
    if hits != [] {
      var m := |hits| - 1;
      SizeOfIds(hits[..m]);
      assert hits == hits[..m] + [hits[m]];
      assert Ids(hits) == Ids(hits[..m]) + {hits[m].id};
    }
  }

  lemma {:induction false} FewerDistinct(a: seq<Hit>, b: seq<Hit>)
    requires DistinctIds(a) && DistinctIds(b) && forall h :: h in a ==> h.id in Ids(b)
    ensures |a| <= |b|
  {
    SizeOfIds(a);
    SizeOfIds(b);
    SubsetSize(Ids(a), Ids(b));
  }

  lemma {:induction false} SubsetSize(a: set<string>, b: set<string>)
    requires a <= b
    ensures |a| <= |b|
  {
    assert b == a + (b - a);
  }

  /**
   * The whole ranking, laid out: the hits above some rank are untouched; below it, inside the old top, the reserved
   * hits stay and the others are pushed behind the missing reserved hits; everything else keeps its order.
   */
  lemma Layout(fused: seq<Hit>, direct: seq<Hit>, k: nat) returns (above: seq<Hit>, below: seq<Hit>)
    requires DistinctIds(fused)
    ensures var n := Least(k, |fused|);
            var reserved := Ids(Reserved(direct, k));
            var missing := Missing(fused, direct, k);
            && fused[..n] == above + below
            && WithQuota(fused, direct, k) ==
               above + Filter(below, In(reserved)) + missing
               + (Filter(below, NotIn(reserved)) + Filter(fused[n..], NotIn(Ids(missing))))
            && Unreserved(below, reserved) == Least(|missing|, Unreserved(fused[..n], reserved))
  {
    var n := Least(k, |fused|);
    above, below := KeepIsACut(fused[..n], Ids(Reserved(direct, k)), |Missing(fused, direct, k)|);
    assert fused == above + below + fused[n..];
    Rest(above, below, fused[n..], Reserved(direct, k), Missing(fused, direct, k));
  }

  /** What follows the rearranged top `a + reserved part of b + missing`. */
  lemma Rest(a: seq<Hit>, b: seq<Hit>, c: seq<Hit>, reserved: seq<Hit>, missing: seq<Hit>)
    requires DistinctIds(a + b + c) && missing == Filter(reserved, NotIn(Ids(a + b)))
    ensures var top := a + Filter(b, In(Ids(reserved))) + missing;
            Filter(a + b + c, NotIn(Ids(top))) == Filter(b, NotIn(Ids(reserved))) + Filter(c, NotIn(Ids(missing)))
  {
    var top := Ids(a + Filter(b, In(Ids(reserved))) + missing);
    TopIds(a, b, reserved, missing);
    Apart(a, b, c);
    FilterParts(a, b, c, NotIn(top), NotIn(Ids(reserved)), NotIn(Ids(missing)));
  }

  lemma FilterParts(a: seq<Hit>, b: seq<Hit>, c: seq<Hit>, keep: Hit -> bool, inB: Hit -> bool, inC: Hit -> bool)
    requires forall h :: h in a ==> !keep(h)
    requires forall h :: h in b ==> keep(h) == inB(h)
    requires forall h :: h in c ==> keep(h) == inC(h)
    ensures Filter(a + b + c, keep) == Filter(b, inB) + Filter(c, inC)
  {
    hide Filter;
    FilterAppend(a + b, c, keep);
    FilterAppend(a, b, keep);
    FilterNone(a, keep);
    FilterSame(b, keep, inB);
    FilterSame(c, keep, inC);
  }

  lemma Apart(a: seq<Hit>, b: seq<Hit>, c: seq<Hit>)
    requires DistinctIds(a + b + c)
    ensures forall h, g :: h in a && g in b ==> h.id != g.id
    ensures forall h, g :: h in a + b && g in c ==> h.id != g.id
  {
    forall h, g | h in a && g in b ensures h.id != g.id {
      var i :| 0 <= i < |a| && a[i] == h;
      var j :| 0 <= j < |b| && b[j] == g;
      assert (a + b + c)[i] == h && (a + b + c)[|a| + j] == g;
    }
    forall h, g | h in a + b && g in c ensures h.id != g.id {
      var i :| 0 <= i < |a + b| && (a + b)[i] == h;
      var j :| 0 <= j < |c| && c[j] == g;
      assert (a + b + c)[i] == h && (a + b + c)[|a + b| + j] == g;
    }
  }

  /** An identity is in the top if it is above the cut, reserved and below it, or missing. */
  lemma TopIds(a: seq<Hit>, b: seq<Hit>, reserved: seq<Hit>, missing: seq<Hit>)
    requires missing == Filter(reserved, NotIn(Ids(a + b)))
    ensures forall id :: id in Ids(a + Filter(b, In(Ids(reserved))) + missing) <==>
              id in Ids(a) || (id in Ids(b) && id in Ids(reserved)) || id in Ids(missing)
    ensures forall id :: id in Ids(missing) <==> id in Ids(reserved) && id !in Ids(a + b)
    ensures Ids(a + b) == Ids(a) + Ids(b)
  {
    FilterMembers(b, In(Ids(reserved)));
    FilterMembers(reserved, NotIn(Ids(a + b)));
    IdsAppend(a, b);
    IdsAppend(a, Filter(b, In(Ids(reserved))));
    IdsAppend(a + Filter(b, In(Ids(reserved))), missing);
    IdsOfFilter(b, In(Ids(reserved)));
    IdsOfFilter(reserved, NotIn(Ids(a + b)));
  }

  lemma IdsOfFilter(hits: seq<Hit>, keep: Hit -> bool)
    ensures forall id :: id in Ids(Filter(hits, keep)) <==> exists h :: h in hits && keep(h) && h.id == id
  {
    FilterMembers(hits, keep);
  }

  // ---------------------------------------------------------------- the fan-out cap

  lemma {:induction false} EarlierIsCount(hits: seq<Hit>, file: string)
    ensures |Filter(hits, OfFile(file))| == Earlier(hits, file, |hits|)
  {
    if hits != [] {
      var n := |hits| - 1;
      EarlierIsCount(hits[..n], file);
      EarlierPrefix(hits, n, file, n);
      FilterLast(hits, OfFile(file));
    }
  }

  /** Of every file the cap keeps as many hits as it may, and they are its first ones. */
  lemma {:induction false} CapPerFile(hits: seq<Hit>, cap: nat, file: string)
    ensures var mine := Filter(hits, OfFile(file));
            Filter(Capped(hits, cap), OfFile(file)) == mine[..Least(cap, |mine|)]
  {
    if hits != [] {
      var n := |hits| - 1;
      CapPerFile(hits[..n], cap, file);
      EarlierIsCount(hits[..n], file);
      EarlierPrefix(hits, n, file, n);
      FilterLast(hits, OfFile(file));
      var capped := Capped(hits, cap);
      if Earlier(hits, hits[n].file, n) >= cap {
        assert capped == Capped(hits[..n], cap);
        hide *;
      } else {
        assert capped[..|capped| - 1] == Capped(hits[..n], cap);
        hide *;
        FilterLast(capped, OfFile(file));
      }
    }
  }

  function OfFile(file: string): Hit -> bool { (h: Hit) => h.file == file }
}
