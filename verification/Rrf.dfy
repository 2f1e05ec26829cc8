/** Reciprocal rank fusion. */
module Rrf {
  import opened Options
  import opened Sorting

  /** The first rank, counted from one, at which a ranking lists the item. */
  function FirstRank(ranking: seq<string>, item: string): nat
    requires item in ranking
  {
    if ranking[0] == item then 1 else 1 + FirstRank(ranking[1..], item)
  }

  function Share(constant: nat, rank: nat): real
    requires rank > 0
  {
    1.0 / (constant + rank) as real
  }

  /** The share of a rank is the reciprocal of the rank and the constant together. */
  lemma ShareIsReciprocal(constant: nat, rank: nat)
    requires rank > 0
    ensures Share(constant, rank) * (constant as real + rank as real) == 1.0
  {
  }

  /** What one ranking adds to an item: only its first occurrence counts. */
  function Contribution(ranking: seq<string>, item: string, constant: nat): real {
    if item in ranking then Share(constant, FirstRank(ranking, item)) else 0.0
  }

  function Score(rankings: seq<seq<string>>, item: string, constant: nat): real {
    if rankings == [] then 0.0
    else Score(rankings[..|rankings| - 1], item, constant) + Contribution(rankings[|rankings| - 1], item, constant)
  }

  function Flat(rankings: seq<seq<string>>): seq<string> {
    if rankings == [] then [] else Flat(rankings[..|rankings| - 1]) + rankings[|rankings| - 1]
  }

  function IndexOf(s: seq<string>, x: string): nat
    requires x in s
  {
    if s[0] == x then 0 else 1 + IndexOf(s[1..], x)
  }

  /** Higher score first; equal scores in the order of discovery. */
  ghost predicate Before(rankings: seq<seq<string>>, constant: nat, a: string, b: string) {
    var discovered := Dedup(Flat(rankings));
    || Score(rankings, a, constant) > Score(rankings, b, constant)
    || (Score(rankings, a, constant) == Score(rankings, b, constant) && a in discovered && b in discovered
        && IndexOf(discovered, a) < IndexOf(discovered, b))
  }

  function At<V>(m: map<string, V>, k: string, otherwise: V): V { if k in m then m[k] else otherwise }

  function ByScore(scores: map<string, real>, discovery: map<string, nat>): (string, string) -> bool {
    (a, b) => At(scores, a, 0.0) > At(scores, b, 0.0)
              || (At(scores, a, 0.0) == At(scores, b, 0.0) && At(discovery, a, 0) <= At(discovery, b, 0))
  }

  /** Every ranked item once, each before all that it beats. */
  method Fuse(rankings: seq<seq<string>>, constant: nat) returns (fused: seq<string>)
    ensures Distinct(fused)
    ensures forall x :: x in fused <==> x in Flat(rankings)
    ensures forall i, j :: 0 <= i < j < |fused| ==> Before(rankings, constant, fused[i], fused[j])
  {
    var scores: map<string, real> := map[];
    var discovery: map<string, nat> := map[];
    var order: seq<string> := [];
    for i := 0 to |rankings|
      invariant Tables(scores, discovery, order, Flat(rankings[..i]))
      invariant forall x :: At(scores, x, 0.0) == Score(rankings[..i], x, constant)
    {
      assert rankings[..i + 1][..i] == rankings[..i];
      scores, discovery, order := AddRanking(scores, discovery, order, rankings[i], constant, Flat(rankings[..i]));
    }
    assert rankings[..|rankings|] == rankings;
    fused := Sort(order, ByScore(scores, discovery));
    SortedByScore(rankings, constant, scores, discovery, order, fused);
  }

  lemma SortedByScore(rankings: seq<seq<string>>, constant: nat, scores: map<string, real>, discovery: map<string, nat>,
                      order: seq<string>, fused: seq<string>)
    requires Tables(scores, discovery, order, Flat(rankings))
    requires forall x :: At(scores, x, 0.0) == Score(rankings, x, constant)
    requires fused == Sort(order, ByScore(scores, discovery))
    ensures Distinct(fused) && forall x :: x in fused <==> x in Flat(rankings)
    ensures forall i, j :: 0 <= i < j < |fused| ==> Before(rankings, constant, fused[i], fused[j])
  {
    SortSorted(order, ByScore(scores, discovery));
    DedupMembers(Flat(rankings));
    DistinctByCount(order, fused);
    SameElements(order, fused);
    forall i, j | 0 <= i < j < |fused| ensures Before(rankings, constant, fused[i], fused[j]) {
      PairBefore(rankings, constant, scores, discovery, order, fused[i], fused[j]);
    }
  }

  lemma PairBefore(rankings: seq<seq<string>>, constant: nat, scores: map<string, real>, discovery: map<string, nat>,
                   order: seq<string>, a: string, b: string)
    requires Tables(scores, discovery, order, Flat(rankings)) && a in order && b in order && a != b
    requires forall x :: At(scores, x, 0.0) == Score(rankings, x, constant)
    requires ByScore(scores, discovery)(a, b)
    ensures Before(rankings, constant, a, b)
  {
    IndexOfAt(order, a);
    IndexOfAt(order, b);
  }

  /** The dictionaries after the items of `seen`: both list them in the order they were discovered. */
  ghost predicate Tables(scores: map<string, real>, discovery: map<string, nat>, order: seq<string>, seen: seq<string>) {
    && order == Dedup(seen)
    && (forall x :: x in scores <==> x in order)
    && (forall x :: x in discovery <==> x in order)
    && (forall i :: 0 <= i < |order| ==> discovery[order[i]] == i)
  }

  method AddRanking(scores0: map<string, real>, discovery0: map<string, nat>, order0: seq<string>,
                    ranking: seq<string>, constant: nat, ghost earlier: seq<string>)
    returns (scores: map<string, real>, discovery: map<string, nat>, order: seq<string>)
    requires Tables(scores0, discovery0, order0, earlier)
    ensures Tables(scores, discovery, order, earlier + ranking)
    ensures Earned(scores0, scores, ranking, constant)
  {
    hide Share, Tables, Earned;
    scores, discovery, order := scores0, discovery0, order0;
    var seen: set<string> := {};
    assert earlier + ranking[..0] == earlier;
    NothingEarned(scores0, constant);
    assert ranking[..0] == [];
    for rank := 0 to |ranking|
      invariant forall x :: x in seen <==> x in ranking[..rank]
      invariant Tables(scores, discovery, order, earlier + ranking[..rank])
      invariant Earned(scores0, scores, ranking[..rank], constant)
    {
      var item := ranking[rank];
      assert ranking[..rank + 1] == ranking[..rank] + [item];
      assert earlier + ranking[..rank + 1] == (earlier + ranking[..rank]) + [item];
      scores, discovery, order := AddItem(scores, discovery, order, item, item !in seen, rank + 1, constant,
                                          earlier, ranking[..rank], scores0);
      seen := seen + {item};
    }
    assert ranking[..|ranking|] == ranking;
  }

  /** What one ranking has added to every score. */
  ghost predicate Earned(before: map<string, real>, after: map<string, real>, ranking: seq<string>, constant: nat) {
    forall x :: At(after, x, 0.0) == At(before, x, 0.0) + Contribution(ranking, x, constant)
  }

  lemma NothingEarned(scores: map<string, real>, constant: nat)
    ensures Earned(scores, scores, [], constant)
  {
  }

  /** One listed item: a repeated one is passed over. */
  method AddItem(scores0: map<string, real>, discovery0: map<string, nat>, order0: seq<string>, item: string, first: bool,
                 rank: nat, constant: nat, ghost earlier: seq<string>, ghost prefix: seq<string>, ghost start: map<string, real>)
    returns (scores: map<string, real>, discovery: map<string, nat>, order: seq<string>)
    requires Tables(scores0, discovery0, order0, earlier + prefix) && Earned(start, scores0, prefix, constant)
    requires first == (item !in prefix) && rank == |prefix| + 1
    ensures Tables(scores, discovery, order, earlier + prefix + [item]) && Earned(start, scores, prefix + [item], constant)
  {
    hide Share, Contribution;
    scores, discovery, order := scores0, discovery0, order0;
    forall x {
      ContributionOfPrefix(prefix, item, x, constant);
    }
    NextTables(scores, discovery, order, earlier + prefix, item);
    if first {
      if item !in discovery {
        discovery := discovery[item := |order|];
        order := order + [item];
      }
      scores := scores[item := At(scores, item, 0.0) + Share(constant, rank)];
    }
  }

  /** An item already listed changes no table; a new one is listed last. */
  lemma NextTables(scores: map<string, real>, discovery: map<string, nat>, order: seq<string>, seen: seq<string>, item: string)
    requires Tables(scores, discovery, order, seen)
    ensures item in seen <==> item in discovery
    ensures item in seen ==> Dedup(seen + [item]) == order
    ensures item !in seen ==> Dedup(seen + [item]) == order + [item]
  {
    assert (seen + [item])[..|seen|] == seen;
    DedupMembers(seen);
  }

  lemma {:induction false} ContributionOfPrefix(prefix: seq<string>, item: string, x: string, constant: nat)
    ensures Contribution(prefix + [item], x, constant) ==
            Contribution(prefix, x, constant) + if x == item && item !in prefix then Share(constant, |prefix| + 1) else 0.0
  {
    if x in prefix + [item] {
      RankOfPrefix(prefix, item, x);
    }
  }

  lemma {:induction false} RankOfPrefix(prefix: seq<string>, item: string, x: string)
    requires x in prefix + [item]
    ensures FirstRank(prefix + [item], x) == if x in prefix then FirstRank(prefix, x) else |prefix| + 1
  {
    if prefix != [] && prefix[0] != x {
      assert (prefix + [item])[1..] == prefix[1..] + [item];
      RankOfPrefix(prefix[1..], item, x);
    }
  }

  lemma {:induction false} IndexOfAt(s: seq<string>, x: string)
    requires x in s
    ensures IndexOf(s, x) < |s| && s[IndexOf(s, x)] == x
  {
    if s[0] != x {
      IndexOfAt(s[1..], x);
    }
  }

  // ---------------------------------------------------------------- unanimity

  /** Every ranking that lists `b` lists `a` earlier. */
  ghost predicate Unanimous(rankings: seq<seq<string>>, a: string, b: string) {
    forall i :: 0 <= i < |rankings| && b in rankings[i] ==>
      a in rankings[i] && FirstRank(rankings[i], a) < FirstRank(rankings[i], b)
  }

  lemma EarlierEarnsMore(constant: nat, rank: nat, later: nat)
    requires 0 < rank < later
    ensures Share(constant, rank) > Share(constant, later) > 0.0
  {
    var x, y := (constant + rank) as real, (constant + later) as real;
    assert 1.0 / x > 1.0 / y by {
      assert (1.0 / x) * x == 1.0 && (1.0 / y) * y == 1.0;
      if 1.0 / x <= 1.0 / y {
        Product(1.0 / x, 1.0 / y, x, y);
      }
    }
  }

  lemma Product(p: real, q: real, x: real, y: real)
    requires 0.0 < p <= q && 0.0 < x < y
    ensures p * x < q * y
  {
  }

  lemma {:induction false} UnanimousScores(rankings: seq<seq<string>>, a: string, b: string, constant: nat)
    requires Unanimous(rankings, a, b)
    ensures Score(rankings, a, constant) >= Score(rankings, b, constant)
    ensures b in Flat(rankings) ==> Score(rankings, a, constant) > Score(rankings, b, constant)
  {
    if rankings != [] {
      var n := |rankings| - 1;
      forall i | 0 <= i < n && b in rankings[..n][i]
        ensures a in rankings[..n][i] && FirstRank(rankings[..n][i], a) < FirstRank(rankings[..n][i], b)
      {
        assert rankings[..n][i] == rankings[i];
      }
      UnanimousScores(rankings[..n], a, b, constant);
      if b in rankings[n] {
        EarlierEarnsMore(constant, FirstRank(rankings[n], a), FirstRank(rankings[n], b));
      } else if a in rankings[n] {
        EarlierEarnsMore(constant, FirstRank(rankings[n], a), FirstRank(rankings[n], a) + 1);
      }
    }
  }

  /** What every ranking agrees on, the fused ranking keeps. */
  lemma Unanimity(rankings: seq<seq<string>>, constant: nat, fused: seq<string>, a: string, b: string)
    requires Distinct(fused) && forall x :: x in fused <==> x in Flat(rankings)
    requires forall i, j :: 0 <= i < j < |fused| ==> Before(rankings, constant, fused[i], fused[j])
    requires Unanimous(rankings, a, b) && b in Flat(rankings)
    ensures exists i, j :: 0 <= i < j < |fused| && fused[i] == a && fused[j] == b
  {
    UnanimousScores(rankings, a, b, constant);
    UnanimousMember(rankings, a, b);
    var i :| 0 <= i < |fused| && fused[i] == a;
    var j :| 0 <= j < |fused| && fused[j] == b;
    assert !Before(rankings, constant, b, a);
  }

  lemma {:induction false} UnanimousMember(rankings: seq<seq<string>>, a: string, b: string)
    requires Unanimous(rankings, a, b) && b in Flat(rankings)
    ensures a in Flat(rankings)
  {
    var n := |rankings| - 1;
    if b !in rankings[n] {
      forall i | 0 <= i < n && b in rankings[..n][i]
        ensures a in rankings[..n][i] && FirstRank(rankings[..n][i], a) < FirstRank(rankings[..n][i], b)
      {
        assert rankings[..n][i] == rankings[i];
      }
      UnanimousMember(rankings[..n], a, b);
    }
  }
}
