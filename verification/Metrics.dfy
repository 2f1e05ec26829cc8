/** Normalised discounted cumulative gain, with and without the rule that a repeated item earns nothing. */
module Metrics {
  import opened Sorting

  /** One judged item; a case holds them as a dictionary, so no item is judged twice. */
  datatype Judged = Judged(item: string, grade: nat)

  ghost predicate Dictionary(relevant: seq<Judged>) {
    forall i, j :: 0 <= i < j < |relevant| ==> relevant[i].item != relevant[j].item
  }

  function Grade(relevant: seq<Judged>, item: string): nat {
    if relevant == [] then 0
    else if relevant[0].item == item then relevant[0].grade
    else Grade(relevant[1..], item)
  }

  function Grades(js: seq<Judged>): seq<nat> {
    if js == [] then [] else [js[0].grade] + Grades(js[1..])
  }

  function Power(n: nat): (p: nat)
    ensures p > n
  {
    if n == 0 then 1 else 2 * Power(n - 1)
  }

  function Gain(grade: nat): (g: real)
    ensures g >= 0.0 && (g == 0.0 <==> grade == 0)
  {
    (Power(grade) - 1) as real
  }

  function Gains(grades: seq<nat>): (r: seq<real>)
    ensures |r| == |grades|
  {
    if grades == [] then [] else [Gain(grades[0])] + Gains(grades[1..])
  }

  /** A positive weight per rank that never grows; the benchmark's is 1 / log2(rank + 2). */
  ghost predicate Discount(d: nat -> real) {
    && (forall rank: nat :: d(rank) > 0.0)
    && (forall high: nat, low: nat :: high <= low ==> d(low) <= d(high))
  }

  function Term(gs: seq<real>, i: nat): real { if i < |gs| then gs[i] else 0.0 }

  /** The discounted gain of the first `n` ranks. */
  function Weighted(gs: seq<real>, d: nat -> real, n: nat): real {
    if n == 0 then 0.0 else Weighted(gs, d, n - 1) + Term(gs, n - 1) * d(n - 1)
  }

  /** The undiscounted gain of the first `n` ranks. */
  function Total(gs: seq<real>, n: nat): real {
    if n == 0 then 0.0 else Total(gs, n - 1) + Term(gs, n - 1)
  }

  /** The grades a ranking earns when only the first occurrence of an item counts. */
  function FirstGains(items: seq<string>, relevant: seq<Judged>): (r: seq<real>)
    ensures |r| == |items|
  {
    if items == [] then []
    else
      var n := |items| - 1;
      FirstGains(items[..n], relevant) + [if items[n] in items[..n] then 0.0 else Gain(Grade(relevant, items[n]))]
  }

  /** The grades a ranking earns when every occurrence counts. */
  function AllGains(items: seq<string>, relevant: seq<Judged>): (r: seq<real>)
    ensures |r| == |items|
  {
    if items == [] then []
    else
      var n := |items| - 1;
      AllGains(items[..n], relevant) + [Gain(Grade(relevant, items[n]))]
  }

  function Least(a: nat, b: nat): nat { if a < b then a else b }

  function AtLeast(): (nat, nat) -> bool { (a, b) => a >= b }

  function Better(): (Judged, Judged) -> bool { (a: Judged, b: Judged) => a.grade >= b.grade }

  function IdealGrades(relevant: seq<Judged>, k: nat): seq<nat> {
    Sort(Grades(relevant), AtLeast())[..Least(k, |Grades(relevant)|)]
  }

  function IdealGains(relevant: seq<Judged>, k: nat): seq<real> { Gains(IdealGrades(relevant, k)) }

  function Ratio(actual: real, ideal: real): real { if ideal == 0.0 then 0.0 else actual / ideal }

  // ---------------------------------------------------------------- the two scores as the benchmark and the experiment compute them

  method IdealScore(relevant: seq<Judged>, k: nat, d: nat -> real) returns (score: real)
    ensures score == Weighted(IdealGains(relevant, k), d, k)
  {
    hide Power;
    var ideal := IdealGrades(relevant, k);
    score := 0.0;
    for rank := 0 to |ideal|
      invariant score == Weighted(Gains(ideal), d, rank)
    {
      GainsAt(ideal, rank);
      score := score + Gain(ideal[rank]) * d(rank);
    }
    WeightedPast(Gains(ideal), d, k);
  }

  /** `ndcg_at_k` of the search benchmark. */
  method NdcgAtK(ranking: seq<string>, relevant: seq<Judged>, k: int, d: nat -> real) returns (score: real)
    requires Dictionary(relevant) && Discount(d)
    ensures 0.0 <= score <= 1.0
    ensures score == if k <= 0 then 0.0 else Ratio(
                       Weighted(FirstGains(ranking[..Least(k, |ranking|)], relevant), d, k),
                       Weighted(IdealGains(relevant, k), d, k))
  {
    if k <= 0 {
      return 0.0;
    }
    hide Power, Gain, IdealGrades, Gains, IdealGains, FirstGains, Grade, Dictionary, Discount;
    var items := ranking[..Least(k, |ranking|)];
    ghost var gains := FirstGains(items, relevant);
    var actual := 0.0;
    var seen: set<string> := {};
    for rank := 0 to |items|
      invariant seen == set i | 0 <= i < rank :: items[i]
      invariant actual == Weighted(gains, d, rank)
    {
      FirstGainsAt(items, relevant, rank);
      assert items[rank] in seen <==> items[rank] in items[..rank];
      var grade := if items[rank] in seen then 0 else Grade(relevant, items[rank]);
      actual := actual + Gain(grade) * d(rank);
      seen := seen + {items[rank]};
    }
    WeightedPast(gains, d, k);
    var ideal := IdealScore(relevant, k, d);
    AtMostIdeal(items, relevant, k, d);
    score := Ratio(actual, ideal);
    if ideal != 0.0 {
      RatioBounds(actual, ideal);
    }
  }

  /** `ndcg_at_k` of the reranker experiment. */
  method PlainNdcgAtK(ranking: seq<string>, relevant: seq<Judged>, k: nat, d: nat -> real) returns (score: real)
    requires Dictionary(relevant) && Discount(d)
    ensures score == Ratio(Weighted(AllGains(ranking[..Least(k, |ranking|)], relevant), d, k),
                           Weighted(IdealGains(relevant, k), d, k))
    ensures Dominated(AllGains(ranking[..Least(k, |ranking|)], relevant), IdealGains(relevant, k), k) ==> score <= 1.0
    ensures EarnsOnce(ranking[..Least(k, |ranking|)], relevant) ==> score <= 1.0
    ensures score >= 0.0
  {
    hide Power, Gain, IdealGrades, Gains;
    var items := ranking[..Least(k, |ranking|)];
    ghost var gains := AllGains(items, relevant);
    var actual := 0.0;
    for rank := 0 to |items|
      invariant actual == Weighted(gains, d, rank)
    {
      AllGainsAt(items, relevant, rank);
      actual := actual + Gain(Grade(relevant, items[rank])) * d(rank);
    }
    WeightedPast(gains, d, k);
    var ideal := IdealScore(relevant, k, d);
    score := Ratio(actual, ideal);
    if EarnsOnce(items, relevant) {
      SameGrades(items, relevant);
      PrefixesAtMostIdeal(items, relevant, k, k);
    }
    PlainScoreBounds(items, relevant, k, d);
  }

  lemma RatioBounds(actual: real, ideal: real)
    requires 0.0 <= actual <= ideal && ideal != 0.0
    ensures 0.0 <= actual / ideal <= 1.0
  {
    var q := actual / ideal;
    assert q * ideal == actual;
    Beyond(q, ideal);
  }

  lemma Beyond(q: real, x: real)
    requires x > 0.0
    ensures q < 0.0 ==> q * x < 0.0
    ensures q > 1.0 ==> q * x > x
  {
  }

  lemma {:induction false} WeightedPast(gs: seq<real>, d: nat -> real, n: nat)
    requires n >= |gs|
    ensures Weighted(gs, d, n) == Weighted(gs, d, |gs|)
  {
    if n > |gs| {
      WeightedPast(gs, d, n - 1);
      assert Term(gs, n - 1) * d(n - 1) == 0.0;
    }
  }

  lemma {:induction false} GainsAt(grades: seq<nat>, i: nat)
    requires i < |grades|
    ensures Gains(grades)[i] == Gain(grades[i])
  {
    if i > 0 {
      GainsAt(grades[1..], i - 1);
    }
  }

  lemma {:induction false} GainsPositive(grades: seq<nat>)
    ensures forall i :: 0 <= i < |grades| ==> Gains(grades)[i] >= 0.0
  {
    if grades != [] {
      GainsPositive(grades[1..]);
    }
  }

  lemma {:induction false} GainsPrefix(grades: seq<nat>, n: nat)
    requires n <= |grades|
    ensures Gains(grades[..n]) == Gains(grades)[..n]
  {
    if n > 0 {
      GainsPrefix(grades[1..], n - 1);
      assert grades[..n][1..] == grades[1..][..n - 1];
    }
  }

  lemma {:induction false} FirstGainsAt(items: seq<string>, relevant: seq<Judged>, i: nat)
    requires i < |items|
    ensures FirstGains(items, relevant)[i] == if items[i] in items[..i] then 0.0 else Gain(Grade(relevant, items[i]))
  {
    var n := |items| - 1;
    if i < n {
      FirstGainsAt(items[..n], relevant, i);
      assert items[..n][..i] == items[..i];
    }
  }

  lemma {:induction false} AllGainsAt(items: seq<string>, relevant: seq<Judged>, i: nat)
    requires i < |items|
    ensures AllGains(items, relevant)[i] == Gain(Grade(relevant, items[i]))
  {
    if i < |items| - 1 {
      AllGainsAt(items[..|items| - 1], relevant, i);
    }
  }

  // ---------------------------------------------------------------- what a grade is worth

  /** Powers of two: they multiply when exponents add, from 2 for 1. */
  lemma {:induction false} PowerAdds(a: nat, b: nat)
    ensures Power(a + b) == Power(a) * Power(b) && Power(1) == 2
  {
    if b > 0 {
      PowerAdds(a, b - 1);
      Doubled(Power(a), Power(b - 1));
      assert Power(a + b) == 2 * Power(a + b - 1) && Power(b) == 2 * Power(b - 1);
    }
  }

  lemma Doubled(x: nat, y: nat)
    ensures x * (2 * y) == 2 * (x * y)
  {
  }

  /** One grade more is worth twice the gain and one, from nothing for grade 0. */
  lemma GainDoubles(grade: nat)
    ensures Gain(0) == 0.0 && Gain(grade + 1) == 2.0 * Gain(grade) + 1.0
  {
  }

  /** The best grade of a case. */
  ghost predicate Best(relevant: seq<Judged>, best: nat) {
    (exists j :: j in relevant && j.grade == best) && forall j :: j in relevant ==> j.grade <= best
  }

  lemma IdealAtOne(relevant: seq<Judged>, best: nat)
    requires Best(relevant, best)
    ensures IdealGains(relevant, 1) == [Gain(best)]
  {
    BestIsFirst(relevant, best);
    var sorted := Sort(Grades(relevant), AtLeast());
    assert sorted[..1] == [best] && Least(1, |sorted|) == 1;
    OneGain(best);
  }

  lemma OneGain(grade: nat)
    ensures Gains([grade]) == [Gain(grade)]
  {
    assert [grade][1..] == [] && Gains([]) == [];
  }

  lemma BestIsFirst(relevant: seq<Judged>, best: nat)
    requires Best(relevant, best)
    ensures var sorted := Sort(Grades(relevant), AtLeast()); sorted != [] && sorted[0] == best
  {
    hide Sort, Grades;
    var grades := Grades(relevant);
    var sorted := Sort(grades, AtLeast());
    GradesAt(relevant);
    SortSorted(grades, AtLeast());
    SameElements(grades, sorted);
    var j :| j in relevant && j.grade == best;
    var i :| 0 <= i < |relevant| && relevant[i] == j;
    assert grades[i] == best && best in sorted && sorted[0] in grades;
    var k :| 0 <= k < |sorted| && sorted[k] == best;
    assert AtLeast()(sorted[0], sorted[k]);
  }

  /**
   One item at rank one: both scores are the gain of its grade over the gain of the best
   grade, whatever the discount.
   */
  lemma OneItemScore(item: string, relevant: seq<Judged>, best: nat, d: nat -> real)
    requires Discount(d) && Best(relevant, best) && best > 0
    ensures FirstGains([item], relevant) == AllGains([item], relevant)
    ensures var score := Ratio(Weighted(FirstGains([item], relevant), d, 1), Weighted(IdealGains(relevant, 1), d, 1));
            score * Gain(best) == Gain(Grade(relevant, item))
  {
    hide Power, IdealGains, Grade;
    IdealAtOne(relevant, best);
    FirstGainsAt([item], relevant, 0);
    AllGainsAt([item], relevant, 0);
    var g, b := Gain(Grade(relevant, item)), Gain(best);
    assert FirstGains([item], relevant) == [g];
    OneWeighs(g, d);
    OneWeighs(b, d);
    Cancels(g, b, d(0));
  }

  lemma OneWeighs(g: real, d: nat -> real)
    ensures Weighted([g], d, 1) == g * d(0)
  {
    assert Weighted([g], d, 1) == Weighted([g], d, 0) + Term([g], 0) * d(0);
  }

  lemma Cancels(g: real, b: real, w: real)
    requires b > 0.0 && w > 0.0
    ensures b * w > 0.0 && (g * w) / (b * w) * b == g
  {
    Positive(b, w);
    var q := (g * w) / (b * w);
    assert q * (b * w) == g * w;
    assert (q * b - g) * w == 0.0;
    if q * b != g {
      Vanishes(q * b - g, w);
    }
  }

  lemma Vanishes(x: real, w: real)
    requires w > 0.0 && x != 0.0
    ensures x * w != 0.0
  {
  }

  /** The lesser of two judged items alone, at grades 1 and 2, scores one third. */
  lemma LesserItemScoresAThird(d: nat -> real)
    requires Discount(d)
    ensures var relevant := [Judged("a", 2), Judged("b", 1)];
            Ratio(Weighted(FirstGains(["b"], relevant), d, 1), Weighted(IdealGains(relevant, 1), d, 1)) == 1.0 / 3.0
  {
    hide Weighted, FirstGains, AllGains, IdealGains, Power, Gain, Discount;
    var relevant := [Judged("a", 2), Judged("b", 1)];
    assert relevant[0] in relevant;
    OneItemScore("b", relevant, 2, d);
    GainDoubles(0);
    GainDoubles(1);
    assert relevant[1..] == [Judged("b", 1)] && Grade(relevant[1..], "b") == 1;
  }

  // ---------------------------------------------------------------- no ranking beats the ideal one

  /** Every prefix sum of `xs`, up to `n`, is at most the same prefix sum of `vs`. */
  ghost predicate Dominated(xs: seq<real>, vs: seq<real>, n: nat) {
    Total(xs, n) <= Total(vs, n) && (n > 0 ==> Dominated(xs, vs, n - 1))
  }

  /** A weighted lead of at least the plain lead times the last weight. */
  ghost predicate Leads(weighted: real, plain: real, weight: real) { weighted >= plain * weight }

  /** Summation by parts: a list whose prefix sums dominate keeps the lead under a discount. */
  lemma {:induction false} Abel(xs: seq<real>, vs: seq<real>, d: nat -> real, n: nat)
    requires Discount(d) && n > 0
    requires Dominated(xs, vs, n)
    ensures Leads(Weighted(vs, d, n) - Weighted(xs, d, n), Total(vs, n) - Total(xs, n), d(n - 1))
  {
    if n == 1 {
      AbelStep(0.0, 0.0, 0.0, 0.0, Term(vs, 0), Term(xs, 0), d(0), d(0));
    } else {
      Abel(xs, vs, d, n - 1);
      AbelStep(Weighted(vs, d, n - 1), Weighted(xs, d, n - 1), Total(vs, n - 1), Total(xs, n - 1),
               Term(vs, n - 1), Term(xs, n - 1), d(n - 2), d(n - 1));
    }
  }

  lemma AbelStep(wv: real, wx: real, tv: real, tx: real, v: real, x: real, a: real, b: real)
    requires Leads(wv - wx, tv - tx, a) && tv >= tx && b <= a
    ensures Leads((wv + v * b) - (wx + x * b), (tv + v) - (tx + x), b)
  {
    Scale(tv - tx, b, a);
    assert ((tv + v) - (tx + x)) * b == (tv - tx) * b + v * b - x * b;
  }

  lemma Scale(x: real, a: real, b: real)
    requires x >= 0.0 && a <= b
    ensures x * a <= x * b
  {
  }

  /** The judged items that a ranking earns something for, each once. */
  ghost function Picked(items: seq<string>, relevant: seq<Judged>): seq<Judged> {
    if items == [] then []
    else
      var n := |items| - 1;
      Picked(items[..n], relevant) +
      if items[n] in items[..n] || Grade(relevant, items[n]) == 0 then []
      else [Judged(items[n], Grade(relevant, items[n]))]
  }

  ghost function Sum(js: seq<Judged>): real {
    if js == [] then 0.0 else Sum(js[..|js| - 1]) + Gain(js[|js| - 1].grade)
  }

  lemma {:induction false} GradeFound(relevant: seq<Judged>, item: string)
    requires Grade(relevant, item) > 0
    ensures Judged(item, Grade(relevant, item)) in relevant
  {
    if relevant[0].item != item {
      GradeFound(relevant[1..], item);
    }
  }

  lemma {:induction false} PickedFrom(items: seq<string>, relevant: seq<Judged>)
    ensures Distinct(Picked(items, relevant)) && |Picked(items, relevant)| <= |items|
    ensures forall p :: p in Picked(items, relevant) ==> p in relevant && p.item in items
  {
    if items != [] {
      hide Grade;
      var n := |items| - 1;
      var before := Picked(items[..n], relevant);
      PickedFrom(items[..n], relevant);
      assert items == items[..n] + [items[n]];
      if items[n] in items[..n] || Grade(relevant, items[n]) == 0 {
        assert Picked(items, relevant) == before;
      } else {
        GradeFound(relevant, items[n]);
        PickedMore(before, Judged(items[n], Grade(relevant, items[n])));
      }
    }
  }

  lemma {:induction false} PickedEarns(items: seq<string>, relevant: seq<Judged>)
    ensures Sum(Picked(items, relevant)) == Total(FirstGains(items, relevant), |items|)
  {
    if items != [] {
      hide Grade, Gain;
      var n := |items| - 1;
      var before := Picked(items[..n], relevant);
      PickedEarns(items[..n], relevant);
      TotalOfPrefix(FirstGains(items[..n], relevant), FirstGains(items, relevant), n);
      if items[n] in items[..n] || Grade(relevant, items[n]) == 0 {
        assert Picked(items, relevant) == before;
      } else {
        var last := Judged(items[n], Grade(relevant, items[n]));
        assert (before + [last])[..|before|] == before;
      }
    }
  }

  lemma PickedMore(before: seq<Judged>, last: Judged)
    requires Distinct(before) && last !in before
    ensures Distinct(before + [last]) && forall p :: p in before + [last] ==> p in before || p == last
  {
  }

  lemma {:induction false} TotalOfPrefix(a: seq<real>, b: seq<real>, n: nat)
    requires forall i :: 0 <= i < n ==> Term(a, i) == Term(b, i)
    ensures Total(a, n) == Total(b, n)
  {
    if n > 0 {
      TotalOfPrefix(a, b, n - 1);
      assert Term(a, n - 1) == Term(b, n - 1);
    }
  }

  lemma {:induction false} TotalFront(gs: seq<real>, n: nat)
    requires n > 0 && gs != []
    ensures Total(gs, n) == gs[0] + Total(gs[1..], n - 1)
  {
    if n > 1 {
      TotalFront(gs, n - 1);
      assert Term(gs, n - 1) == Term(gs[1..], n - 2);
    }
  }

  lemma {:induction false} TotalGrows(gs: seq<real>, n: nat)
    requires forall i :: 0 <= i < |gs| ==> gs[i] >= 0.0
    ensures Total(gs, n) >= 0.0
  {
    if n > 0 {
      TotalGrows(gs, n - 1);
    }
  }

  function Dropped(js: seq<Judged>, i: nat): seq<Judged>
    requires i < |js|
  {
    js[..i] + js[i + 1..]
  }

  lemma {:induction false} SumDropped(js: seq<Judged>, i: nat)
    requires i < |js|
    ensures Sum(js) == Gain(js[i].grade) + Sum(Dropped(js, i))
  {
    var n := |js| - 1;
    if i == n {
      assert Dropped(js, i) == js[..n];
    } else {
      SumDropped(js[..n], i);
      assert Dropped(js, i)[..n - 1] == Dropped(js[..n], i);
    }
  }

  lemma {:induction false} GainGrows(a: nat, b: nat)
    requires a <= b
    ensures Gain(a) <= Gain(b)
  {
    if a < b {
      GainGrows(a, b - 1);
    }
  }

  /** No choice of `n` distinct elements of a list sorted by grade earns more than its first `n`. */
  lemma {:induction false} FirstEarnMost(best: seq<Judged>, chosen: seq<Judged>, n: nat)
    requires Sorted(best, Better()) && Distinct(chosen) && |chosen| <= n
    requires forall c :: c in chosen ==> c in best
    ensures Sum(chosen) <= Total(Gains(Grades(best)), n)
  {
    GainsPositive(Grades(best));
    TotalGrows(Gains(Grades(best)), n);
    if chosen != [] {
      var i := Pick(best, chosen);
      FirstEarnMost(best[1..], Dropped(chosen, i), n - 1);
      SumDropped(chosen, i);
      GainGrows(chosen[i].grade, best[0].grade);
      TotalFront(Gains(Grades(best)), n);
    }
  }

  /** One chosen element that may be given up for the best one. */
  lemma Pick(best: seq<Judged>, chosen: seq<Judged>) returns (i: nat)
    requires Sorted(best, Better()) && Distinct(chosen) && chosen != []
    requires forall c :: c in chosen ==> c in best
    ensures best != [] && i < |chosen| && chosen[i].grade <= best[0].grade
    ensures Distinct(Dropped(chosen, i)) && forall c :: c in Dropped(chosen, i) ==> c in best[1..]
  {
    assert chosen[0] in best;
    i := |chosen| - 1;
    if best[0] in chosen {
      i :| 0 <= i < |chosen| && chosen[i] == best[0];
    }
    assert chosen[i] in best;
    var at :| 0 <= at < |best| && best[at] == chosen[i];
    assert at > 0 ==> Better()(best[0], best[at]);
    assert best == [best[0]] + best[1..];
    forall c | c in Dropped(chosen, i) ensures c in best[1..] {
      assert c in chosen && c != best[0];
    }
  }

  lemma {:induction false} InsertGrades(x: Judged, js: seq<Judged>)
    ensures Grades(Insert(x, js, Better())) == Insert(x.grade, Grades(js), AtLeast())
  {
    if js != [] && !Better()(x, js[0]) {
      InsertGrades(x, js[1..]);
    }
  }

  /** Sorting the judged items and then reading the grades is sorting the grades. */
  lemma {:induction false} SortGrades(js: seq<Judged>)
    ensures Grades(Sort(js, Better())) == Sort(Grades(js), AtLeast())
    ensures |Grades(js)| == |js|
  {
    if js != [] {
      SortGrades(js[1..]);
      InsertGrades(js[0], Sort(js[1..], Better()));
    }
  }

  lemma ItemsAtMostIdeal(items: seq<string>, relevant: seq<Judged>, j: nat)
    requires |items| <= j
    ensures Total(FirstGains(items, relevant), j) <= Total(Gains(Sort(Grades(relevant), AtLeast())), j)
  {
    var best := Sort(relevant, Better());
    SortSorted(relevant, Better());
    SameElements(relevant, best);
    SortGrades(relevant);
    PickedFrom(items, relevant);
    PickedEarns(items, relevant);
    FirstEarnMost(best, Picked(items, relevant), j);
    TotalPast(FirstGains(items, relevant), j);
  }

  /** Every prefix of the ranking earns at most what the ideal ranking earns in as many ranks. */
  lemma PrefixAtMostIdeal(items: seq<string>, relevant: seq<Judged>, k: nat, j: nat)
    requires |items| <= k && j <= k
    ensures Total(FirstGains(items, relevant), j) <= Total(IdealGains(relevant, k), j)
  {
    hide FirstGains, IdealGains, Total, Sort, Gains, Grades;
    var m := Least(j, |items|);
    ItemsAtMostIdeal(items[..m], relevant, j);
    FirstGainsPrefix(items, relevant, m);
    TotalOfPrefix(FirstGains(items[..m], relevant), FirstGains(items, relevant), j);
    IdealPrefix(relevant, k, j);
  }

  lemma IdealPrefix(relevant: seq<Judged>, k: nat, j: nat)
    requires j <= k
    ensures Total(IdealGains(relevant, k), j) == Total(Gains(Sort(Grades(relevant), AtLeast())), j)
  {
    var all := Sort(Grades(relevant), AtLeast());
    GainsPrefix(all, Least(k, |all|));
    TotalOfPrefix(Gains(all), IdealGains(relevant, k), j);
  }

  lemma {:induction false} FirstGainsPrefix(items: seq<string>, relevant: seq<Judged>, m: nat)
    requires m <= |items|
    ensures FirstGains(items[..m], relevant) == FirstGains(items, relevant)[..m]
  {
    if m == |items| {
      assert items[..m] == items;
    } else {
      FirstGainsPrefix(items[..|items| - 1], relevant, m);
      assert items[..|items| - 1][..m] == items[..m];
    }
  }

  lemma {:induction false} TotalPast(gs: seq<real>, n: nat)
    requires n >= |gs|
    ensures Total(gs, n) == Total(gs, |gs|)
  {
    if n > |gs| {
      TotalPast(gs, n - 1);
    }
  }

  lemma {:induction false} WeightedNonNegative(gs: seq<real>, d: nat -> real, n: nat)
    requires Discount(d) && forall i :: 0 <= i < |gs| ==> gs[i] >= 0.0
    ensures Weighted(gs, d, n) >= 0.0
  {
    if n > 0 {
      WeightedNonNegative(gs, d, n - 1);
      Scale(Term(gs, n - 1), 0.0, d(n - 1));
    }
  }

  lemma {:induction false} PrefixesAtMostIdeal(items: seq<string>, relevant: seq<Judged>, k: nat, n: nat)
    requires |items| <= k && n <= k
    ensures Dominated(FirstGains(items, relevant), IdealGains(relevant, k), n)
  {
    PrefixAtMostIdeal(items, relevant, k, n);
    if n > 0 {
      PrefixesAtMostIdeal(items, relevant, k, n - 1);
    }
  }

  lemma LeadIsPositive(weighted: real, plain: real, weight: real)
    requires Leads(weighted, plain, weight) && plain >= 0.0 && weight >= 0.0
    ensures weighted >= 0.0
  {
  }

  lemma Dominates(xs: seq<real>, vs: seq<real>, d: nat -> real, n: nat)
    requires Discount(d) && n > 0
    requires Dominated(xs, vs, n)
    ensures Weighted(xs, d, n) <= Weighted(vs, d, n)
  {
    Abel(xs, vs, d, n);
    LeadIsPositive(Weighted(vs, d, n) - Weighted(xs, d, n), Total(vs, n) - Total(xs, n), d(n - 1));
  }

  /** Whatever it repeats and however long it is, a ranking earns between nothing and the ideal. */
  lemma AtMostIdeal(items: seq<string>, relevant: seq<Judged>, k: nat, d: nat -> real)
    requires Dictionary(relevant) && Discount(d) && |items| <= k
    ensures 0.0 <= Weighted(FirstGains(items, relevant), d, k) <= Weighted(IdealGains(relevant, k), d, k)
  {
    forall i | 0 <= i < |items| ensures FirstGains(items, relevant)[i] >= 0.0 {
      FirstGainsAt(items, relevant, i);
    }
    WeightedNonNegative(FirstGains(items, relevant), d, k);
    if k > 0 {
      PrefixesAtMostIdeal(items, relevant, k, k);
      Dominates(FirstGains(items, relevant), IdealGains(relevant, k), d, k);
    }
  }

  // ---------------------------------------------------------------- what the missing rule costs

  /** No item with a positive grade appears twice. */
  ghost predicate EarnsOnce(items: seq<string>, relevant: seq<Judged>) {
    forall i :: 0 <= i < |items| && items[i] in items[..i] ==> Grade(relevant, items[i]) == 0
  }

  lemma SameGrades(items: seq<string>, relevant: seq<Judged>)
    requires EarnsOnce(items, relevant)
    ensures FirstGains(items, relevant) == AllGains(items, relevant)
  {
    forall i | 0 <= i < |items| ensures FirstGains(items, relevant)[i] == AllGains(items, relevant)[i] {
      FirstGainsAt(items, relevant, i);
      AllGainsAt(items, relevant, i);
    }
  }

  lemma Positive(x: real, a: real)
    requires x >= 0.0 && a > 0.0
    ensures x * a >= 0.0 && (x > 0.0 ==> x * a > 0.0)
  {
  }

  lemma {:induction false} FirstAtMostAll(items: seq<string>, relevant: seq<Judged>, d: nat -> real, n: nat)
    requires Discount(d) && n <= |items|
    ensures Weighted(FirstGains(items, relevant), d, n) <= Weighted(AllGains(items, relevant), d, n)
    ensures (exists i :: 0 <= i < n && items[i] in items[..i] && Grade(relevant, items[i]) > 0) ==>
              Weighted(FirstGains(items, relevant), d, n) < Weighted(AllGains(items, relevant), d, n)
  {
    hide Grade, Gain, FirstGains, AllGains;
    if n > 0 {
      FirstAtMostAll(items, relevant, d, n - 1);
      FirstGainsAt(items, relevant, n - 1);
      AllGainsAt(items, relevant, n - 1);
      Positive(AllGains(items, relevant)[n - 1], d(n - 1));
    }
  }

  /** The two scores agree exactly when no positively graded item is repeated. */
  lemma ScoresAgree(items: seq<string>, relevant: seq<Judged>, d: nat -> real)
    requires Discount(d)
    ensures Weighted(FirstGains(items, relevant), d, |items|) == Weighted(AllGains(items, relevant), d, |items|)
            <==> EarnsOnce(items, relevant)
  {
    if EarnsOnce(items, relevant) {
      SameGrades(items, relevant);
    } else {
      FirstAtMostAll(items, relevant, d, |items|);
    }
  }

  /** Without the rule, repeating the one relevant item scores more than the ideal ranking. */
  lemma RepeatsBeatTheIdeal(d: nat -> real)
    requires Discount(d)
    ensures var relevant := [Judged("a", 1)];
            Ratio(Weighted(AllGains(["a", "a"], relevant), d, 2), Weighted(IdealGains(relevant, 2), d, 2)) > 1.0
  {
    var relevant := [Judged("a", 1)];
    var items := ["a", "a"];
    AllGainsAt(items, relevant, 0);
    AllGainsAt(items, relevant, 1);
    var gains := AllGains(items, relevant);
    assert Grades(relevant) == [1] && Sort([1], AtLeast()) == [1];
    assert Power(1) == 2 && Gain(1) == 1.0;
    assert IdealGains(relevant, 2) == [1.0];
    assert Weighted(gains, d, 1) == d(0) && Weighted(gains, d, 2) == d(0) + d(1);
    assert Weighted([1.0], d, 1) == d(0);
    WeightedPast([1.0], d, 2);
    Exceeds(d(0) + d(1), d(0));
  }

  lemma Exceeds(x: real, y: real)
    requires x > y > 0.0
    ensures x / y > 1.0
  {
    var q := x / y;
    assert q * y == x;
    if q <= 1.0 {
      Scale(y, q, 1.0);
    }
  }

  // ---------------------------------------------------------------- when the plain score stays within [0, 1]

  /** Full weight for the first `j` ranks and little weight behind them. */
  function Step(j: nat, little: real): nat -> real { (rank: nat) => if rank < j then 1.0 else little }

  lemma {:induction false} StepWeighs(gs: seq<real>, j: nat, little: real, n: nat)
    ensures Weighted(gs, Step(j, little), n) ==
            if n <= j then Total(gs, n) else Total(gs, j) + (Total(gs, n) - Total(gs, j)) * little
  {
    if n > 0 {
      StepWeighs(gs, j, little, n - 1);
      if n > j {
        assert (Total(gs, n) - Total(gs, j)) * little == (Total(gs, n - 1) - Total(gs, j)) * little + Term(gs, n - 1) * little;
      }
    }
  }

  lemma Remains(gap: real, loss: real, q: real)
    requires gap > 0.0 && loss > 0.0 && q * (gap + loss) == gap
    ensures 0.0 < q <= 1.0 && gap - loss * q > 0.0
  {
    Beyond(q, gap + loss);
    assert q != 0.0;
    assert gap - loss * q == gap * q;
    Positive(gap, q);
  }

  /** A lead of `gap` outlasts any later loss if that is given little enough weight. */
  lemma LittleEnough(gap: real, loss: real) returns (little: real)
    requires gap > 0.0
    ensures 0.0 < little <= 1.0 && gap - loss * little > 0.0
  {
    if loss <= 0.0 {
      little := 1.0;
    } else {
      little := gap / (gap + loss);
      assert little * (gap + loss) == gap;
      Remains(gap, loss, little);
    }
  }

  lemma {:induction false} FirstLead(xs: seq<real>, vs: seq<real>, k: nat) returns (j: nat)
    requires !Dominated(xs, vs, k)
    ensures j <= k && Total(xs, j) > Total(vs, j)
  {
    j := k;
    if Total(xs, k) <= Total(vs, k) {
      j := FirstLead(xs, vs, k - 1);
    }
  }

  /** A list that leads in one prefix sum earns more under some discount. */
  lemma LeadIsFelt(xs: seq<real>, vs: seq<real>, k: nat) returns (d: nat -> real)
    requires !Dominated(xs, vs, k)
    ensures Discount(d) && Weighted(xs, d, k) > Weighted(vs, d, k)
  {
    var j := FirstLead(xs, vs, k);
    var gap := Total(xs, j) - Total(vs, j);
    var after, behind := Total(xs, k) - Total(xs, j), Total(vs, k) - Total(vs, j);
    var little := LittleEnough(gap, behind - after);
    d := Step(j, little);
    StepWeighs(xs, j, little, k);
    StepWeighs(vs, j, little, k);
    assert (behind - after) * little == behind * little - after * little;
  }

  /** One list earns at most what another does, under every discount, exactly when its prefix sums are dominated. */
  lemma DominatedExactly(xs: seq<real>, vs: seq<real>, k: nat)
    ensures (forall d: nat -> real :: Discount(d) ==> Weighted(xs, d, k) <= Weighted(vs, d, k)) <==> Dominated(xs, vs, k)
  {
    if Dominated(xs, vs, k) {
      forall d: nat -> real | Discount(d) ensures Weighted(xs, d, k) <= Weighted(vs, d, k) {
        if k > 0 {
          Dominates(xs, vs, d, k);
        }
      }
    } else {
      var d := LeadIsFelt(xs, vs, k);
    }
  }

  lemma OneEarns(item: string, relevant: seq<Judged>, k: nat, d: nat -> real)
    requires Dictionary(relevant) && Discount(d) && k > 0 && Grade(relevant, item) > 0
    ensures Weighted(IdealGains(relevant, k), d, k) > 0.0
  {
    hide Grade, Power, IdealGains;
    var one := FirstGains([item], relevant);
    AtMostIdeal([item], relevant, k, d);
    FirstGainsAt([item], relevant, 0);
    Positive(one[0], d(0));
    WeightedPast(one, d, k);
    assert Weighted(one, d, 1) == one[0] * d(0);
  }

  /** Whatever earns anything at all, the ideal earns something. */
  lemma {:induction false} IdealEarns(items: seq<string>, relevant: seq<Judged>, k: nat, d: nat -> real, n: nat)
    requires Dictionary(relevant) && Discount(d) && |items| <= k && n <= k
    requires Weighted(AllGains(items, relevant), d, n) > 0.0
    ensures Weighted(IdealGains(relevant, k), d, k) > 0.0
  {
    hide IdealGains, Grade, AllGains, Power, Dictionary, Discount;
    if n > |items| || AllGains(items, relevant)[n - 1] == 0.0 {
      IdealEarns(items, relevant, k, d, n - 1);
    } else {
      AllGainsAt(items, relevant, n - 1);
      OneEarns(items[n - 1], relevant, k, d);
    }
  }

  lemma AllGainsPositive(items: seq<string>, relevant: seq<Judged>, k: nat, d: nat -> real)
    requires Discount(d)
    ensures Weighted(AllGains(items, relevant), d, k) >= 0.0
  {
    forall i | 0 <= i < |items| ensures AllGains(items, relevant)[i] >= 0.0 {
      AllGainsAt(items, relevant, i);
    }
    WeightedNonNegative(AllGains(items, relevant), d, k);
  }

  function PlainScore(items: seq<string>, relevant: seq<Judged>, k: nat, d: nat -> real): real {
    Ratio(Weighted(AllGains(items, relevant), d, k), Weighted(IdealGains(relevant, k), d, k))
  }

  /** The plain score is at most one exactly when the ranking earns at most the ideal. */
  lemma PlainScoreBounds(items: seq<string>, relevant: seq<Judged>, k: nat, d: nat -> real)
    requires Dictionary(relevant) && Discount(d) && |items| <= k
    ensures PlainScore(items, relevant, k, d) >= 0.0
    ensures PlainScore(items, relevant, k, d) <= 1.0 <==>
            Weighted(AllGains(items, relevant), d, k) <= Weighted(IdealGains(relevant, k), d, k)
    ensures Dominated(AllGains(items, relevant), IdealGains(relevant, k), k) ==> PlainScore(items, relevant, k, d) <= 1.0
  {
    hide AllGains, IdealGains, Weighted;
    var actual, ideal := Weighted(AllGains(items, relevant), d, k), Weighted(IdealGains(relevant, k), d, k);
    AllGainsPositive(items, relevant, k, d);
    AtMostIdeal([], relevant, k, d);
    if actual > 0.0 {
      IdealEarns(items, relevant, k, d, k);
    }
    if 0.0 < ideal < actual {
      Exceeds(actual, ideal);
    } else if ideal > 0.0 {
      RatioBounds(actual, ideal);
    }
    if Dominated(AllGains(items, relevant), IdealGains(relevant, k), k) {
      DominatedExactly(AllGains(items, relevant), IdealGains(relevant, k), k);
    }
  }

  /**
   Without the rule for repeats the score stays within [0, 1] under every discount if and
   only if no prefix of the ranking earns more than as many ranks of the ideal.
   */
  lemma PlainScoreWithinOne(items: seq<string>, relevant: seq<Judged>, k: nat)
    requires Dictionary(relevant) && |items| <= k
    ensures (forall d: nat -> real :: Discount(d) ==> 0.0 <= PlainScore(items, relevant, k, d) <= 1.0)
            <==> Dominated(AllGains(items, relevant), IdealGains(relevant, k), k)
  {
    hide AllGains, IdealGains, Weighted, Dominated, PlainScore;
    forall d: nat -> real | Discount(d)
      ensures 0.0 <= PlainScore(items, relevant, k, d)
      ensures PlainScore(items, relevant, k, d) <= 1.0 <==>
              Weighted(AllGains(items, relevant), d, k) <= Weighted(IdealGains(relevant, k), d, k)
    {
      PlainScoreBounds(items, relevant, k, d);
    }
    DominatedExactly(AllGains(items, relevant), IdealGains(relevant, k), k);
  }

  function Items(js: seq<Judged>): seq<string> {
    if js == [] then [] else Items(js[..|js| - 1]) + [js[|js| - 1].item]
  }

  lemma ItemsOfDictionary(js: seq<Judged>, relevant: seq<Judged>)
    requires Dictionary(relevant) && multiset(js) == multiset(relevant)
    ensures Dictionary(js) && forall i :: 0 <= i < |js| ==> Grade(relevant, js[i].item) == js[i].grade
  {
    SameElements(js, relevant);
    DistinctByCount(relevant, js);
    forall i | 0 <= i < |js| ensures Grade(relevant, js[i].item) == js[i].grade {
      assert js[i] in relevant;
      GradeOfMember(relevant, js[i]);
    }
  }

  /** The bound is met: ranking the judged items by grade scores exactly the ideal. */
  lemma IdealRankingScoresOne(relevant: seq<Judged>, k: nat, d: nat -> real)
    requires Dictionary(relevant)
    ensures var best := Items(Sort(relevant, Better()));
            Weighted(FirstGains(best[..Least(k, |best|)], relevant), d, k) == Weighted(IdealGains(relevant, k), d, k)
  {
    var sorted := Sort(relevant, Better());
    SortGrades(relevant);
    ItemsOfDictionary(sorted, relevant);
    ItemsAt(sorted);
    RankedGrades(sorted, relevant, Least(k, |sorted|));
  }

  lemma RankedGrades(js: seq<Judged>, relevant: seq<Judged>, m: nat)
    requires Dictionary(js) && m <= |js| && |Items(js)| == |js|
    requires forall i :: 0 <= i < |js| ==> Grade(relevant, js[i].item) == js[i].grade
    ensures |Grades(js)| == |js| && FirstGains(Items(js)[..m], relevant) == Gains(Grades(js)[..m])
  {
    ItemsAt(js);
    GradesAt(js);
    var items := Items(js)[..m];
    forall i | 0 <= i < m ensures FirstGains(items, relevant)[i] == Gains(Grades(js)[..m])[i] {
      FirstGainsAt(items, relevant, i);
      GainsAt(Grades(js)[..m], i);
      assert items[i] !in items[..i];
    }
  }

  lemma {:induction false} ItemsAt(js: seq<Judged>)
    ensures |Items(js)| == |js| && forall i :: 0 <= i < |js| ==> Items(js)[i] == js[i].item
  {
    if js != [] {
      ItemsAt(js[..|js| - 1]);
    }
  }

  lemma {:induction false} GradesAt(js: seq<Judged>)
    ensures |Grades(js)| == |js| && forall i :: 0 <= i < |js| ==> Grades(js)[i] == js[i].grade
  {
    if js != [] {
      GradesAt(js[1..]);
    }
  }

  lemma {:induction false} GradeOfMember(relevant: seq<Judged>, j: Judged)
    requires Dictionary(relevant) && j in relevant
    ensures Grade(relevant, j.item) == j.grade
  {
    if relevant[0] != j {
      assert relevant == [relevant[0]] + relevant[1..];
      var i :| 0 <= i < |relevant| && relevant[i] == j;
      GradeOfMember(relevant[1..], j);
    }
  }
}
