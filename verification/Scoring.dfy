/** Weighted scores and weights that sum to exactly 100. Scores are rounded to tenths, weights to
    hundredths; both are counted as integers of that unit. */
module Scoring {
  import opened Wrappers

  datatype Criterion = Criterion(id: string, weight: real)

  /** A score that is missing or not a finite number is none. */
  datatype Judgment = Judgment(id: string, score: Option<real>)

  function Max(x: real, y: real): real { if x < y then y else x }

  function Min(x: real, y: real): real { if x < y then x else y }

  /** Math.round */
  function Round(x: real): int { (x + 0.5).Floor }

  /** clampScore */
  function ClampScore(n: Option<real>): (r: Option<real>)
    ensures r.Some? <==> n.Some?
    ensures r.Some? ==> r.value == if n.value < 0.0 then 0.0 else if n.value > 100.0 then 100.0 else n.value
  {
    if n.None? then None else Some(Min(100.0, Max(0.0, n.value)))
  }

  /** A Map keeps the last judgment of an id. */
  function JudgmentOf(js: seq<Judgment>, id: string): Option<Judgment> {
    if js == [] then None
    else if js[|js| - 1].id == id then Some(js[|js| - 1])
    else JudgmentOf(js[..|js| - 1], id)
  }

  function ScoreOf(js: seq<Judgment>, id: string): (r: Option<real>)
    ensures r.Some? ==> 0.0 <= r.value <= 100.0
  {
    var j := JudgmentOf(js, id);
    if j.None? then None else ClampScore(j.value.score)
  }

  function Weight(c: Criterion): (w: real)
    ensures w >= 0.0
  {
    Max(0.0, c.weight)
  }

  /** The weight of a criterion with evidence. */
  function Evidenced(js: seq<Judgment>): Criterion -> real {
    (c: Criterion) => if ScoreOf(js, c.id).Some? then Weight(c) else 0.0
  }

  /** Its weight times its score. */
  function Weighted(js: seq<Judgment>): Criterion -> real {
    (c: Criterion) => if ScoreOf(js, c.id).Some? then Weight(c) * ScoreOf(js, c.id).value else 0.0
  }

  function Sum(cs: seq<Criterion>, f: Criterion -> real): real {
    if cs == [] then 0.0 else Sum(cs[..|cs| - 1], f) + f(cs[|cs| - 1])
  }

  function TotalWeight(cs: seq<Criterion>): real { Sum(cs, Weight) }

  function EvidencedWeight(cs: seq<Criterion>, js: seq<Judgment>): real { Sum(cs, Evidenced(js)) }

  function WeightedSum(cs: seq<Criterion>, js: seq<Judgment>): real { Sum(cs, Weighted(js)) }

  const TOLERANCE := 0.000000001

  /** There is enough evidence for an overall score. */
  predicate Enough(total: real, evidenced: real, minCoverage: real) {
    evidenced > 0.0 && total > 0.0 && evidenced / total + TOLERANCE >= minCoverage
  }

  /** The overall score in tenths. */
  function Mean(total: real, evidenced: real, weighted: real, minCoverage: real): Option<int> {
    if Enough(total, evidenced, minCoverage) then Some(Round(weighted / evidenced * 10.0)) else None
  }

  function Overall(cs: seq<Criterion>, js: seq<Judgment>, minCoverage: real): Option<int> {
    Mean(TotalWeight(cs), EvidencedWeight(cs, js), WeightedSum(cs, js), minCoverage)
  }

  /** The share of the total weight that a criterion has. */
  function Normalized(total: real): Criterion -> real {
    (c: Criterion) => if total > 0.0 then Weight(c) / total else 0.0
  }

  datatype Line = Line(id: string, weight: real, normalizedWeight: real, score: Option<real>)

  function LineOf(c: Criterion, js: seq<Judgment>, total: real): Line {
    Line(c.id, Weight(c), Normalized(total)(c), ScoreOf(js, c.id))
  }

  datatype Result = Result(overall: Option<int>, insufficientEvidence: bool, coverage: int, passed: Option<bool>,
                           perCriterion: seq<Line>)

  /** computeWeightedScore; coverage in ten-thousandths. */
  method ComputeWeightedScore(cs: seq<Criterion>, js: seq<Judgment>, minCoverage: real, passingScore: Option<real>)
    returns (r: Result)
    ensures r.overall == Overall(cs, js, minCoverage)
    ensures r.insufficientEvidence <==> r.overall.None?
    ensures var share := if TotalWeight(cs) > 0.0 then EvidencedWeight(cs, js) / TotalWeight(cs) * 10000.0 else 0.0;
            r.coverage as real - 0.5 <= share < r.coverage as real + 0.5
    ensures r.passed.Some? <==> r.overall.Some? && passingScore.Some?
    ensures r.passed.Some? ==> (r.passed.value <==> r.overall.value as real / 10.0 >= passingScore.value)
    ensures |r.perCriterion| == |cs|
    ensures forall i :: 0 <= i < |cs| ==>
              var w := if cs[i].weight > 0.0 then cs[i].weight else 0.0;
              r.perCriterion[i]
              == Line(cs[i].id, w, if TotalWeight(cs) > 0.0 then w / TotalWeight(cs) else 0.0, ScoreOf(js, cs[i].id))
  {
    var totalWeight := AddWeights(cs);
    var evidencedWeight, weightedSum, perCriterion := AddScores(cs, js, totalWeight);
    var coverage := if totalWeight > 0.0 then evidencedWeight / totalWeight else 0.0;
    var insufficient := totalWeight == 0.0 || evidencedWeight == 0.0 || coverage + TOLERANCE < minCoverage;
    var overall := if insufficient then None else Some(Round(weightedSum / evidencedWeight * 10.0));
    var passed :=
      if overall.None? || passingScore.None? then None else Some(overall.value as real / 10.0 >= passingScore.value);
    r := Result(overall, insufficient, Round(coverage * 10000.0), passed, perCriterion);
  }

  lemma SumNext(cs: seq<Criterion>, f: Criterion -> real, i: nat)
    requires i < |cs|
    ensures Sum(cs[..i + 1], f) == Sum(cs[..i], f) + f(cs[i])
  {
    assert cs[..i + 1][..i] == cs[..i];
  }

  method AddWeights(cs: seq<Criterion>) returns (totalWeight: real)
    ensures totalWeight == TotalWeight(cs) && totalWeight >= 0.0
  {
    totalWeight := 0.0;
    for i := 0 to |cs|
      invariant totalWeight == TotalWeight(cs[..i]) && totalWeight >= 0.0
    {
      SumNext(cs, Weight, i);
      totalWeight := totalWeight + Weight(cs[i]);
    }
    assert cs[..|cs|] == cs;
  }

  /** One more criterion: what it adds to the weight with evidence and to the weighted sum. */
  lemma ScoresNext(cs: seq<Criterion>, js: seq<Judgment>, i: nat, w: real, score: Option<real>)
    requires i < |cs| && w == Weight(cs[i]) && score == ScoreOf(js, cs[i].id)
    ensures EvidencedWeight(cs[..i + 1], js) == EvidencedWeight(cs[..i], js) + if score.Some? then w else 0.0
    ensures WeightedSum(cs[..i + 1], js) == WeightedSum(cs[..i], js) + if score.Some? then w * score.value else 0.0
  {
    SumNext(cs, Evidenced(js), i);
    SumNext(cs, Weighted(js), i);
  }

  method AddScores(cs: seq<Criterion>, js: seq<Judgment>, totalWeight: real)
    returns (evidencedWeight: real, weightedSum: real, perCriterion: seq<Line>)
    ensures evidencedWeight == EvidencedWeight(cs, js) && evidencedWeight >= 0.0
    ensures weightedSum == WeightedSum(cs, js)
    ensures |perCriterion| == |cs| && forall i :: 0 <= i < |cs| ==> perCriterion[i] == LineOf(cs[i], js, totalWeight)
  {
    evidencedWeight, weightedSum, perCriterion := 0.0, 0.0, [];
    for i := 0 to |cs|
      invariant evidencedWeight == EvidencedWeight(cs[..i], js) && evidencedWeight >= 0.0
      invariant weightedSum == WeightedSum(cs[..i], js)
      invariant |perCriterion| == i && forall k :: 0 <= k < i ==> perCriterion[k] == LineOf(cs[k], js, totalWeight)
    {
      var w := Weight(cs[i]);
      var score := ScoreOf(js, cs[i].id);
      ScoresNext(cs, js, i, w, score);
      if score.Some? {
        evidencedWeight := evidencedWeight + w;
        weightedSum := weightedSum + w * score.value;
      }
      var normalized := if totalWeight > 0.0 then w / totalWeight else 0.0;
      perCriterion := perCriterion + [Line(cs[i].id, w, normalized, score)];
    }
    assert cs[..|cs|] == cs;
  }

  // ---- normalized weights ----

  lemma DivideSum(x: real, y: real, t: real)
    requires t > 0.0
    ensures (x + y) / t == x / t + y / t
  {
  }

  lemma {:induction false} SumNormalized(cs: seq<Criterion>, total: real)
    requires total > 0.0
    ensures Sum(cs, Normalized(total)) == Sum(cs, Weight) / total
  {
    if cs != [] {
      var n := |cs| - 1;
      SumNormalized(cs[..n], total);
      DivideSum(Sum(cs[..n], Weight), Weight(cs[n]), total);
    }
  }

  lemma Whole(t: real)
    requires t > 0.0
    ensures t / t == 1.0
  {
  }

  /** With a positive total the normalized weights add up to one. */
  lemma NormalizedAddUp(cs: seq<Criterion>)
    requires TotalWeight(cs) > 0.0
    ensures Sum(cs, Normalized(TotalWeight(cs))) == 1.0
  {
    SumNormalized(cs, TotalWeight(cs));
    Whole(TotalWeight(cs));
  }

  // ---- bounds ----

  /** The criterion's score counts: it has evidence and positive weight. */
  predicate Counts(c: Criterion, js: seq<Judgment>) { Weight(c) > 0.0 && ScoreOf(js, c.id).Some? }

  lemma RoundBetween(x: real, lo: int, hi: int)
    requires lo as real <= x <= hi as real
    ensures lo <= Round(x) <= hi
  {
  }

  lemma RoundMonotone(x: real, y: real)
    requires x <= y
    ensures Round(x) <= Round(y)
  {
  }

  /** A weighted sum of tenths lies between lo and hi times its weight. */
  predicate Within(e: real, x: real, lo: real, hi: real) { lo * e <= x * 10.0 <= hi * e }

  lemma Cancel(a: real, b: real, e: real)
    requires e > 0.0 && a * e <= b * e
    ensures a <= b
  {
  }

  lemma DivideBetween(x: real, e: real, lo: real, hi: real)
    requires e > 0.0 && Within(e, x, lo, hi)
    ensures lo <= x / e * 10.0 <= hi
  {
    var q := x / e;
    assert q * e == x;
    assert (q * 10.0) * e == x * 10.0;
    Cancel(lo, q * 10.0, e);
    Cancel(q * 10.0, hi, e);
  }

  lemma ScaleBetween(w: real, s: real, lo: real, hi: real)
    requires w >= 0.0 && (w > 0.0 ==> lo <= s * 10.0 <= hi)
    ensures Within(w, w * s, lo, hi)
  {
    if w > 0.0 {
      assert (s * 10.0 - lo) * w >= 0.0;
      assert (hi - s * 10.0) * w >= 0.0;
    }
  }

  lemma {:induction false} SumBetween(cs: seq<Criterion>, e: Criterion -> real, x: Criterion -> real,
                                     lo: real, hi: real)
    requires forall c :: c in cs ==> Within(e(c), x(c), lo, hi)
    ensures Within(Sum(cs, e), Sum(cs, x), lo, hi)
  {
    if cs != [] {
      var c, rest := cs[|cs| - 1], cs[..|cs| - 1];
      SumBetween(rest, e, x, lo, hi);
      assert c in cs;
      AddBetween(Sum(rest, e), Sum(rest, x), e(c), x(c), lo, hi);
    }
  }

  lemma AddBetween(e: real, x: real, f: real, y: real, lo: real, hi: real)
    requires Within(e, x, lo, hi) && Within(f, y, lo, hi)
    ensures Within(e + f, x + y, lo, hi)
  {
    Distribute(lo, e, f);
    Distribute(hi, e, f);
  }

  lemma TermBetween(c: Criterion, js: seq<Judgment>, lo: real, hi: real)
    requires Counts(c, js) ==> lo <= ScoreOf(js, c.id).value * 10.0 <= hi
    ensures Within(Evidenced(js)(c), Weighted(js)(c), lo, hi)
  {
    if ScoreOf(js, c.id).Some? { ScaleBetween(Weight(c), ScoreOf(js, c.id).value, lo, hi); }
  }

  lemma Distribute(k: real, x: real, y: real)
    ensures k * (x + y) == k * x + k * y
  {
  }

  lemma SumsBetween(cs: seq<Criterion>, js: seq<Judgment>, lo: real, hi: real)
    requires forall c :: c in cs && Counts(c, js) ==> lo <= ScoreOf(js, c.id).value * 10.0 <= hi
    ensures Within(EvidencedWeight(cs, js), WeightedSum(cs, js), lo, hi)
  {
    forall c | c in cs ensures Within(Evidenced(js)(c), Weighted(js)(c), lo, hi) {
      TermBetween(c, js, lo, hi);
    }
    SumBetween(cs, Evidenced(js), Weighted(js), lo, hi);
  }

  /** Rounding does not leave the range of the scores: bounds in tenths on every score that counts bound
      the overall score. */
  lemma OverallBetween(cs: seq<Criterion>, js: seq<Judgment>, minCoverage: real, lo: int, hi: int)
    requires Overall(cs, js, minCoverage).Some?
    requires forall c :: c in cs && Counts(c, js) ==> lo as real <= ScoreOf(js, c.id).value * 10.0 <= hi as real
    ensures lo <= Overall(cs, js, minCoverage).value <= hi
  {
    SumsBetween(cs, js, lo as real, hi as real);
    DivideBetween(WeightedSum(cs, js), EvidencedWeight(cs, js), lo as real, hi as real);
    RoundBetween(WeightedSum(cs, js) / EvidencedWeight(cs, js) * 10.0, lo, hi);
  }

  // ---- what the sums and scores are ----

  /** A sum over all criteria, each once. */
  lemma {:induction false} SumOfParts(cs: seq<Criterion>, ds: seq<Criterion>, f: Criterion -> real)
    ensures Sum(cs + ds, f) == Sum(cs, f) + Sum(ds, f)
    ensures forall c :: Sum([c], f) == f(c)
    decreases |ds|
  {
    forall c ensures Sum([c], f) == f(c) { assert [c][..0] == []; }
    if ds == [] {
      assert cs + ds == cs;
    } else {
      var n := |ds| - 1;
      assert (cs + ds)[..|cs + ds| - 1] == cs + ds[..n] && (cs + ds)[|cs + ds| - 1] == ds[n];
      SumOfParts(cs, ds[..n], f);
    }
  }

  /** The last judgment of an id counts, cut off at 0 and 100; without a number there is no score. */
  lemma {:induction false} ScoreOfLast(js: seq<Judgment>, i: nat)
    requires i < |js| && forall k :: i < k < |js| ==> js[k].id != js[i].id
    ensures ScoreOf(js, js[i].id).Some? <==> js[i].score.Some?
    ensures js[i].score.Some? ==>
              ScoreOf(js, js[i].id).value == if js[i].score.value < 0.0 then 0.0
                                             else if js[i].score.value > 100.0 then 100.0 else js[i].score.value
  {
    LastJudgment(js, i);
  }

  lemma {:induction false} LastJudgment(js: seq<Judgment>, i: nat)
    requires i < |js| && forall k :: i < k < |js| ==> js[k].id != js[i].id
    ensures JudgmentOf(js, js[i].id) == Some(js[i])
  {
    if i < |js| - 1 { LastJudgment(js[..|js| - 1], i); }
  }

  lemma {:induction false} NoJudgment(js: seq<Judgment>, id: string)
    requires forall k :: 0 <= k < |js| ==> js[k].id != id
    ensures ScoreOf(js, id) == None
  {
    if js != [] { NoJudgment(js[..|js| - 1], id); }
  }

  /** The total weight sums the positive weights, the weight with evidence those of criteria with a score. */
  lemma WeightsAre(cs: seq<Criterion>, js: seq<Judgment>)
    ensures TotalWeight(cs) == Sum(cs, Weight) && EvidencedWeight(cs, js) == Sum(cs, Evidenced(js))
    ensures forall c: Criterion :: Weight(c) == if c.weight > 0.0 then c.weight else 0.0
    ensures forall c: Criterion ::
              Evidenced(js)(c) == if c.weight > 0.0 && ScoreOf(js, c.id).Some? then c.weight else 0.0
  {
  }

  /** The overall score is present exactly when the weight with evidence is positive and its share of the
      total reaches the minimum. */
  lemma PresentExactly(cs: seq<Criterion>, js: seq<Judgment>, minCoverage: real)
    ensures EvidencedWeight(cs, js) <= TotalWeight(cs)
    ensures Overall(cs, js, minCoverage).Some?
            <==> EvidencedWeight(cs, js) > 0.0 && EvidencedWeight(cs, js) / TotalWeight(cs) + 0.000000001 >= minCoverage
  {
    SumMonotone(cs, Evidenced(js), Weight);
  }

  /** How far each score lies from m, times its weight. */
  function Deviation(js: seq<Judgment>, m: real): Criterion -> real {
    (c: Criterion) =>
      if c.weight > 0.0 && ScoreOf(js, c.id).Some? then c.weight * (ScoreOf(js, c.id).value - m) else 0.0
  }

  /** What is left of x when each unit of e takes away m. */
  function Less(x: real, m: real, e: real): real { x - m * e }

  lemma LessAdds(x: real, e: real, y: real, f: real, m: real)
    ensures Less(x, m, e) + Less(y, m, f) == Less(x + y, m, e + f)
  {
    Distribute(m, e, f);
  }

  lemma {:induction false} DeviationSum(cs: seq<Criterion>, js: seq<Judgment>, m: real)
    ensures Sum(cs, Deviation(js, m)) == Less(Sum(cs, Weighted(js)), m, Sum(cs, Evidenced(js)))
  {
    if cs != [] {
      var n := |cs| - 1;
      DeviationSum(cs[..n], js, m);
      DeviationOne(cs[n], js, m);
      LessAdds(Sum(cs[..n], Weighted(js)), Sum(cs[..n], Evidenced(js)), Weighted(js)(cs[n]), Evidenced(js)(cs[n]), m);
    }
  }

  lemma DeviationOne(c: Criterion, js: seq<Judgment>, m: real)
    ensures Deviation(js, m)(c) == Less(Weighted(js)(c), m, Evidenced(js)(c))
  {
    TermsAre(c, js);
    if ScoreOf(js, c.id).Some? {
      var w, s := c.weight, ScoreOf(js, c.id).value;
      if w > 0.0 { assert w * (s - m) == w * s - m * w; }
    }
  }

  lemma QuotientExactly(x: real, e: real, m: real)
    requires e > 0.0
    ensures x - m * e == 0.0 <==> m == x / e
  {
    var q := x / e;
    assert q * e == x;
    if m * e == q * e {
      Cancel(m, q, e);
      Cancel(q, m, e);
    }
  }

  lemma RoundExactly(x: real)
    ensures Round(x) as real - 0.5 <= x < Round(x) as real + 0.5
  {
  }

  lemma BalancePoint(x: real, e: real, m: real, d: real, r: int)
    requires e > 0.0 && d == Less(x, m, e) && r == Round(x / e * 10.0)
    ensures d == 0.0 ==> r as real - 0.5 <= m * 10.0 < r as real + 0.5
    ensures d == 0.0 <==> m == x / e
  {
    QuotientExactly(x, e, m);
    if d == 0.0 { RoundExactly(m * 10.0); }
  }

  /** The overall score is, in tenths and with halves rounded up, the number about which the scores with evidence
      balance by their weights; there is no other such number. */
  lemma OverallBalances(cs: seq<Criterion>, js: seq<Judgment>, minCoverage: real, m: real)
    requires Overall(cs, js, minCoverage).Some?
    ensures var overall := Overall(cs, js, minCoverage).value as real;
            Sum(cs, Deviation(js, m)) == 0.0 ==> overall - 0.5 <= m * 10.0 < overall + 0.5
    ensures Sum(cs, Deviation(js, m)) == 0.0 <==> m == WeightedSum(cs, js) / EvidencedWeight(cs, js)
  {
    DeviationSum(cs, js, m);
    BalancePoint(WeightedSum(cs, js), EvidencedWeight(cs, js), m, Sum(cs, Deviation(js, m)),
                 Overall(cs, js, minCoverage).value);
  }

  // ---- monotone, and unchanged by order and scale ----

  /** The same criteria have evidence, and no score is lower. */
  predicate NoLower(cs: seq<Criterion>, js: seq<Judgment>, js': seq<Judgment>) {
    forall c :: c in cs ==> NoLowerScore(ScoreOf(js, c.id), ScoreOf(js', c.id))
  }

  predicate NoLowerScore(x: Option<real>, y: Option<real>) {
    (x.Some? <==> y.Some?) && (x.Some? ==> x.value <= y.value)
  }

  lemma {:induction false} SumMonotone(cs: seq<Criterion>, f: Criterion -> real, g: Criterion -> real)
    requires forall c :: c in cs ==> f(c) <= g(c)
    ensures Sum(cs, f) <= Sum(cs, g)
  {
    if cs != [] { SumMonotone(cs[..|cs| - 1], f, g); }
  }

  /** The terms of one criterion, applied. */
  lemma TermsAre(c: Criterion, js: seq<Judgment>)
    ensures var score := ScoreOf(js, c.id);
            && Evidenced(js)(c) == (if score.Some? then Weight(c) else 0.0)
            && Weighted(js)(c) == (if score.Some? then Weight(c) * score.value else 0.0)
  {
  }

  lemma TermsMonotone(c: Criterion, js: seq<Judgment>, js': seq<Judgment>)
    requires NoLowerScore(ScoreOf(js, c.id), ScoreOf(js', c.id))
    ensures Evidenced(js)(c) == Evidenced(js')(c) && Weighted(js)(c) <= Weighted(js')(c)
  {
    TermsAre(c, js);
    TermsAre(c, js');
    if ScoreOf(js, c.id).Some? { TimesMonotone(Weight(c), ScoreOf(js, c.id).value, ScoreOf(js', c.id).value); }
  }

  lemma SumsMonotone(cs: seq<Criterion>, js: seq<Judgment>, js': seq<Judgment>)
    requires NoLower(cs, js, js')
    ensures EvidencedWeight(cs, js) == EvidencedWeight(cs, js') && WeightedSum(cs, js) <= WeightedSum(cs, js')
  {
    forall c | c in cs ensures Evidenced(js)(c) == Evidenced(js')(c) && Weighted(js)(c) <= Weighted(js')(c) {
      TermsMonotone(c, js, js');
    }
    SumAgrees(cs, Evidenced(js), Evidenced(js'));
    SumMonotone(cs, Weighted(js), Weighted(js'));
  }

  lemma TimesMonotone(w: real, x: real, y: real)
    requires w >= 0.0 && x <= y
    ensures w * x <= w * y
  {
    assert w * (y - x) >= 0.0;
  }

  lemma DivideMonotone(x: real, y: real, e: real)
    requires e > 0.0 && x <= y
    ensures x / e * 10.0 <= y / e * 10.0
  {
  }

  lemma OverallMonotone(cs: seq<Criterion>, js: seq<Judgment>, js': seq<Judgment>, minCoverage: real)
    requires NoLower(cs, js, js')
    ensures Overall(cs, js, minCoverage).Some? <==> Overall(cs, js', minCoverage).Some?
    ensures Overall(cs, js, minCoverage).Some? ==>
              Overall(cs, js, minCoverage).value <= Overall(cs, js', minCoverage).value
  {
    SumsMonotone(cs, js, js');
    if Overall(cs, js, minCoverage).Some? {
      var e := EvidencedWeight(cs, js);
      DivideMonotone(WeightedSum(cs, js), WeightedSum(cs, js'), e);
      RoundMonotone(WeightedSum(cs, js) / e * 10.0, WeightedSum(cs, js') / e * 10.0);
    }
  }

  function Without(cs: seq<Criterion>, i: nat): seq<Criterion>
    requires i < |cs|
  {
    cs[..i] + cs[i + 1..]
  }

  lemma WithoutMultiset(cs: seq<Criterion>, i: nat)
    requires i < |cs|
    ensures multiset(Without(cs, i)) == multiset(cs) - multiset{cs[i]}
  {
    assert cs == cs[..i] + [cs[i]] + cs[i + 1..];
  }

  lemma {:induction false} SumRemove(cs: seq<Criterion>, f: Criterion -> real, i: nat)
    requires i < |cs|
    ensures Sum(cs, f) == Sum(Without(cs, i), f) + f(cs[i])
  {
    var n := |cs| - 1;
    if i == n {
      assert Without(cs, i) == cs[..n];
    } else {
      SumRemove(cs[..n], f, i);
      WithoutLast(cs, i);
    }
  }

  lemma WithoutLast(cs: seq<Criterion>, i: nat)
    requires i < |cs| - 1
    ensures var n := |cs| - 1;
            |Without(cs, i)| == n && Without(cs, i)[..n - 1] == Without(cs[..n], i)
            && Without(cs, i)[n - 1] == cs[n]
  {
  }

  lemma {:induction false} SumReordered(cs: seq<Criterion>, ds: seq<Criterion>, f: Criterion -> real)
    requires multiset(cs) == multiset(ds)
    ensures Sum(cs, f) == Sum(ds, f)
    decreases |cs|
  {
    if cs == [] {
      assert |multiset(ds)| == |ds|;
    } else {
      var n := |cs| - 1;
      assert cs[n] in multiset(ds);
      var i :| 0 <= i < |ds| && ds[i] == cs[n];
      SumRemove(cs, f, n);
      SumRemove(ds, f, i);
      WithoutMultiset(cs, n);
      WithoutMultiset(ds, i);
      SumReordered(Without(cs, n), Without(ds, i), f);
    }
  }

  lemma OverallReordered(cs: seq<Criterion>, ds: seq<Criterion>, js: seq<Judgment>, minCoverage: real)
    requires multiset(cs) == multiset(ds)
    ensures Overall(cs, js, minCoverage) == Overall(ds, js, minCoverage)
  {
    SumReordered(cs, ds, Weight);
    SumReordered(cs, ds, Evidenced(js));
    SumReordered(cs, ds, Weighted(js));
  }

  predicate DistinctIds(js: seq<Judgment>) { forall i, j :: 0 <= i < j < |js| ==> js[i].id != js[j].id }

  /** With distinct ids the judgment found is the judgment there is, wherever it stands. */
  lemma {:induction false} JudgmentFound(js: seq<Judgment>, i: nat)
    requires DistinctIds(js) && i < |js|
    ensures JudgmentOf(js, js[i].id) == Some(js[i])
  {
    var n := |js| - 1;
    if i < n { JudgmentFound(js[..n], i); }
  }

  lemma JudgmentMember(js: seq<Judgment>, id: string)
    ensures JudgmentOf(js, id).Some? ==> JudgmentOf(js, id).value in js && JudgmentOf(js, id).value.id == id
  {
  }

  lemma JudgmentsReordered(js: seq<Judgment>, ks: seq<Judgment>, id: string)
    requires DistinctIds(js) && DistinctIds(ks) && multiset(js) == multiset(ks)
    ensures JudgmentOf(js, id) == JudgmentOf(ks, id)
  {
    JudgmentMember(js, id);
    JudgmentMember(ks, id);
    if JudgmentOf(js, id).Some? {
      assert JudgmentOf(js, id).value in multiset(ks);
      var i :| 0 <= i < |ks| && ks[i] == JudgmentOf(js, id).value;
      JudgmentFound(ks, i);
    }
    if JudgmentOf(ks, id).Some? {
      assert JudgmentOf(ks, id).value in multiset(js);
      var i :| 0 <= i < |js| && js[i] == JudgmentOf(ks, id).value;
      JudgmentFound(js, i);
    }
  }

  lemma {:induction false} SumAgrees(cs: seq<Criterion>, f: Criterion -> real, g: Criterion -> real)
    requires forall c :: c in cs ==> f(c) == g(c)
    ensures Sum(cs, f) == Sum(cs, g)
  {
    if cs != [] { SumAgrees(cs[..|cs| - 1], f, g); }
  }

  /** Neither the order of the criteria nor, with distinct ids, that of the judgments matters. */
  lemma OrderDoesNotMatter(cs: seq<Criterion>, ds: seq<Criterion>, js: seq<Judgment>, ks: seq<Judgment>,
                            minCoverage: real)
    requires multiset(cs) == multiset(ds) && multiset(js) == multiset(ks) && DistinctIds(js) && DistinctIds(ks)
    ensures Overall(cs, js, minCoverage) == Overall(ds, ks, minCoverage)
  {
    forall id ensures ScoreOf(js, id) == ScoreOf(ks, id) { JudgmentsReordered(js, ks, id); }
    SumAgrees(ds, Evidenced(js), Evidenced(ks));
    SumAgrees(ds, Weighted(js), Weighted(ks));
    OverallReordered(cs, ds, js, minCoverage);
  }

  function Scale(c: Criterion, k: real): Criterion { Criterion(c.id, k * c.weight) }

  function Scaled(cs: seq<Criterion>, k: real): (r: seq<Criterion>)
    ensures |r| == |cs|
  {
    seq(|cs|, i requires 0 <= i < |cs| => Scale(cs[i], k))
  }

  /** Scaling a weight scales its term. */
  ghost predicate Scales(f: Criterion -> real, k: real) { forall c :: f(Scale(c, k)) == k * f(c) }

  lemma {:induction false} SumScaled(cs: seq<Criterion>, f: Criterion -> real, k: real)
    requires Scales(f, k)
    ensures Sum(Scaled(cs, k), f) == k * Sum(cs, f)
  {
    if cs != [] {
      var n := |cs| - 1;
      SumScaled(cs[..n], f, k);
      assert Scaled(cs, k)[..n] == Scaled(cs[..n], k);
      Distribute(k, Sum(cs[..n], f), f(cs[n]));
    }
  }

  lemma TermsScaled(c: Criterion, js: seq<Judgment>, k: real)
    requires k > 0.0
    ensures Weight(Scale(c, k)) == k * Weight(c)
    ensures Evidenced(js)(Scale(c, k)) == k * Evidenced(js)(c)
    ensures Weighted(js)(Scale(c, k)) == k * Weighted(js)(c)
  {
    SignScaled(c.weight, k);
    if ScoreOf(js, c.id).Some? { Regroup(k, Weight(c), ScoreOf(js, c.id).value); }
  }

  lemma WeightScales(k: real)
    requires k > 0.0
    ensures Scales(Weight, k)
  {
    forall c ensures Weight(Scale(c, k)) == k * Weight(c) { TermsScaled(c, [], k); }
  }

  lemma EvidencedScales(js: seq<Judgment>, k: real)
    requires k > 0.0
    ensures Scales(Evidenced(js), k)
  {
    forall c ensures Evidenced(js)(Scale(c, k)) == k * Evidenced(js)(c) { TermsScaled(c, js, k); }
  }

  lemma WeightedScales(js: seq<Judgment>, k: real)
    requires k > 0.0
    ensures Scales(Weighted(js), k)
  {
    forall c ensures Weighted(js)(Scale(c, k)) == k * Weighted(js)(c) { TermsScaled(c, js, k); }
  }

  lemma Regroup(k: real, w: real, x: real)
    ensures (k * w) * x == k * (w * x)
  {
  }

  lemma QuotientScaled(x: real, y: real, k: real)
    requires k > 0.0 && y > 0.0
    ensures k * y > 0.0 && (k * x) / (k * y) == x / y
  {
    var q := x / y;
    assert q * y == x;
    assert q * (k * y) == k * x;
  }

  lemma SignScaled(x: real, k: real)
    requires k > 0.0
    ensures k * x > 0.0 <==> x > 0.0
  {
  }

  lemma MeanOfScaled(cs: seq<Criterion>, f: Criterion -> real, g: Criterion -> real, h: Criterion -> real, k: real,
                     minCoverage: real)
    requires k > 0.0 && Scales(f, k) && Scales(g, k) && Scales(h, k)
    ensures var ds := Scaled(cs, k);
            Mean(Sum(ds, f), Sum(ds, g), Sum(ds, h), minCoverage)
            == Mean(Sum(cs, f), Sum(cs, g), Sum(cs, h), minCoverage)
  {
    var ds := Scaled(cs, k);
    SumScaled(cs, f, k);
    SumScaled(cs, g, k);
    SumScaled(cs, h, k);
    MeanScaled(Sum(cs, f), Sum(cs, g), Sum(cs, h), k, Sum(ds, f), Sum(ds, g), Sum(ds, h), minCoverage);
  }

  /** Scaling all weights changes nothing. */
  lemma ScaleDoesNotMatter(cs: seq<Criterion>, js: seq<Judgment>, k: real, minCoverage: real)
    requires k > 0.0
    ensures Overall(Scaled(cs, k), js, minCoverage) == Overall(cs, js, minCoverage)
  {
    WeightScales(k);
    EvidencedScales(js, k);
    WeightedScales(js, k);
    MeanOfScaled(cs, Weight, Evidenced(js), Weighted(js), k, minCoverage);
  }

  lemma MeanScaled(total: real, e: real, x: real, k: real, total': real, e': real, x': real, minCoverage: real)
    requires k > 0.0 && total' == k * total && e' == k * e && x' == k * x
    ensures Mean(total', e', x', minCoverage) == Mean(total, e, x, minCoverage)
  {
    SignScaled(e, k);
    SignScaled(total, k);
    if e > 0.0 { QuotientScaled(x, e, k); }
    if total > 0.0 { QuotientScaled(e, total, k); }
  }
}
