/** Rescaling rubric weights to sum to exactly 100, counted in hundredths. */
module Weights {

  const HUNDRED: int := 10000

  /** Math.round */
  function Round(x: real): int { (x + 0.5).Floor }

  function Positive(w: real): real { if w < 0.0 then 0.0 else w }

  function Total(ws: seq<real>): (t: real)
    ensures t >= 0.0
  {
    if ws == [] then 0.0 else Total(ws[..|ws| - 1]) + Positive(ws[|ws| - 1])
  }

  function Sum(xs: seq<int>): int {
    if xs == [] then 0 else Sum(xs[..|xs| - 1]) + xs[|xs| - 1]
  }

  /** The exact part of the whole, in hundredths. */
  function Part(x: real, total: real): real
    requires total > 0.0
  {
    x / total * 10000.0
  }

  /** The exact share of a weight. */
  function Share(w: real, total: real): real
    requires total > 0.0
  {
    Part(Positive(w), total)
  }

  function Even(n: nat): int
    requires n > 0
  {
    HUNDRED / n
  }

  /** The weights before the last one takes up the rounding. */
  function Rounded(ws: seq<real>): (xs: seq<int>)
    ensures |xs| == |ws|
  {
    if Total(ws) <= 0.0 then seq(|ws|, i requires 0 <= i < |ws| => Even(|ws|))
    else seq(|ws|, i requires 0 <= i < |ws| => Round(Share(ws[i], Total(ws))))
  }

  function Fixed(xs: seq<int>): (ys: seq<int>)
    ensures |ys| == |xs|
  {
    if xs == [] then [] else xs[|xs| - 1 := xs[|xs| - 1] + (HUNDRED - Sum(xs))]
  }

  function Normalized(ws: seq<real>): seq<int> { Fixed(Rounded(ws)) }

  method TotalOf(ws: seq<real>) returns (t: real)
    ensures t == Total(ws)
  {
    t := 0.0;
    for i := 0 to |ws|
      invariant t == Total(ws[..i])
    {
      assert ws[..i + 1][..i] == ws[..i];
      t := t + Positive(ws[i]);
    }
    assert ws[..|ws|] == ws;
  }

  /** fixRounding: the last slot is overwritten. */
  method FixRounding(items: array<int>)
    modifies items
    ensures items[..] == Fixed(old(items[..]))
  {
    if items.Length == 0 {
      return;
    }
    var sum := 0;
    for i := 0 to items.Length
      invariant sum == Sum(items[..i])
      invariant items[..] == old(items[..])
    {
      assert items[..i + 1][..i] == items[..i];
      sum := sum + items[i];
    }
    assert items[..items.Length] == items[..];
    var diff := HUNDRED - sum;
    if diff != 0 {
      items[items.Length - 1] := items[items.Length - 1] + diff;
    }
    assert items[..] == Fixed(old(items[..]));
  }

  /** normalizeWeights */
  method NormalizeWeights(ws: seq<real>) returns (items: array<int>)
    ensures fresh(items) && items[..] == Normalized(ws)
  {
    var total := TotalOf(ws);
    items := new int[|ws|];
    for i := 0 to |ws|
      invariant forall j :: 0 <= j < i ==> items[j] == Rounded(ws)[j]
    {
      items[i] := if total <= 0.0 then Even(|ws|) else Round(Share(ws[i], total));
    }
    assert items[..] == Rounded(ws);
    FixRounding(items);
  }

  // ---- the sum ----

  /** The rescaled weights sum to exactly 100. */
  lemma SumIsExact(ws: seq<real>)
    requires ws != []
    ensures Sum(Normalized(ws)) == 10000
  {
    var xs, n := Rounded(ws), |ws| - 1;
    assert Fixed(xs)[..n] == xs[..n];
  }

  lemma LastIs(ws: seq<real>)
    requires ws != []
    ensures var n := |ws| - 1; Normalized(ws)[n] == HUNDRED - Sum(Rounded(ws)[..n])
  {
  }

  // ---- distance from the exact shares ----

  lemma RoundNear(x: real)
    ensures x - 0.5 < Round(x) as real <= x + 0.5
  {
  }

  lemma ShareAdds(x: real, y: real, total: real)
    requires total > 0.0
    ensures Part(x, total) + Part(y, total) == Part(x + y, total)
  {
  }

  /** How much the roundings of the first k shares add, each rounded on its own. */
  function Excess(ws: seq<real>, k: nat): real
    requires k <= |ws| && Total(ws) > 0.0
  {
    if k == 0 then 0.0
    else Excess(ws, k - 1) + (Round(Share(ws[k - 1], Total(ws))) as real - Share(ws[k - 1], Total(ws)))
  }

  lemma {:induction false} ExcessBounded(ws: seq<real>, k: nat)
    requires k <= |ws| && Total(ws) > 0.0
    ensures -(k as real) / 2.0 <= Excess(ws, k) <= k as real / 2.0
  {
    if k > 0 {
      ExcessBounded(ws, k - 1);
      RoundNear(Share(ws[k - 1], Total(ws)));
    }
  }

  lemma {:induction false} PrefixSum(ws: seq<real>, k: nat)
    requires k <= |ws| && Total(ws) > 0.0
    ensures Sum(Rounded(ws)[..k]) as real == Part(Total(ws[..k]), Total(ws)) + Excess(ws, k)
  {
    if k > 0 {
      PrefixSum(ws, k - 1);
      assert ws[..k][..k - 1] == ws[..k - 1] && Rounded(ws)[..k][..k - 1] == Rounded(ws)[..k - 1];
      ShareAdds(Total(ws[..k - 1]), Positive(ws[k - 1]), Total(ws));
    }
  }

  lemma Complement(x: real, y: real, total: real)
    requires total > 0.0 && x + y == total
    ensures Part(x, total) == 10000.0 - Part(y, total)
  {
    ShareAdds(x, y, total);
    assert total / total == 1.0;
  }

  /** The last weight is its exact share less what the roundings of the others add. */
  lemma LastExactly(ws: seq<real>)
    requires Total(ws) > 0.0
    ensures var n := |ws| - 1; Normalized(ws)[n] as real == Share(ws[n], Total(ws)) - Excess(ws, n)
  {
    var n := |ws| - 1;
    PrefixSum(ws, n);
    LastIs(ws);
    Complement(Total(ws[..n]), Positive(ws[n]), Total(ws));
  }

  /** The total is the sum of the positive weights. */
  lemma {:induction false} TotalOfParts(ws: seq<real>, vs: seq<real>)
    ensures Total(ws + vs) == Total(ws) + Total(vs)
    decreases |vs|
  {
    if vs == [] {
      assert ws + vs == ws;
    } else {
      var n := |vs| - 1;
      assert (ws + vs)[..|ws + vs| - 1] == ws + vs[..n] && (ws + vs)[|ws + vs| - 1] == vs[n];
      TotalOfParts(ws, vs[..n]);
    }
  }

  lemma TotalOfOne(w: real)
    ensures Total([w]) == if w < 0.0 then 0.0 else w
  {
    assert [w][..0] == [];
  }

  /** Every weight but the last is its share of the positive weights, in hundredths of a percent of the whole and with
      halves rounded up. */
  lemma RoundedExactly(ws: seq<real>, i: nat)
    requires Total(ws) > 0.0 && i < |ws| - 1
    ensures var w, x := Normalized(ws)[i] as real, (if ws[i] < 0.0 then 0.0 else ws[i]) / Total(ws) * 10000.0;
            w - 0.5 <= x < w + 0.5
  {
    RoundNear(Share(ws[i], Total(ws)));
  }

  /** Every weight but the last is within half a hundredth of its exact share, and the last is within half
      a hundredth for each of the others. */
  lemma NearTheShares(ws: seq<real>)
    requires Total(ws) > 0.0
    ensures forall i :: 0 <= i < |ws| - 1 ==>
              Share(ws[i], Total(ws)) - 0.5 <= Normalized(ws)[i] as real <= Share(ws[i], Total(ws)) + 0.5
    ensures var n, last := |ws| - 1, Share(ws[|ws| - 1], Total(ws));
            last - n as real / 2.0 <= Normalized(ws)[n] as real <= last + n as real / 2.0
  {
    var n, total := |ws| - 1, Total(ws);
    forall i | 0 <= i < n
      ensures Share(ws[i], total) - 0.5 <= Normalized(ws)[i] as real <= Share(ws[i], total) + 0.5
    {
      RoundNear(Share(ws[i], total));
    }
    LastExactly(ws);
    ExcessBounded(ws, n);
  }

  // ---- no positive weight ----

  lemma {:induction false} EvenSum(xs: seq<int>, x: int)
    requires forall i :: 0 <= i < |xs| ==> xs[i] == x
    ensures Sum(xs) == |xs| * x
  {
    if xs != [] { EvenSum(xs[..|xs| - 1], x); }
  }

  lemma EvenBound(n: nat)
    requires n > 0
    ensures n * Even(n) <= HUNDRED
  {
  }

  lemma EvenLast(ws: seq<real>)
    requires ws != [] && Total(ws) == 0.0
    ensures Normalized(ws)[|ws| - 1] == HUNDRED - (|ws| - 1) * Even(|ws|)
  {
    EvenSum(Rounded(ws)[..|ws| - 1], Even(|ws|));
    LastIs(ws);
  }

  /** With no positive weight all get the even split rounded down, and the last at least the exact one. */
  lemma EvenSplit(ws: seq<real>)
    requires ws != [] && Total(ws) == 0.0
    ensures forall i :: 0 <= i < |ws| - 1 ==> Normalized(ws)[i] == HUNDRED / |ws|
    ensures Normalized(ws)[|ws| - 1] * |ws| >= HUNDRED
  {
    EvenLast(ws);
    LastOfEven(|ws|, Even(|ws|), Normalized(ws)[|ws| - 1]);
  }

  lemma Expand(x: int, y: int, n: int)
    ensures (x + y) * n == x * n + y * n
  {
  }

  lemma LastOfEven(n: nat, even: int, last: int)
    requires n > 0 && even == Even(n) && last == HUNDRED - (n - 1) * even
    ensures last * n >= HUNDRED
  {
    EvenBound(n);
    var rest := HUNDRED - n * even;
    Expand(n - 1, 1, even);
    Expand(rest, even, n);
    AtLeastOnce(rest, n);
  }

  lemma AtLeastOnce(x: nat, n: nat)
    requires n > 0
    ensures x * n >= x
  {
  }

  // ---- the last weight can be negative ----

  /** What the schema and the editor let through. */
  predicate Receivable(ws: seq<real>) { forall i :: 0 <= i < |ws| ==> 0.0 <= ws[i] <= 100.0 }

  /** Six equal criteria and one just added, which the editor gives the weight 0. */
  function OneAdded(): (ws: seq<real>)
    ensures |ws| == 7 && Receivable(ws)
  {
    seq(6, _ => 1.0) + [0.0]
  }

  lemma {:induction false} SameTotal(ws: seq<real>, w: real)
    requires w >= 0.0 && forall i :: 0 <= i < |ws| ==> ws[i] == w
    ensures Total(ws) == |ws| as real * w
  {
    if ws != [] { SameTotal(ws[..|ws| - 1], w); }
  }

  /** Each of the six rounds up, and the new one pays: it gets -0.02, which the schema refuses. */
  lemma LastCanBeNegative()
    ensures Normalized(OneAdded())[6] == -2 && Sum(Normalized(OneAdded())) == HUNDRED
  {
    var ws := OneAdded();
    SameTotal(ws[..6], 1.0);
    assert Total(ws) == 6.0;
    assert forall i :: 0 <= i < 6 ==> Rounded(ws)[i] == 1667;
    EvenSum(Rounded(ws)[..6], 1667);
    LastIs(ws);
    SumIsExact(ws);
  }

  /** The last weight is negative exactly when the roundings of the others add more than its exact share. */
  lemma NegativeExactly(ws: seq<real>)
    requires Total(ws) > 0.0
    ensures var n := |ws| - 1; Normalized(ws)[n] < 0 <==> Excess(ws, n) > Share(ws[n], Total(ws))
  {
    LastExactly(ws);
  }

  /** Never when its share is at least half a hundredth for each of the others, nor when no weight is
      positive; and no other weight is ever negative. */
  lemma NotNegative(ws: seq<real>)
    requires ws != []
    ensures forall i :: 0 <= i < |ws| - 1 ==> Normalized(ws)[i] >= 0
    ensures Total(ws) == 0.0 || Share(ws[|ws| - 1], Total(ws)) >= (|ws| - 1) as real / 2.0
            ==> Normalized(ws)[|ws| - 1] >= 0
  {
    if Total(ws) == 0.0 {
      EvenSplit(ws);
      FactorPositive(Normalized(ws)[|ws| - 1], |ws|);
    } else {
      OthersNotNegative(ws);
      LastExactly(ws);
      ExcessBounded(ws, |ws| - 1);
    }
  }

  lemma FactorPositive(x: int, n: nat)
    requires x * n > 0
    ensures x > 0
  {
  }

  lemma OthersNotNegative(ws: seq<real>)
    requires Total(ws) > 0.0
    ensures forall i :: 0 <= i < |ws| - 1 ==> Normalized(ws)[i] >= 0
  {
    forall i | 0 <= i < |ws| - 1 ensures Normalized(ws)[i] >= 0 { SharesArePositive(ws[i], Total(ws)); }
  }

  lemma SharesArePositive(w: real, total: real)
    requires total > 0.0
    ensures Share(w, total) >= 0.0
  {
  }
}
