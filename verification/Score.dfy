/** Fixed-point normalisation of the six weighted dimensions. */
module Score {
  import opened Types

  /** A configured weight (16-bit unsigned in the program). */
  type Weight = n: nat | n < 0x1_0000

  datatype Weights = Weights(
    scope: Weight,
    ambiguity: Weight,
    cost: Weight,
    runtime: Weight,
    depth: Weight,
    verification: Weight)
  {
    function Total(): nat {
      scope + ambiguity + cost + runtime + depth + verification
    }
  }

  const DEFAULT_WEIGHTS := Weights(20, 20, 20, 15, 15, 10)

  /** One dimension's share of the weighted sum. */
  function Share(score: BoundedScore, w: Weight): (share: nat)
    ensures share <= 4 * w
  {
    assert score * w <= 4 * w;
    score * w
  }

  function Weighted(d: Dimensions, w: Weights): (sum: nat)
    ensures sum <= 4 * w.Total()
  {
    Share(d.scope, w.scope) + Share(d.ambiguity, w.ambiguity) + Share(d.cost, w.cost)
    + Share(d.runtime, w.runtime) + Share(d.depth, w.depth) + Share(d.verification, w.verification)
  }

  /** `n / m` rounded to the nearest whole number. */
  function Rounded(n: nat, m: nat): nat
    requires 0 < m
  {
    (n + m / 2) / m
  }

  function NormalizedScore(d: Dimensions, w: Weights): nat {
    if w.Total() == 0 then 0
    else
      var raw := Rounded(Weighted(d, w) * 100, 4 * w.Total());
      if raw > 100 then 100 else raw
  }

  lemma ShareMonotone(a: BoundedScore, b: BoundedScore, w: Weight)
    requires a <= b
    ensures Share(a, w) <= Share(b, w)
  {
    assert a * w <= b * w;
  }

  lemma ProductsOrder(a: int, b: int, m: nat)
    requires a <= b
    ensures a * m <= b * m
  {
  }

  lemma QuotientBounds(n: nat, m: nat)
    requires 0 < m
    ensures n / m * m <= n < (n / m + 1) * m
  {
  }

  lemma RoundedMonotone(a: nat, b: nat, m: nat)
    requires a <= b && 0 < m
    ensures Rounded(a, m) <= Rounded(b, m)
  {
    QuotientBounds(a + m / 2, m);
    QuotientBounds(b + m / 2, m);
    if Rounded(b, m) < Rounded(a, m) {
      ProductsOrder(Rounded(b, m) + 1, Rounded(a, m), m);
    }
  }

  lemma WeightedMonotone(d: Dimensions, e: Dimensions, w: Weights)
    requires d.Leq(e)
    ensures Weighted(d, w) <= Weighted(e, w)
  {
    ShareMonotone(d.scope, e.scope, w.scope);
    ShareMonotone(d.ambiguity, e.ambiguity, w.ambiguity);
    ShareMonotone(d.cost, e.cost, w.cost);
    ShareMonotone(d.runtime, e.runtime, w.runtime);
    ShareMonotone(d.depth, e.depth, w.depth);
    ShareMonotone(d.verification, e.verification, w.verification);
  }

  /** Raising dimensions never lowers the score. */
  lemma ScoreMonotone(d: Dimensions, e: Dimensions, w: Weights)
    requires d.Leq(e)
    ensures NormalizedScore(d, w) <= NormalizedScore(e, w)
  {
    if w.Total() != 0 {
      WeightedMonotone(d, e, w);
      RoundedMonotone(Weighted(d, w) * 100, Weighted(e, w) * 100, 4 * w.Total());
    }
  }

  /** Rounding is within half a unit, and a ratio within a limit is not rounded past it. */
  lemma RoundedIsNearest(n: nat, m: nat, limit: nat)
    requires 0 < m
    ensures 2 * (Rounded(n, m) * m) - m <= 2 * n <= 2 * (Rounded(n, m) * m) + m
    ensures n <= limit * m ==> Rounded(n, m) <= limit
  {
    QuotientBounds(n + m / 2, m);
    if Rounded(n, m) > limit {
      ProductsOrder(limit + 1, Rounded(n, m), m);
    }
  }

  /**
   * The score is the exact percentage rounded to the nearest whole point, it never passes 100,
   * and every intermediate value of the computation fits 32 unsigned bits.
   */
  lemma ScoreIsNearestPercentage(d: Dimensions, w: Weights)
    ensures NormalizedScore(d, w) <= 100
    ensures Weighted(d, w) * 100 + 2 * w.Total() < 0x1_0000_0000
    ensures w.Total() != 0 ==>
      var m := 4 * w.Total();
      2 * (NormalizedScore(d, w) * m) - m <= 200 * Weighted(d, w) <= 2 * (NormalizedScore(d, w) * m) + m
  {
    if w.Total() != 0 {
      RoundedIsNearest(Weighted(d, w) * 100, 4 * w.Total(), 100);
    }
  }

  /** Without any weight every task scores 0; with one weight only, its dimension alone is the score. */
  lemma OnlyWeightedDimensionsCount(d: Dimensions, w: Weights)
    ensures w.Total() == 0 ==> NormalizedScore(d, w) == 0
    ensures w.Total() == w.scope > 0 ==> NormalizedScore(d, w) == 25 * d.scope
    ensures w.Total() == w.ambiguity > 0 ==> NormalizedScore(d, w) == 25 * d.ambiguity
    ensures w.Total() == w.cost > 0 ==> NormalizedScore(d, w) == 25 * d.cost
    ensures w.Total() == w.runtime > 0 ==> NormalizedScore(d, w) == 25 * d.runtime
    ensures w.Total() == w.depth > 0 ==> NormalizedScore(d, w) == 25 * d.depth
    ensures w.Total() == w.verification > 0 ==> NormalizedScore(d, w) == 25 * d.verification
  {
    if w.Total() != 0 {
      SingleWeight(d.scope, w.Total());
      SingleWeight(d.ambiguity, w.Total());
      SingleWeight(d.cost, w.Total());
      SingleWeight(d.runtime, w.Total());
      SingleWeight(d.depth, w.Total());
      SingleWeight(d.verification, w.Total());
      NothingWeighted(d, w);
    }
  }

  lemma SingleWeight(score: BoundedScore, total: nat)
    requires total > 0
    ensures Rounded(score * total * 100, 4 * total) == 25 * score
  {
    var m := 4 * total;
    assert score * total * 100 == 25 * score * m;
    QuotientBounds(25 * score * m + m / 2, m);
    var q := Rounded(score * total * 100, m);
    if q < 25 * score { ProductsOrder(q + 1, 25 * score, m); }
    if q > 25 * score { ProductsOrder(25 * score + 1, q, m); }
  }

  lemma NothingWeighted(d: Dimensions, w: Weights)
    ensures w.scope == 0 ==> Share(d.scope, w.scope) == 0
    ensures w.ambiguity == 0 ==> Share(d.ambiguity, w.ambiguity) == 0
    ensures w.cost == 0 ==> Share(d.cost, w.cost) == 0
    ensures w.runtime == 0 ==> Share(d.runtime, w.runtime) == 0
    ensures w.depth == 0 ==> Share(d.depth, w.depth) == 0
    ensures w.verification == 0 ==> Share(d.verification, w.verification) == 0
  {
  }
}
