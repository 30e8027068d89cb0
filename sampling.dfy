/**
 * The sampling engine: how many samples an order of `pieces` pieces needs
 * under a sampling rule (`computeSampleCount` of the operator page).
 */
module Sampling {
  import opened Wrappers
  import opened Types

  /** `Math.ceil(a / b)` for a positive divisor: the least `q` with `q * b >= a`. */
  function CeilDiv(a: int, b: int): (q: int)
    requires b > 0
    ensures (q - 1) * b < a <= q * b
  {
    var q := (a + b - 1) / b;
    assert a + b - 1 == q * b + (a + b - 1) % b;
    q
  }

  /** `n` samples of `pps` pieces each account for all `pieces` pieces. */
  predicate Covers(n: int, pieces: int, pps: int) {
    n * pps >= pieces
  }

  /**
   * The required sample count. A rule without a positive `piecesPerSample`
   * falls back to `minSamples ?? 1`; otherwise one sample per started block
   * of `piecesPerSample` pieces, raised to a truthy `minSamples` and then
   * capped by a truthy `maxSamples`. The result is never below 1.
   */
  function SampleCount(pieces: int, rule: SampleRule): (r: int)
    ensures r >= 1
  {
    if rule.piecesPerSample <= 0 then
      Max(rule.minSamples.GetOr(1), 1)
    else
      var count := CeilDiv(pieces, rule.piecesPerSample);
      var raised := if Truthy(rule.minSamples) then Max(count, rule.minSamples.value) else count;
      var capped := if Truthy(rule.maxSamples) then Min(raised, rule.maxSamples.value) else raised;
      Max(capped, 1)
  }

  /** Without a positive `piecesPerSample` the count is `max(minSamples ?? 1, 1)`, whatever the piece count and `maxSamples`. */
  lemma SampleCountFallback(pieces: int, rule: SampleRule, otherPieces: int, otherMax: Option<int>)
    requires rule.piecesPerSample <= 0
    ensures SampleCount(pieces, rule) == Max(rule.minSamples.GetOr(1), 1)
    ensures SampleCount(pieces, rule) == SampleCount(otherPieces, rule.(maxSamples := otherMax))
  {
  }

  /**
   * With a positive `piecesPerSample`, a truthy `maxSamples` caps the count
   * (the floor at 1 wins over a cap below 1). The fallback path ignores the cap.
   */
  lemma SampleCountCapped(pieces: int, rule: SampleRule)
    requires rule.piecesPerSample > 0
    requires Truthy(rule.maxSamples)
    ensures SampleCount(pieces, rule) <= Max(rule.maxSamples.value, 1)
  {
  }

  /** A truthy `minSamples` is a floor, as long as no cap below it is set. */
  lemma SampleCountAtLeastMin(pieces: int, rule: SampleRule)
    requires Truthy(rule.minSamples)
    requires Truthy(rule.maxSamples) ==> rule.maxSamples.value >= rule.minSamples.value
    ensures SampleCount(pieces, rule) >= rule.minSamples.value
  {
  }

  lemma MulMonotone(a: int, b: int, c: int)
    requires a <= b && c > 0
    ensures a * c <= b * c
  {
  }

  /** Without a cap, the required samples account for every piece of the order. */
  lemma SampleCountCoversOrder(pieces: int, rule: SampleRule)
    requires rule.piecesPerSample > 0
    requires !Truthy(rule.maxSamples)
    ensures Covers(SampleCount(pieces, rule), pieces, rule.piecesPerSample)
  {
    var q := CeilDiv(pieces, rule.piecesPerSample);
    MulMonotone(q, SampleCount(pieces, rule), rule.piecesPerSample);
  }

  /**
   * Without `minSamples` and `maxSamples`, the count is the least number of
   * samples (at least one) that accounts for every piece.
   */
  lemma SampleCountLeastCover(pieces: int, rule: SampleRule)
    requires rule.piecesPerSample > 0
    requires !Truthy(rule.minSamples) && !Truthy(rule.maxSamples)
    ensures Covers(SampleCount(pieces, rule), pieces, rule.piecesPerSample)
    ensures forall n :: 1 <= n < SampleCount(pieces, rule) ==> !Covers(n, pieces, rule.piecesPerSample)
  {
    SampleCountCoversOrder(pieces, rule);
    var r := SampleCount(pieces, rule);
    forall n | 1 <= n < r
      ensures !Covers(n, pieces, rule.piecesPerSample)
    {
      MulMonotone(n, r - 1, rule.piecesPerSample);
    }
  }

  /**
   * With a positive `piecesPerSample` and both bounds set (1 <= min <= max),
   * the count is the least cover clamped into [min, max]: below the cap it
   * covers every piece, and above the floor one sample fewer would not.
   */
  lemma SampleCountClamped(pieces: int, rule: SampleRule)
    requires rule.piecesPerSample > 0
    requires Truthy(rule.minSamples) && Truthy(rule.maxSamples)
    requires 1 <= rule.minSamples.value <= rule.maxSamples.value
    ensures var r := SampleCount(pieces, rule);
            rule.minSamples.value <= r <= rule.maxSamples.value
    ensures var r := SampleCount(pieces, rule);
            r < rule.maxSamples.value ==> Covers(r, pieces, rule.piecesPerSample)
    ensures var r := SampleCount(pieces, rule);
            r > rule.minSamples.value ==> !Covers(r - 1, pieces, rule.piecesPerSample)
  {
    var c, r := CeilDiv(pieces, rule.piecesPerSample), SampleCount(pieces, rule);
    if r < rule.maxSamples.value {
      MulMonotone(c, r, rule.piecesPerSample);
    }
    if r > rule.minSamples.value {
      MulMonotone(r - 1, c - 1, rule.piecesPerSample);
    }
  }

  /** With a positive `piecesPerSample` and only `minSamples >= 1` set, the count is the least cover raised to the floor. */
  lemma SampleCountRaised(pieces: int, rule: SampleRule)
    requires rule.piecesPerSample > 0
    requires Truthy(rule.minSamples) && !Truthy(rule.maxSamples)
    requires rule.minSamples.value >= 1
    ensures var r := SampleCount(pieces, rule);
            r >= rule.minSamples.value && Covers(r, pieces, rule.piecesPerSample)
    ensures var r := SampleCount(pieces, rule);
            r > rule.minSamples.value ==> !Covers(r - 1, pieces, rule.piecesPerSample)
  {
    var c, r := CeilDiv(pieces, rule.piecesPerSample), SampleCount(pieces, rule);
    MulMonotone(c, r, rule.piecesPerSample);
    if r > rule.minSamples.value {
      MulMonotone(r - 1, c - 1, rule.piecesPerSample);
    }
  }

  /** With a positive `piecesPerSample` and only `maxSamples >= 1` set, the count is the least positive cover cut at the cap. */
  lemma SampleCountCut(pieces: int, rule: SampleRule)
    requires rule.piecesPerSample > 0
    requires !Truthy(rule.minSamples) && Truthy(rule.maxSamples)
    requires rule.maxSamples.value >= 1
    ensures var r := SampleCount(pieces, rule);
            1 <= r <= rule.maxSamples.value
    ensures var r := SampleCount(pieces, rule);
            r < rule.maxSamples.value ==> Covers(r, pieces, rule.piecesPerSample)
    ensures var r := SampleCount(pieces, rule);
            r > 1 ==> !Covers(r - 1, pieces, rule.piecesPerSample)
  {
    var c, r := CeilDiv(pieces, rule.piecesPerSample), SampleCount(pieces, rule);
    if r < rule.maxSamples.value {
      MulMonotone(c, r, rule.piecesPerSample);
    }
    if r > 1 {
      MulMonotone(r - 1, c - 1, rule.piecesPerSample);
    }
  }

  lemma CeilDivMonotone(a: int, b: int, d: int)
    requires a <= b && d > 0
    ensures CeilDiv(a, d) <= CeilDiv(b, d)
  {
    var qa, qb := CeilDiv(a, d), CeilDiv(b, d);
    if qa > qb {
      MulMonotone(qb, qa - 1, d);
    }
  }

  /** More pieces never need fewer samples. */
  lemma SampleCountMonotone(pieces: int, more: int, rule: SampleRule)
    requires pieces <= more
    ensures SampleCount(pieces, rule) <= SampleCount(more, rule)
  {
    if rule.piecesPerSample > 0 {
      CeilDivMonotone(pieces, more, rule.piecesPerSample);
    }
  }

  /** Worked values of the rule: ceiling, floor, cap, fallback, and the seed order. */
  lemma SampleCountExamples()
    ensures SampleCount(90, SampleRule(30, None, None)) == 3
    ensures SampleCount(91, SampleRule(30, None, None)) == 4
    ensures SampleCount(10, SampleRule(30, Some(2), None)) == 2
    ensures SampleCount(90, SampleRule(30, Some(2), None)) == 3
    ensures SampleCount(1000, SampleRule(30, None, Some(10))) == 10
    ensures SampleCount(5, SampleRule(0, Some(3), None)) == 3
    ensures SampleCount(120, SampleRule(30, Some(1), Some(10))) == 4
  {
  }
}
