/** The feedback breakdown of a set of alerts and the three percentages
    derived from it.  Python's float division is modelled as exact real
    division. */
module MetricsModels {
  import opened Common

  /** `FeedbackBreakdown`: every count defaults to 0. */
  datatype FeedbackBreakdown = FeedbackBreakdown(total: nat, useful: nat, noise: nat, actionable: nat, unrated: nat)

  const EmptyBreakdown := FeedbackBreakdown(0, 0, 0, 0, 0)

  /** `rated_count`: the alerts given any of the three ratings. */
  function RatedCount(b: FeedbackBreakdown): nat {
    b.useful + b.noise + b.actionable
  }

  /** `usefulness_rate`: the percentage of rated alerts marked useful or
      actionable, None when nothing is rated. */
  function UsefulnessRate(b: FeedbackBreakdown): (r: Option<real>)
    ensures r.None? <==> RatedCount(b) == 0
    ensures r.Some? ==> 0.0 <= r.value <= 100.0
    ensures r.Some? ==> (r.value == 100.0 <==> b.noise == 0) && (r.value == 0.0 <==> b.useful + b.actionable == 0)
  {
    if RatedCount(b) == 0 then None
    else
      PercentOf(b.useful + b.actionable, RatedCount(b));
      Some(((b.useful + b.actionable) as real / RatedCount(b) as real) * 100.0)
  }

  /** `noise_rate`: the percentage of rated alerts marked noise, None when
      nothing is rated. */
  function NoiseRate(b: FeedbackBreakdown): (r: Option<real>)
    ensures r.None? <==> RatedCount(b) == 0
    ensures r.Some? ==> 0.0 <= r.value <= 100.0
    ensures r.Some? ==> (r.value == 0.0 <==> b.noise == 0)
  {
    if RatedCount(b) == 0 then None
    else
      PercentOf(b.noise, RatedCount(b));
      Some((b.noise as real / RatedCount(b) as real) * 100.0)
  }

  /** `rating_rate`: the percentage of all alerts that are rated, 0 when
      there are none; at most 100 whenever the counts do not exceed the
      total. */
  function RatingRate(b: FeedbackBreakdown): (r: real)
    ensures b.total == 0 ==> r == 0.0
    ensures 0.0 <= r
    ensures RatedCount(b) <= b.total ==> r <= 100.0
    ensures b.total > 0 ==> (r == 0.0 <==> RatedCount(b) == 0)
  {
    if b.total == 0 then 0.0
    else (RatedCount(b) as real / b.total as real) * 100.0
  }

  /** Once anything is rated, the useful and noise percentages split 100. */
  lemma RatesComplement(b: FeedbackBreakdown)
    requires RatedCount(b) > 0
    ensures UsefulnessRate(b).value + NoiseRate(b).value == 100.0
  {
    var n := RatedCount(b) as real;
    var u := (b.useful + b.actionable) as real;
    var w := b.noise as real;
    assert u + w == n;
    SharesAdd(u, w, n);
    assert UsefulnessRate(b).value + NoiseRate(b).value == (u / n + w / n) * 100.0;
  }

  /** Shares of a whole that add up to it sum to one. */
  lemma SharesAdd(u: real, w: real, n: real)
    requires n != 0.0 && u + w == n
    ensures u / n + w / n == 1.0
  {
    calc {
      u / n + w / n;
      (u + w) / n;
      n / n;
    }
  }

  /** `k` of `n` as a percentage lies between 0 and 100. */
  lemma PercentOf(k: nat, n: nat)
    requires 0 < n && k <= n
    ensures 0.0 <= (k as real / n as real) * 100.0 <= 100.0
  {
    assert k as real / n as real <= 1.0;
  }
}
