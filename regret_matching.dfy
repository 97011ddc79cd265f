/**
 * Regret matching and strategy averaging over one vector of per-action values.
 * The scalar trainers (`cfr_trainer.Node`, `kuhn_CFR.InfosetNode`) apply it to
 * their action lists; the subgame solver applies it to every hand's column.
 */
module RegretMatching {
  import opened Vectors

  /** `max(x, 0)` */
  function PositivePart(x: real): (r: real)
    ensures r >= 0.0 && r >= x
    ensures x > 0.0 ==> r == x
  {
    if x > 0.0 then x else 0.0
  }

  /** `np.maximum(v, 0)` */
  function Positives(v: seq<real>): (r: seq<real>)
    ensures |r| == |v| && NonNegative(r)
    ensures forall i :: 0 <= i < |v| ==> r[i] == PositivePart(v[i])
  {
    seq(|v|, i requires 0 <= i < |v| => PositivePart(v[i]))
  }

  /** Every one of `n` actions with probability `1 / n`. */
  function Uniform(n: nat): (r: seq<real>)
    requires n > 0
    ensures |r| == n && IsDistribution(r)
  {
    SumFill(n, 1.0 / n as real);
    Fill(n, 1.0 / n as real)
  }

  /**
   * The strategy for accumulated regrets `regret`: each action's positive regret
   * divided by the total positive regret when that total exceeds `eps`, otherwise
   * uniform. Whatever the regrets, the result is a probability vector.
   */
  function MatchRegrets(regret: seq<real>, eps: real): (s: seq<real>)
    requires |regret| > 0 && eps >= 0.0
    ensures |s| == |regret| && IsDistribution(s)
    ensures Sum(Positives(regret)) > eps ==>
              forall a :: 0 <= a < |s| ==> (s[a] > 0.0 <==> regret[a] > 0.0)
    ensures Sum(Positives(regret)) <= eps ==> s == Uniform(|regret|)
  {
    var pos := Positives(regret);
    var total := Sum(pos);
    if total > eps then
      NormalizedIsDistribution(pos);
      DivideBy(pos, total)
    else
      Uniform(|regret|)
  }

  /**
   * One entry of the matched strategy with threshold zero, given the total of the
   * positive regrets: a nonzero total is necessarily positive.
   */
  lemma MatchedEntryAtZero(regret: seq<real>, total: real, a: int)
    requires |regret| > 0 && 0 <= a < |regret| && total == Sum(Positives(regret))
    ensures MatchRegrets(regret, 0.0)[a] ==
              if total != 0.0 then PositivePart(regret[a]) / total else 1.0 / |regret| as real
  {
    SumNonNegative(Positives(regret));
  }

  /** The strategy-sum vector scaled to total one (`s / sum(s)`). */
  function Normalized(sums: seq<real>): (r: seq<real>)
    requires Sum(sums) != 0.0
    ensures |r| == |sums|
    ensures Sum(r) == 1.0
    ensures NonNegative(sums) ==> IsDistribution(r)
    ensures forall a :: 0 <= a < |r| ==> r[a] * Sum(sums) == sums[a]
  {
    NormalizedWhenNonNegative(sums);
    SumDivideBy(sums, Sum(sums));
    DivideSelf(Sum(sums));
    DivideBy(sums, Sum(sums))
  }

  lemma NormalizedWhenNonNegative(sums: seq<real>)
    requires Sum(sums) != 0.0
    ensures NonNegative(sums) ==> IsDistribution(DivideBy(sums, Sum(sums)))
  {
    if NonNegative(sums) {
      SumNonNegative(sums);
      NormalizedIsDistribution(sums);
    }
  }

  /**
   * The average strategy from accumulated strategy weights `sums`: normalized when
   * their total exceeds `eps`, otherwise uniform.
   */
  function AverageOf(sums: seq<real>, eps: real): (r: seq<real>)
    requires |sums| > 0 && eps >= 0.0
    ensures |r| == |sums|
    ensures Sum(sums) > eps ==> forall a :: 0 <= a < |r| ==> r[a] * Sum(sums) == sums[a]
    ensures Sum(sums) > eps && NonNegative(sums) ==> IsDistribution(r)
    ensures Sum(sums) <= eps ==> r == Uniform(|sums|)
  {
    if Sum(sums) > eps then Normalized(sums) else Uniform(|sums|)
  }
}
