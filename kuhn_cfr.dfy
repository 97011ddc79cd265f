/**
 * The Kuhn CFR information-set node (`kuhn_CFR.InfosetNode`): regret matching over
 * the two actions pass and bet, and the average strategy.
 */
module KuhnCfr {
  import opened Vectors
  import RegretMatching

  const NUM_ACTIONS: nat := 2

  class InfosetNode {
    const infoSet: string
    const regretSum: array<real>
    const strategy: array<real>
    const strategySum: array<real>

    ghost predicate Valid()
      reads this
    {
      regretSum.Length == NUM_ACTIONS && strategySum.Length == NUM_ACTIONS &&
      strategy.Length == NUM_ACTIONS &&
      regretSum != strategySum && regretSum != strategy && strategySum != strategy
    }

    /** `__init__`: three zero lists. */
    constructor(infoSet: string)
      ensures Valid() && this.infoSet == infoSet
      ensures fresh(regretSum) && fresh(strategySum) && fresh(strategy)
      ensures regretSum[..] == Zeros(NUM_ACTIONS) && strategySum[..] == Zeros(NUM_ACTIONS)
      ensures strategy[..] == Zeros(NUM_ACTIONS)
    {
      this.infoSet := infoSet;
      regretSum := new real[NUM_ACTIONS](_ => 0.0);
      strategy := new real[NUM_ACTIONS](_ => 0.0);
      strategySum := new real[NUM_ACTIONS](_ => 0.0);
    }

    /**
     * `get_startegy`: the positive regrets divided by their total when the total is
     * nonzero, otherwise 1/2 each; the strategy times the realization weight is added
     * to `strategySum`. As the total of positive parts is never negative, this is
     * regret matching with threshold zero.
     */
    method GetStrategy(realizationWeight: real) returns (s: seq<real>)
      requires Valid()
      modifies strategy, strategySum
      ensures Valid()
      ensures s == strategy[..] && s == RegretMatching.MatchRegrets(regretSum[..], 0.0)
      ensures strategySum[..] == Add(old(strategySum[..]), Scale(realizationWeight, s))
      ensures regretSum[..] == old(regretSum[..])
    {
      ghost var regrets := regretSum[..];
      ghost var sums := strategySum[..];
      var normalizingSum := WritePositiveRegrets();
      NormalizeAndAccumulate(normalizingSum, realizationWeight);
      s := strategy[..];
      assert regretSum[..] == regrets;
      MatchedIsRegretMatching(regrets, normalizingSum);
    }

    /** The first loop: each action's positive regret into `strategy`, returning their total. */
    method WritePositiveRegrets() returns (normalizingSum: real)
      requires Valid()
      modifies strategy
      ensures strategy[..] == RegretMatching.Positives(regretSum[..])
      ensures normalizingSum == Sum(strategy[..])
    {
      ghost var pos := RegretMatching.Positives(regretSum[..]);
      normalizingSum := 0.0;
      for a := 0 to NUM_ACTIONS
        invariant forall i :: 0 <= i < a ==> strategy[i] == pos[i]
        invariant normalizingSum == Sum(pos[..a])
      {
        strategy[a] := if regretSum[a] > 0.0 then regretSum[a] else 0.0;
        SumPrefix(pos, a);
        normalizingSum := normalizingSum + strategy[a];
      }
      assert pos[..NUM_ACTIONS] == pos;
    }

    /**
     * The second loop: divide every entry by the total when it is nonzero, otherwise
     * 1/2 each; then add it, times the realization weight, to `strategySum`.
     */
    method NormalizeAndAccumulate(normalizingSum: real, realizationWeight: real)
      requires Valid()
      modifies strategy, strategySum
      ensures strategy[..] == Rescaled(old(strategy[..]), normalizingSum)
      ensures strategySum[..] == Add(old(strategySum[..]), Scale(realizationWeight, strategy[..]))
    {
      ghost var target := Rescaled(strategy[..], normalizingSum);
      ghost var sumTarget := Add(strategySum[..], Scale(realizationWeight, target));
      for a := 0 to NUM_ACTIONS
        invariant forall i :: 0 <= i < a ==> strategy[i] == target[i] && strategySum[i] == sumTarget[i]
        invariant forall i :: a <= i < NUM_ACTIONS ==> strategy[i] == old(strategy[i]) && strategySum[i] == old(strategySum[i])
      {
        var v := if normalizingSum != 0.0 then strategy[a] / normalizingSum else 1.0 / NUM_ACTIONS as real;
        assert v == target[a];
        strategy[a] := v;
        strategySum[a] := strategySum[a] + realizationWeight * v;
      }
      assert strategy[..] == target;
    }

    /** `get_avg_strategy` on the node's current sums. */
    function GetAvgStrategy(): (r: seq<real>)
      requires Valid()
      reads this, strategySum
      ensures r == AvgStrategy(strategySum[..])
    {
      AvgStrategy(strategySum[..])
    }
  }

  /**
   * The average strategy: the sums scaled to total one when the total is nonzero,
   * otherwise 1/2 each. It always totals one, and is a distribution when the sums are
   * non-negative.
   */
  function AvgStrategy(sums: seq<real>): (r: seq<real>)
    requires |sums| == NUM_ACTIONS
    ensures |r| == NUM_ACTIONS && Sum(r) == 1.0
    ensures Sum(sums) != 0.0 ==> forall i :: 0 <= i < |r| ==> r[i] * Sum(sums) == sums[i]
    ensures NonNegative(sums) ==> IsDistribution(r)
    ensures Sum(sums) == 0.0 ==> r == RegretMatching.Uniform(NUM_ACTIONS)
  {
    if Sum(sums) != 0.0 then
      RegretMatching.Normalized(sums)
    else
      RegretMatching.Uniform(NUM_ACTIONS)
  }

  /** The entries the second loop writes: `pos` over a nonzero total, else 1/2 each. */
  function Rescaled(pos: seq<real>, total: real): (r: seq<real>)
    ensures |r| == |pos|
    ensures forall j :: 0 <= j < |pos| ==> r[j] == if total != 0.0 then pos[j] / total else 1.0 / NUM_ACTIONS as real
  {
    seq(|pos|, j requires 0 <= j < |pos| => if total != 0.0 then pos[j] / total else 1.0 / NUM_ACTIONS as real)
  }

  lemma MatchedIsRegretMatching(regret: seq<real>, total: real)
    requires |regret| == NUM_ACTIONS && total == Sum(RegretMatching.Positives(regret))
    ensures Rescaled(RegretMatching.Positives(regret), total) == RegretMatching.MatchRegrets(regret, 0.0)
  {
    SumNonNegative(RegretMatching.Positives(regret));
  }

  /**
   * On non-negative sums the Kuhn node's nonzero test and the Leduc node's positive
   * test give the same average strategy.
   */
  lemma AvgStrategyAgreesWithAverageOf(sums: seq<real>)
    requires |sums| == NUM_ACTIONS && NonNegative(sums)
    ensures AvgStrategy(sums) == RegretMatching.AverageOf(sums, 0.0)
  {
    SumNonNegative(sums);
  }
}
