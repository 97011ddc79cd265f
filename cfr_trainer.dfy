/**
 * The tabular Leduc CFR trainer's information-set node (`cfr_trainer.Node`) with its
 * regret-matching step and average strategy, and the information-set key of
 * `LeducCFRTrainer.get_info_set`.
 */
module CfrTrainer {
  import opened Vectors
  import opened Options
  import RegretMatching
  import Decimal
  import LeducEnv

  const NUM_ACTIONS: nat := 3

  class Node {
    const infoSet: string
    const regretSum: array<real>
    const strategySum: array<real>
    const strategy: array<real>

    ghost predicate Valid()
      reads this
    {
      regretSum.Length == NUM_ACTIONS && strategySum.Length == NUM_ACTIONS &&
      strategy.Length == NUM_ACTIONS &&
      regretSum != strategySum && regretSum != strategy && strategySum != strategy
    }

    /** `__init__`: three zero lists. */
    constructor(infoSet: string)
      ensures Valid() && this.infoSet == infoSet
      ensures fresh(regretSum) && fresh(strategySum) && fresh(strategy)
      ensures regretSum[..] == Zeros(NUM_ACTIONS) && strategySum[..] == Zeros(NUM_ACTIONS)
      ensures strategy[..] == Zeros(NUM_ACTIONS)
    {
      this.infoSet := infoSet;
      regretSum := new real[NUM_ACTIONS](_ => 0.0);
      strategySum := new real[NUM_ACTIONS](_ => 0.0);
      strategy := new real[NUM_ACTIONS](_ => 0.0);
    }

    /**
     * `get_strategy`: overwrite `strategy` with regret matching over the positive
     * regrets (uniform 1/3 when none is positive) and add the strategy, weighted by
     * the realization weight, to `strategySum`. The regrets are not touched.
     */
    method GetStrategy(realizationWeight: real) returns (s: seq<real>)
      requires Valid()
      modifies strategy, strategySum
      ensures Valid()
      ensures s == strategy[..] && s == RegretMatching.MatchRegrets(regretSum[..], 0.0)
      ensures strategySum[..] == Add(old(strategySum[..]), Scale(realizationWeight, s))
      ensures regretSum[..] == old(regretSum[..])
    {
      ghost var regrets := regretSum[..];
      ghost var sums := strategySum[..];
      var normalizingSum := WritePositiveRegrets();
      NormalizeAndAccumulate(normalizingSum, realizationWeight);
      s := strategy[..];
      assert regretSum[..] == regrets;
      MatchedIsRegretMatching(regrets, normalizingSum);
    }

    /** The first loop: each action's positive regret into `strategy`, returning their total. */
    method WritePositiveRegrets() returns (normalizingSum: real)
      requires Valid()
      modifies strategy
      ensures strategy[..] == RegretMatching.Positives(regretSum[..])
      ensures normalizingSum == Sum(strategy[..])
    {
      ghost var pos := RegretMatching.Positives(regretSum[..]);
      normalizingSum := 0.0;
      for a := 0 to NUM_ACTIONS
        invariant forall i :: 0 <= i < a ==> strategy[i] == pos[i]
        invariant normalizingSum == Sum(pos[..a])
      {
        strategy[a] := if regretSum[a] > 0.0 then regretSum[a] else 0.0;
        SumPrefix(pos, a);
        normalizingSum := normalizingSum + strategy[a];
      }
      assert pos[..NUM_ACTIONS] == pos;
    }

    /**
     * The second loop: divide every entry by the total when it is positive, otherwise
     * 1/3 each; then add it, times the realization weight, to `strategySum`.
     */
    method NormalizeAndAccumulate(normalizingSum: real, realizationWeight: real)
      requires Valid()
      modifies strategy, strategySum
      ensures strategy[..] == Rescaled(old(strategy[..]), normalizingSum)
      ensures strategySum[..] == Add(old(strategySum[..]), Scale(realizationWeight, strategy[..]))
    {
      ghost var target := Rescaled(strategy[..], normalizingSum);
      ghost var sumTarget := Add(strategySum[..], Scale(realizationWeight, target));
      for a := 0 to NUM_ACTIONS
        invariant forall i :: 0 <= i < a ==> strategy[i] == target[i] && strategySum[i] == sumTarget[i]
        invariant forall i :: a <= i < NUM_ACTIONS ==> strategy[i] == old(strategy[i]) && strategySum[i] == old(strategySum[i])
      {
        var v := if normalizingSum > 0.0 then strategy[a] / normalizingSum else 1.0 / NUM_ACTIONS as real;
        assert v == target[a];
        strategy[a] := v;
        strategySum[a] := strategySum[a] + realizationWeight * v;
      }
      assert strategy[..] == target;
    }

    /**
     * `get_average_strategy`: `strategySum` scaled to total one when its total is
     * positive, otherwise uniform; with non-negative sums it is a probability vector.
     */
    function GetAverageStrategy(): (r: seq<real>)
      requires Valid()
      reads this, strategySum
      ensures |r| == NUM_ACTIONS
      ensures Sum(strategySum[..]) > 0.0 ==>
                forall a :: 0 <= a < NUM_ACTIONS ==> r[a] * Sum(strategySum[..]) == strategySum[a]
      ensures Sum(strategySum[..]) > 0.0 && NonNegative(strategySum[..]) ==> IsDistribution(r)
      ensures Sum(strategySum[..]) <= 0.0 ==> r == RegretMatching.Uniform(NUM_ACTIONS)
    {
      RegretMatching.AverageOf(strategySum[..], 0.0)
    }
  }

  /** The entries the second loop writes: `pos` over a positive total, else 1/3 each. */
  function Rescaled(pos: seq<real>, total: real): (r: seq<real>)
    ensures |r| == |pos|
    ensures forall j :: 0 <= j < |pos| ==> r[j] == if total > 0.0 then pos[j] / total else 1.0 / NUM_ACTIONS as real
  {
    seq(|pos|, j requires 0 <= j < |pos| => if total > 0.0 then pos[j] / total else 1.0 / NUM_ACTIONS as real)
  }

  lemma MatchedIsRegretMatching(regret: seq<real>, total: real)
    requires |regret| == NUM_ACTIONS && total == Sum(RegretMatching.Positives(regret))
    ensures Rescaled(RegretMatching.Positives(regret), total) == RegretMatching.MatchRegrets(regret, 0.0)
  {
  }

  /**
   * Non-negative realization weights keep the strategy sums non-negative, so the
   * average strategy after any number of `GetStrategy` calls is a distribution
   * once some weight was positive.
   */
  lemma StrategySumStaysNonNegative(sums: seq<real>, weight: real, regret: seq<real>)
    requires |sums| == |regret| > 0 && NonNegative(sums) && weight >= 0.0
    ensures NonNegative(Add(sums, Scale(weight, RegretMatching.MatchRegrets(regret, 0.0))))
  {
    var s := RegretMatching.MatchRegrets(regret, 0.0);
    forall i | 0 <= i < |sums|
      ensures Add(sums, Scale(weight, s))[i] >= 0.0
    {
      assert s[i] >= 0.0;
    }
  }

  /** `"{card}|{board}|{history}"`: the card rank, the board rank or `x`, the action digits. */
  function GetInfoSet(state: LeducEnv.State): string
  {
    var board := if state.board.Some? then Decimal.IntToString(state.board.value.rank) else "x";
    Decimal.IntToString(state.card.rank) + "|" + board + "|" + Decimal.JoinInts(state.history)
  }

  /** The board rank, when a board is shown. */
  function BoardRank(state: LeducEnv.State): Option<int>
  {
    if state.board.Some? then Some(state.board.value.rank) else None
  }

  predicate KeyableState(state: LeducEnv.State)
  {
    0 <= state.card.rank < 10 &&
    (state.board.Some? ==> 0 <= state.board.value.rank < 10) &&
    Decimal.SingleDigits(state.history)
  }

  /** The layout of a key: rank digit, bar, board digit or `x`, bar, one digit per action. */
  lemma InfoSetLayout(state: LeducEnv.State)
    requires KeyableState(state)
    ensures var key := GetInfoSet(state);
            |key| == 4 + |state.history| &&
            key[0] == Decimal.DigitChar(state.card.rank) && key[1] == '|' &&
            key[2] == (if state.board.Some? then Decimal.DigitChar(state.board.value.rank) else 'x') &&
            key[3] == '|' && key[4..] == Decimal.JoinInts(state.history)
  {
    Decimal.JoinSingleDigits(state.history);
  }

  /**
   * Two states get the same key exactly when they agree on the card rank, on the
   * board rank (or its absence) and on the history: the suits, the pot and the
   * round number beyond the board do not enter the key.
   */
  lemma InfoSetKeyInjective(s1: LeducEnv.State, s2: LeducEnv.State)
    requires KeyableState(s1) && KeyableState(s2)
    ensures GetInfoSet(s1) == GetInfoSet(s2) <==>
              s1.card.rank == s2.card.rank && BoardRank(s1) == BoardRank(s2) && s1.history == s2.history
  {
    InfoSetLayout(s1);
    InfoSetLayout(s2);
    var k1, k2 := GetInfoSet(s1), GetInfoSet(s2);
    if k1 == k2 {
      assert Decimal.DigitValue(Decimal.DigitChar(s1.card.rank)) == s1.card.rank;
      assert Decimal.DigitValue(Decimal.DigitChar(s2.card.rank)) == s2.card.rank;
      if s1.board.Some? {
        assert Decimal.IsDigit(k1[2]);
        assert Decimal.DigitValue(Decimal.DigitChar(s1.board.value.rank)) == s1.board.value.rank;
        assert Decimal.DigitValue(Decimal.DigitChar(s2.board.value.rank)) == s2.board.value.rank;
      } else {
        assert !Decimal.IsDigit(k1[2]);
      }
      Decimal.JoinSingleDigitsInjective(s1.history, s2.history);
    }
  }
}
