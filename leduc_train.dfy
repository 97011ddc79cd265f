/**
 * The Leduc ReBeL trainer's data side (`leduc_poker/rebel/train.py`): the bounded
 * replay buffer, and the state changes of the self-play loop `_play_one_game`
 * (round end and board reveal, belief update after an action, bet update). The
 * search, the features pushed and the random draws are inputs.
 */
module LeducTrain {
  import opened Options
  import opened Vectors
  import opened LeducRules
  import LeducSearch
  import Fifo

  /** One `(features, values)` pair. */
  datatype Sample = Sample(features: seq<real>, values: seq<real>)

  /**
   * `deque.append` on a deque with `maxlen = capacity`: the item goes at the end and,
   * when the deque is full, the oldest item drops out.
   */
  function Pushed(buffer: seq<Sample>, item: Sample, capacity: nat): (r: seq<Sample>)
    requires |buffer| <= capacity
    ensures r == Fifo.Newest(buffer + [item], capacity)
    ensures |r| <= capacity
    ensures capacity > 0 ==> r[|r| - 1] == item
  {
    if |buffer| < capacity then buffer + [item]
    else if capacity == 0 then []
    else buffer[1..] + [item]
  }

  class ReplayBuffer {
    var buffer: seq<Sample>
    const capacity: nat

    ghost predicate Valid()
      reads this
    {
      |buffer| <= capacity
    }

    /** `ReplayBuffer(capacity)`: an empty deque with `maxlen = capacity`. */
    constructor(capacity: nat)
      ensures Valid() && buffer == [] && this.capacity == capacity
    {
      buffer := [];
      this.capacity := capacity;
    }

    /** `push`: append the pair, evicting the oldest when full. */
    method Push(features: seq<real>, values: seq<real>)
      requires Valid()
      modifies this
      ensures Valid()
      ensures buffer == Pushed(old(buffer), Sample(features, values), capacity)
    {
      var item := Sample(features, values);
      if |buffer| < capacity {
        buffer := buffer + [item];
      } else if capacity > 0 {
        buffer := buffer[1..] + [item];
      }
    }

    /** `__len__`: never more than the capacity. */
    function Len(): (n: nat)
      reads this
      ensures n == |buffer|
      ensures Valid() ==> n <= capacity
    {
      |buffer|
    }
  }

  /** A buffer fed a stream of pairs holds the newest `capacity` of them, oldest first. */
  lemma {:induction false} BufferHoldsNewest(stream: seq<Sample>, item: Sample, capacity: nat)
    ensures Pushed(Fifo.Newest(stream, capacity), item, capacity) == Fifo.Newest(stream + [item], capacity)
  {
    Fifo.NewestAppend(stream, item, capacity);
  }

  // ---------------------------------------------------------------------------
  // The self-play loop `_play_one_game`
  // ---------------------------------------------------------------------------

  /** The deck of `_play_one_game`: `(rank, suit)` for ranks 0..2 and suits 0..1. */
  const DECK: seq<(int, int)> := [(0, 0), (0, 1), (1, 0), (1, 1), (2, 0), (2, 1)]

  /** The card index `rank * 2 + suit`. */
  function CardIndex(card: (int, int)): (idx: int)
    ensures 0 <= card.0 <= 2 && 0 <= card.1 <= 1 ==> 0 <= idx < NUM_CARDS
    ensures 0 <= card.1 <= 1 ==> idx / 2 == card.0
  {
    card.0 * 2 + card.1
  }

  /** Every deck card gets its own index: card `k` of the deck has index `k`. */
  lemma CardIndexOfDeck(k: nat)
    requires k < |DECK|
    ensures CardIndex(DECK[k]) == k
  {
  }

  /** `r /= r.sum()` with no guard: `None` where the sum is zero (NaN in the source). */
  function DivideBySum(r: seq<real>): (n: Option<seq<real>>)
    ensures n.Some? <==> Sum(r) != 0.0
    ensures n.Some? ==> |n.value| == |r| && Sum(n.value) == 1.0
  {
    if Sum(r) == 0.0 then None
    else
      SumDivideBy(r, Sum(r));
      DivideSelf(Sum(r));
      Some(DivideBy(r, Sum(r)))
  }

  /**
   * The board reveal: the board card's entry of both beliefs is set to 0 and each is
   * divided by its new sum.
   */
  function RevealedBeliefs(r0: seq<real>, r1: seq<real>, boardIdx: nat): Option<(seq<real>, seq<real>)>
    requires boardIdx < |r0| && boardIdx < |r1|
  {
    match DivideBySum(r0[boardIdx := 0.0])
    case None => None
    case Some(n0) =>
      match DivideBySum(r1[boardIdx := 0.0])
      case None => None
      case Some(n1) => Some((n0, n1))
  }

  /**
   * A revealed belief gives the board card probability 0, totals one, and keeps the
   * other cards in the same proportions; the reveal fails (NaN) exactly when a belief
   * had no mass off the board card.
   */
  lemma RevealZeroesBoardCard(r0: seq<real>, r1: seq<real>, boardIdx: nat)
    requires boardIdx < |r0| && boardIdx < |r1|
    ensures RevealedBeliefs(r0, r1, boardIdx).None? <==>
              Sum(r0[boardIdx := 0.0]) == 0.0 || Sum(r1[boardIdx := 0.0]) == 0.0
    ensures RevealedBeliefs(r0, r1, boardIdx).Some? ==>
              var (n0, n1) := RevealedBeliefs(r0, r1, boardIdx).value;
              |n0| == |r0| && |n1| == |r1| &&
              n0[boardIdx] == 0.0 && n1[boardIdx] == 0.0 && Sum(n0) == 1.0 && Sum(n1) == 1.0 &&
              (forall i :: 0 <= i < |r0| && i != boardIdx ==> n0[i] * Sum(r0[boardIdx := 0.0]) == r0[i]) &&
              (forall i :: 0 <= i < |r1| && i != boardIdx ==> n1[i] * Sum(r1[boardIdx := 0.0]) == r1[i])
  {
  }

  /** The acting player's belief after action `a`: times `strat[a]`, normalized when the sum is positive. */
  function ActedBelief(r: seq<real>, strat: seq<real>): (n: seq<real>)
    requires |r| == |strat|
    ensures |n| == |r|
  {
    var m := Mul(r, strat);
    if Sum(m) > 0.0 then DivideBy(m, Sum(m)) else m
  }

  /** With non-negative belief and strategy row, a positive product sum gives a distribution. */
  lemma ActedBeliefIsDistribution(r: seq<real>, strat: seq<real>)
    requires |r| == |strat| && NonNegative(r) && NonNegative(strat)
    requires Sum(Mul(r, strat)) > 0.0
    ensures IsDistribution(ActedBelief(r, strat))
    ensures forall i :: 0 <= i < |r| && strat[i] == 0.0 ==> ActedBelief(r, strat)[i] == 0.0
  {
    var m := Mul(r, strat);
    assert NonNegative(m) by {
      forall i | 0 <= i < |m|
        ensures m[i] >= 0.0
      {
        MulMonotone(r[i], 0.0, strat[i]);
      }
    }
    NormalizedIsDistribution(m);
  }

  /** The driver's own bet update: a call pays the difference, a raise the difference plus 2 or 4. */
  function DriverBets(bets: Chips, active: int, a: int, boardState: Option<int>): Chips
    requires active == 0 || active == 1
  {
    var opponent := 1 - active;
    if a == 1 then
      var diff := bets.At(opponent) - bets.At(active);
      if diff > 0.0 then bets.With(active, bets.At(active) + diff) else bets
    else if a == 2 then
      var diff := bets.At(opponent) - bets.At(active);
      var amount := if boardState.Some? then 4.0 else 2.0;
      bets.With(active, bets.At(active) + diff + amount)
    else bets
  }

  /** The driver moves the bets exactly as the solver's transition does. */
  lemma DriverBetsMatchSolver(bets: Chips, active: int, a: int, boardState: Option<int>)
    requires active == 0 || active == 1
    ensures DriverBets(bets, active, a, boardState) == LeducSearch.ApplyBet(bets, active, a, boardState)
    ensures a == 2 ==> DriverBets(bets, active, a, boardState).At(active) - bets.At(1 - active) ==
                         (if boardState.Some? then 4.0 else 2.0)
    ensures a == 1 && bets.At(active) <= bets.At(1 - active) ==>
              DriverBets(bets, active, a, boardState).p0 == DriverBets(bets, active, a, boardState).p1
  {
  }

  /** What the top of the loop does with the current round. */
  datatype RoundEnd = Play | RevealBoard | GameOver

  /**
   * As written: an ended round without a board reveals the board, and with a board
   * ends the game; the separate fold test after it is never reached by a fold.
   */
  function RoundEndOutcome(history: seq<int>, boardState: Option<int>): RoundEnd
  {
    if IsTerminalRound(history) then
      if boardState.None? then RevealBoard else GameOver
    else if |history| > 0 && Last(history) == FOLD then GameOver
    else Play
  }

  /** A fold in the first round (a raise, then a fold) reveals the board and play goes on. */
  lemma FirstRoundFoldRevealsBoard()
    ensures RoundEndOutcome([BET_RAISE, FOLD], None) == RevealBoard
  {
  }

  /** The evidently intended check: a fold ends the game in either round. */
  function IntendedRoundEndOutcome(history: seq<int>, boardState: Option<int>): (r: RoundEnd)
    ensures |history| > 0 && Last(history) == FOLD ==> r == GameOver
    ensures !(|history| > 0 && Last(history) == FOLD) ==> r == RoundEndOutcome(history, boardState)
  {
    if |history| > 0 && Last(history) == FOLD then GameOver
    else if IsTerminalRound(history) then
      if boardState.None? then RevealBoard else GameOver
    else Play
  }

  /**
   * Under the intended check the game ends exactly on a fold or on a round end once the
   * board is out, and the board is revealed only after a check-check or a called bet.
   */
  lemma IntendedGameEnds(history: seq<int>, boardState: Option<int>)
    ensures IntendedRoundEndOutcome(history, boardState) == GameOver <==>
              (|history| > 0 && Last(history) == FOLD) || (IsTerminalRound(history) && boardState.Some?)
    ensures IntendedRoundEndOutcome(history, boardState) == RevealBoard ==>
              |history| >= 2 && Last(history) == CHECK_CALL
  {
    TerminalRoundCases(history);
  }

  /** The variables of `_play_one_game` that its loop reassigns, with the deal. */
  class SelfPlayGame {
    const c0: int
    const c1: int
    const board: (int, int)
    var history: seq<int>
    var bets: Chips
    var boardState: Option<int>
    var r0: seq<real>
    var r1: seq<real>

    ghost predicate Valid()
      reads this
    {
      |r0| == NUM_CARDS && |r1| == NUM_CARDS && 0 <= CardIndex(board) < NUM_CARDS
    }

    /** The start of `_play_one_game` on the shuffled deck `deck`. */
    constructor(deck: seq<(int, int)>)
      requires multiset(deck) == multiset(DECK)
      ensures Valid()
      ensures c0 == CardIndex(deck[0]) && c1 == CardIndex(deck[1]) && board == deck[2]
      ensures history == [] && bets == Chips(1.0, 1.0) && boardState == None
      ensures r0 == Fill(NUM_CARDS, 1.0 / 6.0) && r1 == Fill(NUM_CARDS, 1.0 / 6.0)
    {
      assert |deck| == |multiset(deck)| == 6;
      assert deck[2] in multiset(DECK);
      c0 := CardIndex(deck[0]);
      c1 := CardIndex(deck[1]);
      board := deck[2];
      history := [];
      bets := Chips(1.0, 1.0);
      boardState := None;
      r0 := Fill(NUM_CARDS, 1.0 / 6.0);
      r1 := Fill(NUM_CARDS, 1.0 / 6.0);
    }

    /**
     * The top of the loop: on a finished round without a board, show the board
     * (its rank), clear the history and renormalize both beliefs without the board
     * card. Requires each belief to keep mass off the board card.
     */
    method CheckRoundEnd() returns (outcome: RoundEnd)
      requires Valid()
      requires RoundEndOutcome(history, boardState) == RevealBoard ==>
                 RevealedBeliefs(r0, r1, CardIndex(board)).Some?
      modifies this
      ensures Valid()
      ensures outcome == RoundEndOutcome(old(history), old(boardState))
      ensures outcome != RevealBoard ==>
                history == old(history) && boardState == old(boardState) && r0 == old(r0) && r1 == old(r1)
      ensures outcome == RevealBoard ==>
                history == [] && boardState == Some(board.0) &&
                (r0, r1) == RevealedBeliefs(old(r0), old(r1), CardIndex(board)).value
      ensures bets == old(bets)
    {
      outcome := RoundEndOutcome(history, boardState);
      if outcome == RevealBoard {
        boardState := Some(board.0);
        history := [];
        var bIdx := CardIndex(board);
        var zeroed0 := r0[bIdx := 0.0];
        var zeroed1 := r1[bIdx := 0.0];
        r0 := DivideBySum(zeroed0).value;
        r1 := DivideBySum(zeroed1).value;
      }
    }

    /**
     * The rest of the loop body once action `a` was sampled with strategy row `strat`
     * (the probabilities of `a` per card): the actor's belief is reweighted, the bets
     * move, and `a` is appended.
     */
    method Act(a: int, strat: seq<real>)
      requires Valid() && |strat| == NUM_CARDS
      modifies this
      ensures Valid()
      ensures var active := |old(history)| % 2;
              (active == 0 ==> r0 == ActedBelief(old(r0), strat) && r1 == old(r1)) &&
              (active == 1 ==> r1 == ActedBelief(old(r1), strat) && r0 == old(r0)) &&
              bets == DriverBets(old(bets), active, a, boardState)
      ensures history == old(history) + [a] && boardState == old(boardState)
    {
      var active := |history| % 2;
      if active == 0 {
        var m := Mul(r0, strat);
        r0 := if Sum(m) > 0.0 then DivideBy(m, Sum(m)) else m;
      } else {
        var m := Mul(r1, strat);
        r1 := if Sum(m) > 0.0 then DivideBy(m, Sum(m)) else m;
      }
      var opponent := 1 - active;
      if a == 1 {
        var diff := bets.At(opponent) - bets.At(active);
        if diff > 0.0 {
          bets := bets.With(active, bets.At(active) + diff);
        }
      } else if a == 2 {
        var diff := bets.At(opponent) - bets.At(active);
        var amount := if boardState.Some? then 4.0 else 2.0;
        bets := bets.With(active, bets.At(active) + diff + amount);
      }
      history := history + [a];
    }
  }
}
