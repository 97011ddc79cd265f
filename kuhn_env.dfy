/**
 * The Kuhn poker environment (`KuhnPokerEnv`): three cards 0 = Jack, 1 = Queen,
 * 2 = King, antes of 1, and actions 0 = pass (check or fold), 1 = bet (bet or call).
 */
module KuhnEnv {
  import opened Options
  import Decimal

  const PASS := 0
  const BET := 1

  /** The `{0: x, 1: y}` reward dictionaries. */
  datatype Rewards = Rewards(p0: int, p1: int)
  {
    function At(p: int): int
      requires p == 0 || p == 1
    {
      if p == 0 then p0 else p1
    }
  }

  /** `{winner: amount, 1 - winner: -amount}` */
  function WinnerTakes(winner: int, amount: int): (r: Rewards)
    requires winner == 0 || winner == 1
    ensures r.At(winner) == amount && r.At(1 - winner) == -amount
  {
    if winner == 0 then Rewards(amount, -amount) else Rewards(-amount, amount)
  }

  /** `_is_terminal`: check-check, anything two long opened by a bet, or anything three long. */
  predicate IsTerminal(h: seq<int>)
  {
    (|h| == 2 && h[0] == PASS && h[1] == PASS) ||
    (|h| == 2 && h[0] == BET) ||
    |h| == 3
  }

  /** The histories in which the two cards are compared. */
  predicate IsShowdown(h: seq<int>)
  {
    h == [PASS, PASS] || h == [BET, BET] || h == [PASS, BET, BET]
  }

  /**
   * `_calculate_payoffs`: the higher card takes 1 after check-check and 2 after a
   * called bet; a fold gives the bettor 1 whatever the cards; any other history pays
   * nothing. A tie of cards counts as a win for player 1.
   */
  function CalculatePayoffs(h: seq<int>, card0: int, card1: int): (r: Rewards)
    ensures r.p0 + r.p1 == 0
    ensures IsShowdown(h) ==> (r.p0 > 0 <==> card0 > card1)
    ensures h == [PASS, PASS] ==> r.p0 == 1 || r.p0 == -1
    ensures h == [BET, BET] || h == [PASS, BET, BET] ==> r.p0 == 2 || r.p0 == -2
    ensures h == [BET, PASS] ==> r == Rewards(1, -1)
    ensures h == [PASS, BET, PASS] ==> r == Rewards(-1, 1)
    ensures !IsShowdown(h) && h != [BET, PASS] && h != [PASS, BET, PASS] ==> r == Rewards(0, 0)
  {
    var winner := if card0 > card1 then 0 else 1;
    if h == [0, 0] then WinnerTakes(winner, 1)
    else if h == [1, 0] then Rewards(1, -1)
    else if h == [1, 1] then WinnerTakes(winner, 2)
    else if h == [0, 1, 0] then Rewards(-1, 1)
    else if h == [0, 1, 1] then WinnerTakes(winner, 2)
    else Rewards(0, 0)
  }

  /** Every action is a pass or a bet. */
  predicate Binary(h: seq<int>)
  {
    forall i :: 0 <= i < |h| ==> h[i] == PASS || h[i] == BET
  }

  /** No earlier point of the history ended the hand. */
  predicate Playable(h: seq<int>)
  {
    forall k :: 0 <= k < |h| ==> !IsTerminal(h[..k])
  }

  const TerminalHistories: seq<seq<int>> := [[0, 0], [1, 0], [1, 1], [0, 1, 0], [0, 1, 1]]

  /**
   * In play with passes and bets only, a hand lasts at most three actions and ends
   * exactly at the five histories of Kuhn poker, each of which pays something.
   */
  lemma PlayEnds(h: seq<int>)
    requires Binary(h) && Playable(h)
    ensures |h| <= 3
    ensures IsTerminal(h) <==> h in TerminalHistories
    ensures IsTerminal(h) ==> forall c0, c1 :: CalculatePayoffs(h, c0, c1) != Rewards(0, 0)
  {
    if |h| > 3 {
      PrefixOfThree(h);
      assert false;
    }
    if |h| == 3 {
      assert !IsTerminal(h[..2]);
      assert h[..2] == [h[0], h[1]];
      assert h == [h[0], h[1], h[2]];
    }
    if |h| == 2 {
      assert h == [h[0], h[1]];
    }
    if |h| == 1 {
      assert h == [h[0]];
    }
  }

  lemma PrefixOfThree(h: seq<int>)
    requires |h| >= 3
    ensures IsTerminal(h[..3])
  {
  }

  /** A history of passes and bets is written one digit per action. */
  lemma BinaryDigits(h: seq<int>)
    ensures Binary(h) ==>
              |Decimal.JoinInts(h)| == |h| &&
              forall i :: 0 <= i < |h| ==> Decimal.JoinInts(h)[i] == (if h[i] == 0 then '0' else '1')
  {
    if Binary(h) {
      assert Decimal.SingleDigits(h);
      Decimal.JoinSingleDigits(h);
    }
  }

  /** What `get_state` returns: the player's own card and the history as a digit string. */
  datatype Observation = Observation(card: int, history: string)

  /** The `(state, rewards, done)` triple of `step`. */
  datatype StepResult = StepResult(state: Option<Observation>, rewards: Rewards, done: bool)

  class KuhnPokerEnv {
    var deck: seq<int>
    var hands: seq<int>
    var history: seq<int>
    var playerTurn: int
    var done: bool
    var pot: int

    ghost predicate Valid()
      reads this
    {
      multiset(deck) == multiset{0, 1, 2} && |deck| == 3 &&
      |hands| == 2 && hands[0] == deck[0] && hands[1] == deck[1] &&
      (playerTurn == 0 || playerTurn == 1) && pot == 2
    }

    /** `__init__`, with the first shuffle of the deck as a parameter. */
    constructor(shuffled: seq<int>)
      requires multiset(shuffled) == multiset{0, 1, 2}
      ensures Valid()
      ensures deck == shuffled && history == [] && playerTurn == 0 && !done
    {
      assert |shuffled| == |multiset(shuffled)| == 3;
      deck := shuffled;
      hands := [shuffled[0], shuffled[1]];
      history := [];
      playerTurn := 0;
      done := false;
      pot := 2;
    }

    /**
     * `reset`: deal from `shuffled`, the shuffled deck, and start an empty hand with
     * player 0 to act; the two hands are different cards.
     */
    method Reset(shuffled: seq<int>) returns (state: Observation)
      requires multiset(shuffled) == multiset{0, 1, 2}
      modifies this
      ensures Valid()
      ensures deck == shuffled && hands == [shuffled[0], shuffled[1]]
      ensures history == [] && playerTurn == 0 && !done && pot == 2
      ensures hands[0] != hands[1]
      ensures state == GetState(0)
    {
      assert |shuffled| == |multiset(shuffled)| == 3;
      DealtCardsDistinct(shuffled);
      deck := shuffled;
      hands := [deck[0], deck[1]];
      history := [];
      playerTurn := 0;
      done := false;
      pot := 2;
      state := GetState(0);
    }

    /** `get_state`: the player's card and the history as a string of digits. */
    function GetState(playerId: int): (s: Observation)
      requires Valid() && (playerId == 0 || playerId == 1)
      reads this
      ensures s.card == hands[playerId]
      ensures Binary(history) ==>
                |s.history| == |history| &&
                forall i :: 0 <= i < |history| ==> s.history[i] == (if history[i] == 0 then '0' else '1')
    {
      BinaryDigits(history);
      Observation(hands[playerId], Decimal.JoinInts(history))
    }

    /**
     * `step`: the action is appended whatever it is; a terminal history ends the hand
     * with its payoffs, any other passes the turn with zero rewards.
     */
    method Step(action: int) returns (result: StepResult)
      requires Valid()
      modifies this
      ensures Valid()
      ensures history == old(history) + [action]
      ensures deck == old(deck) && hands == old(hands)
      ensures IsTerminal(history) ==>
                done && playerTurn == old(playerTurn) &&
                result == StepResult(None, CalculatePayoffs(history, hands[0], hands[1]), true)
      ensures !IsTerminal(history) ==>
                done == old(done) && playerTurn == 1 - old(playerTurn) &&
                result == StepResult(Some(GetState(playerTurn)), Rewards(0, 0), false)
    {
      history := history + [action];
      if IsTerminal(history) {
        done := true;
        var payoffs := CalculatePayoffs(history, hands[0], hands[1]);
        return StepResult(None, payoffs, true);
      }
      playerTurn := 1 - playerTurn;
      return StepResult(Some(GetState(playerTurn)), Rewards(0, 0), false);
    }
  }

  /** A shuffled three-card deck holds three different cards. */
  lemma DealtCardsDistinct(shuffled: seq<int>)
    requires multiset(shuffled) == multiset{0, 1, 2}
    ensures |shuffled| == 3
    ensures shuffled[0] != shuffled[1] && shuffled[0] != shuffled[2] && shuffled[1] != shuffled[2]
  {
    assert |shuffled| == |multiset(shuffled)| == 3;
    assert shuffled == [shuffled[0], shuffled[1], shuffled[2]];
    assert multiset(shuffled) == multiset{shuffled[0], shuffled[1], shuffled[2]};
  }
}
