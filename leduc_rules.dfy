/**
 * The rules of Leduc hold'em used by the subgame solver (`LeducRules`):
 * six cards (two suits of Jack, Queen, King) indexed 0..5 with rank `card / 2`,
 * actions 0 = fold, 1 = check/call, 2 = bet/raise, one optional board card.
 */
module LeducRules {
  import opened Options

  const FOLD := 0
  const CHECK_CALL := 1
  const BET_RAISE := 2
  const NUM_CARDS := 6

  /** A per-player amount, the `{0: x, 1: y}` dictionaries of bets and rewards. */
  datatype Chips = Chips(p0: real, p1: real)
  {
    function At(p: int): real
      requires p == 0 || p == 1
    {
      if p == 0 then p0 else p1
    }

    function With(p: int, v: real): (c: Chips)
      requires p == 0 || p == 1
      ensures c.At(p) == v && c.At(1 - p) == At(1 - p)
    {
      if p == 0 then Chips(v, p1) else Chips(p0, v)
    }

    function Total(): real
    {
      p0 + p1
    }
  }

  function Last(h: seq<int>): int
    requires |h| > 0
  {
    h[|h| - 1]
  }

  /** `history.count(x)` */
  function Count(h: seq<int>, x: int): (n: nat)
    ensures n <= |h|
  {
    if |h| == 0 then 0 else Count(h[..|h| - 1], x) + (if h[|h| - 1] == x then 1 else 0)
  }

  /** `LeducRules.get_legal_actions`: the in-round history decides, with a cap of two raises. */
  function GetLegalActions(history: seq<int>, raisesInRound: int): (r: seq<int>)
    ensures forall i :: 0 <= i < |r| ==> 0 <= r[i] <= 2
    ensures forall i, j :: 0 <= i < j < |r| ==> r[i] < r[j]
    ensures |history| == 0 ==> r == [CHECK_CALL, BET_RAISE]
    ensures |history| > 0 && Last(history) == BET_RAISE ==>
              r == if raisesInRound < 2 then [FOLD, CHECK_CALL, BET_RAISE] else [FOLD, CHECK_CALL]
    ensures |history| > 0 && Last(history) == CHECK_CALL ==> r == [CHECK_CALL, BET_RAISE]
    ensures |history| > 0 && Last(history) != CHECK_CALL && Last(history) != BET_RAISE ==> r == []
  {
    if |history| == 0 then [1, 2]
    else if Last(history) == 2 then (if raisesInRound < 2 then [0, 1, 2] else [0, 1])
    else if Last(history) == 1 then [1, 2]
    else []
  }

  /** `LeducRules.is_terminal_round`: the betting round is over. */
  predicate IsTerminalRound(history: seq<int>)
  {
    if |history| == 0 then false
    else if Last(history) == 0 then true
    else if |history| >= 2 && history[|history| - 1] == 1 && history[|history| - 2] == 1 then true
    else Last(history) == 1 && |history| >= 2 && history[|history| - 2] == 2
  }

  /** The round ends exactly on a fold, on check-check, or on a call of a bet or raise. */
  lemma TerminalRoundCases(history: seq<int>)
    ensures IsTerminalRound(history) <==>
              |history| > 0 &&
              (Last(history) == FOLD ||
               (|history| >= 2 && history[|history| - 2..] == [CHECK_CALL, CHECK_CALL]) ||
               (|history| >= 2 && history[|history| - 2..] == [BET_RAISE, CHECK_CALL]))
  {
    if |history| >= 2 {
      var tail := history[|history| - 2..];
      assert tail[0] == history[|history| - 2] && tail[1] == history[|history| - 1];
    }
  }

  /** Histories that legal play from the start of a round can produce. */
  ghost predicate Reachable(history: seq<int>)
    decreases |history|
  {
    |history| == 0 ||
    (var prefix := history[..|history| - 1];
     Reachable(prefix) && !IsTerminalRound(prefix) &&
     Last(history) in GetLegalActions(prefix, Count(prefix, BET_RAISE)))
  }

  /** The histories of a round that is still open. */
  const OpenHistories: seq<seq<int>> := [[], [1], [2], [1, 2], [2, 2], [1, 2, 2]]

  /** One legal action from an open history either ends the round or leads to another open one. */
  lemma OpenStep(prefix: seq<int>, a: int)
    requires prefix in OpenHistories
    requires a in GetLegalActions(prefix, Count(prefix, BET_RAISE))
    requires !IsTerminalRound(prefix + [a])
    ensures prefix + [a] in OpenHistories
  {
    if prefix == [] {
      assert prefix + [a] == [a];
    } else if prefix == [1] {
      assert prefix + [a] == [1, a];
    } else if prefix == [2] {
      OpenStepAfterBet(a);
    } else if prefix == [1, 2] {
      OpenStepAfterCheckBet(a);
    } else {
      TwoRaisesEnd(prefix, a);
      assert false;
    }
  }

  /** After an opening bet, a legal action that keeps the round open is a raise. */
  lemma OpenStepAfterBet(a: int)
    requires a in GetLegalActions([2], Count([2], BET_RAISE))
    requires !IsTerminalRound([2] + [a])
    ensures [2] + [a] in OpenHistories
  {
    assert Count([2], 2) == Count([], 2) + 1 by { assert [2][..0] == []; }
    assert [2] + [a] == [2, a];
  }

  /** After check and bet, a legal action that keeps the round open is a raise. */
  lemma OpenStepAfterCheckBet(a: int)
    requires a in GetLegalActions([1, 2], Count([1, 2], BET_RAISE))
    requires !IsTerminalRound([1, 2] + [a])
    ensures [1, 2] + [a] in OpenHistories
  {
    assert Count([1, 2], 2) == Count([1], 2) + 1 by { assert [1, 2][..1] == [1]; }
    assert Count([1], 2) == 0 by { assert [1][..0] == []; }
    assert [1, 2] + [a] == [1, 2, a];
  }

  /** After two raises only fold and call are legal, and both end the round. */
  lemma TwoRaisesEnd(prefix: seq<int>, a: int)
    requires prefix == [2, 2] || prefix == [1, 2, 2]
    requires a in GetLegalActions(prefix, Count(prefix, BET_RAISE))
    ensures IsTerminalRound(prefix + [a])
  {
    assert Count([2], 2) == 1 by { assert [2][..0] == []; }
    assert Count([1, 2], 2) == 1 by { assert [1, 2][..1] == [1]; assert [1][..0] == []; }
    assert Count([2, 2], 2) == 2 by { assert [2, 2][..1] == [2]; }
    assert Count([1, 2, 2], 2) == 2 by { assert [1, 2, 2][..2] == [1, 2]; }
    assert a == 0 || a == 1;
    assert (prefix + [a])[|prefix|] == a && (prefix + [a])[|prefix| - 1] == 2;
  }

  /**
   * With the raise cap, a round that is still open after legal play is one of six
   * histories, so every round ends within four actions.
   */
  lemma {:induction false} OpenRounds(history: seq<int>)
    requires Reachable(history) && !IsTerminalRound(history)
    ensures history in OpenHistories
  {
    if |history| > 0 {
      OpenRounds(history[..|history| - 1]);
      OpenStepLast(history);
    }
  }

  /** `OpenStep` for a history and its last action. */
  lemma OpenStepLast(history: seq<int>)
    requires |history| > 0 && history[..|history| - 1] in OpenHistories
    requires Last(history) in GetLegalActions(history[..|history| - 1], Count(history[..|history| - 1], BET_RAISE))
    requires !IsTerminalRound(history)
    ensures history in OpenHistories
  {
    var prefix := history[..|history| - 1];
    assert history == prefix + [Last(history)];
    OpenStep(prefix, Last(history));
  }

  lemma {:induction false} RoundLength(history: seq<int>)
    requires Reachable(history)
    ensures |history| <= 4
  {
    if |history| > 0 {
      var prefix := history[..|history| - 1];
      OpenRounds(prefix);
      assert |prefix| <= 3;
    }
  }

  /**
   * A measure that every legal action from an open history decreases: two units per
   * raise still allowed, plus one to three for the position in the round.
   */
  function Potential(history: seq<int>): nat
  {
    if IsTerminalRound(history) then 0
    else
      2 * (if Count(history, 2) < 3 then 3 - Count(history, 2) else 0) +
      (if |history| == 0 then 3 else if Last(history) == 2 then 1 else 2)
  }

  lemma PotentialDecreases(history: seq<int>, a: int)
    requires !IsTerminalRound(history)
    requires a in GetLegalActions(history, Count(history, BET_RAISE))
    ensures Potential(history + [a]) < Potential(history)
  {
    var h' := history + [a];
    assert h'[..|h'| - 1] == history;
    assert Count(h', 2) == Count(history, 2) + (if a == 2 then 1 else 0);
    if |history| > 0 {
      assert h'[|h'| - 2] == Last(history);
    }
  }

  /**
   * `LeducRules.get_payoffs_from_bets`: on a tie both net zero; otherwise the winner
   * nets the pot minus its own bet (the loser's bet) and the loser loses its bet.
   */
  function GetPayoffsFromBets(bets: Chips, winner: int): (r: Chips)
    requires winner == -1 || winner == 0 || winner == 1
    ensures winner == -1 ==> r == Chips(0.0, 0.0)
    ensures winner != -1 ==> r.At(winner) == bets.At(1 - winner) && r.At(1 - winner) == -bets.At(1 - winner)
    ensures r.p0 + r.p1 == 0.0
  {
    var pot := bets.p0 + bets.p1;
    if winner == -1 then Chips(0.0, 0.0)
    else Chips(0.0, 0.0).With(winner, pot - bets.At(winner)).With(1 - winner, -bets.At(1 - winner))
  }

  /** `LeducRules.get_winner`: 0 or 1 for the winning seat, -1 for a tie. */
  function GetWinner(hand0: int, hand1: int, boardRank: Option<int>): (w: int)
    ensures w == -1 || w == 0 || w == 1
  {
    var r0 := hand0 / 2;
    var r1 := hand1 / 2;
    if boardRank.Some? && r0 == boardRank.value && r1 != boardRank.value then 0
    else if boardRank.Some? && r1 == boardRank.value && r0 != boardRank.value then 1
    else if boardRank.Some? && r0 == boardRank.value && r1 == boardRank.value then -1
    else if r0 > r1 then 0
    else if r1 > r0 then 1
    else -1
  }

  /** The strength of a hand: whether it pairs the board, then its rank. */
  datatype Strength = Strength(paired: bool, rank: int)

  function HandStrength(card: int, boardRank: Option<int>): Strength
  {
    Strength(boardRank.Some? && card / 2 == boardRank.value, card / 2)
  }

  /** Lexicographic comparison: 0 if `a` is stronger, 1 if `b` is, -1 if equal. */
  function CompareStrength(a: Strength, b: Strength): int
  {
    if a.paired != b.paired then (if a.paired then 0 else 1)
    else if a.rank > b.rank then 0
    else if b.rank > a.rank then 1
    else -1
  }

  /** A pair with the board beats any unpaired hand; otherwise the higher rank wins. */
  lemma GetWinnerRanksHands(hand0: int, hand1: int, boardRank: Option<int>)
    ensures GetWinner(hand0, hand1, boardRank) ==
            CompareStrength(HandStrength(hand0, boardRank), HandStrength(hand1, boardRank))
  {
  }

  function SwapWinner(w: int): int
  {
    if w == 0 then 1 else if w == 1 then 0 else w
  }

  /** Exchanging the hands exchanges the winner and keeps a tie. */
  lemma GetWinnerAntisymmetric(hand0: int, hand1: int, boardRank: Option<int>)
    ensures GetWinner(hand1, hand0, boardRank) == SwapWinner(GetWinner(hand0, hand1, boardRank))
  {
    GetWinnerRanksHands(hand0, hand1, boardRank);
    GetWinnerRanksHands(hand1, hand0, boardRank);
  }
}
