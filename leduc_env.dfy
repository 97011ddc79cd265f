/**
 * The two-round Leduc hold'em environment (`LeducHoldemEnv`): a six-card deck of
 * (rank, suit) pairs, antes of 1, raises of 2 before the board and 4 after, at most
 * two raises per round, and a showdown where pairing the board beats a high card.
 */
module LeducEnv {
  import opened Options
  import LeducRules

  datatype Card = Card(rank: int, suit: int)

  /** `[(r, s) for r in range(3) for s in range(2)]` */
  const RAW_DECK: seq<Card> := [Card(0, 0), Card(0, 1), Card(1, 0), Card(1, 1), Card(2, 0), Card(2, 1)]

  /**
   * `deck` is an ordering of the raw deck, as `random.shuffle` leaves it: six
   * different cards, each from the raw deck (`ShuffleIsPermutation` shows this is
   * the same as having the raw deck's multiset).
   */
  predicate IsShuffle(deck: seq<Card>)
  {
    |deck| == 6 && (forall i :: 0 <= i < |deck| ==> deck[i] in RAW_DECK) &&
    forall i, j :: 0 <= i < j < |deck| ==> deck[i] != deck[j]
  }

  /** Two positions holding the same card make that card occur twice. */
  lemma RepeatedCount(s: seq<Card>, i: int, j: int)
    requires 0 <= i < j < |s|
    ensures s[i] == s[j] ==> multiset(s)[s[i]] >= 2
  {
    assert s == s[..j] + s[j..];
    assert s[..j][i] == s[i] && s[j..][0] == s[j];
    assert multiset(s) == multiset(s[..j]) + multiset(s[j..]);
  }

  /** A sequence without repeats holds each card at most once. */
  lemma {:induction false} DistinctCount(s: seq<Card>)
    requires forall i, j :: 0 <= i < j < |s| ==> s[i] != s[j]
    ensures forall c :: multiset(s)[c] <= 1
  {
    if s != [] {
      var init := s[..|s| - 1];
      DistinctCount(init);
      assert s == init + [s[|s| - 1]];
      assert s[|s| - 1] !in init;
    }
  }

  /** A sub-multiset as large as the whole is the whole. */
  lemma SubMultisetSameSize(a: multiset<Card>, b: multiset<Card>)
    requires a <= b && |a| == |b|
    ensures a == b
  {
    var rest := b - a;
    assert b == a + rest;
    assert |rest| == 0;
  }

  /** Every permutation of the raw deck is a shuffle: the precondition asks no more of `random.shuffle`. */
  lemma PermutationIsShuffle(shuffled: seq<Card>)
    requires multiset(shuffled) == multiset(RAW_DECK)
    ensures IsShuffle(shuffled)
  {
    assert |shuffled| == |multiset(RAW_DECK)| == 6;
    forall i | 0 <= i < |shuffled|
      ensures shuffled[i] in RAW_DECK
    {
      assert shuffled[i] in multiset(shuffled);
    }
    forall i, j | 0 <= i < j < |shuffled|
      ensures shuffled[i] != shuffled[j]
    {
      RepeatedCount(shuffled, i, j);
      assert multiset(RAW_DECK)[shuffled[i]] <= 1;
    }
  }

  /** Every shuffle is a permutation of the raw deck. */
  lemma ShuffleIsPermutationOf(deck: seq<Card>)
    requires IsShuffle(deck)
    ensures multiset(deck) == multiset(RAW_DECK)
  {
    var have := multiset(deck);
    var full := multiset(RAW_DECK);
    DistinctCount(deck);
    forall c
      ensures have[c] <= full[c]
    {
      if c in deck {
        var i :| 0 <= i < |deck| && deck[i] == c;
        assert c in RAW_DECK;
      }
    }
    SubMultisetSameSize(have, full);
  }

  /** Being a shuffle and being a permutation of the raw deck are the same. */
  lemma ShuffleIsPermutation(deck: seq<Card>)
    ensures IsShuffle(deck) <==> multiset(deck) == multiset(RAW_DECK)
  {
    if IsShuffle(deck) {
      ShuffleIsPermutationOf(deck);
    }
    if multiset(deck) == multiset(RAW_DECK) {
      PermutationIsShuffle(deck);
    }
  }

  /** What `get_state` reports to a player. */
  datatype State = State(card: Card, board: Option<Card>, round: int, history: seq<int>, pot: real)

  /** The `(state, reward, done)` triple of `step`, or the `ValueError` for an illegal action. */
  datatype StepResult =
    | IllegalAction
    | Stepped(state: Option<State>, reward: LeducRules.Chips, done: bool)

  const NO_REWARD := LeducRules.Chips(0.0, 0.0)

  /**
   * `get_legal_actions`: fold and call when facing a bet, otherwise check; a raise
   * while fewer than two raises were made this round.
   */
  function LegalActions(bets: LeducRules.Chips, activePlayer: int, raisesInRound: int): (r: seq<int>)
    requires activePlayer == 0 || activePlayer == 1
    ensures 0 in r <==> bets.At(1 - activePlayer) > bets.At(activePlayer)
    ensures 1 in r
    ensures 2 in r <==> raisesInRound < 2
    ensures forall i :: 0 <= i < |r| ==> 0 <= r[i] <= 2
    ensures forall i, j :: 0 <= i < j < |r| ==> r[i] < r[j]
  {
    var diff := bets.At(1 - activePlayer) - bets.At(activePlayer);
    var base := if diff > 0.0 then [0, 1] else [1];
    if raisesInRound < 2 then base + [2] else base
  }

  /** The fold rewards: the folding player loses its bet, the opponent wins it. */
  function FoldRewards(bets: LeducRules.Chips, folder: int): (r: LeducRules.Chips)
    requires folder == 0 || folder == 1
    ensures r.At(folder) == -bets.At(folder) && r.At(1 - folder) == bets.At(folder)
    ensures r.p0 + r.p1 == 0.0
  {
    var opponent := 1 - folder;
    var totalPot := bets.p0 + bets.p1;
    NO_REWARD.With(opponent, totalPot - bets.At(opponent)).With(folder, -bets.At(folder))
  }

  /** `_showdown`'s winner: 0, 1, or -1 for a tie. */
  function ShowdownWinner(hand0: Card, hand1: Card, board: Card): (w: int)
    ensures w == -1 || w == 0 || w == 1
  {
    var r0, r1, b := hand0.rank, hand1.rank, board.rank;
    var pair0, pair1 := r0 == b, r1 == b;
    if pair0 && !pair1 then 0
    else if pair1 && !pair0 then 1
    else if pair0 && pair1 then -1
    else if r0 > r1 then 0
    else if r1 > r0 then 1
    else -1
  }

  /** `_showdown`: a tie pays nothing, otherwise the winner nets the loser's bet. */
  function ShowdownRewards(hand0: Card, hand1: Card, board: Card, bets: LeducRules.Chips): (r: LeducRules.Chips)
    ensures r.p0 + r.p1 == 0.0
    ensures var w := ShowdownWinner(hand0, hand1, board);
            (w == -1 ==> r == NO_REWARD) &&
            (w != -1 ==> r.At(w) == bets.At(1 - w) && r.At(1 - w) == -bets.At(1 - w))
  {
    var winner := ShowdownWinner(hand0, hand1, board);
    var totalPot := bets.p0 + bets.p1;
    if winner == -1 then NO_REWARD
    else NO_REWARD.With(winner, totalPot - bets.At(winner)).With(1 - winner, -bets.At(1 - winner))
  }

  /** The index `rank * 2 + suit` under which the solver knows a card. */
  function CardIndex(c: Card): int
  {
    c.rank * 2 + c.suit
  }

  /**
   * The environment's showdown agrees with the solver's rules on card indices: a pair
   * with the board beats a high card, and payoffs follow the bets.
   */
  lemma ShowdownMatchesRules(hand0: Card, hand1: Card, board: Card, bets: LeducRules.Chips)
    requires 0 <= hand0.suit <= 1 && 0 <= hand1.suit <= 1
    ensures ShowdownWinner(hand0, hand1, board) ==
            LeducRules.GetWinner(CardIndex(hand0), CardIndex(hand1), Some(board.rank))
    ensures ShowdownRewards(hand0, hand1, board, bets) ==
            LeducRules.GetPayoffsFromBets(bets, LeducRules.GetWinner(CardIndex(hand0), CardIndex(hand1), Some(board.rank)))
  {
    assert CardIndex(hand0) / 2 == hand0.rank;
    assert CardIndex(hand1) / 2 == hand1.rank;
  }

  /** The bets after the in-round actions `history`, starting from `bets`, with raise size `amount`. */
  function ReplayBets(history: seq<int>, bets: LeducRules.Chips, amount: real): LeducRules.Chips
  {
    if |history| == 0 then bets
    else
      var before := ReplayBets(history[..|history| - 1], bets, amount);
      var actor := (|history| - 1) % 2;
      if history[|history| - 1] == 2 then before.With(actor, before.At(1 - actor) + amount) else before
  }

  /**
   * From equal bets, the environment offers in every open round exactly the actions
   * the solver's rules allow for that round's history.
   */
  lemma LegalActionsMatchRules(history: seq<int>, bets: LeducRules.Chips, amount: real)
    requires LeducRules.Reachable(history) && !LeducRules.IsTerminalRound(history)
    requires bets.p0 == bets.p1 && amount > 0.0
    ensures LegalActions(ReplayBets(history, bets, amount), |history| % 2, LeducRules.Count(history, 2)) ==
            LeducRules.GetLegalActions(history, LeducRules.Count(history, 2))
  {
    LeducRules.OpenRounds(history);
    OpenLegalActionsMatch(history, bets, amount);
  }

  predicate LegalActionsAgree(h: seq<int>, bets: LeducRules.Chips, amount: real)
  {
    LegalActions(ReplayBets(h, bets, amount), |h| % 2, LeducRules.Count(h, 2)) ==
    LeducRules.GetLegalActions(h, LeducRules.Count(h, 2))
  }

  lemma OpenLegalActionsMatch(h: seq<int>, bets: LeducRules.Chips, amount: real)
    requires h in LeducRules.OpenHistories
    requires bets.p0 == bets.p1 && amount > 0.0
    ensures LegalActionsAgree(h, bets, amount)
  {
    if h == [] {
      OpenCase0(bets, amount);
    } else if h == [1] {
      OpenCase1(bets, amount);
    } else if h == [2] {
      OpenCase2(bets, amount);
    } else if h == [1, 2] {
      OpenCase3(bets, amount);
    } else if h == [2, 2] {
      OpenCase4(bets, amount);
    } else {
      assert h == [1, 2, 2];
      OpenCase5(bets, amount);
    }
  }

  lemma OpenCase0(bets: LeducRules.Chips, amount: real)
    requires bets.p0 == bets.p1 && amount > 0.0
    ensures LegalActionsAgree([], bets, amount)
  {
  }

  lemma OpenCase1(bets: LeducRules.Chips, amount: real)
    requires bets.p0 == bets.p1 && amount > 0.0
    ensures LegalActionsAgree([1], bets, amount)
  {
    ReplayOne(1, bets, amount);
    assert LeducRules.Count([1], 2) == 0 by { assert [1][..0] == []; }
  }

  lemma OpenCase2(bets: LeducRules.Chips, amount: real)
    requires bets.p0 == bets.p1 && amount > 0.0
    ensures LegalActionsAgree([2], bets, amount)
  {
    ReplayOne(2, bets, amount);
    assert LeducRules.Count([2], 2) == 1 by { assert [2][..0] == []; }
  }

  lemma OpenCase3(bets: LeducRules.Chips, amount: real)
    requires bets.p0 == bets.p1 && amount > 0.0
    ensures LegalActionsAgree([1, 2], bets, amount)
  {
    ReplayTwo(1, 2, bets, amount);
    assert LeducRules.Count([1, 2], 2) == 1 by { assert [1, 2][..1] == [1] && [1][..0] == []; }
  }

  lemma OpenCase4(bets: LeducRules.Chips, amount: real)
    requires bets.p0 == bets.p1 && amount > 0.0
    ensures LegalActionsAgree([2, 2], bets, amount)
  {
    ReplayTwo(2, 2, bets, amount);
    assert LeducRules.Count([2, 2], 2) == 2 by { assert [2, 2][..1] == [2] && [2][..0] == []; }
  }

  lemma OpenCase5(bets: LeducRules.Chips, amount: real)
    requires bets.p0 == bets.p1 && amount > 0.0
    ensures LegalActionsAgree([1, 2, 2], bets, amount)
  {
    ReplayTwo(1, 2, bets, amount);
    ReplayNext([1, 2], 2, bets, amount);
    assert [1, 2] + [2] == [1, 2, 2];
    assert LeducRules.Count([1, 2, 2], 2) == 2 by {
      assert [1, 2, 2][..2] == [1, 2] && [1, 2][..1] == [1] && [1][..0] == [];
    }
  }

  lemma ReplayTwo(a: int, b: int, bets: LeducRules.Chips, amount: real)
    ensures ReplayBets([a, b], bets, amount) ==
            var first := ReplayBets([a], bets, amount);
            if b == 2 then first.With(1, first.p0 + amount) else first
  {
    assert [a, b][..1] == [a];
  }

  lemma ReplayOne(a: int, bets: LeducRules.Chips, amount: real)
    ensures ReplayBets([a], bets, amount) == if a == 2 then bets.With(0, bets.p1 + amount) else bets
  {
    assert [a][..0] == [];
  }

  lemma ReplayNext(h: seq<int>, a: int, bets: LeducRules.Chips, amount: real)
    ensures var before := ReplayBets(h, bets, amount);
            var actor := |h| % 2;
            ReplayBets(h + [a], bets, amount) ==
            if a == 2 then before.With(actor, before.At(1 - actor) + amount) else before
  {
    assert (h + [a])[..|h|] == h;
  }

  class LeducHoldemEnv {
    var deck: seq<Card>
    var hands: seq<Card>
    var boardCard: Card
    /** The actions of the current round. */
    var history: seq<int>
    var round: int
    var activePlayer: int
    var done: bool
    var pot: real
    var bets: LeducRules.Chips
    var raisesInRound: int
    /** Set by the showdown; a later reset keeps it. */
    var finalPayoffs: Option<LeducRules.Chips>

    ghost predicate Valid()
      reads this
    {
      |deck| == 6 && IsShuffle(deck) &&
      |hands| == 2 && hands[0] == deck[0] && hands[1] == deck[1] && boardCard == deck[2] &&
      (round == 0 || round == 1) &&
      (activePlayer == 0 || activePlayer == 1) &&
      pot == bets.p0 + bets.p1
    }

    /** `__init__`, with the shuffled deck the first `reset` deals from as a parameter. */
    constructor(shuffled: seq<Card>)
      requires IsShuffle(shuffled)
      ensures Valid()
      ensures deck == shuffled && history == [] && round == 0 && activePlayer == 0 && !done
      ensures pot == 2.0 && bets == LeducRules.Chips(1.0, 1.0) && raisesInRound == 0
      ensures finalPayoffs == None
    {
      deck := shuffled;
      hands := [shuffled[0], shuffled[1]];
      boardCard := shuffled[2];
      history := [];
      round := 0;
      activePlayer := 0;
      done := false;
      pot := 2.0;
      bets := LeducRules.Chips(1.0, 1.0);
      raisesInRound := 0;
      finalPayoffs := None;
    }

    /** `reset`: deal from `shuffled` (the shuffled copy of the raw deck) and post the antes. */
    method Reset(shuffled: seq<Card>) returns (state: State)
      requires IsShuffle(shuffled)
      modifies this
      ensures Valid()
      ensures deck == shuffled && hands == [shuffled[0], shuffled[1]] && boardCard == shuffled[2]
      ensures history == [] && round == 0 && activePlayer == 0 && !done
      ensures pot == 2.0 && bets == LeducRules.Chips(1.0, 1.0) && raisesInRound == 0
      ensures finalPayoffs == old(finalPayoffs)
      ensures state == GetState(0)
      ensures hands[0] != hands[1] && hands[0] != boardCard && hands[1] != boardCard
    {
      deck := shuffled;
      hands := [deck[0], deck[1]];
      boardCard := deck[2];
      history := [];
      round := 0;
      activePlayer := 0;
      done := false;
      pot := 2.0;
      bets := LeducRules.Chips(1.0, 1.0);
      raisesInRound := 0;
      state := GetState(0);
    }

    /** `get_state`: the board is shown only in round 1; the history is a copy. */
    function GetState(playerId: int): (s: State)
      requires Valid() && (playerId == 0 || playerId == 1)
      reads this
      ensures s.card == hands[playerId] && s.history == history && s.pot == pot && s.round == round
      ensures s.board == if round == 1 then Some(boardCard) else None
    {
      State(hands[playerId], if round == 1 then Some(boardCard) else None, round, history, pot)
    }

    function CurrentLegalActions(): seq<int>
      requires Valid()
      reads this
    {
      LegalActions(bets, activePlayer, raisesInRound)
    }

    /**
     * `_end_round`: the first round hands over to the second with an empty history,
     * no raises and player 0 to act; the second ends the hand with a showdown.
     */
    method EndRound()
      requires Valid()
      modifies this
      ensures Valid()
      ensures deck == old(deck) && hands == old(hands) && boardCard == old(boardCard)
      ensures pot == old(pot) && bets == old(bets)
      ensures old(round) == 0 ==>
                round == 1 && history == [] && raisesInRound == 0 && activePlayer == 0 &&
                done == old(done) && finalPayoffs == old(finalPayoffs)
      ensures old(round) == 1 ==>
                done && finalPayoffs == Some(ShowdownRewards(hands[0], hands[1], boardCard, bets)) &&
                round == 1 && history == old(history) && raisesInRound == old(raisesInRound) &&
                activePlayer == old(activePlayer)
    {
      if round == 0 {
        round := 1;
        history := [];
        raisesInRound := 0;
        activePlayer := 0;
      } else {
        done := true;
        finalPayoffs := Some(ShowdownRewards(hands[0], hands[1], boardCard, bets));
      }
    }

    /**
     * `step`: an action outside the legal list is refused. A fold ends the hand with
     * the fold rewards; a call matches the bet and ends the round; a check ends the
     * round after a check and otherwise passes the turn; a raise matches and adds the
     * round's raise size, counts the raise and passes the turn. When the hand ends at
     * showdown the reward returned is zero and the payoffs sit in `finalPayoffs`.
     */
    method Step(action: int) returns (result: StepResult)
      requires Valid()
      modifies this
      ensures Valid()
      ensures deck == old(deck) && hands == old(hands) && boardCard == old(boardCard)
      ensures action !in LegalActions(old(bets), old(activePlayer), old(raisesInRound)) ==>
                result == IllegalAction &&
                history == old(history) && round == old(round) && activePlayer == old(activePlayer) &&
                done == old(done) && bets == old(bets) && raisesInRound == old(raisesInRound) &&
                finalPayoffs == old(finalPayoffs)
      ensures result != IllegalAction <==> action in LegalActions(old(bets), old(activePlayer), old(raisesInRound))
      ensures result != IllegalAction && action == LeducRules.FOLD ==>
                result == Stepped(None, FoldRewards(old(bets), old(activePlayer)), true) && done &&
                bets == old(bets) && history == old(history) && round == old(round) &&
                activePlayer == old(activePlayer) && raisesInRound == old(raisesInRound) &&
                finalPayoffs == old(finalPayoffs)
      ensures result != IllegalAction && action == LeducRules.CHECK_CALL ==>
              var actor := old(activePlayer);
              var facing := old(bets).At(1 - actor) > old(bets).At(actor);
              var endsRound := facing || (|old(history)| > 0 && old(history)[|old(history)| - 1] == 1);
              (facing ==> bets.p0 == bets.p1 && bets.At(1 - actor) == old(bets).At(1 - actor)) &&
              (!facing ==> bets == old(bets)) &&
              (!endsRound ==>
                 history == old(history) + [1] && activePlayer == 1 - actor && round == old(round) &&
                 raisesInRound == old(raisesInRound) && done == old(done) &&
                 finalPayoffs == old(finalPayoffs) &&
                 result == Stepped(Some(GetState(activePlayer)), NO_REWARD, false)) &&
              (endsRound && old(round) == 0 ==>
                 round == 1 && history == [] && raisesInRound == 0 && activePlayer == 0 &&
                 done == old(done) && finalPayoffs == old(finalPayoffs) &&
                 result == (if done then Stepped(None, NO_REWARD, true)
                            else Stepped(Some(GetState(0)), NO_REWARD, false))) &&
              (endsRound && old(round) == 1 ==>
                 done && finalPayoffs == Some(ShowdownRewards(hands[0], hands[1], boardCard, bets)) &&
                 round == 1 && history == old(history) && raisesInRound == old(raisesInRound) &&
                 activePlayer == old(activePlayer) &&
                 result == Stepped(None, NO_REWARD, true))
      ensures result != IllegalAction && action == LeducRules.BET_RAISE ==>
              var actor := old(activePlayer);
              bets.At(actor) == old(bets).At(1 - actor) + (if old(round) == 0 then 2.0 else 4.0) &&
              bets.At(1 - actor) == old(bets).At(1 - actor) &&
              raisesInRound == old(raisesInRound) + 1 && history == old(history) + [2] &&
              activePlayer == 1 - actor && round == old(round) && done == old(done) &&
              finalPayoffs == old(finalPayoffs) &&
              result == Stepped(Some(GetState(activePlayer)), NO_REWARD, false)
    {
      if action !in LegalActions(bets, activePlayer, raisesInRound) {
        return IllegalAction;
      }
      if action == LeducRules.FOLD {
        result := Fold();
      } else if action == LeducRules.CHECK_CALL {
        result := CheckCall();
      } else {
        result := Raise();
      }
    }

    /** The fold branch of `step`: the hand ends and the folder loses its bet. */
    method Fold() returns (result: StepResult)
      requires Valid()
      modifies this
      ensures Valid()
      ensures deck == old(deck) && hands == old(hands) && boardCard == old(boardCard)
      ensures result == Stepped(None, FoldRewards(old(bets), old(activePlayer)), true)
      ensures done && bets == old(bets) && history == old(history) && round == old(round) &&
              activePlayer == old(activePlayer) && raisesInRound == old(raisesInRound) &&
              finalPayoffs == old(finalPayoffs)
    {
      done := true;
      var opponent := 1 - activePlayer;
      var totalPot := bets.p0 + bets.p1;
      var reward := NO_REWARD;
      reward := reward.With(opponent, totalPot - bets.At(opponent));
      reward := reward.With(activePlayer, -bets.At(activePlayer));
      return Stepped(None, reward, true);
    }

    /**
     * The check/call branch of `step`: facing a bet, match it and end the round; a
     * check after a check ends the round; any other check passes the turn.
     */
    method CheckCall() returns (result: StepResult)
      requires Valid()
      modifies this
      ensures Valid()
      ensures deck == old(deck) && hands == old(hands) && boardCard == old(boardCard)
      ensures var actor := old(activePlayer);
              var facing := old(bets).At(1 - actor) > old(bets).At(actor);
              var endsRound := facing || (|old(history)| > 0 && old(history)[|old(history)| - 1] == 1);
              (facing ==> bets.p0 == bets.p1 && bets.At(1 - actor) == old(bets).At(1 - actor)) &&
              (!facing ==> bets == old(bets)) &&
              (!endsRound ==>
                 history == old(history) + [1] && activePlayer == 1 - actor && round == old(round) &&
                 raisesInRound == old(raisesInRound) && done == old(done) &&
                 finalPayoffs == old(finalPayoffs) &&
                 result == Stepped(Some(GetState(activePlayer)), NO_REWARD, false)) &&
              (endsRound && old(round) == 0 ==>
                 round == 1 && history == [] && raisesInRound == 0 && activePlayer == 0 &&
                 done == old(done) && finalPayoffs == old(finalPayoffs) &&
                 result == (if done then Stepped(None, NO_REWARD, true)
                            else Stepped(Some(GetState(0)), NO_REWARD, false))) &&
              (endsRound && old(round) == 1 ==>
                 done && finalPayoffs == Some(ShowdownRewards(hands[0], hands[1], boardCard, bets)) &&
                 round == 1 && history == old(history) && raisesInRound == old(raisesInRound) &&
                 activePlayer == old(activePlayer) &&
                 result == Stepped(None, NO_REWARD, true))
    {
      var opponent := 1 - activePlayer;
      var diff := bets.At(opponent) - bets.At(activePlayer);
      if diff > 0.0 {
        bets := bets.With(activePlayer, bets.At(activePlayer) + diff);
        pot := pot + diff;
        EndRound();
      } else if |history| > 0 && history[|history| - 1] == 1 {
        EndRound();
      } else {
        history := history + [1];
        activePlayer := opponent;
        return Stepped(Some(GetState(activePlayer)), NO_REWARD, false);
      }
      if done {
        return Stepped(None, NO_REWARD, true);
      }
      return Stepped(Some(GetState(activePlayer)), NO_REWARD, false);
    }

    /**
     * The raise branch of `step`: match the opponent and add 2 in the first round or
     * 4 in the second, count the raise, record it and pass the turn.
     */
    method Raise() returns (result: StepResult)
      requires Valid()
      modifies this
      ensures Valid()
      ensures deck == old(deck) && hands == old(hands) && boardCard == old(boardCard)
      ensures var actor := old(activePlayer);
              bets.At(actor) == old(bets).At(1 - actor) + (if old(round) == 0 then 2.0 else 4.0) &&
              bets.At(1 - actor) == old(bets).At(1 - actor) &&
              raisesInRound == old(raisesInRound) + 1 && history == old(history) + [2] &&
              activePlayer == 1 - actor && round == old(round) && done == old(done) &&
              finalPayoffs == old(finalPayoffs) &&
              result == Stepped(Some(GetState(activePlayer)), NO_REWARD, false)
    {
      var amount := if round == 0 then 2.0 else 4.0;
      var opponent := 1 - activePlayer;
      var callAmount := bets.At(opponent) - bets.At(activePlayer);
      var totalAdd := callAmount + amount;
      bets := bets.With(activePlayer, bets.At(activePlayer) + totalAdd);
      pot := pot + totalAdd;
      raisesInRound := raisesInRound + 1;
      history := history + [2];
      activePlayer := opponent;
      return Stepped(Some(GetState(activePlayer)), NO_REWARD, false);
    }
  }
}
