/**
 * The no-limit hold'em rules used by the Slumbot ReBeL search (`NLHERules`): the
 * abstract legal actions, the winner from evaluator scores, and the 1326 two-card
 * starting hands. A treys card is modelled by the two numbers treys reads back from
 * it: its rank 0..12 (deuce to ace) and its suit bit 1, 2, 4 or 8.
 */
module NlheGame {
  const FOLD := 0
  const CHECK_CALL := 1
  const POT_BET := 2
  const ALL_IN := 3

  datatype Card = Card(rank: int, suitInt: int)

  /** The suit bits treys gives to the suit letters `s`, `h`, `d`, `c`, in deck order. */
  const SUIT_INTS: seq<int> := [1, 2, 4, 8]

  const DECK_SIZE: nat := 52

  /** `[Card.new(r + s) for r in '23456789TJQKA' for s in 'shdc']`: rank-major, suit-minor. */
  function Deck(): (d: seq<Card>)
    ensures |d| == DECK_SIZE
    ensures forall k :: 0 <= k < DECK_SIZE ==> d[k] == Card(k / 4, SUIT_INTS[k % 4])
  {
    seq(DECK_SIZE, k requires 0 <= k < DECK_SIZE => Card(k / 4, SUIT_INTS[k % 4]))
  }

  /** The 52 cards are all different. */
  lemma DeckDistinct()
    ensures forall a, b :: 0 <= a < b < DECK_SIZE ==> Deck()[a] != Deck()[b]
  {
    forall a, b | 0 <= a < b < DECK_SIZE
      ensures Deck()[a] != Deck()[b]
    {
      if a / 4 == b / 4 {
        assert a % 4 != b % 4;
      }
    }
  }

  /**
   * `get_legal_actions`: fold only when the bets differ, then check/call, pot bet and
   * all-in. The history, pot and stacks are not consulted.
   */
  function GetLegalActions(history: seq<int>, pot: real, currentBets: seq<int>, stackSizes: seq<real>): (r: seq<int>)
    requires |currentBets| >= 2
    ensures FOLD in r <==> currentBets[0] != currentBets[1]
    ensures CHECK_CALL in r && POT_BET in r && ALL_IN in r
    ensures forall i, j :: 0 <= i < j < |r| ==> r[i] < r[j]
    ensures forall i :: 0 <= i < |r| ==> FOLD <= r[i] <= ALL_IN
  {
    var canCheck := currentBets[0] == currentBets[1];
    (if !canCheck then [FOLD] else []) + [CHECK_CALL, POT_BET, ALL_IN]
  }

  /** The legal actions depend on the two current bets only. */
  lemma LegalActionsIgnoreHistoryPotStacks(h1: seq<int>, p1: real, b1: seq<int>, s1: seq<real>,
                                           h2: seq<int>, p2: real, b2: seq<int>, s2: seq<real>)
    requires |b1| >= 2 && |b2| >= 2 && b1[0] == b2[0] && b1[1] == b2[1]
    ensures GetLegalActions(h1, p1, b1, s1) == GetLegalActions(h2, p2, b2, s2)
  {
  }

  /**
   * `get_winner`: `evaluate` is the treys evaluator (lower scores are better hands);
   * the lower score wins and equal scores tie (-1).
   */
  function GetWinner(evaluate: (seq<Card>, seq<Card>) -> int, hand0: seq<Card>, hand1: seq<Card>, board: seq<Card>): (w: int)
    ensures w == 0 <==> evaluate(board, hand0) < evaluate(board, hand1)
    ensures w == 1 <==> evaluate(board, hand1) < evaluate(board, hand0)
    ensures w == -1 <==> evaluate(board, hand0) == evaluate(board, hand1)
  {
    var s0 := evaluate(board, hand0);
    var s1 := evaluate(board, hand1);
    if s0 < s1 then 0 else if s1 < s0 then 1 else -1
  }

  /** Swapping the hands swaps the winners 0 and 1 and keeps a tie. */
  lemma GetWinnerAntisymmetric(evaluate: (seq<Card>, seq<Card>) -> int, hand0: seq<Card>, hand1: seq<Card>, board: seq<Card>)
    ensures var w := GetWinner(evaluate, hand0, hand1, board);
            GetWinner(evaluate, hand1, hand0, board) == (if w == -1 then -1 else 1 - w)
  {
  }

  /** The index pairs `(i, j)` for `j` from `i + 1` to `n - 1`: one row of the double loop. */
  function Row(n: nat, i: nat): (r: seq<(nat, nat)>)
    requires i < n
    ensures |r| == n - i - 1
    ensures forall k :: 0 <= k < |r| ==> r[k] == (i, i + 1 + k)
  {
    seq(n - i - 1, k requires 0 <= k < n - i - 1 => (i, i + 1 + k))
  }

  /** The first `i` rows, in order: pairs `a < b < n` with `a < i`. */
  function RowsUpTo(n: nat, i: nat): (r: seq<(nat, nat)>)
    requires i <= n
    ensures forall k :: 0 <= k < |r| ==> r[k].0 < i && r[k].0 < r[k].1 < n
  {
    if i == 0 then [] else RowsUpTo(n, i - 1) + Row(n, i - 1)
  }

  /** The index pairs of the double loop, in the order it appends them. */
  function IndexPairs(n: nat): seq<(nat, nat)>
  {
    RowsUpTo(n, n)
  }

  /** The hands at the index pairs `ps`. */
  function HandsAt(deck: seq<Card>, ps: seq<(nat, nat)>): (hands: seq<(Card, Card)>)
    requires forall k :: 0 <= k < |ps| ==> ps[k].0 < |deck| && ps[k].1 < |deck|
    ensures |hands| == |ps|
    ensures forall k :: 0 <= k < |ps| ==> hands[k] == (deck[ps[k].0], deck[ps[k].1])
  {
    seq(|ps|, k requires 0 <= k < |ps| => (deck[ps[k].0], deck[ps[k].1]))
  }

  predicate LexLess(p: (nat, nat), q: (nat, nat))
  {
    p.0 < q.0 || (p.0 == q.0 && p.1 < q.1)
  }

  /** The first `i` rows hold `i (2n - i - 1) / 2` pairs. */
  lemma {:induction false} RowsUpToLength(n: nat, i: nat)
    requires i <= n
    ensures 2 * |RowsUpTo(n, i)| == i * (2 * n - i - 1)
  {
    if i > 0 {
      RowsUpToLength(n, i - 1);
      assert |RowsUpTo(n, i)| == |RowsUpTo(n, i - 1)| + (n - i);
    }
  }

  /** The first `i` rows are in strictly increasing lexicographic order. */
  lemma {:induction false} RowsUpToSorted(n: nat, i: nat)
    requires i <= n
    ensures forall a, b :: 0 <= a < b < |RowsUpTo(n, i)| ==> LexLess(RowsUpTo(n, i)[a], RowsUpTo(n, i)[b])
  {
    if i > 0 {
      RowsUpToSorted(n, i - 1);
      var prev := RowsUpTo(n, i - 1);
      var row := Row(n, i - 1);
      var all := prev + row;
      assert RowsUpTo(n, i) == all;
      forall a, b | 0 <= a < b < |all|
        ensures LexLess(all[a], all[b])
      {
        if a >= |prev| {
          assert all[a] == row[a - |prev|] && all[b] == row[b - |prev|];
        } else if b >= |prev| {
          assert all[a] == prev[a] && all[b] == row[b - |prev|];
        } else {
          assert all[a] == prev[a] && all[b] == prev[b];
        }
      }
    }
  }

  /** Every pair `a < b < n` with `a < i` is among the first `i` rows. */
  lemma {:induction false} RowsUpToComplete(n: nat, i: nat)
    requires i <= n
    ensures forall a: nat, b: nat :: a < i && a < b < n ==> (a, b) in RowsUpTo(n, i)
  {
    if i > 0 {
      RowsUpToComplete(n, i - 1);
      var prev := RowsUpTo(n, i - 1);
      var row := Row(n, i - 1);
      var all := prev + row;
      assert RowsUpTo(n, i) == all;
      forall a: nat, b: nat | a < i && a < b < n
        ensures (a, b) in all
      {
        if a == i - 1 {
          assert row[b - i] == (a, b);
          assert all[|prev| + b - i] == (a, b);
        } else {
          assert (a, b) in prev;
        }
      }
    }
  }

  /** `get_all_hands`' list, declaratively: the deck's hands at the index pairs of the loops. */
  function AllHands(): (hands: seq<(Card, Card)>)
  {
    HandsAt(Deck(), IndexPairs(DECK_SIZE))
  }

  /**
   * `get_all_hands`: 1326 hands, each two deck cards in deck order, every such pair
   * present, none twice, and listed in lexicographic order of the deck indices.
   */
  lemma AllHandsShape()
    ensures |AllHands()| == 1326
    ensures forall k :: 0 <= k < 1326 ==> InDeckOrder(AllHands()[k])
    ensures forall a, b :: 0 <= a < b < DECK_SIZE ==> (Deck()[a], Deck()[b]) in AllHands()
    ensures forall k, l :: 0 <= k < l < 1326 ==> AllHands()[k] != AllHands()[l]
    ensures forall k, l :: 0 <= k < l < 1326 ==> LexLess(IndexPairs(DECK_SIZE)[k], IndexPairs(DECK_SIZE)[l])
  {
    RowsUpToLength(DECK_SIZE, DECK_SIZE);
    RowsUpToSorted(DECK_SIZE, DECK_SIZE);
    assert |IndexPairs(DECK_SIZE)| == 1326;
    assert |AllHands()| == 1326;
    AllHandsFromDeck();
    AllHandsComplete();
    AllHandsDistinct();
  }

  /** Two deck cards, the first earlier in the deck than the second. */
  predicate InDeckOrder(hand: (Card, Card))
  {
    exists a, b :: 0 <= a < b < DECK_SIZE && hand == (Deck()[a], Deck()[b])
  }

  /** Every hand is two deck cards in deck order. */
  lemma AllHandsFromDeck()
    ensures forall k :: 0 <= k < |AllHands()| ==> InDeckOrder(AllHands()[k])
  {
    var ps := IndexPairs(DECK_SIZE);
    var hands := AllHands();
    var deck := Deck();
    assert ps == RowsUpTo(DECK_SIZE, DECK_SIZE);
    forall k | 0 <= k < |hands|
      ensures InDeckOrder(hands[k])
    {
      var a, b := ps[k].0, ps[k].1;
      assert 0 <= a < b < DECK_SIZE;
      assert hands[k] == (deck[a], deck[b]);
    }
  }

  /** Every pair of deck cards in deck order is a hand. */
  lemma AllHandsComplete()
    ensures forall a, b :: 0 <= a < b < DECK_SIZE ==> (Deck()[a], Deck()[b]) in AllHands()
  {
    forall a, b | 0 <= a < b < DECK_SIZE
      ensures (Deck()[a], Deck()[b]) in AllHands()
    {
      PairIsHand(a, b);
    }
  }

  lemma PairIsHand(a: nat, b: nat)
    requires a < b < DECK_SIZE
    ensures (Deck()[a], Deck()[b]) in AllHands()
  {
    RowsUpToComplete(DECK_SIZE, DECK_SIZE);
    var ps := IndexPairs(DECK_SIZE);
    assert (a, b) in ps;
    var k :| 0 <= k < |ps| && ps[k] == (a, b);
    assert AllHands()[k] == (Deck()[a], Deck()[b]);
  }

  /** No hand is listed twice. */
  lemma AllHandsDistinct()
    ensures forall k, l :: 0 <= k < l < |AllHands()| ==> AllHands()[k] != AllHands()[l]
  {
    RowsUpToSorted(DECK_SIZE, DECK_SIZE);
    DeckDistinct();
    var ps := IndexPairs(DECK_SIZE);
    var hands := AllHands();
    var deck := Deck();
    forall k, l | 0 <= k < l < |hands|
      ensures hands[k] != hands[l]
    {
      assert LexLess(ps[k], ps[l]);
      if ps[k].0 != ps[l].0 {
        assert deck[ps[k].0] != deck[ps[l].0];
      } else {
        assert deck[ps[k].1] != deck[ps[l].1];
      }
    }
  }

  /** Every pair of `ps` indexes a deck of `n` cards. */
  predicate PairsBelow(ps: seq<(nat, nat)>, n: nat)
  {
    forall k :: 0 <= k < |ps| ==> ps[k].0 < n && ps[k].1 < n
  }

  lemma HandsAtConcat(deck: seq<Card>, ps: seq<(nat, nat)>, qs: seq<(nat, nat)>)
    requires PairsBelow(ps, |deck|) && PairsBelow(qs, |deck|)
    ensures PairsBelow(ps + qs, |deck|)
    ensures HandsAt(deck, ps + qs) == HandsAt(deck, ps) + HandsAt(deck, qs)
  {
  }

  /** `get_all_hands`: the double loop over the deck, appending each pair. */
  method GetAllHands() returns (hands: seq<(Card, Card)>)
    ensures hands == AllHands()
  {
    var deck := Deck();
    hands := [];
    for i := 0 to |deck|
      invariant PairsBelow(RowsUpTo(DECK_SIZE, i), DECK_SIZE)
      invariant hands == HandsAt(deck, RowsUpTo(DECK_SIZE, i))
    {
      ghost var done := RowsUpTo(DECK_SIZE, i);
      ghost var row := Row(DECK_SIZE, i);
      hands := AppendRow(deck, i, hands);
      HandsAtConcat(deck, done, row);
      assert RowsUpTo(DECK_SIZE, i + 1) == done + row;
    }
  }

  /** The inner loop of `get_all_hands`: card `i` paired with every later card. */
  method AppendRow(deck: seq<Card>, i: nat, start: seq<(Card, Card)>) returns (hands: seq<(Card, Card)>)
    requires |deck| == DECK_SIZE && i < DECK_SIZE
    ensures PairsBelow(Row(DECK_SIZE, i), DECK_SIZE)
    ensures hands == start + HandsAt(deck, Row(DECK_SIZE, i))
  {
    ghost var row := Row(DECK_SIZE, i);
    hands := start;
    for j := i + 1 to |deck|
      invariant hands == start + HandsAt(deck, row[..j - i - 1])
    {
      assert row[..j - i] == row[..j - i - 1] + [(i, j)];
      assert HandsAt(deck, row[..j - i]) == HandsAt(deck, row[..j - i - 1]) + [(deck[i], deck[j])];
      hands := hands + [(deck[i], deck[j])];
    }
    assert row[..|deck| - i - 1] == row;
  }

}
