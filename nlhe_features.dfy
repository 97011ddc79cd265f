/**
 * The value network's input for hold'em (`get_nlhe_features`): both ranges, a
 * 52-slot board block, the pot and stacks in big blinds, and the last 50 actions.
 */
module NlheFeatures {
  import NlheGame

  const CARD_SLOTS: nat := 52
  const HISTORY_SLOTS: nat := 50

  /** The suit bits 1, 2, 4, 8 as 0..3; any other value as 0. */
  function SuitIndex(suitInt: int): (s: nat)
    ensures s < 4
    ensures suitInt in NlheGame.SUIT_INTS ==> NlheGame.SUIT_INTS[s] == suitInt
  {
    if suitInt == 1 then 0
    else if suitInt == 2 then 1
    else if suitInt == 4 then 2
    else if suitInt == 8 then 3
    else 0
  }

  /** `get_card_index`: four slots per rank, one per suit. */
  function GetCardIndex(card: NlheGame.Card): (idx: int)
    ensures 0 <= card.rank <= 12 ==> 0 <= idx < CARD_SLOTS
    ensures idx % 4 == SuitIndex(card.suitInt) && idx / 4 == card.rank
  {
    card.rank * 4 + SuitIndex(card.suitInt)
  }

  predicate ValidSuit(suitInt: int)
  {
    suitInt in NlheGame.SUIT_INTS
  }

  /** Cards with a valid suit get distinct indices exactly when they differ. */
  lemma CardIndexInjective(c1: NlheGame.Card, c2: NlheGame.Card)
    requires ValidSuit(c1.suitInt) && ValidSuit(c2.suitInt)
    ensures GetCardIndex(c1) == GetCardIndex(c2) <==> c1 == c2
  {
  }

  /** The card index inverts the deck enumeration of `get_all_hands`. */
  lemma CardIndexOfDeck(k: nat)
    requires k < NlheGame.DECK_SIZE
    ensures GetCardIndex(NlheGame.Deck()[k]) == k
  {
    var c := NlheGame.Deck()[k];
    assert c.rank == k / 4 && SuitIndex(c.suitInt) == k % 4;
  }

  /** No board card has index `j`. */
  predicate OffBoard(boardCards: seq<NlheGame.Card>, j: int)
  {
    forall c :: c in boardCards ==> GetCardIndex(c) != j
  }

  /** The board block: slot `j` is 1 exactly when a board card has index `j`. */
  function BoardBlock(boardCards: seq<NlheGame.Card>): (v: seq<real>)
    ensures |v| == CARD_SLOTS
  {
    seq(CARD_SLOTS, j => if exists c :: c in boardCards && GetCardIndex(c) == j then 1.0 else 0.0)
  }

  /** `history[-50:]` */
  function Window(history: seq<int>): (w: seq<int>)
    ensures |w| <= HISTORY_SLOTS
    ensures |history| <= HISTORY_SLOTS ==> w == history
    ensures |history| > HISTORY_SLOTS ==> w == history[|history| - HISTORY_SLOTS..]
  {
    if |history| <= HISTORY_SLOTS then history else history[|history| - HISTORY_SLOTS..]
  }

  /** The history block: the window's actions as reals, then zeros. */
  function HistoryBlock(history: seq<int>): (v: seq<real>)
    ensures |v| == HISTORY_SLOTS
  {
    var w := Window(history);
    seq(HISTORY_SLOTS, i requires 0 <= i < HISTORY_SLOTS => if i < |w| then w[i] as real else 0.0)
  }

  /** The meta block: pot and stacks in big blinds. */
  function Meta(pot: real, stacks: seq<real>): (m: seq<real>)
    ensures |m| == 1 + |stacks|
  {
    [pot / 100.0] + seq(|stacks|, i requires 0 <= i < |stacks| => stacks[i] / 100.0)
  }

  /** The feature vector, block by block. */
  function Features(r0: seq<real>, r1: seq<real>, boardCards: seq<NlheGame.Card>, pot: real,
                    stacks: seq<real>, history: seq<int>): (f: seq<real>)
    ensures |f| == |r0| + |r1| + CARD_SLOTS + 1 + |stacks| + HISTORY_SLOTS
  {
    r0 + r1 + BoardBlock(boardCards) + Meta(pot, stacks) + HistoryBlock(history)
  }

  /** `get_nlhe_features`: zero blocks filled by index-writing loops, then concatenated. */
  method GetNlheFeatures(r0: seq<real>, r1: seq<real>, boardCards: seq<NlheGame.Card>, pot: real,
                         stacks: seq<real>, history: seq<int>) returns (f: seq<real>)
    ensures f == Features(r0, r1, boardCards, pot, stacks, history)
  {
    var boardBlock := BoardVector(boardCards);
    var stackNorm := seq(|stacks|, i requires 0 <= i < |stacks| => stacks[i] / 100.0);
    var meta := [pot / 100.0] + stackNorm;
    assert meta == Meta(pot, stacks);
    var histBlock := HistoryVector(history);
    f := r0 + r1 + boardBlock + meta + histBlock;
  }

  /** The board loop: a 1 at the index of each board card that fits the 52 slots. */
  method BoardVector(boardCards: seq<NlheGame.Card>) returns (v: seq<real>)
    ensures v == BoardBlock(boardCards)
  {
    var boardVec := new real[CARD_SLOTS](_ => 0.0);
    for k := 0 to |boardCards|
      invariant forall j :: 0 <= j < CARD_SLOTS ==>
                  boardVec[j] == if exists c :: c in boardCards[..k] && GetCardIndex(c) == j then 1.0 else 0.0
    {
      var idx := GetCardIndex(boardCards[k]);
      assert boardCards[..k + 1] == boardCards[..k] + [boardCards[k]];
      if 0 <= idx < CARD_SLOTS {
        boardVec[idx] := 1.0;
      }
    }
    assert boardCards[..|boardCards|] == boardCards;
    v := boardVec[..];
  }

  /** The history loop: the last 50 actions written from slot 0. */
  method HistoryVector(history: seq<int>) returns (v: seq<real>)
    ensures v == HistoryBlock(history)
  {
    var w := Window(history);
    var histVec := new real[HISTORY_SLOTS](_ => 0.0);
    for i := 0 to |w|
      invariant forall j :: 0 <= j < HISTORY_SLOTS ==> histVec[j] == if j < i then w[j] as real else 0.0
    {
      histVec[i] := w[i] as real;
    }
    v := histVec[..];
  }

  /** Two 1326-hand ranges and two stacks give the 2757 inputs the network expects. */
  lemma FeatureLength(r0: seq<real>, r1: seq<real>, boardCards: seq<NlheGame.Card>, pot: real,
                      stacks: seq<real>, history: seq<int>)
    requires |r0| == 1326 && |r1| == 1326 && |stacks| == 2
    ensures |Features(r0, r1, boardCards, pot, stacks, history)| == 2757
  {
  }

  /**
   * The ranges come first, unchanged; then the board block is 1 exactly at the
   * indices of board cards with ranks 0..12; then pot and stacks over 100.
   */
  lemma {:induction false} FeatureBlocks(r0: seq<real>, r1: seq<real>, boardCards: seq<NlheGame.Card>, pot: real,
                      stacks: seq<real>, history: seq<int>)
    requires forall c :: c in boardCards ==> 0 <= c.rank <= 12 && ValidSuit(c.suitInt)
    ensures var f := Features(r0, r1, boardCards, pot, stacks, history);
            var n := |r0| + |r1|;
            var board := f[n..n + CARD_SLOTS];
            var meta := f[n + CARD_SLOTS..n + CARD_SLOTS + 1 + |stacks|];
            f[..|r0|] == r0 && f[|r0|..n] == r1 &&
            (forall k :: 0 <= k < |boardCards| ==> board[GetCardIndex(boardCards[k])] == 1.0) &&
            (forall j :: 0 <= j < CARD_SLOTS && OffBoard(boardCards, j) ==> board[j] == 0.0) &&
            meta[0] == pot / 100.0 &&
            (forall i :: 0 <= i < |stacks| ==> meta[1 + i] == stacks[i] / 100.0)
  {
    var b := BoardBlock(boardCards);
    var m := Meta(pot, stacks);
    ConcatBlocks(r0, r1, b, m, HistoryBlock(history));
    BoardBlockEntries(boardCards);
    assert m[0] == pot / 100.0;
    assert forall i :: 0 <= i < |stacks| ==> m[1 + i] == stacks[i] / 100.0;
  }

  /** The slices of a five-block concatenation give back its blocks. */
  lemma {:induction false} ConcatBlocks(r0: seq<real>, r1: seq<real>, b: seq<real>, m: seq<real>, h: seq<real>)
    ensures var f := r0 + r1 + b + m + h;
            var n := |r0| + |r1|;
            f[..|r0|] == r0 && f[|r0|..n] == r1 && f[n..n + |b|] == b && f[n + |b|..n + |b| + |m|] == m
  {
    var a := r0 + r1;
    var ab := a + b;
    var abm := ab + m;
    var f := abm + h;
    var n := |a|;
    assert f[..|abm|] == abm;
    assert abm[..|ab|] == ab && abm[|ab|..] == m;
    assert ab[..n] == a && ab[n..] == b;
    assert a[..|r0|] == r0 && a[|r0|..] == r1;
    assert f[..|r0|] == a[..|r0|];
    assert f[|r0|..n] == a[|r0|..];
    assert f[n..n + |b|] == ab[n..];
    assert f[n + |b|..n + |b| + |m|] == abm[|ab|..];
  }


  /** The board block is 1 at the index of every board card and 0 wherever no board card lies. */
  lemma BoardBlockEntries(boardCards: seq<NlheGame.Card>)
    requires forall c :: c in boardCards ==> 0 <= c.rank <= 12 && ValidSuit(c.suitInt)
    ensures forall k :: 0 <= k < |boardCards| ==> BoardBlock(boardCards)[GetCardIndex(boardCards[k])] == 1.0
    ensures forall j :: 0 <= j < CARD_SLOTS && OffBoard(boardCards, j) ==> BoardBlock(boardCards)[j] == 0.0
  {
    var b := BoardBlock(boardCards);
    forall k | 0 <= k < |boardCards|
      ensures b[GetCardIndex(boardCards[k])] == 1.0
    {
      assert boardCards[k] in boardCards;
    }
  }

  /** History slot `i` holds the `i`-th of the last 50 actions, or 0 past them. */
  lemma HistoryBlockEntries(history: seq<int>, i: nat)
    requires i < HISTORY_SLOTS
    ensures var w := Window(history);
            HistoryBlock(history)[i] == if i < |w| then w[i] as real else 0.0
    ensures |history| > HISTORY_SLOTS ==> HistoryBlock(history)[i] == history[|history| - HISTORY_SLOTS + i] as real
  {
  }
}
